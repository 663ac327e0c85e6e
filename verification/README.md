# Quiz crawler: record normaliser, crawl targets and dispatch loop

The batch job in `crawler.py` crawls the numbered pages of one quiz site and
appends what it finds to a Google Sheet. It does three things itself:

- It normalises records. `convert_to_spreadsheet_format` turns every
  extracted quiz record into one flat spreadsheet row:
  `[question] ++ option texts ++ [explanation] ++ [material]`.
  The option texts are padded with `""` until there are at least five.
  An absent field becomes `""`, except the material, which becomes `"Campuran"`.
- It builds the crawl targets: `URL + str(index) + "/"` for every
  `index` in `range(1, SIZE)`.
- It dispatches the fetch results. A successful page is normalised and sent
  to the sheet in one append call. A failed page only produces a log line.

Rendering, extraction, authorisation and the Sheets API belong to external
libraries. The model abstracts them away.

Files:

- `optional.dfy` defines `Maybe`, which stands for a key that a decoded JSON
  object may lack. `Or` plays the role of `dict.get(key, default)`.
- `quiz.dfy` holds the data model (`Choice`, `Record`, `Row`) and the
  configuration constants `MATERIAL`, `SIZE`, `URL`, `SPREADSHEET_ID`
  and `RANGE`.
- `normalizer.dfy` holds the normaliser, plus `RowToRecord`, which reads a
  row back as a fully present record. The two are linked by round-trip lemmas.
- `decimal.dfy` holds `str` on non-negative integers (`NatToString`) and its
  inverse `ParseDecimal`.
- `targets.dfy` holds the URL list and `PageNumber`, which recovers the page
  number from an address.
- `batch.dfy` holds the dispatch loop over an abstract sequence of fetch
  results. Its contract is stated in terms of the reference filters `Successes` and
  `FailureMessages`.

Two points of the program are easy to misread:

- The comment at crawler.py:98 says "exactly 5 options", but the loop at
  crawler.py:99-100 only pads. With more than five options, all of them are
  kept and the row grows.
- A failed fetch is logged as `Crawl failed: <message>` (crawler.py:152).
  The line does not include the URL.

## Model

| member | source | states |
|---|---|---|
| Normalizer.PadOptions | crawler.py:98-100 | padding keeps the given options as a prefix, fills only with `""`, and stops at length max(5, n), so more than five are never cut |
| Normalizer.ConvertRecord | crawler.py:94-106 | a row has 3 + max(5, options) cells: the question (default `""`) first, the option texts in order, blanks up to the sixth cell, the explanation (default `""`) second to last, the material (default `MATERIAL`) last |
| Normalizer.SpreadsheetRows | crawler.py:91-108 | exactly one row per input record, in input order, each the record's own row and each at least eight cells long |
| Normalizer.RowRoundTrip | crawler.py:106 | any row of eight or more cells is reproduced exactly by normalising the record it spells out, so the layout loses no cell |
| Normalizer.RecordRoundTrip | crawler.py:95-106 | reading a record's row back gives the record with its absent fields defaulted and its options padded |
| Normalizer.CompleteKeepsRow | crawler.py:95-103 | filling in the defaults before normalising does not change the row |
| Normalizer.CompleteIdempotent | crawler.py:95-103 | filling in the defaults twice gives the same record as filling them in once |
| Normalizer.SameRowIffSameCompletion | crawler.py:95-106 | two records give the same row if and only if they agree after defaults are filled in |
| Normalizer.FewOptionsGiveEightCells | crawler.py:96-100 | with at most five options the row has exactly 8 cells, and its option cells are the option texts followed by blanks |
| Normalizer.ManyOptionsKept | crawler.py:96-100 | with five or more options, every option text is kept in order and the row has 3 + n cells |
| Normalizer.MissingOptionsGiveFiveBlanks | crawler.py:96 | a missing options list yields five blank option cells |
| Normalizer.EmptyRecordRow | crawler.py:95-106 | a record with no keys becomes seven blanks followed by the default material `MATERIAL` (`"Campuran"`) |
| Normalizer.TwoOptionExampleRow | crawler.py:95-106 | question Q1, options A and B, explanation E and no material become `["Q1","A","B","","","","E","Campuran"]` |
| Normalizer.SpreadsheetRowsAppend | crawler.py:94-106 | normalising two concatenated record lists gives the two row lists concatenated |
| Decimal.NatToString | crawler.py:129 | `str` of a non-negative integer is a non-empty digit string with no leading zero, and is `"0"` only for zero |
| Decimal.ParseNatToString | crawler.py:129 | reading back the decimal rendering of n gives n |
| Decimal.NatToStringParse | crawler.py:129 | every canonical digit string is the rendering of its own value |
| Decimal.NatToStringInjective | crawler.py:129 | two numbers have the same rendering if and only if they are equal |
| Targets.TargetUrls | crawler.py:129 | `range(1, size)` gives max(0, size-1) addresses, and entry i is base + str(i+1) + "/" |
| Targets.PageNumber | crawler.py:129 | a recovered page number is at least 1 and regenerates exactly the address it came from |
| Targets.PageNumberOfTarget | crawler.py:129 | every generated address names its own page number |
| Targets.TargetUrlsMembership | crawler.py:129 | an address is in the list if and only if it names a page number below `size` |
| Targets.TargetUrlsDistinct | crawler.py:129 | no address is generated twice |
| Targets.ConfiguredTargets | crawler.py:18-19 | the configured job has 257 targets, from URL + "1/" to URL + "257/" |
| Batch.Dispatch | crawler.py:140-152 | one append call per successful result, in result order, each to SPREADSHEET_ID/RANGE with USER_ENTERED and carrying that page's normalised rows; one `Crawl failed:` line per failure; appends plus log lines equal the number of results |
| Batch.SuccessesAndFailuresPartition | crawler.py:140-152 | each result is counted exactly once, either as a success or as a failure |
| Batch.DispatchSplits | crawler.py:140 | splitting the result sequence splits the appended pages and the failure messages in the same order |
| Batch.AllFetched | crawler.py:141-150 | when no fetch fails, every result's records are appended, one call per result, in order |
| Batch.SecondOfThreeFails | crawler.py:140-152 | for three results where the second fails, exactly the first and third are appended and the one failure is logged |

## Left out

- `credentials()` (crawler.py:48-64) is not modelled. It reads and writes the token file and runs the interactive OAuth flow.
- `update_values` (crawler.py:67-88) is modelled only as the recorded `AppendCall`. The remote append, its cell-count print (crawler.py:84) and the `An error occurred: ...` print on `HttpError` (crawler.py:87) are left out. The model's `log` holds only `Crawl failed:` lines.
- Batch.Dispatch: the model's sink never fails, so every result is dispatched. In the source, an append that fails with `HttpError` returns normally (crawler.py:86-88). Any other exception ends the batch, and later results are neither appended nor logged. Such exceptions come from `credentials()`, which runs outside the `try` (crawler.py:68), from the transport, or from a response without `updates` (crawler.py:84).
- `credentials()` runs on every append (crawler.py:68). So the first successful page can start the interactive OAuth flow in the middle of the batch. The model does not include this.
- The crawler configuration, `arun_many` and the `asyncio` session (crawler.py:110-138) are external. `Batch.Dispatch` takes the fetch results as a given sequence, in whatever order the fetcher returns them. The model does not include a fetch step that maps targets to results.
- The extraction schemas (crawler.py:20-46) are static configuration for the external library. The decoded records are modelled directly as `Record`.
- `json.loads` of the extracted content (crawler.py:142) is left out. A success carries its records already decoded. In the source, malformed JSON, a JSON `null`, or a non-empty value that is not a list of objects would raise and end the whole batch. An empty object or an empty string makes the loop at crawler.py:94 run zero times. That gives one append with no rows, which the model represents as `Fetched([])`.
- JSON `null` and non-string values are not modelled. A field is either `Absent` or present: a string, or for `options` a list of entries. In the source, `dict.get` returns a present `null` as `None`, not as the default. A present `options: null` makes the comprehension at crawler.py:96 iterate `None`, which raises `TypeError` and ends the batch rather than reading as an empty list.
- The `Processing ...` print of the target list (crawler.py:130) is console output and is left out.
- `crawler-api.py` is not part of this model. It is an HTTP endpoint that wraps a single library call in a catch-all handler and has no logic of its own.
