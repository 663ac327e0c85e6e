/**
 The per-result dispatch loop of the batch job (crawler.py, lines 140-152).
 The fetcher's results arrive as a sequence; a success is normalised and
 handed to the spreadsheet append sink once, a failure is only logged. The
 sink is recorded as the list of append calls it receives.
 */
module Batch {
  import opened Quiz
  import opened Normalizer

  /** One result of the many-page fetch: the decoded records of a page, or an error message. */
  datatype FetchResult = Fetched(records: seq<Record>) | FetchFailed(errorMessage: string)

  /** The arguments of one `update_values` call. */
  datatype AppendCall = AppendCall(
    spreadsheetId: string,
    range: string,
    valueInputOption: string,
    values: seq<Row>)

  /** The value-input policy every append asks for. */
  const VALUE_INPUT_OPTION: string := "USER_ENTERED"

  /** The line printed for a failed fetch. */
  function FailureLine(message: string): string {
    "Crawl failed: " + message
  }

  /** The append call made for the records of one successful page. */
  function AppendFor(records: seq<Record>): AppendCall {
    AppendCall(SPREADSHEET_ID, RANGE, VALUE_INPUT_OPTION, SpreadsheetRows(records))
  }

  /** The record lists of the successful results, in result order. */
  function Successes(results: seq<FetchResult>): (s: seq<seq<Record>>)
    ensures |s| <= |results|
  {
    if |results| == 0 then []
    else
      var last := results[|results| - 1];
      Successes(results[..|results| - 1]) + (if last.Fetched? then [last.records] else [])
  }

  /** The error messages of the failed results, in result order. */
  function FailureMessages(results: seq<FetchResult>): (m: seq<string>)
    ensures |m| <= |results|
  {
    if |results| == 0 then []
    else
      var last := results[|results| - 1];
      FailureMessages(results[..|results| - 1]) + (if last.FetchFailed? then [last.errorMessage] else [])
  }

  /** Every result is either a success or a failure. */
  lemma {:induction false} SuccessesAndFailuresPartition(results: seq<FetchResult>)
    ensures |Successes(results)| + |FailureMessages(results)| == |results|
  {
    if |results| > 0 {
      SuccessesAndFailuresPartition(results[..|results| - 1]);
    }
  }

  /** Splitting the results splits the successes and failures in the same order. */
  lemma {:induction false} DispatchSplits(a: seq<FetchResult>, b: seq<FetchResult>)
    ensures Successes(a + b) == Successes(a) + Successes(b)
    ensures FailureMessages(a + b) == FailureMessages(a) + FailureMessages(b)
    decreases |b|
  {
    if |b| == 0 {
      assert a + b == a;
    } else {
      var b' := b[..|b| - 1];
      assert (a + b)[..|a + b| - 1] == a + b';
      DispatchSplits(a, b');
    }
  }

  /** When no fetch fails, every result's records are appended, one call per result. */
  lemma {:induction false} AllFetched(results: seq<FetchResult>)
    requires forall i :: 0 <= i < |results| ==> results[i].Fetched?
    ensures |Successes(results)| == |results|
    ensures forall i :: 0 <= i < |results| ==> Successes(results)[i] == results[i].records
    ensures FailureMessages(results) == []
  {
    if |results| > 0 {
      AllFetched(results[..|results| - 1]);
    }
  }

  /** Three pages of which the second fails: two appends, one failure line. */
  lemma SecondOfThreeFails(p1: seq<Record>, p3: seq<Record>, message: string)
    ensures Successes([Fetched(p1), FetchFailed(message), Fetched(p3)]) == [p1, p3]
    ensures FailureMessages([Fetched(p1), FetchFailed(message), Fetched(p3)]) == [message]
  {
    var rs := [Fetched(p1), FetchFailed(message), Fetched(p3)];
    var one := [Fetched(p1)];
    var two := [Fetched(p1), FetchFailed(message)];
    assert one[..0] == [];
    assert Successes(one) == [p1] && FailureMessages(one) == [];
    assert two[..1] == one;
    assert Successes(two) == [p1] && FailureMessages(two) == [message];
    assert rs[..2] == two;
  }

  /**
   The loop of lines 140-152: each success becomes exactly one append call
   carrying the rows of its records, each failure exactly one log line, both
   in result order.
   */
  method Dispatch(results: seq<FetchResult>) returns (appends: seq<AppendCall>, log: seq<string>)
    ensures |appends| == |Successes(results)|
    ensures forall k :: 0 <= k < |appends| ==> appends[k] == AppendFor(Successes(results)[k])
    ensures |log| == |FailureMessages(results)|
    ensures forall k :: 0 <= k < |log| ==> log[k] == FailureLine(FailureMessages(results)[k])
    ensures |appends| + |log| == |results|
  {
    appends := [];
    log := [];
    var i := 0;
    while i < |results|
      invariant 0 <= i <= |results|
      invariant |appends| == |Successes(results[..i])|
      invariant forall k :: 0 <= k < |appends| ==> appends[k] == AppendFor(Successes(results[..i])[k])
      invariant |log| == |FailureMessages(results[..i])|
      invariant forall k :: 0 <= k < |log| ==> log[k] == FailureLine(FailureMessages(results[..i])[k])
    {
      assert results[..i + 1][..i] == results[..i];
      if results[i].Fetched? {
        appends := appends + [AppendFor(results[i].records)];
      } else {
        log := log + [FailureLine(results[i].errorMessage)];
      }
      i := i + 1;
    }
    assert results[..i] == results;
    SuccessesAndFailuresPartition(results);
  }
}
