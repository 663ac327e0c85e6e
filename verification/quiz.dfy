/**
 The data model of the quiz crawler: the records the extraction schema yields
 for one page, the spreadsheet rows they become, and the job's configuration
 constants (crawler.py, lines 13-19).
 */
module Quiz {
  import opened Optional

  /** Label written in the material column when a record carries none. */
  const MATERIAL: string := "Campuran"

  /** Exclusive upper bound of the page numbers the batch job visits. */
  const SIZE: int := 258

  /** Base address every page number is appended to. */
  const URL: string := "https://belajarbro.id/cpns/soal/twk/"

  /** Target sheet and range of every append call. */
  const SPREADSHEET_ID: string := "1ZAfe0hi6gl1hdss8Qxi0L1T-_zu6TU5_Ysyk_r3wIyY"
  const RANGE: string := "TWK!A1:H10000"

  /** Minimum number of option columns in a row. */
  const OPTION_SLOTS: nat := 5

  /** The larger of two integers. */
  function Max(a: int, b: int): int {
    if a < b then b else a
  }

  /** One entry of a record's `options` list: an object that may hold an `option` key. */
  datatype Choice = Choice(option: Maybe<string>)

  /**
   One decoded quiz item. Each field is `Absent` when its key is absent from the
   decoded object; `options` is the nested list the schema's `list` field yields.
   */
  datatype Record = Record(
    question: Maybe<string>,
    options: Maybe<seq<Choice>>,
    explanation: Maybe<string>,
    material: Maybe<string>)

  /** One spreadsheet row: a flat list of cell strings. */
  type Row = seq<string>
}
