/**
 The record-to-row normaliser `convert_to_spreadsheet_format` (crawler.py,
 lines 91-108). Each record becomes one row
   [question] ++ option texts padded with "" to at least five ++ [explanation] ++ [material]
 with "" (or MATERIAL for the material) standing in for every absent field.
 */
module Normalizer {
  import opened Optional
  import opened Quiz

  /** `opt.get("option", "")` for one options entry. */
  function OptionText(c: Choice): string {
    c.option.Or("")
  }

  /** The entries of `data.get("options", [])`: an absent list reads as empty. */
  function Entries(r: Record): seq<Choice> {
    r.options.Or([])
  }

  /** The list comprehension of line 96: the option text of every entry, in order. */
  function OptionTexts(r: Record): seq<string> {
    seq(|Entries(r)|, i requires 0 <= i < |Entries(r)| => OptionText(Entries(r)[i]))
  }

  /** A sequence of `n` empty strings. */
  function Blanks(n: nat): seq<string> {
    seq(n, _ => "")
  }

  /**
   The padding loop of lines 99-100: one "" is appended per step while fewer
   than five options are present. Longer lists are returned untouched.
   */
  function PadOptions(options: seq<string>): (padded: seq<string>)
    ensures |padded| == Max(OPTION_SLOTS, |options|)
    ensures padded[..|options|] == options
    ensures forall i :: |options| <= i < |padded| ==> padded[i] == ""
    decreases OPTION_SLOTS - |options|
  {
    if |options| < OPTION_SLOTS then
      var next := PadOptions(options + [""]);
      assert next[..|options|] == (next[..|options| + 1])[..|options|];
      next
    else
      options
  }

  /** The row built for one record at line 106. */
  function ConvertRecord(r: Record): (row: Row)
    ensures |row| == 3 + Max(OPTION_SLOTS, |Entries(r)|)
    ensures row[0] == r.question.Or("")
    ensures row[|row| - 2] == r.explanation.Or("")
    ensures row[|row| - 1] == r.material.Or(MATERIAL)
    ensures forall i :: 0 <= i < |Entries(r)| ==> row[1 + i] == OptionText(Entries(r)[i])
    ensures forall i :: 1 + |Entries(r)| <= i < |row| - 2 ==> row[i] == ""
  {
    var padded := PadOptions(OptionTexts(r));
    assert forall i :: 0 <= i < |OptionTexts(r)| ==> padded[i] == padded[..|OptionTexts(r)|][i];
    [r.question.Or("")] + padded + [r.explanation.Or("")] + [r.material.Or(MATERIAL)]
  }

  /**
   The whole of `convert_to_spreadsheet_format`: the loop of lines 94-106
   appends one row per record, so the rows of a list are the rows of all but
   its last record followed by the row of the last one.
   */
  function SpreadsheetRows(data: seq<Record>): (rows: seq<Row>)
    ensures |rows| == |data|
    ensures forall i :: 0 <= i < |data| ==> rows[i] == ConvertRecord(data[i])
    ensures forall i :: 0 <= i < |rows| ==> |rows[i]| >= 3 + OPTION_SLOTS
  {
    if |data| == 0 then []
    else SpreadsheetRows(data[..|data| - 1]) + [ConvertRecord(data[|data| - 1])]
  }

  /* ---------- Reading rows back ---------- */

  /** The option cells of a row: everything between the question and the explanation. */
  function OptionCells(row: Row): seq<string>
    requires |row| >= 3
  {
    row[1..|row| - 2]
  }

  /** The record with every field present that a row of at least eight cells spells out. */
  function RowToRecord(row: Row): (r: Record)
    requires |row| >= 3 + OPTION_SLOTS
    ensures r.question.Present? && r.options.Present? && r.explanation.Present? && r.material.Present?
  {
    var cells := OptionCells(row);
    Record(
      Present(row[0]),
      Present(seq(|cells|, i requires 0 <= i < |cells| => Choice(Present(cells[i])))),
      Present(row[|row| - 2]),
      Present(row[|row| - 1]))
  }

  /**
   The record with every default the normaliser applies made explicit: the
   absent fields filled in and the options padded to five present entries.
   */
  function Complete(r: Record): Record {
    var texts := PadOptions(OptionTexts(r));
    Record(
      Present(r.question.Or("")),
      Present(seq(|texts|, i requires 0 <= i < |texts| => Choice(Present(texts[i])))),
      Present(r.explanation.Or("")),
      Present(r.material.Or(MATERIAL)))
  }

  /* ---------- Properties ---------- */

  /** Every row of eight or more cells is the row of the record it spells out. */
  lemma RowRoundTrip(row: Row)
    requires |row| >= 3 + OPTION_SLOTS
    ensures ConvertRecord(RowToRecord(row)) == row
  {
  }

  /** Reading back the row of a record yields that record with its defaults filled in. */
  lemma RecordRoundTrip(r: Record)
    ensures RowToRecord(ConvertRecord(r)) == Complete(r)
  {
    var row := ConvertRecord(r);
    var back := RowToRecord(row);
    var texts := PadOptions(OptionTexts(r));
    var cells := OptionCells(row);
    assert |cells| == |texts|;
    forall i | 0 <= i < |texts|
      ensures back.options.value[i] == Complete(r).options.value[i]
    {
      assert cells[i] == row[1 + i];
      if i < |Entries(r)| {
        assert texts[i] == texts[..|OptionTexts(r)|][i];
      }
      assert cells[i] == texts[i];
    }
    assert back.options.value == Complete(r).options.value;
  }

  /** Filling in the defaults before normalising does not change the row. */
  lemma CompleteKeepsRow(r: Record)
    ensures ConvertRecord(Complete(r)) == ConvertRecord(r)
  {
  }

  /** Filling in the defaults twice is the same as filling them in once. */
  lemma CompleteIdempotent(r: Record)
    ensures Complete(Complete(r)) == Complete(r)
  {
    var c := Complete(r);
    var texts := PadOptions(OptionTexts(r));
    assert OptionTexts(c) == texts;
    assert PadOptions(OptionTexts(c)) == texts;
  }

  /**
   Two records yield the same row exactly when they agree once their defaults
   are filled in: the row loses nothing but the absent/default distinction.
   */
  lemma SameRowIffSameCompletion(r1: Record, r2: Record)
    ensures ConvertRecord(r1) == ConvertRecord(r2) <==> Complete(r1) == Complete(r2)
  {
    RecordRoundTrip(r1);
    RecordRoundTrip(r2);
    CompleteKeepsRow(r1);
    CompleteKeepsRow(r2);
  }

  /**
   With at most five options the row has exactly eight cells, and its option
   cells are the option texts followed by blanks.
   */
  lemma FewOptionsGiveEightCells(r: Record)
    requires |Entries(r)| <= OPTION_SLOTS
    ensures |ConvertRecord(r)| == 8
    ensures OptionCells(ConvertRecord(r)) == OptionTexts(r) + Blanks(OPTION_SLOTS - |Entries(r)|)
  {
  }

  /** More than five options are all kept, in order, and nothing is truncated. */
  lemma ManyOptionsKept(r: Record)
    requires |Entries(r)| >= OPTION_SLOTS
    ensures |ConvertRecord(r)| == 3 + |Entries(r)|
    ensures OptionCells(ConvertRecord(r)) == OptionTexts(r)
  {
  }

  /** A missing options list gives five blank option cells. */
  lemma MissingOptionsGiveFiveBlanks(r: Record)
    requires r.options.Absent?
    ensures OptionCells(ConvertRecord(r)) == Blanks(OPTION_SLOTS)
  {
  }

  /** A record with no keys at all becomes seven blanks and the default material. */
  lemma EmptyRecordRow()
    ensures ConvertRecord(Record(Absent, Absent, Absent, Absent))
         == ["", "", "", "", "", "", "", MATERIAL]
  {
  }

  /** Two options, an explanation and no material: a worked example of the row layout. */
  lemma TwoOptionExampleRow()
    ensures ConvertRecord(Record(Present("Q1"), Present([Choice(Present("A")), Choice(Present("B"))]), Present("E"), Absent))
         == ["Q1", "A", "B", "", "", "", "E", "Campuran"]
  {
  }

  /** The rows of two concatenated record lists are the two row lists concatenated. */
  lemma SpreadsheetRowsAppend(a: seq<Record>, b: seq<Record>)
    ensures SpreadsheetRows(a + b) == SpreadsheetRows(a) + SpreadsheetRows(b)
  {
  }
}
