/** The history ledger (`save_csv` in utils.py): one CSV row per run,
    appended to `data/history.csv`, with the header written only when the
    file did not exist yet. */
module Ledger {
  import opened Common
  import opened Text
  import opened Decimal
  import opened PyValue
  import opened Registry
  import opened Utils

  /** `fieldnames`: the date, the S&P 500 price, then every registry key. */
  const Columns: seq<string> := ["Date", "SPX_Price"] + IndicatorKeys

  /** `f"{x:.1f}"`: Python's fixed-point rendering of a float is a parameter
      of the model. */
  type Format = real -> string

  /** The result under a key, or the empty string where it is absent. */
  function Raw(results: Dict<Value>, k: string): Value {
    GetOr(results, k, StrValue(""))
  }

  /** The cell of column `k`, or None where building it raises: an AAII
      tuple is written as its difference with one decimal (an IndexError
      without a third item, a formatting error when it is not a float);
      anything else as the first number in its text, or "". */
  function Cell(k: string, raw: Value, fmt1: Format): Option<string> {
    if k == "AAII" && raw.Tuple? then
      if |raw.items| >= 3 && raw.items[2].Float? then Some(fmt1(raw.items[2].x)) else None
    else Some(ExtractNumeric(StrValue(Show(raw))))
  }

  /** The cell of every registry key, in registry order. */
  function CellsOf(results: Dict<Value>, fmt1: Format): (cs: seq<Option<string>>)
    ensures |cs| == |IndicatorKeys|
  {
    seq(|IndicatorKeys|, i requires 0 <= i < |IndicatorKeys| => Cell(IndicatorKeys[i], Raw(results, IndicatorKeys[i]), fmt1))
  }

  /** The row in `Columns` order from the cells of the indicators, or None
      when one of them raised. */
  function RowFrom(date: string, spx: string, cs: seq<Option<string>>): Option<seq<string>> {
    match AllSome(cs)
    case None => None
    case Some(cells) => Some([date, spx] + cells)
  }

  function RowOf(results: Dict<Value>, date: string, spx: string, fmt1: Format): Option<seq<string>> {
    RowFrom(date, spx, CellsOf(results, fmt1))
  }

  /** The `row` dict, built key by key in registry order; the first cell that
      raises abandons the row. */
  method BuildRow(results: Dict<Value>, date: string, spx: string, fmt1: Format) returns (row: Option<seq<string>>)
    ensures row == RowOf(results, date, spx, fmt1)
  {
    ghost var cs := CellsOf(results, fmt1);
    var cells: seq<string> := [];
    var i := 0;
    while i < |IndicatorKeys|
      invariant 0 <= i <= |IndicatorKeys|
      invariant AllSome(cs[..i]) == Some(cells)
    {
      var k := IndicatorKeys[i];
      assert cs[..i + 1][..i] == cs[..i];
      var c := Cell(k, Raw(results, k), fmt1);
      assert c == cs[i];
      if c.None? {
        AllSomeIff(cs);
        return None;
      }
      cells := cells + [c.value];
      i := i + 1;
    }
    assert cs[..i] == cs;
    row := Some([date, spx] + cells);
  }

  /** A row has one cell per column: the date, the price, then the cell of
      each indicator in registry order. */
  lemma RowShape(date: string, spx: string, cs: seq<Option<string>>)
    requires RowFrom(date, spx, cs).Some?
    ensures |RowFrom(date, spx, cs).value| == |cs| + 2
    ensures RowFrom(date, spx, cs).value[0] == date && RowFrom(date, spx, cs).value[1] == spx
    ensures forall i :: 0 <= i < |cs| ==> cs[i].Some? && RowFrom(date, spx, cs).value[i + 2] == cs[i].value
  {
    AllSomeIff(cs);
  }

  lemma ColumnCount()
    ensures |Columns| == |IndicatorKeys| + 2 == 17
  {
  }

  /** Building the row raises exactly when AAII holds a tuple without a float
      third item; every other result always gives a cell. */
  lemma RowFailsIff(results: Dict<Value>, date: string, spx: string, fmt1: Format)
    ensures RowOf(results, date, spx, fmt1).None? <==>
              var raw := Raw(results, "AAII");
              raw.Tuple? && !(|raw.items| >= 3 && raw.items[2].Float?)
  {
    var cs := CellsOf(results, fmt1);
    AllSomeIff(cs);
    assert IndicatorKeys[13] == "AAII";
    forall i | 0 <= i < |cs| && i != 13 ensures cs[i].Some? {
      KeysAreDistinct();
      OtherCellsArePresent(IndicatorKeys[i], Raw(results, IndicatorKeys[i]), fmt1);
    }
  }

  /** Only the AAII tuple can make a cell raise. */
  lemma OtherCellsArePresent(k: string, raw: Value, fmt1: Format)
    requires k != "AAII"
    ensures Cell(k, raw, fmt1).Some?
  {
  }

  /** A missing indicator leaves its cell empty. */
  lemma MissingCellIsEmpty(results: Dict<Value>, k: string, fmt1: Format)
    requires k !in Keys(results)
    ensures Cell(k, Raw(results, k), fmt1) == Some("")
  {
    ExtractEmptyIff("");
  }

  /** Every cell but the AAII difference is empty or a numeral `float()` reads back. */
  lemma NumericCell(k: string, raw: Value, fmt1: Format)
    requires !(k == "AAII" && raw.Tuple?)
    ensures Cell(k, raw, fmt1).Some?
    ensures var c := Cell(k, raw, fmt1).value; c == "" || (AllNumeral(c) && ParseFloat(c).Some?)
  {
    ExtractedParses(Show(raw));
  }

  /** The header names are distinct. */
  lemma ColumnsAreDistinct()
    ensures Distinct(Columns)
  {
    KeysAreDistinct();
  }

  /** `data/history.csv`: whether it exists, and its rows (header included). */
  class CsvFile {
    var present: bool
    var rows: seq<seq<string>>

    /** A file this program wrote: empty when absent, headed by the column
        names when present. */
    predicate Valid()
      reads this
    {
      if present then rows != [] && rows[0] == Columns else rows == []
    }

    constructor Absent()
      ensures Valid() && !present && rows == []
    {
      present := false;
      rows := [];
    }

    /** `save_csv`: the header only when the file did not exist, then the
        row; nothing is written when building the row raises. */
    method SaveCsv(results: Dict<Value>, date: string, spx: string, fmt1: Format)
      modifies this
      ensures RowOf(results, date, spx, fmt1).None? ==> present == old(present) && rows == old(rows)
      ensures RowOf(results, date, spx, fmt1).Some? ==>
                present && rows == old(rows) + (if old(present) then [] else [Columns]) + [RowOf(results, date, spx, fmt1).value]
      ensures old(Valid()) ==> Valid()
    {
      var row := BuildRow(results, date, spx, fmt1);
      if row.None? {
        return;
      }
      var wasPresent := present;
      present := true;
      if !wasPresent {
        rows := rows + [Columns];
      }
      rows := rows + [row.value];
    }
  }

  /** Saving the same results twice on the same day appends the same row
      twice, after the header when the file did not exist yet: the ledger
      does not deduplicate. */
  method SaveTwice(f: CsvFile, results: Dict<Value>, date: string, spx: string, fmt1: Format)
    requires f.Valid()
    requires RowOf(results, date, spx, fmt1).Some?
    modifies f
    ensures f.Valid() && f.present
    ensures f.rows == old(f.rows) + (if old(f.present) then [] else [Columns])
                      + [RowOf(results, date, spx, fmt1).value, RowOf(results, date, spx, fmt1).value]
  {
    f.SaveCsv(results, date, spx, fmt1);
    f.SaveCsv(results, date, spx, fmt1);
  }
}
