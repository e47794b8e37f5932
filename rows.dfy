/** Decoded spreadsheet rows and the loader `carregarCurvas`
    (src/services/curvasService.js:39-48). */
module Rows {
  import opened Results
  import opened CurveErrors

  /** A cell as the spreadsheet decoder hands it over. */
  datatype Value = Num(n: real) | Text(s: string)

  /** One decoded row: column name to cell, in the object's own key order. */
  type Row = seq<(string, Value)>

  const TimeColumn: string := "Código"
  const SentinelLabel: string := "Seq Curva"
  const CurvesSheet: string := "CURVAS"

  /** `row[key]`: the cell bound to `key`, or None for `undefined`. */
  function Lookup(row: Row, key: string): (v: Option<Value>)
    ensures v.Some? ==> (key, v.value) in row
    ensures v.None? ==> forall i :: 0 <= i < |row| ==> row[i].0 != key
  {
    if row == [] then None
    else if row[0].0 == key then Some(row[0].1)
    else Lookup(row[1..], key)
  }

  /** `Number(row[key])` when the cell is a number; None stands for every
      case in which the service would compute with NaN. */
  function Reading(row: Row, key: string): (r: Option<real>)
    ensures r.Some? <==> Lookup(row, key).Some? && Lookup(row, key).value.Num?
    ensures r.Some? ==> (key, Num(r.value)) in row && Lookup(row, key) == Some(Num(r.value))
  {
    match Lookup(row, key)
    case Some(Num(x)) => Some(x)
    case _ => None
  }

  /** `Object.keys(row)`. */
  function Keys(row: Row): (ks: seq<string>)
    ensures |ks| == |row|
    ensures forall i :: 0 <= i < |row| ==> ks[i] == row[i].0
  {
    if row == [] then [] else [row[0].0] + Keys(row[1..])
  }

  /** `Object.keys(row).filter(c => c !== "Código")`: the alloy columns, in key order. */
  function AlloyColumns(row: Row): (cols: seq<string>)
    ensures |cols| <= |row|
    ensures forall c :: c in cols <==> c in Keys(row) && c != TimeColumn
  {
    if row == [] then []
    else if row[0].0 == TimeColumn then AlloyColumns(row[1..])
    else [row[0].0] + AlloyColumns(row[1..])
  }

  /** Filtering out the time column distributes over concatenation, so the alloy
      columns keep the row's key order. */
  lemma {:induction false} AlloyColumnsAppend(a: Row, b: Row)
    ensures AlloyColumns(a + b) == AlloyColumns(a) + AlloyColumns(b)
  {
    if a == [] {
      assert a + b == b;
    } else {
      var head := if a[0].0 == TimeColumn then [] else [a[0].0];
      calc {
        AlloyColumns(a + b);
        { AlloyColumnsCons(a[0], a[1..] + b); assert a + b == [a[0]] + (a[1..] + b); }
        head + AlloyColumns(a[1..] + b);
        { AlloyColumnsAppend(a[1..], b); }
        head + (AlloyColumns(a[1..]) + AlloyColumns(b));
        { AlloyColumnsCons(a[0], a[1..]); assert a == [a[0]] + a[1..]; }
        AlloyColumns(a) + AlloyColumns(b);
      }
    }
  }

  /** One pair in front: its key leads the alloy columns unless it is the time column. */
  lemma AlloyColumnsCons(p: (string, Value), rest: Row)
    ensures AlloyColumns([p] + rest) == (if p.0 == TimeColumn then [] else [p.0]) + AlloyColumns(rest)
  {
    assert ([p] + rest)[0] == p && ([p] + rest)[1..] == rest;
  }

  /** The header row the spreadsheet format injects: its time code is the text "Seq Curva". */
  predicate IsSentinel(row: Row)
    ensures IsSentinel(row) ==> (TimeColumn, Text(SentinelLabel)) in row
    ensures Reading(row, TimeColumn).Some? ==> !IsSentinel(row)
  {
    Lookup(row, TimeColumn) == Some(Text(SentinelLabel))
  }

  /** `data.filter(row => row["Código"] !== "Seq Curva")`. */
  function DropSentinels(rows: seq<Row>): (kept: seq<Row>)
    ensures |kept| <= |rows|
    ensures forall i :: 0 <= i < |kept| ==> !IsSentinel(kept[i])
  {
    if rows == [] then []
    else if IsSentinel(rows[0]) then DropSentinels(rows[1..])
    else [rows[0]] + DropSentinels(rows[1..])
  }

  /** What `xlsx.readFile` produced: maybe nothing, maybe no `Sheets`, and for each
      sheet name either a handle (already decoded by `sheet_to_json`) or null/undefined. */
  datatype Workbook = Workbook(sheets: Option<map<string, Option<seq<Row>>>>)

  /** The decoded `CURVAS` sheet, when the workbook has one. */
  predicate HasCurvesSheet(wb: Option<Workbook>)
  {
    wb.Some? && wb.value.sheets.Some? && CurvesSheet in wb.value.sheets.value
    && wb.value.sheets.value[CurvesSheet].Some?
  }

  function CurvesSheetRows(wb: Option<Workbook>): seq<Row>
    requires HasCurvesSheet(wb)
  {
    wb.value.sheets.value[CurvesSheet].value
  }

  /** `carregarCurvas`: check the workbook and its `CURVAS` sheet, then drop every sentinel row. */
  function LoadCurves(wb: Option<Workbook>): (r: Result<seq<Row>, Error>)
    ensures r.Failure? <==> !HasCurvesSheet(wb)
    ensures r == Failure(MissingSheetCollection) <==> wb.None? || wb.value.sheets.None?
    ensures r.Failure? ==> (Message(r.error) ==
      if r.error.MissingSheetCollection? then "A aba 'CURVAS' não foi encontrada."
      else "Cannot read properties of undefined (reading 'CURVAS')")
    ensures r.Success? ==> r.value == DropSentinels(CurvesSheetRows(wb))
  {
    if wb.None? || wb.value.sheets.None? then Failure(MissingSheetCollection)
    else if CurvesSheet !in wb.value.sheets.value || wb.value.sheets.value[CurvesSheet].None? then
      Failure(MissingCurvasSheet)
    else Success(DropSentinels(wb.value.sheets.value[CurvesSheet].value))
  }

  /** Filtering distributes over concatenation: rows that survive keep their relative order. */
  lemma {:induction false} DropSentinelsAppend(a: seq<Row>, b: seq<Row>)
    ensures DropSentinels(a + b) == DropSentinels(a) + DropSentinels(b)
  {
    if a == [] {
      assert a + b == b;
    } else {
      assert (a + b)[1..] == a[1..] + b;
      DropSentinelsAppend(a[1..], b);
    }
  }

  /** A sheet without sentinel rows is returned unchanged, and only such a sheet. */
  lemma {:induction false} DropSentinelsIdentity(rows: seq<Row>)
    ensures DropSentinels(rows) == rows <==> forall i :: 0 <= i < |rows| ==> !IsSentinel(rows[i])
  {
    if rows != [] {
      DropSentinelsIdentity(rows[1..]);
      if IsSentinel(rows[0]) {
        assert |DropSentinels(rows)| < |rows|;
      } else if DropSentinels(rows) == rows {
        assert DropSentinels(rows[1..]) == rows[1..];
      }
    }
  }

  /** The result is empty exactly when every row is a sentinel (a header-only sheet gives []). */
  lemma {:induction false} DropSentinelsEmpty(rows: seq<Row>)
    ensures DropSentinels(rows) == [] <==> forall i :: 0 <= i < |rows| ==> IsSentinel(rows[i])
  {
    if rows != [] {
      DropSentinelsEmpty(rows[1..]);
    }
  }

  /** Every row that is not a sentinel survives, and every survivor is an input row. */
  lemma {:induction false} DropSentinelsKeeps(rows: seq<Row>)
    ensures forall row :: row in rows && !IsSentinel(row) ==> row in DropSentinels(rows)
    ensures forall row :: row in DropSentinels(rows) ==> row in rows
  {
    if rows != [] {
      DropSentinelsKeeps(rows[1..]);
      forall row | row in rows && !IsSentinel(row)
        ensures row in DropSentinels(rows)
      {
        if row != rows[0] {
          assert row in rows[1..];
        }
      }
    }
  }

  /** Filtering twice is filtering once. */
  lemma {:induction false} DropSentinelsIdempotent(rows: seq<Row>)
    ensures DropSentinels(DropSentinels(rows)) == DropSentinels(rows)
  {
    DropSentinelsIdentity(DropSentinels(rows));
  }
}
