/**
 Decoding of Flux query answers: a table whose rows may be shorter than its header and whose
 header may repeat a name is flattened to results.  The source goes through a map from column name
 to its last index and walks that map in no particular order; the specification looks each name up
 in the header.
 */
module FluxDecode {
  import opened Collections
  import opened AuthClient

  type Time = int

  /** `time.Time{}`, left in place when a row has no readable time. */
  const ZERO_TIME: Time := 0

  /** `strconv.ParseFloat` and `time.Parse(time.RFC3339, ...)`, values exact. */
  datatype Codec = Codec(number: string -> Option<real>, time: string -> Option<Time>)

  datatype FluxSeries = FluxSeries(columns: seq<string>, values: seq<seq<string>>)

  datatype FluxResult =
    FluxResult(measurement: string, field: string, value: real, time: Time, tags: map<string, string>)

  const META := {"table", "_start", "_stop", "_time", "_value", "_field", "_measurement"}

  // ---------------------------------------------------------------- specification

  function LastIndex(columns: seq<string>, name: string): Option<nat> {
    if columns == [] then None
    else if columns[|columns| - 1] == name then Some(|columns| - 1)
    else LastIndex(columns[..|columns| - 1], name)
  }

  /** A row's cell under the last column of that name, if the row is long enough. */
  function Cell(columns: seq<string>, row: seq<string>, name: string): Option<string> {
    match LastIndex(columns, name)
    case Some(i) => if i < |row| then Some(row[i]) else None
    case None => None
  }

  function CellOr(columns: seq<string>, row: seq<string>, name: string, default: string): string {
    match Cell(columns, row, name)
    case Some(text) => text
    case None => default
  }

  function Number(codec: Codec, columns: seq<string>, row: seq<string>): Option<real> {
    match Cell(columns, row, "_value")
    case Some(text) => codec.number(text)
    case None => None
  }

  function Timestamp(codec: Codec, columns: seq<string>, row: seq<string>): Time {
    match Cell(columns, row, "_time")
    case None => ZERO_TIME
    case Some(text) => match codec.time(text) case Some(t) => t case None => ZERO_TIME
  }

  function Tags(columns: seq<string>, row: seq<string>): map<string, string> {
    map name | name in columns && name !in META && Cell(columns, row, name).Some? :: Cell(columns, row, name).value
  }

  /** What a row says; nothing if it has no number. */
  function DecodeRow(codec: Codec, columns: seq<string>, row: seq<string>): Option<FluxResult> {
    match Number(codec, columns, row)
    case None => None
    case Some(value) =>
      Some(FluxResult(CellOr(columns, row, "_measurement", ""), CellOr(columns, row, "_field", ""), value,
                      Timestamp(codec, columns, row), Tags(columns, row)))
  }

  function DecodeRows(codec: Codec, columns: seq<string>, rows: seq<seq<string>>): seq<FluxResult> {
    if rows == [] then []
    else
      DecodeRows(codec, columns, rows[..|rows| - 1])
      + (match DecodeRow(codec, columns, rows[|rows| - 1]) case Some(r) => [r] case None => [])
  }

  function DecodeAll(codec: Codec, series: seq<FluxSeries>): seq<FluxResult> {
    if series == [] then []
    else
      var last := series[|series| - 1];
      DecodeAll(codec, series[..|series| - 1]) + DecodeRows(codec, last.columns, last.values)
  }

  // ---------------------------------------------------------------- the source's loops

  /** The map holds every name's last index in the header read so far. */
  ghost predicate Indexes(colIndex: map<string, nat>, columns: seq<string>) {
    forall name ::
      LastIndex(columns, name) == if name in colIndex then Some(colIndex[name]) else None
  }

  method FlattenFluxSeries(codec: Codec, s: FluxSeries) returns (results: seq<FluxResult>)
    ensures results == DecodeRows(codec, s.columns, s.values)
  {
    var colIndex: map<string, nat> := map[];
    for i := 0 to |s.columns|
      invariant Indexes(colIndex, s.columns[..i])
    {
      assert s.columns[..i + 1][..i] == s.columns[..i];
      colIndex := colIndex[s.columns[i] := i];
    }
    assert s.columns[..|s.columns|] == s.columns;

    if "_value" !in colIndex {
      NoValueColumn(codec, s.columns, s.values);
      return [];
    }
    var valueIdx := colIndex["_value"];
    results := [];
    for n := 0 to |s.values|
      invariant results == DecodeRows(codec, s.columns, s.values[..n])
    {
      assert s.values[..n + 1][..n] == s.values[..n];
      var row := s.values[n];
      if valueIdx >= |row| {
        continue;
      }
      var value := codec.number(row[valueIdx]);
      if value == None {
        continue;
      }
      var res := FluxResult("", "", value.value, ZERO_TIME, map[]);
      if "_measurement" in colIndex && colIndex["_measurement"] < |row| {
        res := res.(measurement := row[colIndex["_measurement"]]);
      }
      if "_field" in colIndex && colIndex["_field"] < |row| {
        res := res.(field := row[colIndex["_field"]]);
      }
      if "_time" in colIndex && colIndex["_time"] < |row| {
        var t := codec.time(row[colIndex["_time"]]);
        if t.Some? {
          res := res.(time := t.value);
        }
      }
      var tags := CollectTags(colIndex, s.columns, row);
      results := results + [res.(tags := tags)];
    }
    assert s.values[..|s.values|] == s.values;
  }

  /** The walk over `colIndex`: whatever order the map yields its keys in, the tags are the same. */
  method CollectTags(colIndex: map<string, nat>, columns: seq<string>, row: seq<string>)
    returns (tags: map<string, string>)
    requires Indexes(colIndex, columns)
    ensures tags == Tags(columns, row)
  {
    tags := map[];
    var todo := colIndex.Keys;
    while todo != {}
      invariant todo <= colIndex.Keys
      invariant forall name :: name in tags <==> name in colIndex.Keys - todo && name !in META && colIndex[name] < |row|
      invariant forall name :: name in tags ==>
                  name in colIndex && colIndex[name] < |row| && tags[name] == row[colIndex[name]]
      decreases todo
    {
      var name :| name in todo;
      todo := todo - {name};
      if name in META || colIndex[name] >= |row| {
        continue;
      }
      tags := tags[name := row[colIndex[name]]];
    }
    forall name ensures name in columns <==> name in colIndex {
      IndexedIffPresent(columns, name);
    }
  }

  /** `Query` after the authenticated POST: an error is passed on, the series are concatenated. */
  method Query(codec: Codec, reply: Result<seq<FluxSeries>>) returns (r: Result<seq<FluxResult>>)
    ensures r == if reply.Err? then Err(reply.error) else Ok(DecodeAll(codec, reply.value))
  {
    if reply.Err? {
      return Err(reply.error);
    }
    var results := [];
    for i := 0 to |reply.value|
      invariant results == DecodeAll(codec, reply.value[..i])
    {
      assert reply.value[..i + 1][..i] == reply.value[..i];
      var flat := FlattenFluxSeries(codec, reply.value[i]);
      results := results + flat;
    }
    assert reply.value[..|reply.value|] == reply.value;
    return Ok(results);
  }

  // ---------------------------------------------------------------- what the specification means

  /** LastIndex is the last position of the name, and there is none exactly if the name is absent. */
  lemma {:induction false} LastIndexIsLast(columns: seq<string>, name: string)
    ensures match LastIndex(columns, name)
            case Some(i) => i < |columns| && columns[i] == name && forall j :: i < j < |columns| ==> columns[j] != name
            case None => name !in columns
  {
    if columns != [] && columns[|columns| - 1] != name {
      var front := columns[..|columns| - 1];
      LastIndexIsLast(front, name);
      assert columns == front + [columns[|columns| - 1]];
    }
  }

  lemma IndexedIffPresent(columns: seq<string>, name: string)
    ensures LastIndex(columns, name).Some? <==> name in columns
  {
    LastIndexIsLast(columns, name);
  }

  lemma {:induction false} NoValueColumn(codec: Codec, columns: seq<string>, rows: seq<seq<string>>)
    requires LastIndex(columns, "_value") == None
    ensures DecodeRows(codec, columns, rows) == []
  {
    if rows != [] {
      NoValueColumn(codec, columns, rows[..|rows| - 1]);
    }
  }

  ghost predicate Increasing(s: seq<nat>) {
    forall i, j :: 0 <= i < j < |s| ==> s[i] < s[j]
  }

  /** The row reaches the last column of that name, and there says text. */
  ghost predicate Says(columns: seq<string>, row: seq<string>, name: string, text: string) {
    exists i :: 0 <= i < |columns| && i < |row| && columns[i] == name && row[i] == text
                && forall j :: i < j < |columns| ==> columns[j] != name
  }

  lemma CellIsSaid(columns: seq<string>, row: seq<string>, name: string)
    ensures forall text :: Says(columns, row, name, text) <==> Cell(columns, row, name) == Some(text)
  {
    LastIndexIsLast(columns, name);
  }

  /** What decoding a row means, column by column: there is a result exactly if the last `_value` cell
      is reached and parses; measurement and field are the cells of their names, or empty; the time is
      the parsed `_time` cell, or zero. */
  lemma RowMeans(codec: Codec, columns: seq<string>, row: seq<string>)
    ensures DecodeRow(codec, columns, row).Some? <==>
              exists text :: Says(columns, row, "_value", text) && codec.number(text).Some?
    ensures DecodeRow(codec, columns, row).Some? ==>
              var r := DecodeRow(codec, columns, row).value;
              && (forall text :: Says(columns, row, "_value", text) ==> codec.number(text) == Some(r.value))
              && (forall text :: Says(columns, row, "_measurement", text) ==> r.measurement == text)
              && ((forall text :: !Says(columns, row, "_measurement", text)) ==> r.measurement == "")
              && (forall text :: Says(columns, row, "_field", text) ==> r.field == text)
              && ((forall text :: !Says(columns, row, "_field", text)) ==> r.field == "")
              && (forall text, t :: Says(columns, row, "_time", text) && codec.time(text) == Some(t) ==> r.time == t)
              && ((forall text :: Says(columns, row, "_time", text) ==> codec.time(text) == None) ==> r.time == 0)
              && r.tags == Tags(columns, row)
  {
    CellIsSaid(columns, row, "_value");
    CellIsSaid(columns, row, "_measurement");
    CellIsSaid(columns, row, "_field");
    CellIsSaid(columns, row, "_time");
  }

  /** The row has a number: its last `_value` cell is reached and parses. */
  ghost predicate HasNumber(codec: Codec, columns: seq<string>, row: seq<string>) {
    exists text :: Says(columns, row, "_value", text) && codec.number(text).Some?
  }

  lemma {:induction false} DecodedPicks(codec: Codec, columns: seq<string>, rows: seq<seq<string>>)
    returns (picks: seq<nat>)
    ensures |picks| == |DecodeRows(codec, columns, rows)| && Increasing(picks)
    ensures forall k :: 0 <= k < |picks| ==>
              && picks[k] < |rows|
              && DecodeRow(codec, columns, rows[picks[k]]) == Some(DecodeRows(codec, columns, rows)[k])
    ensures forall n :: 0 <= n < |rows| ==> (n in picks <==> DecodeRow(codec, columns, rows[n]).Some?)
  {
    picks := [];
    if rows != [] {
      var n := |rows| - 1;
      var front := rows[..n];
      picks := DecodedPicks(codec, columns, front);
      forall m | 0 <= m < n ensures m in picks <==> DecodeRow(codec, columns, rows[m]).Some? {
        assert front[m] == rows[m];
      }
      if DecodeRow(codec, columns, rows[n]).Some? {
        picks := picks + [n];
      }
    }
  }

  /** The output is the order-preserving subsequence of the rows that decode, each with its own
      row's result: exactly those whose last `_value` cell is there and parses. */
  lemma OutputIsSubsequence(codec: Codec, columns: seq<string>, rows: seq<seq<string>>)
    returns (picks: seq<nat>)
    ensures |picks| == |DecodeRows(codec, columns, rows)| && Increasing(picks)
    ensures forall k :: 0 <= k < |picks| ==>
              && picks[k] < |rows|
              && DecodeRow(codec, columns, rows[picks[k]]) == Some(DecodeRows(codec, columns, rows)[k])
    ensures forall n :: 0 <= n < |rows| ==> (n in picks <==> HasNumber(codec, columns, rows[n]))
  {
    picks := DecodedPicks(codec, columns, rows);
    forall n | 0 <= n < |rows| ensures n in picks <==> HasNumber(codec, columns, rows[n]) {
      RowMeans(codec, columns, rows[n]);
    }
  }

  /** The tags are the columns, other than the seven meta columns, whose last cell the row reaches,
      with that cell's text. */
  lemma TagsAreLastCells(columns: seq<string>, row: seq<string>, name: string)
    ensures name in Tags(columns, row) <==>
              && name !in {"table", "_start", "_stop", "_time", "_value", "_field", "_measurement"}
              && exists text :: Says(columns, row, name, text)
    ensures forall text :: name in Tags(columns, row) && Says(columns, row, name, text) ==>
              Tags(columns, row)[name] == text
  {
    LastIndexIsLast(columns, name);
    CellIsSaid(columns, row, name);
    assert Cell(columns, row, name).Some? ==> Says(columns, row, name, Cell(columns, row, name).value);
  }

  /** `Query` over a list of series is the concatenation of the parts. */
  lemma DecodeAllConcat(codec: Codec, a: seq<FluxSeries>, b: seq<FluxSeries>)
    ensures forall s :: DecodeAll(codec, [s]) == DecodeRows(codec, s.columns, s.values)
    ensures DecodeAll(codec, a + b) == DecodeAll(codec, a) + DecodeAll(codec, b)
  {
    var f := (s: FluxSeries) => DecodeRows(codec, s.columns, s.values);
    SeriesAreFlatMap(codec, a, f);
    SeriesAreFlatMap(codec, b, f);
    SeriesAreFlatMap(codec, a + b, f);
    FlatMapConcat(f, a, b);
  }

  /** Reordering the series of an answer, or the rows of a series, reorders the results. */
  lemma RowsMayBeReordered(codec: Codec, columns: seq<string>, a: seq<seq<string>>, b: seq<seq<string>>)
    requires multiset(a) == multiset(b)
    ensures multiset(DecodeRows(codec, columns, a)) == multiset(DecodeRows(codec, columns, b))
  {
    var f := row => match DecodeRow(codec, columns, row) case Some(r) => [r] case None => [];
    RowsAreFlatMap(codec, columns, a, f);
    RowsAreFlatMap(codec, columns, b, f);
    FlatMapReordered(f, a, b);
  }

  lemma SeriesMayBeReordered(codec: Codec, a: seq<FluxSeries>, b: seq<FluxSeries>)
    requires multiset(a) == multiset(b)
    ensures multiset(DecodeAll(codec, a)) == multiset(DecodeAll(codec, b))
  {
    var f := (s: FluxSeries) => DecodeRows(codec, s.columns, s.values);
    SeriesAreFlatMap(codec, a, f);
    SeriesAreFlatMap(codec, b, f);
    FlatMapReordered(f, a, b);
  }

  lemma {:induction false} RowsAreFlatMap(codec: Codec, columns: seq<string>, rows: seq<seq<string>>,
      f: seq<string> -> seq<FluxResult>)
    requires forall row :: f(row) == match DecodeRow(codec, columns, row) case Some(r) => [r] case None => []
    ensures DecodeRows(codec, columns, rows) == FlatMap(f, rows)
  {
    if rows != [] {
      RowsAreFlatMap(codec, columns, rows[..|rows| - 1], f);
    }
  }

  lemma {:induction false} SeriesAreFlatMap(codec: Codec, series: seq<FluxSeries>, f: FluxSeries -> seq<FluxResult>)
    requires forall s :: f(s) == DecodeRows(codec, s.columns, s.values)
    ensures DecodeAll(codec, series) == FlatMap(f, series)
  {
    if series != [] {
      SeriesAreFlatMap(codec, series[..|series| - 1], f);
    }
  }

  // ---------------------------------------------------------------- round trip

  /** Printers to which the parsers are inverse, on the values at hand. */
  datatype Printer = Printer(number: real -> string, time: Time -> string)

  ghost predicate ReadsBack(codec: Codec, printer: Printer, r: FluxResult) {
    codec.number(printer.number(r.value)) == Some(r.value) && codec.time(printer.time(r.time)) == Some(r.time)
  }

  /** Under any header, the text a result puts in a column; `table`, `_start` and `_stop` carry
      nothing of it. */
  function TextFor(printer: Printer, r: FluxResult, name: string): string {
    if name == "_measurement" then r.measurement
    else if name == "_field" then r.field
    else if name == "_value" then printer.number(r.value)
    else if name == "_time" then printer.time(r.time)
    else if name in r.tags then r.tags[name]
    else ""
  }

  function EncodeRow(printer: Printer, columns: seq<string>, r: FluxResult): seq<string> {
    seq(|columns|, i requires 0 <= i < |columns| => TextFor(printer, r, columns[i]))
  }

  function Encode(printer: Printer, columns: seq<string>, results: seq<FluxResult>): FluxSeries {
    FluxSeries(columns, seq(|results|, i requires 0 <= i < |results| => EncodeRow(printer, columns, results[i])))
  }

  /** A header fit for results with these tags: the four fields, the tags, and perhaps other meta
      columns, in any order. */
  ghost predicate Fits(columns: seq<string>, tagNames: set<string>) {
    && "_measurement" in columns && "_field" in columns && "_value" in columns && "_time" in columns
    && forall name ::
         && name in columns
         && name !in {"table", "_start", "_stop", "_time", "_value", "_field", "_measurement"}
         <==> name in tagNames
  }

  lemma CellOfEncoded(printer: Printer, columns: seq<string>, r: FluxResult, name: string)
    ensures Cell(columns, EncodeRow(printer, columns, r), name) ==
            if name in columns then Some(TextFor(printer, r, name)) else None
  {
    LastIndexIsLast(columns, name);
  }

  lemma RowRoundTrip(codec: Codec, printer: Printer, columns: seq<string>, r: FluxResult)
    requires ReadsBack(codec, printer, r) && Fits(columns, r.tags.Keys)
    ensures DecodeRow(codec, columns, EncodeRow(printer, columns, r)) == Some(r)
  {
    var row := EncodeRow(printer, columns, r);
    CellOfEncoded(printer, columns, r, "_measurement");
    CellOfEncoded(printer, columns, r, "_field");
    CellOfEncoded(printer, columns, r, "_value");
    CellOfEncoded(printer, columns, r, "_time");
    forall name ensures name in Tags(columns, row) <==> name in r.tags {
      CellOfEncoded(printer, columns, r, name);
    }
    forall name | name in r.tags ensures Tags(columns, row)[name] == r.tags[name] {
      CellOfEncoded(printer, columns, r, name);
    }
    assert Tags(columns, row) == r.tags;
  }

  /** Round trip: a list of results that share their tag names, written out under any fitting header
      and flattened, comes back unchanged and in order. */
  lemma {:induction false} RoundTrip(codec: Codec, printer: Printer, columns: seq<string>, results: seq<FluxResult>)
    requires forall r :: r in results ==> ReadsBack(codec, printer, r) && Fits(columns, r.tags.Keys)
    ensures var s := Encode(printer, columns, results);
            DecodeRows(codec, s.columns, s.values) == results
  {
    if results != [] {
      var n := |results| - 1;
      var front := results[..n];
      RoundTrip(codec, printer, columns, front);
      RowRoundTrip(codec, printer, columns, results[n]);
      var rows := Encode(printer, columns, results).values;
      assert rows[..n] == Encode(printer, columns, front).values;
      assert results == front + [results[n]];
    }
  }
}
