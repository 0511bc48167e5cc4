/** The timetable file: what the generator prints and what each server reads back. */
module TimetableFile {
  import opened Text
  import opened Timetable

  // ----- printing

  const STATION_COLUMNS := "station-name,longitude,latitude"
  const ROW_COLUMNS := "departure-time,route-name," + "departing-from,arrival-time," + "arrival-station"

  function Comment(columns: string): string {
    "# " + columns + "\n"
  }

  datatype StationLine = StationLine(name: string, longitude: string, latitude: string)

  function PrintStation(s: StationLine): string {
    s.name + "," + (s.longitude + "," + (s.latitude + "\n"))
  }

  function PrintRow(r: Row): string {
    r.departs + "," + (r.route + "," + (r.departingFrom + "," + (r.arrives + "," + (r.arrivalStation + "\n"))))
  }

  function PrintRows(rows: seq<Row>): string {
    if rows == [] then "" else PrintRow(rows[0]) + PrintRows(rows[1..])
  }

  function PrintFile(s: StationLine, rows: seq<Row>): string {
    Comment(STATION_COLUMNS) + (PrintStation(s) + (Comment(ROW_COLUMNS) + PrintRows(rows)))
  }

  // ----- reading in C

  const MAX_BUFFER := 256

  // What one fgets takes: up to the end of the line, or room characters.
  function LineLength(s: string, room: nat): (n: nat)
    ensures n <= |s|
    ensures s != [] && room > 0 ==> n > 0
  {
    if s == [] || room == 0 then 0
    else if s[0] == '\n' then 1
    else 1 + LineLength(s[1..], room - 1)
  }

  function CLine(s: string): nat {
    LineLength(s, MAX_BUFFER - 1)
  }

  // "%width[^stop]"
  function Field(s: string, stop: char, width: nat): Option<(string, string)> {
    var k := UpTo(s, stop);
    var n := if k <= width then k else width;
    if n == 0 then None else Some((s[..n], s[n..]))
  }

  // "%width[^,],"
  function FieldAndComma(s: string, width: nat): Option<(string, string)> {
    var (f, rest) :- Field(s, ',', width);
    if rest != [] && rest[0] == ',' then Some((f, rest[1..])) else None
  }

  function ScanStation(line: string): Option<StationLine> {
    var (name, s1) :- FieldAndComma(line, 60);
    var (longitude, s2) :- FieldAndComma(s1, 10);
    var (latitude, _) :- Field(s2, '\n', 10);
    Some(StationLine(name, longitude, latitude))
  }

  function ScanRow(line: string): Option<Row> {
    var (departs, s1) :- FieldAndComma(line, 5);
    var (route, s2) :- FieldAndComma(s1, 60);
    var (from, s3) :- FieldAndComma(s2, 60);
    var (arrives, s4) :- FieldAndComma(s3, 5);
    var (to, _) :- Field(s4, '\n', 60);
    Some(Row(departs, route, from, arrives, to))
  }

  // The first line that is no comment and holds a station, and what follows it.
  function FindStation(file: string): Option<(StationLine, string)>
    decreases |file|
  {
    if file == [] then None
    else
      var n := CLine(file);
      var station := ScanStation(file[..n]);
      if file[0] != '#' && station.Some? then Some((station.value, file[n..])) else FindStation(file[n..])
  }

  function RowsIn(file: string): seq<Row>
    decreases |file|
  {
    if file == [] then [] else RowsOfLine(file[..CLine(file)]) + RowsIn(file[CLine(file)..])
  }

  // The row on a line, if there is one.
  function RowsOfLine(line: string): seq<Row>
    requires line != []
  {
    if line[0] == '#' then []
    else match ScanRow(line) case None => [] case Some(r) => [r]
  }

  function AfterStation(file: string): string {
    match FindStation(file) case None => "" case Some((_, rest)) => rest
  }

  // The first loop: read lines until one holds the station.
  method SkipToStation(file: string) returns (rest: string)
    ensures rest == AfterStation(file)
  {
    rest := file;
    while rest != []
      invariant AfterStation(rest) == AfterStation(file)
      decreases |rest|
    {
      var n := CLine(rest);
      var line := rest[..n];
      if line[0] != '#' && ScanStation(line).Some? {
        return rest[n..];
      }
      rest := rest[n..];
    }
  }

  // realloc to twice the size, keeping what is there.
  method Grow(table: array<Row>) returns (larger: array<Row>)
    requires table.Length >= 1
    ensures fresh(larger) && larger.Length == 2 * table.Length && larger[..table.Length] == table[..]
  {
    var blank := Row("", "", "", "", "");
    larger := new Row[2 * table.Length](_ => blank);
    for i := 0 to table.Length
      invariant larger[..i] == table[..i]
    {
      larger[i] := table[i];
    }
  }

  // Store one row and make room for the next.
  method Store(table: array<Row>, count: nat, row: Row) returns (stored: array<Row>)
    requires count < table.Length
    modifies table
    ensures stored == table || fresh(stored)
    ensures count + 1 < stored.Length && stored[..count + 1] == old(table[..count]) + [row]
  {
    table[count] := row;
    assert table[..count + 1] == old(table[..count]) + [row];
    stored := table;
    if count + 1 == table.Length {
      stored := Grow(table);
    }
  }

  // The second loop: a row for every line that holds one.
  method ReadRows(file: string) returns (table: array<Row>, count: nat)
    ensures fresh(table) && count < table.Length && table[..count] == RowsIn(file)
  {
    var rest := file;
    count := 0;
    table := new Row[1](_ => Row("", "", "", "", ""));
    while rest != []
      invariant fresh(table) && count < table.Length && table[..count] + RowsIn(rest) == RowsIn(file)
      decreases |rest|
    {
      var n := CLine(rest);
      var line := rest[..n];
      OneLineOfRows(table[..count], rest);
      rest := rest[n..];
      table, count := ReadRow(table, count, line);
    }
  }

  lemma OneLineOfRows(before: seq<Row>, file: string)
    requires file != []
    ensures before + RowsIn(file) == before + RowsOfLine(file[..CLine(file)]) + RowsIn(file[CLine(file)..])
  {
  }

  /** readtimetable: the array ends holding the file's rows in order, and is never written at or past its size. */
  method ReadTimetable(file: string) returns (table: array<Row>, count: nat)
    ensures fresh(table) && count < table.Length && table[..count] == RowsIn(AfterStation(file))
  {
    var rest := SkipToStation(file);
    table, count := ReadRows(rest);
  }

  method ReadRow(table: array<Row>, count: nat, line: string) returns (stored: array<Row>, newCount: nat)
    requires count < table.Length && line != []
    modifies table
    ensures stored == table || fresh(stored)
    ensures newCount < stored.Length && stored[..newCount] == old(table[..count]) + RowsOfLine(line)
  {
    stored, newCount := table, count;
    if line[0] == '#' { return; }
    var row := ScanRow(line);
    if row.Some? {
      stored := Store(table, count, row.value);
      newCount := count + 1;
    }
  }

  // ----- reading in Python

  function StripLeft(s: string): string {
    if s != [] && IsSpace(s[0]) then StripLeft(s[1..]) else s
  }

  function StripRight(s: string): string {
    if s != [] && IsSpace(s[|s| - 1]) then StripRight(s[..|s| - 1]) else s
  }

  function Strip(s: string): string {
    StripRight(StripLeft(s))
  }

  // s.split(',')
  function SplitCommas(s: string): seq<string>
    decreases |s|
  {
    var n := UpTo(s, ',');
    if n == |s| then [s] else [s[..n]] + SplitCommas(s[n + 1..])
  }

  function Entries(file: string): seq<seq<string>>
    decreases |file|
  {
    if file == [] then []
    else
      var n := LineLength(file, |file|);
      var line := Strip(file[..n]);
      (if line != [] && line[0] != '#' then [SplitCommas(line)] else []) + Entries(file[n..])
  }

  function Columns(r: Row): seq<string> {
    [r.departs, r.route, r.departingFrom, r.arrives, r.arrivalStation]
  }

  // ----- what can be printed

  predicate IsField(s: string, width: nat) {
    1 <= |s| <= width && forall i :: 0 <= i < |s| ==> s[i] != ',' && !IsSpace(s[i])
  }

  predicate PrintableRow(r: Row) {
    IsField(r.departs, 5) && IsField(r.route, 60) && IsField(r.departingFrom, 60) && IsField(r.arrives, 5)
    && IsField(r.arrivalStation, 60) && r.departs[0] != '#'
  }

  predicate PrintableStation(s: StationLine) {
    IsField(s.name, 60) && IsField(s.longitude, 10) && IsField(s.latitude, 10) && s.name[0] != '#'
  }
}
