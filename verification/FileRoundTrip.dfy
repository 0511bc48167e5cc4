/** Both servers read back exactly the rows that were printed. */
module FileRoundTrip {
  import opened Text
  import opened Timetable
  import opened TimetableFile
  import opened Generator

  // ----- lines

  lemma {:induction false} LineAt(t: string, rest: string, room: nat)
    requires |t| < room && '\n' !in t
    ensures LineLength(t + "\n" + rest, room) == |t| + 1
  {
    var s := t + "\n" + rest;
    if t != [] {
      assert s[0] == t[0] && s[1..] == t[1..] + "\n" + rest;
      LineAt(t[1..], rest, room - 1);
    }
  }

  // A line that ends in a newline is taken off whole.
  lemma TakesLine(line: string, rest: string, room: nat)
    requires line != [] && line[|line| - 1] == '\n' && '\n' !in line[..|line| - 1] && |line| <= room
    ensures LineLength(line + rest, room) == |line|
    ensures (line + rest)[..|line|] == line && (line + rest)[|line|..] == rest && (line + rest)[0] == line[0]
  {
    var t := line[..|line| - 1];
    assert line + rest == t + "\n" + rest;
    LineAt(t, rest, room);
  }

  ghost predicate IsLine(line: string) {
    line != [] && line[|line| - 1] == '\n' && '\n' !in line[..|line| - 1] && |line| < MAX_BUFFER
  }

  lemma RowIsLine(r: Row)
    requires PrintableRow(r)
    ensures IsLine(PrintRow(r)) && PrintRow(r)[0] == r.departs[0]
  {
    var line := PrintRow(r);
    var t := r.departs + "," + (r.route + "," + (r.departingFrom + "," + (r.arrives + "," + r.arrivalStation)));
    assert line == t + "\n";
    assert line[..|line| - 1] == t;
  }

  lemma StationIsLine(s: StationLine)
    requires PrintableStation(s)
    ensures IsLine(PrintStation(s)) && PrintStation(s)[0] == s.name[0]
  {
    var line := PrintStation(s);
    var t := s.name + "," + (s.longitude + "," + s.latitude);
    assert line == t + "\n";
    assert line[..|line| - 1] == t;
  }

  // ----- C

  lemma ScansField(f: string, width: nat, rest: string)
    requires IsField(f, width)
    ensures FieldAndComma(f + "," + rest, width) == Some((f, rest))
  {
    var s := f + "," + rest;
    assert s == f + ("," + rest);
    UpToFinds(f, ',', "," + rest);
    assert s[..|f|] == f && s[|f|..] == "," + rest && s[|f|..][1..] == rest;
  }

  lemma ScansLastField(f: string, width: nat)
    requires IsField(f, width)
    ensures Field(f + "\n", '\n', width) == Some((f, "\n"))
  {
    UpToFinds(f, '\n', "\n");
    assert (f + "\n")[..|f|] == f && (f + "\n")[|f|..] == "\n";
  }

  lemma ScansRow(r: Row)
    requires PrintableRow(r)
    ensures ScanRow(PrintRow(r)) == Some(r)
  {
    var s4 := r.arrivalStation + "\n";
    var s3 := r.arrives + "," + s4;
    var s2 := r.departingFrom + "," + s3;
    var s1 := r.route + "," + s2;
    ScansField(r.departs, 5, s1);
    ScansField(r.route, 60, s2);
    ScansField(r.departingFrom, 60, s3);
    ScansField(r.arrives, 5, s4);
    ScansLastField(r.arrivalStation, 60);
  }

  lemma ScansStation(s: StationLine)
    requires PrintableStation(s)
    ensures ScanStation(PrintStation(s)) == Some(s)
  {
    ScansField(s.name, 60, s.longitude + "," + (s.latitude + "\n"));
    ScansField(s.longitude, 10, s.latitude + "\n");
    ScansLastField(s.latitude, 10);
  }

  lemma {:induction false} RowsReadBack(rows: seq<Row>)
    requires forall r :: r in rows ==> PrintableRow(r)
    ensures RowsIn(PrintRows(rows)) == rows
  {
    if rows != [] {
      var line, rest := PrintRow(rows[0]), PrintRows(rows[1..]);
      RowIsLine(rows[0]);
      ScansRow(rows[0]);
      TakesLine(line, rest, MAX_BUFFER - 1);
      RowsReadBack(rows[1..]);
    }
  }

  lemma CommentIsLine(columns: string)
    requires '\n' !in columns && |columns| < 250
    ensures IsLine(Comment(columns)) && Comment(columns)[0] == '#'
  {
    var line := Comment(columns);
    assert line[..|line| - 1] == "# " + columns;
  }

  lemma ColumnsAreLines()
    ensures IsLine(Comment(STATION_COLUMNS)) && Comment(STATION_COLUMNS)[0] == '#'
    ensures IsLine(Comment(ROW_COLUMNS)) && Comment(ROW_COLUMNS)[0] == '#'
  {
    CommentIsLine(STATION_COLUMNS);
    CommentIsLine(ROW_COLUMNS);
  }

  lemma SkipsComment(line: string, rest: string)
    requires IsLine(line) && line[0] == '#'
    ensures FindStation(line + rest) == FindStation(rest) && RowsIn(line + rest) == RowsIn(rest)
  {
    TakesLine(line, rest, MAX_BUFFER - 1);
  }

  lemma FindsStation(s: StationLine, rest: string)
    requires PrintableStation(s)
    ensures FindStation(PrintStation(s) + rest) == Some((s, rest))
  {
    StationIsLine(s);
    ScansStation(s);
    TakesLine(PrintStation(s), rest, MAX_BUFFER - 1);
  }

  /** The C reader finds the station and exactly the printed rows, in order. */
  lemma FileReadsBack(s: StationLine, rows: seq<Row>)
    requires PrintableStation(s) && forall r :: r in rows ==> PrintableRow(r)
    ensures FindStation(PrintFile(s, rows)) == Some((s, Comment(ROW_COLUMNS) + PrintRows(rows)))
    ensures RowsIn(AfterStation(PrintFile(s, rows))) == rows
  {
    ColumnsAreLines();
    SkipsComment(Comment(STATION_COLUMNS), PrintStation(s) + (Comment(ROW_COLUMNS) + PrintRows(rows)));
    FindsStation(s, Comment(ROW_COLUMNS) + PrintRows(rows));
    SkipsComment(Comment(ROW_COLUMNS), PrintRows(rows));
    RowsReadBack(rows);
  }

  // ----- what makes a line a row

  // s begins with this field: it has 1 to width characters, and ends before a stop, at the end or at the width.
  ghost predicate Begins(s: string, stop: char, width: nat, f: string, rest: string) {
    s == f + rest && 1 <= |f| <= width && stop !in f && (rest == "" || rest[0] == stop || |f| == width)
  }

  lemma {:induction false} UpToIsFirst(s: string, c: char)
    ensures c !in s[..UpTo(s, c)] && (UpTo(s, c) < |s| ==> s[UpTo(s, c)] == c)
  {
    if s != [] && s[0] != c {
      UpToIsFirst(s[1..], c);
      assert s[..UpTo(s, c)] == [s[0]] + s[1..][..UpTo(s[1..], c)];
    }
  }

  lemma {:induction false} NoneBefore(f: string, rest: string, stop: char)
    requires stop !in f
    ensures UpTo(f + rest, stop) >= |f|
  {
    if f != [] {
      assert (f + rest)[1..] == f[1..] + rest;
      NoneBefore(f[1..], rest, stop);
    }
  }

  lemma FieldIff(s: string, stop: char, width: nat, f: string, rest: string)
    ensures Field(s, stop, width) == Some((f, rest)) <==> Begins(s, stop, width, f, rest)
  {
    var k := UpTo(s, stop);
    UpToIsFirst(s, stop);
    if Begins(s, stop, width, f, rest) {
      assert s[..|f|] == f && s[|f|..] == rest;
      NoneBefore(f, rest, stop);
      if rest == "" || rest[0] == stop {
        UpToFinds(f, stop, rest);
      }
    }
  }

  lemma FieldAndCommaIff(s: string, width: nat, f: string, rest: string)
    ensures FieldAndComma(s, width) == Some((f, rest)) <==> s == f + ("," + rest) && 1 <= |f| <= width && ',' !in f
  {
    if FieldAndComma(s, width) == Some((f, rest)) {
      FieldIff(s, ',', width, f, "," + rest);
      assert Field(s, ',', width).value.1 == "," + rest;
    }
    if s == f + ("," + rest) && 1 <= |f| <= width && ',' !in f {
      FieldIff(s, ',', width, f, "," + rest);
      assert ("," + rest)[1..] == rest;
    }
  }

  // A row of five columns, each of 1 to so many characters; what follows on the line is not looked at.
  ghost predicate IsRowLine(line: string, r: Row, rest: string) {
    line == r.departs + ("," + (r.route + ("," + (r.departingFrom + ("," + (r.arrives
              + ("," + (r.arrivalStation + rest))))))))
    && 1 <= |r.departs| <= 5 && 1 <= |r.route| <= 60 && 1 <= |r.departingFrom| <= 60 && 1 <= |r.arrives| <= 5
    && ',' !in r.departs && ',' !in r.route && ',' !in r.departingFrom && ',' !in r.arrives
    && Begins(r.arrivalStation + rest, '\n', 60, r.arrivalStation, rest)
  }

  lemma RowLineIsScanned(line: string, r: Row, rest: string)
    requires IsRowLine(line, r, rest)
    ensures ScanRow(line) == Some(r)
  {
    var s4 := r.arrivalStation + rest;
    var s3 := r.arrives + ("," + s4);
    var s2 := r.departingFrom + ("," + s3);
    var s1 := r.route + ("," + s2);
    FieldAndCommaIff(line, 5, r.departs, s1);
    FieldAndCommaIff(s1, 60, r.route, s2);
    FieldAndCommaIff(s2, 60, r.departingFrom, s3);
    FieldAndCommaIff(s3, 5, r.arrives, s4);
    FieldIff(s4, '\n', 60, r.arrivalStation, rest);
  }

  lemma ScannedIsRowLine(line: string)
    requires ScanRow(line).Some?
    ensures exists rest :: IsRowLine(line, ScanRow(line).value, rest)
  {
    var r := ScanRow(line).value;
    var s1 := FieldAndComma(line, 5).value.1;
    var s2 := FieldAndComma(s1, 60).value.1;
    var s3 := FieldAndComma(s2, 60).value.1;
    var s4 := FieldAndComma(s3, 5).value.1;
    var rest := Field(s4, '\n', 60).value.1;
    FieldAndCommaIff(line, 5, r.departs, s1);
    FieldAndCommaIff(s1, 60, r.route, s2);
    FieldAndCommaIff(s2, 60, r.departingFrom, s3);
    FieldAndCommaIff(s3, 5, r.arrives, s4);
    FieldIff(s4, '\n', 60, r.arrivalStation, rest);
    assert IsRowLine(line, r, rest);
  }

  /** Which lines the C reader takes for a row, and for which: those of five columns that fit its fields. */
  lemma IsRowIff(line: string, r: Row)
    ensures ScanRow(line) == Some(r) <==> exists rest :: IsRowLine(line, r, rest)
  {
    if ScanRow(line) == Some(r) {
      ScannedIsRowLine(line);
    }
    if rest :| IsRowLine(line, r, rest) {
      RowLineIsScanned(line, r, rest);
    }
  }

  // A station line has three columns of 1 to so many characters.
  ghost predicate IsStationLine(line: string, st: StationLine, rest: string) {
    line == st.name + ("," + (st.longitude + ("," + (st.latitude + rest))))
    && 1 <= |st.name| <= 60 && 1 <= |st.longitude| <= 10 && ',' !in st.name && ',' !in st.longitude
    && Begins(st.latitude + rest, '\n', 10, st.latitude, rest)
  }

  /** ... and which for the station: those of three. */
  lemma IsStationIff(line: string, st: StationLine)
    ensures ScanStation(line) == Some(st) <==> exists rest :: IsStationLine(line, st, rest)
  {
    if ScanStation(line) == Some(st) {
      var s1 := FieldAndComma(line, 60).value.1;
      var s2 := FieldAndComma(s1, 10).value.1;
      var rest := Field(s2, '\n', 10).value.1;
      FieldAndCommaIff(line, 60, st.name, s1);
      FieldAndCommaIff(s1, 10, st.longitude, s2);
      FieldIff(s2, '\n', 10, st.latitude, rest);
      assert IsStationLine(line, st, rest);
    }
    if rest :| IsStationLine(line, st, rest) {
      var s2 := st.latitude + rest;
      var s1 := st.longitude + ("," + s2);
      FieldAndCommaIff(line, 60, st.name, s1);
      FieldAndCommaIff(s1, 10, st.longitude, s2);
      FieldIff(s2, '\n', 10, st.latitude, rest);
    }
  }

  /** What any line of any file does to the C reader: a comment, or a line that is no station, is passed over in search
      of the station; a comment, or a line that is no row, adds no row. */
  lemma LineByLine(line: string, rest: string)
    requires IsLine(line)
    ensures FindStation(line + rest) ==
              if line[0] != '#' && ScanStation(line).Some? then Some((ScanStation(line).value, rest))
              else FindStation(rest)
    ensures RowsIn(line + rest) ==
              (if line[0] != '#' && ScanRow(line).Some? then [ScanRow(line).value] else []) + RowsIn(rest)
  {
    TakesLine(line, rest, MAX_BUFFER - 1);
  }

  /** What a printed row looks like. */
  lemma RowLooksLikeThis(r: Row)
    ensures PrintRow(r) == r.departs + "," + r.route + "," + r.departingFrom
                           + "," + r.arrives + "," + r.arrivalStation + "\n"
  {
  }

  // ----- Python

  lemma {:induction false} SplitsColumns(f: string, rest: string)
    requires ',' !in f
    ensures SplitCommas(f + "," + rest) == [f] + SplitCommas(rest)
  {
    var s := f + "," + rest;
    assert s == f + ("," + rest);
    UpToFinds(f, ',', "," + rest);
    assert s[..|f|] == f && s[|f| + 1..] == rest;
  }

  lemma SplitsLast(f: string)
    requires ',' !in f
    ensures SplitCommas(f) == [f]
  {
    assert f + "" == f;
    UpToFinds(f, ',', "");
  }

  // ",".join(columns)
  function JoinCommas(columns: seq<string>): string
    requires columns != []
  {
    if |columns| == 1 then columns[0] else columns[0] + "," + JoinCommas(columns[1..])
  }

  /** split(',') undoes join: no column holds a comma, and joined they are the line again. */
  lemma {:induction false} SplitCommasIs(s: string)
    ensures SplitCommas(s) != [] && JoinCommas(SplitCommas(s)) == s
    ensures forall f :: f in SplitCommas(s) ==> ',' !in f
    decreases |s|
  {
    var n := UpTo(s, ',');
    UpToIsFirst(s, ',');
    if n < |s| {
      SplitCommasIs(s[n + 1..]);
      assert SplitCommas(s)[1..] == SplitCommas(s[n + 1..]);
      assert s == s[..n] + "," + s[n + 1..];
    } else {
      assert s[..n] == s;
    }
  }

  predicate AllSpace(s: string) {
    forall i :: 0 <= i < |s| ==> IsSpace(s[i])
  }

  /** strip() takes white space off both ends, and leaves none there. */
  lemma StripIs(s: string) returns (before: string, after: string)
    ensures s == before + Strip(s) + after && AllSpace(before) && AllSpace(after)
    ensures Strip(s) != "" ==> !IsSpace(Strip(s)[0]) && !IsSpace(Strip(s)[|Strip(s)| - 1])
  {
    var t := StripLeft(s);
    before := StripLeftIs(s);
    after := StripRightIs(t);
    assert before + (Strip(s) + after) == before + Strip(s) + after;
  }

  lemma {:induction false} StripLeftIs(s: string) returns (before: string)
    ensures s == before + StripLeft(s) && AllSpace(before) && (StripLeft(s) != "" ==> !IsSpace(StripLeft(s)[0]))
  {
    before := "";
    if s != "" && IsSpace(s[0]) {
      before := StripLeftIs(s[1..]);
      before := [s[0]] + before;
    }
  }

  lemma {:induction false} StripRightIs(s: string) returns (after: string)
    ensures s == StripRight(s) + after && AllSpace(after)
    ensures StripRight(s) != "" ==> !IsSpace(StripRight(s)[|StripRight(s)| - 1]) && StripRight(s)[0] == s[0]
  {
    after := "";
    if s != "" && IsSpace(s[|s| - 1]) {
      after := StripRightIs(s[..|s| - 1]);
      after := after + [s[|s| - 1]];
    }
  }

  /** What any line does to the Python reader: it adds its columns, unless it is blank or a comment. */
  lemma EntryByEntry(t: string, rest: string)
    requires '\n' !in t
    ensures var line := Strip(t + "\n");
            Entries(t + "\n" + rest) ==
              (if line == "" || line[0] == '#' then [] else [SplitCommas(line)]) + Entries(rest)
  {
    var line := t + "\n";
    assert line[..|line| - 1] == t;
    TakesLine(line, rest, |line + rest|);
  }

  lemma StripsNewline(t: string)
    requires t != [] && !IsSpace(t[0]) && !IsSpace(t[|t| - 1])
    ensures Strip(t + "\n") == t
  {
    var s := t + "\n";
    assert s[0] == t[0] && s[|s| - 1] == '\n' && s[..|s| - 1] == t;
    assert StripLeft(s) == s && StripRight(t) == t;
    assert StripRight(s) == StripRight(t);
  }

  lemma SplitsFive(r: Row)
    requires PrintableRow(r)
    ensures SplitCommas(
              r.departs + "," + (r.route + "," + (r.departingFrom + "," + (r.arrives + "," + r.arrivalStation))))
         == Columns(r)
  {
    var s3 := r.arrives + "," + r.arrivalStation;
    var s2 := r.departingFrom + "," + s3;
    var s1 := r.route + "," + s2;
    SplitsColumns(r.departs, s1);
    SplitsColumns(r.route, s2);
    SplitsColumns(r.departingFrom, s3);
    SplitsColumns(r.arrives, r.arrivalStation);
    SplitsLast(r.arrivalStation);
  }

  lemma SplitsRow(r: Row)
    requires PrintableRow(r)
    ensures var line := Strip(PrintRow(r)); line != [] && line[0] != '#' && SplitCommas(line) == Columns(r)
  {
    var t := r.departs + "," + (r.route + "," + (r.departingFrom + "," + (r.arrives + "," + r.arrivalStation)));
    assert PrintRow(r) == t + "\n";
    assert t[|t| - 1] == r.arrivalStation[|r.arrivalStation| - 1] && t[0] == r.departs[0];
    StripsNewline(t);
    SplitsFive(r);
  }

  lemma SplitsStation(s: StationLine)
    requires PrintableStation(s)
    ensures var line := Strip(PrintStation(s));
            line != [] && line[0] != '#' && SplitCommas(line) == [s.name, s.longitude, s.latitude]
  {
    var t := s.name + "," + (s.longitude + "," + s.latitude);
    assert PrintStation(s) == t + "\n";
    assert t[|t| - 1] == s.latitude[|s.latitude| - 1] && t[0] == s.name[0];
    StripsNewline(t);
    SplitsColumns(s.name, s.longitude + "," + s.latitude);
    SplitsColumns(s.longitude, s.latitude);
    SplitsLast(s.latitude);
  }

  function AllColumns(rows: seq<Row>): seq<seq<string>> {
    if rows == [] then [] else [Columns(rows[0])] + AllColumns(rows[1..])
  }

  // Python reads one line, then the rest.
  lemma EntriesOfLine(line: string, rest: string)
    requires IsLine(line)
    ensures var stripped := Strip(line);
            Entries(line + rest) ==
              (if stripped != [] && stripped[0] != '#' then [SplitCommas(stripped)] else []) + Entries(rest)
  {
    TakesLine(line, rest, |line + rest|);
  }

  lemma {:induction false} EntriesOfRows(rows: seq<Row>)
    requires forall r :: r in rows ==> PrintableRow(r)
    ensures Entries(PrintRows(rows)) == AllColumns(rows)
  {
    if rows != [] {
      RowIsLine(rows[0]);
      SplitsRow(rows[0]);
      EntriesOfLine(PrintRow(rows[0]), PrintRows(rows[1..]));
      EntriesOfRows(rows[1..]);
    }
  }

  lemma CommentIsSkipped(columns: string)
    requires '\n' !in columns && |columns| < 250 && columns != [] && !IsSpace(columns[|columns| - 1])
    ensures forall rest :: Entries(Comment(columns) + rest) == Entries(rest)
  {
    var t := "# " + columns;
    assert Comment(columns) == t + "\n" && t[0] == '#' && t[|t| - 1] == columns[|columns| - 1];
    StripsNewline(t);
    CommentIsLine(columns);
    forall rest ensures Entries(Comment(columns) + rest) == Entries(rest) {
      EntriesOfLine(Comment(columns), rest);
    }
  }

  /** Python's entries are the station line, which its search leaves out, and then the printed rows. */
  lemma EntriesReadBack(s: StationLine, rows: seq<Row>)
    requires PrintableStation(s) && forall r :: r in rows ==> PrintableRow(r)
    ensures Entries(PrintFile(s, rows)) == [[s.name, s.longitude, s.latitude]] + AllColumns(rows)
  {
    StationIsLine(s);
    SplitsStation(s);
    CommentIsSkipped(STATION_COLUMNS);
    CommentIsSkipped(ROW_COLUMNS);
    EntriesOfLine(PrintStation(s), Comment(ROW_COLUMNS) + PrintRows(rows));
    EntriesOfRows(rows);
  }

  // ----- generated files

  lemma ClockIsField(m: nat)
    requires m < 6000
    ensures IsField(ClockOf(m), 5) && ClockOf(m)[0] != '#'
  {
    ClockRoundTrip(m);
    ValueOfPad2(m / 60);
    ValueOfPad2(m % 60);
  }

  lemma NamesAreFields(n: nat, type0: nat, i: nat)
    ensures IsField(NodeName(n, i), 2) && IsField(Label(n, type0, i), 10)
  {
    var kind := NodeType(i, type0);
    assert kind == "Station" || kind == "Terminal" || kind == "Junction" || kind == "Busport";
    assert IsField("Station", 8) && IsField("Terminal", 8) && IsField("Junction", 8) && IsField("Busport", 8);
  }

  lemma GeneratedRowIsPrintable(n: nat, type0: nat, i: nat, b: Bus)
    requires b.departs < 6000 && b.arrives < 6000
    ensures PrintableRow(RowOf(n, type0, i, b))
  {
    ClockIsField(b.departs);
    ClockIsField(b.arrives);
    NamesAreFields(n, type0, i);
    NamesAreFields(n, type0, b.to);
    assert IsField("bus", 3) && IsField("_", 1) && IsField("stop", 4);
  }

  /** Every generated file reads back, in both servers, as the rows that were generated, in order. */
  lemma GeneratedFileReadsBack(n: nat, type0: nat, i: nat, plan: Plan, opens: nat, draws: seq<Draw>, s: StationLine)
    requires n <= MAX_NODES && |plan.distance| == n && Sensible(plan) && FairDraws(draws, n) && plan.closes <= 22 * 60
    requires PrintableStation(s)
    ensures var rows := RowsOf(n, type0, i, Buses(plan, opens, draws));
            RowsIn(AfterStation(PrintFile(s, rows))) == rows
            && Entries(PrintFile(s, rows)) == [[s.name, s.longitude, s.latitude]] + AllColumns(rows)
  {
    var buses := Buses(plan, opens, draws);
    var rows := RowsOf(n, type0, i, buses);
    BusesNeverOvertake(plan, opens, draws, n);
    forall k | 0 <= k < |rows| ensures PrintableRow(rows[k]) {
      assert buses[k] in buses;
      GeneratedRowIsPrintable(n, type0, i, buses[k]);
    }
    FileReadsBack(s, rows);
    EntriesReadBack(s, rows);
  }
}
