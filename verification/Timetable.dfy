/** A station's timetable and the first-match search both servers run on it. */
module Timetable {
  import opened Text

  datatype Row = Row(departs: string, route: string, departingFrom: string, arrives: string, arrivalStation: string)

  predicate Matches(r: Row, destination: string, earliest: string) {
    Minutes(earliest) <= Minutes(r.departs) && r.arrivalStation == destination
  }

  function Search(rows: seq<Row>, destination: string, earliest: string): Option<Row> {
    if rows == [] then None
    else if Matches(rows[0], destination, earliest) then Some(rows[0])
    else Search(rows[1..], destination, earliest)
  }

  // Buses to one station arrive in the order in which the file lists them.
  ghost predicate ArrivalsInOrder(rows: seq<Row>) {
    forall i, j :: 0 <= i < j < |rows| && rows[i].arrivalStation == rows[j].arrivalStation ==>
      Minutes(rows[i].arrives) <= Minutes(rows[j].arrives)
  }

  ghost predicate DeparturesIncrease(rows: seq<Row>) {
    forall i, j :: 0 <= i < j < |rows| ==> Minutes(rows[i].departs) < Minutes(rows[j].departs)
  }

  ghost predicate RowsAreClocks(rows: seq<Row>) {
    forall r :: r in rows ==> IsClock(r.departs) && IsClock(r.arrives)
  }

  /** A timetable of one day: no bus arrives before it leaves, and every time is before 99:99. */
  ghost predicate OneDay(rows: seq<Row>) {
    forall r :: r in rows ==> Minutes(r.departs) <= Minutes(r.arrives) < NEVER
  }

  // server.py scans every row after the station line.
  method SearchTimetable(entries: seq<Row>, destination: string, earliest: string) returns (r: Option<Row>)
    ensures r == Search(entries, destination, earliest)
  {
    assert entries[0..] == entries;
    for i := 0 to |entries|
      invariant Search(entries[i..], destination, earliest) == Search(entries, destination, earliest)
    {
      var entry := entries[i];
      assert entries[i..][1..] == entries[i + 1..];
      if Minutes(earliest) > Minutes(entry.departs) { continue; }
      if destination == entry.arrivalStation {
        return Some(entry);
      }
    }
    return None;
  }

  // timetable.c stops one row early, so its last row is never found.
  method SearchTimetableC(timetable: seq<Row>, earliest: string, destination: string) returns (which: int)
    ensures -1 <= which < |timetable|
    ensures which == -1 <==> Search(AllButLast(timetable), destination, earliest) == None
    ensures which != -1 ==> Search(AllButLast(timetable), destination, earliest) == Some(timetable[which])
  {
    var visible := AllButLast(timetable);
    assert visible[0..] == visible;
    var i := 0;
    while i < |timetable| - 1
      invariant 0 <= i <= |visible|
      invariant Search(visible[i..], destination, earliest) == Search(visible, destination, earliest)
    {
      assert visible[i..][1..] == visible[i + 1..] && visible[i] == timetable[i];
      if Minutes(earliest) <= Minutes(timetable[i].departs) {
        if destination == timetable[i].arrivalStation {
          return i;
        }
      }
      i := i + 1;
    }
    return -1;
  }

  function AllButLast(rows: seq<Row>): seq<Row> {
    if rows == [] then [] else rows[..|rows| - 1]
  }

  // ----- what the search finds

  /** The search fails exactly when no row will do, and otherwise returns the first row that does. */
  function FirstMatch(rows: seq<Row>, destination: string, earliest: string): (i: nat)
    ensures i <= |rows|
    ensures forall k :: 0 <= k < i ==> !Matches(rows[k], destination, earliest)
    ensures i < |rows| ==> Matches(rows[i], destination, earliest)
    ensures Search(rows, destination, earliest) == if i < |rows| then Some(rows[i]) else None
  {
    if rows == [] || Matches(rows[0], destination, earliest) then 0
    else 1 + FirstMatch(rows[1..], destination, earliest)
  }

  lemma SearchedRow(rows: seq<Row>, destination: string, earliest: string)
    requires Search(rows, destination, earliest).Some?
    ensures var r := Search(rows, destination, earliest).value; r in rows && Matches(r, destination, earliest)
  {
    var i := FirstMatch(rows, destination, earliest);
  }

  // No row leaves at or after 99:99.
  lemma NothingAfterTooLate(rows: seq<Row>, destination: string)
    requires OneDay(rows)
    ensures Search(rows, destination, TOO_LATE) == None
  {
    TooLateIsNever();
    if Search(rows, destination, TOO_LATE).Some? {
      SearchedRow(rows, destination, TOO_LATE);
    }
  }

  // The last row will do, and no row before it.
  predicate OnlyLastMatches(rows: seq<Row>, destination: string, earliest: string) {
    rows != [] && Matches(rows[|rows| - 1], destination, earliest)
    && forall k :: 0 <= k < |rows| - 1 ==> !Matches(rows[k], destination, earliest)
  }

  /** The C search misses the last row: the two programs differ exactly when no other row will do. */
  lemma SearchesAgreeIff(rows: seq<Row>, destination: string, earliest: string)
    ensures Search(AllButLast(rows), destination, earliest) == Search(rows, destination, earliest)
       <==> !OnlyLastMatches(rows, destination, earliest)
  {
    var i, j := FirstMatch(rows, destination, earliest), FirstMatch(AllButLast(rows), destination, earliest);
    if i < |rows| - 1 {
      assert AllButLast(rows)[i] == rows[i];
    }
    if j < |AllButLast(rows)| {
      assert Matches(rows[j], destination, earliest);
    }
  }

  /** ... as at a station with one bus to X and a later one, its last, to Y. */
  lemma LastBusIsMissed(x: string, y: string)
    requires x != y
    ensures var last := Row(ClockOf(540), "late", "stop", ClockOf(570), y);
            var rows := [Row(ClockOf(480), "early", "stop", ClockOf(510), x), last];
            Search(rows, y, ClockOf(420)) == Some(last) && Search(AllButLast(rows), y, ClockOf(420)) == None
  {
    ClockRoundTrip(420);
    ClockRoundTrip(540);
    var last := Row(ClockOf(540), "late", "stop", ClockOf(570), y);
    var rows := [Row(ClockOf(480), "early", "stop", ClockOf(510), x), last];
    assert rows[1..] == [last] && AllButLast(rows) == [rows[0]];
    assert AllButLast(rows)[1..] == [];
  }

  /** Searching again from the departure just found gives the same row, sorted table or not. */
  lemma SearchAgain(rows: seq<Row>, destination: string, earliest: string)
    requires Search(rows, destination, earliest).Some?
    ensures Search(rows, destination, Search(rows, destination, earliest).value.departs)
         == Search(rows, destination, earliest)
  {
    var i := FirstMatch(rows, destination, earliest);
    var j := FirstMatch(rows, destination, rows[i].departs);
    assert Matches(rows[i], destination, rows[i].departs);
    if j < i {
      assert Matches(rows[j], destination, earliest);
    }
  }

  // The first bus one can catch is also the first to arrive.
  ghost predicate GreedyIsBest(rows: seq<Row>, destination: string, earliest: string) {
    forall r :: r in rows && Matches(r, destination, earliest) ==>
      Search(rows, destination, earliest).Some?
      && Minutes(Search(rows, destination, earliest).value.arrives) <= Minutes(r.arrives)
  }

  lemma GreedyFromOrder(rows: seq<Row>, destination: string, earliest: string)
    requires ArrivalsInOrder(rows)
    ensures GreedyIsBest(rows, destination, earliest)
  {
    var i := FirstMatch(rows, destination, earliest);
    forall r | r in rows && Matches(r, destination, earliest)
      ensures i < |rows| && Minutes(rows[i].arrives) <= Minutes(r.arrives)
    {
      var j :| 0 <= j < |rows| && rows[j] == r;
    }
  }

  /** For departures that increase, taking the first bus is right at every time of asking
      if and only if no bus to the same station overtakes another. */
  lemma GreedyIffNoOvertaking(rows: seq<Row>)
    requires DeparturesIncrease(rows)
    ensures (forall destination: string, m: nat :: GreedyIsBest(rows, destination, ClockOf(m)))
       <==> ArrivalsInOrder(rows)
  {
    if ArrivalsInOrder(rows) {
      forall destination: string, m: nat ensures GreedyIsBest(rows, destination, ClockOf(m)) {
        GreedyFromOrder(rows, destination, ClockOf(m));
      }
    }
    if forall destination: string, m: nat :: GreedyIsBest(rows, destination, ClockOf(m)) {
      forall i, j | 0 <= i < j < |rows| && rows[i].arrivalStation == rows[j].arrivalStation
        ensures Minutes(rows[i].arrives) <= Minutes(rows[j].arrives)
      {
        var m := Minutes(rows[i].departs);
        ClockRoundTrip(m);
        var destination := rows[i].arrivalStation;
        assert FirstMatch(rows, destination, ClockOf(m)) == i by {
          assert Matches(rows[i], destination, ClockOf(m));
        }
        assert GreedyIsBest(rows, destination, ClockOf(m));
        assert Matches(rows[j], destination, ClockOf(m)) && rows[j] in rows;
      }
    }
  }
}
