/** The generator and the protocol together: on a generated network every answer is the earliest arrival. */
module GeneratedNetwork {
  import opened Text
  import opened Timetable
  import opened Protocol
  import opened Journey
  import opened Runs
  import opened Enumeration
  import opened Itinerary
  import opened Earliest
  import Graphs
  import Routes
  import opened Generator

  // The opening and closing times of the random and of the linear generator.
  const RANDOM_DAY := (6 * 60, 21 * 60)
  const LINEAR_DAY := (5 * 60, 22 * 60)

  function LinksAt(e: Graphs.Edges, n: nat, i: nat): set<nat> {
    set j: nat | j < n && (i, j) in e
  }

  // What drives one station's loop: its links, distances, hours and draws.
  datatype Day = Day(hours: (nat, nat), distance: seq<nat>, draws: seq<Draw>)

  function PlanOf(e: Graphs.Edges, n: nat, i: nat, day: Day): Plan
    requires LinksAt(e, n, i) != {}
  {
    Plan(LinksAt(e, n, i), day.distance, 60 / |LinksAt(e, n, i)|, day.hours.1)
  }

  ghost predicate FairDay(n: nat, day: Day) {
    day.hours in {RANDOM_DAY, LINEAR_DAY} && |day.distance| == n && FairDraws(day.draws, n)
    && forall j :: 0 <= j < n ==> day.distance[j] <= MAX_DISTANCE
  }

  function BusesOf(e: Graphs.Edges, n: nat, i: nat, day: Day): seq<Bus>
    requires LinksAt(e, n, i) != {} && |day.distance| == n
  {
    TimetableOf(LinksAt(e, n, i), day.distance, day.hours.0, day.hours.1, day.draws)
  }

  // Station i: its generated name, its neighbours' addresses, and a timetable whose loop ran to the end of the day.
  ghost predicate GeneratedStation(st: Station, n: nat, type0: nat, e: Graphs.Edges, place: seq<Address>,
                                   i: nat, day: Day)
    requires i < n == |place|
  {
    st.name == Label(n, type0, i) && st.address == place[i]
    && Distinct(st.neighbours)
    && (forall a :: a in st.neighbours <==> exists j: nat :: j < n && (i, j) in e && place[j] == a)
    && FairDay(n, day) && LinksAt(e, n, i) != {}
    && st.timetable == RowsOf(n, type0, i, BusesOf(e, n, i, day))
    && TimetableEnd(LinksAt(e, n, i), day.distance, day.hours.0, day.hours.1, day.draws) >= day.hours.1
  }

  ghost predicate GeneratedAt(net: Network, n: nat, type0: nat, e: Graphs.Edges, place: seq<Address>,
                              days: seq<Day>, i: nat)
    requires i < n == |place| == |days|
  {
    place[i] in net && GeneratedStation(net[place[i]], n, type0, e, place, i, days[i])
  }

  ghost predicate AtOnePlace(net: Network, place: seq<Address>, a: Address) {
    a in net ==> a in place
  }

  ghost predicate Generated(net: Network, n: nat, type0: nat, e: Graphs.Edges, place: seq<Address>, days: seq<Day>) {
    MIN_NODES <= n <= MAX_NODES && |place| == |days| == n && Distinct(place)
    && (forall i :: 0 <= i < n ==> IsHostPort(place[i]) && IsToken(place[i]))
    && Routes.IsNetwork(e, n) && Graphs.Connected(e, n)
    && (forall a {:trigger AtOnePlace(net, place, a)} :: AtOnePlace(net, place, a))
    && forall i {:trigger GeneratedAt(net, n, type0, e, place, days, i)} :: 0 <= i < n ==>
      GeneratedAt(net, n, type0, e, place, days, i)
  }

  lemma {:induction false} FitsInRange(s: set<nat>, n: nat)
    requires forall j :: j in s ==> j < n
    ensures |s| <= n
  {
    if n > 0 {
      var fewer := s - {n - 1};
      assert forall j :: j in fewer ==> j < n - 1;
      FitsInRange(fewer, n - 1);
    } else {
      assert s == {};
    }
  }

  lemma AllButLastIsRegular(rows: seq<Row>)
    requires OneDay(rows) && ArrivalsInOrder(rows)
    ensures OneDay(AllButLast(rows)) && ArrivalsInOrder(AllButLast(rows))
  {
    assert forall r :: r in AllButLast(rows) ==> r in rows;
  }

  lemma StationRows(st: Station, n: nat, type0: nat, e: Graphs.Edges, place: seq<Address>, i: nat, day: Day)
    requires i < n == |place| && n <= MAX_NODES && GeneratedStation(st, n, type0, e, place, i, day)
    ensures RowsAreClocks(st.timetable) && OneDay(st.timetable) && ArrivalsInOrder(st.timetable)
  {
    GeneratedTableIsRegular(n, type0, i, PlanOf(e, n, i, day), day.hours.0 + |LinksAt(e, n, i)|, day.draws);
  }

  lemma StationHasABus(st: Station, n: nat, type0: nat, e: Graphs.Edges, place: seq<Address>, i: nat, day: Day)
    requires i < n == |place| && n <= MAX_NODES && GeneratedStation(st, n, type0, e, place, i, day)
    ensures st.timetable != []
  {
    FitsInRange(LinksAt(e, n, i), n);
    FullDayHasABus(PlanOf(e, n, i, day), day.hours.0 + |LinksAt(e, n, i)|, day.draws);
  }

  lemma StationTable(st: Station, n: nat, type0: nat, e: Graphs.Edges, place: seq<Address>, i: nat, day: Day)
    requires i < n == |place| && n <= MAX_NODES && GeneratedStation(st, n, type0, e, place, i, day)
    ensures RowsAreClocks(st.timetable) && st.timetable != [] && OneDay(Visible(st)) && ArrivalsInOrder(Visible(st))
  {
    StationRows(st, n, type0, e, place, i, day);
    StationHasABus(st, n, type0, e, place, i, day);
    AllButLastIsRegular(st.timetable);
  }

  lemma StationRowsAreShort(st: Station, n: nat, type0: nat, e: Graphs.Edges, place: seq<Address>, i: nat, day: Day)
    requires i < n == |place| && n <= MAX_NODES && GeneratedStation(st, n, type0, e, place, i, day)
    ensures forall r :: r in st.timetable ==> ShortRow(r)
  {
    GeneratedRowsAreShort(n, type0, i, PlanOf(e, n, i, day), day.hours.0 + |LinksAt(e, n, i)|, day.draws);
  }

  lemma StationIsGenerated(net: Network, n: nat, type0: nat, e: Graphs.Edges, place: seq<Address>,
                           days: seq<Day>, a: Address)
    returns (i: nat)
    requires Generated(net, n, type0, e, place, days) && a in net
    ensures i < n && place[i] == a && GeneratedStation(net[a], n, type0, e, place, i, days[i])
  {
    assert AtOnePlace(net, place, a);
    i :| 0 <= i < |place| && place[i] == a;
    assert GeneratedAt(net, n, type0, e, place, days, i);
  }

  lemma NeighboursExist(net: Network, n: nat, type0: nat, e: Graphs.Edges, place: seq<Address>, days: seq<Day>,
                        a: Address, b: Address)
    requires Generated(net, n, type0, e, place, days) && a in net && b in net[a].neighbours
    ensures b in net && b != a
  {
    var i := StationIsGenerated(net, n, type0, e, place, days, a);
    var j: nat :| j < n && (i, j) in e && place[j] == b;
    assert GeneratedAt(net, n, type0, e, place, days, j);
  }

  lemma ClocksAreReadable(net: Network, rows: seq<Row>)
    requires RowsAreClocks(rows)
    ensures forall r :: r in rows ==> ReadableIn(net, r.arrives)
  {
    forall r, a | r in rows ensures CanRead(net, a, r.arrives) {
    }
  }

  lemma StationIsFit(net: Network, n: nat, type0: nat, e: Graphs.Edges, place: seq<Address>,
                     days: seq<Day>, a: Address)
    requires Generated(net, n, type0, e, place, days) && a in net
    ensures Fit(net, a)
  {
    var i := StationIsGenerated(net, n, type0, e, place, days, a);
    var st := net[a];
    StationTable(st, n, type0, e, place, i, days[i]);
    StationRowsAreShort(st, n, type0, e, place, i, days[i]);
    LabelIsShort(n, type0, i);
    ClocksAreReadable(net, st.timetable);
    forall b | b in st.neighbours ensures b in net && b != a {
      NeighboursExist(net, n, type0, e, place, days, a, b);
    }
  }

  lemma StationsAreDistinct(net: Network, n: nat, type0: nat, e: Graphs.Edges, place: seq<Address>, days: seq<Day>,
                            a: Address, b: Address)
    requires Generated(net, n, type0, e, place, days) && SameName(net, a, b)
    ensures a == b
  {
    var i := StationIsGenerated(net, n, type0, e, place, days, a);
    var j := StationIsGenerated(net, n, type0, e, place, days, b);
    LabelsDiffer(n, type0, i, j);
  }

  /** A generated network, started with one address per station, meets every assumption of the protocol. */
  lemma GeneratedIsRegular(net: Network, n: nat, type0: nat, e: Graphs.Edges, place: seq<Address>, days: seq<Day>)
    requires Generated(net, n, type0, e, place, days)
    ensures WellFormed(net) && Regular(net)
  {
    forall a | a in net ensures Fit(net, a) {
      StationIsFit(net, n, type0, e, place, days, a);
    }
    forall a, b | SameName(net, a, b) ensures a == b {
      StationsAreDistinct(net, n, type0, e, place, days, a, b);
    }
    FitIsRegular(net);
  }

  function AtPlaces(place: seq<Address>, p: seq<nat>): (w: seq<Address>)
    requires forall m :: 0 <= m < |p| ==> p[m] < |place|
    ensures |w| == |p| && forall m :: 0 <= m < |p| ==> w[m] == place[p[m]]
  {
    seq(|p|, m requires 0 <= m < |p| => place[p[m]])
  }

  // A walk in the adjacency matrix is a walk between stations.
  lemma WalkAtPlaces(net: Network, n: nat, type0: nat, e: Graphs.Edges, place: seq<Address>,
                     days: seq<Day>, p: seq<nat>)
    requires Generated(net, n, type0, e, place, days) && Graphs.IsWalk(e, p)
    ensures forall m :: 0 <= m < |p| ==> p[m] < |place|
    ensures Walk(net, AtPlaces(place, p))
  {
    forall m | 0 <= m < |p| ensures p[m] < n {
      assert if m < |p| - 1 then Graphs.Step(e, p, m) else Graphs.Step(e, p, m - 1);
    }
    var w := AtPlaces(place, p);
    forall m | 0 <= m < |w| ensures w[m] in net {
      assert GeneratedAt(net, n, type0, e, place, days, p[m]);
    }
    forall m | 0 <= m < |w| - 1 ensures Edge(net, w, m) {
      assert Graphs.Step(e, p, m);
      assert GeneratedAt(net, n, type0, e, place, days, p[m]);
      assert place[p[m + 1]] in net[place[p[m]]].neighbours;
    }
  }

  lemma PlacesAreLinked(net: Network, n: nat, type0: nat, e: Graphs.Edges, place: seq<Address>, days: seq<Day>,
                        i: nat, j: nat)
    returns (w: seq<Address>)
    requires Generated(net, n, type0, e, place, days) && i < n && j < n
    ensures w != [] && Walk(net, w) && w[0] == place[i] && w[|w| - 1] == place[j]
  {
    assert Graphs.Joined(e, i, j);
    var p :| Graphs.Links(e, p, i, j);
    WalkAtPlaces(net, n, type0, e, place, days, p);
    w := AtPlaces(place, p);
  }

  lemma EveryPairIsLinked(net: Network, n: nat, type0: nat, e: Graphs.Edges, place: seq<Address>, days: seq<Day>,
                          key: Key, j: nat)
    requires Generated(net, n, type0, e, place, days) && ValidKey(net, key) && j < n
    requires key.destination == Label(n, type0, j)
    ensures exists w :: Reaches(net, key, w)
  {
    var i := StationIsGenerated(net, n, type0, e, place, days, key.src);
    var w := PlacesAreLinked(net, n, type0, e, place, days, i, j);
    assert GeneratedAt(net, n, type0, e, place, days, j);
    assert Reaches(net, key, w);
  }

  /** On a generated network whose stations are each asked at most a hundred different queries, a query from a Python
      station to any other station always has an answer once it has gone quiet, and the answer is the earliest arrival
      over the whole network. */
  lemma EveryQueryIsAnswered(net: Network, n: nat, type0: nat, e: Graphs.Edges, place: seq<Address>, days: seq<Day>,
                             s: State, key: Key, j: nat)
    requires Generated(net, n, type0, e, place, days) && ValidKey(net, key) && net[key.src].language == Python
    requires j < n && key.destination == Label(n, type0, j)
    requires Reachable(net, s) && FewAsked(s) && key in s.injected && Quiet(s, key)
    ensures Registered(s, key) && StoredAnswer(s, key).Some?
    ensures EarliestAnswer(net, key, StoredAnswer(s, key).value)
  {
    GeneratedIsRegular(net, n, type0, e, place, days);
    HundredQueriesAreAnswered(net, s, key);
    EveryPairIsLinked(net, n, type0, e, place, days, key, j);
  }
}
