/** The timetable generator: the buses of one station's day, for any draws, and the rows printed for them. */
module Generator {
  import opened Text
  import opened Timetable
  import opened Warshall

  datatype Bus = Bus(departs: nat, to: nat, arrives: nat)

  // What rand() % N, rand() % 3 and rand() % 5 give; skew and extra are used only when to is a neighbour.
  datatype Draw = Draw(to: nat, skew: nat, extra: nat)

  // A station's day: the stations it has links to, the distance to each, its headway and its last departure.
  datatype Plan = Plan(links: set<nat>, distance: seq<nat>, headway: nat, closes: nat)

  const MAX_DISTANCE := 78

  ghost predicate FairDraws(draws: seq<Draw>, n: nat) {
    forall d :: d in draws ==> d.to < n && d.skew < 3 && d.extra < 5
  }

  ghost predicate Sensible(plan: Plan) {
    (forall j :: j in plan.links ==> j < |plan.distance|)
    && forall j :: 0 <= j < |plan.distance| ==> plan.distance[j] <= MAX_DISTANCE
  }

  function Arrives(plan: Plan, departs: nat, d: Draw): nat
    requires d.to < |plan.distance|
  {
    departs + plan.distance[d.to] + d.skew
  }

  function Next(plan: Plan, departs: nat, d: Draw): nat {
    departs + plan.headway + d.skew + d.extra + 2
  }

  function Buses(plan: Plan, departs: nat, draws: seq<Draw>): seq<Bus>
    requires forall j :: j in plan.links ==> j < |plan.distance|
    decreases |draws|
  {
    if draws == [] || departs >= plan.closes then []
    else
      var d := draws[0];
      if d.to in plan.links
      then [Bus(departs, d.to, Arrives(plan, departs, d))] + Buses(plan, Next(plan, departs, d), draws[1..])
      else Buses(plan, departs, draws[1..])
  }

  // The departure time the loop has reached when the draws are spent or the day is over.
  function EndOf(plan: Plan, departs: nat, draws: seq<Draw>): nat
    decreases |draws|
  {
    if draws == [] || departs >= plan.closes then departs
    else EndOf(plan, if draws[0].to in plan.links then Next(plan, departs, draws[0]) else departs, draws[1..])
  }

  // ----- the generator's loops

  ghost function LinksOf(adj: array2<bool>, n: nat, i: nat): set<nat>
    requires Square(adj, n) && i < n
    reads adj
  {
    set j: nat | j < n && adj[i, j]
  }

  method CountNeighbours(adj: array2<bool>, n: nat, i: nat) returns (nn: nat, links: set<nat>)
    requires Square(adj, n) && i < n
    ensures links == LinksOf(adj, n, i) && nn == |links|
  {
    nn, links := 0, {};
    for j := 0 to n
      invariant links == (set k: nat | k < j && adj[i, k]) && nn == |links|
    {
      if adj[i, j] {
        assert j !in links;
        links := links + {j};
        nn := nn + 1;
      }
    }
  }

  lemma OneDraw(plan: Plan, departs: nat, draws: seq<Draw>, k: nat)
    requires k < |draws| && departs < plan.closes && forall j :: j in plan.links ==> j < |plan.distance|
    ensures Buses(plan, departs, draws[k..]) ==
              if draws[k].to in plan.links
              then [Bus(departs, draws[k].to, Arrives(plan, departs, draws[k]))]
                   + Buses(plan, Next(plan, departs, draws[k]), draws[k + 1..])
              else Buses(plan, departs, draws[k + 1..])
    ensures EndOf(plan, departs, draws[k..]) ==
              EndOf(plan, if draws[k].to in plan.links then Next(plan, departs, draws[k]) else departs, draws[k + 1..])
  {
    assert draws[k..][0] == draws[k] && draws[k..][1..] == draws[k + 1..];
  }

  // The buses of a station with these links, and when the first that is not run would have left.
  function TimetableOf(links: set<nat>, distance: seq<nat>, opens: nat, closes: nat, draws: seq<Draw>): seq<Bus>
    requires links != {} && forall j :: j in links ==> j < |distance|
  {
    Buses(Plan(links, distance, 60 / |links|, closes), opens + |links|, draws)
  }

  function TimetableEnd(links: set<nat>, distance: seq<nat>, opens: nat, closes: nat, draws: seq<Draw>): nat
    requires links != {}
  {
    EndOf(Plan(links, distance, 60 / |links|, closes), opens + |links|, draws)
  }

  /** One station's rows: the first bus leaves nn minutes after opening, and the loop draws until closing.
      nn is not zero, for the code divides by it. */
  method BuildTimetable(adj: array2<bool>, n: nat, i: nat, opens: nat, closes: nat, distance: seq<nat>,
                        draws: seq<Draw>)
    returns (buses: seq<Bus>, closed: bool)
    requires Square(adj, n) && i < n && |distance| == n && LinksOf(adj, n, i) != {} && FairDraws(draws, n)
    ensures var links := LinksOf(adj, n, i);
            buses == TimetableOf(links, distance, opens, closes, draws)
            && (closed <==> TimetableEnd(links, distance, opens, closes, draws) >= closes)
  {
    var nn, links := CountNeighbours(adj, n, i);
    var departs := opens + nn;
    var tdelta := 60 / nn;
    ghost var plan := Plan(links, distance, tdelta, closes);
    var k := 0;
    buses := [];
    assert draws[0..] == draws;
    while departs < closes && k < |draws|
      invariant k <= |draws|
      invariant buses + Buses(plan, departs, draws[k..]) == Buses(plan, opens + nn, draws)
      invariant EndOf(plan, departs, draws[k..]) == EndOf(plan, opens + nn, draws)
    {
      var d := draws[k];
      assert d in draws;
      OneDraw(plan, departs, draws, k);
      if adj[i, d.to] {
        var arrives := departs + distance[d.to] + d.skew;
        buses := buses + [Bus(departs, d.to, arrives)];
        departs := departs + tdelta + d.skew + d.extra + 2;
      }
      k := k + 1;
    }
    closed := departs >= closes;
  }

  // ----- no bus overtakes another

  ghost predicate InOrder(buses: seq<Bus>) {
    forall k, l :: 0 <= k < l < |buses| ==>
      buses[k].departs < buses[l].departs && (buses[k].to == buses[l].to ==> buses[k].arrives < buses[l].arrives)
  }

  ghost predicate InTime(plan: Plan, opens: nat, buses: seq<Bus>) {
    forall b :: b in buses ==>
      b.to in plan.links && b.to < |plan.distance| && opens <= b.departs < plan.closes
      && b.departs + plan.distance[b.to] <= b.arrives <= b.departs + plan.distance[b.to] + 2
  }

  // The first bus leaves on time, and each of the others a headway and 2 to 6 minutes after the one before,
  // not counting the minutes that one is late.
  ghost predicate Spaced(plan: Plan, opens: nat, buses: seq<Bus>) {
    (buses != [] ==> buses[0].departs == opens)
    && forall k :: 0 <= k < |buses| - 1 ==> Follows(plan, buses[k], buses[k + 1])
  }

  ghost predicate Follows(plan: Plan, b: Bus, next: Bus) {
    b.to < |plan.distance|
    && var due := b.arrives - plan.distance[b.to] + plan.headway;
       due + 2 <= next.departs <= due + 6
  }

  /** Whatever is drawn: departures increase, buses to one station arrive in the order they leave, every bus
      takes its distance and at most two minutes more, and all leave within the day. */
  lemma {:induction false} BusesNeverOvertake(plan: Plan, departs: nat, draws: seq<Draw>, n: nat)
    requires Sensible(plan) && FairDraws(draws, n)
    ensures InOrder(Buses(plan, departs, draws)) && InTime(plan, departs, Buses(plan, departs, draws))
    decreases |draws|
  {
    if draws != [] && departs < plan.closes {
      var d, rest := draws[0], draws[1..];
      assert d in draws;
      if d.to in plan.links {
        BusesNeverOvertake(plan, Next(plan, departs, d), rest, n);
        var later := Buses(plan, Next(plan, departs, d), rest);
        assert forall l :: 0 <= l < |later| ==> later[l] in later;
      } else {
        BusesNeverOvertake(plan, departs, rest, n);
      }
    }
  }

  /** ... and they leave a headway, and 2 to 6 minutes, apart. */
  lemma {:induction false} BusesAreSpaced(plan: Plan, departs: nat, draws: seq<Draw>, n: nat)
    requires Sensible(plan) && FairDraws(draws, n)
    ensures Spaced(plan, departs, Buses(plan, departs, draws))
    decreases |draws|
  {
    if draws != [] && departs < plan.closes {
      var d, rest := draws[0], draws[1..];
      assert d in draws;
      BusesAreSpaced(plan, if d.to in plan.links then Next(plan, departs, d) else departs, rest, n);
    }
  }

  // ----- bus by bus, draw by draw

  // The draws that name a link, in order.
  function LinkDraws(plan: Plan, draws: seq<Draw>): seq<Draw> {
    if draws == [] then []
    else (if draws[0].to in plan.links then [draws[0]] else []) + LinkDraws(plan, draws[1..])
  }

  // A bus goes where its draw says, and takes the distance and the draw's skew.
  ghost predicate IsDrawn(plan: Plan, b: Bus, d: Draw) {
    b.to == d.to && b.to < |plan.distance| && b.arrives - b.departs == plan.distance[b.to] + d.skew
  }

  // The first bus leaves at opens, and each of the others a headway, both parts of the draw before and 2 minutes later.
  ghost predicate FollowDraws(plan: Plan, opens: nat, linked: seq<Draw>, buses: seq<Bus>) {
    |buses| <= |linked|
    && (forall k :: 0 <= k < |buses| ==> IsDrawn(plan, buses[k], linked[k]))
    && (buses != [] ==> buses[0].departs == opens)
    && forall k :: 0 < k < |buses| ==>
      buses[k].departs - buses[k - 1].departs == plan.headway + linked[k - 1].skew + linked[k - 1].extra + 2
  }

  // When the next bus would leave.
  ghost predicate IsDue(plan: Plan, opens: nat, linked: seq<Draw>, buses: seq<Bus>, due: nat)
    requires |buses| <= |linked|
  {
    var n := |buses|;
    if n == 0 then due == opens
    else due - buses[n - 1].departs == plan.headway + linked[n - 1].skew + linked[n - 1].extra + 2
  }

  // All buses are drawn, all leave before closing, and if draws are left the next would not.
  ghost predicate DayIsDrawn(plan: Plan, opens: nat, linked: seq<Draw>, buses: seq<Bus>, due: nat) {
    FollowDraws(plan, opens, linked, buses) && (forall b :: b in buses ==> b.departs < plan.closes)
    && IsDue(plan, opens, linked, buses, due) && (|buses| < |linked| ==> due >= plan.closes)
  }

  lemma NoBusIsDrawn(plan: Plan, opens: nat, linked: seq<Draw>)
    requires linked != [] ==> opens >= plan.closes
    ensures DayIsDrawn(plan, opens, linked, [], opens)
  {
  }

  lemma OneMoreIsDrawn(plan: Plan, opens: nat, d: Draw, linked: seq<Draw>, later: seq<Bus>, due: nat)
    requires d.to < |plan.distance| && opens < plan.closes
    requires DayIsDrawn(plan, Next(plan, opens, d), linked, later, due)
    ensures DayIsDrawn(plan, opens, [d] + linked, [Bus(opens, d.to, Arrives(plan, opens, d))] + later, due)
  {
  }

  /** Bus k is that of the k-th draw that names a link, for as long as a bus would still leave before closing; EndOf is
      when the first one that is not run would have left. */
  lemma {:induction false} BusesAreDrawn(plan: Plan, opens: nat, draws: seq<Draw>)
    requires forall j :: j in plan.links ==> j < |plan.distance|
    ensures DayIsDrawn(plan, opens, LinkDraws(plan, draws), Buses(plan, opens, draws), EndOf(plan, opens, draws))
    decreases |draws|
  {
    hide DayIsDrawn, Next, Arrives;
    if draws == [] || opens >= plan.closes {
      NoBusIsDrawn(plan, opens, LinkDraws(plan, draws));
    } else {
      var d, rest := draws[0], draws[1..];
      if d.to in plan.links {
        var next := Next(plan, opens, d);
        BusesAreDrawn(plan, next, rest);
        OneMoreIsDrawn(plan, opens, d, LinkDraws(plan, rest), Buses(plan, next, rest), EndOf(plan, next, rest));
      } else {
        BusesAreDrawn(plan, opens, rest);
        assert [] + LinkDraws(plan, rest) == LinkDraws(plan, rest);
      }
    }
  }

  /** The same of a station's day in the words of the program: with nn links the first bus leaves nn minutes after
      opening and the headway is 60 / nn. */
  lemma TimetableIsDrawn(links: set<nat>, distance: seq<nat>, opens: nat, closes: nat, draws: seq<Draw>)
    requires links != {} && forall j :: j in links ==> j < |distance|
    ensures var plan := Plan(links, distance, 60 / |links|, closes);
            DayIsDrawn(plan, opens + |links|, LinkDraws(plan, draws),
                       TimetableOf(links, distance, opens, closes, draws),
                       TimetableEnd(links, distance, opens, closes, draws))
  {
    BusesAreDrawn(Plan(links, distance, 60 / |links|, closes), opens + |links|, draws);
  }

  /** A day that runs to its close has a bus. */
  lemma {:induction false} FullDayHasABus(plan: Plan, departs: nat, draws: seq<Draw>)
    requires Sensible(plan) && departs < plan.closes && EndOf(plan, departs, draws) >= plan.closes
    ensures Buses(plan, departs, draws) != []
  {
    if draws != [] && draws[0].to !in plan.links {
      FullDayHasABus(plan, departs, draws[1..]);
    }
  }

  // ----- names

  const MIN_NODES := 2
  const MAX_NODES := 676

  function NodeType(i: nat, type0: nat): string {
    ["Station", "Terminal", "Junction", "Busport"][(i + type0) % 4]
  }

  function Letter(k: nat): char
    requires k < 26
  {
    'A' + k as char
  }

  function NodeName(n: nat, i: nat): string {
    if n < 26 then [Letter(i % 26)] else [Letter(i % 26), Letter(i / 26 % 26)]
  }

  function Label(n: nat, type0: nat, i: nat): string {
    NodeType(i, type0) + NodeName(n, i)
  }

  /** Different stations have different names. */
  lemma LabelsDiffer(n: nat, type0: nat, i: nat, j: nat)
    requires i < n <= MAX_NODES && j < n && Label(n, type0, i) == Label(n, type0, j)
    ensures i == j
  {
    var a, b := Label(n, type0, i), Label(n, type0, j);
    var w := |NodeName(n, i)|;
    assert a[|a| - w..] == NodeName(n, i) && b[|b| - w..] == NodeName(n, j);
    assert NodeName(n, i)[0] == NodeName(n, j)[0];
    if n >= 26 {
      assert NodeName(n, i)[1] == NodeName(n, j)[1];
      assert i / 26 < 26 && j / 26 < 26;
    }
  }

  /** A name is a number: of fewer than 26 stations its one letter, otherwise its two, the lower first. */
  lemma NameIsNumber(n: nat, i: nat)
    requires i < n <= MAX_NODES
    ensures var name := NodeName(n, i);
            (forall k :: 0 <= k < |name| ==> 'A' <= name[k] <= 'Z')
            && if n < 26 then |name| == 1 && name[0] as int - 'A' as int == i
               else |name| == 2 && (name[0] as int - 'A' as int) + 26 * (name[1] as int - 'A' as int) == i
  {
  }

  /** ... and a label is one of four kinds, in turn, and that name. */
  lemma LabelsTakeTurns(n: nat, type0: nat, i: nat)
    ensures Label(n, type0, i) == NodeType(i, type0) + NodeName(n, i) && NodeType(i + 4, type0) == NodeType(i, type0)
    ensures NodeType(0, 0) == "Station" && NodeType(1, 0) == "Terminal"
    ensures NodeType(2, 0) == "Junction" && NodeType(3, 0) == "Busport" && NodeType(i, type0) == NodeType(i + type0, 0)
  {
    assert (i + 4 + type0) % 4 == (i + type0) % 4;
  }

  function RowOf(n: nat, type0: nat, i: nat, b: Bus): Row {
    Row(ClockOf(b.departs), "bus" + NodeName(n, i) + "_" + NodeName(n, b.to), "stop" + NodeName(n, i),
        ClockOf(b.arrives), Label(n, type0, b.to))
  }

  function RowsOf(n: nat, type0: nat, i: nat, buses: seq<Bus>): (rows: seq<Row>)
    ensures |rows| == |buses| && forall k :: 0 <= k < |buses| ==> rows[k] == RowOf(n, type0, i, buses[k])
  {
    seq(|buses|, k requires 0 <= k < |buses| => RowOf(n, type0, i, buses[k]))
  }

  lemma RowTimes(n: nat, type0: nat, i: nat, b: Bus)
    ensures var r := RowOf(n, type0, i, b);
            IsClock(r.departs) && Minutes(r.departs) == b.departs
            && IsClock(r.arrives) && Minutes(r.arrives) == b.arrives
  {
    ClockRoundTrip(b.departs);
    ClockRoundTrip(b.arrives);
  }

  lemma RowInTime(n: nat, type0: nat, i: nat, plan: Plan, opens: nat, buses: seq<Bus>, k: nat)
    requires |plan.distance| == n && Sensible(plan) && plan.closes <= 22 * 60
    requires InTime(plan, opens, buses) && k < |buses|
    ensures var r := RowsOf(n, type0, i, buses)[k];
            IsClock(r.departs) && Minutes(r.departs) == buses[k].departs
            && IsClock(r.arrives) && Minutes(r.arrives) == buses[k].arrives
            && r.arrivalStation == Label(n, type0, buses[k].to)
    ensures buses[k].to < n && buses[k].departs <= buses[k].arrives < 24 * 60
  {
    RowTimes(n, type0, i, buses[k]);
    assert buses[k] in buses;
  }

  lemma RowsInOrder(n: nat, type0: nat, i: nat, plan: Plan, opens: nat, buses: seq<Bus>)
    requires n <= MAX_NODES && |plan.distance| == n && Sensible(plan) && plan.closes <= 22 * 60
    requires InTime(plan, opens, buses) && InOrder(buses)
    ensures DeparturesIncrease(RowsOf(n, type0, i, buses)) && ArrivalsInOrder(RowsOf(n, type0, i, buses))
  {
    var rows := RowsOf(n, type0, i, buses);
    forall k, l | 0 <= k < l < |rows|
      ensures Minutes(rows[k].departs) < Minutes(rows[l].departs)
      ensures rows[k].arrivalStation == rows[l].arrivalStation ==> Minutes(rows[k].arrives) <= Minutes(rows[l].arrives)
    {
      RowInTime(n, type0, i, plan, opens, buses, k);
      RowInTime(n, type0, i, plan, opens, buses, l);
      if rows[k].arrivalStation == rows[l].arrivalStation {
        LabelsDiffer(n, type0, buses[k].to, buses[l].to);
      }
    }
  }

  /** A generated table is one the journey protocol can trust: readable, within the day, in departure order,
      and never overtaking, which is the hypothesis its optimality needs. */
  lemma GeneratedTableIsRegular(n: nat, type0: nat, i: nat, plan: Plan, opens: nat, draws: seq<Draw>)
    requires n <= MAX_NODES && |plan.distance| == n && Sensible(plan) && FairDraws(draws, n) && plan.closes <= 22 * 60
    ensures var rows := RowsOf(n, type0, i, Buses(plan, opens, draws));
            RowsAreClocks(rows) && OneDay(rows) && DeparturesIncrease(rows) && ArrivalsInOrder(rows)
    ensures forall r :: r in RowsOf(n, type0, i, Buses(plan, opens, draws)) ==> Minutes(r.arrives) < 24 * 60
  {
    var buses := Buses(plan, opens, draws);
    BusesNeverOvertake(plan, opens, draws, n);
    RowsInOrder(n, type0, i, plan, opens, buses);
    forall k | 0 <= k < |buses|
      ensures var r := RowsOf(n, type0, i, buses)[k];
              IsClock(r.departs) && IsClock(r.arrives) && Minutes(r.departs) <= Minutes(r.arrives) < 24 * 60
    {
      RowInTime(n, type0, i, plan, opens, buses, k);
    }
  }

  // ----- what is printed survives the wire, and is short

  // Letters and the underscore.
  predicate IsPlain(s: string) {
    forall i :: 0 <= i < |s| ==> 'A' <= s[i] <= 'z'
  }

  lemma NamesArePlain(n: nat, type0: nat, i: nat)
    ensures IsPlain(NodeName(n, i)) && 1 <= |NodeName(n, i)| <= 2
    ensures IsPlain(NodeType(i, type0)) && 7 <= |NodeType(i, type0)| <= 8
  {
    assert IsPlain("Station") && IsPlain("Terminal") && IsPlain("Junction") && IsPlain("Busport");
  }

  ghost predicate ShortRow(r: Row) {
    IsToken(r.route) && |r.route| <= 8
    && IsToken(r.departs) && |r.departs| == 5 && IsToken(r.arrives) && |r.arrives| == 5
  }

  lemma LabelIsShort(n: nat, type0: nat, i: nat)
    ensures IsToken(Label(n, type0, i)) && |Label(n, type0, i)| <= 10
  {
    NamesArePlain(n, type0, i);
    assert IsPlain(Label(n, type0, i));
  }

  lemma RowIsShort(n: nat, type0: nat, i: nat, b: Bus)
    requires b.departs <= b.arrives < 24 * 60
    ensures ShortRow(RowOf(n, type0, i, b))
  {
    NamesArePlain(n, type0, i);
    NamesArePlain(n, type0, b.to);
    assert IsPlain("bus" + NodeName(n, i) + "_" + NodeName(n, b.to));
    ClockRoundTrip(b.departs);
    ClockRoundTrip(b.arrives);
    ClockIsToken(b.departs);
    ClockIsToken(b.arrives);
  }

  /** Generated routes and times are tokens, of at most eight and of five characters. */
  lemma GeneratedRowsAreShort(n: nat, type0: nat, i: nat, plan: Plan, opens: nat, draws: seq<Draw>)
    requires n <= MAX_NODES && |plan.distance| == n && Sensible(plan) && FairDraws(draws, n) && plan.closes <= 22 * 60
    ensures forall r :: r in RowsOf(n, type0, i, Buses(plan, opens, draws)) ==> ShortRow(r)
  {
    var buses := Buses(plan, opens, draws);
    BusesNeverOvertake(plan, opens, draws, n);
    forall k | 0 <= k < |buses| ensures ShortRow(RowsOf(n, type0, i, buses)[k]) {
      RowInTime(n, type0, i, plan, opens, buses, k);
      RowIsShort(n, type0, i, buses[k]);
    }
  }

  /** What a row of the file says of a bus: the route names this station and then the other, the stop this one, the
      last column is the other's label, and the two times are when it leaves and arrives. */
  lemma RowSays(n: nat, type0: nat, i: nat, b: Bus)
    ensures var r, here, there := RowOf(n, type0, i, b), NodeName(n, i), NodeName(n, b.to);
            |r.route| == 4 + |here| + |there| && r.route[..3] == "bus" && r.route[3..3 + |here|] == here
            && r.route[3 + |here|] == '_' && r.route[4 + |here|..] == there
            && |r.departingFrom| == 4 + |here| && r.departingFrom[..4] == "stop" && r.departingFrom[4..] == here
            && r.arrivalStation == Label(n, type0, b.to)
            && Minutes(r.departs) == b.departs && Minutes(r.arrives) == b.arrives
  {
    RowTimes(n, type0, i, b);
  }
}
