/** Three stations, each linked to the other two, with a slow bus from the first to the last: concrete runs in which
    a browser is told a late arrival, and in which a station goes down. */
module Triangle {
  import opened Text
  import opened Timetable
  import opened Protocol
  import opened Journey
  import opened Runs
  import opened Enumeration
  import opened Itinerary
  import opened Capacity
  import Overflow
  import opened Earliest
  import opened Replies
  import opened AskAgain
  import opened Codec

  ghost predicate GoodRow(r: Row) {
    IsClock(r.departs) && IsClock(r.arrives) && Minutes(r.departs) <= Minutes(r.arrives) < NEVER
    && IsToken(r.departs) && IsToken(r.route) && IsToken(r.arrives)
  }

  // When one asks, and the buses: a slow one straight to the last station, a quick one to the second, one onward
  // from there, and at each station a last one at night, which the C search never finds.
  datatype Buses = Buses(ask: string, slow: Row, quick: Row, onward: Row, toA: Row, toB: Row)

  ghost predicate Sound(t: Buses) {
    IsClock(t.ask) && IsToken(t.ask)
    && GoodRow(t.slow) && GoodRow(t.quick) && GoodRow(t.onward) && GoodRow(t.toA) && GoodRow(t.toB)
    && t.slow.arrivalStation == "C" && t.quick.arrivalStation == "B" && t.onward.arrivalStation == "C"
    && t.toA.arrivalStation == "A" && t.toB.arrivalStation == "B"
    && Minutes(t.quick.arrives) <= Minutes(t.toB.arrives)
  }

  // One can be there sooner by changing.
  ghost predicate SoonerByChanging(t: Buses) {
    Minutes(t.ask) <= Minutes(t.slow.departs) && Minutes(t.ask) <= Minutes(t.quick.departs)
    && Minutes(t.quick.arrives) <= Minutes(t.onward.departs) && Minutes(t.onward.arrives) < Minutes(t.slow.arrives)
  }

  function TableOf(t: Buses, name: Name): seq<Row> {
    if name == "A" then [t.slow, t.quick, t.toB]
    else if name == "B" then [t.onward, t.toA]
    else [t.toA]
  }

  // Stations A, B and C at three addresses, all running the same program.
  ghost predicate IsTriangle(t: Buses, net: Network, language: Language, a: Address, b: Address, c: Address) {
    Sound(t) && SoonerByChanging(t) && a != b && b != c && a != c && net.Keys == {a, b, c}
    && IsStation(t, net, language, a, "A", b, c)
    && IsStation(t, net, language, b, "B", a, c)
    && IsStation(t, net, language, c, "C", a, b)
  }

  ghost predicate IsStation(t: Buses, net: Network, language: Language, a: Address, name: Name,
                            b: Address, c: Address)
  {
    a in net && net[a] == Station(name, a, language, TableOf(t, name), [b, c]) && IsHostPort(a) && IsToken(a)
  }

  function Question(t: Buses, a: Address): Key {
    Key(a, "C", t.ask)
  }

  // ----- the network is one the theorems are about

  lemma TableIsGood(t: Buses, name: Name)
    requires Sound(t)
    ensures forall r :: r in TableOf(t, name) ==> GoodRow(r)
    ensures TableOf(t, name) != [] && ArrivalsInOrder(TableOf(t, name))
  {
  }

  lemma StationIsFit(t: Buses, net: Network, language: Language, a: Address, name: Name, b: Address, c: Address)
    requires Sound(t) && IsStation(t, net, language, a, name, b, c) && IsToken(name)
    requires a != b && b != c && a != c && b in net && c in net
    ensures Fit(net, a)
  {
    TableIsGood(t, name);
    var rows := net[a].timetable;
    forall r | r in rows ensures GoodRow(r) && ReadableIn(net, r.arrives) {
      forall other ensures CanRead(net, other, r.arrives) {
        assert GoodRow(r);
      }
    }
    assert forall r :: r in Visible(net[a]) ==> r in rows;
  }

  lemma TriangleIsRegular(t: Buses, net: Network, language: Language, a: Address, b: Address, c: Address)
    requires IsTriangle(t, net, language, a, b, c)
    ensures WellFormed(net) && Regular(net)
  {
    StationIsFit(t, net, language, a, "A", b, c);
    StationIsFit(t, net, language, b, "B", a, c);
    StationIsFit(t, net, language, c, "C", a, b);
    FitIsRegular(net);
  }

  lemma QuestionIsValid(t: Buses, net: Network, language: Language, a: Address, b: Address, c: Address)
    requires IsTriangle(t, net, language, a, b, c)
    ensures ValidKey(net, Question(t, a))
  {
  }

  // ----- the two paths

  lemma FindsFirst(rows: seq<Row>, r: Row, more: seq<Row>, destination: Name, earliest: string)
    requires rows == [r] + more && Matches(r, destination, earliest)
    ensures Search(rows, destination, earliest) == Some(r)
  {
  }

  lemma FindsSecond(rows: seq<Row>, other: Row, r: Row, more: seq<Row>, destination: Name, earliest: string)
    requires rows == [other] + ([r] + more) && other.arrivalStation != destination && Matches(r, destination, earliest)
    ensures Search(rows, destination, earliest) == Some(r)
  {
    assert rows[1..] == [r] + more;
  }

  lemma WhatIsSeen(t: Buses, net: Network, language: Language, a: Address, b: Address, c: Address)
    requires IsTriangle(t, net, language, a, b, c)
    ensures exists more :: Visible(net[a]) == [t.slow] + ([t.quick] + more)
    ensures exists more :: Visible(net[b]) == [t.onward] + more
  {
    var night := if language == C then [] else [t.toB];
    assert Visible(net[a]) == [t.slow] + ([t.quick] + night);
    var onward := if language == C then [] else [t.toA];
    assert Visible(net[b]) == [t.onward] + onward;
  }

  lemma DirectPath(t: Buses, net: Network, language: Language, a: Address, b: Address, c: Address)
    requires IsTriangle(t, net, language, a, b, c)
    ensures Route(net, Question(t, a), [a, c])
    ensures LastTime(AnswerPayload(net, Question(t, a), [a, c])) == Minutes(t.slow.arrives)
  {
    WhatIsSeen(t, net, language, a, b, c);
    var key, q := Question(t, a), [a, c];
    var more :| Visible(net[a]) == [t.slow] + ([t.quick] + more);
    FindsFirst(Visible(net[a]), t.slow, [t.quick] + more, "C", key.startingTime);
    FindsFirst(Visible(net[a]), t.slow, [t.quick] + more, "C", t.slow.departs);
    assert Edge(net, q, 0);
    assert TimeAt(net, key, q, 0) == t.slow.departs;
    assert TimeAt(net, key, q, 1) == t.slow.arrives;
  }

  lemma RoundaboutPath(t: Buses, net: Network, language: Language, a: Address, b: Address, c: Address)
    requires IsTriangle(t, net, language, a, b, c)
    ensures Route(net, Question(t, a), [a, b, c])
    ensures LastTime(AnswerPayload(net, Question(t, a), [a, b, c])) == Minutes(t.onward.arrives)
  {
    WhatIsSeen(t, net, language, a, b, c);
    var key, q := Question(t, a), [a, b, c];
    var more :| Visible(net[a]) == [t.slow] + ([t.quick] + more);
    var rest :| Visible(net[b]) == [t.onward] + rest;
    FindsSecond(Visible(net[a]), t.slow, t.quick, more, "B", key.startingTime);
    FindsSecond(Visible(net[a]), t.slow, t.quick, more, "B", t.quick.departs);
    FindsFirst(Visible(net[b]), t.onward, rest, "C", t.quick.arrives);
    assert Edge(net, q, 0) && Edge(net, q, 1);
    assert TimeAt(net, key, q, 0) == t.quick.departs;
    assert TimeAt(net, key, q, 1) == t.quick.arrives;
    assert TimeAt(net, key, q, 2) == t.onward.arrives;
  }

  // ----- what can happen

  /** Whichever program the stations run, the first may tell its browser to take the slow bus, though one can be
      there sooner by changing. */
  lemma ToldTooLate(t: Buses, net: Network, language: Language, a: Address, b: Address, c: Address) returns (s: State)
    requires IsTriangle(t, net, language, a, b, c)
    ensures Settled(net, s, Question(t, a)) && s.asked == {Question(t, a)} && s.down == {}
    ensures FirstHome(s.answers, Question(t, a)).Some?
    ensures LastTime(FirstHome(s.answers, Question(t, a)).value) == Minutes(t.slow.arrives)
    ensures !EarliestAnswer(net, Question(t, a), FirstHome(s.answers, Question(t, a)).value)
  {
    var key := Question(t, a);
    TriangleIsRegular(t, net, language, a, b, c);
    QuestionIsValid(t, net, language, a, b, c);
    DirectPath(t, net, language, a, b, c);
    RoundaboutPath(t, net, language, a, b, c);
    s := AnyRouteMayComeFirst(net, key, [a, c]);
    var late, early := AnswerPayload(net, key, [a, c]), AnswerPayload(net, key, [a, b, c]);
    if EarliestAnswer(net, key, late) {
      EarliestIsFastest(net, key, late, early);
    }
  }

  // The paths of a triangle, and what leads along them.
  lemma TwoPaths(t: Buses, net: Network, language: Language, a: Address, b: Address, c: Address, q: seq<Address>)
    requires IsTriangle(t, net, language, a, b, c) && Route(net, Question(t, a), q)
    ensures q == [a, c] || q == [a, b, c]
  {
    assert q[0] == a && q[|q| - 1] == c;
    assert Edge(net, q, 0);
    if |q| > 2 {
      assert Edge(net, q, 1);
      assert q[2] in [a, c];
    }
  }

  lemma EveryPacketLeads(t: Buses, net: Network, language: Language, a: Address, b: Address, c: Address, pkt: Packet)
    requires IsTriangle(t, net, language, a, b, c) && Legitimate(net, Question(t, a), pkt)
    ensures Leads(pkt, Question(t, a), [a, c]) || Leads(pkt, Question(t, a), [a, b, c])
  {
    LegitimateKey(net, Question(t, a), pkt);
    var p := pkt.payload.addresses + [pkt.to];
    if Flooding(net, Question(t, a), pkt) {
      assert p[0] == a && p[|p| - 1] == pkt.to;
      if |p| > 1 {
        assert Edge(net, p, 0);
        assert p[1] == b || p[1] == c;
        if |p| > 2 {
          assert Edge(net, p, 1);
          assert net[p[1]].name != "C";
          assert p[1] == b && p[2] == c;
        }
      }
      FirstSteps(p, a, b, c);
    } else {
      TwoPaths(t, net, language, a, b, c, pkt.payload.addresses);
    }
  }

  lemma FirstSteps(p: seq<Address>, a: Address, b: Address, c: Address)
    requires p == [a] || p == [a, b] || p == [a, c] || p == [a, b, c]
    ensures p <= [a, c] || p <= [a, b, c]
  {
  }

  lemma BothHomeIsQuiet(t: Buses, net: Network, language: Language, a: Address, b: Address, c: Address, s: State)
    requires IsTriangle(t, net, language, a, b, c) && Reachable(net, s) && s.down == {}
    requires s.injected == multiset{Question(t, a)}
    requires s.answers == [AnswerPayload(net, Question(t, a), [a, b, c]), AnswerPayload(net, Question(t, a), [a, c])]
    requires Route(net, Question(t, a), [a, c]) && Route(net, Question(t, a), [a, b, c])
    ensures Settled(net, s, Question(t, a))
  {
    var key := Question(t, a);
    TriangleIsRegular(t, net, language, a, b, c);
    QuestionIsValid(t, net, language, a, b, c);
    EveryRunKeepsInv(net, s);
    EachCameOnce(net, key, [a, b, c], [a, c]);
    assert Up(s, [a, c]) && Up(s, [a, b, c]);
    EveryRunConserves(net, s, key, [a, c]);
    EveryRunConserves(net, s, key, [a, b, c]);
    forall pkt | pkt in s.inflight ensures KeyOf(pkt) != key {
      if KeyOf(pkt) == key {
        EveryPacketLeads(t, net, language, a, b, c, pkt);
        if Leads(pkt, key, [a, c]) {
          LeadsSoOnItsWay(s.inflight, pkt, key, [a, c]);
        } else {
          LeadsSoOnItsWay(s.inflight, pkt, key, [a, b, c]);
        }
      }
    }
    assert forall q :: Up(s, q);
  }

  lemma EachCameOnce(net: Network, key: Key, q: seq<Address>, other: seq<Address>)
    requires key.src in net && Route(net, key, q) && Route(net, key, other) && q != other
    ensures var answers := [AnswerPayload(net, key, q), AnswerPayload(net, key, other)];
            CameHome(answers, key, q) == 1 && CameHome(answers, key, other) == 1
  {
    var p, p' := AnswerPayload(net, key, q), AnswerPayload(net, key, other);
    assert [p, p'] == [p] + [p'];
    CameHomeAppend([p], [p'], key, q);
    CameHomeAppend([p], [p'], key, other);
    OnlyOneCame(p, key, q);
    OnlyOneCame(p, key, other);
    OnlyOneCame(p', key, q);
    OnlyOneCame(p', key, other);
  }

  /** When both answers have come home, the slow one last, and nothing is left to happen, the first station has the
      earliest arrival stored, and a browser that asks again is sent the slow bus. */
  lemma SentTooLate(t: Buses, net: Network, a: Address, b: Address, c: Address) returns (s: State)
    requires IsTriangle(t, net, Python, a, b, c)
    ensures var key := Question(t, a);
            Settled(net, s, key) && s.asked == {key} && s.down == {} && HasAnswer(s, key)
            && EarliestAnswer(net, key, StoredAnswer(s, key).value)
            && LastTime(StoredAnswer(s, key).value) == Minutes(t.onward.arrives)
            && SentAgain(s, key) == Serialize(AnswerPayload(net, key, [a, c]))
            && SentAgain(s, key) != Serialize(StoredAnswer(s, key).value)
            && LastTime(AnswerPayload(net, key, [a, c])) == Minutes(t.slow.arrives)
  {
    var key := Question(t, a);
    TriangleIsRegular(t, net, Python, a, b, c);
    QuestionIsValid(t, net, Python, a, b, c);
    DirectPath(t, net, Python, a, b, c);
    RoundaboutPath(t, net, Python, a, b, c);
    s := SlowerMayBeSent(net, key, [a, b, c], [a, c]);
    BothHomeIsQuiet(t, net, Python, a, b, c, s);
    EarliestArrival(net, s, key);
  }

  /** In the same run a C station, in the end, has the query and both answers have come home, but it has stored none. */
  lemma NothingKept(t: Buses, net: Network, a: Address, b: Address, c: Address) returns (s: State)
    requires IsTriangle(t, net, C, a, b, c)
    ensures Settled(net, s, Question(t, a)) && Registered(s, Question(t, a))
    ensures CameHome(s.answers, Question(t, a), [a, c]) == CameHome(s.answers, Question(t, a), [a, b, c]) == 1
    ensures StoredAnswer(s, Question(t, a)) == None
  {
    var key := Question(t, a);
    TriangleIsRegular(t, net, C, a, b, c);
    QuestionIsValid(t, net, C, a, b, c);
    DirectPath(t, net, C, a, b, c);
    RoundaboutPath(t, net, C, a, b, c);
    s := AnyRouteMayComeFirst(net, key, [a, c]);
    OneQueryIsFew(s, key);
    FewAreSettled(net, s, key);
    assert Up(s, [a, c]) && Up(s, [a, b, c]);
    ExactEnumeration(net, s, key, [a, c]);
    ExactEnumeration(net, s, key, [a, b, c]);
    CStationsStoreNothing(net, s, key);
  }

  /** ... and 101 different queries may leave it down. */
  lemma BroughtDown(t: Buses, net: Network, language: Language, a: Address, b: Address, c: Address) returns (s: State)
    requires IsTriangle(t, net, language, a, b, c)
    ensures Reachable(net, s) && s.inflight == [] && s.down == {a} && |s.asked| == MAX_QUERIES + 1
  {
    TriangleIsRegular(t, net, language, a, b, c);
    QuestionIsValid(t, net, language, a, b, c);
    DirectPath(t, net, language, a, b, c);
    s := Overflow.OneQueryTooMany(net, Question(t, a), [a, c]);
  }

  function NetOf(t: Buses, language: Language, a: Address, b: Address, c: Address): Network {
    map[a := Station("A", a, language, TableOf(t, "A"), [b, c]),
        b := Station("B", b, language, TableOf(t, "B"), [a, c]),
        c := Station("C", c, language, TableOf(t, "C"), [a, b])]
  }

  lemma NetIsTriangle(t: Buses, language: Language, a: Address, b: Address, c: Address)
    requires Sound(t) && SoonerByChanging(t) && a != b && b != c && a != c
    requires IsHostPort(a) && IsToken(a) && IsHostPort(b) && IsToken(b) && IsHostPort(c) && IsToken(c)
    ensures IsTriangle(t, NetOf(t, language, a, b, c), language, a, b, c)
  {
  }

  function Bus(departs: nat, arrives: nat, to: Name): Row {
    Row(ClockOf(departs), "bus", "stop", ClockOf(arrives), to)
  }

  lemma BusReads(departs: nat, arrives: nat, to: Name)
    requires departs <= arrives < NEVER
    ensures GoodRow(Bus(departs, arrives, to))
    ensures Minutes(Bus(departs, arrives, to).departs) == departs
    ensures Minutes(Bus(departs, arrives, to).arrives) == arrives
  {
    ClockRoundTrip(departs);
    ClockRoundTrip(arrives);
    ClockIsToken(departs);
    ClockIsToken(arrives);
  }

  lemma SomeBuses() returns (t: Buses)
    ensures Sound(t) && SoonerByChanging(t)
    ensures Minutes(t.ask) == 420 && Minutes(t.onward.arrives) == 660 && Minutes(t.slow.arrives) == 1200
  {
    ClockRoundTrip(420);
    ClockIsToken(420);
    BusReads(480, 1200, "C");
    BusReads(490, 540, "B");
    BusReads(600, 660, "C");
    BusReads(1300, 1310, "A");
    BusReads(1300, 1310, "B");
    t := Buses(ClockOf(420), Bus(480, 1200, "C"), Bus(490, 540, "B"), Bus(600, 660, "C"),
               Bus(1300, 1310, "A"), Bus(1300, 1310, "B"));
  }

  /** There are such networks: asked at 07:00 for a station one can reach by 11:00, this one may answer 20:00. */
  lemma TriangleExists(language: Language) returns (t: Buses, net: Network)
    ensures Minutes(t.ask) == 420 && Minutes(t.onward.arrives) == 660 && Minutes(t.slow.arrives) == 1200
    ensures IsTriangle(t, net, language, ['a', ':', '1'], ['b', ':', '1'], ['c', ':', '1'])
  {
    HostPort('a');
    HostPort('b');
    HostPort('c');
    t := SomeBuses();
    NetIsTriangle(t, language, ['a', ':', '1'], ['b', ':', '1'], ['c', ':', '1']);
    net := NetOf(t, language, ['a', ':', '1'], ['b', ':', '1'], ['c', ':', '1']);
  }

  lemma HostPort(host: char)
    requires 'a' <= host <= 'c'
    ensures IsHostPort([host, ':', '1']) && IsToken([host, ':', '1'])
  {
    var s := [host, ':', '1'];
    assert s[1..][0] == ':' && UpTo(s[1..], ':') == 0;
    assert s[2..] == ['1'] && ['1'][..0] == [];
    assert Value(['1']) == 1;
  }
}
