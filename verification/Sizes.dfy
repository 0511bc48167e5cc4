/** How long the lines of a run can get: craft_payload's buffer, and the 1024 bytes a datagram is received into. */
module Sizes {
  import opened Text
  import opened Timetable
  import opened Protocol
  import opened Journey
  import opened Runs
  import opened Termination
  import opened Codec
  import opened RoundTrip
  import opened PayloadC
  import opened Generator
  import opened GeneratedNetwork

  // The longest name, address and route of a network; its times have five characters at most.
  datatype Limits = Limits(name: nat, address: nat, route: nat)

  ghost predicate IsShort(net: Network, a: Address, lim: Limits)
    requires a in net
  {
    |net[a].name| <= lim.name && |a| <= lim.address
    && forall r :: r in net[a].timetable ==> |r.route| <= lim.route && |r.departs| <= 5 && |r.arrives| <= 5
  }

  // "NOTFOUND" is a route too.
  ghost predicate AllShort(net: Network, lim: Limits) {
    lim.route >= |NOT_FOUND| && forall a {:trigger IsShort(net, a, lim)} :: a in net ==> IsShort(net, a, lim)
  }

  ghost predicate ShortQuestion(destination: Name, startTime: string, lim: Limits) {
    |destination| <= lim.name && |startTime| <= 5
  }

  ghost predicate ShortPayload(p: Payload, lim: Limits) {
    Shaped(p) && AtMost(p.stations, lim.name) && AtMost(p.addresses, lim.address) && AtMost(p.routes, lim.route)
    && AtMost(p.times, 5) && |p.source| <= lim.name && ShortQuestion(p.destination, p.startingTime, lim)
    && p.found <= 4 && p.current <= p.hops
  }

  // ----- what a run writes is short

  lemma SearchedShort(net: Network, a: Address, destination: string, earliest: string, lim: Limits)
    requires AllShort(net, lim) && a in net && Search(Visible(net[a]), destination, earliest).Some?
    ensures var r := Search(Visible(net[a]), destination, earliest).value;
            |r.route| <= lim.route && |r.departs| <= 5 && |r.arrives| <= 5
  {
    SearchedRow(Visible(net[a]), destination, earliest);
    assert IsShort(net, a, lim);
    assert Search(Visible(net[a]), destination, earliest).value in net[a].timetable;
  }

  lemma WrittenShort(net: Network, key: Key, q: seq<Address>, i: nat, lim: Limits)
    requires AllShort(net, lim) && |q| >= 2 && i < |q| && Within(net, q)
    ensures |TimeAt(net, key, q, i)| <= 5 && (i >= 1 ==> |RouteAt(net, key, q, i)| <= lim.route)
  {
    if i == 0 {
      if Search(Visible(net[q[0]]), net[q[1]].name, key.startingTime).Some? {
        SearchedShort(net, q[0], net[q[1]].name, key.startingTime, lim);
      }
    } else if Found(net, key, q, i).Some? {
      SearchedShort(net, q[i - 1], net[q[i]].name, TimeAt(net, key, q, i - 1), lim);
    }
  }

  lemma HeldShort(net: Network, q: seq<Address>, i: nat, lim: Limits)
    requires AllShort(net, lim) && i < |q| && Within(net, q)
    ensures |HeldTime(net, q, i)| <= 5 && |HeldRoute(net, q, i)| <= lim.route
  {
    assert IsShort(net, q[i], lim);
  }

  lemma PathShort(net: Network, p: seq<Address>, lim: Limits)
    requires AllShort(net, lim) && Within(net, p)
    ensures AtMost(p, lim.address) && AtMost(Names(net, p), lim.name)
  {
    forall i | 0 <= i < |p| ensures |p[i]| <= lim.address && |Names(net, p)[i]| <= lim.name {
      assert IsShort(net, p[i], lim);
    }
  }

  lemma JourneyShort(net: Network, key: Key, q: seq<Address>, found: nat, k: nat, filled: nat, lim: Limits)
    requires AllShort(net, lim) && key.src in net && |q| >= 2 && Within(net, q) && found <= 4 && k < |q|
    requires ShortQuestion(key.destination, key.startingTime, lim)
    ensures ShortPayload(JourneyPayload(net, key, q, found, k, filled), lim)
  {
    assert IsShort(net, key.src, lim);
    PathShort(net, q, lim);
    forall i | 0 <= i < |q|
      ensures |TimesWritten(net, key, q, filled)[i]| <= 5 && |RoutesWritten(net, key, q, filled)[i]| <= lim.route
    {
      WrittenShort(net, key, q, i, lim);
      HeldShort(net, q, i, lim);
    }
  }

  lemma PacketIsShort(net: Network, key: Key, pkt: Packet, lim: Limits)
    requires AllShort(net, lim) && Legitimate(net, key, pkt) && ShortQuestion(key.destination, key.startingTime, lim)
    ensures ShortPayload(pkt.payload, lim) && pkt.payload.hops <= |net|
  {
    var q := pkt.payload.addresses;
    if Flooding(net, key, pkt) {
      var p := q + [pkt.to];
      assert IsShort(net, key.src, lim);
      PathShort(net, q, lim);
      PathFits(net, p);
    } else {
      var k := pkt.payload.current - 1;
      JourneyShort(net, key, q, pkt.payload.found, k, Filled(pkt.payload.found, k, |q|), lim);
      PathFits(net, q);
    }
  }

  // ----- craft_payload

  // What readtimetable, readneighbours and the arguments of a C station leave room for.
  const C_LIMITS := Limits(60, 23, 60)

  /** craft_payload never overruns its buffer in a run: neither for a packet in flight, apart from the first, which it
      does not write, nor for an answer. */
  lemma EveryPacketFitsItsBuffer(net: Network, s: State, p: Payload)
    requires WellFormed(net) && AllShort(net, C_LIMITS) && Reachable(net, s)
    requires p in s.answers || (p.hops >= 1 && exists pkt :: pkt in s.inflight && pkt.payload == p)
    requires ShortQuestion(p.destination, p.startingTime, C_LIMITS)
    ensures |Craft(p)| + 1 <= CraftBuffer(p.hops)
  {
    EveryRunKeepsInv(net, s);
    if p in s.answers {
      JourneyShort(net, AnswerKey(p), p.addresses, 4, 0, |p.addresses|, C_LIMITS);
    } else {
      var pkt :| pkt in s.inflight && pkt.payload == p;
      PacketIsShort(net, KeyOf(pkt), pkt, C_LIMITS);
    }
    CraftFits(p);
  }

  // ----- the datagram

  const MAXDATASIZE := 1024

  // A hop takes this much of a line, each of its four tokens with a blank.
  function HopSize(lim: Limits): nat {
    lim.name + lim.address + lim.route + 9
  }

  function LineSize(lim: Limits, hops: nat): nat {
    hops * HopSize(lim) + 2 * lim.name + 2 * |Decimal(hops)| + 16
  }

  lemma ListsFit(p: Payload, lim: Limits)
    requires ShortPayload(p, lim)
    ensures |Each(p.stations)| + |Each(p.addresses)| + |Each(p.routes)| + |Each(p.times)| <= p.hops * HopSize(lim)
  {
    EachFits(p.stations, lim.name);
    EachFits(p.addresses, lim.address);
    EachFits(p.routes, lim.route);
    EachFits(p.times, 5);
    FourLists(p.hops, lim.name + 1, lim.address + 1, lim.route + 1, 6);
  }

  lemma FourLists(h: nat, a: nat, b: nat, c: nat, d: nat)
    ensures h * a + h * b + h * c + h * d == h * (a + b + c + d)
  {
  }

  lemma SerializeIsNotMuchLonger(p: Payload)
    requires Shaped(p)
    ensures |Serialize(p)| <= |Craft(p)| + 4
  {
    if p.hops >= 1 {
      EncodersAgree(p);
    } else {
      EmptyForm(p);
      CraftForm(p);
    }
  }

  lemma LinesAreShort(p: Payload, lim: Limits)
    requires ShortPayload(p, lim)
    ensures |Craft(p)| <= LineSize(lim, p.hops) && |Serialize(p)| <= LineSize(lim, p.hops)
  {
    CraftLength(p);
    ListsFit(p, lim);
    DecimalLengthMonotone(p.current, p.hops);
    assert |Decimal(p.found)| == 1;
    SerializeIsNotMuchLonger(p);
  }

  lemma MoreHops(h: nat, n: nat, size: nat)
    requires h <= n
    ensures h * size <= n * size
  {
  }

  /** Every line of a run, whichever program writes it, is no longer than a path through all stations can make it. */
  lemma EveryLineIsBounded(net: Network, s: State, pkt: Packet, lim: Limits)
    requires WellFormed(net) && AllShort(net, lim) && Reachable(net, s) && pkt in s.inflight
    requires ShortQuestion(pkt.payload.destination, pkt.payload.startingTime, lim)
    ensures |Craft(pkt.payload)| <= LineSize(lim, |net|) && |Serialize(pkt.payload)| <= LineSize(lim, |net|)
  {
    EveryRunKeepsInv(net, s);
    PacketIsShort(net, KeyOf(pkt), pkt, lim);
    LinesAreShort(pkt.payload, lim);
    MoreHops(pkt.payload.hops, |net|, HopSize(lim));
    DecimalLengthMonotone(pkt.payload.hops, |net|);
  }

  // Generated names, dotted addresses with a port, generated routes.
  const GENERATED_LIMITS := Limits(10, 21, 8)

  lemma GeneratedIsShort(net: Network, n: nat, type0: nat, e: Graphs.Edges, place: seq<Address>, days: seq<Day>)
    requires Generated(net, n, type0, e, place, days) && AtMost(place, 21)
    ensures AllShort(net, GENERATED_LIMITS) && |net| == n
  {
    forall a | a in net ensures IsShort(net, a, GENERATED_LIMITS) {
      var i := StationIsGenerated(net, n, type0, e, place, days, a);
      StationRowsAreShort(net[a], n, type0, e, place, i, days[i]);
      LabelIsShort(n, type0, i);
    }
    forall a | a in place ensures a in net {
      var i :| 0 <= i < n && place[i] == a;
      assert GeneratedAt(net, n, type0, e, place, days, i);
    }
    forall a | a in net ensures a in place {
      assert AtOnePlace(net, place, a);
    }
    AsManyAsDistinct(place, net.Keys);
  }

  lemma {:induction false} AsManyAsDistinct<T>(p: seq<T>, s: set<T>)
    requires Distinct(p) && forall x :: x in p <==> x in s
    ensures |s| == |p|
  {
    if p == [] {
      assert s == {};
    } else {
      assert p == [p[0]] + p[1..];
      AsManyAsDistinct(p[1..], s - {p[0]});
    }
  }

  /** On a generated network of at most twenty stations no datagram is cut: each is shorter than the 1024 bytes it is
      received into, which leaves the C server room for the terminator. */
  lemma TwentyStationsFitADatagram(net: Network, n: nat, type0: nat, e: Graphs.Edges, place: seq<Address>,
                                   days: seq<Day>, s: State, pkt: Packet)
    requires Generated(net, n, type0, e, place, days) && AtMost(place, 21) && n <= 20
    requires Reachable(net, s) && pkt in s.inflight
    requires ShortQuestion(pkt.payload.destination, pkt.payload.startingTime, GENERATED_LIMITS)
    ensures |Craft(pkt.payload)| < MAXDATASIZE && |Serialize(pkt.payload)| < MAXDATASIZE
  {
    GeneratedIsRegular(net, n, type0, e, place, days);
    GeneratedIsShort(net, n, type0, e, place, days);
    EveryLineIsBounded(net, s, pkt, GENERATED_LIMITS);
    MoreHops(n, 20, HopSize(GENERATED_LIMITS));
    DecimalLengthMonotone(n, 20);
    assert Decimal(20) == "20";
  }
}
