/** What one delivery does to a legitimate packet, stage by stage. */
module Steps {
  import opened Text
  import opened Timetable
  import opened Protocol
  import opened Journey

  ghost predicate Delivers(net: Network, pkt: Packet, reaction: Reaction) {
    pkt.to in net && Safe(net[pkt.to], pkt.payload) && Handle(net[pkt.to], pkt.payload) == reaction
  }

  lemma LastIsDestination(net: Network, key: Key, q: seq<Address>, i: nat)
    requires WellFormed(net) && ValidKey(net, key) && Route(net, key, q) && i < |q|
    ensures net[q[i]].name == key.destination <==> i == |q| - 1
    ensures net[q[i]].name == net[key.src].name <==> i == 0
    ensures net[q[i]].address == q[i]
  {
    assert StationFits(net, q[i]);
    assert SameName(net, q[i], q[|q| - 1]) <==> net[q[i]].name == key.destination;
    assert SameName(net, q[i], q[0]) <==> net[q[i]].name == net[key.src].name;
  }

  lemma HostPorts(net: Network, q: seq<Address>)
    requires WellFormed(net) && Within(net, q)
    ensures forall i :: 0 <= i < |q| ==> IsHostPort(q[i])
  {
    forall i | 0 <= i < |q| ensures IsHostPort(q[i]) {
      assert StationFits(net, q[i]);
    }
  }

  // ----- flooding

  lemma FloodOn(net: Network, key: Key, pkt: Packet)
    requires WellFormed(net) && ValidKey(net, key) && Flooding(net, key, pkt)
    requires net[pkt.to].name != key.destination
    ensures Delivers(net, pkt, Reaction(SendAll(
              Targets(net[pkt.to].neighbours, pkt.payload.addresses + [pkt.to]),
              FloodPayload(net, key, pkt.payload.addresses + [pkt.to])), None))
  {
    var p, st := pkt.payload, net[pkt.to];
    var visited := p.addresses + [pkt.to];
    assert StationFits(net, pkt.to);
    TargetsIgnoreSelf(st.neighbours, p.addresses, pkt.to);
    assert st.address == pkt.to;
    var q := Append(p, st, DOTS, DOTS);
    assert q.stations == Names(net, visited);
    assert q.routes == Dots(|visited|) && q.times == Dots(|visited|);
    assert q == FloodPayload(net, key, visited);
    assert AtDestination(st, p) == p && AtSource(st, p) == p;
  }

  // The C loop compares with the stations before this one only; no station is its own neighbour.
  lemma {:induction false} TargetsIgnoreSelf(neighbours: seq<Address>, visited: seq<Address>, self: Address)
    requires self !in neighbours
    ensures Targets(neighbours, visited) == Targets(neighbours, visited + [self])
  {
    if neighbours != [] {
      TargetsIgnoreSelf(neighbours[1..], visited, self);
    }
  }

  lemma {:induction false} TargetsAre(neighbours: seq<Address>, visited: seq<Address>)
    ensures forall n :: n in Targets(neighbours, visited) <==> n in neighbours && n !in visited
    ensures |Targets(neighbours, visited)| <= |neighbours|
  {
    if neighbours != [] {
      TargetsAre(neighbours[1..], visited);
    }
  }

  lemma FloodStaysPartial(net: Network, key: Key, visited: seq<Address>, v: Address, n: Address)
    requires WellFormed(net) && Partial(net, key, visited, v) && net[v].name != key.destination
    requires n in net[v].neighbours && n !in visited + [v]
    ensures Partial(net, key, visited + [v], n)
  {
    assert StationFits(net, v);
    var p := visited + [v];
    var r := p + [n];
    forall i | 0 <= i < |r| - 1 ensures Edge(net, r, i) {
      if i < |p| - 1 {
        assert Edge(net, p, i);
      }
    }
  }

  // The destination appends itself and marks the payload found ...
  lemma ArrivalAppends(net: Network, key: Key, pkt: Packet)
    requires WellFormed(net) && ValidKey(net, key) && Flooding(net, key, pkt)
    requires net[pkt.to].name == key.destination
    ensures var q := pkt.payload.addresses + [pkt.to];
            Route(net, key, q) && DestinationSafe(net[pkt.to], pkt.payload)
            && AtDestination(net[pkt.to], pkt.payload) == JourneyPayload(net, key, q, 1, |q| - 1, 0)
  {
    var p, st := pkt.payload, net[pkt.to];
    var q := p.addresses + [pkt.to];
    assert StationFits(net, pkt.to);
    assert q[0] == key.src && q[|q| - 1] == pkt.to;
    assert |q| >= 2;
    var held := Append(p, st, HeldRoute(net, q, |q| - 1), HeldTime(net, q, |q| - 1)).(found := 1);
    assert AtDestination(st, p) == held;
    assert held.stations == Names(net, q);
    assert held.routes == RoutesWritten(net, key, q, 0);
    assert held.times == TimesWritten(net, key, q, 0);
    assert held.addresses == q;
  }

  // ... and sends it back.
  lemma ArrivalSends(net: Network, key: Key, q: seq<Address>)
    requires WellFormed(net) && ValidKey(net, key) && Route(net, key, q)
    ensures var st, held := net[q[|q| - 1]], JourneyPayload(net, key, q, 1, |q| - 1, 0);
            SourceSafe(st, held) && AtSource(st, held) == held && ForwardSafe(st, held)
            && Forward(st, held) == Reaction([PacketAt(net, key, q, 1, |q| - 2)], None)
  {
    LastIsDestination(net, key, q, |q| - 1);
    HostPorts(net, q);
  }

  lemma Arrival(net: Network, key: Key, pkt: Packet)
    requires WellFormed(net) && ValidKey(net, key) && Flooding(net, key, pkt)
    requires net[pkt.to].name == key.destination
    ensures var q := pkt.payload.addresses + [pkt.to];
            Route(net, key, q)
            && Delivers(net, pkt, Reaction([PacketAt(net, key, q, 1, |q| - 2)], None))
  {
    ArrivalAppends(net, key, pkt);
    ArrivalSends(net, key, pkt.payload.addresses + [pkt.to]);
  }

  // A station on the way neither starts nor ends the journey.
  lemma PassesThrough(st: Station, p: Payload)
    requires p.destination != st.name && p.source != st.name && p.found <= 4 && ForwardSafe(st, p)
    ensures Safe(st, p) && Handle(st, p) == Forward(st, p)
  {
  }

  // ----- backtracing

  lemma Backtrace(net: Network, key: Key, q: seq<Address>, k: nat)
    requires WellFormed(net) && ValidKey(net, key) && Route(net, key, q) && 1 <= k < |q| - 1
    ensures Delivers(net, PacketAt(net, key, q, 1, k),
                     Reaction([PacketAt(net, key, q, 1, k - 1)], None))
  {
    HostPorts(net, q);
    LastIsDestination(net, key, q, k);
  }

  // ----- the forward walk

  lemma FillOne(net: Network, key: Key, q: seq<Address>, cur: nat)
    requires |q| >= 2 && 1 <= cur < |q| && Within(net, q)
    ensures TimesWritten(net, key, q, cur)[cur := TimeAt(net, key, q, cur)] == TimesWritten(net, key, q, cur + 1)
    ensures RoutesWritten(net, key, q, cur)[cur := RouteAt(net, key, q, cur)] == RoutesWritten(net, key, q, cur + 1)
  {
  }

  // What the forward walk makes of a payload at station k.
  function WithLeg(net: Network, key: Key, q: seq<Address>, p: Payload, cur: nat): Payload
    requires 1 <= cur < |q| && Within(net, q) && Shaped(p) && cur < p.hops
  {
    p.(current := cur + 1,
       times := p.times[cur := TimeAt(net, key, q, cur)],
       routes := p.routes[cur := RouteAt(net, key, q, cur)])
  }

  lemma WithLegIsNext(net: Network, key: Key, q: seq<Address>, k: nat)
    requires key.src in net && k + 1 < |q| && Within(net, q)
    ensures WithLeg(net, key, q, JourneyPayload(net, key, q, 2, k, k + 1), k + 1)
         == JourneyPayload(net, key, q, 2, k + 1, k + 2)
  {
    FillOne(net, key, q, k + 1);
  }

  lemma ForwardWrites(net: Network, key: Key, q: seq<Address>, p: Payload, k: nat)
    requires k + 1 < |q| && Within(net, q) && Shaped(p) && p.hops == |q| && p.addresses == q
    requires p.found == 2 && p.current == k + 1 && p.stations[k + 1] == net[q[k + 1]].name
    requires p.times[k] == TimeAt(net, key, q, k) && ForwardSafe(net[q[k]], p)
    ensures Forward(net[q[k]], p) == Reaction([Packet(q[k + 1], WithLeg(net, key, q, p, k + 1))], None)
  {
    var found := Found(net, key, q, k + 1);
    assert found == Search(Visible(net[q[k]]), p.stations[k + 1], p.times[k]);
  }

  lemma ForwardIsSafe(net: Network, key: Key, q: seq<Address>, k: nat)
    requires key.src in net && k + 1 < |q| && Within(net, q)
    requires ReadableBy(net[q[k]].language, TimeAt(net, key, q, k)) && DeparturesReadable(net[q[k]])
    requires IsHostPort(q[k + 1])
    ensures var p := JourneyPayload(net, key, q, 2, k, k + 1);
            ForwardSafe(net[q[k]], p) && p.times[k] == TimeAt(net, key, q, k) && p.stations[k + 1] == net[q[k + 1]].name
  {
  }

  lemma WriteLeg(net: Network, key: Key, q: seq<Address>, k: nat)
    requires key.src in net && k + 1 < |q| && Within(net, q)
    requires ReadableBy(net[q[k]].language, TimeAt(net, key, q, k)) && DeparturesReadable(net[q[k]])
    requires IsHostPort(q[k + 1])
    ensures var p := JourneyPayload(net, key, q, 2, k, k + 1);
            ForwardSafe(net[q[k]], p)
            && Forward(net[q[k]], p) == Reaction([PacketAt(net, key, q, 2, k + 1)], None)
  {
    var p := JourneyPayload(net, key, q, 2, k, k + 1);
    ForwardIsSafe(net, key, q, k);
    WithLegIsNext(net, key, q, k);
    assert PacketAt(net, key, q, 2, k + 1) == Packet(q[k + 1], WithLeg(net, key, q, p, k + 1));
    ForwardWrites(net, key, q, p, k);
  }

  // The source puts the first departure in, and the payload is ready to walk forward ...
  lemma SourceTurns(net: Network, key: Key, q: seq<Address>)
    requires WellFormed(net) && ValidKey(net, key) && Route(net, key, q)
    ensures var st, p := net[q[0]], JourneyPayload(net, key, q, 1, 0, 0);
            SourceSafe(st, p) && AtSource(st, p) == JourneyPayload(net, key, q, 2, 0, 1)
  {
    LastIsDestination(net, key, q, 0);
    assert StationFits(net, q[0]);
    var st, p := net[q[0]], JourneyPayload(net, key, q, 1, 0, 0);
    assert p.stations[1] == net[q[1]].name;
    assert AtSource(st, p) == p.(found := 2, times := p.times[0 := TimeAt(net, key, q, 0)]);
    assert p.times[0 := TimeAt(net, key, q, 0)] == TimesWritten(net, key, q, 1);
    assert p.routes == RoutesWritten(net, key, q, 1);
  }

  // ... which it does at once.
  lemma TurnAtSource(net: Network, key: Key, q: seq<Address>)
    requires WellFormed(net) && ValidKey(net, key) && Route(net, key, q)
    ensures Delivers(net, PacketAt(net, key, q, 1, 0),
                     Reaction([PacketAt(net, key, q, 2, 1)], None))
  {
    HostPorts(net, q);
    LastIsDestination(net, key, q, 0);
    RowTimesReadable(net, key, q, 0);
    assert StationFits(net, q[0]);
    SourceTurns(net, key, q);
    WriteLeg(net, key, q, 0);
    assert AtDestination(net[q[0]], JourneyPayload(net, key, q, 1, 0, 0)) == JourneyPayload(net, key, q, 1, 0, 0);
  }

  lemma ForwardWalk(net: Network, key: Key, q: seq<Address>, k: nat)
    requires WellFormed(net) && ValidKey(net, key) && Route(net, key, q) && 1 <= k < |q| - 1
    ensures Delivers(net, PacketAt(net, key, q, 2, k),
                     Reaction([PacketAt(net, key, q, 2, k + 1)], None))
  {
    HostPorts(net, q);
    LastIsDestination(net, key, q, k);
    RowTimesReadable(net, key, q, k);
    assert StationFits(net, q[k]);
    WriteLeg(net, key, q, k);
    PassesThrough(net[q[k]], JourneyPayload(net, key, q, 2, k, k + 1));
  }

  lemma TurnAtDestination(net: Network, key: Key, q: seq<Address>)
    requires WellFormed(net) && ValidKey(net, key) && Route(net, key, q)
    ensures var k := |q| - 1;
            Delivers(net, PacketAt(net, key, q, 2, k),
                     Reaction([PacketAt(net, key, q, 3, k - 1)], None))
  {
    HostPorts(net, q);
    LastIsDestination(net, key, q, |q| - 1);
  }

  // ----- the way back

  lemma WayBack(net: Network, key: Key, q: seq<Address>, k: nat)
    requires WellFormed(net) && ValidKey(net, key) && Route(net, key, q) && 1 <= k < |q| - 1
    ensures Delivers(net, PacketAt(net, key, q, 3, k),
                     Reaction([PacketAt(net, key, q, 3, k - 1)], None))
  {
    HostPorts(net, q);
    LastIsDestination(net, key, q, k);
  }

  lemma Finish(net: Network, key: Key, q: seq<Address>)
    requires WellFormed(net) && ValidKey(net, key) && Route(net, key, q)
    ensures Delivers(net, PacketAt(net, key, q, 3, 0),
                     Reaction([], Some(AnswerPayload(net, key, q))))
  {
    LastIsDestination(net, key, q, 0);
    RowTimesReadable(net, key, q, |q| - 1);
  }

  // ----- all stages together

  ghost predicate GoodReaction(net: Network, key: Key, pkt: Packet, r: Reaction) {
    (forall s :: s in r.sends ==> Legitimate(net, key, s))
    && (r.finished.Some? ==>
          var q := pkt.payload.addresses;
          pkt.payload.found == 3 && Route(net, key, q) && r.sends == []
          && r.finished.value == AnswerPayload(net, key, q))
  }

  lemma FloodDelivery(net: Network, key: Key, pkt: Packet)
    requires WellFormed(net) && ValidKey(net, key) && Flooding(net, key, pkt)
    ensures exists r :: Delivers(net, pkt, r) && GoodReaction(net, key, pkt, r)
  {
    var visited := pkt.payload.addresses + [pkt.to];
    if net[pkt.to].name == key.destination {
      Arrival(net, key, pkt);
      var sent := PacketAt(net, key, visited, 1, |visited| - 2);
      assert Travelling(net, key, sent);
      assert GoodReaction(net, key, pkt, Reaction([sent], None));
    } else {
      FloodOn(net, key, pkt);
      TargetsAre(net[pkt.to].neighbours, visited);
      var sends := SendAll(Targets(net[pkt.to].neighbours, visited), FloodPayload(net, key, visited));
      forall s | s in sends ensures Legitimate(net, key, s) {
        FloodStaysPartial(net, key, pkt.payload.addresses, pkt.to, s.to);
      }
      assert GoodReaction(net, key, pkt, Reaction(sends, None));
    }
  }

  // The one packet, or the answer, that a travelling packet turns into.
  function Onward(net: Network, key: Key, q: seq<Address>, found: nat, k: nat): Reaction
    requires key.src in net && |q| >= 2 && Within(net, q) && k < |q|
  {
    if found == 1 then
      if k == 0 then Reaction([PacketAt(net, key, q, 2, 1)], None)
      else Reaction([PacketAt(net, key, q, 1, k - 1)], None)
    else if found == 2 then
      if k == |q| - 1 then Reaction([PacketAt(net, key, q, 3, k - 1)], None)
      else Reaction([PacketAt(net, key, q, 2, k + 1)], None)
    else
      if k == 0 then Reaction([], Some(AnswerPayload(net, key, q)))
      else Reaction([PacketAt(net, key, q, 3, k - 1)], None)
  }

  lemma TravelDelivery(net: Network, key: Key, pkt: Packet)
    requires WellFormed(net) && ValidKey(net, key) && Travelling(net, key, pkt)
    ensures var q := pkt.payload.addresses;
            Delivers(net, pkt, Onward(net, key, q, pkt.payload.found, pkt.payload.current - 1))
  {
    var q, k := pkt.payload.addresses, pkt.payload.current - 1;
    match pkt.payload.found
    case 1 => if k == 0 { TurnAtSource(net, key, q); } else { Backtrace(net, key, q, k); }
    case 2 => if k == |q| - 1 { TurnAtDestination(net, key, q); } else { ForwardWalk(net, key, q, k); }
    case _ => if k == 0 { Finish(net, key, q); } else { WayBack(net, key, q, k); }
  }

  lemma OnwardIsGood(net: Network, key: Key, pkt: Packet)
    requires WellFormed(net) && ValidKey(net, key) && Travelling(net, key, pkt)
    ensures var q := pkt.payload.addresses;
            GoodReaction(net, key, pkt, Onward(net, key, q, pkt.payload.found, pkt.payload.current - 1))
  {
    var q := pkt.payload.addresses;
    var r := Onward(net, key, q, pkt.payload.found, pkt.payload.current - 1);
    if r.sends != [] {
      assert Travelling(net, key, r.sends[0]);
    }
  }

  /** Every legitimate packet can be handled without a fault; what it leaves is again legitimate
      and for the same query, and a finished payload is the answer for its route. */
  lemma DeliveryKeepsLegitimacy(net: Network, key: Key, pkt: Packet)
    requires WellFormed(net) && Legitimate(net, key, pkt)
    ensures pkt.to in net && Safe(net[pkt.to], pkt.payload)
    ensures GoodReaction(net, key, pkt, Handle(net[pkt.to], pkt.payload))
  {
    if Flooding(net, key, pkt) {
      FloodDelivery(net, key, pkt);
    } else {
      TravelDelivery(net, key, pkt);
      OnwardIsGood(net, key, pkt);
    }
  }
}
