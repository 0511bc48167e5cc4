/** Every injected query visits every simple path exactly once. */
module Enumeration {
  import opened Protocol
  import opened Journey
  import opened Steps
  import opened Runs

  // Whether this packet is the one that will bring home the answer for route q.
  predicate Leads(pkt: Packet, key: Key, q: seq<Address>) {
    KeyOf(pkt) == key
    && if pkt.payload.found == 0 then pkt.payload.addresses + [pkt.to] <= q else pkt.payload.addresses == q
  }

  function One(b: bool): nat {
    if b then 1 else 0
  }

  function Leading(pkts: seq<Packet>, key: Key, q: seq<Address>): nat {
    if pkts == [] then 0 else One(Leads(pkts[0], key, q)) + Leading(pkts[1..], key, q)
  }

  predicate Came(p: Payload, key: Key, q: seq<Address>) {
    AnswerKey(p) == key && p.addresses == q
  }

  // How often route q has come home as an answer to this query.
  function CameHome(answers: seq<Payload>, key: Key, q: seq<Address>): nat {
    if answers == [] then 0 else One(Came(answers[0], key, q)) + CameHome(answers[1..], key, q)
  }

  lemma {:induction false} LeadingAppend(a: seq<Packet>, b: seq<Packet>, key: Key, q: seq<Address>)
    ensures Leading(a + b, key, q) == Leading(a, key, q) + Leading(b, key, q)
  {
    if a == [] {
      assert a + b == b;
    } else {
      assert (a + b)[1..] == a[1..] + b;
      LeadingAppend(a[1..], b, key, q);
    }
  }

  lemma {:induction false} CameHomeAppend(a: seq<Payload>, b: seq<Payload>, key: Key, q: seq<Address>)
    ensures CameHome(a + b, key, q) == CameHome(a, key, q) + CameHome(b, key, q)
  {
    if a == [] {
      assert a + b == b;
    } else {
      assert (a + b)[1..] == a[1..] + b;
      CameHomeAppend(a[1..], b, key, q);
    }
  }

  lemma LeadingWithout(pkts: seq<Packet>, i: nat, key: Key, q: seq<Address>)
    requires i < |pkts|
    ensures Leading(pkts, key, q) == Leading(Without(pkts, i), key, q) + One(Leads(pkts[i], key, q))
  {
    assert pkts == pkts[..i] + ([pkts[i]] + pkts[i + 1..]);
    LeadingAppend(pkts[..i], [pkts[i]] + pkts[i + 1..], key, q);
    LeadingAppend([pkts[i]], pkts[i + 1..], key, q);
    assert [pkts[i]][1..] == [];
    LeadingAppend(pkts[..i], pkts[i + 1..], key, q);
  }

  // ----- one delivery

  // Of the copies a station floods, just the one to the next station on q leads along q.
  lemma {:induction false} OneCopyLeads(targets: seq<Address>, p: Payload, key: Key, q: seq<Address>)
    requires p.found == 0 && p.addresses != [] && p.addresses < q && Distinct(targets)
    requires key == Key(p.addresses[0], p.destination, p.startingTime)
    ensures Leading(SendAll(targets, p), key, q) == One(q[|p.addresses|] in targets)
  {
    if targets != [] {
      var sends := SendAll(targets, p);
      assert sends[1..] == SendAll(targets[1..], p);
      OneCopyLeads(targets[1..], p, key, q);
      assert sends[0] == Packet(targets[0], p);
      assert Leads(sends[0], key, q) <==> targets[0] == q[|p.addresses|] by {
        var next := p.addresses + [targets[0]];
        assert next[|p.addresses|] == targets[0];
        assert next == q[..|next|] <==> targets[0] == q[|p.addresses|];
      }
    }
  }

  lemma {:induction false} NoCopyLeads(sends: seq<Packet>, key: Key, q: seq<Address>)
    requires forall s :: s in sends ==> !Leads(s, key, q)
    ensures Leading(sends, key, q) == 0
  {
    if sends != [] {
      NoCopyLeads(sends[1..], key, q);
    }
  }

  lemma {:induction false} TargetsDistinct(neighbours: seq<Address>, visited: seq<Address>)
    requires Distinct(neighbours)
    ensures Distinct(Targets(neighbours, visited))
  {
    if neighbours != [] {
      var rest := Targets(neighbours[1..], visited);
      assert Distinct(neighbours[1..]);
      TargetsDistinct(neighbours[1..], visited);
      TargetsAre(neighbours[1..], visited);
      assert neighbours[0] !in rest;
    }
  }

  lemma FloodConserves(net: Network, key: Key, pkt: Packet, q: seq<Address>)
    requires WellFormed(net) && ValidKey(net, key) && Flooding(net, key, pkt) && Route(net, key, q)
    requires net[pkt.to].name != key.destination && pkt.to in net
    ensures var visited := pkt.payload.addresses + [pkt.to];
            Leading(SendAll(Targets(net[pkt.to].neighbours, visited), FloodPayload(net, key, visited)), key, q) ==
            One(Leads(pkt, key, q))
  {
    LegitimateKey(net, key, pkt);
    assert StationFits(net, pkt.to);
    var visited := pkt.payload.addresses + [pkt.to];
    var p := FloodPayload(net, key, visited);
    var targets := Targets(net[pkt.to].neighbours, visited);
    assert visited[0] == key.src;
    TargetsAre(net[pkt.to].neighbours, visited);
    if visited <= q {
      assert q[|visited| - 1] == pkt.to;
      LastIsDestination(net, key, q, |visited| - 1);
      TargetsDistinct(net[pkt.to].neighbours, visited);
      OneCopyLeads(targets, p, key, q);
      assert Edge(net, q, |visited| - 1);
      assert q[|visited|] !in visited;
    } else {
      forall s | s in SendAll(targets, p) ensures !Leads(s, key, q) {
        var longer := visited + [s.to];
        assert visited == longer[..|visited|];
      }
      NoCopyLeads(SendAll(targets, p), key, q);
    }
  }

  lemma ArrivalConserves(net: Network, key: Key, pkt: Packet, q: seq<Address>)
    requires WellFormed(net) && ValidKey(net, key) && Flooding(net, key, pkt) && Route(net, key, q)
    requires pkt.to in net && net[pkt.to].name == key.destination
    ensures pkt.payload.addresses + [pkt.to] <= q <==> pkt.payload.addresses + [pkt.to] == q
  {
    var visited := pkt.payload.addresses + [pkt.to];
    if visited <= q {
      assert q[|visited| - 1] == pkt.to;
      LastIsDestination(net, key, q, |visited| - 1);
    }
  }

  // A delivery neither loses nor invents a lead, for any query and route.
  lemma DeliveryConserves(net: Network, key: Key, pkt: Packet, asked: Key, q: seq<Address>)
    requires WellFormed(net) && Legitimate(net, key, pkt) && Route(net, asked, q)
    ensures pkt.to in net && Safe(net[pkt.to], pkt.payload)
    ensures var r := Handle(net[pkt.to], pkt.payload);
            One(Leads(pkt, asked, q)) == Leading(r.sends, asked, q)
              + (match r.finished case None => 0 case Some(p) => One(Came(p, asked, q)))
  {
    DeliveryKeepsLegitimacy(net, key, pkt);
    LegitimateKey(net, key, pkt);
    var r := Handle(net[pkt.to], pkt.payload);
    if key != asked {
      forall s | s in r.sends ensures !Leads(s, asked, q) {
        LegitimateKey(net, key, s);
      }
      NoCopyLeads(r.sends, asked, q);
    } else if Flooding(net, key, pkt) {
      if net[pkt.to].name == key.destination {
        Arrival(net, key, pkt);
        ArrivalConserves(net, key, pkt, q);
        assert r.sends[1..] == [];
      } else {
        FloodOn(net, key, pkt);
        FloodConserves(net, key, pkt, q);
      }
    } else {
      TravelDelivery(net, key, pkt);
      if r.sends != [] {
        LegitimateKey(net, key, r.sends[0]);
        assert r.sends[1..] == [];
      }
    }
  }

  // ----- whole runs

  // No station of the path is down.
  ghost predicate Up(s: State, q: seq<Address>) {
    forall i :: 0 <= i < |q| ==> q[i] !in s.down
  }

  lemma LeadIsOnRoute(net: Network, pkt: Packet, key: Key, q: seq<Address>)
    requires Legitimate(net, KeyOf(pkt), pkt) && Leads(pkt, key, q)
    ensures pkt.to in q
  {
    if pkt.payload.found == 0 {
      assert q[|pkt.payload.addresses|] == pkt.to;
    } else {
      assert Travelling(net, key, pkt);
    }
  }

  // The packets that lead to a route and the times it has come home.
  function Account(s: State, key: Key, q: seq<Address>): nat {
    Leading(s.inflight, key, q) + CameHome(s.answers, key, q)
  }

  lemma ReactConserves(net: Network, s: State, a: Address, r: Reaction, key: Key, q: seq<Address>)
    requires a in net && (r.finished.Some? ==> Finishes(QueriesOf(s, a), r.finished.value) && r.sends == [])
    ensures Account(React(net, s, a, r), key, q) == Account(s, key, q) + Leading(r.sends, key, q)
              + (match r.finished case None => 0 case Some(p) => One(Came(p, key, q)))
  {
    LeadingAppend(s.inflight, r.sends, key, q);
    if r.finished.Some? {
      CameHomeAppend(s.answers, [r.finished.value], key, q);
      assert [r.finished.value][1..] == [];
    }
  }

  // A delivery keeps the account of a route, or loses from it at a station of the route that is down.
  lemma DeliverConserves(net: Network, s: State, i: nat, key: Key, q: seq<Address>)
    requires WellFormed(net) && Inv(net, s) && i < |s.inflight| && ValidKey(net, key) && Route(net, key, q)
    ensures var s' := DeliverOne(net, s, i);
            s'.injected == s.injected && s.down <= s'.down
            && Account(s', key, q) <= Account(s, key, q)
            && (Up(s', q) ==> Account(s', key, q) == Account(s, key, q))
  {
    hide Handle, Safe, Written, Leads, Came;
    var pkt, rest := s.inflight[i], s.(inflight := Without(s.inflight, i));
    assert pkt in s.inflight;
    DeliveryConserves(net, KeyOf(pkt), pkt, key, q);
    DeliveryKeepsLegitimacy(net, KeyOf(pkt), pkt);
    LeadingWithout(s.inflight, i, key, q);
    if Leads(pkt, key, q) {
      LeadIsOnRoute(net, pkt, key, q);
    }
    var r := Handle(net[pkt.to], pkt.payload);
    var wrote := Wrote(rest, pkt.to, Written(net[pkt.to], pkt.payload));
    if r.finished.None? || Finishes(QueriesOf(rest, pkt.to), r.finished.value) {
      ReactConserves(net, wrote, pkt.to, r, key, q);
    }
  }

  lemma InjectConserves(net: Network, s: State, asked: Key, key: Key, q: seq<Address>)
    requires WellFormed(net) && ValidKey(net, asked) && ValidKey(net, key) && Route(net, key, q)
    ensures Leading(Inject(net, s, asked).inflight, key, q) == Leading(s.inflight, key, q) + One(asked == key)
  {
    var first := InitialPacket(net, asked);
    InitialIsLegitimate(net, asked);
    LeadingAppend(s.inflight, [first], key, q);
    assert [first][1..] == [];
    assert first.payload.addresses + [first.to] == [asked.src];
  }

  lemma AskConserves(net: Network, s: State, asked: Key, key: Key, q: seq<Address>)
    requires WellFormed(net) && ValidKey(net, asked) && ValidKey(net, key) && Route(net, key, q)
    ensures var s' := AskAt(net, s, asked);
            s'.answers == s.answers && s'.down == s.down
            && Leading(s'.inflight, key, q) + s.injected[key] == Leading(s.inflight, key, q) + s'.injected[key]
    ensures var s' := ResendAt(net, s, asked);
            s'.answers == s.answers && s'.down == s.down
            && Leading(s'.inflight, key, q) + s.injected[key] == Leading(s.inflight, key, q) + s'.injected[key]
  {
    InjectConserves(net, s, asked, key, q);
    InjectConserves(net, Enlist(net, s, asked), asked, key, q);
  }

  ghost predicate Accounted(s: State, key: Key, q: seq<Address>) {
    Account(s, key, q) <= s.injected[key] && (Up(s, q) ==> Account(s, key, q) == s.injected[key])
  }

  lemma StepConserves(net: Network, s: State, act: Action, key: Key, q: seq<Address>)
    requires WellFormed(net) && Inv(net, s) && Enabled(net, s, act) && ValidKey(net, key) && Route(net, key, q)
    requires Accounted(s, key, q)
    ensures Accounted(Next(net, s, act), key, q)
  {
    match act
    case Ask(asked) => AskConserves(net, s, asked, key, q);
    case Resend(asked) => AskConserves(net, s, asked, key, q);
    case Deliver(i) => DeliverConserves(net, s, i, key, q);
  }

  lemma {:induction false} RunConserves(net: Network, r: Run, i: nat, key: Key, q: seq<Address>)
    requires WellFormed(net) && IsRun(net, r) && First(r) == START && i < |r.states|
    requires ValidKey(net, key) && Route(net, key, q)
    ensures Accounted(r.states[i], key, q)
  {
    hide Next;
    if i > 0 {
      RunConserves(net, r, i - 1, key, q);
      RunKeepsInv(net, r, i - 1);
      assert StepOf(net, r, i - 1);
      StepConserves(net, r.states[i - 1], r.acts[i - 1], key, q);
    }
  }

  /** In every reachable state, for every query and every route that answers it: the packets that lead to the
      route and the times it came home never exceed the times the query was injected, and they add up to it
      as long as no station of the route is down. */
  lemma EveryRunConserves(net: Network, s: State, key: Key, q: seq<Address>)
    requires WellFormed(net) && Reachable(net, s) && ValidKey(net, key) && Route(net, key, q)
    ensures Leading(s.inflight, key, q) + CameHome(s.answers, key, q) <= s.injected[key]
    ensures Up(s, q) ==> Leading(s.inflight, key, q) + CameHome(s.answers, key, q) == s.injected[key]
  {
    var r :| IsRun(net, r) && First(r) == START && Last(r) == s;
    RunConserves(net, r, |r.acts|, key, q);
  }

  // p is the answer for the path of this packet, which ends at a station that is up and holds the query.
  ghost predicate IsHomeOf(s: State, pkt: Packet, p: Payload) {
    Came(p, KeyOf(pkt), pkt.payload.addresses) && pkt.payload.found == 3 && pkt.payload.current == 1
    && pkt.to == KeyOf(pkt).src && pkt.to !in s.down && Registered(s, KeyOf(pkt))
  }

  // What a delivery adds to what has come home: nothing, or the answer for the path of the packet.
  lemma DeliveryAdds(net: Network, s: State, i: nat)
    requires WellFormed(net) && Inv(net, s) && i < |s.inflight|
    ensures var pkt, answers := s.inflight[i], DeliverOne(net, s, i).answers;
            answers == s.answers || exists p :: answers == s.answers + [p] && IsHomeOf(s, pkt, p)
  {
    var pkt := s.inflight[i];
    assert pkt in s.inflight;
    DeliveryKeepsLegitimacy(net, KeyOf(pkt), pkt);
    HomeIsSource(net, KeyOf(pkt), pkt);
    var r := Handle(net[pkt.to], pkt.payload);
    if r.finished.Some? {
      assert Came(r.finished.value, KeyOf(pkt), pkt.payload.addresses);
      assert DeliverOne(net, s, i).answers != s.answers ==> IsHomeOf(s, pkt, r.finished.value);
    }
  }

  lemma OneMoreCame(answers: seq<Payload>, p: Payload, key: Key, q: seq<Address>)
    ensures CameHome(answers + [p], key, q) == CameHome(answers, key, q) + One(Came(p, key, q))
  {
    CameHomeAppend(answers, [p], key, q);
    assert [p][1..] == [];
  }

  // No packet of this query is left.
  ghost predicate Quiet(s: State, key: Key) {
    forall pkt :: pkt in s.inflight ==> KeyOf(pkt) != key
  }

  lemma {:induction false} OnlyRoutesComeHome(net: Network, answers: seq<Payload>, key: Key, q: seq<Address>)
    requires forall p :: p in answers ==> IsAnswer(net, AnswerKey(p), p)
    requires !Route(net, key, q)
    ensures CameHome(answers, key, q) == 0
  {
    if answers != [] {
      OnlyRoutesComeHome(net, answers[1..], key, q);
      assert answers[0] in answers;
    }
  }

  /** Exact enumeration: once a query has gone quiet, in whatever order its packets were delivered, the answers
      that came home are simple paths to its destination, none more often than it was injected, and each whose
      stations are all up exactly that often. */
  lemma ExactEnumeration(net: Network, s: State, key: Key, q: seq<Address>)
    requires WellFormed(net) && ValidKey(net, key) && Reachable(net, s) && Quiet(s, key)
    ensures CameHome(s.answers, key, q) <= if Route(net, key, q) then s.injected[key] else 0
    ensures Up(s, q) ==> CameHome(s.answers, key, q) == if Route(net, key, q) then s.injected[key] else 0
  {
    EveryRunKeepsInv(net, s);
    if Route(net, key, q) {
      EveryRunConserves(net, s, key, q);
      NoCopyLeads(s.inflight, key, q);
    } else {
      OnlyRoutesComeHome(net, s.answers, key, q);
    }
  }

  lemma {:induction false} CameHomeHas(answers: seq<Payload>, key: Key, q: seq<Address>)
    requires CameHome(answers, key, q) > 0
    ensures exists p :: p in answers && Came(p, key, q)
  {
    if Came(answers[0], key, q) {
      assert answers[0] in answers;
    } else {
      CameHomeHas(answers[1..], key, q);
      var p :| p in answers[1..] && Came(p, key, q);
      assert p in answers;
    }
  }
}
