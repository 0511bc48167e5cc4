/** Every flood dies out: each delivery lowers a weight of the packets in flight. */
module Termination {
  import opened Protocol
  import opened Journey
  import opened Steps
  import opened Runs

  // w added up k times.
  function Copies(k: nat, w: nat): nat {
    if k == 0 then 0 else w + Copies(k - 1, w)
  }

  // The weight of a flooded packet with this many stations left to visit, in a network of n:
  // more than n copies with one station fewer to visit.
  function FloodWeight(n: nat, left: nat): nat {
    if left == 0 then 3 * n else 1 + Copies(n, FloodWeight(n, left - 1))
  }

  function Weight(n: nat, pkt: Packet): nat {
    var p := pkt.payload;
    if p.found == 0 then FloodWeight(n, if p.hops <= n then n - p.hops else 0)
    else if p.found == 1 then 2 * p.hops + p.current
    else if p.found == 2 then if p.current <= 2 * p.hops then 2 * p.hops + 1 - p.current else 0
    else p.current
  }

  function Total(n: nat, pkts: seq<Packet>): nat {
    if pkts == [] then 0 else Weight(n, pkts[0]) + Total(n, pkts[1..])
  }

  lemma {:induction false} TotalAppend(n: nat, a: seq<Packet>, b: seq<Packet>)
    ensures Total(n, a + b) == Total(n, a) + Total(n, b)
  {
    if a == [] {
      assert a + b == b;
    } else {
      assert (a + b)[1..] == a[1..] + b;
      TotalAppend(n, a[1..], b);
    }
  }

  lemma TotalWithout(n: nat, pkts: seq<Packet>, i: nat)
    requires i < |pkts|
    ensures Total(n, pkts) == Weight(n, pkts[i]) + Total(n, Without(pkts, i))
  {
    assert pkts == pkts[..i] + ([pkts[i]] + pkts[i + 1..]);
    TotalAppend(n, pkts[..i], [pkts[i]] + pkts[i + 1..]);
    assert ([pkts[i]] + pkts[i + 1..])[1..] == pkts[i + 1..];
    TotalAppend(n, pkts[..i], pkts[i + 1..]);
  }

  lemma {:induction false} TotalOfEqual(n: nat, pkts: seq<Packet>, w: nat)
    requires forall pkt :: pkt in pkts ==> Weight(n, pkt) == w
    ensures Total(n, pkts) == Copies(|pkts|, w)
  {
    if pkts != [] {
      assert pkts[0] in pkts;
      TotalOfEqual(n, pkts[1..], w);
    }
  }

  lemma {:induction false} MoreCopies(k: nat, m: nat, w: nat)
    requires k <= m
    ensures Copies(k, w) <= Copies(m, w)
  {
    if k < m {
      MoreCopies(k, m - 1, w);
    }
  }

  lemma {:induction false} DistinctFits<T>(p: seq<T>, s: set<T>)
    requires Distinct(p) && forall x :: x in p ==> x in s
    ensures |p| <= |s|
  {
    if p != [] {
      assert forall x :: x in p[1..] ==> x in s - {p[0]};
      DistinctFits(p[1..], s - {p[0]});
    }
  }

  lemma {:induction false} FloodWeightIsLarge(n: nat, left: nat)
    requires n >= 1
    ensures FloodWeight(n, left) >= 3 * n
  {
    if left > 0 {
      FloodWeightIsLarge(n, left - 1);
    }
  }

  lemma PathFits(net: Network, p: seq<Address>)
    requires Walk(net, p) && Distinct(p)
    ensures |p| <= |net|
  {
    DistinctFits(p, net.Keys);
  }

  lemma FloodLowersWeight(net: Network, key: Key, pkt: Packet, targets: seq<Address>)
    requires WellFormed(net) && ValidKey(net, key) && Flooding(net, key, pkt) && pkt.to in net
    requires targets == Targets(net[pkt.to].neighbours, pkt.payload.addresses + [pkt.to])
    ensures var visited := pkt.payload.addresses + [pkt.to];
            Total(|net|, SendAll(targets, FloodPayload(net, key, visited))) < Weight(|net|, pkt)
  {
    var n, visited := |net|, pkt.payload.addresses + [pkt.to];
    PathFits(net, visited);
    var each := FloodWeight(n, n - |visited|);
    var p := FloodPayload(net, key, visited);
    TotalOfEqual(n, SendAll(targets, p), each);
    TargetsAre(net[pkt.to].neighbours, visited);
    assert StationFits(net, pkt.to);
    DistinctFits(net[pkt.to].neighbours, net.Keys);
    MoreCopies(|targets|, n, each);
  }

  lemma ArrivalLowersWeight(net: Network, key: Key, pkt: Packet)
    requires WellFormed(net) && ValidKey(net, key) && Flooding(net, key, pkt) && pkt.to in net
    requires net[pkt.to].name == key.destination
    ensures var q := pkt.payload.addresses + [pkt.to];
            Route(net, key, q) && Weight(|net|, PacketAt(net, key, q, 1, |q| - 2)) < Weight(|net|, pkt)
  {
    var q := pkt.payload.addresses + [pkt.to];
    Arrival(net, key, pkt);
    PathFits(net, q);
    FloodWeightIsLarge(|net|, |net| - |q| + 1);
  }

  lemma FloodHandlingLowersWeight(net: Network, key: Key, pkt: Packet)
    requires WellFormed(net) && ValidKey(net, key) && Flooding(net, key, pkt)
    requires pkt.to in net && Safe(net[pkt.to], pkt.payload)
    ensures Total(|net|, Handle(net[pkt.to], pkt.payload).sends) < Weight(|net|, pkt)
  {
    if net[pkt.to].name == key.destination {
      ArrivalLowersWeight(net, key, pkt);
      Arrival(net, key, pkt);
      assert Handle(net[pkt.to], pkt.payload).sends[1..] == [];
    } else {
      FloodOn(net, key, pkt);
      FloodLowersWeight(net, key, pkt, Targets(net[pkt.to].neighbours, pkt.payload.addresses + [pkt.to]));
    }
  }

  lemma OnwardLowersWeight(net: Network, key: Key, pkt: Packet)
    requires Travelling(net, key, pkt)
    ensures var q := pkt.payload.addresses;
            Total(|net|, Onward(net, key, q, pkt.payload.found, pkt.payload.current - 1).sends) < Weight(|net|, pkt)
  {
    var sends := Onward(net, key, pkt.payload.addresses, pkt.payload.found, pkt.payload.current - 1).sends;
    if sends != [] {
      assert sends[1..] == [];
    }
  }

  /** Handling a legitimate packet leaves less weight than it had, however many copies it sends. */
  lemma HandlingLowersWeight(net: Network, key: Key, pkt: Packet)
    requires WellFormed(net) && Legitimate(net, key, pkt)
    ensures pkt.to in net && Safe(net[pkt.to], pkt.payload)
    ensures Total(|net|, Handle(net[pkt.to], pkt.payload).sends) < Weight(|net|, pkt)
  {
    DeliveryKeepsLegitimacy(net, key, pkt);
    if Flooding(net, key, pkt) {
      FloodHandlingLowersWeight(net, key, pkt);
    } else {
      TravelDelivery(net, key, pkt);
      OnwardLowersWeight(net, key, pkt);
    }
  }

  lemma DeliveryLowersTotal(net: Network, s: State, i: nat)
    requires WellFormed(net) && Inv(net, s) && i < |s.inflight|
    ensures Total(|net|, DeliverOne(net, s, i).inflight) < Total(|net|, s.inflight)
    ensures DeliverOne(net, s, i).injected == s.injected
  {
    hide DeliverOne, Handle;
    DeliveryLeaves(net, s, i);
    var pkt := s.inflight[i];
    assert pkt in s.inflight;
    HandlingLowersWeight(net, KeyOf(pkt), pkt);
    TotalWithout(|net|, s.inflight, i);
    TotalAppend(|net|, Without(s.inflight, i), Handle(net[pkt.to], pkt.payload).sends);
  }

  lemma InjectIsPaidFor(net: Network, s: State, key: Key)
    requires key.src in net
    ensures var s', w := Inject(net, s, key), FloodWeight(|net|, |net|);
            |s.injected| * w + Total(|net|, s'.inflight) == |s'.injected| * w + Total(|net|, s.inflight)
  {
    var first := InitialPacket(net, key);
    TotalAppend(|net|, s.inflight, [first]);
    assert [first][1..] == [];
    OneMore(|s.injected|, FloodWeight(|net|, |net|));
  }

  // What the weight of the packets in flight can be, given what was injected.
  function Budget(net: Network, s: State, paid: nat): int {
    |s.injected| * FloodWeight(|net|, |net|) - Total(|net|, s.inflight) - paid
  }

  lemma StepIsPaidFor(net: Network, s: State, act: Action, paid: nat)
    requires WellFormed(net) && Inv(net, s) && Enabled(net, s, act)
    ensures Budget(net, Next(net, s, act), paid + if act.Deliver? then 1 else 0) >= Budget(net, s, paid)
  {
    match act
    case Deliver(i) =>
      DeliveryLowersTotal(net, s, i);
    case Ask(key) =>
      InjectIsPaidFor(net, Enlist(net, s, key), key);
    case Resend(key) =>
      InjectIsPaidFor(net, s, key);
      InjectIsPaidFor(net, Enlist(net, s, key), key);
  }

  lemma OneMore(a: nat, c: nat)
    ensures (a + 1) * c == a * c + c
  {
  }

  function Deliveries(acts: seq<Action>): nat {
    if acts == [] then 0
    else Deliveries(acts[..|acts| - 1]) + if acts[|acts| - 1].Deliver? then 1 else 0
  }

  lemma {:induction false} RunIsPaidFor(net: Network, r: Run, i: nat)
    requires WellFormed(net) && IsRun(net, r) && First(r) == START && i < |r.states|
    ensures Budget(net, r.states[i], Deliveries(r.acts[..i])) >= 0
  {
    hide Next;
    if i > 0 {
      RunIsPaidFor(net, r, i - 1);
      RunKeepsInv(net, r, i - 1);
      assert StepOf(net, r, i - 1);
      OneMoreAct(r.acts, i);
      StepIsPaidFor(net, r.states[i - 1], r.acts[i - 1], Deliveries(r.acts[..i - 1]));
    }
  }

  lemma OneMoreAct(acts: seq<Action>, i: nat)
    requires 0 < i <= |acts|
    ensures Deliveries(acts[..i]) == Deliveries(acts[..i - 1]) + if acts[i - 1].Deliver? then 1 else 0
  {
    assert acts[..i][..i - 1] == acts[..i - 1];
  }

  /** Termination: whatever the order, a run delivers no more packets than the weight of the
      initial payloads injected in it, and what it leaves in flight is paid for too. */
  lemma DeliveriesAreBounded(net: Network, r: Run)
    requires WellFormed(net) && IsRun(net, r) && First(r) == START
    ensures Deliveries(r.acts) + Total(|net|, Last(r).inflight) <= |Last(r).injected| * FloodWeight(|net|, |net|)
  {
    RunIsPaidFor(net, r, |r.acts|);
    assert r.acts[..|r.acts|] == r.acts;
  }

  lemma StartEarlier(net: Network, s: State, act: Action, r: Run)
    requires Enabled(net, s, act) && IsRun(net, r) && First(r) == Next(net, s, act)
    ensures IsRun(net, Run([act] + r.acts, [s] + r.states))
  {
    hide Next;
    var longer := Run([act] + r.acts, [s] + r.states);
    forall i | 0 <= i < |longer.acts| ensures StepOf(net, longer, i) {
      if i > 0 {
        assert StepOf(net, r, i - 1);
        assert longer.states[i] == r.states[i - 1] && longer.acts[i] == r.acts[i - 1];
        assert longer.states[i + 1] == r.states[i];
      } else {
        assert longer.states[0] == s && longer.acts[0] == act && longer.states[1] == First(r);
      }
    }
  }

  /** Progress: from every reachable state, deliveries alone lead to one where nothing is in flight. */
  lemma {:induction false} FloodsDieOut(net: Network, s: State) returns (r: Run)
    requires WellFormed(net) && Reachable(net, s)
    ensures IsRun(net, r) && First(r) == s && Last(r).inflight == [] && forall act :: act in r.acts ==> act.Deliver?
    decreases Total(|net|, s.inflight)
  {
    if s.inflight == [] {
      r := Run([], [s]);
    } else {
      EveryRunKeepsInv(net, s);
      DeliveryLowersTotal(net, s, 0);
      NextIsReachable(net, s, Deliver(0));
      var rest := FloodsDieOut(net, Next(net, s, Deliver(0)));
      StartEarlier(net, s, Deliver(0), rest);
      r := Run([Deliver(0)] + rest.acts, [s] + rest.states);
    }
  }
}
