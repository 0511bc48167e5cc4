/** How many queries a station can be asked before one of them ends its program. */
module Capacity {
  import opened Text
  import opened Protocol
  import opened Journey
  import opened Steps
  import opened Runs
  import opened Enumeration
  import opened Termination

  // What a list of queries is about: a destination and a starting time each.
  function Subjects(queries: seq<Query>): (j: seq<(Name, string)>)
    ensures |j| == |queries|
    ensures forall i :: 0 <= i < |queries| ==> j[i] == (queries[i].destination, queries[i].startTime)
  {
    seq(|queries|, i requires 0 <= i < |queries| => (queries[i].destination, queries[i].startTime))
  }

  function SubjectsAt(s: State, a: Address): seq<(Name, string)> {
    Subjects(QueriesOf(s, a))
  }

  lemma HoldsBySubject(queries: seq<Query>, destination: Name, startTime: string)
    ensures Holds(queries, destination, startTime) <==> (destination, startTime) in Subjects(queries)
  {
    var i := FindQuery(queries, destination, startTime);
    if (destination, startTime) in Subjects(queries) {
      var k :| 0 <= k < |queries| && Subjects(queries)[k] == (destination, startTime);
      assert SameQuery(queries[k], destination, startTime);
    }
  }

  // The list after one more query.
  function Enlisted(language: Language, j: seq<(Name, string)>, q: (Name, string)): seq<(Name, string)> {
    if q in j then j
    else if |j| < MAX_QUERIES then j + [q]
    else if language == Python then j
    else j[1..] + [q]
  }

  lemma RegisterEnlists(language: Language, queries: seq<Query>, destination: Name, startTime: string)
    ensures Subjects(Register(language, queries, destination, startTime))
         == Enlisted(language, Subjects(queries), (destination, startTime))
  {
    HoldsBySubject(queries, destination, startTime);
  }

  lemma RecordKeepsSubjects(queries: seq<Query>, p: Payload)
    requires Finishes(queries, p)
    ensures Subjects(Record(queries, p)) == Subjects(queries)
  {
  }

  lemma ReactKeepsSubjects(net: Network, s: State, a: Address, r: Reaction, b: Address)
    requires a in net
    ensures SubjectsAt(React(net, s, a, r), b) == SubjectsAt(s, b)
  {
    if r.finished.Some? && Finishes(QueriesOf(s, a), r.finished.value) {
      RecordKeepsSubjects(QueriesOf(s, a), r.finished.value);
    }
  }

  // Packets come and go, but what a station holds changes only when it is asked.
  lemma DeliveryKeepsSubjects(net: Network, s: State, i: nat, a: Address)
    requires i < |s.inflight|
    ensures var s' := DeliverOne(net, s, i);
            SubjectsAt(s', a) == SubjectsAt(s, a) && s'.asked == s.asked && s.down <= s'.down
  {
    hide React, Handle, Safe, Written;
    DeliveryLeaves(net, s, i);
    var pkt := s.inflight[i];
    if pkt.to in net && Safe(net[pkt.to], pkt.payload) {
      var rest := Wrote(s.(inflight := Without(s.inflight, i)), pkt.to, Written(net[pkt.to], pkt.payload));
      ReactKeepsSubjects(net, rest, pkt.to, Handle(net[pkt.to], pkt.payload), a);
    }
  }

  // ----- a hundred queries are safe

  function AskedAt(s: State, a: Address): set<Key> {
    set key | key in s.asked && key.src == a
  }

  ghost predicate HoldsAll(s: State, a: Address) {
    forall key :: key in s.asked && key.src == a ==> (key.destination, key.startingTime) in SubjectsAt(s, a)
  }

  ghost predicate ListFits(s: State, a: Address) {
    var j := SubjectsAt(s, a);
    |j| <= MAX_QUERIES && Distinct(j) && (forall q :: q in j ==> Key(a, q.0, q.1) in s.asked)
    && (HoldsAll(s, a) || |AskedAt(s, a)| > MAX_QUERIES)
    && (a in s.down ==> |AskedAt(s, a)| > MAX_QUERIES)
  }

  lemma ListIsNoLonger(s: State, a: Address)
    requires ListFits(s, a)
    ensures |SubjectsAt(s, a)| <= |AskedAt(s, a)|
  {
    var j := SubjectsAt(s, a);
    var keys := seq(|j|, i requires 0 <= i < |j| => Key(a, j[i].0, j[i].1));
    assert Distinct(keys) by {
      assert forall x, y :: 0 <= x < y < |j| ==> j[x] != j[y];
    }
    DistinctFits(keys, AskedAt(s, a));
  }

  lemma OneMoreAsked(s: State, s': State, key: Key, a: Address)
    requires s'.asked == s.asked + {key}
    ensures AskedAt(s', a) == AskedAt(s, a) + if key.src == a then {key} else {}
  {
  }

  lemma EnlistedFits(language: Language, j: seq<(Name, string)>, q: (Name, string))
    requires |j| <= MAX_QUERIES && Distinct(j)
    ensures var j' := Enlisted(language, j, q);
            |j'| <= MAX_QUERIES && Distinct(j') && (forall x :: x in j' ==> x in j || x == q)
            && (q in j || |j| < MAX_QUERIES ==> q in j' && forall x :: x in j ==> x in j')
  {
  }

  lemma EnlistHolds(net: Network, s: State, key: Key)
    requires key.src in net && ListFits(s, key.src)
    ensures var s' := Enlist(net, s, key);
            HoldsAll(s', key.src) || |AskedAt(s', key.src)| > MAX_QUERIES
    ensures |AskedAt(Enlist(net, s, key), key.src)| >= |AskedAt(s, key.src)|
  {
    var a, s' := key.src, Enlist(net, s, key);
    var j, q := SubjectsAt(s, a), (key.destination, key.startingTime);
    OneMoreAsked(s, s', key, a);
    RegisterEnlists(net[a].language, QueriesOf(s, a), key.destination, key.startingTime);
    EnlistedFits(net[a].language, j, q);
    ListIsNoLonger(s, a);
    if key in s.asked {
      assert AskedAt(s', a) == AskedAt(s, a);
    } else {
      assert |AskedAt(s', a)| == |AskedAt(s, a)| + 1;
    }
  }

  lemma EnlistFits(net: Network, s: State, key: Key, a: Address)
    requires key.src in net && ListFits(s, a)
    ensures ListFits(Enlist(net, s, key), a)
  {
    var s' := Enlist(net, s, key);
    OneMoreAsked(s, s', key, a);
    if a == key.src {
      EnlistHolds(net, s, key);
      RegisterEnlists(net[a].language, QueriesOf(s, a), key.destination, key.startingTime);
      EnlistedFits(net[a].language, SubjectsAt(s, a), (key.destination, key.startingTime));
    }
  }

  lemma DeliverFits(net: Network, s: State, i: nat, a: Address)
    requires WellFormed(net) && Reachable(net, s) && i < |s.inflight| && ListFits(s, a)
    ensures ListFits(DeliverOne(net, s, i), a)
  {
    var pkt := s.inflight[i];
    assert pkt in s.inflight;
    DeliveryKeepsSubjects(net, s, i, a);
    var s' := DeliverOne(net, s, i);
    assert AskedAt(s', a) == AskedAt(s, a);
    if pkt.to !in s.down {
      StationFailsIff(net, s, i);
      EveryRunKeepsInv(net, s);
      var key := KeyOf(pkt);
      HomeIsSource(net, key, pkt);
      HoldsBySubject(QueriesOf(s, pkt.to), pkt.payload.destination, pkt.payload.startingTime);
      assert key in s.asked;
    }
  }

  lemma InjectFits(net: Network, s: State, key: Key, a: Address)
    requires key.src in net
    ensures ListFits(s, a) ==> ListFits(Inject(net, s, key), a)
  {
    assert AskedAt(Inject(net, s, key), a) == AskedAt(s, a);
  }

  lemma StepFits(net: Network, s: State, act: Action, a: Address)
    requires WellFormed(net) && Reachable(net, s) && Enabled(net, s, act) && ListFits(s, a)
    ensures ListFits(Next(net, s, act), a)
  {
    hide ListFits, Enlist;
    match act
    case Deliver(i) =>
      DeliverFits(net, s, i, a);
    case _ =>
      EnlistFits(net, s, act.key, a);
      InjectFits(net, s, act.key, a);
      InjectFits(net, Enlist(net, s, act.key), act.key, a);
  }

  lemma {:induction false} RunFits(net: Network, r: Run, i: nat, a: Address)
    requires WellFormed(net) && IsRun(net, r) && First(r) == START && i < |r.states|
    ensures Reachable(net, r.states[i]) && ListFits(r.states[i], a)
  {
    if i > 0 {
      RunFits(net, r, i - 1, a);
      assert StepOf(net, r, i - 1);
      StepFits(net, r.states[i - 1], r.acts[i - 1], a);
      NextIsReachable(net, r.states[i - 1], r.acts[i - 1]);
    } else {
      StartIsReachable(net);
    }
  }

  lemma StartIsReachable(net: Network)
    ensures Reachable(net, START)
  {
    var r := Run([], [START]);
    assert IsRun(net, r) && First(r) == START && Last(r) == START;
  }

  /** A station asked at most a hundred different queries never goes down, and holds every one of them. */
  lemma HundredQueriesAreSafe(net: Network, s: State, a: Address)
    requires WellFormed(net) && Reachable(net, s) && |AskedAt(s, a)| <= MAX_QUERIES
    ensures a !in s.down
    ensures forall key :: key in s.asked && key.src == a ==> Registered(s, key)
  {
    var r :| IsRun(net, r) && First(r) == START && Last(r) == s;
    RunFits(net, r, |r.acts|, a);
    forall key | key in s.asked && key.src == a ensures Registered(s, key) {
      HoldsBySubject(QueriesOf(s, a), key.destination, key.startingTime);
    }
  }

  // ----- a query that is not held

  lemma UnheldGainsNothing(net: Network, s: State, act: Action, key: Key, q: seq<Address>)
    requires WellFormed(net) && Inv(net, s) && Enabled(net, s, act) && !Registered(s, key)
    ensures CameHome(Next(net, s, act).answers, key, q) == CameHome(s.answers, key, q)
  {
    hide DeliverOne, Inv, Came;
    if act.Deliver? {
      DeliveryAdds(net, s, act.i);
      var answers := DeliverOne(net, s, act.i).answers;
      if answers != s.answers {
        var p :| answers == s.answers + [p] && IsHomeOf(s, s.inflight[act.i], p);
        OneMoreCame(s.answers, p, key, q);
        CameForOne(p, KeyOf(s.inflight[act.i]), s.inflight[act.i].payload.addresses, key, q);
      }
    }
  }

  lemma CameForOne(p: Payload, key: Key, q: seq<Address>, other: Key, path: seq<Address>)
    requires Came(p, key, q)
    ensures Came(p, other, path) <==> other == key && path == q
  {
  }

  // In a run of deliveries what is held stays held, and what is not brings no answer home.
  lemma {:induction false} DeliveriesKeep(net: Network, r: Run, i: nat, key: Key, q: seq<Address>)
    requires WellFormed(net) && IsRun(net, r) && Reachable(net, First(r)) && i < |r.states|
    requires forall act :: act in r.acts ==> act.Deliver?
    ensures Reachable(net, r.states[i]) && r.states[i].asked == First(r).asked && First(r).down <= r.states[i].down
    ensures r.states[i].injected == First(r).injected
    ensures Registered(r.states[i], key) <==> Registered(First(r), key)
    ensures !Registered(First(r), key) ==> CameHome(r.states[i].answers, key, q) == CameHome(First(r).answers, key, q)
  {
    if i > 0 {
      DeliveriesKeep(net, r, i - 1, key, q);
      assert StepOf(net, r, i - 1);
      var s, act := r.states[i - 1], r.acts[i - 1];
      EveryRunKeepsInv(net, s);
      NextIsReachable(net, s, act);
      DeliveryKeepsSubjects(net, s, act.i, key.src);
      DeliveryLowersTotal(net, s, act.i);
      HoldsBySubject(QueriesOf(s, key.src), key.destination, key.startingTime);
      HoldsBySubject(QueriesOf(r.states[i], key.src), key.destination, key.startingTime);
      if !Registered(s, key) {
        UnheldGainsNothing(net, s, act, key, q);
      }
    }
  }

  // Some packet in flight will bring this route home.
  ghost predicate OnItsWay(net: Network, s: State, key: Key, q: seq<Address>) {
    ValidKey(net, key) && Route(net, key, q) && Leading(s.inflight, key, q) > 0
  }

  lemma {:induction false} LeadsSoOnItsWay(pkts: seq<Packet>, pkt: Packet, key: Key, q: seq<Address>)
    requires pkt in pkts && Leads(pkt, key, q)
    ensures Leading(pkts, key, q) > 0
  {
    if pkts[0] != pkt {
      LeadsSoOnItsWay(pkts[1..], pkt, key, q);
    }
  }

  lemma DrainStep(net: Network, s: State, act: Action, key: Key, q: seq<Address>)
    requires WellFormed(net) && Inv(net, s) && Enabled(net, s, act) && act.Deliver?
    requires ValidKey(net, key) && Route(net, key, q)
    ensures var s' := Next(net, s, act);
            Leading(s'.inflight, key, q) <= Leading(s.inflight, key, q) && s.down <= s'.down
            && (Up(s', q) ==> Account(s', key, q) == Account(s, key, q))
  {
    DeliverConserves(net, s, act.i, key, q);
    AnswersOnlyGrow(net, s, act.i, key, q);
  }

  // Deliveries put nothing on its way that was not.
  lemma {:induction false} DeliveriesDrain(net: Network, r: Run, i: nat, key: Key, q: seq<Address>)
    requires WellFormed(net) && IsRun(net, r) && Reachable(net, First(r)) && i < |r.states|
    requires forall act :: act in r.acts ==> act.Deliver?
    requires ValidKey(net, key) && Route(net, key, q)
    ensures Leading(r.states[i].inflight, key, q) <= Leading(First(r).inflight, key, q)
    ensures Up(r.states[i], q) ==> Account(r.states[i], key, q) == Account(First(r), key, q)
  {
    hide Next, Account, Inv, Route, ValidKey;
    if i > 0 {
      DeliveriesDrain(net, r, i - 1, key, q);
      DeliveriesKeep(net, r, i - 1, key, q);
      assert StepOf(net, r, i - 1);
      EveryRunKeepsInv(net, r.states[i - 1]);
      DrainStep(net, r.states[i - 1], r.acts[i - 1], key, q);
    }
  }

  lemma AnswersOnlyGrow(net: Network, s: State, i: nat, key: Key, q: seq<Address>)
    requires i < |s.inflight|
    ensures CameHome(s.answers, key, q) <= CameHome(DeliverOne(net, s, i).answers, key, q)
  {
    var s' := DeliverOne(net, s, i);
    assert s.answers <= s'.answers;
    CameHomeAppend(s.answers, s'.answers[|s.answers|..], key, q);
    assert s'.answers == s.answers + s'.answers[|s.answers|..];
  }

  // A packet that brings a station down is on its way home with a query that is not held.
  lemma FailingIsOnItsWay(net: Network, s: State, act: Action)
    requires WellFormed(net) && Reachable(net, s) && s.down == {} && Enabled(net, s, act) && act.Deliver?
    requires Next(net, s, act).down != {}
    ensures var pkt := s.inflight[act.i];
            OnItsWay(net, s, KeyOf(pkt), pkt.payload.addresses) && !Registered(s, KeyOf(pkt))
  {
    var pkt := s.inflight[act.i];
    assert pkt in s.inflight;
    EveryRunKeepsInv(net, s);
    StationFailsIff(net, s, act.i);
    HomeIsSource(net, KeyOf(pkt), pkt);
    LeadsSoOnItsWay(s.inflight, pkt, KeyOf(pkt), pkt.payload.addresses);
  }

  lemma {:induction false} FailureIsUnheld(net: Network, r: Run, i: nat)
    requires WellFormed(net) && IsRun(net, r) && Reachable(net, First(r)) && First(r).down == {} && i < |r.states|
    requires forall act :: act in r.acts ==> act.Deliver?
    requires forall key, q :: OnItsWay(net, First(r), key, q) ==> Registered(First(r), key)
    ensures r.states[i].down == {}
  {
    hide Next;
    if i > 0 {
      FailureIsUnheld(net, r, i - 1);
      assert StepOf(net, r, i - 1);
      var s, act := r.states[i - 1], r.acts[i - 1];
      var pkt := s.inflight[act.i];
      var key, q := KeyOf(pkt), pkt.payload.addresses;
      DeliveriesKeep(net, r, i - 1, key, q);
      if OnItsWay(net, s, key, q) {
        DeliveriesDrain(net, r, i - 1, key, q);
        assert OnItsWay(net, First(r), key, q);
      }
      if r.states[i].down != {} {
        FailingIsOnItsWay(net, s, act);
      }
    }
  }

  /** Exactly when what is in flight does no harm: however the packets of a state are delivered until none is left,
      every station is then still up if and only if each query with a route on its way home is held by its station. */
  lemma DeliveriesAreHarmlessIff(net: Network, r: Run)
    requires WellFormed(net) && IsRun(net, r) && Reachable(net, First(r)) && First(r).down == {}
    requires (forall act :: act in r.acts ==> act.Deliver?) && Last(r).inflight == []
    ensures Last(r).down == {} <==> forall key, q :: OnItsWay(net, First(r), key, q) ==> Registered(First(r), key)
  {
    if forall key, q :: OnItsWay(net, First(r), key, q) ==> Registered(First(r), key) {
      FailureIsUnheld(net, r, |r.acts|);
    }
    if Last(r).down == {} {
      forall key, q | OnItsWay(net, First(r), key, q) ensures Registered(First(r), key) {
        DeliveriesKeep(net, r, |r.acts|, key, q);
        DeliveriesDrain(net, r, |r.acts|, key, q);
      }
    }
  }

  // ----- a full Python list

  lemma FullListStep(net: Network, s: State, act: Action, a: Address)
    requires Enabled(net, s, act) && a in net && net[a].language == Python && |SubjectsAt(s, a)| >= MAX_QUERIES
    ensures SubjectsAt(Next(net, s, act), a) == SubjectsAt(s, a)
  {
    match act
    case Deliver(k) =>
      DeliveryKeepsSubjects(net, s, k, a);
    case _ =>
      RegisterEnlists(net[act.key.src].language, QueriesOf(s, act.key.src), act.key.destination, act.key.startingTime);
  }

  lemma {:induction false} FullListAt(net: Network, r: Run, a: Address, i: nat)
    requires IsRun(net, r) && i < |r.states|
    requires a in net && net[a].language == Python && |QueriesOf(First(r), a)| >= MAX_QUERIES
    ensures SubjectsAt(r.states[i], a) == SubjectsAt(First(r), a)
  {
    hide Next;
    if i > 0 {
      FullListAt(net, r, a, i - 1);
      assert StepOf(net, r, i - 1);
      FullListStep(net, r.states[i - 1], r.acts[i - 1], a);
    }
  }

  lemma {:induction false} UnheldAt(net: Network, r: Run, key: Key, q: seq<Address>, i: nat)
    requires WellFormed(net) && IsRun(net, r) && Inv(net, First(r)) && i < |r.states|
    requires forall k :: 0 <= k < |r.states| ==> !Registered(r.states[k], key)
    ensures CameHome(r.states[i].answers, key, q) == CameHome(First(r).answers, key, q)
  {
    hide Next, Registered, CameHome;
    if i > 0 {
      UnheldAt(net, r, key, q, i - 1);
      RunKeepsInv(net, r, i - 1);
      assert StepOf(net, r, i - 1);
      UnheldGainsNothing(net, r.states[i - 1], r.acts[i - 1], key, q);
    }
  }

  /** A full Python list never takes another query: one it lacks is never registered, whatever happens next, and no
      answer to it ever comes home; the first that would brings the station down (Runs.StationFailsIff). */
  lemma FullListStaysAsItIs(net: Network, r: Run, key: Key, q: seq<Address>)
    requires WellFormed(net) && IsRun(net, r) && Reachable(net, First(r))
    requires key.src in net && net[key.src].language == Python && |QueriesOf(First(r), key.src)| >= MAX_QUERIES
    ensures SubjectsAt(Last(r), key.src) == SubjectsAt(First(r), key.src)
    ensures Registered(Last(r), key) <==> Registered(First(r), key)
    ensures !Registered(First(r), key) ==> CameHome(Last(r).answers, key, q) == CameHome(First(r).answers, key, q)
  {
    EveryRunKeepsInv(net, First(r));
    forall k | 0 <= k < |r.states|
      ensures SubjectsAt(r.states[k], key.src) == SubjectsAt(First(r), key.src)
      ensures Registered(r.states[k], key) <==> Registered(First(r), key)
    {
      FullListAt(net, r, key.src, k);
      HoldsBySubject(QueriesOf(r.states[k], key.src), key.destination, key.startingTime);
      HoldsBySubject(QueriesOf(First(r), key.src), key.destination, key.startingTime);
    }
    if !Registered(First(r), key) {
      UnheldAt(net, r, key, q, |r.acts|);
    }
  }

  // ----- a C station

  ghost predicate NothingStored(queries: seq<Query>) {
    forall q :: q in queries ==> q.answer == None
  }

  lemma StepStoresNothing(net: Network, s: State, act: Action, a: Address)
    requires Enabled(net, s, act) && a in net && net[a].language == C && NothingStored(QueriesOf(s, a))
    ensures NothingStored(QueriesOf(Next(net, s, act), a))
  {
  }

  lemma {:induction false} NothingStoredAt(net: Network, r: Run, a: Address, i: nat)
    requires IsRun(net, r) && First(r) == START && i < |r.states| && a in net && net[a].language == C
    ensures NothingStored(QueriesOf(r.states[i], a))
  {
    hide Next;
    if i > 0 {
      NothingStoredAt(net, r, a, i - 1);
      assert StepOf(net, r, i - 1);
      StepStoresNothing(net, r.states[i - 1], r.acts[i - 1], a);
    }
  }

  /** search_query hands out a copy, so a C station never stores an answer, whatever comes home. */
  lemma CStationsStoreNothing(net: Network, s: State, key: Key)
    requires Reachable(net, s) && key.src in net && net[key.src].language == C && Registered(s, key)
    ensures StoredAnswer(s, key) == None
  {
    var r :| IsRun(net, r) && First(r) == START && Last(r) == s;
    NothingStoredAt(net, r, key.src, |r.acts|);
  }
}
