/** What a browser that waits is told: the first payload to come home, the earliest arrival or not. */
module Replies {
  import opened Text
  import opened Protocol
  import opened Journey
  import opened Steps
  import opened Runs
  import opened Enumeration
  import opened Termination
  import opened Itinerary
  import opened Capacity
  import opened Earliest

  // The first answer to a query that came home.
  function FirstHome(answers: seq<Payload>, key: Key): Option<Payload> {
    if answers == [] then None
    else if AnswerKey(answers[0]) == key then Some(answers[0])
    else FirstHome(answers[1..], key)
  }

  lemma {:induction false} FirstHomeAppend(answers: seq<Payload>, more: seq<Payload>, key: Key)
    ensures FirstHome(answers + more, key) ==
              if FirstHome(answers, key).Some? then FirstHome(answers, key) else FirstHome(more, key)
  {
    if answers == [] {
      assert answers + more == more;
    } else {
      assert (answers + more)[1..] == answers[1..] + more;
      FirstHomeAppend(answers[1..], more, key);
    }
  }

  lemma {:induction false} FirstHomeIsHome(answers: seq<Payload>, key: Key)
    ensures FirstHome(answers, key) == None <==> forall p :: p in answers ==> AnswerKey(p) != key
    ensures FirstHome(answers, key).Some? ==>
              FirstHome(answers, key).value in answers && AnswerKey(FirstHome(answers, key).value) == key
  {
    if answers != [] {
      FirstHomeIsHome(answers[1..], key);
      assert answers == [answers[0]] + answers[1..];
    }
  }

  // A packet whose delivery brings a payload home to a station that is up and holds its query.
  ghost predicate BringsHome(net: Network, s: State, i: nat, p: Payload) {
    i < |s.inflight| && s.inflight[i].to in net && s.inflight[i].to !in s.down
    && Safe(net[s.inflight[i].to], s.inflight[i].payload)
    && Handle(net[s.inflight[i].to], s.inflight[i].payload).finished == Some(p)
    && Finishes(QueriesOf(s, s.inflight[i].to), p)
  }

  // What a list replies is the best of what has come home, this payload included.
  lemma ListReplies(queries: seq<Query>, p: Payload, best: Option<Payload>)
    requires Finishes(queries, p) && Entry(queries, p.destination, p.startingTime, best, true)
    ensures Reply(Python, queries, p) == if best == None || LastTime(best.value) > LastTime(p) then p else best.value
  {
  }

  lemma ComesHome(net: Network, s: State, i: nat, p: Payload)
    requires WellFormed(net) && Reachable(net, s) && BringsHome(net, s, i, p)
    ensures DeliverOne(net, s, i).answers == s.answers + [p]
    ensures AnswerKey(p).src == s.inflight[i].to && IsAnswer(net, AnswerKey(p), p) && AnswerKey(p) in s.asked
  {
    EveryRunKeepsInv(net, s);
    var pkt := s.inflight[i];
    assert pkt in s.inflight;
    DeliveryKeepsLegitimacy(net, KeyOf(pkt), pkt);
    HomeIsSource(net, KeyOf(pkt), pkt);
    assert AnswerKey(p) == KeyOf(pkt);
  }

  /** When a payload comes home, a Python station tells the client it finds waiting the best that has come home for
      the query, a C station tells all of them this payload. So on both, the first who are told are told the first
      payload to come home. */
  lemma FirstIsTold(net: Network, s: State, i: nat, p: Payload)
    requires WellFormed(net) && Reachable(net, s) && BringsHome(net, s, i, p)
    ensures var key, answers := AnswerKey(p), DeliverOne(net, s, i).answers;
            var told := Reply(net[s.inflight[i].to].language, QueriesOf(s, s.inflight[i].to), p);
            key.src == s.inflight[i].to && answers == s.answers + [p]
            && Some(told) == (if net[key.src].language == Python then BestFor(answers, key) else Some(p))
            && (FirstHome(s.answers, key) == None ==> Some(told) == FirstHome(answers, key) == Some(p))
  {
    var key := AnswerKey(p);
    EveryRunKeepsInv(net, s);
    ComesHome(net, s, i, p);
    BestAfter(s.answers, p, key);
    if net[key.src].language == Python {
      assert RegistryEntry(s, key.src, p.destination, p.startingTime);
      ListReplies(QueriesOf(s, key.src), p, BestFor(s.answers, key));
    }
    BestIsMinimum(s.answers, key);
    FirstHomeIsHome(s.answers, key);
    FirstHomeAppend(s.answers, [p], key);
  }

  // ----- when the first is the earliest

  lemma AnswerIsInTime(net: Network, key: Key, p: Payload)
    requires Regular(net) && IsAnswer(net, key, p)
    ensures LastTime(p) <= NEVER && (p.times[p.hops - 1] == TOO_LATE ==> LastTime(p) == NEVER)
  {
    hide IsAnswer, TimeAt;
    TooLateIsNever();
    LastTimeOfAnswer(net, key, p);
    WrittenTime(net, key, p.addresses, p.hops - 1);
  }

  lemma EarliestIsFastest(net: Network, key: Key, p: Payload, other: Payload)
    requires Regular(net) && IsAnswer(net, key, p) && BeatsEveryTrip(net, key, p) && IsAnswer(net, key, other)
    ensures LastTime(p) <= LastTime(other)
  {
    AnswerIsInTime(net, key, p);
    AnswerIsInTime(net, key, other);
    if other.times[other.hops - 1] != TOO_LATE {
      var legs := AnswerIsATrip(net, key, other);
    }
  }

  /** Once a query has settled, the first payload that came home, and so what was told first, is the earliest
      arrival if and only if none that came home later is faster. */
  lemma FirstToldIsEarliestIff(net: Network, s: State, key: Key, p: Payload)
    requires WellFormed(net) && Regular(net) && ValidKey(net, key) && Settled(net, s, key)
    requires FirstHome(s.answers, key) == Some(p)
    ensures EarliestAnswer(net, key, p) <==> Fastest(s, key, p)
  {
    EveryRunKeepsInv(net, s);
    FirstHomeIsHome(s.answers, key);
    if Fastest(s, key, p) {
      FastestIsEarliest(net, s, key, p);
    }
    if EarliestAnswer(net, key, p) {
      forall other | other in s.answers && AnswerKey(other) == key ensures LastTime(p) <= LastTime(other) {
        EarliestIsFastest(net, key, p, other);
      }
    }
  }

  // ----- any route may be the first

  lemma {:induction false} FindLead(pkts: seq<Packet>, key: Key, q: seq<Address>) returns (i: nat)
    requires Leading(pkts, key, q) > 0
    ensures i < |pkts| && Leads(pkts[i], key, q)
  {
    if Leads(pkts[0], key, q) {
      i := 0;
    } else {
      i := FindLead(pkts[1..], key, q);
      i := i + 1;
    }
  }

  lemma {:induction false} WeighsNoMore(n: nat, pkts: seq<Packet>, i: nat)
    requires i < |pkts|
    ensures Weight(n, pkts[i]) <= Total(n, pkts)
  {
    if i > 0 {
      WeighsNoMore(n, pkts[1..], i - 1);
    }
  }

  // What a station that is up and holds the query makes of a packet that leads along the route.
  lemma LeadIsHandled(net: Network, s: State, i: nat, key: Key, q: seq<Address>)
    requires WellFormed(net) && Inv(net, s) && s.down == {} && ValidKey(net, key) && Route(net, key, q)
    requires i < |s.inflight| && Leads(s.inflight[i], key, q) && Registered(s, key)
    ensures var pkt, s' := s.inflight[i], DeliverOne(net, s, i);
            pkt.to in net && Safe(net[pkt.to], pkt.payload) && Legitimate(net, key, pkt) && s'.down == {}
            && var r := Handle(net[pkt.to], pkt.payload);
               if r.finished == None
               then s'.answers == s.answers && s'.inflight == Without(s.inflight, i) + r.sends
               else s'.answers == s.answers + [r.finished.value]
                    && s'.written == s.written[key.src := r.finished.value]
  {
    var pkt := s.inflight[i];
    assert pkt in s.inflight;
    DeliveryKeepsLegitimacy(net, key, pkt);
    HomeIsSource(net, key, pkt);
    WrittenIsSent(net[pkt.to], pkt.payload);
  }

  // One station further along the route, or home.
  lemma DriveOn(net: Network, s: State, i: nat, key: Key, q: seq<Address>) returns (j: nat)
    requires WellFormed(net) && Reachable(net, s) && s.down == {} && ValidKey(net, key) && Route(net, key, q)
    requires i < |s.inflight| && Leads(s.inflight[i], key, q) && Registered(s, key)
    ensures var s' := DeliverOne(net, s, i);
            s'.down == {}
            && if s'.answers == s.answers
               then j < |s'.inflight| && Leads(s'.inflight[j], key, q)
                    && Weight(|net|, s'.inflight[j]) < Weight(|net|, s.inflight[i])
               else s'.answers == s.answers + [AnswerPayload(net, key, q)]
                    && s'.written == s.written[key.src := AnswerPayload(net, key, q)]
  {
    hide DeliverOne, Handle, Safe;
    EveryRunKeepsInv(net, s);
    LeadIsHandled(net, s, i, key, q);
    var pkt := s.inflight[i];
    DeliveryConserves(net, key, pkt, key, q);
    DeliveryKeepsLegitimacy(net, key, pkt);
    HandlingLowersWeight(net, key, pkt);
    var r := Handle(net[pkt.to], pkt.payload);
    j := 0;
    if r.finished == None {
      j := FindLead(r.sends, key, q);
      WeighsNoMore(|net|, r.sends, j);
      j := |Without(s.inflight, i)| + j;
    }
  }

  lemma {:induction false} DriveHome(net: Network, s: State, i: nat, key: Key, q: seq<Address>) returns (t: State)
    requires WellFormed(net) && Reachable(net, s) && s.down == {} && ValidKey(net, key) && Route(net, key, q)
    requires i < |s.inflight| && Leads(s.inflight[i], key, q) && Registered(s, key)
    ensures Reachable(net, t) && t.asked == s.asked && t.injected == s.injected && t.down == {} && Registered(t, key)
    ensures t.answers == s.answers + [AnswerPayload(net, key, q)]
    ensures key.src in t.written && t.written[key.src] == AnswerPayload(net, key, q)
    decreases Weight(|net|, s.inflight[i])
  {
    var j := DriveOn(net, s, i, key, q);
    t := DeliverOne(net, s, i);
    NextIsReachable(net, s, Deliver(i));
    DeliveryKeepsSubjects(net, s, i, key.src);
    HoldsBySubject(QueriesOf(s, key.src), key.destination, key.startingTime);
    HoldsBySubject(QueriesOf(t, key.src), key.destination, key.startingTime);
    EveryRunKeepsInv(net, s);
    DeliveryLowersTotal(net, s, i);
    if t.answers == s.answers {
      t := DriveHome(net, t, j, key, q);
    }
  }

  lemma {:induction false} AnswersGrow(net: Network, r: Run, i: nat)
    requires IsRun(net, r) && i < |r.states| && forall act :: act in r.acts ==> act.Deliver?
    ensures First(r).answers <= r.states[i].answers
  {
    if i > 0 {
      AnswersGrow(net, r, i - 1);
      assert StepOf(net, r, i - 1);
    }
  }

  // One question, asked once, on an idle network.
  lemma AskOnce(net: Network, key: Key) returns (s: State)
    requires WellFormed(net) && ValidKey(net, key)
    ensures Reachable(net, s) && s.asked == {key} && s.injected == multiset{key} && s.answers == []
    ensures s.inflight == [InitialPacket(net, key)]
  {
    StartIsReachable(net);
    NextIsReachable(net, START, Ask(key));
    s := AskAt(net, START, key);
    if net[key.src].language == C {
      NextIsReachable(net, s, Resend(key));
      s := ResendAt(net, s, key);
    }
  }

  lemma OneQueryIsFew(s: State, key: Key)
    requires s.asked == {key}
    ensures FewAsked(s)
  {
    forall a ensures |AskedAt(s, a)| <= MAX_QUERIES {
      assert AskedAt(s, a) == if a == key.src then {key} else {};
    }
  }

  /** Whichever simple path it is, there is a run of one question, asked once, in which its answer is the first to
      come home, nothing goes down, and every other path comes home too. */
  lemma AnyRouteMayComeFirst(net: Network, key: Key, q: seq<Address>) returns (s: State)
    requires WellFormed(net) && ValidKey(net, key) && Route(net, key, q)
    ensures Settled(net, s, key) && s.asked == {key} && s.injected == multiset{key} && s.down == {}
    ensures FirstHome(s.answers, key) == Some(AnswerPayload(net, key, q))
  {
    s := AskOnce(net, key);
    OneQueryIsFew(s, key);
    HundredQueriesAreSafe(net, s, key.src);
    forall a ensures a !in s.down {
      HundredQueriesAreSafe(net, s, a);
    }
    InitialIsLegitimate(net, key);
    assert [] + [key.src] == [key.src] <= q;
    var t := DriveHome(net, s, 0, key, q);
    var r := FloodsDieOut(net, t);
    s := Last(r);
    AnswersGrow(net, r, |r.acts|);
    DeliveriesKeep(net, r, |r.acts|, key, q);
    OneQueryIsFew(s, key);
    FewAreSettled(net, s, key);
    assert AnswerKey(AnswerPayload(net, key, q)) == key;
    assert s.answers == t.answers + s.answers[|t.answers|..];
    FirstHomeAppend(t.answers, s.answers[|t.answers|..], key);
  }

  // Whatever the run, what is told first is the earliest.
  ghost predicate AlwaysToldTheEarliest(net: Network, key: Key) {
    forall s, p :: Settled(net, s, key) && FirstHome(s.answers, key) == Some(p) ==> EarliestAnswer(net, key, p)
  }

  ghost predicate AllRoutesTie(net: Network, key: Key) {
    forall q, other :: Route(net, key, q) && Route(net, key, other) ==>
      LastTime(AnswerPayload(net, key, q)) == LastTime(AnswerPayload(net, key, other))
  }

  lemma FirstIsNotSlower(net: Network, key: Key, q: seq<Address>, other: seq<Address>)
    requires WellFormed(net) && Regular(net) && ValidKey(net, key) && AlwaysToldTheEarliest(net, key)
    requires Route(net, key, q) && Route(net, key, other)
    ensures LastTime(AnswerPayload(net, key, q)) <= LastTime(AnswerPayload(net, key, other))
  {
    var s := AnyRouteMayComeFirst(net, key, q);
    EarliestIsFastest(net, key, AnswerPayload(net, key, q), AnswerPayload(net, key, other));
  }

  /** A browser can count on being told the earliest arrival, whatever the order of deliveries, if and only if all
      simple paths to its destination arrive at the same time. */
  lemma AlwaysToldTheEarliestIff(net: Network, key: Key)
    requires WellFormed(net) && Regular(net) && ValidKey(net, key)
    ensures AlwaysToldTheEarliest(net, key) <==> AllRoutesTie(net, key)
  {
    if AlwaysToldTheEarliest(net, key) {
      forall q, other | Route(net, key, q) && Route(net, key, other)
        ensures LastTime(AnswerPayload(net, key, q)) == LastTime(AnswerPayload(net, key, other))
      {
        FirstIsNotSlower(net, key, q, other);
        FirstIsNotSlower(net, key, other, q);
      }
    }
    if AllRoutesTie(net, key) {
      forall s, p | Settled(net, s, key) && FirstHome(s.answers, key) == Some(p)
        ensures EarliestAnswer(net, key, p)
      {
        EveryRunKeepsInv(net, s);
        FirstHomeIsHome(s.answers, key);
        forall other | other in s.answers && AnswerKey(other) == key ensures LastTime(p) <= LastTime(other) {
          assert IsAnswer(net, key, p) && IsAnswer(net, key, other);
        }
        FastestIsEarliest(net, s, key, p);
      }
    }
  }
}
