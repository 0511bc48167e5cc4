/** What a station has stored once a query has gone quiet: the earliest arrival over the whole network. */
module Earliest {
  import opened Text
  import opened Timetable
  import opened Protocol
  import opened Journey
  import opened Runs
  import opened Enumeration
  import opened Itinerary
  import opened Capacity

  // No station on a route that answers the query is down.
  ghost predicate RoutesUp(net: Network, s: State, key: Key) {
    forall q :: Route(net, key, q) ==> Up(s, q)
  }

  // The query has been asked and all its packets have been delivered.
  ghost predicate Settled(net: Network, s: State, key: Key) {
    Reachable(net, s) && key in s.injected && Quiet(s, key) && RoutesUp(net, s, key)
  }

  ghost predicate Reaches(net: Network, key: Key, w: seq<Address>) {
    Walk(net, w) && w != [] && w[0] == key.src && net[w[|w| - 1]].name == key.destination
  }

  // The payload's times and routes are those of these buses: the first departure, then every arrival.
  ghost predicate Describes(p: Payload, legs: seq<Row>) {
    Shaped(p) && |legs| >= 1 && |legs| == p.hops - 1 && p.times[0] == legs[0].departs
    && forall k :: 0 <= k < |legs| ==> p.times[k + 1] == legs[k].arrives && p.routes[k + 1] == legs[k].route
  }

  ghost predicate BeatsEveryTrip(net: Network, key: Key, p: Payload) {
    forall w, legs :: Trip(net, key, w, legs) ==> LastTime(p) <= ArrivalTime(key, legs)
  }

  // p beats every trip over every walk; it says 99:99 just when there is no trip, and otherwise
  // the buses it describes are a trip along its stations that arrives when it says.
  ghost predicate EarliestAnswer(net: Network, key: Key, p: Payload) {
    IsAnswer(net, key, p)
    && BeatsEveryTrip(net, key, p)
    && (p.times[p.hops - 1] == TOO_LATE <==> forall w, legs :: !Trip(net, key, w, legs))
    && (p.times[p.hops - 1] != TOO_LATE ==>
          exists legs ::
            Trip(net, key, p.addresses, legs) && ArrivalTime(key, legs) == LastTime(p) && Describes(p, legs))
  }

  lemma LastTimeOfAnswer(net: Network, key: Key, p: Payload)
    requires IsAnswer(net, key, p)
    ensures Route(net, key, p.addresses) && Within(net, p.addresses) && p.hops == |p.addresses| == |p.times| >= 2
    ensures p.times[p.hops - 1] == TimeAt(net, key, p.addresses, p.hops - 1)
    ensures LastTime(p) == Minutes(TimeAt(net, key, p.addresses, p.hops - 1))
  {
  }

  // A trip arrives before 99:99.
  lemma TripIsInTime(net: Network, key: Key, w: seq<Address>, legs: seq<Row>)
    requires Regular(net) && ValidKey(net, key) && Trip(net, key, w, legs)
    ensures ArrivalTime(key, legs) < NEVER
  {
    assert |legs| >= 1;
    assert Boards(net, w, legs, Minutes(key.startingTime), |legs| - 1);
    assert RunsOneDay(net, w[|legs| - 1]);
  }

  // The answer for every route has come home.
  lemma RouteCameHome(net: Network, s: State, key: Key, q: seq<Address>) returns (p: Payload)
    requires WellFormed(net) && ValidKey(net, key) && Settled(net, s, key) && Route(net, key, q)
    ensures p in s.answers && IsAnswer(net, key, p) && AnswerKey(p) == key && p.addresses == q
  {
    EveryRunKeepsInv(net, s);
    assert Up(s, q);
    ExactEnumeration(net, s, key, q);
    CameHomeHas(s.answers, key, q);
    p :| p in s.answers && Came(p, key, q);
  }

  lemma AnswerBeatsRide(net: Network, key: Key, p: Payload, legs: seq<Row>)
    requires Regular(net) && IsAnswer(net, key, p) && Ride(net, p.addresses, legs, Minutes(key.startingTime))
    ensures LastTime(p) <= ArrivalTime(key, legs)
  {
    hide IsAnswer, TimeAt, Ride;
    LastTimeOfAnswer(net, key, p);
    WholePathIsEarliest(net, key, p.addresses, legs);
  }

  // Every trip is matched by an answer that came home.
  lemma TripIsMatched(net: Network, s: State, key: Key, w: seq<Address>, legs: seq<Row>) returns (p: Payload)
    requires WellFormed(net) && Regular(net) && ValidKey(net, key) && Settled(net, s, key) && Trip(net, key, w, legs)
    ensures p in s.answers && AnswerKey(p) == key && LastTime(p) <= ArrivalTime(key, legs)
  {
    var q, qlegs := LoopsCanBeCut(net, key, w, legs);
    p := RouteCameHome(net, s, key, q);
    AnswerBeatsRide(net, key, p, qlegs);
  }

  lemma AnswerIsATrip(net: Network, key: Key, p: Payload) returns (legs: seq<Row>)
    requires Regular(net) && IsAnswer(net, key, p) && p.times[p.hops - 1] != TOO_LATE
    ensures Trip(net, key, p.addresses, legs) && ArrivalTime(key, legs) == LastTime(p) < NEVER && Describes(p, legs)
  {
    hide IsAnswer, TimeAt, Describes, Named, Ride;
    LastTimeOfAnswer(net, key, p);
    legs := WholePathIsReached(net, key, p.addresses);
    NamedIsDescribed(net, key, p, legs);
  }

  lemma AnswerSaysWhatItDoes(net: Network, key: Key, p: Payload)
    requires Regular(net) && IsAnswer(net, key, p)
    ensures p.times[p.hops - 1] == TOO_LATE <==> LastTime(p) >= NEVER
    ensures p.times[p.hops - 1] != TOO_LATE ==>
              exists legs ::
                Trip(net, key, p.addresses, legs) && ArrivalTime(key, legs) == LastTime(p) && Describes(p, legs)
  {
    if p.times[p.hops - 1] != TOO_LATE {
      var legs := AnswerIsATrip(net, key, p);
    } else {
      TooLateIsNever();
    }
  }

  lemma NamedIsDescribed(net: Network, key: Key, p: Payload, legs: seq<Row>)
    requires Timely(net) && IsAnswer(net, key, p) && Named(net, key, p.addresses, legs, p.hops - 1)
    ensures Describes(p, legs)
  {
    var q := p.addresses;
    forall k | 0 <= k < |legs| ensures p.times[k + 1] == legs[k].arrives && p.routes[k + 1] == legs[k].route {
      assert Found(net, key, q, k + 1) == Some(legs[k + 1 - 1]);
      assert p.times[k + 1] == TimeAt(net, key, q, k + 1) && p.routes[k + 1] == RouteAt(net, key, q, k + 1);
    }
    assert Found(net, key, q, 1) == Some(legs[0]);
    OneSearchPerLeg(net, key, q, 1);
    FirstLegAgrees(net, key, q);
    assert p.times[0] == TimeAt(net, key, q, 0);
  }

  // No answer to this query that has come home is faster.
  ghost predicate Fastest(s: State, key: Key, p: Payload) {
    forall other :: other in s.answers && AnswerKey(other) == key ==> LastTime(p) <= LastTime(other)
  }

  lemma FastestIsEarliest(net: Network, s: State, key: Key, p: Payload)
    requires WellFormed(net) && Regular(net) && ValidKey(net, key) && Settled(net, s, key)
    requires Fastest(s, key, p) && IsAnswer(net, key, p)
    ensures EarliestAnswer(net, key, p)
  {
    forall w, legs | Trip(net, key, w, legs)
      ensures LastTime(p) <= ArrivalTime(key, legs) && LastTime(p) < NEVER
    {
      var home := TripIsMatched(net, s, key, w, legs);
      TripIsInTime(net, key, w, legs);
    }
    AnswerSaysWhatItDoes(net, key, p);
  }

  lemma UnansweredIsUnreachable(net: Network, s: State, key: Key, w: seq<Address>)
    requires WellFormed(net) && ValidKey(net, key) && Settled(net, s, key) && Reaches(net, key, w)
    ensures BestFor(s.answers, key).Some?
  {
    var q := WalkGivesRoute(net, key, w);
    var p := RouteCameHome(net, s, key, q);
    BestIsMinimum(s.answers, key);
  }

  /** Earliest arrival: once a query registered at a Python station has gone quiet, in whatever order its packets
      were delivered, and with no station on its routes down, the stored answer is the earliest over all trips on
      all walks, is 99:99 exactly when there is no trip, and is missing exactly when no walk leads there. */
  lemma EarliestArrival(net: Network, s: State, key: Key)
    requires WellFormed(net) && Regular(net) && ValidKey(net, key) && net[key.src].language == Python
    requires Settled(net, s, key) && Registered(s, key)
    ensures StoredAnswer(s, key) == None <==> forall w :: !Reaches(net, key, w)
    ensures StoredAnswer(s, key).Some? ==> EarliestAnswer(net, key, StoredAnswer(s, key).value)
  {
    EveryRunKeepsInv(net, s);
    StoredIsBest(net, s, key);
    BestIsMinimum(s.answers, key);
    var answer := BestFor(s.answers, key);
    if answer.Some? {
      FastestIsEarliest(net, s, key, answer.value);
      assert Reaches(net, key, answer.value.addresses);
    } else {
      forall w ensures !Reaches(net, key, w) {
        if Reaches(net, key, w) {
          UnansweredIsUnreachable(net, s, key, w);
          assert false;
        }
      }
    }
  }

  // No station has been asked more than a hundred different queries.
  ghost predicate FewAsked(s: State) {
    forall a :: |AskedAt(s, a)| <= MAX_QUERIES
  }

  lemma FewAreSettled(net: Network, s: State, key: Key)
    requires WellFormed(net) && Reachable(net, s) && FewAsked(s) && key in s.injected && Quiet(s, key)
    ensures s.down == {} && Settled(net, s, key) && Registered(s, key)
  {
    EveryRunKeepsInv(net, s);
    forall a ensures a !in s.down {
      HundredQueriesAreSafe(net, s, a);
    }
    HundredQueriesAreSafe(net, s, key.src);
    assert forall q :: Up(s, q);
  }

  /** The same from the questions alone: while no station has been asked more than a hundred different queries,
      nothing goes down, every query is registered, and each that has gone quiet has the earliest arrival. */
  lemma HundredQueriesAreAnswered(net: Network, s: State, key: Key)
    requires WellFormed(net) && Regular(net) && ValidKey(net, key) && net[key.src].language == Python
    requires Reachable(net, s) && FewAsked(s) && key in s.injected && Quiet(s, key)
    ensures s.down == {} && Registered(s, key)
    ensures StoredAnswer(s, key) == None <==> forall w :: !Reaches(net, key, w)
    ensures StoredAnswer(s, key).Some? ==> EarliestAnswer(net, key, StoredAnswer(s, key).value)
  {
    FewAreSettled(net, s, key);
    EarliestArrival(net, s, key);
  }

  /** At any moment a registered query's answer is the first of the fastest that have come home so far. */
  lemma StoredAnswerIsBestSoFar(net: Network, s: State, key: Key)
    requires WellFormed(net) && ValidKey(net, key) && net[key.src].language == Python
    requires Reachable(net, s) && Registered(s, key)
    ensures StoredAnswer(s, key) == None <==> forall p :: p in s.answers ==> AnswerKey(p) != key
    ensures StoredAnswer(s, key).Some? ==>
              var best := StoredAnswer(s, key).value;
              best in s.answers && AnswerKey(best) == key
              && forall p :: p in s.answers && AnswerKey(p) == key ==> LastTime(best) <= LastTime(p)
  {
    EveryRunKeepsInv(net, s);
    StoredIsBest(net, s, key);
    BestIsMinimum(s.answers, key);
  }

  // ----- which queries are registered

  /** A query that has been injected is in its Python station's list unless the list is full. */
  lemma RegisteredUnlessFull(net: Network, s: State, key: Key)
    requires WellFormed(net) && ValidKey(net, key) && net[key.src].language == Python
    requires Reachable(net, s) && key in s.injected
    ensures Registered(s, key) || |QueriesOf(s, key.src)| >= MAX_QUERIES
  {
    EveryRunKeepsInv(net, s);
    assert RegistryEntry(s, key.src, key.destination, key.startingTime);
  }

  // ----- mixed networks

  // The same stations, with programs that search the same rows: each may run either server.
  ghost predicate SameSearches(net: Network, other: Network) {
    net.Keys == other.Keys
    && forall a :: a in net ==>
      net[a].name == other[a].name && net[a].address == other[a].address
      && net[a].neighbours == other[a].neighbours && Visible(net[a]) == Visible(other[a])
  }

  lemma {:induction false} SameTimes(net: Network, other: Network, key: Key, q: seq<Address>, i: nat)
    requires SameSearches(net, other) && |q| >= 2 && i < |q| && Within(net, q)
    ensures Within(other, q) && TimeAt(net, key, q, i) == TimeAt(other, key, q, i)
  {
    if i > 0 {
      SameTimes(net, other, key, q, i - 1);
    }
  }

  /** The answer for a route is the same whichever program each of its stations runs: the placeholder
      a C destination leaves is always overwritten. */
  lemma SameAnswer(net: Network, other: Network, key: Key, q: seq<Address>)
    requires SameSearches(net, other) && key.src in net && |q| >= 2 && Within(net, q)
    ensures Within(other, q) && AnswerPayload(net, key, q) == AnswerPayload(other, key, q)
  {
    forall i | 0 <= i < |q| ensures TimeAt(net, key, q, i) == TimeAt(other, key, q, i) {
      SameTimes(net, other, key, q, i);
    }
    assert Names(net, q) == Names(other, q);
    assert TimesWritten(net, key, q, |q|) == TimesWritten(other, key, q, |q|);
    assert RoutesWritten(net, key, q, |q|) == RoutesWritten(other, key, q, |q|);
  }

  lemma SameRoutes(net: Network, other: Network, key: Key, q: seq<Address>)
    requires SameSearches(net, other)
    ensures Route(net, key, q) <==> Route(other, key, q)
  {
    if Within(net, q) || Within(other, q) {
      assert forall i :: 0 <= i < |q| - 1 ==> (Edge(net, q, i) <==> Edge(other, q, i));
    }
  }

  /** Mixed networks agree: when a query injected equally often has gone quiet in two networks that differ only in
      which program each station runs, the same answers have come home equally often, whatever the two runs, for
      every path none of whose stations is down. */
  lemma MixedNetworksAgree(net: Network, s: State, other: Network, t: State, key: Key, p: Payload)
    requires WellFormed(net) && WellFormed(other) && SameSearches(net, other)
    requires ValidKey(net, key) && ValidKey(other, key) && s.injected[key] == t.injected[key]
    requires Reachable(net, s) && Quiet(s, key) && Up(s, p.addresses)
    requires Reachable(other, t) && Quiet(t, key) && Up(t, p.addresses)
    ensures AnswerKey(p) == key ==> (p in s.answers <==> p in t.answers)
    ensures CameHome(s.answers, key, p.addresses) == CameHome(t.answers, key, p.addresses)
  {
    SameRoutes(net, other, key, p.addresses);
    ExactEnumeration(net, s, key, p.addresses);
    ExactEnumeration(other, t, key, p.addresses);
    if AnswerKey(p) == key {
      if p in s.answers {
        AnswerElsewhere(net, s, other, t, key, p);
      }
      if p in t.answers {
        AnswerElsewhere(other, t, net, s, key, p);
      }
    }
  }

  lemma {:induction false} CameHomeCounts(answers: seq<Payload>, p: Payload)
    requires p in answers
    ensures CameHome(answers, AnswerKey(p), p.addresses) >= 1
  {
    if answers[0] != p {
      CameHomeCounts(answers[1..], p);
    }
  }

  lemma AnswerElsewhere(net: Network, s: State, other: Network, t: State, key: Key, p: Payload)
    requires WellFormed(net) && WellFormed(other) && SameSearches(net, other) && ValidKey(net, key)
    requires Reachable(net, s) && Reachable(other, t) && p in s.answers && AnswerKey(p) == key
    requires CameHome(s.answers, key, p.addresses) == CameHome(t.answers, key, p.addresses)
    ensures p in t.answers
  {
    EveryRunKeepsInv(net, s);
    EveryRunKeepsInv(other, t);
    CameHomeCounts(s.answers, p);
    CameHomeHas(t.answers, key, p.addresses);
    var twin :| twin in t.answers && Came(twin, key, p.addresses);
    assert IsAnswer(net, AnswerKey(p), p) && IsAnswer(other, AnswerKey(twin), twin);
    SameAnswer(net, other, key, p.addresses);
  }
}
