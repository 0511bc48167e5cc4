/** Itineraries: which buses a passenger could take, and why the forward pass picks the best of them. */
module Itinerary {
  import opened Text
  import opened Timetable
  import opened Protocol
  import opened Journey

  ghost predicate RunsOneDay(net: Network, a: Address)
    requires a in net
  {
    OneDay(Visible(net[a]))
  }

  ghost predicate NoOvertaking(net: Network, a: Address)
    requires a in net
  {
    ArrivalsInOrder(Visible(net[a]))
  }

  ghost predicate Timely(net: Network) {
    forall a {:trigger RunsOneDay(net, a)} :: a in net ==> RunsOneDay(net, a)
  }

  // No bus on a link overtakes another, none arrives before it leaves, and all run within the day.
  ghost predicate Regular(net: Network) {
    Timely(net) && forall a {:trigger NoOvertaking(net, a)} :: a in net ==> NoOvertaking(net, a)
  }

  // All that is asked of one station.
  ghost predicate Fit(net: Network, a: Address)
    requires a in net
  {
    StationFits(net, a) && WritesTokens(net, a) && RunsOneDay(net, a) && NoOvertaking(net, a)
  }

  lemma FitIsRegular(net: Network)
    requires forall a {:trigger Fit(net, a)} :: a in net ==> Fit(net, a)
    requires forall a, b :: SameName(net, a, b) ==> a == b
    ensures WellFormed(net) && Regular(net)
  {
    forall a | a in net
      ensures StationFits(net, a) && WritesTokens(net, a) && RunsOneDay(net, a) && NoOvertaking(net, a)
    {
      assert Fit(net, a);
    }
  }

  // When a passenger is ready to board leg i, or has arrived when i == |legs|.
  function ReadyAt(legs: seq<Row>, start: nat, i: nat): nat
    requires i <= |legs|
  {
    if i == 0 then start else Minutes(legs[i - 1].arrives)
  }

  // Leg i is a bus from station i of the walk to the next, boarded no earlier than one is there.
  ghost predicate Boards(net: Network, w: seq<Address>, legs: seq<Row>, start: nat, i: nat)
    requires i < |legs| && |w| == |legs| + 1
  {
    LegOf(net, w[i], w[i + 1], legs[i]) && ReadyAt(legs, start, i) <= Minutes(legs[i].departs)
  }

  ghost predicate Ride(net: Network, w: seq<Address>, legs: seq<Row>, start: nat) {
    |w| == |legs| + 1
    && Within(net, w)
    && (forall i :: 0 <= i < |legs| ==> Boards(net, w, legs, start, i))
  }

  ghost predicate LegOf(net: Network, a: Address, b: Address, leg: Row) {
    a in net && b in net && b in net[a].neighbours
    && leg in Visible(net[a]) && leg.arrivalStation == net[b].name
  }

  // A walk from the source to the destination, which may pass a station more than once, and a bus for each leg.
  ghost predicate Trip(net: Network, key: Key, w: seq<Address>, legs: seq<Row>) {
    Ride(net, w, legs, Minutes(key.startingTime))
    && w[0] == key.src && net[w[|w| - 1]].name == key.destination
  }

  function ArrivalTime(key: Key, legs: seq<Row>): nat {
    ReadyAt(legs, Minutes(key.startingTime), |legs|)
  }

  // ----- the forward pass along one path

  /** times[0], routes[1] and times[1] describe one bus, even when the table is not sorted. */
  lemma FirstLegAgrees(net: Network, key: Key, q: seq<Address>)
    requires |q| >= 2 && Within(net, q)
    requires Search(Visible(net[q[0]]), net[q[1]].name, key.startingTime).Some?
    ensures var bus := Search(Visible(net[q[0]]), net[q[1]].name, key.startingTime).value;
            TimeAt(net, key, q, 0) == bus.departs && TimeAt(net, key, q, 1) == bus.arrives
            && RouteAt(net, key, q, 1) == bus.route
  {
    SearchAgain(Visible(net[q[0]]), net[q[1]].name, key.startingTime);
  }

  // What leg i of the path is chosen against: the starting time, or the arrival before.
  function AskedFrom(net: Network, key: Key, q: seq<Address>, i: nat): string
    requires 1 <= i < |q| && Within(net, q)
  {
    if i == 1 then key.startingTime else TimeAt(net, key, q, i - 1)
  }

  // The bus of leg i, in the words of one search.
  lemma OneSearchPerLeg(net: Network, key: Key, q: seq<Address>, i: nat)
    requires Timely(net) && 1 <= i < |q| && Within(net, q)
    ensures Found(net, key, q, i) == Search(Visible(net[q[i - 1]]), net[q[i]].name, AskedFrom(net, key, q, i))
  {
    if i == 1 {
      if Search(Visible(net[q[0]]), net[q[1]].name, key.startingTime).Some? {
        SearchAgain(Visible(net[q[0]]), net[q[1]].name, key.startingTime);
        assert TimeAt(net, key, q, 0) == Search(Visible(net[q[0]]), net[q[1]].name, key.startingTime).value.departs;
      } else {
        assert RunsOneDay(net, q[0]);
        NothingAfterTooLate(Visible(net[q[0]]), net[q[1]].name);
      }
    }
  }

  // An arrival the forward pass writes is a row's, or it is 99:99.
  lemma WrittenTime(net: Network, key: Key, q: seq<Address>, i: nat)
    requires Timely(net) && 1 <= i < |q| && Within(net, q)
    ensures Minutes(TimeAt(net, key, q, i)) <= NEVER
    ensures Minutes(TimeAt(net, key, q, i)) == NEVER <==> Found(net, key, q, i) == None
  {
    TooLateIsNever();
    assert RunsOneDay(net, q[i - 1]);
    if Found(net, key, q, i).Some? {
      SearchedRow(Visible(net[q[i - 1]]), net[q[i]].name, TimeAt(net, key, q, i - 1));
    }
  }

  lemma FailureGoesOn(net: Network, key: Key, q: seq<Address>, j: nat)
    requires Timely(net) && 1 <= j < |q| && Within(net, q) && TimeAt(net, key, q, j - 1) == TOO_LATE
    ensures TimeAt(net, key, q, j) == TOO_LATE && RouteAt(net, key, q, j) == NOT_FOUND
  {
    assert RunsOneDay(net, q[j - 1]);
    NothingAfterTooLate(Visible(net[q[j - 1]]), net[q[j]].name);
    assert Found(net, key, q, j) == None;
  }

  /** Once a time is 99:99, every later time is 99:99 and every later route is NOTFOUND. */
  lemma {:induction false} FailureIsAbsorbing(net: Network, key: Key, q: seq<Address>, i: nat, j: nat)
    requires Timely(net) && |q| >= 2 && i < j < |q| && Within(net, q)
    requires TimeAt(net, key, q, i) == TOO_LATE
    ensures TimeAt(net, key, q, j) == TOO_LATE && RouteAt(net, key, q, j) == NOT_FOUND
    decreases j
  {
    hide RouteAt;
    if i < j - 1 {
      FailureIsAbsorbing(net, key, q, i, j - 1);
    }
    FailureGoesOn(net, key, q, j);
  }

  lemma OneLegIsEarliest(net: Network, key: Key, q: seq<Address>, i: nat, leg: Row)
    requires Regular(net) && 1 <= i < |q| && Within(net, q)
    requires LegOf(net, q[i - 1], q[i], leg) && Minutes(AskedFrom(net, key, q, i)) <= Minutes(leg.departs)
    ensures Minutes(TimeAt(net, key, q, i)) <= Minutes(leg.arrives)
  {
    var rows := Visible(net[q[i - 1]]);
    assert NoOvertaking(net, q[i - 1]);
    assert Matches(leg, net[q[i]].name, AskedFrom(net, key, q, i));
    GreedyFromOrder(rows, net[q[i]].name, AskedFrom(net, key, q, i));
    OneSearchPerLeg(net, key, q, i);
  }

  /** The forward pass is optimal on its path: the time it writes at station i is no later than
      the arrival there of any choice of one bus per leg. */
  lemma {:induction false} ForwardPassIsEarliest(net: Network, key: Key, q: seq<Address>, legs: seq<Row>, i: nat)
    requires Regular(net) && 1 <= i < |q| && Within(net, q)
    requires Ride(net, q[..i + 1], legs, Minutes(key.startingTime))
    ensures Minutes(TimeAt(net, key, q, i)) <= ArrivalTime(key, legs)
  {
    var w := q[..i + 1];
    assert w[i - 1] == q[i - 1] && w[i] == q[i];
    assert Boards(net, w, legs, Minutes(key.startingTime), i - 1);
    if i > 1 {
      PrefixRide(net, w, legs, Minutes(key.startingTime));
      assert w[..|w| - 1] == q[..i];
      ForwardPassIsEarliest(net, key, q, legs[..i - 1], i - 1);
    }
    OneLegIsEarliest(net, key, q, i, legs[i - 1]);
  }

  lemma PrefixRide(net: Network, w: seq<Address>, legs: seq<Row>, start: nat)
    requires Ride(net, w, legs, start) && |legs| >= 1
    ensures Ride(net, w[..|w| - 1], legs[..|legs| - 1], start)
  {
    var w', legs' := w[..|w| - 1], legs[..|legs| - 1];
    forall i | 0 <= i < |legs'|
      ensures Boards(net, w', legs', start, i)
    {
      assert Boards(net, w, legs, start, i);
    }
  }

  lemma ExtendRide(net: Network, w: seq<Address>, legs: seq<Row>, start: nat, b: Address, leg: Row)
    requires Ride(net, w, legs, start) && LegOf(net, w[|w| - 1], b, leg)
    requires ReadyAt(legs, start, |legs|) <= Minutes(leg.departs)
    ensures Ride(net, w + [b], legs + [leg], start)
  {
    var w', legs' := w + [b], legs + [leg];
    forall i | 0 <= i < |legs'|
      ensures Boards(net, w', legs', start, i)
    {
      if i < |legs| {
        assert Boards(net, w, legs, start, i);
      }
    }
  }

  lemma LegTaken(net: Network, key: Key, q: seq<Address>, i: nat) returns (leg: Row)
    requires Timely(net) && Walk(net, q) && 1 <= i < |q| && Minutes(TimeAt(net, key, q, i)) < NEVER
    ensures LegOf(net, q[i - 1], q[i], leg) && Minutes(AskedFrom(net, key, q, i)) <= Minutes(leg.departs)
    ensures Found(net, key, q, i) == Some(leg)
  {
    WrittenTime(net, key, q, i);
    OneSearchPerLeg(net, key, q, i);
    leg := Found(net, key, q, i).value;
    SearchedRow(Visible(net[q[i - 1]]), net[q[i]].name, AskedFrom(net, key, q, i));
    assert Edge(net, q, i - 1);
  }

  lemma EarlierTimesReached(net: Network, key: Key, q: seq<Address>, i: nat)
    requires Timely(net) && 1 <= i < |q| - 1 && Within(net, q) && Minutes(TimeAt(net, key, q, i + 1)) < NEVER
    ensures Minutes(TimeAt(net, key, q, i)) < NEVER
  {
    WrittenTime(net, key, q, i);
    if Found(net, key, q, i) == None {
      FailureIsAbsorbing(net, key, q, i, i + 1);
      TooLateIsNever();
    }
  }

  // The buses a payload names: the rows found at each station of q, up to station i.
  ghost predicate Named(net: Network, key: Key, q: seq<Address>, legs: seq<Row>, i: nat)
    requires 1 <= i < |q| && Within(net, q)
  {
    |legs| == i && forall k :: 1 <= k <= i ==> Found(net, key, q, k) == Some(legs[k - 1])
  }

  /** ... and it is reached: a time short of 99:99 is the arrival of the buses the payload names. */
  lemma {:induction false} ForwardPassIsReached(net: Network, key: Key, q: seq<Address>, i: nat)
    returns (legs: seq<Row>)
    requires Timely(net) && Walk(net, q) && 1 <= i < |q|
    requires Minutes(TimeAt(net, key, q, i)) < NEVER
    ensures Ride(net, q[..i + 1], legs, Minutes(key.startingTime)) && Named(net, key, q, legs, i)
    ensures ArrivalTime(key, legs) == Minutes(TimeAt(net, key, q, i))
  {
    var leg := LegTaken(net, key, q, i);
    var before := [];
    if i > 1 {
      EarlierTimesReached(net, key, q, i - 1);
      before := ForwardPassIsReached(net, key, q, i - 1);
    }
    ExtendNamed(net, key, q, before, leg, i);
    legs := before + [leg];
  }

  lemma ExtendNamed(net: Network, key: Key, q: seq<Address>, before: seq<Row>, leg: Row, i: nat)
    requires 1 <= i < |q| && Within(net, q)
    requires LegOf(net, q[i - 1], q[i], leg) && Minutes(AskedFrom(net, key, q, i)) <= Minutes(leg.departs)
    requires Found(net, key, q, i) == Some(leg)
    requires if i == 1 then before == [] else
               Ride(net, q[..i], before, Minutes(key.startingTime)) && Named(net, key, q, before, i - 1)
    ensures var legs := before + [leg];
            Ride(net, q[..i + 1], legs, Minutes(key.startingTime)) && Named(net, key, q, legs, i)
            && ArrivalTime(key, legs) == Minutes(TimeAt(net, key, q, i))
  {
    if i > 1 {
      assert Found(net, key, q, i - 1) == Some(before[i - 2]);
    }
    ExtendRide(net, q[..i], before, Minutes(key.startingTime), q[i], leg);
    assert q[..i] + [q[i]] == q[..i + 1];
  }

  lemma WholePathIsEarliest(net: Network, key: Key, q: seq<Address>, legs: seq<Row>)
    requires Regular(net) && |q| >= 2 && Within(net, q) && Ride(net, q, legs, Minutes(key.startingTime))
    ensures Minutes(TimeAt(net, key, q, |q| - 1)) <= ArrivalTime(key, legs)
  {
    assert q[..|q|] == q;
    ForwardPassIsEarliest(net, key, q, legs, |q| - 1);
  }

  lemma WholePathIsReached(net: Network, key: Key, q: seq<Address>) returns (legs: seq<Row>)
    requires Timely(net) && Walk(net, q) && |q| >= 2 && TimeAt(net, key, q, |q| - 1) != TOO_LATE
    ensures Ride(net, q, legs, Minutes(key.startingTime)) && Named(net, key, q, legs, |q| - 1)
    ensures ArrivalTime(key, legs) == Minutes(TimeAt(net, key, q, |q| - 1)) < NEVER
  {
    WrittenTime(net, key, q, |q| - 1);
    legs := ForwardPassIsReached(net, key, q, |q| - 1);
    assert q[..|q|] == q;
  }

  // ----- loops are never worth riding

  lemma {:induction false} TimeNeverRunsBack(net: Network, w: seq<Address>, legs: seq<Row>, start: nat, i: nat, j: nat)
    requires Timely(net) && Ride(net, w, legs, start) && i <= j <= |legs|
    ensures ReadyAt(legs, start, i) <= ReadyAt(legs, start, j)
    decreases j
  {
    if i < j {
      TimeNeverRunsBack(net, w, legs, start, i, j - 1);
      assert Boards(net, w, legs, start, j - 1);
      assert RunsOneDay(net, w[j - 1]);
    }
  }

  lemma CutBoards(net: Network, w: seq<Address>, legs: seq<Row>, start: nat, i: nat, j: nat, k: nat)
    requires Ride(net, w, legs, start) && i < j < |w| && w[i] == w[j] && k + j - i < |legs|
    requires ReadyAt(legs, start, i) <= ReadyAt(legs, start, j)
    ensures Boards(net, w[..i] + w[j..], legs[..i] + legs[j..], start, k)
  {
    var w', legs' := w[..i] + w[j..], legs[..i] + legs[j..];
    var was := if k < i then k else k + j - i;
    assert Boards(net, w, legs, start, was);
    assert w'[k] == w[was] && w'[k + 1] == w[was + 1] && legs'[k] == legs[was];
  }

  lemma CutLoop(net: Network, w: seq<Address>, legs: seq<Row>, start: nat, i: nat, j: nat)
    requires Timely(net) && Ride(net, w, legs, start) && i < j < |w| && w[i] == w[j]
    ensures Ride(net, w[..i] + w[j..], legs[..i] + legs[j..], start)
    ensures ReadyAt(legs[..i] + legs[j..], start, |legs[..i] + legs[j..]|) <= ReadyAt(legs, start, |legs|)
  {
    TimeNeverRunsBack(net, w, legs, start, i, j);
    TimeNeverRunsBack(net, w, legs, start, i, |legs|);
    forall k | 0 <= k < |legs[..i] + legs[j..]| ensures Boards(net, w[..i] + w[j..], legs[..i] + legs[j..], start, k) {
      CutBoards(net, w, legs, start, i, j, k);
    }
  }

  /** Every trip, whatever walk it takes, is matched by one along a simple path that arrives no later. */
  lemma {:induction false} LoopsCanBeCut(net: Network, key: Key, w: seq<Address>, legs: seq<Row>)
    returns (q: seq<Address>, qlegs: seq<Row>)
    requires WellFormed(net) && Timely(net) && ValidKey(net, key) && Trip(net, key, w, legs)
    ensures Route(net, key, q) && Trip(net, key, q, qlegs) && ArrivalTime(key, qlegs) <= ArrivalTime(key, legs)
    decreases |w|
  {
    if Distinct(w) {
      forall i | 0 <= i < |w| - 1 ensures Edge(net, w, i) {
        assert Boards(net, w, legs, Minutes(key.startingTime), i);
      }
      q, qlegs := w, legs;
    } else {
      var i, j :| 0 <= i < j < |w| && w[i] == w[j];
      CutLoop(net, w, legs, Minutes(key.startingTime), i, j);
      q, qlegs := LoopsCanBeCut(net, key, w[..i] + w[j..], legs[..i] + legs[j..]);
    }
  }

  /** A destination that can be reached at all can be reached by a simple path. */
  lemma {:induction false} WalkGivesRoute(net: Network, key: Key, w: seq<Address>) returns (q: seq<Address>)
    requires WellFormed(net) && ValidKey(net, key) && Walk(net, w)
    requires w != [] && w[0] == key.src && net[w[|w| - 1]].name == key.destination
    ensures Route(net, key, q)
    decreases |w|
  {
    if Distinct(w) {
      q := w;
    } else {
      var i, j :| 0 <= i < j < |w| && w[i] == w[j];
      var w' := w[..i] + w[j..];
      forall k | 0 <= k < |w'| - 1 ensures Edge(net, w', k) {
        var was := if k < i then k else k + j - i;
        assert Edge(net, w, was);
      }
      q := WalkGivesRoute(net, key, w');
    }
  }
}
