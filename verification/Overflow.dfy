/** A hundred queries is the most a station can bear: one more, and the answers end its program. */
module Overflow {
  import opened Text
  import opened Protocol
  import opened Journey
  import opened Runs
  import opened Enumeration
  import opened Termination
  import opened Capacity

  // Other times to ask for the same journey, all later than its own.
  function OtherTime(key: Key, k: nat): string {
    ClockOf(Minutes(key.startingTime) + 1 + k)
  }

  function OtherKey(key: Key, k: nat): Key {
    key.(startingTime := OtherTime(key, k))
  }

  function SubjectOf(key: Key): (Name, string) {
    (key.destination, key.startingTime)
  }

  function OtherSubjects(key: Key, n: nat): (j: seq<(Name, string)>)
    ensures |j| == n && forall k :: 0 <= k < n ==> j[k] == SubjectOf(OtherKey(key, k))
  {
    seq(n, k requires 0 <= k < n => SubjectOf(OtherKey(key, k)))
  }

  lemma OtherTimesDiffer(key: Key, k: nat)
    ensures OtherTime(key, k) != key.startingTime && forall m: nat :: m != k ==> OtherTime(key, k) != OtherTime(key, m)
  {
    ClockRoundTrip(Minutes(key.startingTime) + 1 + k);
    forall m: nat | m != k ensures OtherTime(key, k) != OtherTime(key, m) {
      ClockRoundTrip(Minutes(key.startingTime) + 1 + m);
    }
  }

  lemma OtherKeyIsValid(net: Network, key: Key, k: nat)
    requires ValidKey(net, key)
    ensures ValidKey(net, OtherKey(key, k))
  {
    ClockRoundTrip(Minutes(key.startingTime) + 1 + k);
    ClockIsToken(Minutes(key.startingTime) + 1 + k);
  }

  // Nothing has been delivered, and all that was asked was asked here.
  ghost predicate OnlyAsked(net: Network, s: State, a: Address, n: nat) {
    Reachable(net, s) && s.down == {} && s.answers == []
    && |s.asked| <= n && forall key :: key in s.asked ==> key.src == a
  }

  lemma AskOneMore(net: Network, s: State, key: Key, n: nat) returns (s': State)
    requires ValidKey(net, key) && OnlyAsked(net, s, key.src, n)
    ensures OnlyAsked(net, s', key.src, n + 1) && s'.asked == s.asked + {key}
    ensures SubjectsAt(s', key.src) == Enlisted(net[key.src].language, SubjectsAt(s, key.src), SubjectOf(key))
    ensures net[key.src].language == Python && !Registered(s, key) ==> s'.injected[key] > 0
  {
    s' := AskAt(net, s, key);
    NextIsReachable(net, s, Ask(key));
    RegisterEnlists(net[key.src].language, QueriesOf(s, key.src), key.destination, key.startingTime);
  }

  lemma OthersGrow(language: Language, key: Key, j: seq<(Name, string)>, n: nat)
    requires |j| + n < MAX_QUERIES && forall x :: x in j ==> x == SubjectOf(key)
    ensures Enlisted(language, j + OtherSubjects(key, n), SubjectOf(OtherKey(key, n))) == j + OtherSubjects(key, n + 1)
  {
    OtherTimesDiffer(key, n);
    var others, next := OtherSubjects(key, n), SubjectOf(OtherKey(key, n));
    assert next !in others by {
      assert forall k :: 0 <= k < n ==> others[k] != next;
    }
    assert j + OtherSubjects(key, n + 1) == j + others + [next];
  }

  // n of the other queries are asked, one after another.
  lemma {:induction false} Fill(net: Network, s: State, key: Key, m: nat, n: nat) returns (s': State)
    requires ValidKey(net, key) && OnlyAsked(net, s, key.src, m)
    requires |SubjectsAt(s, key.src)| + n <= MAX_QUERIES
    requires forall j :: j in SubjectsAt(s, key.src) ==> j == SubjectOf(key)
    ensures OnlyAsked(net, s', key.src, m + n) && s.asked <= s'.asked
    ensures SubjectsAt(s', key.src) == SubjectsAt(s, key.src) + OtherSubjects(key, n)
  {
    hide Enlisted, OnlyAsked, SubjectsAt;
    var j := SubjectsAt(s, key.src);
    if n > 0 {
      s' := Fill(net, s, key, m, n - 1);
      OtherKeyIsValid(net, key, n - 1);
      s' := AskOneMore(net, s', OtherKey(key, n - 1), m + n - 1);
      OthersGrow(net[key.src].language, key, j, n - 1);
    } else {
      s' := s;
      assert j + OtherSubjects(key, 0) == j;
    }
  }

  lemma NotHeld(s: State, key: Key)
    requires SubjectOf(key) !in SubjectsAt(s, key.src)
    ensures !Registered(s, key)
  {
    HoldsBySubject(QueriesOf(s, key.src), key.destination, key.startingTime);
  }

  lemma NotAmongOthers(key: Key, n: nat)
    ensures SubjectOf(key) !in OtherSubjects(key, n)
  {
    forall k | 0 <= k < n ensures OtherSubjects(key, n)[k] != SubjectOf(key) {
      OtherTimesDiffer(key, k);
    }
  }

  // A full Python list has no room for the query; its flood starts all the same.
  lemma CrowdedList(net: Network, key: Key) returns (s: State)
    requires ValidKey(net, key) && net[key.src].language == Python
    ensures OnlyAsked(net, s, key.src, MAX_QUERIES + 1) && !Registered(s, key) && s.injected[key] > 0
  {
    StartIsReachable(net);
    s := Fill(net, START, key, 0, MAX_QUERIES);
    NotAmongOthers(key, MAX_QUERIES);
    NotHeld(s, key);
    s := AskOneMore(net, s, key, MAX_QUERIES);
    NotHeld(s, key);
  }

  lemma AskFirst(net: Network, key: Key) returns (s: State)
    requires ValidKey(net, key)
    ensures OnlyAsked(net, s, key.src, 1) && key in s.asked && SubjectsAt(s, key.src) == [SubjectOf(key)]
  {
    StartIsReachable(net);
    s := AskOneMore(net, START, key, 0);
  }

  // A full C ring gives up its oldest query; the next timeout floods it all the same.
  lemma CrowdedRing(net: Network, key: Key) returns (s: State)
    requires ValidKey(net, key) && net[key.src].language == C
    ensures OnlyAsked(net, s, key.src, MAX_QUERIES + 1) && !Registered(s, key) && s.injected[key] > 0
  {
    var n := MAX_QUERIES - 1;
    s := AskFirst(net, key);
    s := Fill(net, s, key, 1, n);
    OtherKeyIsValid(net, key, n);
    s := DropOldest(net, s, key, n);
    NotAmongOthers(key, n);
    NotHeld(s, key);
    s := ResendIt(net, s, key);
  }

  lemma DropOldest(net: Network, s: State, key: Key, n: nat) returns (s': State)
    requires ValidKey(net, key) && net[key.src].language == C && OnlyAsked(net, s, key.src, MAX_QUERIES)
    requires n == MAX_QUERIES - 1 && SubjectsAt(s, key.src) == [SubjectOf(key)] + OtherSubjects(key, n)
    ensures OnlyAsked(net, s', key.src, MAX_QUERIES + 1) && s.asked <= s'.asked
    ensures SubjectsAt(s', key.src) == OtherSubjects(key, n) + [SubjectOf(OtherKey(key, n))]
    ensures SubjectOf(key) !in SubjectsAt(s', key.src)
  {
    OtherKeyIsValid(net, key, n);
    OtherTimesDiffer(key, n);
    NotAmongOthers(key, n);
    var others, next := OtherSubjects(key, n), SubjectOf(OtherKey(key, n));
    assert next !in others by {
      assert forall k :: 0 <= k < n ==> others[k] != next;
    }
    s' := AskOneMore(net, s, OtherKey(key, n), MAX_QUERIES);
  }

  lemma ResendIt(net: Network, s: State, key: Key) returns (s': State)
    requires ValidKey(net, key) && net[key.src].language == C && OnlyAsked(net, s, key.src, MAX_QUERIES + 1)
    requires key in s.asked && !Registered(s, key)
    ensures OnlyAsked(net, s', key.src, MAX_QUERIES + 1) && !Registered(s', key) && s'.injected[key] > 0
  {
    NextIsReachable(net, s, Resend(key));
    s' := ResendAt(net, s, key);
  }

  /** ... and a hundred is exact: wherever a station can reach another, 101 different queries, all asked of that
      station, can be followed by deliveries that leave nothing in flight and that station, alone, down. */
  lemma OneQueryTooMany(net: Network, key: Key, q: seq<Address>) returns (s: State)
    requires WellFormed(net) && ValidKey(net, key) && Route(net, key, q)
    ensures Reachable(net, s) && s.inflight == [] && s.down == {key.src}
    ensures |s.asked| == MAX_QUERIES + 1 && forall k :: k in s.asked ==> k.src == key.src
  {
    var crowded;
    if net[key.src].language == Python {
      crowded := CrowdedList(net, key);
    } else {
      crowded := CrowdedRing(net, key);
    }
    var r := FloodsDieOut(net, crowded);
    s := Last(r);
    DeliveriesKeep(net, r, |r.acts|, key, q);
    EveryRunConserves(net, s, key, q);
    assert s.down != {} by {
      assert CameHome(s.answers, key, q) == 0;
      if s.down == {} {
        assert Up(s, q);
      }
    }
    forall a | a in s.down ensures a == key.src {
      if a != key.src {
        assert AskedAt(s, a) == {};
        HundredQueriesAreSafe(net, s, a);
      }
    }
    assert AskedAt(s, key.src) == s.asked;
    if |s.asked| <= MAX_QUERIES {
      HundredQueriesAreSafe(net, s, key.src);
    }
  }
}
