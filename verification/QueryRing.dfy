/** client.c's ring of the last hundred queries, and how main.c uses it when a payload comes home. */
module QueryRing {
  import opened Text
  import opened Protocol
  import opened Codec
  import opened Clients

  const BLANK := QueryC("", "", "")

  class Ring {
    const slots: array<QueryC>
    var next: nat
    ghost var history: seq<QueryC>

    constructor ()
      ensures Valid() && history == [] && fresh(slots)
    {
      slots := new QueryC[MAX_QUERIES](_ => BLANK);
      next, history := 0, [];
    }

    ghost predicate Valid()
      reads this, slots
    {
      slots.Length == MAX_QUERIES && next == |history| % MAX_QUERIES
      && forall k :: 0 <= k < MAX_QUERIES ==> slots[k] == Slot(history, k)
    }

    method Add(q: QueryC)
      requires Valid()
      modifies this, slots
      ensures Valid() && history == old(history) + [q]
    {
      slots[next % MAX_QUERIES] := q;
      next := (next + 1) % MAX_QUERIES;
      ghost var before := history;
      history := history + [q];
      forall k | 0 <= k < MAX_QUERIES ensures slots[k] == Slot(history, k) {
        SlotAfterAdd(before, q, k);
      }
    }

    /** search_query: it finds a query exactly when one of the last hundred matches, or one of the blanks
        that fill the ring until then; what it returns is a copy of one that does. */
    method Search(destination: Name, startTime: string) returns (r: Option<QueryC>)
      requires Valid()
      ensures r == None <==>
              forall q :: q in Held(history) ==> !(q.destination == destination && q.startTime == startTime)
      ensures r.Some? ==>
              r.value in Held(history) && r.value.destination == destination && r.value.startTime == startTime
      ensures r.Some? ==> exists k :: 0 <= k < MAX_QUERIES && slots[k] == r.value
                            && forall m :: 0 <= m < k ==>
                              !(slots[m].destination == destination && slots[m].startTime == startTime)
    {
      var found := new QueryC[MAX_QUERIES](_ => BLANK);
      var count := 0;
      for i := 0 to MAX_QUERIES
        invariant Valid() && count <= i
        invariant count == 0 ==>
                    forall k :: 0 <= k < i ==>
                      !(slots[k].destination == destination && slots[k].startTime == startTime)
        invariant count > 0 ==> found[0].destination == destination && found[0].startTime == startTime
                                && exists k :: 0 <= k < i && slots[k] == found[0]
                                     && forall m :: 0 <= m < k ==>
                                       !(slots[m].destination == destination && slots[m].startTime == startTime)
      {
        if slots[i].destination == destination && slots[i].startTime == startTime {
          found[count] := slots[i];
          count := count + 1;
        }
      }
      SlotsHold(history);
      if count == 0 {
        return None;
      }
      return Some(found[0]);
    }
  }

  // The last hundred queries added, oldest first.
  function LastOf(history: seq<QueryC>): seq<QueryC> {
    if |history| <= MAX_QUERIES then history else history[|history| - MAX_QUERIES..]
  }

  // What slot k holds: the latest query whose number leaves remainder k, if there has been one.
  ghost function Slot(history: seq<QueryC>, k: nat): QueryC {
    if history == [] then BLANK
    else if (|history| - 1) % MAX_QUERIES == k then history[|history| - 1]
    else Slot(history[..|history| - 1], k)
  }

  lemma SlotAfterAdd(history: seq<QueryC>, q: QueryC, k: nat)
    ensures Slot(history + [q], k) == if |history| % MAX_QUERIES == k then q else Slot(history, k)
  {
    assert (history + [q])[..|history|] == history;
  }

  // The query in slot k is number m of the history.
  lemma {:induction false} SlotIs(history: seq<QueryC>, k: nat, m: nat)
    requires m < |history| <= m + MAX_QUERIES && m % MAX_QUERIES == k
    ensures Slot(history, k) == history[m]
    decreases |history|
  {
    if m < |history| - 1 {
      SlotIs(history[..|history| - 1], k, m);
    }
  }

  lemma {:induction false} SlotIsBlank(history: seq<QueryC>, k: nat)
    requires |history| <= k < MAX_QUERIES
    ensures Slot(history, k) == BLANK
  {
    if history != [] {
      SlotIsBlank(history[..|history| - 1], k);
    }
  }

  // The number of the last query put in slot k.
  function LatestAt(n: nat, k: nat): nat
    requires k < MAX_QUERIES && k < n
  {
    n - 1 - (n - 1 - k) % MAX_QUERIES
  }

  ghost predicate InSomeSlot(history: seq<QueryC>, q: QueryC) {
    exists k: nat :: k < MAX_QUERIES && Slot(history, k) == q
  }

  lemma RecentHasSlot(history: seq<QueryC>, q: QueryC) returns (k: nat)
    requires q in LastOf(history)
    ensures k < MAX_QUERIES && Slot(history, k) == q
  {
    var first := if |history| <= MAX_QUERIES then 0 else |history| - MAX_QUERIES;
    var i :| 0 <= i < |LastOf(history)| && LastOf(history)[i] == q;
    k := (first + i) % MAX_QUERIES;
    assert history[first + i] == q;
    SlotIs(history, k, first + i);
  }

  lemma SlotIsHeld(history: seq<QueryC>, k: nat)
    requires k < MAX_QUERIES
    ensures if k < |history| then Slot(history, k) in LastOf(history) else Slot(history, k) == BLANK
  {
    var n := |history|;
    if k < n {
      var first, m := if n <= MAX_QUERIES then 0 else n - MAX_QUERIES, LatestAt(n, k);
      SlotIs(history, k, m);
      assert LastOf(history)[m - first] == history[m];
    } else {
      SlotIsBlank(history, k);
    }
  }

  // What the ring holds: the last hundred queries, and a blank while there are fewer.
  function Held(history: seq<QueryC>): seq<QueryC> {
    LastOf(history) + if |history| < MAX_QUERIES then [BLANK] else []
  }

  lemma HeldIsAddedOrBlank(history: seq<QueryC>, q: QueryC)
    requires q in Held(history)
    ensures q in history || q == BLANK
  {
  }

  /** The slots hold exactly the last hundred queries and, before the ring is full, blanks. */
  lemma SlotsHold(history: seq<QueryC>)
    ensures forall k :: 0 <= k < MAX_QUERIES ==> Slot(history, k) in Held(history)
    ensures forall q :: q in Held(history) ==> InSomeSlot(history, q)
  {
    forall k | 0 <= k < MAX_QUERIES ensures Slot(history, k) in Held(history) {
      SlotIsHeld(history, k);
    }
    forall q | q in Held(history) ensures InSomeSlot(history, q) {
      if q in LastOf(history) {
        var k := RecentHasSlot(history, q);
      } else {
        SlotIsHeld(history, |history|);
      }
    }
  }

  // ----- the ring as the protocol sees it

  // The queries the ring holds, oldest first; none has an answer there.
  function Known(history: seq<QueryC>): (queries: seq<Query>)
    ensures |queries| == |LastOf(history)|
    ensures forall i :: 0 <= i < |queries| ==>
      queries[i] == Query(LastOf(history)[i].destination, LastOf(history)[i].startTime, None)
  {
    var recent := LastOf(history);
    seq(|recent|, i requires 0 <= i < |recent| => Query(recent[i].destination, recent[i].startTime, None))
  }

  ghost predicate InRing(history: seq<QueryC>, destination: Name, startTime: string) {
    exists q :: q in Held(history) && q.destination == destination && q.startTime == startTime
  }

  /** Adding to the ring is adding to the protocol's list, which drops its oldest query when it is full. */
  lemma RingIsList(history: seq<QueryC>, q: QueryC)
    ensures Known(history + [q]) == AddQuery(C, Known(history), Query(q.destination, q.startTime, None))
  {
    assert LastOf(history + [q]) ==
      if |history| < MAX_QUERIES then LastOf(history) + [q] else LastOf(history)[1..] + [q];
  }

  /** ... and a query with a name is found in the ring exactly when it is in that list. */
  lemma RingHoldsList(history: seq<QueryC>, destination: Name, startTime: string)
    requires destination != ""
    ensures InRing(history, destination, startTime) <==> Holds(Known(history), destination, startTime)
  {
    var i := FindQuery(Known(history), destination, startTime);
    if i < |LastOf(history)| {
      assert LastOf(history)[i] in Held(history);
    }
    if InRing(history, destination, startTime) {
      var q :| q in Held(history) && q.destination == destination && q.startTime == startTime;
      var k :| 0 <= k < |LastOf(history)| && LastOf(history)[k] == q;
      assert SameQuery(Known(history)[k], destination, startTime);
    }
  }

  // ----- a payload comes home to a C station

  ghost predicate NoAnswers(history: seq<QueryC>) {
    forall q :: q in history ==> q.answers == ""
  }

  // What the waiting clients are sent: the faster of the payload and the answer in the copy of the query.
  function ReplyC(q: QueryC, p: Payload): string
    requires q.answers == "" || Load(q.answers).Some?
  {
    if q.answers == "" || LastTime(Load(q.answers).value) > LastTime(p) then Craft(p) else q.answers
  }

  function QueryFor(p: Payload): QueryC {
    QueryC(p.destination, p.startingTime, "")
  }

  /** The C handler's last step. It follows a null pointer exactly when the query is not in the ring. Otherwise every
      client that waits for the journey is told and leaves the list. search_query hands out a copy, so nothing that is
      written to it lasts: the ring is left as it was, and while its answers are blank the clients are told whatever
      payload came home, the fastest or not. */
  method Finish(ring: Ring, clients: ClientList, p: Payload) returns (reply: Option<string>, answered: seq<int>)
    requires ring.Valid() && clients.Valid() && DistinctFds(clients.Contents())
    requires forall q :: q in ring.history ==> q.answers == "" || Load(q.answers).Some?
    modifies clients, clients.nodes
    ensures clients.Valid() && DistinctFds(clients.Contents())
    ensures reply == None <==> !InRing(ring.history, p.destination, p.startingTime)
    ensures reply == None ==> answered == [] && clients.Contents() == old(clients.Contents())
    ensures reply.Some? ==>
              clients.Contents() == Others(old(clients.Contents()), QueryFor(p))
              && answered == Askers(old(clients.Contents()), QueryFor(p))
              && exists q :: q in Held(ring.history) && SameJourney(q, QueryFor(p)) && reply.value == ReplyC(q, p)
    ensures NoAnswers(ring.history) && reply.Some? ==> reply.value == Craft(p)
  {
    hide Held;
    var found := ring.Search(p.destination, p.startingTime);
    if found == None {
      return None, [];
    }
    var q := found.value;
    HeldIsAddedOrBlank(ring.history, q);
    reply := Some(Craft(p));
    if q.answers != "" && LastTime(Load(q.answers).value) <= LastTime(p) {
      reply := Some(q.answers);
    }
    answered := TellAll(clients, q, QueryFor(p));
  }

  // Only the journey of the query matters for who is told.
  method TellAll(clients: ClientList, q: QueryC, asked: QueryC) returns (answered: seq<int>)
    requires clients.Valid() && DistinctFds(clients.Contents()) && SameJourney(q, asked)
    modifies clients, clients.nodes
    ensures clients.Valid() && DistinctFds(clients.Contents())
    ensures clients.Contents() == Others(old(clients.Contents()), asked)
    ensures answered == Askers(old(clients.Contents()), asked)
  {
    OthersAreDistinct(clients.Contents(), q);
    SameAskers(clients.Contents(), q, asked);
    answered := clients.Drain(q);
  }

  // Only the journey of the query matters, not its answer.
  lemma {:induction false} SameAskers(clients: seq<Client>, q: QueryC, r: QueryC)
    requires SameJourney(q, r)
    ensures Others(clients, q) == Others(clients, r) && Askers(clients, q) == Askers(clients, r)
  {
    if clients != [] {
      SameAskers(clients[1..], q, r);
    }
  }

  lemma {:induction false} OthersAreDistinct(clients: seq<Client>, q: QueryC)
    requires DistinctFds(clients)
    ensures DistinctFds(Others(clients, q)) && forall c :: c in Others(clients, q) ==> c in clients
  {
    if clients != [] {
      FirstIsDistinct(clients);
      OthersAreDistinct(clients[1..], q);
      DistinctCons(clients[0], Others(clients[1..], q));
    }
  }
}
