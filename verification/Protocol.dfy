/** The packet handler both servers run, as a function of one station and one payload. */
module Protocol {
  import opened Text
  import opened Timetable

  type Name = string
  type Address = string

  datatype Payload = Payload(
    found: nat, hops: nat, current: nat,
    stations: seq<Name>, addresses: seq<Address>, routes: seq<string>, times: seq<string>,
    destination: Name, source: Name, startingTime: string)

  datatype Language = Python | C

  datatype Station = Station(
    name: Name, address: Address, language: Language, timetable: seq<Row>, neighbours: seq<Address>)

  datatype Packet = Packet(to: Address, payload: Payload)

  datatype Reaction = Reaction(sends: seq<Packet>, finished: Option<Payload>)

  const DOTS := "..."
  const NOT_FOUND := "NOTFOUND"

  predicate Shaped(p: Payload) {
    |p.stations| == |p.addresses| == |p.routes| == |p.times| == p.hops
  }

  // The two programs read a clock alike; the C one is undefined on any other time.
  predicate ReadableBy(language: Language, time: string) {
    if language == Python then Readable(time) else IsClock(time)
  }

  ghost predicate DeparturesReadable(st: Station) {
    forall r :: r in st.timetable ==> ReadableBy(st.language, r.departs)
  }

  // The rows a station's search can return: the C loop never reaches its last row.
  function Visible(st: Station): seq<Row> {
    match st.language
    case Python => st.timetable
    case C => AllButLast(st.timetable)
  }

  function Append(p: Payload, st: Station, route: string, time: string): Payload {
    p.(hops := p.hops + 1,
       current := if st.language == Python then p.current + 1 else p.hops + 1,
       stations := p.stations + [st.name], addresses := p.addresses + [st.address],
       routes := p.routes + [route], times := p.times + [time])
  }

  // ----- the three stages of the handler, each with what it indexes

  ghost predicate DestinationSafe(st: Station, p: Payload) {
    Shaped(p) && p.found <= 4
    && (p.destination == st.name && p.found == 0 && st.language == C ==> st.timetable != [])
  }

  function AtDestination(st: Station, p: Payload): Payload
    requires DestinationSafe(st, p)
  {
    if p.destination != st.name then p
    else if p.found == 0 then
      var placeholder := match st.language
        case Python => (DOTS, DOTS)
        case C => (st.timetable[0].route, st.timetable[0].arrives);
      Append(p, st, placeholder.0, placeholder.1).(found := 1)
    else if p.found == 2 then p.(found := 3)
    else p
  }

  ghost predicate SourceSafe(st: Station, p: Payload) {
    Shaped(p)
    && (p.source == st.name && p.found == 1 ==>
          p.hops >= 2 && p.current < p.hops && ReadableBy(st.language, p.startingTime) && DeparturesReadable(st))
  }

  function AtSource(st: Station, p: Payload): Payload
    requires SourceSafe(st, p)
  {
    if p.source != st.name then p
    else if p.found == 1 then
      var next := if st.language == Python then p.stations[1] else p.stations[p.current];
      var departure := match Search(Visible(st), next, p.startingTime)
        case None => TOO_LATE
        case Some(r) => r.departs;
      p.(found := 2, times := p.times[0 := departure])
    else if p.found == 3 then p.(found := 4)
    else p
  }

  ghost predicate ForwardSafe(st: Station, p: Payload) {
    Shaped(p)
    && (p.found in {1, 3} ==> 2 <= p.current <= p.hops + 1 && IsHostPort(p.addresses[p.current - 2]))
    && (p.found == 2 ==> 1 <= p.current < p.hops && IsHostPort(p.addresses[p.current])
                         && ReadableBy(st.language, p.times[p.current - 1]) && DeparturesReadable(st))
    && (p.found == 4 && st.language == Python ==> 1 <= p.hops && Readable(p.times[p.hops - 1]))
  }

  function Targets(neighbours: seq<Address>, visited: seq<Address>): seq<Address> {
    if neighbours == [] then []
    else if neighbours[0] in visited then Targets(neighbours[1..], visited)
    else [neighbours[0]] + Targets(neighbours[1..], visited)
  }

  lemma {:induction false} TargetsOfAppend(neighbours: seq<Address>, n: Address, visited: seq<Address>)
    ensures Targets(neighbours + [n], visited) ==
      Targets(neighbours, visited) + if n in visited then [] else [n]
  {
    if neighbours == [] {
      assert Targets([n][1..], visited) == [];
    } else {
      assert (neighbours + [n])[1..] == neighbours[1..] + [n];
      TargetsOfAppend(neighbours[1..], n, visited);
    }
  }

  function SendAll(targets: seq<Address>, p: Payload): (sends: seq<Packet>)
    ensures |sends| == |targets|
    ensures forall i :: 0 <= i < |targets| ==> sends[i] == Packet(targets[i], p)
  {
    seq(|targets|, i requires 0 <= i < |targets| => Packet(targets[i], p))
  }

  // Every station the flood has visited; the C loop leaves out the one doing the comparing.
  function Compared(st: Station, p: Payload): seq<Address> {
    if st.language == Python then p.addresses + [st.address] else p.addresses
  }

  // The payload a station has in hand when it is done: finished, on its way, or with nowhere to go.
  function InHand(st: Station, p: Payload): Payload
    requires ForwardSafe(st, p) && p.found <= 4
  {
    match p.found
    case 4 =>
      p
    case 2 =>
      var cur := p.current;
      var (time, route) := match Search(Visible(st), p.stations[cur], p.times[cur - 1])
        case None => (TOO_LATE, NOT_FOUND)
        case Some(r) => (r.arrives, r.route);
      p.(current := cur + 1, times := p.times[cur := time], routes := p.routes[cur := route])
    case 0 =>
      Append(p, st, DOTS, DOTS)
    case _ =>
      p.(current := p.current - 1)
  }

  function Forward(st: Station, p: Payload): Reaction
    requires ForwardSafe(st, p) && p.found <= 4
  {
    var q := InHand(st, p);
    match p.found
    case 4 => Reaction([], Some(q))
    case 0 => Reaction(SendAll(Targets(st.neighbours, Compared(st, p)), q), None)
    case _ => Reaction([Packet(q.addresses[q.current - 1], q)], None)
  }

  /** A station may handle a payload: no index out of range, no time or address that cannot be read,
      no payload of an unknown stage. What a finished payload meets next is in Finishes. */
  ghost predicate Safe(st: Station, p: Payload) {
    DestinationSafe(st, p)
    && SourceSafe(st, AtDestination(st, p))
    && ForwardSafe(st, AtSource(st, AtDestination(st, p)))
  }

  function Handle(st: Station, p: Payload): Reaction
    requires Safe(st, p)
  {
    Forward(st, AtSource(st, AtDestination(st, p)))
  }

  // The payload whose line the handler wrote, whether or not there was anyone to send it to.
  function Written(st: Station, p: Payload): Payload
    requires Safe(st, p)
  {
    InHand(st, AtSource(st, AtDestination(st, p)))
  }

  /** What is finished, and whatever is sent, is what was written. */
  lemma WrittenIsSent(st: Station, p: Payload)
    requires Safe(st, p)
    ensures var r := Handle(st, p);
            (forall s :: s in r.sends ==> s.payload == Written(st, p))
            && (r.finished.Some? ==> r.finished.value == Written(st, p))
            && (r.finished.Some? <==> Written(st, p).found == 4) && Shaped(Written(st, p))
  {
  }

  function LastTime(p: Payload): nat {
    if 1 <= p.hops <= |p.times| then Minutes(p.times[p.hops - 1]) else 0
  }

  /** What a station adds to a flooded payload: one more hop, with its own name and address, and dots for route and
      time, or, at a C destination, those of its first timetable row. At the destination the payload is found. */
  lemma HopIsAppended(st: Station, p: Payload)
    requires Safe(st, p) && p.found == 0
    ensures var here := p.destination == st.name;
            var q := if here then AtDestination(st, p) else Written(st, p);
            q.found == (if here then 1 else 0) && q.hops == p.hops + 1
            && q.current == (if st.language == Python then p.current + 1 else q.hops)
            && q.stations == p.stations + [st.name] && q.addresses == p.addresses + [st.address]
            && q.routes == p.routes + [if here && st.language == C then st.timetable[0].route else "..."]
            && q.times == p.times + [if here && st.language == C then st.timetable[0].arrives else "..."]
            && q.destination == p.destination && q.source == p.source && q.startingTime == p.startingTime
  {
  }

  /** Where a flooded payload goes on: to each neighbour that is not in its addresses, which in Python include those of
      this station by then. */
  lemma FloodGoesTo(st: Station, p: Payload, n: Address)
    requires Safe(st, p) && p.found == 0 && p.destination != st.name
    ensures Packet(n, Written(st, p)) in Handle(st, p).sends <==>
              n in st.neighbours && n !in p.addresses && (st.language == Python ==> n != st.address)
  {
    TargetsAreUnvisited(st.neighbours, Compared(st, p), n);
    var targets := Targets(st.neighbours, Compared(st, p));
    if n in targets {
      var i :| 0 <= i < |targets| && targets[i] == n;
      assert Handle(st, p).sends[i] == Packet(n, Written(st, p));
    }
  }

  lemma {:induction false} TargetsAreUnvisited(neighbours: seq<Address>, visited: seq<Address>, n: Address)
    ensures n in Targets(neighbours, visited) <==> n in neighbours && n !in visited
  {
    if neighbours != [] {
      TargetsAreUnvisited(neighbours[1..], visited, n);
    }
  }

  /** What the source writes into a found payload: the departure of the first row it can find for the second station, or
      in C for the one after current, or 99:99, and nothing else before the payload goes forward. */
  lemma SourceWrites(st: Station, p: Payload)
    requires SourceSafe(st, p) && p.source == st.name && p.found == 1
    ensures var next := p.stations[if st.language == Python then 1 else p.current];
            var i := FirstMatch(Visible(st), next, p.startingTime);
            AtSource(st, p) == p.(found := 2, times :=
              [if i < |Visible(st)| then Visible(st)[i].departs else "99:99"] + p.times[1..])
  {
  }

  // ----- the queries a station knows

  // answer is None until there is one; a C station never writes one.
  datatype Query = Query(destination: Name, startTime: string, answer: Option<Payload>)

  const MAX_QUERIES := 100

  predicate SameQuery(q: Query, destination: Name, startTime: string) {
    q.destination == destination && q.startTime == startTime
  }

  // The position of the first query for this journey, or |queries|.
  function FindQuery(queries: seq<Query>, destination: Name, startTime: string): (i: nat)
    ensures i <= |queries|
    ensures i < |queries| ==> SameQuery(queries[i], destination, startTime)
    ensures forall k :: 0 <= k < i ==> !SameQuery(queries[k], destination, startTime)
  {
    if queries == [] || SameQuery(queries[0], destination, startTime) then 0
    else 1 + FindQuery(queries[1..], destination, startTime)
  }

  predicate Holds(queries: seq<Query>, destination: Name, startTime: string) {
    FindQuery(queries, destination, startTime) < |queries|
  }

  // A full Python list drops the new query; a full C ring, oldest first, drops the oldest.
  function AddQuery(language: Language, queries: seq<Query>, q: Query): seq<Query> {
    if |queries| < MAX_QUERIES then queries + [q]
    else if language == Python then queries
    else queries[1..] + [q]
  }

  // A journey is asked for: an unknown query joins the list.
  function Register(language: Language, queries: seq<Query>, destination: Name, startTime: string): seq<Query> {
    if Holds(queries, destination, startTime) then queries
    else AddQuery(language, queries, Query(destination, startTime, None))
  }

  predicate Answered(queries: seq<Query>, destination: Name, startTime: string) {
    Holds(queries, destination, startTime)
    && queries[FindQuery(queries, destination, startTime)].answer.Some?
  }

  function InitialPayload(st: Station, destination: Name, startTime: string): Payload {
    Payload(0, 0, 0, [], [], [], [], destination, st.name, startTime)
  }

  // What a Python list becomes when a payload with found == 4 reaches its source.
  function Record(queries: seq<Query>, p: Payload): seq<Query> {
    var i := FindQuery(queries, p.destination, p.startingTime);
    if i == |queries| then AddQuery(Python, queries, Query(p.destination, p.startingTime, Some(p)))
    else if queries[i].answer == None || LastTime(queries[i].answer.value) > LastTime(p)
    then queries[i := queries[i].(answer := Some(p))]
    else queries
  }

  /** A finished payload whose query the station does not hold ends the program: server.py reads the answers
      of None, main.c follows a null pointer. */
  predicate Finishes(queries: seq<Query>, p: Payload) {
    Holds(queries, p.destination, p.startingTime)
  }

  // The queries a station holds afterwards: search_query hands C a copy, so its ring stays as it was.
  function Kept(language: Language, queries: seq<Query>, p: Payload): seq<Query> {
    if language == Python then Record(queries, p) else queries
  }

  // What the client it then finds waiting is told: the stored answer in Python, this payload in C.
  function Reply(language: Language, queries: seq<Query>, p: Payload): Payload
    requires Finishes(queries, p)
  {
    var i := FindQuery(queries, p.destination, p.startingTime);
    if language == C || queries[i].answer == None || LastTime(queries[i].answer.value) > LastTime(p) then p
    else queries[i].answer.value
  }
}
