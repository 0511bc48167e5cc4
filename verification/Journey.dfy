/** Where a payload can be and what it then holds: one closed form for every stage of a journey. */
module Journey {
  import opened Text
  import opened Timetable
  import opened Protocol

  type Network = map<Address, Station>

  // A query: the asking station, the name asked for and the starting time.
  datatype Key = Key(src: Address, destination: Name, startingTime: string)

  ghost predicate Distinct<T>(s: seq<T>) {
    forall i, j :: 0 <= i < j < |s| ==> s[i] != s[j]
  }

  ghost predicate SameName(net: Network, a: Address, b: Address) {
    a in net && b in net && net[a].name == net[b].name
  }

  ghost predicate CanRead(net: Network, a: Address, time: string) {
    a in net ==> ReadableBy(net[a].language, time)
  }

  // A time that travels must be readable wherever it may come.
  ghost predicate ReadableIn(net: Network, time: string) {
    forall a {:trigger CanRead(net, a, time)} :: CanRead(net, a, time)
  }

  // A station is where its address says, names neighbours that exist by the addresses they use
  // themselves, each once and never itself, and has a timetable that can be read.
  ghost predicate StationFits(net: Network, a: Address)
    requires a in net
  {
    var st := net[a];
    st.address == a && IsHostPort(a) && Distinct(st.neighbours)
    && (forall n :: n in st.neighbours ==> n in net && n != a)
    && (st.language == C ==> st.timetable != [])
    && DeparturesReadable(st) && forall r :: r in st.timetable ==> ReadableIn(net, r.arrives)
  }

  // What a station writes into a payload holds no white space and no semicolon.
  ghost predicate WritesTokens(net: Network, a: Address)
    requires a in net
  {
    var st := net[a];
    IsToken(a) && IsToken(st.name)
    && forall r :: r in st.timetable ==> IsToken(r.departs) && IsToken(r.route) && IsToken(r.arrives)
  }

  ghost predicate OfTokens(net: Network) {
    forall a {:trigger WritesTokens(net, a)} :: a in net ==> WritesTokens(net, a)
  }

  ghost predicate WellFormed(net: Network) {
    (forall a {:trigger StationFits(net, a)} :: a in net ==> StationFits(net, a))
    && OfTokens(net)
    && (forall a, b :: SameName(net, a, b) ==> a == b)
  }

  // A query asks a station for another name, and for a time it can read; both survive the wire.
  ghost predicate ValidKey(net: Network, key: Key) {
    key.src in net && key.destination != net[key.src].name && ReadableBy(net[key.src].language, key.startingTime)
    && IsToken(key.destination) && IsToken(key.startingTime)
  }

  // ----- paths

  ghost predicate Edge(net: Network, p: seq<Address>, i: nat) {
    i + 1 < |p| && p[i] in net && p[i + 1] in net[p[i]].neighbours
  }

  ghost predicate Within(net: Network, p: seq<Address>) {
    forall i :: 0 <= i < |p| ==> p[i] in net
  }

  ghost predicate Walk(net: Network, p: seq<Address>) {
    Within(net, p)
    && (forall i :: 0 <= i < |p| - 1 ==> Edge(net, p, i))
  }

  // A simple path from the source to the station asked for.
  ghost predicate Route(net: Network, key: Key, q: seq<Address>) {
    |q| >= 2 && Walk(net, q) && Distinct(q) && q[0] == key.src && net[q[|q| - 1]].name == key.destination
  }

  // What a flooded payload has visited before it reaches v.
  ghost predicate Partial(net: Network, key: Key, visited: seq<Address>, v: Address) {
    var p := visited + [v];
    Walk(net, p) && Distinct(p) && p[0] == key.src && v in net
    && forall i :: 0 <= i < |visited| ==> visited[i] in net && net[visited[i]].name != key.destination
  }

  function Names(net: Network, p: seq<Address>): (names: seq<Name>)
    requires Within(net, p)
    ensures |names| == |p|
    ensures forall i :: 0 <= i < |p| ==> names[i] == net[p[i]].name
  {
    seq(|p|, i requires 0 <= i < |p| => net[p[i]].name)
  }

  // ----- what the forward pass writes

  // The time at station i of q: the first departure, then arrivals.
  function TimeAt(net: Network, key: Key, q: seq<Address>, i: nat): string
    requires |q| >= 2 && i < |q| && Within(net, q)
  {
    if i == 0 then
      match Search(Visible(net[q[0]]), net[q[1]].name, key.startingTime)
      case None => TOO_LATE
      case Some(r) => r.departs
    else
      match Search(Visible(net[q[i - 1]]), net[q[i]].name, TimeAt(net, key, q, i - 1))
      case None => TOO_LATE
      case Some(r) => r.arrives
  }

  // The bus station i - 1 finds for the leg to station i.
  function Found(net: Network, key: Key, q: seq<Address>, i: nat): Option<Row>
    requires 1 <= i < |q| && Within(net, q)
  {
    Search(Visible(net[q[i - 1]]), net[q[i]].name, TimeAt(net, key, q, i - 1))
  }

  function RouteAt(net: Network, key: Key, q: seq<Address>, i: nat): string
    requires 1 <= i < |q| && Within(net, q)
  {
    match Found(net, key, q, i)
    case None => NOT_FOUND
    case Some(r) => r.route
  }

  // What station i of q leaves in its slot before the forward pass: only a C destination leaves more than dots.
  function HeldTime(net: Network, q: seq<Address>, i: nat): string
    requires i < |q| && Within(net, q)
  {
    var st := net[q[i]];
    if i == |q| - 1 && st.language == C && st.timetable != [] then st.timetable[0].arrives else DOTS
  }

  function HeldRoute(net: Network, q: seq<Address>, i: nat): string
    requires i < |q| && Within(net, q)
  {
    var st := net[q[i]];
    if i == |q| - 1 && st.language == C && st.timetable != [] then st.timetable[0].route else DOTS
  }

  function TimesWritten(net: Network, key: Key, q: seq<Address>, filled: nat): (t: seq<string>)
    requires |q| >= 2 && Within(net, q)
    ensures |t| == |q|
    ensures forall i :: 0 <= i < |q| ==> t[i] == if i < filled then TimeAt(net, key, q, i) else HeldTime(net, q, i)
  {
    seq(|q|, i requires 0 <= i < |q| => if i < filled then TimeAt(net, key, q, i) else HeldTime(net, q, i))
  }

  function RoutesWritten(net: Network, key: Key, q: seq<Address>, filled: nat): (r: seq<string>)
    requires |q| >= 2 && Within(net, q)
    ensures |r| == |q|
    ensures forall i :: 0 <= i < |q| ==>
      r[i] == if 1 <= i < filled then RouteAt(net, key, q, i) else HeldRoute(net, q, i)
  {
    seq(|q|, i requires 0 <= i < |q| => if 1 <= i < filled then RouteAt(net, key, q, i) else HeldRoute(net, q, i))
  }

  function Dots(n: nat): (d: seq<string>)
    ensures |d| == n && forall i :: 0 <= i < n ==> d[i] == DOTS
  {
    seq(n, i => DOTS)
  }

  // ----- payloads in closed form

  function FloodPayload(net: Network, key: Key, p: seq<Address>): Payload
    requires key.src in net && Within(net, p)
  {
    Payload(0, |p|, |p|, Names(net, p), p, Dots(|p|), Dots(|p|), key.destination, net[key.src].name, key.startingTime)
  }

  function JourneyPayload(net: Network, key: Key, q: seq<Address>, found: nat, k: nat, filled: nat): Payload
    requires key.src in net && |q| >= 2 && Within(net, q)
  {
    Payload(found, |q|, k + 1, Names(net, q), q, RoutesWritten(net, key, q, filled), TimesWritten(net, key, q, filled),
            key.destination, net[key.src].name, key.startingTime)
  }

  // The answer a route earns: nothing in it depends on which program runs at the destination.
  function AnswerPayload(net: Network, key: Key, q: seq<Address>): Payload
    requires key.src in net && |q| >= 2 && Within(net, q)
  {
    JourneyPayload(net, key, q, 4, 0, |q|)
  }

  // ----- packets

  function Origin(pkt: Packet): Address {
    if pkt.payload.addresses == [] then pkt.to else pkt.payload.addresses[0]
  }

  function KeyOf(pkt: Packet): Key {
    Key(Origin(pkt), pkt.payload.destination, pkt.payload.startingTime)
  }

  ghost predicate Flooding(net: Network, key: Key, pkt: Packet) {
    var p := pkt.payload.addresses;
    Partial(net, key, p, pkt.to)
    && Within(net, p)
    && pkt.payload == FloodPayload(net, key, p)
  }

  // The stations a stage visits: the forward walk all but the source, the others all but the destination.
  predicate Visits(found: nat, k: int, n: nat) {
    1 <= found <= 3 && if found == 2 then 1 <= k < n else 0 <= k < n - 1
  }

  // How many times are written when station k is reached.
  function Filled(found: nat, k: nat, n: nat): nat {
    if found == 1 then 0 else if found == 2 then k + 1 else n
  }

  function PacketAt(net: Network, key: Key, q: seq<Address>, found: nat, k: nat): Packet
    requires key.src in net && |q| >= 2 && k < |q| && Within(net, q)
  {
    Packet(q[k], JourneyPayload(net, key, q, found, k, Filled(found, k, |q|)))
  }

  // A payload that knows its route is addressed to the station it counts as current.
  ghost predicate Travelling(net: Network, key: Key, pkt: Packet) {
    var q, k := pkt.payload.addresses, pkt.payload.current - 1;
    key.src in net && Route(net, key, q) && Within(net, q)
    && Visits(pkt.payload.found, k, |q|)
    && pkt == PacketAt(net, key, q, pkt.payload.found, k)
  }

  ghost predicate Legitimate(net: Network, key: Key, pkt: Packet) {
    ValidKey(net, key) && (Flooding(net, key, pkt) || Travelling(net, key, pkt))
  }

  lemma LegitimateKey(net: Network, key: Key, pkt: Packet)
    requires Legitimate(net, key, pkt)
    ensures KeyOf(pkt) == key && pkt.to in net
  {
    if Flooding(net, key, pkt) {
      var p := pkt.payload.addresses + [pkt.to];
      assert p[|p| - 1] == pkt.to;
    }
  }

  lemma TooLateIsReadable(net: Network)
    ensures ReadableIn(net, TOO_LATE) && IsClock(TOO_LATE)
  {
    TooLateIsNever();
    assert forall a :: CanRead(net, a, TOO_LATE);
  }

  lemma FoundRowReadable(net: Network, a: Address, destination: string, earliest: string)
    requires WellFormed(net) && a in net && Search(Visible(net[a]), destination, earliest).Some?
    ensures var r := Search(Visible(net[a]), destination, earliest).value;
            ReadableBy(net[a].language, r.departs) && ReadableIn(net, r.arrives)
  {
    SearchedRow(Visible(net[a]), destination, earliest);
    assert StationFits(net, a);
    assert Search(Visible(net[a]), destination, earliest).value in net[a].timetable;
  }

  // Arrivals can be read by every station, the first departure by the source.
  lemma RowTimesReadable(net: Network, key: Key, q: seq<Address>, i: nat)
    requires WellFormed(net) && |q| >= 2 && i < |q| && Within(net, q)
    ensures ReadableBy(net[q[i]].language, TimeAt(net, key, q, i))
    ensures i > 0 ==> ReadableIn(net, TimeAt(net, key, q, i))
  {
    TooLateIsReadable(net);
    if i == 0 {
      if Search(Visible(net[q[0]]), net[q[1]].name, key.startingTime).Some? {
        FoundRowReadable(net, q[0], net[q[1]].name, key.startingTime);
      }
    } else {
      if Found(net, key, q, i).Some? {
        FoundRowReadable(net, q[i - 1], net[q[i]].name, TimeAt(net, key, q, i - 1));
      }
      assert CanRead(net, q[i], TimeAt(net, key, q, i));
    }
  }
}
