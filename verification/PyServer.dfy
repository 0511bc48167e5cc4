/** server.py: the mutable payload, the query list, the waiting clients and the two ends of the event loop. */
module PyServer {
  import opened Text
  import opened Timetable
  import opened Protocol
  import opened Codec
  import opened Clients

  class Message {
    var found: nat
    var hops: nat
    var current: int
    var stations: seq<Name>
    var addresses: seq<Address>
    var routes: seq<string>
    var times: seq<string>
    var destination: Name
    var source: Name
    var startingTime: string

    constructor (p: Payload)
      ensures current >= 0 && Value() == p
    {
      found, hops, current := p.found, p.hops, p.current;
      stations, addresses, routes, times := p.stations, p.addresses, p.routes, p.times;
      destination, source, startingTime := p.destination, p.source, p.startingTime;
    }

    function Value(): Payload
      requires current >= 0
      reads this
    {
      Payload(found, hops, current, stations, addresses, routes, times, destination, source, startingTime)
    }

    // All but current, which a backtrace step can take below zero.
    function AllButCurrent(): Payload
      reads this
    {
      Payload(found, hops, 0, stations, addresses, routes, times, destination, source, startingTime)
    }

    // The fields change only when the pattern matches; on a Broken line the code raises IndexError.
    method Deserialize(s: string)
      requires Codec.Deserialize(s) != Broken
      modifies this
      ensures match Codec.Deserialize(s)
              case Parsed(p) => current >= 0 && Value() == p
              case _ => current == old(current) && AllButCurrent() == old(AllButCurrent())
    {
      match Codec.Deserialize(s)
      case Unmatched =>
      case Parsed(p) =>
        found, hops, current := p.found, p.hops, p.current;
        stations, addresses, routes, times := p.stations, p.addresses, p.routes, p.times;
        destination, source, startingTime := p.destination, p.source, p.startingTime;
    }

    method UpdateOnArrival(newStation: Name, newAddress: Address)
      modifies this
      ensures current == old(current) + if old(found) == 0 then 1 else if old(found) == 1 then -1 else 0
      ensures AllButCurrent() == if old(found) != 0 then old(AllButCurrent()) else
                old(AllButCurrent()).(
                  hops := old(hops) + 1,
                  stations := old(stations) + [newStation], addresses := old(addresses) + [newAddress],
                  routes := old(routes) + [DOTS], times := old(times) + [DOTS])
    {
      if found == 0 {
        hops := hops + 1;
        current := current + 1;
        stations := stations + [newStation];
        addresses := addresses + [newAddress];
        routes := routes + [DOTS];
        times := times + [DOTS];
      } else if found == 1 {
        current := current - 1;
      }
    }
  }

  // Payload() before anything is read into it.
  const EMPTY := Payload(0, 0, 0, [], [], [], [], "", "", "00:00")

  // What a line is handled as.
  function Received(data: string): Payload
    requires Codec.Deserialize(data) != Broken
  {
    match Codec.Deserialize(data)
    case Parsed(p) => p
    case _ => EMPTY
  }

  class QueryManager {
    var queries: seq<Query>

    constructor ()
      ensures queries == []
    {
      queries := [];
    }

    method Add(q: Query)
      modifies this
      ensures queries == AddQuery(Python, old(queries), q)
    {
      if |queries| < MAX_QUERIES {
        queries := queries + [q];
      }
    }

    method Search(destination: Name, startTime: string) returns (i: nat)
      ensures i == FindQuery(queries, destination, startTime)
    {
      i := 0;
      while i < |queries|
        invariant i <= |queries|
        invariant forall k :: 0 <= k < i ==> !SameQuery(queries[k], destination, startTime)
      {
        if queries[i].destination == destination && queries[i].startTime == startTime {
          return;
        }
        i := i + 1;
      }
    }

    // An answer has come home: keep it if it is the first, or faster than the one kept. What the caller reads next
    // is the answer of the query that was found, and there is none where none was.
    method Update(p: Payload) returns (answer: Option<Payload>)
      modifies this
      ensures queries == Record(old(queries), p)
      ensures answer == if Finishes(old(queries), p) then Some(Reply(Python, old(queries), p)) else None
    {
      var i := Search(p.destination, p.startingTime);
      if i == |queries| {
        Add(Query(p.destination, p.startingTime, Some(p)));
        return None;
      }
      if queries[i].answer == None {
        queries := queries[i := queries[i].(answer := Some(p))];
      } else if LastTime(queries[i].answer.value) > LastTime(p) {
        queries := queries[i := queries[i].(answer := Some(p))];
      }
      answer := queries[i].answer;
    }
  }

  function Waiting(destination: Name, startTime: string): QueryC {
    QueryC(destination, startTime, "")
  }

  // What a station keeps for its clients: the queries, who waits for them, and the sockets it has closed.
  datatype Desk = Desk(queries: seq<Query>, clients: seq<Client>, closed: set<int>)

  // The first client in the list that asked for this payload's journey.
  function Asker(clients: seq<Client>, p: Payload): Option<int> {
    var i := FirstAsker(clients, Waiting(p.destination, p.startingTime));
    if i < |clients| then Some(clients[i].fd) else None
  }

  // A payload has come home. Only the first client that waits for it is answered: it is told what the list then has,
  // unless its socket was closed before; it is closed, and leaves the list unless it is the first of all.
  function Served(d: Desk, p: Payload): Desk {
    var kept := d.(queries := Record(d.queries, p));
    match Asker(d.clients, p)
    case None => kept
    case Some(fd) => kept.(clients := RemoveFdPython(d.clients, fd), closed := d.closed + {fd})
  }

  function Told(d: Desk, p: Payload): Option<(int, Payload)>
    requires Finishes(d.queries, p)
  {
    match Asker(d.clients, p)
    case None => None
    case Some(fd) => if fd in d.closed then None else Some((fd, Reply(Python, d.queries, p)))
  }

  // Entry i is the first for this journey.
  ghost predicate IsEntry(queries: seq<Query>, i: nat, destination: Name, startTime: string) {
    i < |queries| && queries[i].destination == destination && queries[i].startTime == startTime
    && forall k :: 0 <= k < i ==> !(queries[k].destination == destination && queries[k].startTime == startTime)
  }

  lemma EntryIsFound(queries: seq<Query>, i: nat, destination: Name, startTime: string)
    requires IsEntry(queries, i, destination, startTime)
    ensures FindQuery(queries, destination, startTime) == i
  {
    assert SameQuery(queries[i], destination, startTime);
  }

  lemma OnlyEntry(queries: seq<Query>, i: nat, destination: Name, startTime: string)
    requires i == FindQuery(queries, destination, startTime)
    ensures i < |queries| ==> IsEntry(queries, i, destination, startTime)
    ensures forall k: nat :: IsEntry(queries, k, destination, startTime) ==> k == i
  {
    if i < |queries| {
      assert SameQuery(queries[i], destination, startTime);
    }
    assert forall k :: 0 <= k < i ==> !SameQuery(queries[k], destination, startTime);
    forall k: nat | IsEntry(queries, k, destination, startTime) ensures k == i {
      EntryIsFound(queries, k, destination, startTime);
    }
  }

  // Entry i holds this payload where it held none or a slower one, and otherwise what it held; nothing else changes.
  ghost predicate Stores(before: seq<Query>, after: seq<Query>, i: nat, p: Payload) {
    i < |before| == |after|
    && (forall k :: 0 <= k < |before| && k != i ==> after[k] == before[k])
    && after[i].destination == before[i].destination && after[i].startTime == before[i].startTime
    && after[i].answer == match before[i].answer
         case None => Some(p)
         case Some(kept) => if LastTime(p) < LastTime(kept) then Some(p) else Some(kept)
  }

  /** What a finished payload leaves in the list: the entry for its journey has an answer, no slower than the payload or
      than what was there, and every other entry is as it was. */
  lemma AnswerIsStored(d: Desk, p: Payload, i: nat)
    requires IsEntry(d.queries, i, p.destination, p.startingTime)
    ensures Finishes(d.queries, p) && Stores(d.queries, Served(d, p).queries, i, p)
  {
    EntryIsFound(d.queries, i, p.destination, p.startingTime);
  }

  /** Who is told, and what: the first client that waits for the journey, unless its socket has been closed before, and
      what the entry of the journey then holds. Its socket is closed. */
  lemma FirstIsToldWhatIsStored(d: Desk, p: Payload, i: nat, j: nat)
    requires IsEntry(d.queries, i, p.destination, p.startingTime)
    requires j <= |d.clients|
    requires forall k :: 0 <= k < j ==> !SameJourney(d.clients[k].query, Waiting(p.destination, p.startingTime))
    requires j < |d.clients| ==> SameJourney(d.clients[j].query, Waiting(p.destination, p.startingTime))
    ensures Finishes(d.queries, p)
    ensures Served(d, p).closed == d.closed + if j < |d.clients| then {d.clients[j].fd} else {}
    ensures Told(d, p).Some? <==> j < |d.clients| && d.clients[j].fd !in d.closed
    ensures Told(d, p).Some? ==>
              Told(d, p).value.0 == d.clients[j].fd && Some(Told(d, p).value.1) == Served(d, p).queries[i].answer
  {
    EntryIsFound(d.queries, i, p.destination, p.startingTime);
    assert FirstAsker(d.clients, Waiting(p.destination, p.startingTime)) == j;
  }

  /** remove_client keeps the first client of all in the list, told or not. So after one client has been told, or passed
      over, the next payload for the journey tells another if and only if the one before was not the first of all, and
      the next of them in the list has not been closed. */
  lemma NextIsToldIff(d: Desk, p: Payload, later: Payload)
    requires Finishes(d.queries, p) && DistinctFds(d.clients)
    requires later.destination == p.destination && later.startingTime == p.startingTime
    requires FirstAsker(d.clients, Waiting(p.destination, p.startingTime)) < |d.clients|
    ensures var asked := Waiting(p.destination, p.startingTime);
            var i := FirstAsker(d.clients, asked);
            var rest := d.clients[i + 1..];
            var j := FirstAsker(rest, asked);
            Finishes(Served(d, p).queries, later)
            && (Told(Served(d, p), later).Some? <==> i > 0 && j < |rest| && rest[j].fd !in d.closed)
  {
    hide Told, Served, Waiting;
    var asked := Waiting(p.destination, p.startingTime);
    var i := FirstAsker(d.clients, asked);
    StillFinishes(d, p, later);
    ServedLeaves(d, p);
    ToldIff(Served(d, p), later);
    assert Waiting(later.destination, later.startingTime) == asked;
    if i > 0 {
      AskerAfter(d.clients[..i], d.clients[i + 1..], asked);
    }
  }

  lemma ServedLeaves(d: Desk, p: Payload)
    requires FirstAsker(d.clients, Waiting(p.destination, p.startingTime)) < |d.clients|
    ensures var i := FirstAsker(d.clients, Waiting(p.destination, p.startingTime));
            Served(d, p).closed == d.closed + {d.clients[i].fd}
            && (DistinctFds(d.clients) ==>
                  Served(d, p).clients == if i == 0 then d.clients else d.clients[..i] + d.clients[i + 1..])
  {
    var i := FirstAsker(d.clients, Waiting(p.destination, p.startingTime));
    if DistinctFds(d.clients) {
      RemoveFdIs(d.clients, d.clients[i].fd, i);
    }
  }

  lemma ToldIff(d: Desk, p: Payload)
    requires Finishes(d.queries, p)
    ensures var i := FirstAsker(d.clients, Waiting(p.destination, p.startingTime));
            Told(d, p).Some? <==> i < |d.clients| && d.clients[i].fd !in d.closed
  {
  }

  lemma StillFinishes(d: Desk, p: Payload, later: Payload)
    requires Finishes(d.queries, p) && later.destination == p.destination && later.startingTime == p.startingTime
    ensures Finishes(Served(d, p).queries, later)
  {
    var i := FindQuery(d.queries, p.destination, p.startingTime);
    assert SameQuery(Record(d.queries, p)[i], p.destination, p.startingTime);
  }

  lemma AskerAfter(front: seq<Client>, rest: seq<Client>, q: QueryC)
    requires forall k :: 0 <= k < |front| ==> !SameJourney(front[k].query, q)
    ensures FirstAsker(front + rest, q) == |front| + FirstAsker(rest, q)
  {
    var j := FirstAsker(rest, q);
    assert j < |rest| ==> (front + rest)[|front| + j] == rest[j];
    assert forall k :: 0 <= k < j ==> (front + rest)[|front| + k] == rest[k];
  }

  /** Of two that wait for one journey, the second may have to wait for the third payload, and for somebody to ask for
      something else: the second payload tells nobody, although the first client is no longer first in the list. */
  lemma ToldByTheThird(d: Desk, a: int, b: int, x: int, p: Payload, destination: Name, startTime: string)
    requires a != b && x != a && x != b && a !in d.closed && b !in d.closed && Finishes(d.queries, p)
    requires var q := Waiting(p.destination, p.startingTime); d.clients == [Client(a, q), Client(b, q)]
    requires Waiting(destination, startTime) != Waiting(p.destination, p.startingTime)
    requires !Answered(Record(d.queries, p), destination, startTime)
    ensures var d1 := Served(d, p);
            var d2 := Asked(d1, x, destination, startTime);
            var d3 := Served(d2, p);
            Told(d, p).Some? && Told(d, p).value.0 == a
            && Finishes(d1.queries, p) && Told(d1, p) == None && Served(d1, p).clients == d1.clients == d.clients
            && Finishes(d2.queries, p) && d2.clients[0].fd == x && Told(d2, p) == None
            && Finishes(d3.queries, p) && Told(d3, p).Some? && Told(d3, p).value.0 == b
  {
    var d1 := Served(d, p);
    var d2 := Asked(d1, x, destination, startTime);
    StillFinishes(d, p, p);
    StaysKnown(d1.queries, destination, startTime, p);
    StillFinishes(d2, p, p);
    var q := Waiting(p.destination, p.startingTime);
    assert d1.clients == d.clients && d1.closed == d.closed + {a};
    assert d2.clients == [Client(x, Waiting(destination, startTime)), Client(a, q), Client(b, q)];
    assert FirstAsker(d2.clients, q) == 1;
    RemoveFdIs(d2.clients, a, 1);
    assert Served(d2, p).clients == [Client(x, Waiting(destination, startTime)), Client(b, q)];
    assert FirstAsker(Served(d2, p).clients, q) == 1;
  }

  lemma StaysKnown(queries: seq<Query>, destination: Name, startTime: string, p: Payload)
    requires Finishes(queries, p)
    ensures Finishes(Register(Python, queries, destination, startTime), p)
  {
    var i := FindQuery(queries, p.destination, p.startingTime);
    assert SameQuery(Register(Python, queries, destination, startTime)[i], p.destination, p.startingTime);
  }

  // A browser asks on this socket: it waits, first in the list, unless there is an answer.
  function Asked(d: Desk, fd: int, destination: Name, startTime: string): Desk {
    if Answered(d.queries, destination, startTime) then d.(closed := d.closed + {fd})
    else d.(queries := Register(Python, d.queries, destination, startTime),
            clients := [Client(fd, Waiting(destination, startTime))] + d.clients)
  }

  class Server {
    const me: Station
    const manager: QueryManager
    const clients: ClientList
    var closed: set<int>
    var message: string

    constructor (st: Station)
      requires st.language == Python
      ensures Valid() && me == st && manager.queries == [] && clients.Contents() == [] && closed == {}
      ensures fresh(manager) && fresh(clients)
    {
      me := st;
      manager := new QueryManager();
      clients := new ClientList();
      closed, message := {}, "";
    }

    ghost predicate Valid()
      reads this, clients, clients.nodes
    {
      me.language == Python && clients.Valid() && DistinctFds(clients.Contents())
    }

    ghost function Books(): Desk
      reads this, manager, clients
    {
      Desk(manager.queries, clients.Contents(), closed)
    }

    /** One UDP packet: what is sent and finished is the protocol's, and so is the line written last. The program ends
        exactly when a finished payload's query is not in the list; otherwise the payload is recorded and a client
        that waits for it is served. */
    method OnDatagram(p: Message)
      returns (sends: seq<Packet>, finished: Option<Payload>, crashed: bool, told: Option<(int, Payload)>)
      requires Valid() && p.current >= 0 && Safe(me, p.Value())
      modifies p, this`closed, this`message, manager, clients, clients.nodes
      ensures Valid() && Reaction(sends, finished) == Handle(me, old(p.Value()))
      ensures message == Serialize(Written(me, old(p.Value())))
      ensures finished.Some? ==> message == Serialize(finished.value)
      ensures finished == None ==> !crashed && told == None && Books() == old(Books())
      ensures finished.Some? ==> (crashed <==> !Finishes(old(manager.queries), finished.value))
      ensures finished.Some? && !crashed ==>
                Books() == Served(old(Books()), finished.value) && told == Told(old(Books()), finished.value)
    {
      WrittenIsSent(me, p.Value());
      TurnAtDestination(p);
      TurnAtSource(p);
      sends, finished, crashed, told := Dispatch(p);
    }

    method TurnAtDestination(p: Message)
      requires me.language == Python && p.current >= 0 && DestinationSafe(me, p.Value())
      modifies p
      ensures p.current >= 0 && p.Value() == AtDestination(me, old(p.Value()))
    {
      if p.destination == me.name {
        if p.found == 0 {
          p.UpdateOnArrival(me.name, me.address);
          p.found := 1;
        }
        if p.found == 2 {
          p.found := 3;
        }
      }
    }

    method TurnAtSource(p: Message)
      requires me.language == Python && p.current >= 0 && SourceSafe(me, p.Value())
      modifies p
      ensures p.current >= 0 && p.Value() == AtSource(me, old(p.Value()))
    {
      if p.source == me.name {
        if p.found == 1 {
          var t := SearchTimetable(me.timetable, p.stations[1], p.startingTime);
          if t == None {
            p.times := p.times[0 := TOO_LATE];
          } else {
            p.times := p.times[0 := t.value.departs];
          }
          p.found := 2;
        }
        if p.found == 3 {
          p.found := 4;
        }
      }
    }

    method Dispatch(p: Message)
      returns (sends: seq<Packet>, finished: Option<Payload>, crashed: bool, told: Option<(int, Payload)>)
      requires Valid() && p.current >= 0 && ForwardSafe(me, p.Value()) && p.found <= 4
      modifies p, this`closed, this`message, manager, clients, clients.nodes
      ensures Valid() && Reaction(sends, finished) == Forward(me, old(p.Value()))
      ensures message == Serialize(InHand(me, old(p.Value())))
      ensures finished == None ==> !crashed && told == None && Books() == old(Books())
      ensures finished.Some? ==> (crashed <==> !Finishes(old(manager.queries), finished.value))
      ensures finished.Some? && !crashed ==>
                Books() == Served(old(Books()), finished.value) && told == Told(old(Books()), finished.value)
    {
      sends, finished, crashed, told := [], None, false, None;
      if p.found == 4 {
        message := Serialize(p.Value());
        finished := Some(p.Value());
        crashed, told := Answer(p.Value());
      } else {
        sends := SendOn(p);
      }
    }

    method SendOn(p: Message) returns (sends: seq<Packet>)
      requires me.language == Python && p.current >= 0 && ForwardSafe(me, p.Value()) && p.found < 4
      modifies p, this`message
      ensures Reaction(sends, None) == Forward(me, old(p.Value()))
      ensures message == Serialize(InHand(me, old(p.Value())))
    {
      if p.found == 3 {
        p.current := p.current - 1;
        message := Serialize(p.Value());
        sends := [Packet(p.addresses[p.current - 1], p.Value())];
      } else if p.found == 2 {
        sends := WriteLeg(p);
      } else if p.found == 1 {
        p.current := p.current - 1;
        message := Serialize(p.Value());
        sends := [Packet(p.addresses[p.current - 1], p.Value())];
      } else {
        p.UpdateOnArrival(me.name, me.address);
        message := Serialize(p.Value());
        sends := Flood(p);
      }
    }

    // The answer is recorded and the first client that waits for it is told and closed.
    method Answer(p: Payload) returns (crashed: bool, told: Option<(int, Payload)>)
      requires Valid()
      modifies this`closed, manager, clients, clients.nodes
      ensures Valid() && (crashed <==> !Finishes(old(manager.queries), p))
      ensures !crashed ==> Books() == Served(old(Books()), p) && told == Told(old(Books()), p)
    {
      var answer := manager.Update(p);
      crashed, told := answer == None, None;
      if !crashed {
        told := Serve(p, answer.value);
      }
    }

    // The first client that waits is told this answer, and its socket is closed.
    method Serve(p: Payload, answer: Payload) returns (told: Option<(int, Payload)>)
      requires Valid()
      modifies this`closed, clients`nodes, clients.nodes
      ensures Valid()
      ensures match Asker(old(clients.Contents()), p)
              case None => told == None && clients.Contents() == old(clients.Contents()) && closed == old(closed)
              case Some(fd) =>
                told == (if fd in old(closed) then None else Some((fd, answer))) && closed == old(closed) + {fd}
                && clients.Contents() == RemoveFdPython(old(clients.Contents()), fd)
    {
      told := None;
      var c := clients.Find(Waiting(p.destination, p.startingTime));
      if c != null {
        if c.fd !in closed {
          told := Some((c.fd, answer));
        }
        StaysIffFirst(clients.Contents(), c.fd);
        clients.RemovePython(c.fd);
        closed := closed + {c.fd};
      }
    }

    method WriteLeg(p: Message) returns (sends: seq<Packet>)
      requires me.language == Python && p.current >= 0 && p.found == 2 && ForwardSafe(me, p.Value())
      modifies p, this`message
      ensures Reaction(sends, None) == Forward(me, old(p.Value()))
      ensures message == Serialize(InHand(me, old(p.Value())))
    {
      var cur := p.current;
      p.current := p.current + 1;
      var t := SearchTimetable(me.timetable, p.stations[cur], p.times[cur - 1]);
      if t == None {
        p.times := p.times[cur := TOO_LATE];
        p.routes := p.routes[cur := NOT_FOUND];
      } else {
        p.times := p.times[cur := t.value.arrives];
        p.routes := p.routes[cur := t.value.route];
      }
      message := Serialize(p.Value());
      sends := [Packet(p.addresses[p.current - 1], p.Value())];
    }

    /** One line from the wire: it is parsed, handled, and every payload sent on is serialized again. A line that does
        not match is handled as an empty payload; one whose words run out ends the program. */
    method OnLine(data: string)
      returns (lines: seq<(Address, string)>, finished: Option<Payload>, crashed: bool, told: Option<(int, Payload)>)
      requires Valid() && (Codec.Deserialize(data) != Broken ==> Safe(me, Received(data)))
      modifies this`closed, this`message, manager, clients, clients.nodes
      ensures Valid()
      ensures Codec.Deserialize(data) == Broken ==>
                crashed && lines == [] && finished == None && told == None && Books() == old(Books())
      ensures Codec.Deserialize(data) != Broken ==>
                var r := Handle(me, Received(data));
                finished == r.finished && lines == SerializeAll(r.sends)
                && message == Serialize(Written(me, Received(data)))
                && (finished == None ==> !crashed && told == None && Books() == old(Books()))
      ensures finished.Some? ==>
                message == Serialize(finished.value) && (crashed <==> !Finishes(old(manager.queries), finished.value))
      ensures finished.Some? && !crashed ==>
                Books() == Served(old(Books()), finished.value) && told == Told(old(Books()), finished.value)
    {
      lines, finished, crashed, told := [], None, true, None;
      if Codec.Deserialize(data) != Broken {
        var p := new Message(EMPTY);
        p.Deserialize(data);
        var sends;
        sends, finished, crashed, told := OnDatagram(p);
        lines := SerializeAll(sends);
      }
    }

    // A copy for every neighbour the payload has not visited.
    method Flood(p: Message) returns (sends: seq<Packet>)
      requires p.current >= 0
      ensures sends == SendAll(Targets(me.neighbours, p.addresses), p.Value())
    {
      sends := [];
      for i := 0 to |me.neighbours|
        invariant sends == SendAll(Targets(me.neighbours[..i], p.addresses), p.Value())
      {
        var n := me.neighbours[i];
        assert me.neighbours[..i + 1] == me.neighbours[..i] + [n];
        TargetsOfAppend(me.neighbours[..i], n, p.addresses);
        if n !in p.addresses {
          sends := sends + [Packet(n, p.Value())];
        }
      }
      assert me.neighbours[..|me.neighbours|] == me.neighbours;
    }

    /** One browser request, on a socket just accepted. Unless the query has an answer the browser waits, first in the
        list, and a flood starts; an unknown query is registered. If it has one, the browser is sent not the answer but
        whatever line this station wrote last, and its socket is closed. */
    method OnRequest(fd: int, destination: Name, startTime: string)
      returns (sends: seq<Packet>, told: Option<string>)
      requires Valid() && fd !in closed && forall c :: c in clients.Contents() ==> c.fd != fd
      modifies this`closed, this`message, manager, clients, clients.nodes
      ensures Valid() && Books() == Asked(old(Books()), fd, destination, startTime)
      ensures told.Some? <==> exists i: nat :: IsEntry(old(manager.queries), i, destination, startTime)
                                               && old(manager.queries)[i].answer.Some?
      ensures told.Some? ==> sends == [] && fd in closed && clients.Contents() == old(clients.Contents())
      ensures told == None ==>
                fd !in closed && |sends| == 1 && sends[0].to == me.address
                && sends[0].payload == Payload(0, 0, 0, [], [], [], [], destination, me.name, startTime)
                && |clients.Contents()| == |old(clients.Contents())| + 1
                && clients.Contents()[1..] == old(clients.Contents())
                && clients.Contents()[0] == Client(fd, QueryC(destination, startTime, ""))
      ensures if Answered(old(manager.queries), destination, startTime)
              then sends == [] && told == Some(old(message)) && message == old(message)
              else sends == [Packet(me.address, InitialPayload(me, destination, startTime))] && told == None
                   && message == Serialize(InitialPayload(me, destination, startTime))
    {
      DropDuplicate(fd);
      var i := manager.Search(destination, startTime);
      OnlyEntry(manager.queries, i, destination, startTime);
      sends, told := [], None;
      if i < |manager.queries| && manager.queries[i].answer.Some? {
        told := Some(message);
        closed := closed + {fd};
      } else {
        var known := i < |manager.queries|;
        StartWaiting(fd, destination, startTime, known);
        var p := new Message(InitialPayload(me, destination, startTime));
        message := Serialize(p.Value());
        sends := [Packet(me.address, p.Value())];
      }
    }

    // A socket just accepted is not in the list.
    method DropDuplicate(fd: int)
      requires Valid() && forall c :: c in clients.Contents() ==> c.fd != fd
      modifies clients`nodes, clients.nodes
      ensures Valid() && Books() == old(Books())
    {
      RemoveFdIs(clients.Contents(), fd, |clients.Contents()|);
      clients.RemovePython(fd);
    }

    method StartWaiting(fd: int, destination: Name, startTime: string, known: bool)
      requires Valid() && forall c :: c in clients.Contents() ==> c.fd != fd
      requires known <==> Holds(manager.queries, destination, startTime)
      modifies manager, clients
      ensures Valid() && clients.Contents() == [Client(fd, Waiting(destination, startTime))] + old(clients.Contents())
      ensures manager.queries == Register(Python, old(manager.queries), destination, startTime)
    {
      clients.Add(fd, Waiting(destination, startTime));
      if !known {
        manager.Add(Query(destination, startTime, None));
      }
    }
  }

  function SerializeAll(sends: seq<Packet>): (lines: seq<(Address, string)>)
    ensures |lines| == |sends|
    ensures forall i :: 0 <= i < |sends| ==> lines[i] == (sends[i].to, Serialize(sends[i].payload))
  {
    seq(|sends|, i requires 0 <= i < |sends| => (sends[i].to, Serialize(sends[i].payload)))
  }
}
