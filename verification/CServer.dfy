/** main.c: the UDP handler, writing into the arrays load_payload allocated, and the handler of browsers. */
module CServer {
  import opened Text
  import opened Timetable
  import opened Protocol
  import opened Codec
  import opened PayloadC
  import opened Clients
  import opened QueryRing

  class Server {
    const me: Station
    const ring: Ring
    const clients: ClientList

    constructor (st: Station)
      requires st.language == C
      ensures Valid() && me == st && ring.history == [] && clients.Contents() == []
      ensures fresh(ring) && fresh(ring.slots) && fresh(clients)
    {
      me := st;
      ring := new Ring();
      clients := new ClientList();
    }

    // No query in the ring ever gets an answer.
    ghost predicate Valid()
      reads this, ring, ring.slots, clients, clients.nodes
    {
      me.language == C && ring.Valid() && NoAnswers(ring.history)
      && clients.Valid() && DistinctFds(clients.Contents())
    }

    /** One UDP packet: every slot written or read is one load_payload allocated, and what is sent or finished is what
        the protocol says. The program ends, following a null pointer, exactly when a finished payload's query is not
        in the ring; otherwise every client that waits for it is told this payload and leaves the list. */
    method OnDatagram(p: CPayload)
      returns (sends: seq<Packet>, finished: Option<Payload>, crashed: bool, answered: seq<int>, told: string)
      requires Valid() && p.Allocated() && p.stations.Length == Slots(p.found, p.hops)
      requires Safe(me, p.Value()) && Apart(p)
      modifies p.Repr(), clients, clients.nodes
      ensures Valid() && p.Allocated() && Reaction(sends, finished) == Handle(me, old(p.Value()))
      ensures finished == None ==> !crashed && answered == [] && clients.Contents() == old(clients.Contents())
      ensures finished.Some? ==>
                (crashed <==> !InRing(ring.history, finished.value.destination, finished.value.startingTime))
      ensures finished.Some? && !crashed ==>
                told == Craft(finished.value) && answered == Askers(old(clients.Contents()), QueryFor(finished.value))
                && clients.Contents() == Others(old(clients.Contents()), QueryFor(finished.value))
    {
      TurnAtDestination(p);
      TurnAtSource(p);
      sends, finished, crashed, answered, told := Dispatch(p);
    }

    // The payload's arrays are not the ring's.
    ghost predicate Apart(p: CPayload) {
      p.Repr() !! {ring, ring.slots}
    }

    /** One line from the wire: it is loaded, handled, and every payload sent on is crafted again. */
    method OnLine(data: string)
      returns (lines: seq<(Address, string)>, finished: Option<Payload>, crashed: bool, answered: seq<int>,
               told: string)
      requires Valid() && Load(data).Some? && Safe(me, Load(data).value)
      modifies clients, clients.nodes
      ensures Valid()
      ensures var r := Handle(me, Load(data).value);
              finished == r.finished && lines == CraftAll(r.sends)
      ensures finished == None ==> !crashed && answered == [] && clients.Contents() == old(clients.Contents())
      ensures finished.Some? ==>
                (crashed <==> !InRing(ring.history, finished.value.destination, finished.value.startingTime))
      ensures finished.Some? && !crashed ==>
                told == Craft(finished.value) && answered == Askers(old(clients.Contents()), QueryFor(finished.value))
                && clients.Contents() == Others(old(clients.Contents()), QueryFor(finished.value))
    {
      var p := LoadPayload(data);
      var sends;
      sends, finished, crashed, answered, told := OnDatagram(p);
      lines := CraftAll(sends);
    }

    /** One browser request: a query that is not in the ring is added to it, and the browser waits, first in the list
        and once. Nothing is sent; the flood waits for a timeout. */
    method OnRequest(fd: int, destination: Name, startTime: string)
      requires Valid()
      modifies ring, ring.slots, clients, clients.nodes
      ensures Valid()
      ensures ring.history == if InRing(old(ring.history), destination, startTime) then old(ring.history)
                              else old(ring.history) + [QueryC(destination, startTime, "")]
      ensures destination != "" ==>
                Known(ring.history) == Register(C, Known(old(ring.history)), destination, startTime)
      ensures clients.Contents() ==
                [Client(fd, QueryC(destination, startTime, ""))] + RemoveFd(old(clients.Contents()), fd)
    {
      var query := Enlist(destination, startTime);
      clients.Readd(fd, query);
    }

    // The query as the ring has it, or as it is added to the ring.
    method Enlist(destination: Name, startTime: string) returns (query: QueryC)
      requires ring.Valid() && NoAnswers(ring.history)
      modifies ring, ring.slots
      ensures ring.Valid() && NoAnswers(ring.history) && query == QueryC(destination, startTime, "")
      ensures ring.history == if InRing(old(ring.history), destination, startTime) then old(ring.history)
                              else old(ring.history) + [query]
      ensures destination != "" ==>
                Known(ring.history) == Register(C, Known(old(ring.history)), destination, startTime)
    {
      query := QueryC(destination, startTime, "");
      if destination != "" {
        RingHoldsList(ring.history, destination, startTime);
        RingIsList(ring.history, query);
      }
      var q := ring.Search(destination, startTime);
      if q == None {
        ring.Add(query);
      } else {
        assert q.value in ring.history || q.value == BLANK;
        query := q.value;
      }
    }

    method TurnAtDestination(p: CPayload)
      requires me.language == C && p.Allocated() && p.stations.Length == Slots(p.found, p.hops)
      requires DestinationSafe(me, p.Value())
      modifies p.Repr()
      ensures p.Allocated() && p.Value() == AtDestination(me, old(p.Value()))
      ensures p.found == 0 ==> p.hops < p.stations.Length
    {
      if p.destination == me.name {
        if p.found == 0 {
          p.Append(me, me.timetable[0].route, me.timetable[0].arrives);
          p.found := 1;
        }
        if p.found == 2 {
          p.found := 3;
        }
      }
    }

    method TurnAtSource(p: CPayload)
      requires me.language == C && p.Allocated() && SourceSafe(me, p.Value())
      modifies p.Repr()
      ensures p.Allocated() && p.Value() == AtSource(me, old(p.Value()))
      ensures p.hops == old(p.hops) && (p.found == 0 <==> old(p.found) == 0)
    {
      if p.source == me.name {
        if p.found == 1 {
          var which := SearchTimetableC(me.timetable, p.startTime, p.stations[p.current]);
          if which == -1 {
            p.time[0] := TOO_LATE;
          } else {
            p.time[0] := me.timetable[which].departs;
          }
          p.found := 2;
          assert p.time[..p.hops] == old(p.time[..p.hops])[0 := p.time[0]];
        }
        if p.found == 3 {
          p.found := 4;
        }
      }
    }

    method Dispatch(p: CPayload)
      returns (sends: seq<Packet>, finished: Option<Payload>, crashed: bool, answered: seq<int>, told: string)
      requires Valid() && p.Allocated() && ForwardSafe(me, p.Value()) && p.found <= 4 && Apart(p)
      requires p.found == 0 ==> p.hops < p.stations.Length
      modifies p.Repr(), clients, clients.nodes
      ensures Valid() && p.Allocated() && Reaction(sends, finished) == Forward(me, old(p.Value()))
      ensures finished == None ==> !crashed && answered == [] && clients.Contents() == old(clients.Contents())
      ensures finished.Some? ==>
                (crashed <==> !InRing(ring.history, finished.value.destination, finished.value.startingTime))
      ensures finished.Some? && !crashed ==>
                told == Craft(finished.value) && answered == Askers(old(clients.Contents()), QueryFor(finished.value))
                && clients.Contents() == Others(old(clients.Contents()), QueryFor(finished.value))
    {
      sends, finished, crashed, answered, told := [], None, false, [], "";
      if p.found == 4 {
        finished := Some(p.Value());
        var reply;
        reply, answered := Finish(ring, clients, p.Value());
        crashed := reply == None;
        if !crashed {
          told := reply.value;
        }
      } else {
        sends := SendOn(p);
      }
    }

    method SendOn(p: CPayload) returns (sends: seq<Packet>)
      requires me.language == C && p.Allocated() && ForwardSafe(me, p.Value()) && p.found < 4
      requires p.found == 0 ==> p.hops < p.stations.Length
      modifies p.Repr()
      ensures p.Allocated() && Reaction(sends, None) == Forward(me, old(p.Value()))
    {
      if p.found == 3 {
        p.current := p.current - 1;
        sends := [Packet(p.address[p.current - 1], p.Value())];
      } else if p.found == 2 {
        sends := WriteLeg(p);
      } else if p.found == 1 {
        p.current := p.current - 1;
        sends := [Packet(p.address[p.current - 1], p.Value())];
      } else {
        var hops := p.hops;
        p.Append(me, DOTS, DOTS);
        assert p.address[..hops] == p.address[..p.hops][..hops] == old(p.address[..p.hops]);
        sends := Flood(p, hops);
      }
    }

    method WriteLeg(p: CPayload) returns (sends: seq<Packet>)
      requires me.language == C && p.Allocated() && p.found == 2 && ForwardSafe(me, p.Value())
      modifies p.Repr()
      ensures p.Allocated() && Reaction(sends, None) == Forward(me, old(p.Value()))
    {
      var current := p.current;
      var which := SearchTimetableC(me.timetable, p.time[current - 1], p.stations[current]);
      if which == -1 {
        p.time[current] := TOO_LATE;
        p.routes[current] := NOT_FOUND;
      } else {
        p.time[current] := me.timetable[which].arrives;
        p.routes[current] := me.timetable[which].route;
      }
      assert p.time[..p.hops] == old(p.time[..p.hops])[current := p.time[current]];
      assert p.routes[..p.hops] == old(p.routes[..p.hops])[current := p.routes[current]];
      p.current := p.current + 1;
      sends := [Packet(p.address[p.current - 1], p.Value())];
    }

    // Each neighbour is compared with the stations visited before this one.
    method Flood(p: CPayload, hops: nat) returns (sends: seq<Packet>)
      requires p.Allocated() && hops <= p.hops
      ensures sends == SendAll(Targets(me.neighbours, p.address[..hops]), p.Value())
    {
      sends := [];
      for j := 0 to |me.neighbours|
        invariant sends == SendAll(Targets(me.neighbours[..j], p.address[..hops]), p.Value())
      {
        var n := me.neighbours[j];
        assert me.neighbours[..j + 1] == me.neighbours[..j] + [n];
        TargetsOfAppend(me.neighbours[..j], n, p.address[..hops]);
        var beenThere := false;
        for k := 0 to hops
          invariant beenThere <==> n in p.address[..k]
        {
          assert p.address[..k + 1] == p.address[..k] + [p.address[k]];
          if n == p.address[k] {
            beenThere := true;
            assert p.address[..hops][k] == n;
            break;
          }
        }
        if beenThere { continue; }
        sends := sends + [Packet(n, p.Value())];
      }
      assert me.neighbours[..|me.neighbours|] == me.neighbours;
    }
  }

  function CraftAll(sends: seq<Packet>): (lines: seq<(Address, string)>)
    ensures |lines| == |sends|
    ensures forall i :: 0 <= i < |sends| ==> lines[i] == (sends[i].to, Craft(sends[i].payload))
  {
    seq(|sends|, i requires 0 <= i < |sends| => (sends[i].to, Craft(sends[i].payload)))
  }
}
