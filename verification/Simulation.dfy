/** What the two programs do, step by step, is what a run says their stations do. */
module Simulation {
  import opened Text
  import opened Protocol
  import opened Journey
  import opened Steps
  import opened Runs
  import opened PayloadC
  import opened QueryRing
  import PyServer
  import CServer

  // ----- one delivery, on values

  // What a station that is up does with a packet in a run, in the words of its program: what it sends and finishes,
  // and the queries it then holds.
  ghost predicate Delivers(net: Network, s: State, i: nat, r: Reaction, queries: seq<Query>)
    requires i < |s.inflight|
  {
    var a, s' := s.inflight[i].to, DeliverOne(net, s, i);
    s'.down == s.down && s'.inflight == Without(s.inflight, i) + r.sends && QueriesOf(s', a) == queries
    && s'.answers == s.answers + if r.finished.Some? then [r.finished.value] else []
  }

  lemma PacketCanBeHandled(net: Network, s: State, i: nat)
    requires WellFormed(net) && Reachable(net, s) && i < |s.inflight|
    ensures var pkt := s.inflight[i];
            pkt.to in net && Safe(net[pkt.to], pkt.payload) && pkt.payload.destination != ""
            && (Handle(net[pkt.to], pkt.payload).finished.Some? ==>
                  var p := Handle(net[pkt.to], pkt.payload).finished.value;
                  p.destination == pkt.payload.destination && p.startingTime == pkt.payload.startingTime)
  {
    EveryRunKeepsInv(net, s);
    var pkt := s.inflight[i];
    assert pkt in s.inflight;
    DeliveryKeepsLegitimacy(net, KeyOf(pkt), pkt);
    LegitimateKey(net, KeyOf(pkt), pkt);
  }

  lemma DeliversWhatItHandles(net: Network, s: State, i: nat)
    requires i < |s.inflight| && s.inflight[i].to in net && s.inflight[i].to !in s.down
    requires Safe(net[s.inflight[i].to], s.inflight[i].payload)
    ensures var pkt := s.inflight[i];
            var r, queries := Handle(net[pkt.to], pkt.payload), QueriesOf(s, pkt.to);
            match r.finished
            case None => Delivers(net, s, i, r, queries)
            case Some(p) =>
              if Finishes(queries, p)
              then r.sends == [] && Delivers(net, s, i, r, Kept(net[pkt.to].language, queries, p))
              else DeliverOne(net, s, i).down == s.down + {pkt.to}
    ensures var pkt, s' := s.inflight[i], DeliverOne(net, s, i);
            pkt.to in s'.written && s'.written[pkt.to] == Written(net[pkt.to], pkt.payload)
  {
    hide Written, Safe;
    HandleSendsOrFinishes(net[s.inflight[i].to], s.inflight[i].payload);
  }

  lemma HandleSendsOrFinishes(st: Station, p: Payload)
    requires Safe(st, p)
    ensures Handle(st, p).finished.Some? ==> Handle(st, p).sends == []
  {
  }

  // ----- server.py

  /** A Python server that is given the packet, and holds what the run says its station holds, ends if the run takes the
      station down; otherwise it sends, finishes and then holds what the run says, and has written its line. */
  method PythonDelivers(ghost net: Network, ghost s: State, ghost i: nat, server: PyServer.Server, p: PyServer.Message)
    returns (sends: seq<Packet>, finished: Option<Payload>, crashed: bool, told: Option<(int, Payload)>)
    requires WellFormed(net) && Reachable(net, s) && i < |s.inflight| && s.inflight[i].to !in s.down
    requires s.inflight[i].to in net && server.me == net[s.inflight[i].to] && server.Valid()
    requires server.manager.queries == QueriesOf(s, s.inflight[i].to)
    requires p.current >= 0 && p.Value() == s.inflight[i].payload
    modifies p, server`closed, server`message, server.manager, server.clients, server.clients.nodes
    ensures server.Valid() && (crashed <==> DeliverOne(net, s, i).down != s.down)
    ensures !crashed ==> Delivers(net, s, i, Reaction(sends, finished), server.manager.queries)
    ensures var a, written := s.inflight[i].to, DeliverOne(net, s, i).written;
            a in written && server.message == Codec.Serialize(written[a])
  {
    PacketCanBeHandled(net, s, i);
    DeliversWhatItHandles(net, s, i);
    sends, finished, crashed, told := server.OnDatagram(p);
  }

  /** ... and one that a browser asks then holds what the run says, and sends the packets it says. */
  method PythonAsks(ghost net: Network, ghost s: State, key: Key, server: PyServer.Server, fd: int)
    returns (sends: seq<Packet>, told: Option<string>)
    requires WellFormed(net) && key.src in net && server.me == net[key.src] && server.Valid()
    requires server.manager.queries == QueriesOf(s, key.src)
    requires fd !in server.closed && forall c :: c in server.clients.Contents() ==> c.fd != fd
    modifies server`closed, server`message, server.manager, server.clients, server.clients.nodes
    ensures server.Valid() && server.manager.queries == QueriesOf(AskAt(net, s, key), key.src)
    ensures AskAt(net, s, key).inflight == s.inflight + sends
    ensures sends != [] ==>
              key.src in AskAt(net, s, key).written
              && server.message == Codec.Serialize(AskAt(net, s, key).written[key.src])
  {
    assert StationFits(net, key.src);
    sends, told := server.OnRequest(fd, key.destination, key.startingTime);
  }

  // ----- main.c

  /** The same of a C server, whose ring is the list the run has for its station. */
  method CDelivers(ghost net: Network, ghost s: State, ghost i: nat, server: CServer.Server, p: CPayload)
    returns (sends: seq<Packet>, finished: Option<Payload>, crashed: bool, answered: seq<int>, told: string)
    requires WellFormed(net) && Reachable(net, s) && i < |s.inflight| && s.inflight[i].to !in s.down
    requires s.inflight[i].to in net && server.me == net[s.inflight[i].to] && server.Valid() && server.Apart(p)
    requires Known(server.ring.history) == QueriesOf(s, s.inflight[i].to)
    requires p.Allocated() && p.stations.Length == Slots(p.found, p.hops) && p.Value() == s.inflight[i].payload
    modifies p.Repr(), server.clients, server.clients.nodes
    ensures server.Valid() && (crashed <==> DeliverOne(net, s, i).down != s.down)
    ensures !crashed ==> Delivers(net, s, i, Reaction(sends, finished), Known(server.ring.history))
  {
    PacketCanBeHandled(net, s, i);
    DeliversWhatItHandles(net, s, i);
    RingHoldsList(server.ring.history, p.destination, p.startTime);
    sends, finished, crashed, answered, told := server.OnDatagram(p);
  }

  /** ... which takes up what it is asked, and sends nothing. */
  method CAsks(ghost net: Network, ghost s: State, key: Key, server: CServer.Server, fd: int)
    requires WellFormed(net) && ValidKey(net, key) && server.me == net[key.src] && server.Valid()
    requires Known(server.ring.history) == QueriesOf(s, key.src)
    modifies server.ring, server.ring.slots, server.clients, server.clients.nodes
    ensures server.Valid() && Known(server.ring.history) == QueriesOf(AskAt(net, s, key), key.src)
    ensures AskAt(net, s, key).inflight == s.inflight
  {
    server.OnRequest(fd, key.destination, key.startingTime);
  }
}
