/** What can be read off any packet in flight, whatever the run. */
module Positions {
  import opened Text
  import opened Protocol
  import opened Journey
  import opened Steps
  import opened Runs
  import opened Itinerary

  // The four lists agree with hops and with each other, the path is simple and starts at the source, and
  // the destination stands in it only when found, and only last.
  ghost predicate WellPlaced(net: Network, p: Payload) {
    Shaped(p) && p.found <= 3 && Distinct(p.addresses) && Walk(net, p.addresses)
    && (forall i :: 0 <= i < p.hops ==> p.stations[i] == net[p.addresses[i]].name)
    && (p.hops > 0 ==> p.stations[0] == p.source)
    && (forall i :: 0 <= i < p.hops ==> (p.stations[i] == p.destination <==> p.found >= 1 && i == p.hops - 1))
    && (p.found >= 1 ==> p.hops >= 2)
  }

  // A flooded packet goes to a station it has not visited; any other to the station it counts as current.
  ghost predicate WellAddressed(net: Network, pkt: Packet) {
    var p := pkt.payload;
    pkt.to in net
    && if p.found == 0
       then p.current == p.hops && pkt.to !in p.addresses && (p.hops == 0 ==> net[pkt.to].name == p.source)
       else 1 <= p.current <= |p.addresses| && pkt.to == p.addresses[p.current - 1]
  }

  lemma FloodingIsInPlace(net: Network, key: Key, pkt: Packet)
    requires WellFormed(net) && ValidKey(net, key) && Flooding(net, key, pkt)
    ensures WellPlaced(net, pkt.payload) && WellAddressed(net, pkt)
  {
    var q := pkt.payload.addresses;
    var p := q + [pkt.to];
    assert p[|p| - 1] == pkt.to;
    forall i | 0 <= i < |q| - 1 ensures Edge(net, q, i) {
      assert Edge(net, p, i);
    }
    assert forall i :: 0 <= i < |q| ==> p[i] == q[i];
  }

  lemma TravellingIsInPlace(net: Network, key: Key, pkt: Packet)
    requires WellFormed(net) && ValidKey(net, key) && Travelling(net, key, pkt)
    ensures WellPlaced(net, pkt.payload) && WellAddressed(net, pkt)
  {
    var q := pkt.payload.addresses;
    forall i | 0 <= i < |q|
      ensures pkt.payload.stations[i] == net[q[i]].name
      ensures pkt.payload.stations[i] == pkt.payload.destination <==> i == |q| - 1
    {
      LastIsDestination(net, key, q, i);
    }
    LastIsDestination(net, key, q, 0);
  }

  /** The packet-position invariant: every packet in flight in every run is well placed and well addressed,
      and its station can handle it without an index out of range or a time it cannot read, up to the look-up
      of the query that a finished payload ends in (Runs.StationFailsIff). */
  lemma EveryPacketIsInPlace(net: Network, s: State, pkt: Packet)
    requires WellFormed(net) && Reachable(net, s) && pkt in s.inflight
    ensures WellPlaced(net, pkt.payload) && WellAddressed(net, pkt) && Safe(net[pkt.to], pkt.payload)
  {
    EveryRunKeepsInv(net, s);
    var key := KeyOf(pkt);
    DeliveryKeepsLegitimacy(net, key, pkt);
    if Flooding(net, key, pkt) {
      FloodingIsInPlace(net, key, pkt);
    } else {
      TravellingIsInPlace(net, key, pkt);
    }
  }

  /** What is asked never changes on the way: destination and starting time of every packet in flight are those of
      an injected query, and its source is that query's station, where its path begins. */
  lemma EveryPacketAsksWhatWasAsked(net: Network, s: State, pkt: Packet)
    requires WellFormed(net) && Reachable(net, s) && pkt in s.inflight
    ensures exists key :: key in s.injected && ValidKey(net, key)
              && pkt.payload.destination == key.destination && pkt.payload.startingTime == key.startingTime
              && pkt.payload.source == net[key.src].name
              && key.src == if pkt.payload.addresses == [] then pkt.to else pkt.payload.addresses[0]
  {
    EveryRunKeepsInv(net, s);
    var key := KeyOf(pkt);
    assert key in s.injected && Legitimate(net, key, pkt);
  }

  lemma ForwardForm(net: Network, key: Key, pkt: Packet, i: nat)
    requires Legitimate(net, key, pkt) && pkt.payload.found == 2 && i < pkt.payload.current
    ensures i < pkt.payload.hops == |pkt.payload.times| == |pkt.payload.addresses| && pkt.payload.hops >= 2
    ensures Walk(net, pkt.payload.addresses) && pkt.payload.times[i] == TimeAt(net, key, pkt.payload.addresses, i)
  {
  }

  // t is the earliest arrival at the end of w of any choice of one bus per leg, or too late for all of them.
  ghost predicate EarliestAlong(net: Network, w: seq<Address>, start: nat, t: nat) {
    (forall legs :: Ride(net, w, legs, start) ==> t <= ReadyAt(legs, start, |legs|))
    && (t < NEVER ==> exists legs :: Ride(net, w, legs, start) && ReadyAt(legs, start, |legs|) == t)
  }

  lemma TimeIsEarliest(net: Network, key: Key, q: seq<Address>, i: nat)
    requires Regular(net) && Walk(net, q) && 1 <= i < |q|
    ensures EarliestAlong(net, q[..i + 1], Minutes(key.startingTime), Minutes(TimeAt(net, key, q, i)))
  {
    var w, start, t := q[..i + 1], Minutes(key.startingTime), Minutes(TimeAt(net, key, q, i));
    forall legs | Ride(net, w, legs, start) ensures t <= ReadyAt(legs, start, |legs|) {
      ForwardPassIsEarliest(net, key, q, legs, i);
    }
    if t < NEVER {
      var legs := ForwardPassIsReached(net, key, q, i);
      assert Ride(net, w, legs, start) && ReadyAt(legs, start, |legs|) == t;
    }
  }

  /** The forward walk on the wire: the times a packet has gathered are, station by station, the earliest arrivals
      along its path, and each that is short of 99:99 is the arrival of buses one can catch. */
  lemma ForwardPacketIsOptimal(net: Network, s: State, pkt: Packet, i: nat)
    requires WellFormed(net) && Regular(net) && Reachable(net, s) && pkt in s.inflight
    requires pkt.payload.found == 2 && 1 <= i < pkt.payload.current
    ensures i < pkt.payload.hops == |pkt.payload.times| == |pkt.payload.addresses|
    ensures EarliestAlong(net, pkt.payload.addresses[..i + 1],
                          Minutes(pkt.payload.startingTime), Minutes(pkt.payload.times[i]))
  {
    EveryRunKeepsInv(net, s);
    ForwardForm(net, KeyOf(pkt), pkt, i);
    TimeIsEarliest(net, KeyOf(pkt), pkt.payload.addresses, i);
  }
}
