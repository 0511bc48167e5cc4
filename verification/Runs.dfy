/** Runs of the whole network: queries are asked, waits time out and packets are delivered, in any order. */
module Runs {
  import opened Text
  import opened Protocol
  import opened Journey
  import opened Steps

  // registry has the queries each station holds, written the payload whose line it wrote last, down the stations
  // whose program has ended. asked, injected and answers only record what has happened: every query asked, one
  // entry for every initial payload sent, and every payload that came home with found == 4, oldest first.
  datatype State = State(
    inflight: seq<Packet>, registry: map<Address, seq<Query>>, written: map<Address, Payload>, down: set<Address>,
    asked: set<Key>, injected: multiset<Key>, answers: seq<Payload>)

  datatype Action = Ask(key: Key) | Resend(key: Key) | Deliver(i: nat)

  const START := State([], map[], map[], {}, {}, multiset{}, [])

  function QueriesOf(s: State, a: Address): seq<Query> {
    if a in s.registry then s.registry[a] else []
  }

  function InitialPacket(net: Network, key: Key): Packet
    requires key.src in net
  {
    Packet(key.src, InitialPayload(net[key.src], key.destination, key.startingTime))
  }

  function Wrote(s: State, a: Address, p: Payload): State {
    s.(written := s.written[a := p])
  }

  function Inject(net: Network, s: State, key: Key): State
    requires key.src in net
  {
    var first := InitialPacket(net, key);
    Wrote(s, key.src, first.payload).(inflight := s.inflight + [first], injected := s.injected + multiset{key})
  }

  function Enlist(net: Network, s: State, key: Key): State
    requires key.src in net
  {
    s.(asked := s.asked + {key},
       registry := s.registry[key.src :=
         Register(net[key.src].language, QueriesOf(s, key.src), key.destination, key.startingTime)])
  }

  // A browser asks: the station takes up a query it does not hold, and a Python station floods unless it has
  // an answer. A C station leaves the flood to its next timeout.
  function AskAt(net: Network, s: State, key: Key): State
    requires key.src in net
  {
    if net[key.src].language == C || Answered(QueriesOf(s, key.src), key.destination, key.startingTime)
    then Enlist(net, s, key)
    else Inject(net, Enlist(net, s, key), key)
  }

  // A wait for an answer times out: a Python station does as when it was asked, a C station floods.
  function ResendAt(net: Network, s: State, key: Key): State
    requires key.src in net
  {
    if net[key.src].language == C then Inject(net, s, key) else AskAt(net, s, key)
  }

  function Without<T>(s: seq<T>, i: nat): seq<T>
    requires i < |s|
  {
    s[..i] + s[i + 1..]
  }

  function Crash(s: State, a: Address): State {
    s.(down := s.down + {a})
  }

  function ComeHome(net: Network, s: State, a: Address, p: Payload): State
    requires a in net
  {
    s.(answers := s.answers + [p], registry := s.registry[a := Kept(net[a].language, QueriesOf(s, a), p)])
  }

  // What a station does with a payload it can handle: it sends packets on, or the payload has come home, which
  // ends the program of a station that no longer holds the query, or never did.
  function React(net: Network, s: State, a: Address, r: Reaction): State
    requires a in net
  {
    match r.finished
    case None => s.(inflight := s.inflight + r.sends)
    case Some(p) => if Finishes(QueriesOf(s, a), p) then ComeHome(net, s, a, p) else Crash(s, a)
  }

  // A packet to a station that is down is lost; one its station cannot handle brings the station down.
  ghost function DeliverOne(net: Network, s: State, i: nat): State
    requires i < |s.inflight|
  {
    var pkt := s.inflight[i];
    var rest := s.(inflight := Without(s.inflight, i));
    if pkt.to !in net || pkt.to in s.down then rest
    else if Safe(net[pkt.to], pkt.payload) then
      React(net, Wrote(rest, pkt.to, Written(net[pkt.to], pkt.payload)), pkt.to, Handle(net[pkt.to], pkt.payload))
    else Crash(rest, pkt.to)
  }

  lemma DeliveryLeaves(net: Network, s: State, i: nat)
    requires i < |s.inflight|
    ensures var pkt, s' := s.inflight[i], DeliverOne(net, s, i);
            s'.injected == s.injected && s'.asked == s.asked && s.down <= s'.down
            && (s'.inflight == Without(s.inflight, i)
                || (pkt.to in net && Safe(net[pkt.to], pkt.payload)
                    && s'.inflight == Without(s.inflight, i) + Handle(net[pkt.to], pkt.payload).sends))
  {
  }

  ghost predicate Enabled(net: Network, s: State, act: Action) {
    match act
    case Ask(key) => ValidKey(net, key) && key.src !in s.down
    case Resend(key) => ValidKey(net, key) && key.src !in s.down && key in s.asked
    case Deliver(i) => i < |s.inflight|
  }

  ghost function Next(net: Network, s: State, act: Action): State
    requires Enabled(net, s, act)
  {
    match act
    case Ask(key) => AskAt(net, s, key)
    case Resend(key) => ResendAt(net, s, key)
    case Deliver(i) => DeliverOne(net, s, i)
  }

  // A run: its actions, and the states before, between and after them.
  datatype Run = Run(acts: seq<Action>, states: seq<State>)

  ghost predicate StepOf(net: Network, r: Run, i: nat)
    requires i < |r.acts| && |r.states| == |r.acts| + 1
  {
    Enabled(net, r.states[i], r.acts[i]) && r.states[i + 1] == Next(net, r.states[i], r.acts[i])
  }

  ghost predicate IsRun(net: Network, r: Run) {
    |r.states| == |r.acts| + 1
    && forall i {:trigger StepOf(net, r, i)} :: 0 <= i < |r.acts| ==> StepOf(net, r, i)
  }

  function First(r: Run): State
    requires r.states != []
  {
    r.states[0]
  }

  function Last(r: Run): State
    requires r.states != []
  {
    r.states[|r.states| - 1]
  }

  ghost predicate Reachable(net: Network, s: State) {
    exists r :: IsRun(net, r) && First(r) == START && Last(r) == s
  }

  // One more action at the end of a run.
  function Longer(r: Run, act: Action, s: State): Run {
    Run(r.acts + [act], r.states + [s])
  }

  lemma LongerIsRun(net: Network, r: Run, act: Action)
    requires IsRun(net, r) && Enabled(net, Last(r), act)
    ensures IsRun(net, Longer(r, act, Next(net, Last(r), act)))
  {
    var r' := Longer(r, act, Next(net, Last(r), act));
    forall i | 0 <= i < |r'.acts| ensures StepOf(net, r', i) {
      assert i < |r.acts| ==> StepOf(net, r, i);
    }
  }

  lemma NextIsReachable(net: Network, s: State, act: Action)
    requires Reachable(net, s) && Enabled(net, s, act)
    ensures Reachable(net, Next(net, s, act))
  {
    var r :| IsRun(net, r) && First(r) == START && Last(r) == s;
    LongerIsRun(net, r, act);
    assert Last(Longer(r, act, Next(net, s, act))) == Next(net, s, act);
  }

  // ----- what every state keeps

  function AnswerKey(p: Payload): Key {
    Key(if p.addresses == [] then "" else p.addresses[0], p.destination, p.startingTime)
  }

  ghost predicate IsAnswer(net: Network, key: Key, p: Payload) {
    ValidKey(net, key) && Route(net, key, p.addresses)
    && Within(net, p.addresses) && p == AnswerPayload(net, key, p.addresses)
  }

  ghost predicate PacketsLegitimate(net: Network, s: State) {
    forall pkt :: pkt in s.inflight ==> Legitimate(net, KeyOf(pkt), pkt) && KeyOf(pkt) in s.injected
  }

  ghost predicate AnswersTrue(net: Network, s: State) {
    forall p :: p in s.answers ==> IsAnswer(net, AnswerKey(p), p) && AnswerKey(p) in s.injected
  }

  // The first of the fastest answers to a query, in the order they came home.
  function BestFor(answers: seq<Payload>, key: Key): Option<Payload> {
    if answers == [] then None
    else
      var best, p := BestFor(answers[..|answers| - 1], key), answers[|answers| - 1];
      if AnswerKey(p) == key && (best == None || LastTime(best.value) > LastTime(p)) then Some(p) else best
  }

  lemma {:induction false} BestIsMinimum(answers: seq<Payload>, key: Key)
    ensures BestFor(answers, key) == None <==> forall p :: p in answers ==> AnswerKey(p) != key
    ensures BestFor(answers, key).Some? ==>
              var best := BestFor(answers, key).value;
              best in answers && AnswerKey(best) == key
              && forall p :: p in answers && AnswerKey(p) == key ==> LastTime(best) <= LastTime(p)
  {
    if answers != [] {
      var init := answers[..|answers| - 1];
      BestIsMinimum(init, key);
      assert answers == init + [answers[|answers| - 1]];
    }
  }

  // What a list has for a query: its best answer, or no entry because it is full or was never asked.
  predicate Entry(queries: seq<Query>, destination: Name, startTime: string, best: Option<Payload>, asked: bool) {
    var i := FindQuery(queries, destination, startTime);
    if i < |queries| then queries[i].answer == best else |queries| >= MAX_QUERIES || !asked
  }

  ghost predicate RegistryEntry(s: State, a: Address, destination: Name, startTime: string) {
    var key := Key(a, destination, startTime);
    Entry(QueriesOf(s, a), destination, startTime, BestFor(s.answers, key), key in s.asked)
  }

  // A Python station's list holds the best answer so far to each query in it.
  ghost predicate RegistryBest(net: Network, s: State) {
    forall a, destination, startTime {:trigger RegistryEntry(s, a, destination, startTime)} ::
      a in net && net[a].language == Python ==> RegistryEntry(s, a, destination, startTime)
  }

  ghost predicate AskedFirst(net: Network, s: State) {
    (forall key :: key in s.asked ==> ValidKey(net, key)) && forall key :: key in s.injected ==> key in s.asked
  }

  ghost predicate Inv(net: Network, s: State) {
    PacketsLegitimate(net, s) && AnswersTrue(net, s) && AskedFirst(net, s) && RegistryBest(net, s)
  }

  // ----- asking

  lemma FindAfterAdd(queries: seq<Query>, q: Query, destination: Name, startTime: string)
    ensures var i := FindQuery(queries, destination, startTime);
            FindQuery(queries + [q], destination, startTime) ==
              if i < |queries| then i
              else if q.destination == destination && q.startTime == startTime then |queries|
              else |queries| + 1
  {
    var i, j := FindQuery(queries, destination, startTime), FindQuery(queries + [q], destination, startTime);
    assert forall k :: 0 <= k < |queries| ==> (queries + [q])[k] == queries[k];
    assert (queries + [q])[|queries|] == q;
  }

  lemma FindAfterUpdate(queries: seq<Query>, at: nat, p: Payload, destination: Name, startTime: string)
    requires at < |queries|
    ensures FindQuery(queries[at := queries[at].(answer := Some(p))], destination, startTime)
         == FindQuery(queries, destination, startTime)
  {
    var updated := queries[at := queries[at].(answer := Some(p))];
    var i, j := FindQuery(queries, destination, startTime), FindQuery(updated, destination, startTime);
    assert forall k :: 0 <= k < |queries| ==>
      updated[k].destination == queries[k].destination && updated[k].startTime == queries[k].startTime;
  }

  lemma InitialIsLegitimate(net: Network, key: Key)
    requires WellFormed(net) && ValidKey(net, key)
    ensures Legitimate(net, key, InitialPacket(net, key)) && KeyOf(InitialPacket(net, key)) == key
  {
    assert [] + [key.src] == [key.src];
    assert InitialPacket(net, key).payload == FloodPayload(net, key, []);
    assert Partial(net, key, [], key.src);
  }

  lemma EnlistKeepsBest(net: Network, s: State, key: Key)
    requires key.src in net && RegistryBest(net, s) && AnswersTrue(net, s) && AskedFirst(net, s)
    ensures RegistryBest(net, Enlist(net, s, key))
  {
    var s' := Enlist(net, s, key);
    forall a, destination, startTime | a in net && net[a].language == Python
      ensures RegistryEntry(s', a, destination, startTime)
    {
      assert RegistryEntry(s, a, destination, startTime);
      if a == key.src {
        assert RegistryEntry(s, a, key.destination, key.startingTime);
        FindAfterAdd(QueriesOf(s, a), Query(key.destination, key.startingTime, None), destination, startTime);
        BestIsMinimum(s.answers, key);
      }
    }
  }

  lemma InjectKeepsInv(net: Network, s: State, key: Key)
    requires WellFormed(net) && ValidKey(net, key) && Inv(net, s) && key in s.asked
    ensures Inv(net, Inject(net, s, key))
  {
    InitialIsLegitimate(net, key);
    var s' := Inject(net, s, key);
    forall a, destination, startTime | a in net && net[a].language == Python
      ensures RegistryEntry(s', a, destination, startTime)
    {
      assert RegistryEntry(s, a, destination, startTime);
    }
  }

  lemma AskKeepsInv(net: Network, s: State, key: Key)
    requires WellFormed(net) && ValidKey(net, key) && Inv(net, s)
    ensures Inv(net, AskAt(net, s, key))
  {
    EnlistKeepsBest(net, s, key);
    var s' := Enlist(net, s, key);
    assert Inv(net, s');
    InjectKeepsInv(net, s', key);
  }

  lemma ResendKeepsInv(net: Network, s: State, key: Key)
    requires WellFormed(net) && ValidKey(net, key) && Inv(net, s) && key in s.asked
    ensures Inv(net, ResendAt(net, s, key))
  {
    AskKeepsInv(net, s, key);
    InjectKeepsInv(net, s, key);
  }

  // ----- delivering

  lemma BestAfter(answers: seq<Payload>, p: Payload, key: Key)
    ensures BestFor(answers + [p], key) ==
              var best := BestFor(answers, key);
              if AnswerKey(p) == key && (best == None || LastTime(best.value) > LastTime(p)) then Some(p) else best
  {
    assert (answers + [p])[..|answers|] == answers;
  }

  // What a list has for a query after a payload has come home.
  lemma EntryAfterRecord(queries: seq<Query>, p: Payload, destination: Name, startTime: string,
                         best: Option<Payload>, asked: bool, bestForP: Option<Payload>)
    requires Entry(queries, destination, startTime, best, asked)
    requires Entry(queries, p.destination, p.startingTime, bestForP, true)
    ensures var better := destination == p.destination && startTime == p.startingTime
                          && (best == None || LastTime(best.value) > LastTime(p));
            Entry(Record(queries, p), destination, startTime, if better then Some(p) else best, asked)
  {
    var at := FindQuery(queries, p.destination, p.startingTime);
    if at < |queries| {
      FindAfterUpdate(queries, at, p, destination, startTime);
    }
  }

  // What one entry of a list becomes when a payload comes home: to another station, or to this one.
  lemma OtherEntry(net: Network, s: State, home: Address, p: Payload, a: Address, destination: Name, startTime: string)
    requires home in net && AnswerKey(p).src == home && a != home
    requires RegistryEntry(s, a, destination, startTime)
    ensures RegistryEntry(ComeHome(net, s, home, p), a, destination, startTime)
  {
    BestAfter(s.answers, p, Key(a, destination, startTime));
  }

  lemma OwnEntry(net: Network, s: State, a: Address, p: Payload, destination: Name, startTime: string)
    requires a in net && AnswerKey(p).src == a && net[a].language == Python && AnswerKey(p) in s.asked
    requires RegistryEntry(s, a, destination, startTime) && RegistryEntry(s, a, p.destination, p.startingTime)
    ensures RegistryEntry(ComeHome(net, s, a, p), a, destination, startTime)
  {
    var key := Key(a, destination, startTime);
    BestAfter(s.answers, p, key);
    EntryAfterRecord(QueriesOf(s, a), p, destination, startTime,
                     BestFor(s.answers, key), key in s.asked, BestFor(s.answers, AnswerKey(p)));
  }

  lemma ComeHomeKeepsBest(net: Network, s: State, home: Address, p: Payload)
    requires RegistryBest(net, s) && home in net && AnswerKey(p) in s.asked && AnswerKey(p).src == home
    ensures RegistryBest(net, ComeHome(net, s, home, p))
  {
    forall a, destination, startTime | a in net && net[a].language == Python
      ensures RegistryEntry(ComeHome(net, s, home, p), a, destination, startTime)
    {
      assert RegistryEntry(s, a, destination, startTime) && RegistryEntry(s, a, p.destination, p.startingTime);
      if a == home {
        OwnEntry(net, s, a, p, destination, startTime);
      } else {
        OtherEntry(net, s, home, p, a, destination, startTime);
      }
    }
  }

  // What is left when one packet is taken out and a line is written.
  lemma RestKeepsInv(net: Network, s: State, i: nat, written: map<Address, Payload>)
    requires Inv(net, s) && i < |s.inflight|
    ensures Inv(net, s.(inflight := Without(s.inflight, i), written := written))
  {
    var rest := s.(inflight := Without(s.inflight, i), written := written);
    forall a, destination, startTime | a in net && net[a].language == Python
      ensures RegistryEntry(rest, a, destination, startTime)
    {
      assert RegistryEntry(s, a, destination, startTime);
    }
    assert forall pkt :: pkt in rest.inflight ==> pkt in s.inflight;
  }

  lemma CrashKeepsInv(net: Network, s: State, a: Address)
    requires Inv(net, s)
    ensures Inv(net, Crash(s, a))
  {
    forall b, destination, startTime | b in net && net[b].language == Python
      ensures RegistryEntry(Crash(s, a), b, destination, startTime)
    {
      assert RegistryEntry(s, b, destination, startTime);
    }
  }

  lemma SendsKeepInv(net: Network, s: State, key: Key, sends: seq<Packet>)
    requires Inv(net, s) && key in s.injected && forall pkt :: pkt in sends ==> Legitimate(net, key, pkt)
    ensures Inv(net, s.(inflight := s.inflight + sends))
  {
    var s' := s.(inflight := s.inflight + sends);
    forall pkt | pkt in sends ensures KeyOf(pkt) == key {
      LegitimateKey(net, key, pkt);
    }
    forall a, destination, startTime | a in net && net[a].language == Python
      ensures RegistryEntry(s', a, destination, startTime)
    {
      assert RegistryEntry(s, a, destination, startTime);
    }
  }

  lemma ComeHomeKeepsInv(net: Network, s: State, home: Address, p: Payload)
    requires Inv(net, s) && home in net && IsAnswer(net, AnswerKey(p), p) && AnswerKey(p) in s.injected
    requires AnswerKey(p).src == home
    ensures Inv(net, ComeHome(net, s, home, p))
  {
    ComeHomeKeepsBest(net, s, home, p);
  }

  lemma ReactKeepsInv(net: Network, s: State, key: Key, pkt: Packet)
    requires WellFormed(net) && Inv(net, s) && key in s.injected && Legitimate(net, key, pkt)
    requires pkt.to in net && Safe(net[pkt.to], pkt.payload)
    ensures Inv(net, React(net, s, pkt.to, Handle(net[pkt.to], pkt.payload)))
  {
    DeliveryKeepsLegitimacy(net, key, pkt);
    CrashKeepsInv(net, s, pkt.to);
    var r := Handle(net[pkt.to], pkt.payload);
    if r.finished.Some? {
      assert AnswerKey(r.finished.value) == key;
      HomeIsSource(net, key, pkt);
      ComeHomeKeepsInv(net, s, pkt.to, r.finished.value);
    } else {
      SendsKeepInv(net, s, key, r.sends);
    }
  }

  lemma DeliverKeepsInv(net: Network, s: State, i: nat)
    requires WellFormed(net) && Inv(net, s) && i < |s.inflight|
    ensures Inv(net, DeliverOne(net, s, i))
  {
    var pkt := s.inflight[i];
    assert pkt in s.inflight;
    DeliveryKeepsLegitimacy(net, KeyOf(pkt), pkt);
    var written := s.written[pkt.to := Written(net[pkt.to], pkt.payload)];
    RestKeepsInv(net, s, i, s.written);
    RestKeepsInv(net, s, i, written);
    ReactKeepsInv(net, s.(inflight := Without(s.inflight, i), written := written), KeyOf(pkt), pkt);
  }

  // A payload finishes at the source of its query, with one step left to go.
  lemma HomeIsSource(net: Network, key: Key, pkt: Packet)
    requires WellFormed(net) && Legitimate(net, key, pkt)
    ensures pkt.to in net && Safe(net[pkt.to], pkt.payload)
    ensures Handle(net[pkt.to], pkt.payload).finished.Some? <==> pkt.payload.found == 3 && pkt.payload.current == 1
    ensures Handle(net[pkt.to], pkt.payload).finished.Some? ==> pkt.to == key.src
  {
    DeliveryKeepsLegitimacy(net, key, pkt);
    if Flooding(net, key, pkt) {
    } else {
      TravelDelivery(net, key, pkt);
    }
  }

  // ----- every reachable state

  lemma {:induction false} RunKeepsInv(net: Network, r: Run, i: nat)
    requires WellFormed(net) && IsRun(net, r) && Inv(net, First(r)) && i < |r.states|
    ensures Inv(net, r.states[i])
  {
    if i > 0 {
      RunKeepsInv(net, r, i - 1);
      assert StepOf(net, r, i - 1);
      match r.acts[i - 1]
      case Ask(key) => AskKeepsInv(net, r.states[i - 1], key);
      case Resend(key) => ResendKeepsInv(net, r.states[i - 1], key);
      case Deliver(k) => DeliverKeepsInv(net, r.states[i - 1], k);
    }
  }

  /** In every reachable state each packet in flight has one of the closed forms, each answer that came
      home is the answer for a route, and each Python list holds the best of them. */
  lemma EveryRunKeepsInv(net: Network, s: State)
    requires WellFormed(net) && Reachable(net, s)
    ensures Inv(net, s)
  {
    var r :| IsRun(net, r) && First(r) == START && Last(r) == s;
    RunKeepsInv(net, r, |r.acts|);
  }

  /** The one way a station can fail: a delivery brings its station down if and only if it brings home a finished
      payload whose query the station does not hold. */
  lemma StationFailsIff(net: Network, s: State, i: nat)
    requires WellFormed(net) && Reachable(net, s) && i < |s.inflight| && s.inflight[i].to !in s.down
    ensures var pkt := s.inflight[i];
            DeliverOne(net, s, i).down == (
              if pkt.payload.found == 3 && pkt.payload.current == 1
                 && !Holds(QueriesOf(s, pkt.to), pkt.payload.destination, pkt.payload.startingTime)
              then s.down + {pkt.to} else s.down)
  {
    EveryRunKeepsInv(net, s);
    var pkt := s.inflight[i];
    assert pkt in s.inflight;
    HomeIsSource(net, KeyOf(pkt), pkt);
    DeliveryKeepsLegitimacy(net, KeyOf(pkt), pkt);
  }

  // ----- what a station has in store for a query

  predicate Registered(s: State, key: Key) {
    Holds(QueriesOf(s, key.src), key.destination, key.startingTime)
  }

  function StoredAnswer(s: State, key: Key): Option<Payload>
    requires Registered(s, key)
  {
    QueriesOf(s, key.src)[FindQuery(QueriesOf(s, key.src), key.destination, key.startingTime)].answer
  }

  lemma StoredIsBest(net: Network, s: State, key: Key)
    requires RegistryBest(net, s) && key.src in net && net[key.src].language == Python && Registered(s, key)
    ensures StoredAnswer(s, key) == BestFor(s.answers, key)
  {
    assert RegistryEntry(s, key.src, key.destination, key.startingTime);
  }

  // ----- what asking starts

  // The packet a flood begins with.
  ghost predicate IsFirstPacket(net: Network, key: Key, pkt: Packet)
    requires key.src in net
  {
    pkt.to == key.src
    && pkt.payload == Payload(0, 0, 0, [], [], [], [], key.destination, net[key.src].name, key.startingTime)
  }

  // One initial packet enters flight, or none.
  ghost predicate Floods(net: Network, s: State, s': State, key: Key, yes: bool)
    requires key.src in net
  {
    if yes then |s'.inflight| == |s.inflight| + 1 && s'.inflight[..|s.inflight|] == s.inflight
                && IsFirstPacket(net, key, s'.inflight[|s.inflight|]) && s'.injected == s.injected + multiset{key}
    else s'.inflight == s.inflight && s'.injected == s.injected
  }

  lemma AnsweredIff(net: Network, s: State, key: Key)
    requires RegistryBest(net, s) && key.src in net && net[key.src].language == Python
    ensures Answered(QueriesOf(s, key.src), key.destination, key.startingTime)
       <==> Registered(s, key) && exists p :: p in s.answers && AnswerKey(p) == key
  {
    assert RegistryEntry(s, key.src, key.destination, key.startingTime);
    BestIsMinimum(s.answers, key);
  }

  lemma PythonAsks(net: Network, s: State, key: Key)
    requires key.src in net && net[key.src].language == Python
    ensures var s' := AskAt(net, s, key);
            Floods(net, s, s', key, !Answered(QueriesOf(s, key.src), key.destination, key.startingTime))
            && s'.asked == s.asked + {key} && s'.answers == s.answers && s'.down == s.down
            && forall a :: a != key.src ==> QueriesOf(s', a) == QueriesOf(s, a)
  {
    hide Answered, Register;
  }

  /** A Python station that is asked, or whose wait times out, floods if and only if the query is not registered or no
      answer to it has come home; nothing comes home or goes down, and no other station's list changes. */
  lemma PythonFloodsIff(net: Network, s: State, act: Action)
    requires WellFormed(net) && Reachable(net, s) && !act.Deliver? && Enabled(net, s, act)
    requires net[act.key.src].language == Python
    ensures var s', key := Next(net, s, act), act.key;
            Floods(net, s, s', key, !Registered(s, key) || forall p :: p in s.answers ==> AnswerKey(p) != key)
            && s'.asked == s.asked + {key} && s'.answers == s.answers && s'.down == s.down
            && forall a :: a != key.src ==> QueriesOf(s', a) == QueriesOf(s, a)
  {
    hide Answered, AskAt, Floods, QueriesOf, Registered;
    EveryRunKeepsInv(net, s);
    AnsweredIff(net, s, act.key);
    PythonAsks(net, s, act.key);
  }

  /** A C station that is asked sends nothing; when its wait times out it floods, whatever has come home, and its list
      stays as it is. */
  lemma CFloodsAtTimeoutOnly(net: Network, s: State, key: Key)
    requires key.src in net && net[key.src].language == C
    ensures var s' := AskAt(net, s, key);
            Floods(net, s, s', key, false)
            && s'.asked == s.asked + {key} && s'.answers == s.answers && s'.down == s.down
            && forall a :: a != key.src ==> QueriesOf(s', a) == QueriesOf(s, a)
    ensures var s' := ResendAt(net, s, key);
            Floods(net, s, s', key, true) && s'.asked == s.asked && s'.answers == s.answers && s'.down == s.down
            && forall a :: QueriesOf(s', a) == QueriesOf(s, a)
  {
  }
}
