/** What a browser is sent that asks a Python station for a journey the station has an answer to. */
module AskAgain {
  import opened Text
  import opened Protocol
  import opened Journey
  import opened Steps
  import opened Runs
  import opened Enumeration
  import opened Capacity
  import opened Earliest
  import opened Replies
  import opened Codec
  import opened RoundTrip
  import opened Wire

  // The line the station wrote last, whatever it was about.
  function SentAgain(s: State, key: Key): string {
    if key.src in s.written then Serialize(s.written[key.src]) else ""
  }

  ghost predicate HasAnswer(s: State, key: Key) {
    Registered(s, key) && StoredAnswer(s, key).Some?
  }

  // ----- which events write a line

  // A question or a timeout for a query without an answer, or any packet: each makes a Python station write a line.
  ghost predicate Writes(s: State, act: Action, a: Address) {
    match act
    case Deliver(i) => i < |s.inflight| && s.inflight[i].to == a && a !in s.down
    case _ => act.key.src == a && !Answered(QueriesOf(s, a), act.key.destination, act.key.startingTime)
  }

  // The delivery that brings this path home as an answer to the query.
  ghost predicate BringsPath(s: State, act: Action, key: Key, q: seq<Address>) {
    act.Deliver? && act.i < |s.inflight|
    && var pkt := s.inflight[act.i];
       pkt.to == key.src && pkt.payload.found == 3 && pkt.payload.current == 1
       && KeyOf(pkt) == key && pkt.payload.addresses == q
  }

  // What it writes.
  ghost function WrittenBy(net: Network, s: State, act: Action): Payload
    requires WellFormed(net) && Inv(net, s) && Enabled(net, s, act)
  {
    match act
    case Deliver(i) =>
      var pkt := s.inflight[i];
      assert pkt in s.inflight;
      DeliveryKeepsLegitimacy(net, KeyOf(pkt), pkt);
      Written(net[pkt.to], pkt.payload)
    case _ => InitialPayload(net[act.key.src], act.key.destination, act.key.startingTime)
  }

  lemma ReactWritesNoMore(net: Network, s: State, a: Address, r: Reaction)
    requires a in net
    ensures React(net, s, a, r).written == s.written
  {
  }

  ghost predicate SameLine(s: State, s': State, a: Address) {
    (a in s'.written <==> a in s.written) && (a in s.written ==> s'.written[a] == s.written[a])
  }

  lemma DeliveryWrites(net: Network, s: State, i: nat, a: Address)
    requires WellFormed(net) && Inv(net, s) && i < |s.inflight|
    ensures var s', pkt := DeliverOne(net, s, i), s.inflight[i];
            pkt.to in net && Safe(net[pkt.to], pkt.payload)
            && if pkt.to == a && a !in s.down then a in s'.written && s'.written[a] == Written(net[a], pkt.payload)
               else SameLine(s, s', a)
  {
    hide React, Handle, Written;
    var pkt := s.inflight[i];
    assert pkt in s.inflight;
    DeliveryKeepsLegitimacy(net, KeyOf(pkt), pkt);
    var rest := Wrote(s.(inflight := Without(s.inflight, i)), pkt.to, Written(net[pkt.to], pkt.payload));
    ReactWritesNoMore(net, rest, pkt.to, Handle(net[pkt.to], pkt.payload));
  }

  lemma StepWrites(net: Network, s: State, act: Action, a: Address)
    requires WellFormed(net) && Inv(net, s) && Enabled(net, s, act) && a in net && net[a].language == Python
    ensures var s' := Next(net, s, act);
            if Writes(s, act, a) then a in s'.written && s'.written[a] == WrittenBy(net, s, act)
            else SameLine(s, s', a)
  {
    hide DeliverOne, Written, Inv, Register, Safe;
    if act.Deliver? {
      DeliveryWrites(net, s, act.i, a);
    }
  }

  // Only a payload brought home is written with found == 4, and then it is the answer for its path.
  lemma WrittenByIs(net: Network, s: State, act: Action)
    requires WellFormed(net) && Inv(net, s) && Enabled(net, s, act)
    ensures var p := WrittenBy(net, s, act);
            Shaped(p) && (p.found == 4 ==>
              BringsPath(s, act, AnswerKey(p), p.addresses) && IsAnswer(net, AnswerKey(p), p))
    ensures forall key, q :: BringsPath(s, act, key, q) ==>
              IsAnswer(net, key, WrittenBy(net, s, act)) && WrittenBy(net, s, act).addresses == q
  {
    if act.Deliver? {
      var pkt := s.inflight[act.i];
      assert pkt in s.inflight;
      DeliveryKeepsLegitimacy(net, KeyOf(pkt), pkt);
      HomeIsSource(net, KeyOf(pkt), pkt);
      WrittenIsSent(net[pkt.to], pkt.payload);
    }
  }

  // The last event that made the station write.
  ghost predicate LastToWrite(r: Run, a: Address, k: nat, i: nat)
    requires |r.states| == |r.acts| + 1 && i <= |r.acts|
  {
    k < i && Writes(r.states[k], r.acts[k], a)
    && forall j :: k < j < i ==> !Writes(r.states[j], r.acts[j], a)
  }

  lemma {:induction false} LastWriter(net: Network, r: Run, a: Address, i: nat) returns (k: nat)
    requires WellFormed(net) && IsRun(net, r) && First(r) == START && i <= |r.acts|
    requires a in net && net[a].language == Python && a in r.states[i].written
    ensures LastToWrite(r, a, k, i) && Inv(net, r.states[k]) && Enabled(net, r.states[k], r.acts[k])
    ensures r.states[i].written[a] == WrittenBy(net, r.states[k], r.acts[k])
  {
    hide Next, WrittenBy, Inv, Enabled;
    assert i > 0;
    RunKeepsInv(net, r, i - 1);
    StepEnabled(net, r, i - 1);
    assert StepOf(net, r, i - 1);
    StepWrites(net, r.states[i - 1], r.acts[i - 1], a);
    if Writes(r.states[i - 1], r.acts[i - 1], a) {
      k := i - 1;
    } else {
      k := LastWriter(net, r, a, i - 1);
    }
  }

  lemma StepEnabled(net: Network, r: Run, i: nat)
    requires IsRun(net, r) && i < |r.acts|
    ensures Enabled(net, r.states[i], r.acts[i]) && r.states[i + 1] == Next(net, r.states[i], r.acts[i])
  {
    assert StepOf(net, r, i);
  }

  // What was written last stays so while nothing else is.
  lemma {:induction false} WrittenStays(net: Network, r: Run, a: Address, k: nat, i: nat)
    requires WellFormed(net) && IsRun(net, r) && First(r) == START && k < i <= |r.acts|
    requires a in net && net[a].language == Python && LastToWrite(r, a, k, i)
    requires Inv(net, r.states[k]) && Enabled(net, r.states[k], r.acts[k])
    ensures a in r.states[i].written && r.states[i].written[a] == WrittenBy(net, r.states[k], r.acts[k])
  {
    hide Next, WrittenBy, Inv, Enabled;
    RunKeepsInv(net, r, i - 1);
    StepEnabled(net, r, i - 1);
    StepWrites(net, r.states[i - 1], r.acts[i - 1], a);
    if k < i - 1 {
      WrittenStays(net, r, a, k, i - 1);
    }
  }

  // ----- lines tell payloads apart

  lemma LineBeginsWithFound(p: Payload)
    requires Shaped(p)
    ensures LeadingNumbers(Serialize(p)).Some? && LeadingNumbers(Serialize(p)).value.0 == p.found
  {
    if p.hops >= 1 {
      EncodersAgree(p);
      CraftForm(p);
      ReadsLine(p, Join(Body(p)) + ";");
    } else {
      EmptyForm(p);
      ReadsLine(p, " " + (" " + (" " + (" " + (Join(Body(p)) + ";")))));
    }
  }

  lemma AnswerLinesDiffer(net: Network, key: Key, p: Payload, other: Key, q: Payload)
    requires WellFormed(net) && IsAnswer(net, key, p) && IsAnswer(net, other, q) && Serialize(p) == Serialize(q)
    ensures p == q
  {
    JourneyIsWireSafe(net, key, p.addresses, 4, 0, |p.addresses|);
    JourneyIsWireSafe(net, other, q.addresses, 4, 0, |q.addresses|);
    DeserializesBoth(p);
    DeserializesBoth(q);
  }

  // ----- every run

  lemma StoredIsAnswer(net: Network, s: State, key: Key)
    requires WellFormed(net) && Inv(net, s) && key.src in net && net[key.src].language == Python && HasAnswer(s, key)
    ensures IsAnswer(net, key, StoredAnswer(s, key).value) && AnswerKey(StoredAnswer(s, key).value) == key
    ensures StoredAnswer(s, key).value in s.answers && Shaped(StoredAnswer(s, key).value)
  {
    StoredIsBest(net, s, key);
    BestIsMinimum(s.answers, key);
  }

  // The path home of the stored answer was the last thing its station had to do with.
  ghost predicate StoredCameLast(r: Run, key: Key)
    requires |r.states| == |r.acts| + 1 && HasAnswer(Last(r), key)
  {
    exists k: nat :: LastToWrite(r, key.src, k, |r.acts|)
      && BringsPath(r.states[k], r.acts[k], key, StoredAnswer(Last(r), key).value.addresses)
  }

  // A line equal to an answer's was written when a payload came home with that answer.
  lemma LineIsAnswer(net: Network, s: State, act: Action, key: Key, p: Payload)
    requires WellFormed(net) && Inv(net, s) && Enabled(net, s, act) && IsAnswer(net, key, p) && AnswerKey(p) == key
    requires Serialize(WrittenBy(net, s, act)) == Serialize(p)
    ensures BringsPath(s, act, key, p.addresses)
  {
    var w := WrittenBy(net, s, act);
    WrittenByIs(net, s, act);
    LineBeginsWithFound(w);
    LineBeginsWithFound(p);
    AnswerLinesDiffer(net, AnswerKey(w), w, key, p);
  }

  lemma SentSoCameLast(net: Network, r: Run, key: Key)
    requires WellFormed(net) && IsRun(net, r) && First(r) == START && HasAnswer(Last(r), key)
    requires key.src in net && net[key.src].language == Python
    requires SentAgain(Last(r), key) == Serialize(StoredAnswer(Last(r), key).value)
    ensures StoredCameLast(r, key)
  {
    hide WrittenBy, IsAnswer, BringsPath, Serialize, Enabled;
    var n, s, a := |r.acts|, Last(r), key.src;
    EndKeepsInv(net, r);
    StoredIsAnswer(net, s, key);
    var p := StoredAnswer(s, key).value;
    LineBeginsWithFound(p);
    assert a in s.written;
    var k := LastWriter(net, r, a, n);
    LineIsAnswer(net, r.states[k], r.acts[k], key, p);
  }

  lemma EndKeepsInv(net: Network, r: Run)
    requires WellFormed(net) && IsRun(net, r) && First(r) == START
    ensures Inv(net, Last(r)) && Last(r) == r.states[|r.acts|]
  {
    RunKeepsInv(net, r, |r.acts|);
  }

  lemma CameLastSoSent(net: Network, r: Run, key: Key)
    requires WellFormed(net) && IsRun(net, r) && First(r) == START && HasAnswer(Last(r), key)
    requires key.src in net && net[key.src].language == Python && StoredCameLast(r, key)
    ensures SentAgain(Last(r), key) == Serialize(StoredAnswer(Last(r), key).value)
  {
    hide WrittenBy, BringsPath, Serialize, Enabled, Next;
    var n, s, a := |r.acts|, Last(r), key.src;
    EndKeepsInv(net, r);
    StoredIsAnswer(net, s, key);
    var q := StoredAnswer(s, key).value.addresses;
    var k: nat :| LastToWrite(r, a, k, n) && BringsPath(r.states[k], r.acts[k], key, q);
    RunKeepsInv(net, r, k);
    StepEnabled(net, r, k);
    WrittenStays(net, r, a, k, n);
    WrittenByIs(net, r.states[k], r.acts[k]);
  }

  /** Asking again, in every run: a browser that asks a Python station for a journey it has an answer to is sent that
      answer if and only if the last packet the station handled brought home the path of the stored answer, and no
      flood has been asked of the station since. */
  lemma SentTheAnswerIff(net: Network, r: Run, key: Key)
    requires WellFormed(net) && IsRun(net, r) && First(r) == START && HasAnswer(Last(r), key)
    requires key.src in net && net[key.src].language == Python
    ensures SentAgain(Last(r), key) == Serialize(StoredAnswer(Last(r), key).value) <==> StoredCameLast(r, key)
  {
    hide SentAgain, StoredAnswer, StoredCameLast;
    if SentAgain(Last(r), key) == Serialize(StoredAnswer(Last(r), key).value) {
      SentSoCameLast(net, r, key);
    }
    if StoredCameLast(r, key) {
      CameLastSoSent(net, r, key);
    }
  }

  // ----- which networks can be trusted

  lemma OnlyOneCame(first: Payload, key: Key, q: seq<Address>)
    ensures CameHome([first], key, q) == One(Came(first, key, q))
  {
    assert [first][1..] == [];
  }

  // Two paths, one right after the other.
  lemma TwoInARow(net: Network, key: Key, first: seq<Address>, second: seq<Address>) returns (s: State)
    requires WellFormed(net) && ValidKey(net, key) && Route(net, key, first) && Route(net, key, second)
    requires first != second
    ensures Reachable(net, s) && s.asked == {key} && s.injected == multiset{key} && s.down == {} && Registered(s, key)
    ensures s.answers == [AnswerPayload(net, key, first), AnswerPayload(net, key, second)]
    ensures SentAgain(s, key) == Serialize(AnswerPayload(net, key, second))
  {
    var start := AskOnce(net, key);
    OneQueryIsFew(start, key);
    FewAreUp(net, start);
    HundredQueriesAreSafe(net, start, key.src);
    InitialIsLegitimate(net, key);
    assert [] + [key.src] == [key.src] <= first;
    var t := DriveHome(net, start, 0, key, first);
    assert [] + [AnswerPayload(net, key, first)] == [AnswerPayload(net, key, first)];
    EveryRunConserves(net, t, key, second);
    OnlyOneCame(AnswerPayload(net, key, first), key, second);
    var i := FindLead(t.inflight, key, second);
    s := DriveHome(net, t, i, key, second);
  }

  lemma FewAreUp(net: Network, s: State)
    requires WellFormed(net) && Reachable(net, s) && FewAsked(s)
    ensures s.down == {}
  {
    forall a ensures a !in s.down {
      HundredQueriesAreSafe(net, s, a);
    }
  }

  lemma BestOfTwo(p: Payload, q: Payload, key: Key)
    requires AnswerKey(p) == key && AnswerKey(q) == key && LastTime(p) <= LastTime(q)
    ensures BestFor([p, q], key) == Some(p)
  {
    assert [p, q][..1] == [p] && [p][..0] == [];
    assert BestFor([], key) == None && BestFor([p], key) == Some(p);
  }

  /** Of two paths, the slower may come home right after the other: the other is stored, and a browser that asks again
      is sent the slower. */
  lemma SlowerMayBeSent(net: Network, key: Key, q: seq<Address>, slower: seq<Address>) returns (s: State)
    requires WellFormed(net) && ValidKey(net, key) && net[key.src].language == Python
    requires Route(net, key, q) && Route(net, key, slower) && q != slower
    requires LastTime(AnswerPayload(net, key, q)) <= LastTime(AnswerPayload(net, key, slower))
    ensures Reachable(net, s) && s.asked == {key} && s.injected == multiset{key} && s.down == {} && HasAnswer(s, key)
    ensures s.answers == [AnswerPayload(net, key, q), AnswerPayload(net, key, slower)]
    ensures StoredAnswer(s, key) == Some(AnswerPayload(net, key, q))
    ensures SentAgain(s, key) == Serialize(AnswerPayload(net, key, slower)) != Serialize(AnswerPayload(net, key, q))
  {
    s := TwoInARow(net, key, q, slower);
    EveryRunKeepsInv(net, s);
    StoredIsBest(net, s, key);
    var p, late := AnswerPayload(net, key, q), AnswerPayload(net, key, slower);
    BestOfTwo(p, late, key);
    if Serialize(late) == Serialize(p) {
      AnswerLinesDiffer(net, key, p, key, late);
    }
  }

  lemma StepGrows(net: Network, s: State, act: Action)
    requires Enabled(net, s, act)
    ensures s.asked <= Next(net, s, act).asked && s.injected <= Next(net, s, act).injected
  {
    if act.Deliver? {
      DeliveryLeaves(net, s, act.i);
    }
  }

  lemma {:induction false} RunGrows(net: Network, r: Run, i: nat, j: nat)
    requires IsRun(net, r) && i <= j <= |r.acts|
    ensures r.states[i].asked <= r.states[j].asked && r.states[i].injected <= r.states[j].injected
  {
    hide Next, Enabled;
    if i < j {
      RunGrows(net, r, i, j - 1);
      StepEnabled(net, r, j - 1);
      StepGrows(net, r.states[j - 1], r.acts[j - 1]);
    }
  }

  // Nothing comes home to a station that does not write.
  lemma OnlyWritersBringHome(net: Network, s: State, act: Action, key: Key, q: seq<Address>)
    requires WellFormed(net) && Inv(net, s) && Enabled(net, s, act)
    requires CameHome(Next(net, s, act).answers, key, q) != CameHome(s.answers, key, q)
    ensures BringsPath(s, act, key, q) && Writes(s, act, key.src)
  {
    hide DeliverOne, Inv, Came;
    if act.Deliver? {
      var pkt, answers := s.inflight[act.i], DeliverOne(net, s, act.i).answers;
      DeliveryAdds(net, s, act.i);
      var p :| answers == s.answers + [p] && IsHomeOf(s, pkt, p);
      OneMoreCame(s.answers, p, key, q);
      CameForOne(p, KeyOf(pkt), pkt.payload.addresses, key, q);
    }
  }

  // The last to write before a path is home.
  lemma {:induction false} WriterBefore(net: Network, r: Run, key: Key, q: seq<Address>, i: nat) returns (k: nat)
    requires WellFormed(net) && IsRun(net, r) && First(r) == START && i <= |r.acts|
    requires CameHome(r.states[i].answers, key, q) > 0
    ensures LastToWrite(r, key.src, k, i) && CameHome(r.states[k + 1].answers, key, q) > 0
  {
    hide Next, Enabled, Inv, Writes, BringsPath;
    assert i > 0;
    RunKeepsInv(net, r, i - 1);
    StepEnabled(net, r, i - 1);
    if Writes(r.states[i - 1], r.acts[i - 1], key.src) {
      k := i - 1;
    } else {
      if CameHome(r.states[i].answers, key, q) != CameHome(r.states[i - 1].answers, key, q) {
        OnlyWritersBringHome(net, r.states[i - 1], r.acts[i - 1], key, q);
      }
      k := WriterBefore(net, r, key, q, i - 1);
    }
  }

  ghost predicate OnlyPath(net: Network, key: Key, q: seq<Address>) {
    Route(net, key, q) && forall other :: Route(net, key, other) ==> other == q
  }

  // A packet of this query at its own station leads along the only path there is.
  lemma LeadsAlongTheOnly(net: Network, key: Key, pkt: Packet, q: seq<Address>)
    requires Legitimate(net, key, pkt) && pkt.to == key.src && OnlyPath(net, key, q)
    ensures Leads(pkt, key, q)
  {
    LegitimateKey(net, key, pkt);
    if Flooding(net, key, pkt) {
      var p := pkt.payload.addresses;
      assert (p + [pkt.to])[|p|] == pkt.to;
      assert p == [];
      assert [] + [pkt.to] == [pkt.to] <= q;
    }
  }

  // With one question asked once, what the station writes when its only path is home, or coming home, is that answer.
  lemma WriterBringsTheOnly(net: Network, s: State, act: Action, key: Key, q: seq<Address>)
    requires WellFormed(net) && Inv(net, s) && Enabled(net, s, act) && Accounted(s, key, q) && OnlyPath(net, key, q)
    requires Next(net, s, act).asked <= {key} && Next(net, s, act).injected <= multiset{key}
    requires ValidKey(net, key) && net[key.src].language == Python
    requires Writes(s, act, key.src) && CameHome(Next(net, s, act).answers, key, q) > 0
    ensures BringsPath(s, act, key, q)
  {
    StepGrows(net, s, act);
    if CameHome(Next(net, s, act).answers, key, q) != CameHome(s.answers, key, q) {
      OnlyWritersBringHome(net, s, act, key, q);
    } else {
      assert s.injected[key] <= Next(net, s, act).injected[key] <= 1;
      if act.Deliver? {
        var pkt := s.inflight[act.i];
        assert pkt in s.inflight;
        assert KeyOf(pkt) == key;
        LeadsAlongTheOnly(net, key, pkt, q);
        LeadsSoOnItsWay(s.inflight, pkt, key, q);
      } else {
        CameHomeHas(s.answers, key, q);
      }
    }
  }

  // The query, and no other, has been asked, and asked once.
  ghost predicate AskedOnce(net: Network, s: State, key: Key) {
    Reachable(net, s) && s.asked == {key} && s.injected == multiset{key}
  }

  lemma OnlyPathIsSent(net: Network, s: State, key: Key, q: seq<Address>)
    requires WellFormed(net) && ValidKey(net, key) && net[key.src].language == Python
    requires AskedOnce(net, s, key) && HasAnswer(s, key) && OnlyPath(net, key, q)
    ensures SentAgain(s, key) == Serialize(StoredAnswer(s, key).value)
  {
    hide Next, Writes, SentAgain, Accounted;
    var r :| IsRun(net, r) && First(r) == START && Last(r) == s;
    var n := |r.acts|;
    EndKeepsInv(net, r);
    StoredIsAnswer(net, s, key);
    CameHomeCounts(s.answers, StoredAnswer(s, key).value);
    var k := WriterBefore(net, r, key, q, n);
    RunKeepsInv(net, r, k);
    RunConserves(net, r, k, key, q);
    StepEnabled(net, r, k);
    RunGrows(net, r, k + 1, n);
    WriterBringsTheOnly(net, r.states[k], r.acts[k], key, q);
    SentTheAnswerIff(net, r, key);
  }

  // Whatever the run of one question, asked once: a browser that asks again is sent the answer there is.
  ghost predicate AlwaysSentTheAnswer(net: Network, key: Key) {
    forall s :: AskedOnce(net, s, key) && HasAnswer(s, key) ==>
      SentAgain(s, key) == Serialize(StoredAnswer(s, key).value)
  }

  ghost predicate AtMostOnePath(net: Network, key: Key) {
    forall q, other :: Route(net, key, q) && Route(net, key, other) ==> q == other
  }

  /** A browser can count on being sent the stored answer when it asks again, even if nobody has asked anything else and
      the question was flooded once, if and only if there is no more than one simple path to its destination. */
  lemma AlwaysSentTheAnswerIff(net: Network, key: Key)
    requires WellFormed(net) && ValidKey(net, key) && net[key.src].language == Python
    ensures AlwaysSentTheAnswer(net, key) <==> AtMostOnePath(net, key)
  {
    if AlwaysSentTheAnswer(net, key) {
      forall q, other | Route(net, key, q) && Route(net, key, other) ensures q == other {
        if q != other {
          var first, second := q, other;
          if LastTime(AnswerPayload(net, key, q)) > LastTime(AnswerPayload(net, key, other)) {
            first, second := other, q;
          }
          var s := SlowerMayBeSent(net, key, first, second);
          assert AskedOnce(net, s, key) && HasAnswer(s, key);
        }
      }
    }
    if AtMostOnePath(net, key) {
      forall s | AskedOnce(net, s, key) && HasAnswer(s, key)
        ensures SentAgain(s, key) == Serialize(StoredAnswer(s, key).value)
      {
        EveryRunKeepsInv(net, s);
        StoredIsAnswer(net, s, key);
        OnlyPathIsSent(net, s, key, StoredAnswer(s, key).value.addresses);
      }
    }
  }
}
