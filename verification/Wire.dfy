/** Every packet of every run survives the wire, whichever programs write and read it. */
module Wire {
  import opened Text
  import opened Timetable
  import opened Protocol
  import opened Journey
  import opened Runs
  import opened Codec
  import opened RoundTrip

  lemma SearchedTokens(net: Network, a: Address, destination: string, earliest: string)
    requires OfTokens(net) && a in net && Search(Visible(net[a]), destination, earliest).Some?
    ensures var r := Search(Visible(net[a]), destination, earliest).value;
            IsToken(r.departs) && IsToken(r.route) && IsToken(r.arrives)
  {
    SearchedRow(Visible(net[a]), destination, earliest);
    assert WritesTokens(net, a);
    assert Search(Visible(net[a]), destination, earliest).value in net[a].timetable;
  }

  lemma WrittenTokens(net: Network, key: Key, q: seq<Address>, i: nat)
    requires OfTokens(net) && |q| >= 2 && i < |q| && Within(net, q)
    ensures IsToken(TimeAt(net, key, q, i)) && (i >= 1 ==> IsToken(RouteAt(net, key, q, i)))
  {
    if i == 0 {
      if Search(Visible(net[q[0]]), net[q[1]].name, key.startingTime).Some? {
        SearchedTokens(net, q[0], net[q[1]].name, key.startingTime);
      }
    } else if Found(net, key, q, i).Some? {
      SearchedTokens(net, q[i - 1], net[q[i]].name, TimeAt(net, key, q, i - 1));
    }
  }

  lemma HeldTokens(net: Network, q: seq<Address>, i: nat)
    requires OfTokens(net) && i < |q| && Within(net, q)
    ensures IsToken(HeldTime(net, q, i)) && IsToken(HeldRoute(net, q, i))
  {
    assert WritesTokens(net, q[i]);
  }

  lemma PathTokens(net: Network, p: seq<Address>)
    requires OfTokens(net) && Within(net, p)
    ensures AreTokens(p) && AreTokens(Names(net, p))
  {
    forall i | 0 <= i < |p| ensures IsToken(p[i]) && IsToken(Names(net, p)[i]) {
      assert WritesTokens(net, p[i]);
    }
  }

  lemma JourneyIsWireSafe(net: Network, key: Key, q: seq<Address>, found: nat, k: nat, filled: nat)
    requires OfTokens(net) && key.src in net && |q| >= 2 && Within(net, q)
    requires IsToken(key.destination) && IsToken(key.startingTime)
    ensures WireSafe(JourneyPayload(net, key, q, found, k, filled))
  {
    assert WritesTokens(net, key.src);
    PathTokens(net, q);
    forall i | 0 <= i < |q|
      ensures IsToken(TimesWritten(net, key, q, filled)[i]) && IsToken(RoutesWritten(net, key, q, filled)[i])
    {
      WrittenTokens(net, key, q, i);
      HeldTokens(net, q, i);
    }
  }

  lemma LegitimateIsWireSafe(net: Network, key: Key, pkt: Packet)
    requires OfTokens(net) && Legitimate(net, key, pkt)
    ensures WireSafe(pkt.payload)
  {
    var q := pkt.payload.addresses;
    if Flooding(net, key, pkt) {
      assert WritesTokens(net, key.src);
      PathTokens(net, q);
    } else {
      JourneyIsWireSafe(net, key, q, pkt.payload.found, pkt.payload.current - 1,
                        Filled(pkt.payload.found, pkt.payload.current - 1, |q|));
    }
  }

  /** The wire is faithful: every packet in flight in every run, as either program writes it, is read back
      by either program as it was. */
  lemma EveryPacketSurvivesTheWire(net: Network, s: State, pkt: Packet)
    requires WellFormed(net) && Reachable(net, s) && pkt in s.inflight
    ensures Deserialize(Serialize(pkt.payload)) == Parsed(pkt.payload)
    ensures Deserialize(Craft(pkt.payload)) == Parsed(pkt.payload)
    ensures Load(Serialize(pkt.payload)) == Some(pkt.payload) && Load(Craft(pkt.payload)) == Some(pkt.payload)
  {
    EveryRunKeepsInv(net, s);
    LegitimateIsWireSafe(net, KeyOf(pkt), pkt);
    CodecsInteroperate(pkt.payload);
  }

  /** So does every answer that has come home, which a Python station stores as a line and reads back to compare. */
  lemma EveryAnswerSurvivesTheWire(net: Network, s: State, p: Payload)
    requires WellFormed(net) && Reachable(net, s) && p in s.answers
    ensures Deserialize(Serialize(p)) == Parsed(p)
  {
    EveryRunKeepsInv(net, s);
    assert IsAnswer(net, AnswerKey(p), p);
    JourneyIsWireSafe(net, AnswerKey(p), p.addresses, 4, 0, |p.addresses|);
    CodecsInteroperate(p);
  }

  // ----- the lines a station does not get back

  lemma {:induction false} NoSemicolonBefore(s: string, k: nat, i: nat)
    requires k <= i && k <= |s| && Semicolon(s, k).Some? && i < Semicolon(s, k).value
    ensures s[i] != ';'
    decreases |s| - k
  {
    if k < i {
      NoSemicolonBefore(s, k + 1, i);
    }
  }

  lemma {:induction false} WordHasNoSpace(s: string, i: nat)
    requires i < WordEnd(s)
    ensures i < |s| && !IsSpace(s[i])
  {
    if i > 0 {
      WordHasNoSpace(s[1..], i - 1);
    }
  }

  lemma {:induction false} WordsAreTokens(s: string)
    requires ';' !in s
    ensures AreTokens(Words(s))
    decreases |s|
  {
    if s != [] {
      if IsSpace(s[0]) {
        WordsAreTokens(s[1..]);
      } else {
        var n := WordEnd(s);
        WordsAreTokens(s[n..]);
        forall i | 0 <= i < n ensures !IsSpace(s[i]) {
          WordHasNoSpace(s, i);
        }
      }
    }
  }

  // The first payload's line after its three numbers.
  function InitialRest(st: Station, destination: Name, startTime: string): string {
    "    " + (destination + " " + st.name + " " + startTime + ";")
  }

  lemma FourBlanksAre(text: string)
    ensures "    " + text == " " + (" " + (" " + (" " + text)))
  {
  }

  lemma JoinOfThree(a: string, b: string, c: string)
    ensures Join([a, b, c]) + ";" == a + " " + b + " " + c + ";"
  {
    assert [a, b, c][1..] == [b, c] && [b, c][1..] == [c];
    assert Join([b, c]) == b + " " + c;
    assert a + " " + (b + " " + c) == a + " " + b + " " + c;
  }

  lemma InitialLine(st: Station, destination: Name, startTime: string)
    ensures var p := InitialPayload(st, destination, startTime);
            Serialize(p) == Line(p, InitialRest(st, destination, startTime))
            && LeadingNumbers(Serialize(p)) == Some((0, 0, 0, InitialRest(st, destination, startTime)))
  {
    var p := InitialPayload(st, destination, startTime);
    EmptyForm(p);
    assert Body(p) == [destination, st.name, startTime];
    JoinOfThree(destination, st.name, startTime);
    FourBlanksAre(destination + " " + st.name + " " + startTime + ";");
    ReadsLine(p, InitialRest(st, destination, startTime));
  }

  /** Exactly which queries a Python station gets back from the wire as it asked them: those whose name and time are
      not empty and hold no white space and no semicolon. */
  lemma InitialLineIsReadIff(st: Station, destination: Name, startTime: string)
    requires IsToken(st.name)
    ensures var p := InitialPayload(st, destination, startTime);
            Deserialize(Serialize(p)) == Parsed(p) <==> IsToken(destination) && IsToken(startTime)
  {
    var p := InitialPayload(st, destination, startTime);
    if IsToken(destination) && IsToken(startTime) {
      DeserializesBoth(p);
    }
    if Deserialize(Serialize(p)) == Parsed(p) {
      var rest := InitialRest(st, destination, startTime);
      InitialLine(st, destination, startTime);
      var n := Semicolon(rest, 1).value;
      forall i | 0 <= i < n ensures rest[i] != ';' {
        if i > 0 {
          NoSemicolonBefore(rest, 1, i);
        }
      }
      WordsAreTokens(rest[..n]);
    }
  }

  lemma RestSplits(before: string, after: string, name: string, time: string)
    ensures "    " + (before + ";" + after + " " + name + " " + time + ";")
         == "    " + before + (";" + (after + " " + name + " " + time + ";"))
  {
  }

  /** A semicolon in the name asked for cuts the line short. What is left does not match when there is a line end before
      it, and otherwise reading it raises if and only if there are fewer than three words before it. */
  lemma SemicolonCutsTheLine(st: Station, before: string, after: string, startTime: string)
    requires ';' !in before
    ensures var read := Deserialize(Serialize(InitialPayload(st, before + ";" + after, startTime)));
            if '\n' in before then read == Unmatched else (read == Broken <==> |Words(before)| < 3)
  {
    var rest, text := InitialRest(st, before + ";" + after, startTime), "    " + before;
    var more := after + " " + st.name + " " + startTime + ";";
    InitialLine(st, before + ";" + after, startTime);
    RestSplits(before, after, st.name, startTime);
    FourBlanksAre(before);
    FourBlanks(before);
    if '\n' in before {
      var i :| 0 <= i < |before| && before[i] == '\n';
      assert text[i + 4] == '\n' && ';' !in text;
      NoSemicolonOnLine(text, ";" + more, 1, i + 4);
    } else {
      assert OneLine(before);
      FirstSemicolon(text, more, 1);
      assert rest[..|text|] == text;
    }
  }

  lemma {:induction false} NoSemicolonOnLine(text: string, more: string, k: nat, i: nat)
    requires k <= i < |text| && ';' !in text && text[i] == '\n'
    ensures Semicolon(text + more, k) == None
    decreases i - k
  {
    assert (text + more)[k] == text[k];
    if k < i {
      NoSemicolonOnLine(text, more, k + 1, i);
    }
  }

  lemma {:induction false} FirstSemicolon(text: string, more: string, k: nat)
    requires k <= |text| && OneLine(text)
    ensures Semicolon(text + (";" + more), k) == Some(|text|)
    decreases |text| - k
  {
    if k < |text| {
      FirstSemicolon(text, more, k + 1);
    }
  }

  // The smaller of two numbers.
  function Least(n: nat, k: nat): nat {
    if n <= k then n else k
  }

  // The words of a line, cut up: as many stations, addresses, routes and times as there are hops, while words last, and
  // the last three words, whatever else they are.
  ghost predicate IsCutFrom(q: Payload, w: seq<string>) {
    |w| >= 3
    && q.stations + q.addresses + q.routes + q.times == w[..Least(4 * q.hops, |w|)]
    && |q.stations| == Least(q.hops, |w|) && |q.stations + q.addresses| == Least(2 * q.hops, |w|)
    && |q.stations + q.addresses + q.routes| == Least(3 * q.hops, |w|)
    && [q.destination, q.source, q.startingTime] == w[|w| - 3..]
  }

  // What the line with these numbers and words means.
  ghost predicate IsReadAs(read: Decoded, found: nat, hops: nat, current: nat, w: seq<string>) {
    if |w| < 3 then read == Broken
    else read.Parsed? && IsCutFrom(read.payload, w)
         && read.payload.found == found && read.payload.hops == hops && read.payload.current == current
  }

  lemma WordsAreCut(found: nat, hops: nat, current: nat, w: seq<string>)
    ensures IsReadAs(FromWords(found, hops, current, w), found, hops, current, w)
  {
    if |w| >= 3 {
      SlicesJoin(w, 0, hops, 2 * hops);
      SlicesJoin(w, 0, 2 * hops, 3 * hops);
      SlicesJoin(w, 0, 3 * hops, 4 * hops);
      assert w[|w| - 3..] == [w[|w| - 3], w[|w| - 2], w[|w| - 1]];
    }
  }

  lemma ReadsWords(p: Payload, text: string, more: string)
    requires text != "" && OneLine(text)
    ensures Deserialize(Line(p, text + (";" + more))) == FromWords(p.found, p.hops, p.current, Words(text))
  {
    hide FromWords, Words, LeadingNumbers, Line;
    var rest := text + (";" + more);
    ReadsLine(p, rest);
    FirstSemicolon(text, more, 1);
    assert rest[..|text|] == text;
  }

  /** What Python makes of any line that begins with three numbers. Only with fewer than three words does it raise. */
  lemma LineMeansItsWords(found: nat, hops: nat, current: nat, text: string, more: string)
    requires text != "" && OneLine(text)
    ensures var line := Decimal(found) + " " + (Decimal(hops) + " " + (Decimal(current) + " " + (text + (";" + more))));
            IsReadAs(Deserialize(line), found, hops, current, Words(text))
  {
    hide FromWords, Words, Deserialize, IsReadAs, Decimal;
    ReadsWords(Payload(found, hops, current, [], [], [], [], "", "", ""), text, more);
    WordsAreCut(found, hops, current, Words(text));
  }

  lemma SlicesJoin(w: seq<string>, a: nat, b: nat, c: nat)
    requires a <= b <= c
    ensures Slice(w, a, b) + Slice(w, b, c) == Slice(w, a, c)
  {
  }

  /** The line of a payload with two hops, in full. */
  lemma TwoHopLine(p: Payload)
    requires Shaped(p) && p.found == 2 && p.hops == 2 && p.current == 1
    ensures Serialize(p) == Craft(p) == "2 2 1"
              + " " + p.stations[0] + " " + p.stations[1] + " " + p.addresses[0] + " " + p.addresses[1]
              + " " + p.routes[0] + " " + p.routes[1] + " " + p.times[0] + " " + p.times[1]
              + " " + p.destination + " " + p.source + " " + p.startingTime + ";"
  {
    EncodersAgree(p);
    assert Numbers(p) == "2 2 1";
    AppendsTwo("2 2 1", p.stations);
    var s := "2 2 1" + " " + p.stations[0] + " " + p.stations[1];
    AppendsTwo(s, p.addresses);
    s := s + " " + p.addresses[0] + " " + p.addresses[1];
    AppendsTwo(s, p.routes);
    s := s + " " + p.routes[0] + " " + p.routes[1];
    AppendsTwo(s, p.times);
    s := s + " " + p.times[0] + " " + p.times[1];
    AppendsEnding(s, p);
  }

  lemma AppendsTwo(s: string, ts: seq<string>)
    requires |ts| == 2
    ensures s + Each(ts) == s + " " + ts[0] + " " + ts[1]
  {
    EachOne(ts[0]);
    assert ts[..1] == [ts[0]];
    assert Each(ts) == " " + ts[0] + " " + ts[1];
    assert s + (" " + ts[0] + " " + ts[1]) == s + " " + ts[0] + " " + ts[1];
  }

  lemma AppendsEnding(s: string, p: Payload)
    ensures s + Ending(p) == s + " " + p.destination + " " + p.source + " " + p.startingTime + ";"
  {
  }

  // ----- the same in C

  lemma TokenIsOneWord(s: string, c: char)
    requires Strtok(s, c).Some?
    ensures var t := Strtok(s, c).value.0; t != [] && c !in t
  {
    SkipAllSkips(s, c);
    StopsAtFirst(SkipAll(s, c), c);
  }

  lemma {:induction false} SkipAllSkips(s: string, c: char)
    ensures SkipAll(s, c) != [] ==> SkipAll(s, c)[0] != c
  {
    if s != [] && s[0] == c {
      SkipAllSkips(s[1..], c);
    }
  }

  lemma {:induction false} StopsAtFirst(s: string, c: char)
    ensures c !in s[..UpTo(s, c)]
  {
    if s != [] && s[0] != c {
      StopsAtFirst(s[1..], c);
      assert s[..UpTo(s, c)] == [s[0]] + s[1..][..UpTo(s[1..], c)];
    }
  }

  // What the C program writes first, after its three numbers.
  lemma InitialCraft(st: Station, destination: Name, startTime: string)
    ensures var p := InitialPayload(st, destination, startTime);
            Craft(p) == Line(p, destination + " " + (st.name + " " + (startTime + ";")))
  {
    var p := InitialPayload(st, destination, startTime);
    CraftForm(p);
    assert Body(p) == [destination, st.name, startTime];
    JoinOfThree(destination, st.name, startTime);
    assert destination + " " + st.name + " " + startTime + ";"
        == destination + " " + (st.name + " " + (startTime + ";"));
  }

  lemma LoadsInitial(st: Station, destination: Name, startTime: string)
    ensures var p := InitialPayload(st, destination, startTime);
            Load(Craft(p)) == LoadEnding(p.(destination := "", source := "", startingTime := ""),
                                         destination + " " + (st.name + " " + (startTime + ";")))
  {
    var p := InitialPayload(st, destination, startTime);
    var rest := destination + " " + (st.name + " " + (startTime + ";"));
    InitialCraft(st, destination, startTime);
    LoadsNumbers(p, rest);
    assert LoadLists(rest, 0) == Some(([], [], [], [], rest));
  }

  /** Exactly which queries a C station gets back as it asked them: those whose name is not empty and holds no blank,
      and whose time is not empty and holds no semicolon. A semicolon in the name, or a tab, does no harm here. */
  lemma InitialLineIsLoadedIff(st: Station, destination: Name, startTime: string)
    requires st.name != "" && ' ' !in st.name
    ensures var p := InitialPayload(st, destination, startTime);
            Load(Craft(p)) == Some(p) <==>
              destination != "" && ' ' !in destination && startTime != "" && ';' !in startTime
  {
    var p := InitialPayload(st, destination, startTime);
    var s2 := startTime + ";";
    var s1 := st.name + " " + s2;
    LoadsInitial(st, destination, startTime);
    if destination != "" && ' ' !in destination && startTime != "" && ';' !in startTime {
      ReadsWord(destination, s1);
      ReadsWord(st.name, s2);
      ReadsLastWord(startTime);
    }
    if Load(Craft(p)) == Some(p) {
      EndingIsWords(p.(destination := "", source := "", startingTime := ""), destination + " " + s1);
    }
  }

  lemma EndingIsWords(p: Payload, s: string)
    requires LoadEnding(p, s).Some?
    ensures var q := LoadEnding(p, s).value;
            q.destination != "" && ' ' !in q.destination && q.startingTime != "" && ';' !in q.startingTime
  {
    TokenIsOneWord(s, ' ');
    var s1 := Strtok(s, ' ').value.1;
    var s2 := Strtok(s1, ' ').value.1;
    TokenIsOneWord(s2, ';');
  }
}
