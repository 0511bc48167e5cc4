/** The two codecs understand each other. */
module RoundTrip {
  import opened Text
  import opened Protocol
  import opened Codec

  // ----- one form for every line

  // Everything after the numbers, in order.
  function Body(p: Payload): seq<string> {
    p.stations + p.addresses + p.routes + p.times + [p.destination, p.source, p.startingTime]
  }

  // The three numbers, each with a blank, and the rest of the line.
  function Line(p: Payload, rest: string): string {
    Decimal(p.found) + " " + (Decimal(p.hops) + " " + (Decimal(p.current) + " " + rest))
  }

  lemma {:induction false} EachAppend(a: seq<string>, b: seq<string>)
    ensures Each(a + b) == Each(a) + Each(b)
  {
    if b == [] {
      assert a + b == a;
    } else {
      var init := b[..|b| - 1];
      assert (a + b)[..|a + b| - 1] == a + init;
      EachAppend(a, init);
    }
  }

  lemma {:induction false} EachIsJoin(ts: seq<string>)
    requires ts != []
    ensures Each(ts) == " " + Join(ts)
  {
    EachOne(ts[0]);
    if |ts| > 1 {
      assert ts == [ts[0]] + ts[1..];
      EachAppend([ts[0]], ts[1..]);
      EachIsJoin(ts[1..]);
    }
  }

  lemma EachOne(t: string)
    ensures Each([t]) == " " + t
  {
    assert [t][..0] == [];
  }

  lemma EachOfEnding(a: string, b: string, c: string)
    ensures Each([a, b, c]) == " " + a + " " + b + " " + c
  {
    assert [a, b, c] == [a] + [b] + [c];
    EachAppend([a] + [b], [c]);
    EachAppend([a], [b]);
    EachOne(a);
    EachOne(b);
    EachOne(c);
  }

  lemma EachOfBody(p: Payload)
    ensures Each(Body(p)) + ";" == Each(p.stations) + Each(p.addresses) + Each(p.routes) + Each(p.times) + Ending(p)
  {
    EachAppend(p.stations + p.addresses + p.routes + p.times, [p.destination, p.source, p.startingTime]);
    EachAppend(p.stations + p.addresses + p.routes, p.times);
    EachAppend(p.stations + p.addresses, p.routes);
    EachAppend(p.stations, p.addresses);
    EachOfEnding(p.destination, p.source, p.startingTime);
  }

  lemma Regroup(a: string, b: string, c: string, d: string, e: string, f: string)
    ensures a + b + c + d + e + f == a + (b + c + d + e + f)
  {
  }

  lemma RegroupNumbers(a: string, b: string, c: string, rest: string)
    ensures a + " " + b + " " + c + (" " + rest) == a + " " + (b + " " + (c + " " + rest))
  {
  }

  lemma CraftForm(p: Payload)
    ensures Craft(p) == Line(p, Join(Body(p)) + ";")
  {
    EachOfBody(p);
    EachIsJoin(Body(p));
    Regroup(Numbers(p), Each(p.stations), Each(p.addresses), Each(p.routes), Each(p.times), Ending(p));
    assert " " + Join(Body(p)) + ";" == " " + (Join(Body(p)) + ";");
    RegroupNumbers(Decimal(p.found), Decimal(p.hops), Decimal(p.current), Join(Body(p)) + ";");
  }

  /** Once a payload has a hop, the two encoders write the same bytes. */
  lemma EncodersAgree(p: Payload)
    requires Shaped(p) && p.hops >= 1
    ensures Serialize(p) == Craft(p)
  {
    EachIsJoin(p.stations);
    EachIsJoin(p.addresses);
    EachIsJoin(p.routes);
    EachIsJoin(p.times);
    RegroupFields(Numbers(p), Join(p.stations), Join(p.addresses), Join(p.routes), Join(p.times));
  }

  lemma RegroupFields(n: string, a: string, b: string, c: string, d: string)
    ensures n + " " + a + " " + b + " " + c + " " + d == n + (" " + a) + (" " + b) + (" " + c) + (" " + d)
  {
  }

  // With no hop Python writes four blanks more.
  lemma EmptyForm(p: Payload)
    requires Shaped(p) && p.hops == 0
    ensures Serialize(p) == Line(p, " " + (" " + (" " + (" " + (Join(Body(p)) + ";")))))
  {
    EachOfBody(p);
    EachIsJoin(Body(p));
    var rest := Join(Body(p)) + ";";
    assert Each(p.stations) + Each(p.addresses) + Each(p.routes) + Each(p.times) == "";
    assert "" + Ending(p) == Ending(p);
    assert " " + Join(Body(p)) + ";" == " " + rest;
    assert Numbers(p) + " " + "" + " " + "" + " " + "" + " " + "" + (" " + rest)
        == Numbers(p) + (" " + (" " + (" " + (" " + (" " + rest)))));
    RegroupNumbers(Decimal(p.found), Decimal(p.hops), Decimal(p.current), " " + (" " + (" " + (" " + rest))));
  }

  // ----- Python reads

  lemma {:induction false} ReadsDigits(d: string, k: nat, rest: string)
    requires k <= |d| && AllDigits(d) && (rest == [] || !IsDigit(rest[0]))
    ensures Digits(d[k..] + rest, Value(d[..k])) == (Value(d), rest)
    decreases |d| - k
  {
    var s := d[k..] + rest;
    if k == |d| {
      assert s == rest && d[..k] == d;
    } else {
      assert s[0] == d[k] && s[1..] == d[k + 1..] + rest;
      assert d[..k + 1][..k] == d[..k] && d[..k + 1][k] == d[k];
      ReadsDigits(d, k + 1, rest);
    }
  }

  lemma ReadsNumber(n: nat, rest: string)
    ensures NumberAndBlank(Decimal(n) + " " + rest) == Some((n, rest))
  {
    ValueOfDecimal(n);
    var d := Decimal(n);
    var s := d + " " + rest;
    assert s == d[0..] + (" " + rest) && d[..0] == [];
    ReadsDigits(d, 0, " " + rest);
    assert s[0] == d[0] && (" " + rest)[1..] == rest;
  }

  lemma ReadsLine(p: Payload, rest: string)
    ensures LeadingNumbers(Line(p, rest)) == Some((p.found, p.hops, p.current, rest))
  {
    ReadsNumber(p.current, rest);
    ReadsNumber(p.hops, Decimal(p.current) + " " + rest);
    ReadsNumber(p.found, Decimal(p.hops) + " " + (Decimal(p.current) + " " + rest));
  }

  lemma {:induction false} WordEndAt(t: string, rest: string)
    requires IsToken(t) && (rest == [] || IsSpace(rest[0]))
    ensures WordEnd(t + rest) == |t|
  {
    assert (t + rest)[1..] == t[1..] + rest;
    if |t| > 1 {
      WordEndAt(t[1..], rest);
    } else {
      assert t[1..] + rest == rest;
    }
  }

  lemma FirstWord(t: string, rest: string)
    requires IsToken(t) && (rest == [] || IsSpace(rest[0]))
    ensures Words(t + rest) == [t] + Words(rest)
  {
    WordEndAt(t, rest);
    var s := t + rest;
    assert s[0] == t[0] && s[..|t|] == t && s[|t|..] == rest;
  }

  lemma SkipBlankWord(s: string)
    ensures Words(" " + s) == Words(s)
  {
    assert (" " + s)[1..] == s;
  }

  lemma {:induction false} WordsOfJoin(ts: seq<string>)
    requires AreTokens(ts)
    ensures Words(Join(ts)) == ts
  {
    if ts != [] {
      assert IsToken(ts[0]);
      if |ts| == 1 {
        FirstWord(ts[0], "");
        assert ts[0] + "" == ts[0];
      } else {
        WordsOfJoin(ts[1..]);
        SkipBlankWord(Join(ts[1..]));
        FirstWord(ts[0], " " + Join(ts[1..]));
        assert ts[0] + " " + Join(ts[1..]) == ts[0] + (" " + Join(ts[1..]));
      }
    }
  }

  predicate OneLine(text: string) {
    forall i :: 0 <= i < |text| ==> text[i] != ';' && text[i] != '\n'
  }

  lemma {:induction false} SemicolonAt(text: string, k: nat)
    requires k <= |text| && OneLine(text)
    ensures Semicolon(text + ";", k) == Some(|text|)
    decreases |text| - k
  {
    if k < |text| {
      assert (text + ";")[k] == text[k];
      SemicolonAt(text, k + 1);
    } else {
      assert (text + ";")[k] == ';';
    }
  }

  lemma {:induction false} JoinIsOneLine(ts: seq<string>)
    requires AreTokens(ts)
    ensures OneLine(Join(ts)) && (ts != [] ==> Join(ts) != [])
  {
    if ts != [] {
      assert IsToken(ts[0]);
      if |ts| > 1 {
        JoinIsOneLine(ts[1..]);
      }
    }
  }

  lemma BodyTokens(p: Payload)
    requires WireSafe(p)
    ensures AreTokens(Body(p)) && |Body(p)| == 4 * p.hops + 3
  {
  }

  lemma BodySlices(p: Payload)
    requires Shaped(p)
    ensures FromWords(p.found, p.hops, p.current, Body(p)) == Parsed(p)
  {
    FieldsOfBody(p);
  }

  // Python reads any line with these numbers and these words.
  lemma DeserializesLine(p: Payload, text: string)
    requires Shaped(p) && text != [] && OneLine(text) && Words(text) == Body(p)
    ensures Deserialize(Line(p, text + ";")) == Parsed(p)
  {
    ReadsLine(p, text + ";");
    SemicolonAt(text, 1);
    assert (text + ";")[0] == text[0] && (text + ";")[..|text|] == text;
    BodySlices(p);
  }

  lemma DeserializesCraft(p: Payload)
    requires WireSafe(p)
    ensures Deserialize(Craft(p)) == Parsed(p)
  {
    BodyTokens(p);
    WordsOfJoin(Body(p));
    JoinIsOneLine(Body(p));
    CraftForm(p);
    DeserializesLine(p, Join(Body(p)));
  }

  lemma FourBlanks(text: string)
    ensures var blanks := " " + (" " + (" " + (" " + text)));
            Words(blanks) == Words(text) && (OneLine(text) ==> OneLine(blanks))
            && blanks + ";" == " " + (" " + (" " + (" " + (text + ";"))))
  {
    SkipBlankWord(text);
    SkipBlankWord(" " + text);
    SkipBlankWord(" " + (" " + text));
    SkipBlankWord(" " + (" " + (" " + text)));
  }

  lemma DeserializesEmpty(p: Payload)
    requires WireSafe(p) && p.hops == 0
    ensures Deserialize(Serialize(p)) == Parsed(p)
  {
    BodyTokens(p);
    WordsOfJoin(Body(p));
    JoinIsOneLine(Body(p));
    EmptyForm(p);
    FourBlanks(Join(Body(p)));
    DeserializesLine(p, " " + (" " + (" " + (" " + Join(Body(p))))));
  }

  /** Python reads every payload of well-formed tokens from either encoder's line. */
  lemma DeserializesBoth(p: Payload)
    requires WireSafe(p)
    ensures Deserialize(Craft(p)) == Parsed(p) && Deserialize(Serialize(p)) == Parsed(p)
  {
    DeserializesCraft(p);
    if p.hops >= 1 {
      EncodersAgree(p);
    } else {
      DeserializesEmpty(p);
    }
  }

  // ----- C reads

  lemma ReadsWord(t: string, rest: string)
    requires t != [] && ' ' !in t
    ensures Strtok(t + " " + rest, ' ') == Some((t, rest))
  {
    var s := t + " " + rest;
    assert s == t + (" " + rest) && s[0] == t[0];
    UpToFinds(t, ' ', " " + rest);
    assert s[..|t|] == t && s[|t| + 1..] == rest;
  }

  lemma ReadsLastWord(t: string)
    requires t != [] && ';' !in t
    ensures Strtok(t + ";", ';') == Some((t, ""))
  {
    var s := t + ";";
    assert s[0] == t[0];
    UpToFinds(t, ';', ";");
    assert s[..|t|] == t && s[|t| + 1..] == "";
  }

  lemma ReadsToken(t: string, rest: string)
    requires IsToken(t)
    ensures Strtok(t + " " + rest, ' ') == Some((t, rest))
  {
    ReadsWord(t, rest);
  }

  lemma ReadsLastToken(t: string)
    requires IsToken(t)
    ensures Strtok(t + ";", ';') == Some((t, ""))
  {
    ReadsLastWord(t);
  }

  lemma DecimalIsToken(n: nat)
    ensures IsToken(Decimal(n)) && AllDigits(Decimal(n)) && Value(Decimal(n)) == n
  {
    ValueOfDecimal(n);
  }

  lemma LoadsNumbers(p: Payload, rest: string)
    ensures ThreeNumbers(Line(p, rest)) == Some((p.found, p.hops, p.current, rest))
  {
    var a, b, c := Decimal(p.found), Decimal(p.hops), Decimal(p.current);
    DecimalIsToken(p.found);
    DecimalIsToken(p.hops);
    DecimalIsToken(p.current);
    var s2 := c + " " + rest;
    var s1 := b + " " + s2;
    var s := Line(p, rest);
    ReadsToken(c, rest);
    ReadsToken(b, s2);
    ReadsToken(a, s1);
    OneMoreToken(s, 0, [], s, a, s1);
    assert [] + [a] == [a];
    OneMoreToken(s, 1, [a], s1, b, s2);
    assert [a] + [b] == [a, b];
    OneMoreToken(s, 2, [a, b], s2, c, rest);
    assert [a, b] + [c] == [a, b, c];
  }

  lemma OneMoreToken(s: string, n: nat, ts: seq<string>, rest: string, t: string, left: string)
    requires Tokens(s, n) == Some((ts, rest)) && Strtok(rest, ' ') == Some((t, left))
    ensures Tokens(s, n + 1) == Some((ts + [t], left))
  {
  }

  lemma {:induction false} TokensOfJoin(ts: seq<string>, n: nat)
    requires AreTokens(ts) && n < |ts|
    ensures Tokens(Join(ts) + ";", n) == Some((ts[..n], Join(ts[n..]) + ";"))
  {
    if n == 0 {
      assert ts[0..] == ts;
    } else {
      TokensOfJoin(ts, n - 1);
      NextToken(ts[n - 1..]);
      assert ts[n - 1..][0] == ts[n - 1] && ts[n - 1..][1..] == ts[n..];
      OneMoreToken(Join(ts) + ";", n - 1, ts[..n - 1], Join(ts[n - 1..]) + ";", ts[n - 1], Join(ts[n..]) + ";");
      assert ts[..n] == ts[..n - 1] + [ts[n - 1]];
    }
  }

  lemma NextToken(ts: seq<string>)
    requires AreTokens(ts) && |ts| >= 2
    ensures Strtok(Join(ts) + ";", ' ') == Some((ts[0], Join(ts[1..]) + ";"))
  {
    assert IsToken(ts[0]);
    ReadsToken(ts[0], Join(ts[1..]) + ";");
    assert Join(ts) + ";" == ts[0] + " " + (Join(ts[1..]) + ";");
  }

  lemma TokensBetween(ts: seq<string>, m: nat, k: nat, n: nat)
    requires AreTokens(ts) && m <= k < |ts| && n == k - m
    ensures Tokens(Join(ts[m..]) + ";", n) == Some((ts[m..k], Join(ts[k..]) + ";"))
  {
    TokensOfJoin(ts[m..], n);
    assert ts[m..][..n] == ts[m..k] && ts[m..][n..] == ts[k..];
  }

  lemma LoadsEnding(p: Payload, q: Payload)
    requires IsToken(p.destination) && IsToken(p.source) && IsToken(p.startingTime)
    ensures LoadEnding(q, Join([p.destination, p.source, p.startingTime]) + ";")
         == Some(q.(destination := p.destination, source := p.source, startingTime := p.startingTime))
  {
    var ts := [p.destination, p.source, p.startingTime];
    NextToken(ts);
    assert ts[1..] == [p.source, p.startingTime] && ts[1..][1..] == [p.startingTime];
    NextToken(ts[1..]);
    ReadsLastToken(p.startingTime);
  }

  lemma LoadsLists(p: Payload, b: seq<string>)
    requires AreTokens(b) && |b| == 4 * p.hops + 3
    requires b[..p.hops] == p.stations && b[p.hops..2 * p.hops] == p.addresses
    requires b[2 * p.hops..3 * p.hops] == p.routes && b[3 * p.hops..4 * p.hops] == p.times
    ensures LoadFields(p.found, p.hops, p.current, Join(b) + ";")
         == LoadEnding(p.(destination := "", source := "", startingTime := ""), Join(b[4 * p.hops..]) + ";")
  {
    var h := p.hops;
    TokensBetween(b, 0, h, h);
    TokensBetween(b, h, 2 * h, h);
    TokensBetween(b, 2 * h, 3 * h, h);
    TokensBetween(b, 3 * h, 4 * h, h);
    assert b[0..] == b && b[0..h] == b[..h];
    LoadsByLists(p, Join(b) + ";", Join(b[h..]) + ";", Join(b[2 * h..]) + ";",
                 Join(b[3 * h..]) + ";", Join(b[4 * h..]) + ";");
  }

  lemma LoadsByLists(p: Payload, s0: string, s1: string, s2: string, s3: string, s4: string)
    requires Tokens(s0, p.hops) == Some((p.stations, s1)) && Tokens(s1, p.hops) == Some((p.addresses, s2))
    requires Tokens(s2, p.hops) == Some((p.routes, s3)) && Tokens(s3, p.hops) == Some((p.times, s4))
    ensures LoadFields(p.found, p.hops, p.current, s0)
         == LoadEnding(p.(destination := "", source := "", startingTime := ""), s4)
  {
  }

  lemma LoadsFields(p: Payload)
    requires WireSafe(p)
    ensures LoadFields(p.found, p.hops, p.current, Join(Body(p)) + ";") == Some(p)
  {
    BodyTokens(p);
    FieldsOfBody(p);
    LoadsLists(p, Body(p));
    LoadsEnding(p, p.(destination := "", source := "", startingTime := ""));
  }

  lemma FieldsOfBody(p: Payload)
    requires Shaped(p)
    ensures var b, h := Body(p), p.hops;
            b[..h] == p.stations && b[h..2 * h] == p.addresses
            && b[2 * h..3 * h] == p.routes && b[3 * h..4 * h] == p.times
            && b[4 * h..] == [p.destination, p.source, p.startingTime]
  {
  }

  lemma SkipBlankToken(s: string)
    ensures Strtok(" " + s, ' ') == Strtok(s, ' ')
  {
    assert (" " + s)[1..] == s;
  }

  lemma LoadsCraft(p: Payload)
    requires WireSafe(p)
    ensures Load(Craft(p)) == Some(p)
  {
    CraftForm(p);
    LoadsNumbers(p, Join(Body(p)) + ";");
    LoadsFields(p);
  }

  lemma LoadsAfterBlanks(p: Payload, rest: string)
    requires p.hops == 0
    ensures LoadFields(p.found, p.hops, p.current, " " + rest) == LoadFields(p.found, p.hops, p.current, rest)
  {
    SkipBlankToken(rest);
  }

  lemma LoadsEmpty(p: Payload)
    requires WireSafe(p) && p.hops == 0
    ensures Load(Serialize(p)) == Some(p)
  {
    var rest := Join(Body(p)) + ";";
    EmptyForm(p);
    LoadsNumbers(p, " " + (" " + (" " + (" " + rest))));
    LoadsFields(p);
    LoadsAfterBlanks(p, rest);
    LoadsAfterBlanks(p, " " + rest);
    LoadsAfterBlanks(p, " " + (" " + rest));
    LoadsAfterBlanks(p, " " + (" " + (" " + rest)));
  }

  /** C loads every payload of well-formed tokens from either encoder's line. */
  lemma LoadsBoth(p: Payload)
    requires WireSafe(p)
    ensures Load(Craft(p)) == Some(p) && Load(Serialize(p)) == Some(p)
  {
    LoadsCraft(p);
    if p.hops >= 1 {
      EncodersAgree(p);
    } else {
      LoadsEmpty(p);
    }
  }

  /** Each decoder recovers every payload of well-formed tokens from either encoder, with any number of hops. */
  lemma CodecsInteroperate(p: Payload)
    requires WireSafe(p)
    ensures Deserialize(Serialize(p)) == Parsed(p) && Deserialize(Craft(p)) == Parsed(p)
    ensures Load(Serialize(p)) == Some(p) && Load(Craft(p)) == Some(p)
  {
    DeserializesBoth(p);
    LoadsBoth(p);
  }
}
