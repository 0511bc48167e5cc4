/** The two wire formats: server.py's serialize and deserialize, payload.c's craft_payload and load_payload. */
module Codec {
  import opened Text
  import opened Protocol

  ghost predicate WireSafe(p: Payload) {
    Shaped(p)
    && AreTokens(p.stations) && AreTokens(p.addresses) && AreTokens(p.routes) && AreTokens(p.times)
    && IsToken(p.destination) && IsToken(p.source) && IsToken(p.startingTime)
  }

  // ----- encoding

  // " ".join(ts)
  function Join(ts: seq<string>): string {
    if ts == [] then "" else if |ts| == 1 then ts[0] else ts[0] + " " + Join(ts[1..])
  }

  // A blank before each, as the strcat loops write them.
  function Each(ts: seq<string>): string {
    if ts == [] then "" else Each(ts[..|ts| - 1]) + " " + ts[|ts| - 1]
  }

  function Numbers(p: Payload): string {
    Decimal(p.found) + " " + Decimal(p.hops) + " " + Decimal(p.current)
  }

  function Ending(p: Payload): string {
    " " + p.destination + " " + p.source + " " + p.startingTime + ";"
  }

  function Serialize(p: Payload): string {
    Numbers(p) + " " + Join(p.stations) + " " + Join(p.addresses) + " " + Join(p.routes) + " " + Join(p.times)
    + Ending(p)
  }

  function Craft(p: Payload): string {
    Numbers(p) + Each(p.stations) + Each(p.addresses) + Each(p.routes) + Each(p.times) + Ending(p)
  }

  // ----- decoding in Python

  // s.split(): the words between white space.
  function Words(s: string): seq<string>
    decreases |s|
  {
    if s == [] then []
    else if IsSpace(s[0]) then Words(s[1..])
    else
      var n := WordEnd(s);
      [s[..n]] + Words(s[n..])
  }

  function WordEnd(s: string): (n: nat)
    ensures n <= |s| && (s != [] && !IsSpace(s[0]) ==> n > 0)
  {
    if s == [] || IsSpace(s[0]) then 0 else 1 + WordEnd(s[1..])
  }

  // The digits at the start of s read on from number, and what follows them.
  function Digits(s: string, number: nat): (nat, string) {
    if s != [] && IsDigit(s[0]) then Digits(s[1..], 10 * number + DigitValue(s[0])) else (number, s)
  }

  // "(\d+) " at the start of s: the number and what follows the blank.
  function NumberAndBlank(s: string): Option<(nat, string)> {
    var (number, rest) := Digits(s, 0);
    if s != [] && IsDigit(s[0]) && rest != [] && rest[0] == ' ' then Some((number, rest[1..])) else None
  }

  // Where "(.+?);" ends at or after k: the next semicolon on the same line.
  function Semicolon(s: string, k: nat): Option<nat>
    requires k <= |s|
    ensures Semicolon(s, k).Some? ==> k <= Semicolon(s, k).value < |s|
    decreases |s| - k
  {
    if k == |s| then None
    else if s[k] == ';' then Some(k)
    else if s[k] == '\n' then None
    else Semicolon(s, k + 1)
  }

  // The pattern does not match, the words run out, or there is a payload.
  datatype Decoded = Unmatched | Broken | Parsed(payload: Payload)

  // data[a:b]
  function Slice(data: seq<string>, a: nat, b: nat): seq<string>
    requires a <= b
  {
    data[if a <= |data| then a else |data|..if b <= |data| then b else |data|]
  }

  function Deserialize(s: string): Decoded {
    match LeadingNumbers(s)
    case None => Unmatched
    case Some((found, hops, current, rest)) =>
      if rest == [] || rest[0] == '\n' || Semicolon(rest, 1) == None then Unmatched
      else FromWords(found, hops, current, Words(rest[..Semicolon(rest, 1).value]))
  }

  function LeadingNumbers(s: string): Option<(nat, nat, nat, string)> {
    var (found, s1) :- NumberAndBlank(s);
    var (hops, s2) :- NumberAndBlank(s1);
    var (current, s3) :- NumberAndBlank(s2);
    Some((found, hops, current, s3))
  }

  function FromWords(found: nat, hops: nat, current: nat, data: seq<string>): Decoded {
    if |data| < 3 then Broken
    else Parsed(Payload(found, hops, current,
      Slice(data, 0, hops), Slice(data, hops, 2 * hops),
      Slice(data, 2 * hops, 3 * hops), Slice(data, 3 * hops, 4 * hops),
      data[|data| - 3], data[|data| - 2], data[|data| - 1]))
  }

  // ----- decoding in C

  function SkipAll(s: string, c: char): (r: string)
    ensures |r| <= |s|
  {
    if s != [] && s[0] == c then SkipAll(s[1..], c) else s
  }

  // One call of strtok on what is left: the token and what is then left, or NULL.
  function Strtok(s: string, c: char): Option<(string, string)> {
    var t := SkipAll(s, c);
    if t == [] then None
    else
      var n := UpTo(t, c);
      Some((t[..n], if n < |t| then t[n + 1..] else ""))
  }

  // n calls of strtok with a blank.
  function Tokens(s: string, n: nat): (r: Option<(seq<string>, string)>)
    ensures r.Some? ==> |r.value.0| == n
  {
    if n == 0 then Some(([], s))
    else
      var (ts, rest) :- Tokens(s, n - 1);
      var (t, left) :- Strtok(rest, ' ');
      Some((ts + [t], left))
  }

  // What "%d %d %d" reads, and what strtok leaves after the same three words; None where a number would be unset.
  function ThreeNumbers(s: string): Option<(nat, nat, nat, string)> {
    var (ts, rest) :- Tokens(s, 3);
    if ts[0] != [] && ts[1] != [] && ts[2] != [] && AllDigits(ts[0]) && AllDigits(ts[1]) && AllDigits(ts[2])
    then Some((Value(ts[0]), Value(ts[1]), Value(ts[2]), rest))
    else None
  }

  // None where a number cannot be read or strtok runs out.
  function Load(s: string): Option<Payload> {
    var (found, hops, current, rest) :- ThreeNumbers(s);
    LoadFields(found, hops, current, rest)
  }

  function LoadFields(found: nat, hops: nat, current: nat, s: string): Option<Payload> {
    var (stations, addresses, routes, times, rest) :- LoadLists(s, hops);
    LoadEnding(Payload(found, hops, current, stations, addresses, routes, times, "", "", ""), rest)
  }

  function LoadLists(s: string, hops: nat): Option<(seq<string>, seq<string>, seq<string>, seq<string>, string)> {
    var (stations, s1) :- Tokens(s, hops);
    var (addresses, s2) :- Tokens(s1, hops);
    var (routes, s3) :- Tokens(s2, hops);
    var (times, s4) :- Tokens(s3, hops);
    Some((stations, addresses, routes, times, s4))
  }

  function LoadEnding(p: Payload, s: string): Option<Payload> {
    var (destination, source, start) :- LoadThree(s);
    Some(p.(destination := destination, source := source, startingTime := start))
  }

  function LoadThree(s: string): Option<(string, string, string)> {
    var (destination, s1) :- Strtok(s, ' ');
    var (source, s2) :- Strtok(s1, ' ');
    var (start, _) :- Strtok(s2, ';');
    Some((destination, source, start))
  }
}
