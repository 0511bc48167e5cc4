/** Decimal numerals and "HH:MM" clock strings, as both programs read and print them. */
module Text {

  datatype Option<+T> = None | Some(value: T) {
    predicate IsFailure() {
      None?
    }

    function PropagateFailure<U>(): Option<U>
      requires None?
    {
      None
    }

    function Extract(): T
      requires Some?
    {
      value
    }
  }

  predicate IsDigit(c: char) {
    '0' <= c <= '9'
  }

  // str.isspace(): where Python's split() and strip() see white space.
  predicate IsSpace(c: char) {
    var n := c as int;
    9 <= n <= 13 || 28 <= n <= 32 || n == 0x85 || n == 0xA0 || n == 0x1680 || 0x2000 <= n <= 0x200A
    || n == 0x2028 || n == 0x2029 || n == 0x202F || n == 0x205F || n == 0x3000
  }

  // A token the wire can carry: not empty, no white space, no semicolon.
  predicate IsToken(t: string) {
    t != [] && forall i :: 0 <= i < |t| ==> !IsSpace(t[i]) && t[i] != ';'
  }

  predicate AreTokens(ts: seq<string>) {
    forall i :: 0 <= i < |ts| ==> IsToken(ts[i])
  }

  // The place of the first c in s, or |s|.
  function UpTo(s: string, c: char): (n: nat)
    ensures n <= |s|
  {
    if s == [] || s[0] == c then 0 else 1 + UpTo(s[1..], c)
  }

  lemma {:induction false} UpToFinds(t: string, c: char, rest: string)
    requires c !in t && (rest == [] || rest[0] == c)
    ensures UpTo(t + rest, c) == |t|
  {
    if t == [] {
      assert t + rest == rest;
    } else {
      assert (t + rest)[0] == t[0] && (t + rest)[1..] == t[1..] + rest;
      UpToFinds(t[1..], c, rest);
    }
  }

  // "host:port", as both programs take an address apart.
  predicate IsHostPort(address: string) {
    var k := UpTo(address, ':');
    0 < k && k + 1 < |address| && AllDigits(address[k + 1..]) && Value(address[k + 1..]) < 0x1_0000
  }

  predicate AllDigits(s: string) {
    forall i :: 0 <= i < |s| ==> IsDigit(s[i])
  }

  function DigitChar(d: nat): char
    requires d < 10
  {
    '0' + d as char
  }

  function DigitValue(c: char): nat
    requires IsDigit(c)
  {
    c as int - '0' as int
  }

  // What "%d" and str() print for a non-negative number.
  function Decimal(n: nat): string {
    if n < 10 then [DigitChar(n)] else Decimal(n / 10) + [DigitChar(n % 10)]
  }

  // What int() and "%d" read from a run of digits.
  function Value(s: string): nat
    requires AllDigits(s)
  {
    if s == [] then 0 else 10 * Value(s[..|s| - 1]) + DigitValue(s[|s| - 1])
  }

  // Reading back a numeral gives the number, and none begins with a zero it could do without.
  lemma {:induction false} ValueOfDecimal(n: nat)
    ensures |Decimal(n)| >= 1 && AllDigits(Decimal(n)) && Value(Decimal(n)) == n
    ensures if n == 0 then Decimal(n) == "0" else Decimal(n)[0] != '0'
  {
    if n < 10 {
      assert Value([DigitChar(n)][..0]) == 0;
    } else {
      ValueOfDecimal(n / 10);
      var s := Decimal(n);
      assert s[..|s| - 1] == Decimal(n / 10);
    }
  }

  lemma {:induction false} DecimalIsShort(n: nat)
    requires n >= 1
    ensures |Decimal(n)| <= n
  {
    if n >= 10 {
      DecimalIsShort(n / 10);
    }
  }

  lemma {:induction false} DecimalLengthMonotone(m: nat, n: nat)
    requires m <= n
    ensures |Decimal(m)| <= |Decimal(n)|
  {
    if m >= 10 {
      DecimalLengthMonotone(m / 10, n / 10);
    }
  }

  // Scanning past a run of digits reads its value.
  lemma {:induction false} ScanDigits(a: string, d: string, b: string, k: nat, sep: char, hours: Option<nat>)
    requires 1 <= k <= |d| && AllDigits(d)
    ensures var s := a + d + b;
            Scan(s, sep, |a|, hours, None) == Scan(s, sep, |a| + k, hours, Some(Value(d[..k])))
  {
    var s := a + d + b;
    assert s[|a| + k - 1] == d[k - 1];
    assert d[..k][..k - 1] == d[..k - 1];
    if k > 1 {
      ScanDigits(a, d, b, k - 1, sep, hours);
    }
  }

  lemma {:induction false} HasFinds(s: string, c: char, i: nat, k: nat)
    requires i <= k < |s| && s[k] == c
    ensures Has(s, c, i)
    decreases k - i
  {
    if i < k {
      HasFinds(s, c, i + 1, k);
    }
  }

  lemma ReadsTwoNumbers(h: string, m: string)
    requires h != [] && m != [] && AllDigits(h) && AllDigits(m)
    ensures IsClock(h + ":" + m) && Minutes(h + ":" + m) == 60 * Value(h) + Value(m)
  {
    var s := h + ":" + m;
    HasFinds(s, ':', 0, |h|);
    assert s == [] + h + (":" + m) && s == (h + ":") + m + [];
    ScanDigits([], h, ":" + m, |h|, ':', None);
    ScanDigits(h + ":", m, [], |m|, ':', Some(Value(h)));
    assert h[..|h|] == h && m[..|m|] == m;
    assert s[|h|] == ':';
  }

  // "%02i"
  function Pad2(n: nat): string {
    if n < 10 then "0" + Decimal(n) else Decimal(n)
  }

  lemma ValueOfPad2(n: nat)
    ensures |Pad2(n)| >= 2 && AllDigits(Pad2(n)) && Value(Pad2(n)) == n
    ensures n < 100 ==> |Pad2(n)| == 2
  {
    ValueOfDecimal(n);
    if n < 10 {
      var s := Pad2(n);
      assert s == ['0', DigitChar(n)];
      assert s[..1] == ['0'];
      assert Value(s[..1]) == 0 by { assert s[..1][..0] == []; }
    } else if n < 100 {
      assert Decimal(n) == [DigitChar(n / 10)] + [DigitChar(n % 10)];
    }
  }

  // "%02i:%02i" of hour(m) and mins(m).
  function ClockOf(m: nat): string {
    Pad2(m / 60) + ":" + Pad2(m % 60)
  }

  // Whether c occurs in s at or after i.
  predicate Has(s: string, c: char, i: nat)
    requires i <= |s|
    decreases |s| - i
  {
    i < |s| && (s[i] == c || Has(s, c, i + 1))
  }

  // Reads s from i on: the number before sep is in hours once sep has been passed, and number
  // holds the digits read since. None is every string but two numbers around one sep.
  function Scan(s: string, sep: char, i: nat, hours: Option<nat>, number: Option<nat>): Option<nat>
    requires i <= |s|
    decreases |s| - i
  {
    if i == |s| then
      if hours.Some? && number.Some? then Some(60 * hours.value + number.value) else None
    else if IsDigit(s[i]) then
      Scan(s, sep, i + 1, hours, Some(10 * (if number.Some? then number.value else 0) + DigitValue(s[i])))
    else if s[i] == sep && hours.None? && number.Some? then
      Scan(s, sep, i + 1, number, None)
    else
      None
  }

  /** The Python reader: two numbers around ':' (or else around '-'), 0 when there is neither.
      None stands for the strings on which int() or the unpacking raises. */
  function TimeToMinutes(s: string): Option<nat> {
    if Has(s, ':', 0) then Scan(s, ':', 0, None, None)
    else if Has(s, '-', 0) then Scan(s, '-', 0, None, None)
    else Some(0)
  }

  predicate Readable(s: string) {
    TimeToMinutes(s).Some?
  }

  // The two readers agree on "digits:digits"; the C reader is undefined on anything else.
  predicate IsClock(s: string) {
    Has(s, ':', 0) && Readable(s)
  }

  // Minutes since midnight; 0 stands in where the handlers never get to (see Protocol.Safe).
  function Minutes(s: string): nat {
    if Readable(s) then TimeToMinutes(s).value else 0
  }

  const TOO_LATE := "99:99"

  const NEVER: nat := 6039

  lemma TooLateIsNever()
    ensures IsClock(TOO_LATE) && Minutes(TOO_LATE) == NEVER
  {
    ValueOfDecimal(99);
    assert Decimal(99) == "99";
    ReadsTwoNumbers("99", "99");
    assert "99" + ":" + "99" == TOO_LATE;
  }

  /** Reading back a printed time gives the minutes it was printed from. */
  lemma ClockRoundTrip(m: nat)
    ensures IsClock(ClockOf(m)) && Minutes(ClockOf(m)) == m
    ensures m < 6000 ==> |ClockOf(m)| == 5
  {
    ValueOfPad2(m / 60);
    ValueOfPad2(m % 60);
    ReadsTwoNumbers(Pad2(m / 60), Pad2(m % 60));
  }

  lemma ClockIsToken(m: nat)
    ensures IsToken(ClockOf(m))
  {
    ValueOfPad2(m / 60);
    ValueOfPad2(m % 60);
    var h, r := Pad2(m / 60), Pad2(m % 60);
    forall i | 0 <= i < |ClockOf(m)| ensures ClockOf(m)[i] == ':' || IsDigit(ClockOf(m)[i]) {
      assert ClockOf(m)[i] == if i < |h| then h[i] else if i == |h| then ':' else r[i - |h| - 1];
    }
  }

  // ----- one string for every time, and one time for every string

  lemma NumeralsAreDecimal()
    ensures Decimal(1024) == "1024" && Value("1024") == 1024 && Decimal(7) == "7" && Pad2(7) == "07"
  {
    ValueOfDecimal(1024);
    assert Decimal(1024) == "1024";
  }

  /** A printed time is hours, a colon and two digits of minutes below 60; the hours have two digits below 100 hours. */
  lemma PrintedClock(m: nat) returns (h: string, r: string)
    ensures ClockOf(m) == h + ":" + r && AllDigits(h) && AllDigits(r) && |h| >= 2 && |r| == 2
    ensures Value(r) < 60 && 60 * Value(h) + Value(r) == m && (m < 6000 ==> |h| == 2)
  {
    h, r := Pad2(m / 60), Pad2(m % 60);
    ValueOfPad2(m / 60);
    ValueOfPad2(m % 60);
  }

  lemma TwoDigits(s: string)
    requires |s| == 2 && AllDigits(s)
    ensures Value(s) == 10 * DigitValue(s[0]) + DigitValue(s[1])
  {
    assert s[..1][..0] == [] && s[..1][0] == s[0];
    assert Value(s[..1]) == DigitValue(s[0]);
  }

  lemma SameTwoDigits(s: string, t: string)
    requires |s| == |t| == 2 && AllDigits(s) && AllDigits(t) && Value(s) == Value(t)
    ensures s == t
  {
    TwoDigits(s);
    TwoDigits(t);
    assert s == [s[0], s[1]] && t == [t[0], t[1]];
  }

  /** ... so below 100 hours it is the only string of that form that means this time. */
  lemma PrintedClockIsTheOnly(m: nat, h: string, r: string)
    requires m < 6000 && |h| == |r| == 2 && AllDigits(h) && AllDigits(r)
    requires Value(r) < 60 && 60 * Value(h) + Value(r) == m
    ensures ClockOf(m) == h + ":" + r
  {
    var h', r' := PrintedClock(m);
    assert Value(h) == m / 60 == Value(h') && Value(r) == m % 60 == Value(r');
    SameTwoDigits(h, h');
    SameTwoDigits(r, r');
  }

  ghost predicate TwoNumbers(s: string, sep: char, h: string, m: string, v: nat) {
    s == h + [sep] + m && h != [] && m != [] && AllDigits(h) && AllDigits(m) && v == 60 * Value(h) + Value(m)
  }

  // Whether s is two numbers around one sep, worth v minutes.
  ghost predicate IsTimeAround(s: string, sep: char, v: nat) {
    exists h, m :: TwoNumbers(s, sep, h, m, v)
  }

  lemma {:induction false} HasIsIn(s: string, c: char, i: nat)
    requires i <= |s|
    ensures Has(s, c, i) <==> c in s[i..]
    decreases |s| - i
  {
    if i < |s| {
      HasIsIn(s, c, i + 1);
      assert s[i..] == [s[i]] + s[i + 1..];
    }
  }

  lemma ScansTwoNumbers(s: string, sep: char, h: string, m: string, v: nat)
    requires !IsDigit(sep) && TwoNumbers(s, sep, h, m, v)
    ensures Scan(s, sep, 0, None, None) == Some(v)
  {
    assert s == [] + h + ([sep] + m) && s == (h + [sep]) + m + [];
    ScanDigits([], h, [sep] + m, |h|, sep, None);
    ScanDigits(h + [sep], m, [], |m|, sep, Some(Value(h)));
    assert h[..|h|] == h && m[..|m|] == m;
    assert s[|h|] == sep;
  }

  // What has been read of s up to i: a number, or, from the sep at k on, a second one.
  ghost predicate ReadSoFar(s: string, sep: char, i: nat, k: nat, hours: Option<nat>, number: Option<nat>) {
    i <= |s|
    && match hours
       case None => AllDigits(s[..i]) && number == (if i == 0 then None else Some(Value(s[..i])))
       case Some(n) =>
         0 < k < i && s[k] == sep && AllDigits(s[..k]) && n == Value(s[..k])
         && AllDigits(s[k + 1..i]) && number == (if k + 1 == i then None else Some(Value(s[k + 1..i])))
  }

  lemma OneMoreDigit(d: string, c: char)
    requires AllDigits(d) && IsDigit(c)
    ensures AllDigits(d + [c]) && Value(d + [c]) == 10 * Value(d) + DigitValue(c)
  {
    assert (d + [c])[..|d|] == d;
  }

  lemma ReadsOneMore(s: string, sep: char, i: nat, k: nat, hours: Option<nat>, number: Option<nat>)
    requires i < |s| && IsDigit(s[i]) && ReadSoFar(s, sep, i, k, hours, number)
    ensures ReadSoFar(s, sep, i + 1, k, hours,
                      Some(10 * (if number.Some? then number.value else 0) + DigitValue(s[i])))
  {
    if hours.None? {
      OneMoreDigit(s[..i], s[i]);
      assert s[..i + 1] == s[..i] + [s[i]];
    } else {
      OneMoreDigit(s[k + 1..i], s[i]);
      assert s[k + 1..i + 1] == s[k + 1..i] + [s[i]];
    }
  }

  lemma {:induction false} ScanMeans(s: string, sep: char, i: nat, k: nat, hours: Option<nat>, number: Option<nat>)
    requires !IsDigit(sep) && ReadSoFar(s, sep, i, k, hours, number) && Scan(s, sep, i, hours, number).Some?
    ensures IsTimeAround(s, sep, Scan(s, sep, i, hours, number).value)
    decreases |s| - i
  {
    if i == |s| {
      assert s == s[..k] + [sep] + s[k + 1..];
      assert s[k + 1..i] == s[k + 1..];
      assert TwoNumbers(s, sep, s[..k], s[k + 1..], Scan(s, sep, i, hours, number).value);
    } else if IsDigit(s[i]) {
      ReadsOneMore(s, sep, i, k, hours, number);
      ScanMeans(s, sep, i + 1, k, hours, Some(10 * (if number.Some? then number.value else 0) + DigitValue(s[i])));
    } else {
      ScanMeans(s, sep, i + 1, i, number, None);
    }
  }

  /** What the Python reader makes of any string: two numbers around a colon, or around a dash where there is no colon,
      are hours and minutes; a string with neither is 0; every other raises. */
  lemma TimeToMinutesIs(s: string, v: nat)
    ensures TimeToMinutes(s) == Some(v) <==>
              if ':' in s then IsTimeAround(s, ':', v) else if '-' in s then IsTimeAround(s, '-', v) else v == 0
  {
    HasIsIn(s, ':', 0);
    HasIsIn(s, '-', 0);
    assert s[0..] == s;
    forall sep | sep in {':', '-'} ensures Scan(s, sep, 0, None, None) == Some(v) <==> IsTimeAround(s, sep, v) {
      if Scan(s, sep, 0, None, None) == Some(v) {
        ScanMeans(s, sep, 0, 0, None, None);
      }
      if IsTimeAround(s, sep, v) {
        var h, m :| TwoNumbers(s, sep, h, m, v);
        ScansTwoNumbers(s, sep, h, m, v);
      }
    }
  }
}
