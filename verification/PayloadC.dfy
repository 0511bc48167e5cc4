/** payload.c: the C payload with its allocated arrays, how it is loaded from a line and crafted into one. */
module PayloadC {
  import opened Text
  import opened Protocol
  import opened Codec

  // How many slots load_payload allocates: one more than it fills while the flood is still on.
  function Slots(found: nat, hops: nat): nat {
    if found == 0 then hops + 1 else hops
  }

  class CPayload {
    var found: nat
    var hops: nat
    var current: nat
    const stations: array<Name>
    const address: array<Address>
    const routes: array<string>
    const time: array<string>
    var destination: Name
    var source: Name
    var startTime: string

    // The arrays load_payload allocates, before they are filled.
    constructor (found: nat, hops: nat, current: nat)
      ensures this.found == found && this.hops == hops && this.current == current
      ensures stations.Length == Slots(found, hops) && Allocated()
      ensures stations.Length == address.Length == routes.Length == time.Length == if found == 0 then hops + 1 else hops
      ensures fresh(stations) && fresh(address) && fresh(routes) && fresh(time)
    {
      this.found, this.hops, this.current := found, hops, current;
      stations := new Name[Slots(found, hops)](_ => "");
      address := new Address[Slots(found, hops)](_ => "");
      routes := new string[Slots(found, hops)](_ => "");
      time := new string[Slots(found, hops)](_ => "");
      destination, source, startTime := "", "", "";
    }

    ghost function Repr(): set<object> {
      {this, stations, address, routes, time}
    }

    ghost predicate Allocated()
      reads this
    {
      stations.Length == address.Length == routes.Length == time.Length
      && stations != address && stations != routes && stations != time
      && address != routes && address != time && routes != time
      && hops <= stations.Length
    }

    function Value(): Payload
      requires Allocated()
      reads this, stations, address, routes, time
    {
      Payload(found, hops, current, stations[..hops], address[..hops], routes[..hops], time[..hops],
              destination, source, startTime)
    }

    // One more hop in the slot after the last.
    method Append(st: Station, route: string, arrival: string)
      requires Allocated() && hops < stations.Length && st.language == C
      modifies Repr()
      ensures Allocated() && Value() == Protocol.Append(old(Value()), st, route, arrival)
    {
      address[hops] := st.address;
      stations[hops] := st.name;
      routes[hops] := route;
      time[hops] := arrival;
      hops := hops + 1;
      current := hops;
      assert stations[..hops] == old(stations[..hops]) + [st.name];
      assert address[..hops] == old(address[..hops]) + [st.address];
      assert routes[..hops] == old(routes[..hops]) + [route];
      assert time[..hops] == old(time[..hops]) + [arrival];
    }
  }

  // strtok's hidden state: what is left of the string.
  class Tokenizer {
    var left: string

    constructor (s: string)
      ensures left == s
    {
      left := s;
    }

    method Next(c: char) returns (t: Option<string>)
      modifies this
      ensures match Strtok(old(left), c)
              case None => t == None && left == old(left)
              case Some((token, rest)) => t == Some(token) && left == rest
    {
      var s := SkipAll(left, c);
      if s == [] {
        return None;
      }
      var n := UpTo(s, c);
      left := if n < |s| then s[n + 1..] else "";
      t := Some(s[..n]);
    }
  }

  // One of load_payload's loops; it fails where strtok returns NULL.
  method FillSlots(a: array<string>, hops: nat, tk: Tokenizer) returns (ok: bool)
    requires hops <= a.Length
    modifies a, tk
    ensures ok <==> Tokens(old(tk.left), hops).Some?
    ensures ok ==> Tokens(old(tk.left), hops) == Some((a[..hops], tk.left))
  {
    var i := 0;
    while i < hops
      invariant i <= hops
      invariant Tokens(old(tk.left), i) == Some((a[..i], tk.left))
    {
      var token := tk.Next(' ');
      if token == None {
        NoMoreTokens(old(tk.left), i + 1, hops);
        return false;
      }
      a[i] := token.value;
      i := i + 1;
      assert a[..i] == a[..i - 1] + [token.value];
    }
    return true;
  }

  lemma {:induction false} NoMoreTokens(s: string, m: nat, n: nat)
    requires m <= n && Tokens(s, m) == None
    ensures Tokens(s, n) == None
    decreases n
  {
    if m < n {
      NoMoreTokens(s, m, n - 1);
    }
  }

  method LoadSlots(q: CPayload, tk: Tokenizer) returns (ok: bool)
    requires q.Allocated()
    modifies q.stations, q.address, q.routes, q.time, tk
    ensures ok <==> LoadLists(old(tk.left), q.hops).Some?
    ensures ok ==> LoadLists(old(tk.left), q.hops) ==
                     Some((q.stations[..q.hops], q.address[..q.hops], q.routes[..q.hops], q.time[..q.hops], tk.left))
  {
    ok := FillSlots(q.stations, q.hops, tk);
    if !ok { return; }
    ok := FillSlots(q.address, q.hops, tk);
    if !ok { return; }
    ok := FillSlots(q.routes, q.hops, tk);
    if !ok { return; }
    ok := FillSlots(q.time, q.hops, tk);
  }

  method LoadAfterNumbers(found: nat, hops: nat, current: nat, rest: string) returns (p: CPayload?)
    ensures p == null <==> LoadFields(found, hops, current, rest) == None
    ensures p != null ==> fresh(p.Repr()) && p.Allocated() && p.stations.Length == Slots(found, hops)
    ensures p != null ==> LoadFields(found, hops, current, rest) == Some(p.Value())
  {
    var q := new CPayload(found, hops, current);
    var tk := new Tokenizer(rest);
    var ok := LoadSlots(q, tk);
    if !ok {
      return null;
    }
    ok := LoadNames(q, tk);
    if !ok {
      return null;
    }
    return q;
  }

  lemma LoadKeepsNumbers(found: nat, hops: nat, current: nat, s: string)
    ensures match LoadFields(found, hops, current, s)
            case None => true
            case Some(p) => p.found == found && p.hops == hops && p.current == current
  {
  }

  /** load_payload; null stands for the lines on which it would read a missing number or token. */
  method LoadPayload(s: string) returns (p: CPayload?)
    ensures p == null <==> Load(s) == None
    ensures p != null ==> fresh(p.Repr()) && p.Allocated() && p.stations.Length == Slots(p.found, p.hops)
    ensures p != null ==> Load(s) == Some(p.Value())
  {
    var numbers := ThreeNumbers(s);
    if numbers == None {
      return null;
    }
    var (found, hops, current, rest) := numbers.value;
    p := LoadAfterNumbers(found, hops, current, rest);
    LoadKeepsNumbers(found, hops, current, rest);
  }

  method LoadNames(q: CPayload, tk: Tokenizer) returns (ok: bool)
    modifies q`destination, q`source, q`startTime, tk
    ensures ok <==> LoadThree(old(tk.left)).Some?
    ensures ok ==> LoadThree(old(tk.left)) == Some((q.destination, q.source, q.startTime))
  {
    var token := tk.Next(' ');
    if token == None { return false; }
    q.destination := token.value;
    token := tk.Next(' ');
    if token == None { return false; }
    q.source := token.value;
    token := tk.Next(';');
    if token == None { return false; }
    q.startTime := token.value;
    return true;
  }

  // One of craft_payload's loops.
  method AppendSlots(payload: string, a: array<string>, hops: nat) returns (s: string)
    requires hops <= a.Length
    ensures s == payload + Each(a[..hops])
  {
    s := payload;
    for i := 0 to hops
      invariant s == payload + Each(a[..i])
    {
      s := s + " ";
      s := s + a[i];
      assert a[..i + 1][..i] == a[..i];
      assert payload + (Each(a[..i]) + " " + a[i]) == payload + Each(a[..i]) + " " + a[i];
    }
  }

  method CraftPayload(p: CPayload) returns (payload: string)
    requires p.Allocated()
    ensures payload == Craft(p.Value())
  {
    payload := Numbers(p.Value());
    payload := AppendSlots(payload, p.stations, p.hops);
    payload := AppendSlots(payload, p.address, p.hops);
    payload := AppendSlots(payload, p.routes, p.hops);
    payload := AppendSlots(payload, p.time, p.hops);
    payload := payload + (" " + p.destination + " " + p.source + " " + p.startTime + ";");
  }

  // ----- the buffer

  const MAX_NAME_LENGTH := 61
  const MAX_PORT := 8
  const INET6_ADDRSTRLEN := 46
  const MAX_TIMESTRING := 6

  // What craft_payload passes to malloc.
  function CraftBuffer(hops: nat): nat {
    hops * (MAX_NAME_LENGTH + MAX_PORT + INET6_ADDRSTRLEN + 1 + MAX_TIMESTRING + MAX_NAME_LENGTH)
    + 2 * MAX_NAME_LENGTH + MAX_TIMESTRING
  }

  ghost predicate AtMost(ts: seq<string>, n: nat) {
    forall i :: 0 <= i < |ts| ==> |ts[i]| <= n
  }

  lemma {:induction false} EachFits(ts: seq<string>, n: nat)
    requires AtMost(ts, n)
    ensures |Each(ts)| <= |ts| * (n + 1)
  {
    if ts != [] {
      EachFits(ts[..|ts| - 1], n);
      assert |ts| * (n + 1) == (|ts| - 1) * (n + 1) + (n + 1);
    }
  }

  lemma NumbersFit(p: Payload)
    requires 1 <= p.hops && p.found <= 4 && p.current <= p.hops
    ensures |Numbers(p)| <= 3 + 2 * p.hops
  {
    DecimalIsShort(p.hops);
    DecimalLengthMonotone(p.current, p.hops);
    assert |Decimal(p.found)| == 1;
  }

  lemma CraftLength(p: Payload)
    ensures |Craft(p)| == |Numbers(p)| + |Each(p.stations)| + |Each(p.addresses)| + |Each(p.routes)| + |Each(p.times)|
                          + |p.destination| + |p.source| + |p.startingTime| + 4
  {
  }

  /** craft_payload and its terminator fit the buffer it allocates, for names and routes of at most 60
      characters, times of at most 5 and addresses of at most 23. */
  lemma CraftFits(p: Payload)
    requires Shaped(p) && 1 <= p.hops && p.found <= 4 && p.current <= p.hops
    requires AtMost(p.stations, 60) && AtMost(p.addresses, 23) && AtMost(p.routes, 60) && AtMost(p.times, 5)
    requires |p.destination| <= 60 && |p.source| <= 60 && |p.startingTime| <= 5
    ensures |Craft(p)| + 1 <= CraftBuffer(p.hops)
  {
    CraftLength(p);
    NumbersFit(p);
    FieldsFit(p);
    BufferSize(p.hops);
  }

  lemma FieldsFit(p: Payload)
    requires Shaped(p)
    requires AtMost(p.stations, 60) && AtMost(p.addresses, 23) && AtMost(p.routes, 60) && AtMost(p.times, 5)
    ensures |Each(p.stations)| + |Each(p.addresses)| + |Each(p.routes)| + |Each(p.times)| <= 152 * p.hops
  {
    EachFits(p.stations, 60);
    EachFits(p.addresses, 23);
    EachFits(p.routes, 60);
    EachFits(p.times, 5);
  }

  lemma BufferSize(hops: nat)
    ensures CraftBuffer(hops) == 183 * hops + 128
  {
  }
}
