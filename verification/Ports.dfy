// Port-list settings: how a list value is split, how its tokens expand into
// ports, and how ports are printed back.

module Ports {
  import opened Types
  import opened Sorting

  const MAX_PORT := 65535
  const MAX_EXPANDED := 8192

  // ------------------------------------------------------------- splitting

  predicate Separator(c: char) { c == ',' || c == ';' || c == ' ' || c == '\t' }

  // White space of a Go string.
  predicate Space(c: char) {
    var n := c as int;
    || 0x09 <= n <= 0x0d || n == 0x20 || n == 0x85 || n == 0xa0 || n == 0x1680
    || 0x2000 <= n <= 0x200a || n == 0x2028 || n == 0x2029 || n == 0x202f || n == 0x205f || n == 0x3000
  }

  // These characters, one by one.
  lemma SpaceTable(c: char)
    ensures Space(c) <==> c as int in {
      0x09, 0x0a, 0x0b, 0x0c, 0x0d, 0x20, 0x85, 0xa0, 0x1680, 0x2000, 0x2001, 0x2002, 0x2003, 0x2004, 0x2005, 0x2006,
      0x2007, 0x2008, 0x2009, 0x200a, 0x2028, 0x2029, 0x202f, 0x205f, 0x3000}
  {
  }

  function TrimLeft(s: string): string {
    if s != [] && Space(s[0]) then TrimLeft(s[1..]) else s
  }

  function TrimRight(s: string): string {
    if s != [] && Space(s[|s| - 1]) then TrimRight(s[..|s| - 1]) else s
  }

  function Trim(s: string): string { TrimRight(TrimLeft(s)) }

  predicate Blank(s: string) { forall c | c in s :: Space(c) }

  lemma {:induction false} TrimLeftMeaning(s: string) returns (before: string)
    ensures s == before + TrimLeft(s) && Blank(before)
    ensures TrimLeft(s) == [] || !Space(TrimLeft(s)[0])
  {
    before := [];
    if s != [] && Space(s[0]) {
      var rest := TrimLeftMeaning(s[1..]);
      before := [s[0]] + rest;
    }
  }

  lemma {:induction false} TrimRightMeaning(s: string) returns (after: string)
    ensures s == TrimRight(s) + after && Blank(after)
    ensures TrimRight(s) == [] || !Space(TrimRight(s)[|TrimRight(s)| - 1])
    ensures TrimRight(s) == [] || TrimRight(s)[0] == s[0]
  {
    after := [];
    if s != [] && Space(s[|s| - 1]) {
      var rest := TrimRightMeaning(s[..|s| - 1]);
      after := rest + [s[|s| - 1]];
      assert s == s[..|s| - 1] + [s[|s| - 1]];
    }
  }

  // A text is its trimmed form between two runs of spaces.
  lemma TrimMeaning(s: string) returns (before: string, after: string)
    ensures s == before + Trim(s) + after && Blank(before) && Blank(after)
    ensures Trim(s) == [] || (!Space(Trim(s)[0]) && !Space(Trim(s)[|Trim(s)| - 1]))
  {
    before := TrimLeftMeaning(s);
    after := TrimRightMeaning(TrimLeft(s));
  }

  // The maximal separator-free runs, given the run read so far.
  function Fields(s: string, run: string): seq<string> {
    if s == [] then Pending(run)
    else if Separator(s[0]) then Pending(run) + Fields(s[1..], [])
    else Fields(s[1..], run + [s[0]])
  }

  function Pending(run: string): seq<string> { if run == [] then [] else [run] }

  function TrimAll(fields: seq<string>): seq<string> {
    seq(|fields|, i requires 0 <= i < |fields| => Trim(fields[i]))
  }

  function SplitList(value: string): seq<string> {
    SortCompact(TrimAll(Fields(value, [])), TextLess)
  }

  ghost predicate Plain(s: string) { forall c | c in s :: !Separator(c) }

  // Splitting at any separator splits the list.
  lemma {:induction false} FieldsSplit(a: string, sep: char, b: string, run: string)
    requires Separator(sep)
    ensures Fields(a + [sep] + b, run) == Fields(a, run) + Fields(b, [])
  {
    var s := a + [sep] + b;
    if a == [] {
      assert s[1..] == b;
    } else {
      assert s[1..] == a[1..] + [sep] + b;
      FieldsSplit(a[1..], sep, b, if Separator(a[0]) then [] else run + [a[0]]);
    }
  }

  // A text without separators is one field, unless it is empty.
  lemma {:induction false} FieldsPlain(a: string, run: string)
    requires Plain(a)
    ensures Fields(a, run) == Pending(run + a)
  {
    if a == [] {
      assert run + a == run;
    } else {
      FieldsPlain(a[1..], run + [a[0]]);
      assert run + [a[0]] + a[1..] == run + a;
    }
  }

  // --------------------------------------------------------------- numbers

  predicate Digit(c: char) { '0' <= c <= '9' }

  function DigitValue(c: char): nat
    requires Digit(c)
  {
    c as int - '0' as int
  }

  // The value of a run of decimal digits.
  function Value(s: string): nat
    requires forall c | c in s :: Digit(c)
  {
    if s == [] then 0 else 10 * Value(s[..|s| - 1]) + DigitValue(s[|s| - 1])
  }

  predicate Decimal(s: string) { s != [] && forall c | c in s :: Digit(c) }

  // A port is a decimal number from 1 to 65535, surrounding space allowed.
  function ParsePort(s: string): (r: Option<nat>)
    ensures r.Some? ==> 1 <= r.value <= MAX_PORT
  {
    var text := Trim(s);
    if Decimal(text) && 1 <= Value(text) <= MAX_PORT then Some(Value(text)) else None
  }

  function FormatUint(n: nat): (s: string)
    ensures Decimal(s)
  {
    var last := [(n % 10 + '0' as int) as char];
    if n < 10 then last else FormatUint(n / 10) + last
  }

  lemma {:induction false} ValueOfFormat(n: nat)
    ensures Value(FormatUint(n)) == n
  {
    var s := FormatUint(n);
    if n >= 10 {
      ValueOfFormat(n / 10);
      assert s[..|s| - 1] == FormatUint(n / 10);
    }
  }

  // Text that neither begins nor ends with a space is left alone.
  lemma TrimNothing(s: string)
    requires s != [] && !Space(s[0]) && !Space(s[|s| - 1])
    ensures Trim(s) == s
  {
  }

  lemma ParseFormatted(port: nat)
    requires 1 <= port <= MAX_PORT
    ensures ParsePort(FormatUint(port)) == Some(port)
  {
    var s := FormatUint(port);
    assert s[0] in s && s[|s| - 1] in s;
    TrimNothing(s);
    ValueOfFormat(port);
  }

  // ---------------------------------------------------------------- tokens

  datatype Token = Token(tcp: bool, udp: bool, start: nat, end: nat) {
    function Size(): int { end - start + 1 }

    predicate Names(port: nat) { start <= port <= end }
  }

  function Lower(c: char): char {
    if 'A' <= c <= 'Z' then (c as int + 32) as char else c
  }

  // Whether the token begins with the given protocol prefix, in any case.
  predicate HasPrefix(s: string, prefix: string) {
    |prefix| <= |s| && forall i | 0 <= i < |prefix| :: Lower(s[i]) == prefix[i]
  }

  // The position of the first dash, or the length.
  function Dash(s: string): (n: nat)
    ensures n <= |s|
    ensures forall i | 0 <= i < n :: s[i] != '-'
    ensures n < |s| ==> s[n] == '-'
  {
    if s == [] || s[0] == '-' then 0 else 1 + Dash(s[1..])
  }

  function ParseToken(s: string): (r: Option<Token>)
    ensures r.Some? ==> 1 <= r.value.start <= r.value.end <= MAX_PORT && (r.value.tcp || r.value.udp)
  {
    if HasPrefix(s, "tcp:") then ParseSpan(s[4..], true, false)
    else if HasPrefix(s, "udp:") then ParseSpan(s[4..], false, true)
    else ParseSpan(s, true, true)
  }

  function ParseSpan(s: string, tcp: bool, udp: bool): (r: Option<Token>)
    ensures r.Some? ==> r.value.tcp == tcp && r.value.udp == udp && 1 <= r.value.start <= r.value.end <= MAX_PORT
  {
    var cut := Dash(s);
    var start := ParsePort(s[..cut]);
    if start.None? then None
    else if cut == |s| then Some(Token(tcp, udp, start.value, start.value))
    else
      var end := ParsePort(s[cut + 1..]);
      if end.None? || end.value < start.value then None else Some(Token(tcp, udp, start.value, end.value))
  }

  // ------------------------------------------------------------- expansion

  ghost predicate AllParse(fields: seq<string>, n: nat) {
    n <= |fields| && forall i | 0 <= i < n :: ParseToken(fields[i]).Some?
  }

  ghost function Sum(sizes: seq<nat>, n: nat): nat
    requires n <= |sizes|
  {
    if n == 0 then 0 else Sum(sizes, n - 1) + sizes[n - 1]
  }

  // How many ports a field names, and adds to the TCP and to the UDP list.
  function Size(field: string): nat {
    var t := ParseToken(field);
    if t.Some? then t.value.Size() else 0
  }

  function TcpSize(field: string): nat {
    var t := ParseToken(field);
    if t.Some? && t.value.tcp then t.value.Size() else 0
  }

  function UdpSize(field: string): nat {
    var t := ParseToken(field);
    if t.Some? && t.value.udp then t.value.Size() else 0
  }

  ghost function TcpSizes(fields: seq<string>): seq<nat> {
    seq(|fields|, i requires 0 <= i < |fields| => TcpSize(fields[i]))
  }

  ghost function UdpSizes(fields: seq<string>): seq<nat> {
    seq(|fields|, i requires 0 <= i < |fields| => UdpSize(fields[i]))
  }

  // Each field, counted once, still fits on top of both lists before it.
  ghost predicate Fits(fields: seq<string>, n: nat)
    requires n <= |fields|
  {
    forall i | 0 <= i < n :: Size(fields[i]) + Sum(TcpSizes(fields), i) + Sum(UdpSizes(fields), i) <= MAX_EXPANDED
  }

  ghost predicate Accepted(fields: seq<string>) {
    AllParse(fields, |fields|) && Fits(fields, |fields|)
  }

  ghost predicate NamesTcp(fields: seq<string>, n: nat, port: nat)
    requires n <= |fields|
  {
    exists i | 0 <= i < n :: TcpAt(fields[i], port)
  }

  ghost predicate NamesUdp(fields: seq<string>, n: nat, port: nat)
    requires n <= |fields|
  {
    exists i | 0 <= i < n :: UdpAt(fields[i], port)
  }

  predicate TcpAt(field: string, port: nat) {
    var t := ParseToken(field);
    t.Some? && t.value.tcp && t.value.Names(port)
  }

  predicate UdpAt(field: string, port: nat) {
    var t := ParseToken(field);
    t.Some? && t.value.udp && t.value.Names(port)
  }

  predicate PortLess(a: nat, b: nat) { a < b }

  // The state of the expansion after n tokens.
  ghost predicate Expanded(fields: seq<string>, n: nat, tcp: seq<nat>, udp: seq<nat>) {
    && AllParse(fields, n)
    && |tcp| == Sum(TcpSizes(fields), n)
    && |udp| == Sum(UdpSizes(fields), n)
    && (forall p: nat :: p in tcp <==> NamesTcp(fields, n, p))
    && (forall p: nat :: p in udp <==> NamesUdp(fields, n, p))
  }

  // The ports start .. end - 1 appended where the token says.
  ghost predicate Appended(before: seq<nat>, after: seq<nat>, wanted: bool, start: nat, end: nat) {
    && |after| == |before| + (if wanted then end - start else 0)
    && (forall p: nat :: p in after <==> p in before || (wanted && start <= p < end))
  }

  lemma ExpandedStep(fields: seq<string>, n: nat, tcp: seq<nat>, udp: seq<nat>, tcp': seq<nat>, udp': seq<nat>)
    requires Expanded(fields, n, tcp, udp) && n < |fields| && ParseToken(fields[n]).Some?
    requires var t := ParseToken(fields[n]).value;
      Appended(tcp, tcp', t.tcp, t.start, t.end + 1) && Appended(udp, udp', t.udp, t.start, t.end + 1)
    ensures Expanded(fields, n + 1, tcp', udp')
  {
    forall p: nat ensures p in tcp' <==> NamesTcp(fields, n + 1, p) { NamesTcpStep(fields, n, p); }
    forall p: nat ensures p in udp' <==> NamesUdp(fields, n + 1, p) { NamesUdpStep(fields, n, p); }
  }

  lemma NamesTcpStep(fields: seq<string>, n: nat, port: nat)
    requires n < |fields|
    ensures NamesTcp(fields, n + 1, port) <==> NamesTcp(fields, n, port) || TcpAt(fields[n], port)
  {
  }

  lemma NamesUdpStep(fields: seq<string>, n: nat, port: nat)
    requires n < |fields|
    ensures NamesUdp(fields, n + 1, port) <==> NamesUdp(fields, n, port) || UdpAt(fields[n], port)
  {
  }

  // A port number of the 32-bit loop counter that fits the 16-bit result.
  function CheckedPort(value: nat): (r: Option<nat>)
    ensures r.Some? <==> 1 <= value <= MAX_PORT
    ensures r.Some? ==> r.value == value
  {
    if value == 0 || value > MAX_PORT then None else Some(value)
  }

  method ExpandToken(token: Token, tcp: seq<nat>, udp: seq<nat>) returns (tcp': seq<nat>, udp': seq<nat>)
    requires 1 <= token.start <= token.end <= MAX_PORT
    ensures Appended(tcp, tcp', token.tcp, token.start, token.end + 1)
    ensures Appended(udp, udp', token.udp, token.start, token.end + 1)
  {
    tcp', udp' := tcp, udp;
    for port := token.start to token.end + 1
      invariant Appended(tcp, tcp', token.tcp, token.start, port)
      invariant Appended(udp, udp', token.udp, token.start, port)
    {
      var expanded := CheckedPort(port);
      if token.tcp { tcp' := tcp' + [expanded.value]; }
      if token.udp { udp' := udp' + [expanded.value]; }
    }
  }

  datatype PortLists = PortLists(tcp: seq<nat>, udp: seq<nat>)

  // Both lists are strictly increasing and hold exactly the ports named.
  ghost predicate Names(r: PortLists, fields: seq<string>) {
    && Strict(r.tcp, PortLess) && Strict(r.udp, PortLess)
    && (forall p: nat :: p in r.tcp <==> NamesTcp(fields, |fields|, p))
    && (forall p: nat :: p in r.udp <==> NamesUdp(fields, |fields|, p))
  }

  // Parsing succeeds exactly when every token is well formed and the expansion
  // stays within the limit, and then yields exactly the ports named.
  method ParseProtocolPorts(value: string) returns (r: Option<PortLists>)
    ensures r.Some? <==> Accepted(SplitList(value))
    ensures r.Some? ==> Names(r.value, SplitList(value))
    ensures r.Some? ==> |r.value.tcp| <= MAX_EXPANDED && |r.value.udp| <= MAX_EXPANDED
  {
    var fields := SplitList(value);
    var tcp, udp := [], [];
    for n := 0 to |fields|
      invariant Expanded(fields, n, tcp, udp) && Fits(fields, n)
      invariant |tcp| <= MAX_EXPANDED && |udp| <= MAX_EXPANDED
    {
      var parsed := ParseToken(fields[n]);
      if parsed.None? { return None; }
      var token := parsed.value;
      if token.Size() + |tcp| + |udp| > MAX_EXPANDED {
        assert !Accepted(fields);
        return None;
      }
      var tcp', udp' := ExpandToken(token, tcp, udp);
      ExpandedStep(fields, n, tcp, udp, tcp', udp');
      tcp, udp := tcp', udp';
    }
    SortCompactMeaning(tcp, PortLess);
    SortCompactMeaning(udp, PortLess);
    r := Some(PortLists(SortCompact(tcp, PortLess), SortCompact(udp, PortLess)));
  }

  // -------------------------------------------------------------- printing

  function TcpPart(port: nat): string { "tcp:" + FormatUint(port) }

  function UdpPart(port: nat): string { "udp:" + FormatUint(port) }

  function PartsOf(tcp: seq<nat>, udp: seq<nat>): seq<string> {
    seq(|tcp|, i requires 0 <= i < |tcp| => TcpPart(tcp[i])) + seq(|udp|, i requires 0 <= i < |udp| => UdpPart(udp[i]))
  }

  function Join(parts: seq<string>): string {
    if parts == [] then []
    else if |parts| == 1 then parts[0]
    else parts[0] + [','] + Join(parts[1..])
  }

  function Formatted(tcpPorts: seq<nat>, udpPorts: seq<nat>): string {
    Join(PartsOf(SortCompact(tcpPorts, PortLess), SortCompact(udpPorts, PortLess)))
  }

  method FormatProtocolPorts(tcpPorts: seq<nat>, udpPorts: seq<nat>) returns (text: string)
    ensures text == Formatted(tcpPorts, udpPorts)
  {
    var tcp, udp := SortCompact(tcpPorts, PortLess), SortCompact(udpPorts, PortLess);
    var parts := [];
    for i := 0 to |tcp|
      invariant parts == PartsOf(tcp[..i], [])
    {
      parts := parts + [TcpPart(tcp[i])];
    }
    assert tcp[..|tcp|] == tcp;
    for i := 0 to |udp|
      invariant parts == PartsOf(tcp, udp[..i])
    {
      parts := parts + [UdpPart(udp[i])];
    }
    assert udp[..|udp|] == udp;
    text := Join(parts);
  }

  // ------------------------------------------------------------ round trips

  // A decimal text holds no separator, no space and no dash.
  lemma DecimalText(s: string)
    requires Decimal(s)
    ensures Plain(s) && !Space(s[0]) && !Space(s[|s| - 1]) && Dash(s) == |s|
    ensures Trim(s) == s
  {
    assert s[0] in s && s[|s| - 1] in s;
    TrimNothing(s);
    assert '-' !in s;
  }

  // The prefix counts in any case.
  lemma PrefixedInAnyCase(head: string, body: string)
    requires |head| == 4 && head[2] in "pP" && head[3] == ':'
    requires (head[0] in "tT" && head[1] in "cC") || (head[0] in "uU" && head[1] in "dD")
    ensures ParseToken(head + body) == ParseSpan(body, head[0] in "tT", head[0] in "uU")
  {
    var s := head + body;
    assert s[4..] == body;
    assert forall i | 0 <= i < 4 :: s[i] == head[i];
    assert Lower(s[3]) == ':' && Lower(s[2]) == 'p';
    if head[0] in "tT" {
      assert HasPrefix(s, "tcp:");
    } else {
      assert Lower(s[0]) == 'u' && !HasPrefix(s, "tcp:") && HasPrefix(s, "udp:");
    }
  }

  lemma Prefixed(prefix: string, body: string)
    requires prefix == "tcp:" || prefix == "udp:"
    ensures ParseToken(prefix + body) == ParseSpan(body, prefix == "tcp:", prefix == "udp:")
  {
    PrefixedInAnyCase(prefix, body);
  }

  lemma ParseSinglePort(prefix: string, port: nat)
    requires (prefix == "tcp:" || prefix == "udp:") && 1 <= port <= MAX_PORT
    ensures ParseToken(prefix + FormatUint(port)) == Some(Token(prefix == "tcp:", prefix == "udp:", port, port))
  {
    var text := FormatUint(port);
    Prefixed(prefix, text);
    DecimalText(text);
    ParseFormatted(port);
    assert text[..|text|] == text;
  }

  // A printed range reads back as that range, up to and including the last
  // port; a range that runs backwards is refused.
  lemma ParseRange(prefix: string, start: nat, end: nat)
    requires (prefix == "tcp:" || prefix == "udp:") && 1 <= start <= MAX_PORT && 1 <= end <= MAX_PORT
    ensures ParseToken(prefix + (FormatUint(start) + ['-'] + FormatUint(end)))
         == if start <= end then Some(Token(prefix == "tcp:", prefix == "udp:", start, end)) else None
  {
    Prefixed(prefix, FormatUint(start) + ['-'] + FormatUint(end));
    ParseDashed(start, end, prefix == "tcp:", prefix == "udp:");
  }

  // Without a protocol prefix the range belongs to both lists.
  lemma ParseBareRange(start: nat, end: nat)
    requires 1 <= start <= MAX_PORT && 1 <= end <= MAX_PORT
    ensures ParseToken(FormatUint(start) + ['-'] + FormatUint(end))
         == if start <= end then Some(Token(true, true, start, end)) else None
  {
    var s := FormatUint(start) + ['-'] + FormatUint(end);
    assert FormatUint(start)[0] in FormatUint(start);
    assert Digit(s[0]) && Lower(s[0]) == s[0];
    ParseDashed(start, end, true, true);
  }

  lemma ParseDashed(start: nat, end: nat, tcp: bool, udp: bool)
    requires 1 <= start <= MAX_PORT && 1 <= end <= MAX_PORT
    ensures ParseSpan(FormatUint(start) + ['-'] + FormatUint(end), tcp, udp)
         == if start <= end then Some(Token(tcp, udp, start, end)) else None
  {
    var a, b := FormatUint(start), FormatUint(end);
    var body := a + ['-'] + b;
    DecimalText(a);
    DashAfter(a, b);
    assert body[..|a|] == a && body[|a| + 1..] == b;
    ParseFormatted(start);
    ParseFormatted(end);
  }

  lemma {:induction false} DashAfter(a: string, b: string)
    requires Dash(a) == |a|
    ensures Dash(a + ['-'] + b) == |a|
  {
    var s := a + ['-'] + b;
    if a != [] {
      assert s[1..] == a[1..] + ['-'] + b;
      DashAfter(a[1..], b);
    }
  }

  ghost predicate Printable(part: string) {
    part != [] && Plain(part) && !Space(part[0]) && !Space(part[|part| - 1])
  }

  lemma PartPrintable(prefix: string, port: nat)
    requires prefix == "tcp:" || prefix == "udp:"
    ensures Printable(prefix + FormatUint(port))
  {
    var d := FormatUint(port);
    DecimalText(d);
    var s := prefix + d;
    assert s[0] == prefix[0] && s[|s| - 1] == d[|d| - 1];
    forall c | c in s ensures !Separator(c) { assert c in prefix || c in d; }
  }

  lemma {:induction false} FieldsOfJoin(parts: seq<string>)
    requires forall i | 0 <= i < |parts| :: Printable(parts[i])
    ensures Fields(Join(parts), []) == parts
  {
    if parts == [] {
    } else if |parts| == 1 {
      FieldsPlain(parts[0], []);
      assert [] + parts[0] == parts[0];
    } else {
      FieldsOfJoin(parts[1..]);
      FieldsSplit(parts[0], ',', Join(parts[1..]), []);
      FieldsPlain(parts[0], []);
      assert [] + parts[0] == parts[0];
    }
  }

  lemma TrimAllNothing(parts: seq<string>)
    requires forall i | 0 <= i < |parts| :: Printable(parts[i])
    ensures TrimAll(parts) == parts
  {
    forall i | 0 <= i < |parts| ensures Trim(parts[i]) == parts[i] { TrimNothing(parts[i]); }
  }

  // The list a value denotes: its trimmed fields, each once, in text order.
  lemma SplitListMeaning(value: string)
    ensures Strict(SplitList(value), TextLess)
    ensures forall x :: x in SplitList(value) <==> x in TrimAll(Fields(value, []))
    ensures |SplitList(value)| <= |Fields(value, [])|
  {
    TextOrder();
    SortCompactMeaning(TrimAll(Fields(value, [])), TextLess);
  }

  // Tokens that each name one port of one protocol.
  ghost predicate Single(field: string) {
    var t := ParseToken(field);
    t.Some? && t.value.start == t.value.end && t.value.tcp != t.value.udp
  }

  lemma {:induction false} SumsToLength(a: seq<nat>, b: seq<nat>, n: nat)
    requires n <= |a| == |b| && forall i | 0 <= i < n :: a[i] + b[i] == 1
    ensures Sum(a, n) + Sum(b, n) == n
  {
    if n > 0 { SumsToLength(a, b, n - 1); }
  }

  lemma SingleSize(field: string)
    requires Single(field)
    ensures ParseToken(field).Some? && Size(field) == 1 && TcpSize(field) + UdpSize(field) == 1
  {
  }

  lemma SinglesAccepted(fields: seq<string>)
    requires |fields| <= MAX_EXPANDED && forall i | 0 <= i < |fields| :: Single(fields[i])
    ensures Accepted(fields)
  {
    var a, b := TcpSizes(fields), UdpSizes(fields);
    forall i | 0 <= i < |fields|
      ensures ParseToken(fields[i]).Some? && Size(fields[i]) == 1 && a[i] + b[i] == 1
    {
      SingleSize(fields[i]);
    }
    forall i | 0 <= i < |fields| ensures Size(fields[i]) + Sum(a, i) + Sum(b, i) <= MAX_EXPANDED {
      SumsToLength(a, b, i);
    }
  }

  predicate Port(p: nat) { 1 <= p <= MAX_PORT }

  // Exactly the numbers whose decimal form is accepted as a port.
  lemma PortMeaning(p: nat)
    ensures Port(p) <==> ParsePort(FormatUint(p)).Some?
  {
    var s := FormatUint(p);
    assert s[0] in s && s[|s| - 1] in s;
    TrimNothing(s);
    ValueOfFormat(p);
  }

  // What each printed part parses to.
  lemma PartsParse(tcp: seq<nat>, udp: seq<nat>, i: nat)
    requires forall p | p in tcp || p in udp :: Port(p)
    requires i < |tcp| + |udp|
    ensures var part := PartsOf(tcp, udp)[i];
      Printable(part) && ParseToken(part) == Some(if i < |tcp| then Token(true, false, tcp[i], tcp[i])
                                                  else Token(false, true, udp[i - |tcp|], udp[i - |tcp|]))
  {
    if i < |tcp| {
      assert tcp[i] in tcp;
      PartPrintable("tcp:", tcp[i]);
      ParseSinglePort("tcp:", tcp[i]);
    } else {
      var port := udp[i - |tcp|];
      assert port in udp;
      PartPrintable("udp:", port);
      ParseSinglePort("udp:", port);
    }
  }

  lemma SplitParts(tcp: seq<nat>, udp: seq<nat>)
    requires forall p | p in tcp || p in udp :: Port(p)
    ensures var fields, parts := SplitList(Join(PartsOf(tcp, udp))), PartsOf(tcp, udp);
      |fields| <= |parts| && forall x :: x in fields <==> x in parts
  {
    var parts := PartsOf(tcp, udp);
    forall i | 0 <= i < |parts| ensures Printable(parts[i]) { PartsParse(tcp, udp, i); }
    FieldsOfJoin(parts);
    TrimAllNothing(parts);
    SplitListMeaning(Join(parts));
  }

  lemma FieldsSingle(tcp: seq<nat>, udp: seq<nat>, field: string)
    requires forall p | p in tcp || p in udp :: Port(p)
    requires field in PartsOf(tcp, udp)
    ensures Single(field)
  {
    var parts := PartsOf(tcp, udp);
    var i :| 0 <= i < |parts| && parts[i] == field;
    PartsParse(tcp, udp, i);
  }

  // Reading back the printed lists accepts them and names exactly their ports.
  lemma ReadBack(tcp: seq<nat>, udp: seq<nat>)
    requires forall p | p in tcp || p in udp :: Port(p)
    requires |tcp| + |udp| <= MAX_EXPANDED
    ensures var fields := SplitList(Join(PartsOf(tcp, udp)));
      Accepted(fields)
      && (forall p: nat :: NamesTcp(fields, |fields|, p) <==> p in tcp)
      && (forall p: nat :: NamesUdp(fields, |fields|, p) <==> p in udp)
  {
    var fields := SplitList(Join(PartsOf(tcp, udp)));
    SplitParts(tcp, udp);
    forall i | 0 <= i < |fields| ensures Single(fields[i]) { FieldsSingle(tcp, udp, fields[i]); }
    SinglesAccepted(fields);
    forall p: nat ensures NamesTcp(fields, |fields|, p) <==> p in tcp { NamedTcp(tcp, udp, fields, p); }
    forall p: nat ensures NamesUdp(fields, |fields|, p) <==> p in udp { NamedUdp(tcp, udp, fields, p); }
  }

  lemma PartNames(tcp: seq<nat>, udp: seq<nat>, i: nat, p: nat)
    requires forall q | q in tcp || q in udp :: Port(q)
    requires i < |tcp| + |udp|
    ensures TcpAt(PartsOf(tcp, udp)[i], p) <==> i < |tcp| && tcp[i] == p
    ensures UdpAt(PartsOf(tcp, udp)[i], p) <==> i >= |tcp| && udp[i - |tcp|] == p
  {
    PartsParse(tcp, udp, i);
  }

  // Lists with the same elements agree on whether some element satisfies P.
  lemma SameAny(a: seq<string>, b: seq<string>, P: string -> bool)
    requires forall x :: x in a <==> x in b
    ensures (exists i | 0 <= i < |a| :: P(a[i])) <==> (exists i | 0 <= i < |b| :: P(b[i]))
  {
    if i: int :| 0 <= i < |a| && P(a[i]) {
      assert a[i] in b;
    }
    if i: int :| 0 <= i < |b| && P(b[i]) {
      assert b[i] in a;
    }
  }

  lemma NamedTcp(tcp: seq<nat>, udp: seq<nat>, fields: seq<string>, p: nat)
    requires forall q | q in tcp || q in udp :: Port(q)
    requires forall x :: x in fields <==> x in PartsOf(tcp, udp)
    ensures NamesTcp(fields, |fields|, p) <==> p in tcp
  {
    var parts := PartsOf(tcp, udp);
    SameAny(fields, parts, f => TcpAt(f, p));
    forall i | 0 <= i < |parts| ensures TcpAt(parts[i], p) <==> i < |tcp| && tcp[i] == p { PartNames(tcp, udp, i, p); }
  }

  lemma NamedUdp(tcp: seq<nat>, udp: seq<nat>, fields: seq<string>, p: nat)
    requires forall q | q in tcp || q in udp :: Port(q)
    requires forall x :: x in fields <==> x in PartsOf(tcp, udp)
    ensures NamesUdp(fields, |fields|, p) <==> p in udp
  {
    var parts := PartsOf(tcp, udp);
    SameAny(fields, parts, f => UdpAt(f, p));
    forall i | 0 <= i < |parts| ensures UdpAt(parts[i], p) <==> i >= |tcp| && udp[i - |tcp|] == p {
      PartNames(tcp, udp, i, p);
    }
    if p in udp {
      var k :| 0 <= k < |udp| && udp[k] == p;
      assert UdpAt(parts[|tcp| + k], p);
    }
  }

  // Any result of parsing a printed setting is the two lists sorted and without
  // duplicates, and parsing does succeed.
  lemma RoundTrip(tcpPorts: seq<nat>, udpPorts: seq<nat>)
    requires forall p | p in tcpPorts || p in udpPorts :: Port(p)
    requires |SortCompact(tcpPorts, PortLess)| + |SortCompact(udpPorts, PortLess)| <= MAX_EXPANDED
    ensures Accepted(SplitList(Formatted(tcpPorts, udpPorts)))
    ensures forall r | Names(r, SplitList(Formatted(tcpPorts, udpPorts))) ::
        r == PortLists(SortCompact(tcpPorts, PortLess), SortCompact(udpPorts, PortLess))
  {
    var tcp, udp := SortCompact(tcpPorts, PortLess), SortCompact(udpPorts, PortLess);
    SortCompactMeaning(tcpPorts, PortLess);
    SortCompactMeaning(udpPorts, PortLess);
    ReadBack(tcp, udp);
    var fields := SplitList(Formatted(tcpPorts, udpPorts));
    forall r | Names(r, fields) ensures r == PortLists(tcp, udp) {
      StrictUnique(r.tcp, tcp, PortLess);
      StrictUnique(r.udp, udp, PortLess);
    }
  }

  method ReparseSetting(tcpPorts: seq<nat>, udpPorts: seq<nat>) returns (r: Option<PortLists>)
    requires forall p | p in tcpPorts || p in udpPorts :: Port(p)
    requires |SortCompact(tcpPorts, PortLess)| + |SortCompact(udpPorts, PortLess)| <= MAX_EXPANDED
    ensures r == Some(PortLists(SortCompact(tcpPorts, PortLess), SortCompact(udpPorts, PortLess)))
  {
    var text := FormatProtocolPorts(tcpPorts, udpPorts);
    RoundTrip(tcpPorts, udpPorts);
    r := ParseProtocolPorts(text);
  }
}
