/**
 The scanning loops for address literals, origin tuples and lists of them, against the grammar.
 */
module OriginTuples {
  import opened Origin

  // ---------------------------------------------------------------- IPv6

  /** Read one group from `start` on, and say whether it has a dot. */
  method ScanPiece(s: string, start: nat) returns (i: nat, dot: bool)
    requires start <= |s|
    ensures i == start + Colon(s[start..]) && i <= |s|
    ensures dot <==> '.' in s[start..i]
  {
    hide Colon;
    i := start;
    dot := false;
    while i < |s| && s[i] != ':'
      invariant start <= i <= |s| && (forall k :: start <= k < i ==> s[k] != ':') && (dot <==> '.' in s[start..i])
    {
      assert s[start..i + 1] == s[start..i] + [s[i]];
      dot := dot || s[i] == '.';
      i := i + 1;
    }
    PieceEnds(s, start, i);
  }

  lemma PieceEnds(s: string, start: nat, i: nat)
    requires start <= i <= |s| && (forall k :: start <= k < i ==> s[k] != ':') && (i < |s| ==> s[i] == ':')
    ensures Colon(s[start..]) == i - start
  {
    hide Colon;
    var t := s[start..];
    forall k | 0 <= k < i - start ensures t[k] != ':' {
      assert t[k] == s[start + k];
    }
    ColonIs(t, i - start);
  }

  lemma ColonIs(t: string, n: nat)
    requires n <= |t| && (forall k :: 0 <= k < n ==> t[k] != ':') && (n < |t| ==> t[n] == ':')
    ensures Colon(t) == n
  {
    hide Colon;
    var a, u := t[..n], t[n..];
    assert a + u == t && ':' !in a && (u != "" ==> u[0] == t[n]);
    ColonAfter(a, u);
  }

  method AllHex(s: string, start: nat, end: nat) returns (ok: bool)
    requires start <= end <= |s|
    ensures ok <==> All(s[start..end], Hex)
  {
    var j := start;
    while j < end
      invariant start <= j <= end && All(s[start..j], Hex)
    {
      if !Hex(s[j]) {
        assert !Hex(s[start..end][j - start]);
        return false;
      }
      assert s[start..j + 1] == s[start..j] + [s[j]];
      j := j + 1;
    }
    return true;
  }

  /** The scanner accepts exactly the IPv6 addresses. */
  method ScanIPv6(s: string) returns (ok: bool)
    ensures ok <==> IPv6Address(s)
  {
    hide Scan6, AfterColon, IPv6Address, IPv4Address, H16, Colon;
    ScanAllIsIPv6(s);
    var i := 0;
    var groups := 0;
    var compressed := false;
    if |s| == 0 {
      return false;
    }
    assert s[0..] == s;
    if s[0] == ':' {
      if |s| < 2 || s[1] != ':' {
        return false;
      }
      compressed := true;
      i := 2;
      if i == |s| {
        return true;
      }
    }
    while i < |s|
      invariant i < |s| && (ScanAll(s) <==> Scan6(s[i..], groups, compressed))
      decreases |s| - i
    {
      var start := i;
      ghost var t := s[start..];
      ScanUnfolds(t, groups, compressed);
      var dot;
      i, dot := ScanPiece(s, start);
      ghost var n := i - start;
      assert t[..n] == s[start..i];
      var len := i - start;
      if dot {
        var v4 := ScanIPv4(s[start..i]);
        if i != |s| || !v4 || groups > 6 {
          return false;
        }
        groups := groups + 2;
        break;
      }
      GroupIs(s[start..i]);
      if len == 0 || len > 4 {
        return false;
      }
      var hex := AllHex(s, start, i);
      if !hex {
        return false;
      }
      groups := groups + 1;
      if groups > 8 {
        return false;
      }
      if i == |s| {
        break;
      }
      i := i + 1;
      assert t[n + 1..] == s[i..];
      AfterColonUnfolds(s[i..], groups, compressed);
      if i < |s| && s[i] == ':' {
        if compressed {
          return false;
        }
        compressed := true;
        i := i + 1;
        if i == |s| {
          break;
        }
        assert s[i - 1..][1..] == s[i..];
      } else if i == |s| {
        return false;
      }
    }
    return Full(groups, compressed);
  }

  lemma GroupIs(a: string)
    ensures H16(a) <==> 1 <= |a| <= 4 && All(a, Hex)
  {
  }

  lemma ScanUnfolds(t: string, groups: nat, gap: bool)
    requires t != ""
    ensures var n := Colon(t);
      Scan6(t, groups, gap) <==>
      if '.' in t[..n] then n == |t| && IPv4Address(t[..n]) && groups <= 6 && Full(groups + 2, gap)
      else H16(t[..n]) && groups + 1 <= 8 && (if n == |t| then Full(groups + 1, gap) else AfterColon(t[n + 1..], groups + 1, gap))
  {
    hide AfterColon, H16, IPv4Address, Colon;
  }

  lemma AfterColonUnfolds(u: string, groups: nat, gap: bool)
    ensures AfterColon(u, groups, gap) <==>
      u != "" && (if u[0] != ':' then Scan6(u, groups, gap)
                  else !gap && (|u| == 1 ==> Full(groups, true)) && (|u| > 1 ==> Scan6(u[1..], groups, true)))
  {
    hide Scan6;
  }

  // ---------------------------------------------------------------- literals

  ghost predicate Literal(s: string) {
    IPvFuture(s) || IPv6Address(s)
  }

  /** A version, a dot and the rest, cut where the hexadecimal digits end. */
  lemma FutureIs(s: string, n: nat)
    requires |s| >= 1 && (s[0] == 'v' || s[0] == 'V') && 1 <= n <= |s| && All(s[1..n], Hex) && (n < |s| ==> !Hex(s[n]))
    ensures IPvFuture(s) <==> n > 1 && n + 1 < |s| && s[n] == '.' && All(s[n + 1..], Future)
  {
    if n > 1 && n + 1 < |s| && s[n] == '.' && All(s[n + 1..], Future) {
      assert s == [s[0]] + (s[1..n] + ("." + s[n + 1..]));
      assert |s[1..n]| > 0;
    }
    if IPvFuture(s) {
      var v: string, x: string :| |v| > 0 && All(v, Hex) && |x| > 0 && All(x, Future) &&
        (s == "v" + (v + ("." + x)) || s == "V" + (v + ("." + x)));
      CutIs(s, v, x, n);
    }
  }

  lemma CutIs(s: string, v: string, x: string, n: nat)
    requires 1 <= n <= |s| && All(s[1..n], Hex) && (n < |s| ==> !Hex(s[n])) && All(v, Hex)
    requires s == "v" + (v + ("." + x)) || s == "V" + (v + ("." + x))
    ensures n == |v| + 1 && s[n] == '.' && s[n + 1..] == x
  {
    assert s[1..|v| + 1] == v && s[|v| + 1] == '.';
  }

  lemma FutureIsLong(s: string)
    requires IPvFuture(s)
    ensures |s| >= 4 && (s[0] == 'v' || s[0] == 'V')
  {
  }

  /** No IPv6 address begins with a version letter. */
  lemma VersionIsNoAddress(s: string)
    requires s != "" && (s[0] == 'v' || s[0] == 'V')
    ensures !IPv6Address(s)
  {
    hide IPv6Address;
    ScanAllIsIPv6(s);
    ScanUnfolds(s, 0, false);
    var n := Colon(s);
    assert n > 0;
    var piece := s[..n];
    assert piece[0] == s[0];
    if IPv4Address(piece) {
      DottedStarts(piece);
    }
  }

  lemma DottedStarts(s: string)
    requires IPv4Address(s)
    ensures s != "" && Digit(s[0])
  {
    var a, b, c, d :| Octets(a, b, c, d) && s == Dotted(a, b, c, d);
    assert s[0] == a[0];
  }

  method ScanLiteral(s: string) returns (ok: bool)
    ensures ok <==> Literal(s)
  {
    hide IPvFuture, IPv6Address;
    if |s| >= 4 && (s[0] == 'v' || s[0] == 'V') {
      VersionIsNoAddress(s);
      var i := 1;
      while i < |s| && Hex(s[i])
        invariant 1 <= i <= |s| && All(s[1..i], Hex)
      {
        assert s[1..i + 1] == s[1..i] + [s[i]];
        i := i + 1;
      }
      FutureIs(s, i);
      if i == 1 || i == |s| || s[i] != '.' || i + 1 == |s| {
        return false;
      }
      i := i + 1;
      ghost var x := i;
      while i < |s|
        invariant x <= i <= |s| && All(s[x..i], Future)
      {
        if !Unreserved(s[i]) && !SubDelim(s[i]) && s[i] != ':' {
          assert !Future(s[x..][i - x]);
          return false;
        }
        assert s[x..i + 1] == s[x..i] + [s[i]];
        i := i + 1;
      }
      assert s[x..i] == s[x..];
      return true;
    }
    assert !IPvFuture(s) by {
      if IPvFuture(s) {
        FutureIsLong(s);
      }
    }
    ok := ScanIPv6(s);
  }

  // ---------------------------------------------------------------- the grammar of an origin

  predicate SchemeChar(c: char) {
    Alpha(c) || Digit(c) || c == '+' || c == '-' || c == '.'
  }

  predicate Scheme(s: string) {
    s != "" && Alpha(s[0]) && All(s, SchemeChar)
  }

  predicate NameChar(c: char) {
    Unreserved(c) || SubDelim(c)
  }

  /** reg-name: plain characters and percent-encoded ones. */
  predicate RegName(s: string) {
    s == "" ||
    (NameChar(s[0]) && RegName(s[1..])) ||
    (s[0] == '%' && |s| >= 3 && Hex(s[1]) && Hex(s[2]) && RegName(s[3..]))
  }

  function Bracketed(s: string): string {
    "[" + (s + "]")
  }

  ghost predicate Host(h: string) {
    (h != "" && RegName(h)) || exists s :: Literal(s) && h == Bracketed(s)
  }

  /** Nothing, or a colon and a number from 1 to 65535, with as many digits as one likes. */
  predicate Port(p: string) {
    p == "" || (p[0] == ':' && |p| > 1 && All(p[1..], Digit) && 1 <= Decimal(p[1..]) <= 65535)
  }

  ghost predicate HostPort(t: string) {
    exists h, p :: Host(h) && Port(p) && t == h + p
  }

  /** scheme "://" host [ ":" port ] */
  ghost predicate OriginTuple(o: string) {
    exists s, t :: Scheme(s) && HostPort(t) && o == s + ("://" + t)
  }

  // ---------------------------------------------------------------- where the parts end

  lemma SchemeIs(o: string, n: nat)
    requires 0 < n <= |o| && Alpha(o[0]) && All(o[..n], SchemeChar) && (n < |o| ==> !SchemeChar(o[n]))
    ensures OriginTuple(o) <==> n + 3 <= |o| && o[n..n + 3] == "://" && HostPort(o[n + 3..])
  {
    hide HostPort;
    if n + 3 <= |o| && o[n..n + 3] == "://" && HostPort(o[n + 3..]) {
      assert o == o[..n] + ("://" + o[n + 3..]);
      assert Scheme(o[..n]);
    }
    if OriginTuple(o) {
      var s, t :| Scheme(s) && HostPort(t) && o == s + ("://" + t);
      SchemeCut(o, s, t, n);
    }
  }

  lemma SchemeCut(o: string, s: string, t: string, n: nat)
    requires 0 < n <= |o| && All(o[..n], SchemeChar) && (n < |o| ==> !SchemeChar(o[n]))
    requires Scheme(s) && o == s + ("://" + t)
    ensures n == |s| && n + 3 <= |o| && o[n..n + 3] == "://" && o[n + 3..] == t
  {
    assert o[..|s|] == s && o[|s|] == ':';
  }

  lemma {:induction false} NamePlain(s: string)
    requires RegName(s)
    ensures ':' !in s && ' ' !in s && (s != "" ==> s[0] != '[')
  {
    if s != "" {
      if NameChar(s[0]) {
        NamePlain(s[1..]);
        assert s == [s[0]] + s[1..];
      } else {
        NamePlain(s[3..]);
        assert s == [s[0], s[1], s[2]] + s[3..];
      }
    }
  }

  /** A name ends at the first colon. */
  lemma NameIs(t: string)
    requires t != "" && t[0] != '['
    ensures HostPort(t) <==> Colon(t) > 0 && RegName(t[..Colon(t)]) && Port(t[Colon(t)..])
  {
    hide Literal, RegName, Port, Colon;
    var n := Colon(t);
    assert t == t[..n] + t[n..];
    if n > 0 && RegName(t[..n]) && Port(t[n..]) {
      assert Host(t[..n]);
    }
    if HostPort(t) {
      var h, p :| Host(h) && Port(p) && t == h + p;
      NamePlain(h);
      PortStarts(p);
      ColonAfter(h, p);
      assert t[..n] == h && t[n..] == p;
    }
  }

  lemma PortStarts(p: string)
    requires Port(p)
    ensures p == "" || p[0] == ':'
  {
  }

  // ---------------------------------------------------------------- literals have no brackets

  predicate LiteralChar(c: char) {
    Future(c) || Hex(c)
  }

  lemma OctetChars(a: string)
    requires DecOctet(a)
    ensures All(a, LiteralChar)
  {
  }

  lemma DottedChars(s: string)
    requires IPv4Address(s)
    ensures All(s, LiteralChar)
  {
    var a, b, c, d :| Octets(a, b, c, d) && s == Dotted(a, b, c, d);
    OctetChars(a);
    OctetChars(b);
    OctetChars(c);
    OctetChars(d);
    hide Octets, LiteralChar;
    assert LiteralChar('.') by {
      DotChars();
    }
  }

  lemma DotChars()
    ensures LiteralChar('.') && LiteralChar(':') && LiteralChar('v') && LiteralChar('V') && !LiteralChar(']') && !LiteralChar(' ')
  {
  }

  lemma {:induction false} JoinedChars(r: seq<string>)
    requires Tail(r)
    ensures All(Joined(r), LiteralChar)
    decreases |r|
  {
    if r != [] {
      if H16(r[0]) {
        assert All(r[0], LiteralChar);
      } else {
        DottedChars(r[0]);
      }
      DotChars();
      if |r| > 1 {
        hide LiteralChar, H16, IPv4Address;
        assert Tail(r[1..]);
        JoinedChars(r[1..]);
      }
    }
  }

  lemma LiteralChars(s: string)
    requires Literal(s)
    ensures All(s, LiteralChar) && ']' !in s && ' ' !in s
  {
    DotChars();
    if IPv6Address(s) {
      var d :| Legal(d) && Yield(d) == s;
      DerivedChars(d);
    } else {
      FutureChars(s);
    }
    hide LiteralChar;
  }

  lemma FutureChars(s: string)
    requires IPvFuture(s)
    ensures All(s, LiteralChar)
  {
    var v: string, x: string :| |v| > 0 && All(v, Hex) && |x| > 0 && All(x, Future) &&
      (s == "v" + (v + ("." + x)) || s == "V" + (v + ("." + x)));
    DotChars();
    assert All(v, LiteralChar) && All(x, LiteralChar);
    hide LiteralChar;
  }

  lemma DerivedChars(d: Derivation)
    requires Legal(d)
    ensures All(Yield(d), LiteralChar)
  {
    DotChars();
    hide LiteralChar, H16, IPv4Address;
    match d
    case Whole(r) => JoinedChars(r);
    case Gap(l, r) =>
      assert Tail(l);
      JoinedChars(l);
      JoinedChars(r);
  }

  /** A bracketed host ends at the first closing bracket. */
  lemma BracketIs(t: string, n: nat)
    requires t != "" && t[0] == '[' && 1 <= n <= |t| && (forall k :: 1 <= k < n ==> t[k] != ']') && (n < |t| ==> t[n] == ']')
    ensures HostPort(t) <==> n < |t| && Literal(t[1..n]) && Port(t[n + 1..])
  {
    hide Literal, RegName, Port;
    if n < |t| && Literal(t[1..n]) && Port(t[n + 1..]) {
      assert Bracketed(t[1..n]) == t[..n + 1];
      assert Host(t[..n + 1]);
      assert t == t[..n + 1] + t[n + 1..];
    }
    if HostPort(t) {
      var h, p :| Host(h) && Port(p) && t == h + p;
      if h != "" && RegName(h) {
        NamePlain(h);
      }
      var s :| Literal(s) && h == Bracketed(s);
      LiteralChars(s);
      BracketCut(t, s, p, n);
    }
  }

  lemma BracketCut(t: string, s: string, p: string, n: nat)
    requires 1 <= n <= |t| && (forall k :: 1 <= k < n ==> t[k] != ']') && (n < |t| ==> t[n] == ']')
    requires ']' !in s && t == Bracketed(s) + p
    ensures n < |t| && t[1..n] == s && t[n + 1..] == p
  {
    assert t[1..|s| + 1] == s && t[|s| + 1] == ']';
    assert forall k :: 0 <= k < |s| ==> s[k] != ']' && t[k + 1] == s[k];
    assert n == |s| + 1;
  }

  // ---------------------------------------------------------------- the scanner

  lemma NameStep(t: string, i: nat, end: nat)
    requires i < end <= |t| && (end < |t| ==> t[end] == ':') && (forall k :: 0 <= k < end ==> t[k] != ':')
    ensures RegName(t[i..end]) <==>
      (NameChar(t[i]) && RegName(t[i + 1..end])) ||
      (t[i] == '%' && i + 2 < |t| && Hex(t[i + 1]) && Hex(t[i + 2]) && i + 3 <= end && RegName(t[i + 3..end]))
  {
    var u := t[i..end];
    assert u[1..] == t[i + 1..end];
    assert |u| >= 3 ==> u[3..] == t[i + 3..end];
  }

  /** Read a name up to the first colon; percent signs need two hexadecimal digits. */
  method ScanName(t: string) returns (ok: bool, i: nat)
    requires t != ""
    ensures i <= |t|
    ensures ok <==> Colon(t) > 0 && RegName(t[..Colon(t)])
    ensures ok ==> i == Colon(t)
  {
    hide RegName, Colon;
    i := 0;
    ghost var end := Colon(t);
    NameEnd(t, end);
    assert t[0..end] == t[..end];
    while i < |t| && t[i] != ':'
      invariant i <= end && (RegName(t[..end]) <==> RegName(t[i..end]))
    {
      NameStep(t, i, end);
      var c := t[i];
      if c == '%' {
        if i + 2 >= |t| || !Hex(t[i + 1]) || !Hex(t[i + 2]) {
          return false, i;
        }
        i := i + 3;
        continue;
      }
      if !Unreserved(c) && !SubDelim(c) {
        return false, i;
      }
      i := i + 1;
    }
    if i == 0 {
      return false, i;
    }
    return true, i;
  }

  lemma NameEnd(t: string, end: nat)
    requires end <= |t|
    ensures RegName(t[end..end])
  {
  }

  /** Read a port without ever leaving 16 bits, however many digits there are. */
  method ScanPort(p: string) returns (ok: bool)
    ensures ok <==> Port(p)
  {
    hide Decimal;
    if |p| == 0 {
      return true;
    }
    if p[0] != ':' || |p| == 1 {
      return false;
    }
    var port := 0;
    var i := 1;
    NothingRead(p[1..]);
    assert p[1..1] == [];
    while i < |p|
      invariant 1 <= i <= |p| && All(p[1..i], Digit) && port == Decimal(p[1..i]) <= 65535
    {
      if !Digit(p[i]) {
        assert !Digit(p[1..][i - 1]);
        return false;
      }
      var digit := DigitValue(p[i]);
      DecimalNext(p, 1, i);
      if port > (65535 - digit) / 10 {
        PortTooLarge(p, i);
        return false;
      }
      port := port * 10 + digit;
      i := i + 1;
    }
    assert p[1..i] == p[1..];
    return port != 0;
  }

  lemma PortTooLarge(p: string, i: nat)
    requires 1 <= i < |p| && All(p[1..i + 1], Digit) && Decimal(p[1..i + 1]) > 65535
    ensures !Port(p)
  {
    hide Decimal;
    if All(p[1..], Digit) {
      DecimalGrows(p[1..], i);
      assert p[1..][..i] == p[1..i + 1];
    }
  }

  /** The scanner accepts exactly the origin tuples. */
  method ScanTuple(o: string) returns (ok: bool)
    ensures ok <==> OriginTuple(o)
  {
    hide OriginTuple, HostPort, RegName, Port, Literal, Colon;
    if |o| == 0 || !Alpha(o[0]) {
      NoScheme(o);
      return false;
    }
    var i := 1;
    while i < |o| && (Alpha(o[i]) || Digit(o[i]) || o[i] == '+' || o[i] == '-' || o[i] == '.')
      invariant 1 <= i <= |o| && All(o[..i], SchemeChar)
    {
      i := i + 1;
    }
    SchemeIs(o, i);
    if i + 2 >= |o| || o[i] != ':' || o[i + 1] != '/' || o[i + 2] != '/' {
      return false;
    }
    assert o[i..i + 3] == "://";
    i := i + 3;
    ghost var t := o[i..];
    if i == |o| {
      NoHost();
      return false;
    }
    var start := i;
    if o[i] == '[' {
      i := i + 1;
      while i < |o| && o[i] != ']'
        invariant start + 1 <= i <= |o| && forall k :: start + 1 <= k < i ==> o[k] != ']'
      {
        i := i + 1;
      }
      BracketIs(t, i - start);
      if i == |o| {
        return false;
      }
      assert o[start + 1..i] == t[1..i - start] && o[i + 1..] == t[i - start + 1..];
      var literal := ScanLiteral(o[start + 1..i]);
      if !literal {
        return false;
      }
      i := i + 1;
    } else {
      NameIs(t);
      var name, n := ScanName(o[start..]);
      if !name {
        return false;
      }
      i := start + n;
      assert o[i..] == t[n..];
    }
    ok := ScanPort(o[i..]);
  }

  lemma NoScheme(o: string)
    requires |o| == 0 || !Alpha(o[0])
    ensures !OriginTuple(o)
  {
    hide HostPort;
    forall s, t | Scheme(s) && HostPort(t) ensures o != s + ("://" + t) {
      assert (s + ("://" + t))[0] == s[0];
    }
  }

  lemma NoHost()
    ensures !HostPort("")
  {
    hide Port, Literal;
    forall h, p | Host(h) && Port(p) ensures "" != h + p {
      assert h != "";
    }
  }

  // ---------------------------------------------------------------- the header field

  const MaxBytes: nat := 320

  datatype Kind = Invalid | Tuple | Null | Multi

  /** Origins with one space between them. */
  function Listed(ts: seq<string>): string {
    if ts == [] then "" else if |ts| == 1 then ts[0] else ts[0] + (" " + Listed(ts[1..]))
  }

  ghost predicate Tuples(ts: seq<string>) {
    ts != [] && forall i :: 0 <= i < |ts| ==> OriginTuple(ts[i])
  }

  /** How many origins the field lists; none for a field that is no list of origins. */
  ghost predicate Lists(o: string, count: nat) {
    exists ts :: |ts| == count && Tuples(ts) && o == Listed(ts)
  }

  lemma {:induction false} DigitsPlain(p: string)
    requires Port(p)
    ensures ' ' !in p
  {
  }

  /** An origin has no space in it, and is not empty. */
  lemma TuplePlain(o: string)
    requires OriginTuple(o)
    ensures ' ' !in o && o != ""
  {
    var s, t :| Scheme(s) && HostPort(t) && o == s + ("://" + t);
    assert ' ' !in s;
    var h, p :| Host(h) && Port(p) && t == h + p;
    DigitsPlain(p);
    HostPlain(h);
    hide Scheme, HostPort, Port, Host;
  }

  lemma HostPlain(h: string)
    requires Host(h)
    ensures ' ' !in h
  {
    hide Literal;
    if h != "" && RegName(h) {
      NamePlain(h);
    } else {
      var s :| Literal(s) && h == Bracketed(s);
      LiteralChars(s);
    }
  }

  /** Cut the first origin off a list. */
  lemma FirstOf(o: string, n: nat, count: nat)
    requires n <= |o| && (forall k :: 0 <= k < n ==> o[k] != ' ') && (n < |o| ==> o[n] == ' ') && count > 0
    ensures Lists(o, count) <==>
      OriginTuple(o[..n]) && (if count == 1 then n == |o| else n < |o| && Lists(o[n + 1..], count - 1))
  {
    hide OriginTuple;
    if OriginTuple(o[..n]) && (if count == 1 then n == |o| else n < |o| && Lists(o[n + 1..], count - 1)) {
      JoinFirst(o, n, count);
    }
    if Lists(o, count) {
      var ts :| |ts| == count && Tuples(ts) && o == Listed(ts);
      CutFirst(o, n, ts);
    }
  }

  lemma JoinFirst(o: string, n: nat, count: nat)
    requires n <= |o| && (n < |o| ==> o[n] == ' ') && count > 0
    requires OriginTuple(o[..n]) && (if count == 1 then n == |o| else n < |o| && Lists(o[n + 1..], count - 1))
    ensures Lists(o, count)
  {
    hide OriginTuple;
    if count == 1 {
      assert o[..n] == o;
      assert Tuples([o]) && Listed([o]) == o && |[o]| == 1;
    } else {
      var more :| |more| == count - 1 && Tuples(more) && o[n + 1..] == Listed(more);
      var ts := [o[..n]] + more;
      assert ts[1..] == more && ts[0] == o[..n];
      assert o == o[..n] + (" " + o[n + 1..]);
      assert |ts| == count && Tuples(ts) && o == Listed(ts);
    }
  }

  lemma CutFirst(o: string, n: nat, ts: seq<string>)
    requires n <= |o| && (forall k :: 0 <= k < n ==> o[k] != ' ') && (n < |o| ==> o[n] == ' ')
    requires Tuples(ts) && o == Listed(ts)
    ensures OriginTuple(o[..n]) && (if |ts| == 1 then n == |o| else n < |o| && Lists(o[n + 1..], |ts| - 1))
  {
    hide OriginTuple;
    var a := ts[0];
    TuplePlain(a);
    if |ts| == 1 {
      SpaceIs(a, "", n);
      assert a + "" == a && o[..n] == a;
    } else {
      var u := " " + Listed(ts[1..]);
      SpaceIs(a, u, n);
      assert o == a + u && o[..n] == a && o[n + 1..] == Listed(ts[1..]);
      assert Tuples(ts[1..]) && |ts[1..]| == |ts| - 1;
    }
  }

  /** The first space comes right after what has none. */
  lemma SpaceIs(a: string, u: string, n: nat)
    requires ' ' !in a && (u == "" || u[0] == ' ')
    requires n <= |a + u| && (forall k :: 0 <= k < n ==> (a + u)[k] != ' ') && (n < |a + u| ==> (a + u)[n] == ' ')
    ensures n == |a|
  {
    var o := a + u;
    assert forall k :: 0 <= k < |a| ==> o[k] == a[k];
    assert u != "" ==> o[|a|] == ' ';
  }

  lemma NeverEmpty(count: nat)
    ensures !Lists("", count)
  {
    hide OriginTuple;
    forall ts | Tuples(ts) ensures Listed(ts) != "" {
      TuplePlain(ts[0]);
    }
  }

  lemma SpaceFirst(o: string, count: nat)
    requires o != "" && o[0] == ' '
    ensures !Lists(o, count)
  {
    hide OriginTuple;
    forall ts | Tuples(ts) ensures Listed(ts) != o {
      TuplePlain(ts[0]);
      assert ts[0][0] in ts[0];
    }
  }

  lemma NullIsNoTuple()
    ensures !Lists("null", 1)
  {
    SchemeIs("null", 4);
    FirstOf("null", 4, 1);
    assert "null"[..4] == "null";
    hide OriginTuple;
  }

  lemma NoneListed(o: string)
    ensures !Lists(o, 0)
  {
  }

  /** After `count` origins, the rest of the field decides. */
  ghost predicate Rest(o: string, start: nat, count: nat)
    requires start <= |o|
  {
    (forall c: nat :: c > count ==> (Lists(o, c) <==> Lists(o[start..], c - count))) &&
    (forall c: nat :: c <= count ==> !Lists(o, c))
  }

  lemma RestNext(o: string, start: nat, end: nat, count: nat)
    requires start <= end <= |o| && Rest(o, start, count) && (forall k :: start <= k < end ==> o[k] != ' ') && (end < |o| ==> o[end] == ' ')
    ensures !OriginTuple(o[start..end]) ==> forall c: nat :: !Lists(o, c)
    ensures OriginTuple(o[start..end]) && end == |o| ==> forall c: nat :: Lists(o, c) <==> c == count + 1
    ensures OriginTuple(o[start..end]) && end < |o| ==> Rest(o, end + 1, count + 1)
  {
    hide Lists, OriginTuple;
    var t := o[start..];
    assert t[..end - start] == o[start..end];
    assert end < |o| ==> t[end - start + 1..] == o[end + 1..];
    forall c: nat | c > count
      ensures Lists(o, c) <==> OriginTuple(o[start..end]) && (if c == count + 1 then end == |o| else end < |o| && Lists(o[end + 1..], c - count - 1))
    {
      FirstOf(t, end - start, c - count);
    }
  }

  lemma RestEmpty(o: string, start: nat, count: nat)
    requires start <= |o| && Rest(o, start, count) && (start == |o| || o[start] == ' ')
    ensures forall c: nat :: !Lists(o, c)
  {
    hide Lists;
    forall c: nat ensures !Lists(o[start..], c) {
      if start == |o| {
        assert o[start..] == "";
        NeverEmpty(c);
      } else {
        SpaceFirst(o[start..], c);
      }
    }
  }

  lemma RestStarts(o: string)
    ensures Rest(o, 0, 0)
  {
    assert o[0..] == o;
    OneListed(o);
    hide Lists;
  }

  /** What an Origin field says, if it is not too long. */
  method ParseOrigin(o: string) returns (kind: Kind)
    ensures kind == Null <==> o == "null"
    ensures kind == Tuple <==> |o| <= MaxBytes && OriginTuple(o)
    ensures kind == Multi <==> |o| <= MaxBytes && exists count: nat :: count > 1 && Lists(o, count)
  {
    hide OriginTuple, Lists, Rest;
    OneListed(o);
    RestStarts(o);
    if |o| == 0 || |o| > MaxBytes {
      if |o| == 0 {
        RestEmpty(o, 0, 0);
      }
      return Invalid;
    }
    if o == "null" {
      NullIsNoList();
      return Null;
    }
    var start := 0;
    var count := 0;
    while start < |o|
      invariant start < |o| && Rest(o, start, count)
      decreases |o| - start
    {
      var end := start;
      while end < |o| && o[end] != ' '
        invariant start <= end <= |o| && forall k :: start <= k < end ==> o[k] != ' '
      {
        end := end + 1;
      }
      RestNext(o, start, end, count);
      var ok := ScanTuple(o[start..end]);
      if !ok {
        return Invalid;
      }
      count := count + 1;
      if end == |o| {
        break;
      }
      start := end + 1;
      if start == |o| || o[start] == ' ' {
        RestEmpty(o, start, count);
        return Invalid;
      }
    }
    assert Lists(o, count);
    return if count == 1 then Tuple else Multi;
  }

  lemma OneListed(o: string)
    ensures Lists(o, 1) <==> OriginTuple(o)
    ensures !Lists(o, 0)
  {
    hide OriginTuple;
    if OriginTuple(o) {
      assert Tuples([o]) && Listed([o]) == o && |[o]| == 1;
    }
    if Lists(o, 1) {
      var ts :| |ts| == 1 && Tuples(ts) && o == Listed(ts);
    }
    NoneListed(o);
  }

  lemma NullIsNoList()
    ensures forall count: nat :: !Lists("null", count)
  {
    hide Lists, OriginTuple;
    forall count: nat ensures !Lists("null", count) {
      if count == 0 {
        NoneListed("null");
      } else if count == 1 {
        NullIsNoTuple();
      } else {
        FirstOf("null", 4, count);
      }
    }
  }
}
