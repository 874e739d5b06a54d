/**
 The check of an Origin header: address literals of section 3.2.2 of RFC 3986, the origin tuple
 and lists of them. The scanning loops are proved to accept exactly the grammar.
 */
module Origin {

  // ---------------------------------------------------------------- characters

  predicate Alpha(c: char) {
    'A' <= c <= 'Z' || 'a' <= c <= 'z'
  }

  predicate Digit(c: char) {
    '0' <= c <= '9'
  }

  predicate Hex(c: char) {
    Digit(c) || 'A' <= c <= 'F' || 'a' <= c <= 'f'
  }

  predicate Unreserved(c: char) {
    Alpha(c) || Digit(c) || c == '-' || c == '.' || c == '_' || c == '~'
  }

  predicate SubDelim(c: char) {
    c == '!' || c == '$' || c == '&' || c == '\'' || c == '(' || c == ')' || c == '*' || c == '+' || c == ',' || c == ';' || c == '='
  }

  predicate All(s: string, p: char -> bool) {
    forall i :: 0 <= i < |s| ==> p(s[i])
  }

  function DigitValue(c: char): nat
    requires Digit(c)
  {
    c as int - '0' as int
  }

  function Decimal(s: string): nat
    requires All(s, Digit)
  {
    if s == [] then 0 else Decimal(s[..|s| - 1]) * 10 + DigitValue(s[|s| - 1])
  }

  // ---------------------------------------------------------------- the grammar of addresses

  /** dec-octet: 0-9, 10-99, 100-199, 200-249 or 250-255. */
  predicate DecOctet(s: string) {
    (|s| == 1 && Digit(s[0])) ||
    (|s| == 2 && '1' <= s[0] <= '9' && Digit(s[1])) ||
    (|s| == 3 && s[0] == '1' && Digit(s[1]) && Digit(s[2])) ||
    (|s| == 3 && s[0] == '2' && '0' <= s[1] <= '4' && Digit(s[2])) ||
    (|s| == 3 && s[0] == '2' && s[1] == '5' && '0' <= s[2] <= '5')
  }

  function Dotted(a: string, b: string, c: string, d: string): string {
    a + ("." + (b + ("." + (c + ("." + d)))))
  }

  predicate Octets(a: string, b: string, c: string, d: string) {
    DecOctet(a) && DecOctet(b) && DecOctet(c) && DecOctet(d)
  }

  ghost predicate IPv4Address(s: string) {
    exists a, b, c, d :: Octets(a, b, c, d) && s == Dotted(a, b, c, d)
  }

  /** h16: one to four hexadecimal digits. */
  predicate H16(s: string) {
    1 <= |s| <= 4 && All(s, Hex)
  }

  /** Groups written with colons between them. */
  function Joined(r: seq<string>): string {
    if r == [] then "" else if |r| == 1 then r[0] else r[0] + (":" + Joined(r[1..]))
  }

  /** Groups of which the last may be an IPv4 address. */
  ghost predicate Tail(r: seq<string>) {
    forall i :: 0 <= i < |r| ==> H16(r[i]) || (i == |r| - 1 && IPv4Address(r[i]))
  }

  predicate Groups(l: seq<string>) {
    forall i :: 0 <= i < |l| ==> H16(l[i])
  }

  /** An embedded IPv4 address stands for two groups. */
  ghost function Weight(r: seq<string>): nat {
    if r == [] then 0 else if H16(r[|r| - 1]) then |r| else |r| + 1
  }

  /**
   The nine productions of IPv6address: eight groups, or some groups, "::" and some groups, at
   most seven in all; the last two of the groups at the end may be an IPv4 address.
   */
  datatype Derivation = Whole(groups: seq<string>) | Gap(left: seq<string>, right: seq<string>)

  ghost predicate Legal(d: Derivation) {
    match d
    case Whole(r) => Tail(r) && Weight(r) == 8
    case Gap(l, r) => Groups(l) && Tail(r) && |l| + Weight(r) <= 7
  }

  function Yield(d: Derivation): string {
    match d
    case Whole(r) => Joined(r)
    case Gap(l, r) => Joined(l) + ("::" + Joined(r))
  }

  ghost predicate IPv6Address(s: string) {
    exists d :: Legal(d) && Yield(d) == s
  }

  /** IPvFuture: a version, a dot and at least one character. */
  ghost predicate IPvFuture(s: string) {
    exists v: string, x: string ::
      |v| > 0 && All(v, Hex) && |x| > 0 && All(x, Future) && (s == "v" + (v + ("." + x)) || s == "V" + (v + ("." + x)))
  }

  predicate Future(c: char) {
    Unreserved(c) || SubDelim(c) || c == ':'
  }

  // ---------------------------------------------------------------- IPv4

  /** How many digits the text begins with. */
  function DigitRun(t: string): (n: nat)
    ensures n <= |t| && All(t[..n], Digit) && (n < |t| ==> !Digit(t[n]))
  {
    if t == "" || !Digit(t[0]) then 0
    else
      var n := 1 + DigitRun(t[1..]);
      assert t[1..n] == t[1..][..n - 1];
      n
  }

  /** A run of digits that the scanner takes for an octet. */
  predicate OctetRun(t: string) {
    All(t, Digit) && 1 <= |t| <= 3 && Decimal(t) <= 255 && (|t| > 1 ==> t[0] != '0')
  }

  lemma OctetRunIsDecOctet(t: string)
    ensures OctetRun(t) <==> DecOctet(t)
  {
    if 1 <= |t| <= 3 && All(t, Digit) {
      if |t| == 1 {
        assert Decimal(t) == DigitValue(t[0]) by {
          assert t[..0] == [];
        }
      } else if |t| == 2 {
        DecimalTwo(t);
      } else {
        DecimalTwo(t[..2]);
        assert Decimal(t) == Decimal(t[..2]) * 10 + DigitValue(t[2]);
      }
    } else if DecOctet(t) {
      assert All(t, Digit);
    }
  }

  lemma DecimalTwo(t: string)
    requires |t| == 2 && All(t, Digit)
    ensures Decimal(t) == DigitValue(t[0]) * 10 + DigitValue(t[1])
  {
    var u := t[..1];
    assert Decimal(u) == DigitValue(t[0]) by {
      assert u[..0] == [];
    }
  }

  /** The rest of an address from octet number `part` on, as the scanner reads it. */
  function Scan4(t: string, part: nat): bool
    requires part < 4
    decreases 4 - part
  {
    var n := DigitRun(t);
    if !OctetRun(t[..n]) then false
    else if part == 3 then n == |t|
    else n < |t| && t[n] == '.' && Scan4(t[n + 1..], part + 1)
  }

  lemma RunOf(a: string, u: string)
    requires All(a, Digit) && (u == "" || !Digit(u[0]))
    ensures DigitRun(a + u) == |a|
    decreases |a|
  {
    if a != "" {
      assert (a + u)[1..] == a[1..] + u;
      RunOf(a[1..], u);
    } else {
      assert a + u == u;
    }
  }

  lemma ScanStep(t: string, part: nat, n: nat)
    requires part < 3 && n == DigitRun(t) && OctetRun(t[..n]) && n < |t| && t[n] == '.'
    ensures Scan4(t, part) == Scan4(t[n + 1..], part + 1)
  {
  }

  lemma OctetThen(a: string, u: string, part: nat)
    requires DecOctet(a) && part < 3
    ensures Scan4(a + ("." + u), part) == Scan4(u, part + 1)
  {
    OctetRunIsDecOctet(a);
    hide DecOctet, Decimal, DigitRun, Scan4;
    RunOf(a, "." + u);
    hide OctetRun, All;
    var t := a + ("." + u);
    assert t[..|a|] == a && t[|a|] == '.' && t[|a| + 1..] == u;
    ScanStep(t, part, |a|);
  }

  lemma OctetLast(a: string)
    requires DecOctet(a)
    ensures Scan4(a, 3)
  {
    OctetRunIsDecOctet(a);
    RunOf(a, "");
    assert a + "" == a && a[..|a|] == a;
  }

  /** What is left after the first octet, when there is more to come. */
  lemma FirstOctet(t: string, part: nat) returns (a: string, u: string)
    requires part < 3 && Scan4(t, part)
    ensures DecOctet(a) && t == a + ("." + u) && Scan4(u, part + 1)
  {
    hide DecOctet, OctetRun, DigitRun;
    var n := DigitRun(t);
    OctetRunIsDecOctet(t[..n]);
    a, u := t[..n], t[n + 1..];
    assert t == a + ("." + u);
  }

  lemma Scan4IsIPv4(s: string)
    ensures Scan4(s, 0) <==> IPv4Address(s)
  {
    hide Scan4, DecOctet;
    if Scan4(s, 0) {
      var a, u := FirstOctet(s, 0);
      var b, v := FirstOctet(u, 1);
      var c, w := FirstOctet(v, 2);
      LastOctet(w);
      assert Octets(a, b, c, w) && s == Dotted(a, b, c, w);
    }
    if IPv4Address(s) {
      var a, b, c, d :| Octets(a, b, c, d) && s == Dotted(a, b, c, d);
      OctetThen(a, b + ("." + (c + ("." + d))), 0);
      OctetThen(b, c + ("." + d), 1);
      OctetThen(c, d, 2);
      OctetLast(d);
    }
  }

  lemma LastOctet(t: string)
    requires Scan4(t, 3)
    ensures DecOctet(t)
  {
    assert t[..|t|] == t;
    OctetRunIsDecOctet(t);
  }

  lemma {:induction false} DecimalGrows(t: string, n: nat)
    requires All(t, Digit) && n <= |t|
    ensures All(t[..n], Digit) && Decimal(t[..n]) <= Decimal(t)
    decreases |t| - n
  {
    if n == |t| {
      assert t[..n] == t;
    } else {
      DecimalGrows(t, n + 1);
      assert t[..n + 1][..n] == t[..n];
    }
  }

  /** The digits from `start` on run at least as far as they have been read. */
  lemma {:induction false} RunReaches(t: string, n: nat)
    requires n <= |t| && All(t[..n], Digit)
    ensures DigitRun(t) >= n && (n == |t| || !Digit(t[n]) ==> DigitRun(t) == n)
    decreases n
  {
    if n > 0 {
      assert t[..n][0] == t[0];
      assert t[1..][..n - 1] == t[..n][1..];
      RunReaches(t[1..], n - 1);
    }
  }

  /** A run that is already too long or too large is no octet, however it goes on. */
  lemma TooMuch(t: string, n: nat)
    requires n <= |t| && All(t[..n], Digit) && (n > 3 || Decimal(t[..n]) > 255)
    ensures !OctetRun(t[..DigitRun(t)])
  {
    RunReaches(t, n);
    var m := DigitRun(t);
    hide DigitRun;
    DecimalGrows(t[..m], n);
    assert t[..m][..n] == t[..n];
  }

  lemma DecimalNext(s: string, start: nat, i: nat)
    requires start <= i < |s| && All(s[start..i], Digit) && Digit(s[i])
    ensures All(s[start..i + 1], Digit) && Decimal(s[start..i + 1]) == Decimal(s[start..i]) * 10 + DigitValue(s[i])
  {
    var t := s[start..i + 1];
    assert t[..|t| - 1] == s[start..i] && t[|t| - 1] == s[i];
  }

  /** Read one octet; the result says whether it is one. */
  method ScanOctet(s: string, start: nat) returns (ok: bool, i: nat)
    requires start <= |s|
    ensures start <= i <= |s|
    ensures ok <==> OctetRun(s[start..][..DigitRun(s[start..])])
    ensures ok ==> i == start + DigitRun(s[start..])
  {
    hide Decimal, DigitRun;
    i := start;
    ghost var t := s[start..];
    NothingRead(t);
    if i == |s| || !Digit(s[i]) {
      RunReaches(t, 0);
      return false, i;
    }
    var v := 0;
    var digits := 0;
    assert s[start..start] == [];
    while i < |s| && Digit(s[i])
      invariant start <= i <= |s| && digits == i - start <= 3 && All(s[start..i], Digit) && v == Decimal(s[start..i]) <= 255
      invariant digits > 0 || (i < |s| && Digit(s[i]))
    {
      DecimalNext(s, start, i);
      v := v * 10 + DigitValue(s[i]);
      digits := digits + 1;
      assert t[..digits] == s[start..i + 1];
      if digits > 3 || v > 255 {
        TooMuch(t, digits);
        return false, i;
      }
      i := i + 1;
    }
    assert t[..digits] == s[start..i];
    RunReaches(t, digits);
    if digits > 1 && s[start] == '0' {
      return false, i;
    }
    return true, i;
  }

  lemma NothingRead(t: string)
    ensures All(t[..0], Digit) && Decimal([]) == 0
  {
  }

  /** The scanner for dotted addresses. */
  method ScanIPv4(s: string) returns (ok: bool)
    ensures ok <==> IPv4Address(s)
  {
    hide Scan4, OctetRun, DigitRun, IPv4Address;
    Scan4IsIPv4(s);
    var i := 0;
    var part := 0;
    assert s[0..] == s;
    while part < 4
      invariant part < 4 && i <= |s| && Scan4(s, 0) == Scan4(s[i..], part)
      decreases 4 - part
    {
      ghost var t := s[i..];
      var octet, j := ScanOctet(s, i);
      Scan4Unfolds(t, part);
      if !octet {
        return false;
      }
      if part == 3 {
        return j == |s|;
      }
      if j == |s| || s[j] != '.' {
        return false;
      }
      assert t[j - i + 1..] == s[j + 1..];
      i := j + 1;
      part := part + 1;
    }
  }

  lemma Scan4Unfolds(t: string, part: nat)
    requires part < 4
    ensures var n := DigitRun(t);
      Scan4(t, part) <==>
      OctetRun(t[..n]) && (if part == 3 then n == |t| else n < |t| && t[n] == '.' && Scan4(t[n + 1..], part + 1))
  {
  }

  // ---------------------------------------------------------------- IPv6

  /** Where the first colon is, or the end. */
  function Colon(t: string): (n: nat)
    ensures n <= |t| && (forall i :: 0 <= i < n ==> t[i] != ':') && (n < |t| ==> t[n] == ':')
  {
    if t == "" || t[0] == ':' then 0 else 1 + Colon(t[1..])
  }

  lemma {:induction false} ColonAfter(a: string, u: string)
    requires ':' !in a && (u == "" || u[0] == ':')
    ensures Colon(a + u) == |a|
  {
    if a == "" {
      assert a + u == u;
    } else {
      assert a[0] in a && (a + u)[1..] == a[1..] + u;
      ColonAfter(a[1..], u);
    }
  }

  predicate Full(groups: nat, gap: bool) {
    if gap then groups < 8 else groups == 8
  }

  /** The rest of an address, with `groups` read and perhaps a gap, as the scanner reads it. */
  ghost function Scan6(t: string, groups: nat, gap: bool): bool
    requires t != ""
    decreases |t|, 0
  {
    var n := Colon(t);
    var piece := t[..n];
    if '.' in piece then n == |t| && IPv4Address(piece) && groups <= 6 && Full(groups + 2, gap)
    else if !H16(piece) || groups + 1 > 8 then false
    else if n == |t| then Full(groups + 1, gap)
    else AfterColon(t[n + 1..], groups + 1, gap)
  }

  /** After the colon that follows a group. */
  ghost function AfterColon(u: string, groups: nat, gap: bool): bool
    decreases |u|, 1
  {
    if u == "" then false
    else if u[0] != ':' then Scan6(u, groups, gap)
    else if gap then false
    else if |u| == 1 then Full(groups, true)
    else Scan6(u[1..], groups, true)
  }

  lemma DottedHas(s: string)
    requires IPv4Address(s)
    ensures '.' in s && ':' !in s && s != "" && !H16(s)
  {
    var a, b, c, d :| Octets(a, b, c, d) && s == Dotted(a, b, c, d);
    assert s[|a|] == '.';
    OctetPlain(a);
    OctetPlain(b);
    OctetPlain(c);
    OctetPlain(d);
    hide Octets;
  }

  lemma OctetPlain(a: string)
    requires DecOctet(a)
    ensures ':' !in a && 1 <= |a|
  {
  }

  lemma GroupPlain(a: string)
    requires H16(a)
    ensures ':' !in a && '.' !in a && a != "" && !IPv4Address(a)
  {
    if IPv4Address(a) {
      DottedHas(a);
    }
  }

  /** One group and a colon. */
  lemma GroupThen(a: string, u: string, groups: nat, gap: bool)
    requires H16(a)
    ensures Scan6(a + (":" + u), groups, gap) <==> groups + 1 <= 8 && AfterColon(u, groups + 1, gap)
  {
    hide AfterColon, H16, IPv4Address, Colon;
    GroupPlain(a);
    ColonAfter(a, ":" + u);
    var t := a + (":" + u);
    assert t[..|a|] == a && t[|a| + 1..] == u;
  }

  lemma LastGroup(a: string, groups: nat, gap: bool)
    requires H16(a)
    ensures Scan6(a, groups, gap) <==> groups + 1 <= 8 && Full(groups + 1, gap)
  {
    hide AfterColon, H16, IPv4Address, Colon;
    GroupPlain(a);
    ColonAfter(a, "");
    assert a + "" == a && a[..|a|] == a;
  }

  lemma LastDotted(a: string, groups: nat, gap: bool)
    requires IPv4Address(a)
    ensures a != "" && (Scan6(a, groups, gap) <==> groups <= 6 && Full(groups + 2, gap))
  {
    hide AfterColon, H16, IPv4Address, Colon;
    DottedHas(a);
    ColonAfter(a, "");
    assert a + "" == a && a[..|a|] == a;
  }

  lemma JoinedHead(r: seq<string>)
    requires Tail(r) && r != []
    ensures Joined(r) != "" && Joined(r)[0] != ':' && r[0] != ""
  {
    hide IPv4Address, H16;
    if H16(r[0]) {
      GroupPlain(r[0]);
    } else {
      DottedHas(r[0]);
    }
    assert r[0][0] in r[0];
    assert Joined(r)[0] == r[0][0];
  }

  /** Groups that are legal to the end are accepted. */
  lemma {:induction false} TailScans(r: seq<string>, groups: nat, gap: bool)
    requires Tail(r) && r != [] && Full(groups + Weight(r), gap)
    ensures Joined(r) != "" && Scan6(Joined(r), groups, gap)
    decreases |r|
  {
    hide Scan6, H16, IPv4Address;
    JoinedHead(r);
    if |r| == 1 {
      if H16(r[0]) {
        LastGroup(r[0], groups, gap);
      } else {
        LastDotted(r[0], groups, gap);
      }
    } else {
      assert H16(r[0]);
      assert Tail(r[1..]) && Weight(r[1..]) == Weight(r) - 1;
      TailScans(r[1..], groups + 1, gap);
      JoinedHead(r[1..]);
      GroupThen(r[0], Joined(r[1..]), groups, gap);
    }
  }

  /** And so are groups before the gap, with legal ones after it. */
  lemma {:induction false} GapScans(l: seq<string>, r: seq<string>, groups: nat)
    requires Groups(l) && l != [] && Tail(r) && groups + |l| + Weight(r) <= 7
    ensures Yield(Gap(l, r)) != "" && Scan6(Yield(Gap(l, r)), groups, false)
    decreases |l|
  {
    hide Scan6, H16, IPv4Address, Tail;
    var a := l[0];
    if |l| == 1 {
      var u := ":" + Joined(r);
      assert Yield(Gap(l, r)) == a + (":" + u);
      GroupThen(a, u, groups, false);
      if r != [] {
        TailScans(r, groups + 1, true);
        assert u[1..] == Joined(r);
      }
    } else {
      var u := Yield(Gap(l[1..], r));
      GapScans(l[1..], r, groups + 1);
      assert Yield(Gap(l, r)) == a + (":" + u);
      GroupThen(a, u, groups, false);
      HeadOf(l[1..], r);
    }
  }

  lemma HeadOf(l: seq<string>, r: seq<string>)
    requires Groups(l) && l != []
    ensures Yield(Gap(l, r)) != "" && Yield(Gap(l, r))[0] != ':'
  {
    hide IPv4Address, H16;
    assert Tail(l);
    JoinedHead(l);
  }

  /** What the scanner accepts after a gap is legal groups to the end. */
  lemma {:induction false} ScanTail(t: string, groups: nat) returns (r: seq<string>)
    requires t != "" && Scan6(t, groups, true)
    ensures Tail(r) && r != [] && t == Joined(r) && groups + Weight(r) <= 7
    decreases |t|
  {
    hide IPv4Address, H16, Colon, AfterColon;
    var n := Colon(t);
    var piece := t[..n];
    if n == |t| {
      assert piece == t;
      r := [piece];
      if '.' in piece {
        DottedHas(piece);
      }
    } else {
      var u := t[n + 1..];
      assert t == piece + (":" + u) && H16(piece) && AfterColon(u, groups + 1, true);
      hide Scan6;
      AfterGap(u, groups + 1);
      var more := ScanTail(u, groups + 1);
      r := [piece] + more;
      TailGrows(piece, more);
    }
  }

  lemma AfterGap(u: string, groups: nat)
    requires AfterColon(u, groups, true)
    ensures u != "" && Scan6(u, groups, true)
  {
    hide Scan6;
  }

  lemma TailGrows(a: string, r: seq<string>)
    requires H16(a) && Tail(r) && r != []
    ensures Tail([a] + r) && Weight([a] + r) == Weight(r) + 1 && Joined([a] + r) == a + (":" + Joined(r))
  {
    hide IPv4Address, H16;
    assert ([a] + r)[1..] == r;
  }

  /** What it accepts without a gap so far is legal to the end, or up to a gap and beyond. */
  lemma {:induction false} ScanDerives(t: string, groups: nat) returns (d: Derivation)
    requires t != "" && Scan6(t, groups, false)
    ensures Yield(d) == t
    ensures d.Whole? ==> Tail(d.groups) && d.groups != [] && groups + Weight(d.groups) == 8
    ensures d.Gap? ==> Groups(d.left) && d.left != [] && Tail(d.right) && groups + |d.left| + Weight(d.right) <= 7
    decreases |t|, 0
  {
    hide IPv4Address, H16, Colon, AfterColon;
    var n := Colon(t);
    var piece := t[..n];
    if n == |t| {
      assert piece == t;
      d := Whole([piece]);
      if '.' in piece {
        DottedHas(piece);
      }
    } else {
      var u := t[n + 1..];
      assert t == piece + (":" + u) && H16(piece) && AfterColon(u, groups + 1, false);
      hide Scan6;
      d := ColonDerives(piece, u, groups + 1);
    }
  }

  /** The group `a` and a colon have just been read. */
  lemma {:induction false} ColonDerives(a: string, u: string, groups: nat) returns (d: Derivation)
    requires H16(a) && AfterColon(u, groups, false)
    ensures Yield(d) == a + (":" + u)
    ensures d.Whole? ==> Tail(d.groups) && d.groups != [] && groups - 1 + Weight(d.groups) == 8
    ensures d.Gap? ==> Groups(d.left) && d.left != [] && Tail(d.right) && groups - 1 + |d.left| + Weight(d.right) <= 7
    decreases |u|, 1
  {
    hide IPv4Address, H16, Colon, Scan6;
    if u[0] != ':' {
      var more := ScanDerives(u, groups);
      d := Extend(a, more);
      ExtendYields(a, more);
    } else if |u| == 1 {
      d := Gap([a], []);
      assert u == ":";
      assert Yield(d) == a + ("::" + "");
    } else {
      var r := ScanTail(u[1..], groups);
      d := Gap([a], r);
      assert u == ":" + Joined(r);
    }
  }

  function Extend(a: string, d: Derivation): Derivation {
    match d
    case Whole(r) => Whole([a] + r)
    case Gap(l, r) => Gap([a] + l, r)
  }

  lemma ExtendYields(a: string, d: Derivation)
    requires H16(a) && (d.Whole? ==> Tail(d.groups) && d.groups != []) && (d.Gap? ==> Groups(d.left) && d.left != [])
    ensures Yield(Extend(a, d)) == a + (":" + Yield(d))
    ensures d.Whole? ==> Tail(Extend(a, d).groups) && Weight(Extend(a, d).groups) == Weight(d.groups) + 1
    ensures d.Gap? ==> Groups(Extend(a, d).left) && |Extend(a, d).left| == |d.left| + 1
  {
    hide IPv4Address, H16;
    match d
    case Whole(r) =>
      assert ([a] + r)[1..] == r;
    case Gap(l, r) =>
      assert ([a] + l)[1..] == l;
      assert a + (":" + Joined(l)) + ("::" + Joined(r)) == a + (":" + (Joined(l) + ("::" + Joined(r))));
  }

  /** The whole literal, which may begin with a gap. */
  ghost function ScanAll(s: string): bool {
    if s == "" then false
    else if s[0] != ':' then Scan6(s, 0, false)
    else |s| >= 2 && s[1] == ':' && (|s| == 2 || Scan6(s[2..], 0, true))
  }

  lemma ScanAllIsIPv6(s: string)
    ensures ScanAll(s) <==> IPv6Address(s)
  {
    hide Scan6, H16, IPv4Address, Tail, Groups;
    if ScanAll(s) {
      AcceptedDerives(s);
    }
    if IPv6Address(s) {
      var d :| Legal(d) && Yield(d) == s;
      LegalScans(d);
    }
  }

  lemma AcceptedDerives(s: string)
    requires ScanAll(s)
    ensures IPv6Address(s)
  {
    hide Scan6, H16, IPv4Address;
    if s[0] != ':' {
      var d := ScanDerives(s, 0);
      assert Legal(d);
    } else if |s| == 2 {
      assert Yield(Gap([], [])) == s && Legal(Gap([], []));
    } else {
      var r := ScanTail(s[2..], 0);
      assert s == "::" + s[2..];
      assert Yield(Gap([], r)) == s && Legal(Gap([], r));
    }
  }

  lemma LegalScans(d: Derivation)
    requires Legal(d)
    ensures ScanAll(Yield(d))
  {
    hide Scan6, H16, IPv4Address;
    match d
    case Whole(r) =>
      TailScans(r, 0, false);
      JoinedHead(r);
    case Gap(l, r) =>
      var s := Yield(d);
      if l != [] {
        GapScans(l, r, 0);
        HeadOf(l, r);
      } else {
        assert s == "::" + Joined(r);
        assert s[0] == ':' && s[1] == ':' && s[2..] == Joined(r);
        if r != [] {
          TailScans(r, 0, true);
        }
      }
  }
}
