/**
 The Huffman code of QPACK strings (section 5.2 of RFC 7541). The table generator checks that
 the code is canonical and emits length rows; the decoder reads bits against those rows. What
 the check accepts is proved to tile the code space, and the decoder to read exactly the
 strings that were encoded.
 */
module Huffman {

  datatype Code = Code(length: int, code: int)

  const Eos: nat := 256
  const EosBits: nat := 30

  function Pow2(n: nat): (d: nat)
    ensures d > 0
  {
    if n == 0 then 1 else 2 * Pow2(n - 1)
  }

  lemma {:induction false} PowSum(a: nat, b: nat)
    ensures Pow2(a + b) == Pow2(a) * Pow2(b)
  {
    if a > 0 {
      PowSum(a - 1, b);
      Associate(2, Pow2(a - 1), Pow2(b));
    }
  }

  lemma Associate(a: int, b: int, c: int)
    ensures (a * b) * c == a * (b * c)
  {
  }

  predicate Shaped(c: Code) {
    5 <= c.length <= 30 && 0 <= c.code < Pow2(c.length)
  }

  // ---------------------------------------------------------------- intervals of the code space

  /** How much of the 30-bit code space a code of this length takes. */
  function Span(c: Code): (d: nat)
    requires Shaped(c)
    ensures d > 0
  {
    Pow2(30 - c.length)
  }

  /** The 30-bit words that begin with the code are those from Low to High. */
  function Low(c: Code): nat
    requires Shaped(c)
  {
    c.code * Span(c)
  }

  function High(c: Code): nat
    requires Shaped(c)
  {
    Low(c) + Span(c)
  }

  /** One code follows the other when their intervals touch. */
  lemma FollowsIffTouches(a: Code, b: Code)
    requires Shaped(a) && Shaped(b) && a.length <= b.length
    ensures b.code == (a.code + 1) * Pow2(b.length - a.length) <==> High(a) == Low(b)
  {
    var k, d := Pow2(b.length - a.length), Pow2(30 - b.length);
    PowSum(b.length - a.length, 30 - b.length);
    assert Span(a) == k * d && Span(b) == d;
    Distribute(a.code, k, d);
    Cancel((a.code + 1) * k, b.code, d);
  }

  lemma Distribute(c: int, k: int, d: int)
    ensures c * (k * d) + k * d == ((c + 1) * k) * d
  {
    Associate(c + 1, k, d);
  }

  lemma Cancel(x: int, y: int, d: nat)
    requires d > 0
    ensures x * d == y * d <==> x == y
  {
    Distribute(x, 1, d);
    Distribute(y, 1, d);
    if x < y {
      Monotone(x + 1, y, d);
    } else if y < x {
      Monotone(y + 1, x, d);
    }
  }

  // ---------------------------------------------------------------- the generator's check

  predicate Before(a: Code, b: Code) {
    a.length < b.length || (a.length == b.length && a.code <= b.code)
  }

  /** `order` lists the symbols below `n` by length and code. */
  predicate Sorted(huff: seq<Code>, order: seq<nat>, n: nat)
    requires n <= |huff|
  {
    |order| == n && (forall i :: 0 <= i < n ==> order[i] < n) &&
    (forall i, j :: 0 <= i < j < n ==> order[i] != order[j] && Before(huff[order[i]], huff[order[j]])) &&
    (forall s: nat :: s < n ==> s in order)
  }

  predicate AllShaped(huff: seq<Code>) {
    forall s :: 0 <= s < |huff| ==> Shaped(huff[s])
  }

  /** What the loop demands of two neighbours. */
  predicate Follows(a: Code, b: Code) {
    if b.length == a.length then b.code == a.code + 1
    else b.length > a.length && b.code == (a.code + 1) * Pow2(b.length - a.length)
  }

  predicate Spots(huff: seq<Code>)
    requires |huff| == 257
  {
    huff[0x30] == Code(5, 0) && huff[0x61] == Code(5, 3) && huff[0x20] == Code(6, 0x14) &&
    huff[Eos] == Code(30, 0x3fff_ffff)
  }

  predicate Canonical(huff: seq<Code>, order: seq<nat>)
    requires |huff| == 257 && Sorted(huff, order, 257)
  {
    AllShaped(huff) && Spots(huff) && huff[order[0]].code == 0 &&
    (forall i :: 0 < i < 257 ==> Follows(huff[order[i - 1]], huff[order[i]])) &&
    (var last := huff[order[256]]; last.length >= 0 && last.code == Pow2(last.length) - 1) &&
    order[256] == Eos
  }

  /** The check as the generator runs it. */
  method VerifyHuffman(huff: seq<Code>, order: seq<nat>) returns (ok: bool)
    requires |huff| == 257 ==> Sorted(huff, order, 257)
    ensures ok <==> |huff| == 257 && Canonical(huff, order)
  {
    hide Pow2;
    if |huff| != 257 {
      return false;
    }
    var s := 0;
    while s < 257
      invariant s <= 257 && forall k :: 0 <= k < s ==> Shaped(huff[k])
    {
      if !(5 <= huff[s].length <= 30) || !(0 <= huff[s].code < Pow2(huff[s].length)) {
        assert !Shaped(huff[s]);
        return false;
      }
      s := s + 1;
    }
    if !Spots(huff) {
      return false;
    }
    if huff[order[0]].code != 0 {
      return false;
    }
    var prev := huff[order[0]];
    var i := 1;
    while i < 257
      invariant 1 <= i <= 257 && prev == huff[order[i - 1]]
      invariant forall k :: 0 < k < i ==> Follows(huff[order[k - 1]], huff[order[k]])
    {
      var next := huff[order[i]];
      if next.length == prev.length {
        if next.code != prev.code + 1 {
          assert !Follows(huff[order[i - 1]], huff[order[i]]);
          return false;
        }
      } else {
        if next.length <= prev.length || next.code != (prev.code + 1) * Pow2(next.length - prev.length) {
          assert !Follows(huff[order[i - 1]], huff[order[i]]);
          return false;
        }
      }
      prev := next;
      i := i + 1;
    }
    if prev.code != Pow2(prev.length) - 1 {
      return false;
    }
    if order[256] != Eos {
      return false;
    }
    return true;
  }

  // ---------------------------------------------------------------- what the check buys

  /** Neighbours touch, the first starts at zero and the last ends with the code space. */
  lemma {:induction false} Ordered(huff: seq<Code>, order: seq<nat>, i: nat, j: nat)
    requires |huff| == 257 && Sorted(huff, order, 257) && Canonical(huff, order) && i < j < 257
    ensures High(huff[order[i]]) <= Low(huff[order[j]]) && (j == i + 1 ==> High(huff[order[i]]) == Low(huff[order[j]]))
    decreases j - i
  {
    hide Pow2;
    Touches(huff, order, j);
    if j > i + 1 {
      Ordered(huff, order, i, j - 1);
    }
  }

  lemma Touches(huff: seq<Code>, order: seq<nat>, j: nat)
    requires |huff| == 257 && Sorted(huff, order, 257) && Canonical(huff, order) && 0 < j < 257
    ensures Shaped(huff[order[j - 1]]) && Shaped(huff[order[j]]) && High(huff[order[j - 1]]) == Low(huff[order[j]])
    ensures High(huff[order[j - 1]]) <= High(huff[order[j]])
  {
    hide Pow2;
    var a, b := huff[order[j - 1]], huff[order[j]];
    assert Follows(a, b);
    PowZero();
    FollowsIffTouches(a, b);
  }

  lemma PowZero()
    ensures Pow2(0) == 1
  {
  }

  /** The codes of a table share out the code space among themselves. */
  predicate Tiles(huff: seq<Code>) {
    |huff| == 257 && AllShaped(huff) && huff[Eos] == Code(30, Pow2(30) - 1) &&
    (forall a, b :: 0 <= a < 257 && 0 <= b < 257 && a != b ==> Apart(huff[a], huff[b])) &&
    (forall w :: 0 <= w < Pow2(30) ==> Covered(huff, w))
  }

  predicate Covered(huff: seq<Code>, w: int) {
    exists s :: 0 <= s < |huff| && Holds(huff[s], w)
  }

  /** The word begins with the code. */
  predicate Holds(c: Code, w: int) {
    Shaped(c) && Low(c) <= w < High(c)
  }

  /** Two codes claim different words, and the one that claims the lower ones is not longer. */
  predicate Apart(a: Code, b: Code) {
    Shaped(a) && Shaped(b) &&
    ((High(a) <= Low(b) && a.length <= b.length) || (High(b) <= Low(a) && b.length <= a.length))
  }

  lemma {:induction false} Located(huff: seq<Code>, order: seq<nat>, w: nat, n: nat) returns (i: nat)
    requires |huff| == 257 && Sorted(huff, order, 257) && Canonical(huff, order)
    requires n < 257 && w < High(huff[order[n]])
    ensures i <= n && Holds(huff[order[i]], w)
  {
    hide Pow2;
    if Low(huff[order[n]]) <= w {
      i := n;
    } else {
      assert n > 0;
      Touches(huff, order, n);
      i := Located(huff, order, w, n - 1);
    }
  }

  lemma PositionOf(huff: seq<Code>, order: seq<nat>, s: nat) returns (i: nat)
    requires |huff| == 257 && Sorted(huff, order, 257) && s < 257
    ensures i < 257 && order[i] == s
  {
    assert s in order;
    i :| 0 <= i < |order| && order[i] == s;
  }

  lemma Separate(huff: seq<Code>, order: seq<nat>, a: nat, b: nat)
    requires |huff| == 257 && Sorted(huff, order, 257) && Canonical(huff, order) && a < 257 && b < 257 && a != b
    ensures Apart(huff[a], huff[b])
  {
    hide Pow2;
    var i := PositionOf(huff, order, a);
    var j := PositionOf(huff, order, b);
    if i < j {
      Ordered(huff, order, i, j);
    } else {
      Ordered(huff, order, j, i);
    }
  }

  lemma EosValue()
    ensures Pow2(30) == 0x4000_0000
  {
    assert Pow2(10) == 1024;
    PowSum(10, 10);
    PowSum(20, 10);
  }

  lemma EosEnds(c: Code)
    requires c == Code(30, 0x3fff_ffff)
    ensures Shaped(c) && High(c) == Pow2(30)
  {
    hide Pow2;
    EosValue();
    PowZero();
  }

  /**
   A table that the check accepts tiles the 30-bit code space: the codes are prefix-free, every
   word begins with one of them, and the end of string comes last.
   */
  lemma AcceptedTiles(huff: seq<Code>, order: seq<nat>)
    requires |huff| == 257 && Sorted(huff, order, 257) && Canonical(huff, order)
    ensures Tiles(huff)
  {
    hide Pow2;
    EosValue();
    EosEnds(huff[Eos]);
    forall a, b | 0 <= a < 257 && 0 <= b < 257 && a != b ensures Apart(huff[a], huff[b]) {
      Separate(huff, order, a, b);
    }
    forall w | 0 <= w < Pow2(30) ensures Covered(huff, w) {
      var i := Located(huff, order, w, 256);
      assert Holds(huff[order[i]], w);
    }
  }

  /** Later in the order is higher in the code space. */
  lemma SortedApart(huff: seq<Code>, order: seq<nat>, n: nat, i: nat, j: nat)
    requires Tiles(huff) && n <= 257 && Sorted(huff, order, n) && i < j < n
    ensures Shaped(huff[order[i]]) && Shaped(huff[order[j]]) && huff[order[i]].length <= huff[order[j]].length
    ensures High(huff[order[i]]) <= Low(huff[order[j]])
  {
    hide Pow2;
    assert Before(huff[order[i]], huff[order[j]]) && Apart(huff[order[i]], huff[order[j]]);
    hide Tiles, Sorted;
    BeforeIsBelow(huff[order[i]], huff[order[j]]);
  }

  lemma BeforeIsBelow(a: Code, b: Code)
    requires Before(a, b) && Apart(a, b)
    ensures a.length <= b.length && High(a) <= Low(b)
  {
    hide Pow2;
    if a.length == b.length {
      Monotone(a.code, b.code, Span(a));
    }
  }

  lemma Monotone(x: int, y: int, d: nat)
    requires x <= y
    ensures x * d <= y * d
  {
  }

  /** Neighbours in the order touch: a word between them would begin with no code. */
  lemma NeighboursTouch(huff: seq<Code>, order: seq<nat>, i: nat)
    requires Tiles(huff) && Sorted(huff, order, 257) && 0 < i < 257
    ensures Shaped(huff[order[i - 1]]) && Shaped(huff[order[i]]) && High(huff[order[i - 1]]) == Low(huff[order[i]])
  {
    hide Pow2;
    SortedApart(huff, order, 257, i - 1, i);
    var w := High(huff[order[i - 1]]);
    if w < Low(huff[order[i]]) {
      LowInside(huff[order[i]]);
      assert Covered(huff, w);
      var s :| 0 <= s < |huff| && Holds(huff[s], w);
      var k := PositionOf(huff, order, s);
      if k < i - 1 {
        SortedApart(huff, order, 257, k, i - 1);
      } else if k > i {
        SortedApart(huff, order, 257, i, k);
      }
      assert false;
    }
  }

  lemma LowInside(c: Code)
    requires Shaped(c)
    ensures High(c) <= Pow2(30)
  {
    hide Pow2;
    PowSum(c.length, 30 - c.length);
    var d := Pow2(30 - c.length);
    Monotone(c.code + 1, Pow2(c.length), d);
  }

  /** Conversely, the check accepts every table that tiles the code space and has the known codes. */
  lemma TilesAccepted(huff: seq<Code>, order: seq<nat>)
    requires |huff| == 257 && Sorted(huff, order, 257) && Tiles(huff) && Spots(huff)
    ensures Canonical(huff, order)
  {
    hide Pow2;
    FirstIsZero(huff, order);
    EosIsLast(huff, order);
    EosValue();
    forall i | 0 < i < 257 ensures Follows(huff[order[i - 1]], huff[order[i]]) {
      SortedApart(huff, order, 257, i - 1, i);
      NeighboursTouch(huff, order, i);
      FollowsIffTouches(huff[order[i - 1]], huff[order[i]]);
      PowZero();
    }
  }

  lemma FirstIsZero(huff: seq<Code>, order: seq<nat>)
    requires |huff| == 257 && Sorted(huff, order, 257) && Tiles(huff)
    ensures huff[order[0]].code == 0
  {
    hide Pow2;
    assert Covered(huff, 0);
    var s :| 0 <= s < |huff| && Holds(huff[s], 0);
    var k := PositionOf(huff, order, s);
    var c := huff[s];
    Cancel(c.code, 0, Span(c));
    if k > 0 {
      SortedApart(huff, order, 257, 0, k);
    }
  }

  lemma EosIsLast(huff: seq<Code>, order: seq<nat>)
    requires |huff| == 257 && Sorted(huff, order, 257) && Tiles(huff)
    ensures order[256] == Eos
  {
    hide Pow2;
    var k := PositionOf(huff, order, Eos);
    if k < 256 {
      SortedApart(huff, order, 257, k, 256);
      LowInside(huff[order[256]]);
      EosTop(huff[Eos]);
    }
  }

  lemma EosTop(c: Code)
    requires c == Code(30, Pow2(30) - 1)
    ensures Shaped(c) && High(c) == Pow2(30) && Low(c) == Pow2(30) - 1
  {
    PowZero();
    hide Pow2;
  }

  // ---------------------------------------------------------------- bits

  type bit = x: int | 0 <= x < 2

  function Value(bs: seq<bit>): nat {
    if bs == [] then 0 else Value(bs[..|bs| - 1]) * 2 + bs[|bs| - 1]
  }

  function Bits(v: nat, n: nat): (bs: seq<bit>)
    ensures |bs| == n
  {
    if n == 0 then [] else Bits(v / 2, n - 1) + [v % 2]
  }

  lemma {:induction false} ValueBits(v: nat, n: nat)
    requires v < Pow2(n)
    ensures Value(Bits(v, n)) == v
  {
    if n > 0 {
      ValueBits(v / 2, n - 1);
      assert Bits(v, n)[..n - 1] == Bits(v / 2, n - 1);
    }
  }

  lemma {:induction false} BitsValue(bs: seq<bit>)
    ensures Value(bs) < Pow2(|bs|) && Bits(Value(bs), |bs|) == bs
  {
    if bs != [] {
      BitsValue(bs[..|bs| - 1]);
      assert bs == bs[..|bs| - 1] + [bs[|bs| - 1]];
    }
  }

  lemma {:induction false} ValueConcat(a: seq<bit>, b: seq<bit>)
    ensures Value(a + b) == Value(a) * Pow2(|b|) + Value(b)
  {
    if b == [] {
      assert a + b == a;
    } else {
      var n := |b| - 1;
      ValueConcat(a, b[..n]);
      assert (a + b)[..|a + b| - 1] == a + b[..n] && (a + b)[|a + b| - 1] == b[n];
      Doubled(Value(a), Pow2(n), Value(b[..n]), b[n]);
      assert Pow2(|b|) == 2 * Pow2(n);
    }
  }

  lemma Doubled(x: nat, d: nat, y: nat, b: nat)
    ensures (x * d + y) * 2 + b == x * (2 * d) + (y * 2 + b)
  {
    Associate(x, d, 2);
  }

  function CodeBits(c: Code): (bs: seq<bit>)
    requires Shaped(c)
    ensures |bs| == c.length
  {
    Bits(c.code, c.length)
  }

  predicate Begins(bs: seq<bit>, c: Code)
    requires Shaped(c)
  {
    |bs| >= c.length && bs[..c.length] == CodeBits(c)
  }

  /** The first word of the code space that begins with these bits. */
  function Word(bs: seq<bit>): nat
    requires |bs| <= 30
  {
    Value(bs) * Pow2(30 - |bs|)
  }

  /** A code is a prefix of the bits exactly when it holds their word. */
  lemma BeginsIffHolds(bs: seq<bit>, c: Code)
    requires Shaped(c) && c.length <= |bs| <= 30
    ensures Begins(bs, c) <==> Holds(c, Word(bs))
  {
    hide Pow2, Value, Bits;
    var k, n := c.length, |bs|;
    var a, b := bs[..k], bs[k..];
    assert bs == a + b;
    ValueConcat(a, b);
    BitsValue(a);
    BitsValue(b);
    ValueBits(c.code, k);
    PowSum(n - k, 30 - n);
    var d := Pow2(30 - n);
    Interval(Value(a), Value(b), Pow2(n - k), d);
    assert Span(c) == Pow2(n - k) * d;
    SameInterval(Value(a), c.code, Span(c), Word(bs));
  }

  lemma Interval(x: nat, y: nat, k: nat, d: nat)
    requires y < k && d > 0
    ensures x * (k * d) <= (x * k + y) * d < x * (k * d) + k * d
  {
    Associate(x, k, d);
    assert (x * k + y) * d == (x * k) * d + y * d;
    assert y * d < k * d;
  }

  lemma SameInterval(x: nat, c: nat, d: nat, w: nat)
    requires d > 0 && x * d <= w < x * d + d
    ensures x == c <==> c * d <= w < c * d + d
  {
    assert x < c ==> (x + 1) * d <= c * d;
    assert c < x ==> (c + 1) * d <= x * d;
  }

  // ---------------------------------------------------------------- what a string of bits says

  datatype Text = Text(symbols: seq<nat>) | NoText

  predicate IsText(s: seq<nat>) {
    forall i :: 0 <= i < |s| ==> s[i] < 256
  }

  function Encode(huff: seq<Code>, s: seq<nat>): seq<bit>
    requires |huff| == 257 && AllShaped(huff) && IsText(s)
  {
    if s == [] then [] else CodeBits(huff[s[0]]) + Encode(huff, s[1..])
  }

  function Ones(n: nat): (bs: seq<bit>)
    ensures |bs| == n
  {
    seq(n, _ => 1)
  }

  /** Some symbol's code is a prefix of the bits. */
  predicate Starts(huff: seq<Code>, bs: seq<bit>)
    requires |huff| == 257 && AllShaped(huff)
  {
    exists s :: 0 <= s < 256 && Begins(bs, huff[s])
  }

  ghost function First(huff: seq<Code>, bs: seq<bit>): (s: nat)
    requires |huff| == 257 && AllShaped(huff) && Starts(huff, bs)
    ensures s < 256 && Begins(bs, huff[s])
  {
    var s :| 0 <= s < 256 && Begins(bs, huff[s]); s
  }

  /** Read one code after the other; what is left may be up to seven ones. */
  ghost function Decode(huff: seq<Code>, bs: seq<bit>): Text
    requires |huff| == 257 && AllShaped(huff)
    decreases |bs|
  {
    if Starts(huff, bs) then
      var s := First(huff, bs);
      Prepend([s], Decode(huff, bs[huff[s].length..]))
    else if |bs| <= 7 && bs == Ones(|bs|) then Text([])
    else NoText
  }

  function Prepend(s: seq<nat>, t: Text): Text {
    match t
    case NoText => NoText
    case Text(more) => Text(s + more)
  }

  /** No two symbols, the end of string included, begin the same bits. */
  lemma OneBegins(huff: seq<Code>, bs: seq<bit>, a: nat, b: nat)
    requires Tiles(huff) && a < 257 && b < 257 && Begins(bs, huff[a]) && Begins(bs, huff[b])
    ensures a == b
  {
    hide Pow2, Bits, Value;
    var n := if |bs| <= 30 then |bs| else 30;
    var front := bs[..n];
    assert front[..huff[a].length] == bs[..huff[a].length] && front[..huff[b].length] == bs[..huff[b].length];
    BeginsIffHolds(front, huff[a]);
    BeginsIffHolds(front, huff[b]);
    TwoApart(huff, a, b);
  }

  lemma TwoApart(huff: seq<Code>, a: nat, b: nat)
    requires Tiles(huff) && a < 257 && b < 257
    ensures a != b ==> Apart(huff[a], huff[b])
  {
  }

  /** Bits that begin with a symbol's code decode to that symbol and the rest. */
  lemma DecodeFirst(huff: seq<Code>, s: nat, rest: seq<bit>)
    requires Tiles(huff) && s < 256
    ensures Decode(huff, CodeBits(huff[s]) + rest) == Prepend([s], Decode(huff, rest))
  {
    TilesShaped(huff);
    hide Tiles, CodeBits;
    var bs := CodeBits(huff[s]) + rest;
    assert Begins(bs, huff[s]);
    OneBegins(huff, bs, First(huff, bs), s);
    assert bs[huff[s].length..] == rest;
  }

  lemma TilesShaped(huff: seq<Code>)
    requires Tiles(huff)
    ensures |huff| == 257 && AllShaped(huff)
  {
  }

  /** Ones are the beginning of the end of string, and of no symbol. */
  lemma OnesStartNothing(huff: seq<Code>, n: nat)
    requires Tiles(huff) && n <= 30
    ensures !Starts(huff, Ones(n))
  {
    hide Pow2, Bits, Value;
    forall s | 0 <= s < 256 ensures !Begins(Ones(n), huff[s]) {
      if Begins(Ones(n), huff[s]) {
        var all := Ones(30);
        assert all[..huff[s].length] == Ones(n)[..huff[s].length];
        assert all[..30] == all;
        OnesValue(30);
        BitsValue(all);
        OneBegins(huff, all, s, Eos);
      }
    }
  }

  lemma {:induction false} OnesValue(n: nat)
    ensures Value(Ones(n)) == Pow2(n) - 1
  {
    if n > 0 {
      OnesValue(n - 1);
      assert Ones(n)[..n - 1] == Ones(n - 1);
    }
  }

  lemma PaddingSaysNothing(huff: seq<Code>, pad: nat)
    requires Tiles(huff) && pad <= 7
    ensures Decode(huff, Ones(pad)) == Text([])
  {
    OnesStartNothing(huff, pad);
    hide Tiles;
  }

  /** Decoding inverts encoding, for every text and every padding of up to seven ones. */
  lemma {:induction false} DecodeEncode(huff: seq<Code>, s: seq<nat>, pad: nat)
    requires Tiles(huff) && IsText(s) && pad <= 7
    ensures Decode(huff, Encode(huff, s) + Ones(pad)) == Text(s)
  {
    TilesShaped(huff);
    hide Tiles, Decode, CodeBits, Ones;
    if s == [] {
      PaddingSaysNothing(huff, pad);
      assert [] + Ones(pad) == Ones(pad);
    } else {
      DecodeEncode(huff, s[1..], pad);
      DecodeFirst(huff, s[0], Encode(huff, s[1..]) + Ones(pad));
      assert Encode(huff, s) + Ones(pad) == CodeBits(huff[s[0]]) + (Encode(huff, s[1..]) + Ones(pad));
      assert [s[0]] + s[1..] == s;
    }
  }

  /** And whatever decodes was encoded so: no other string of bits says the text. */
  lemma {:induction false} DecodedWasEncoded(huff: seq<Code>, bs: seq<bit>)
    requires |huff| == 257 && AllShaped(huff) && Decode(huff, bs).Text?
    ensures var s := Decode(huff, bs).symbols;
      IsText(s) && exists pad: nat :: pad <= 7 && bs == Encode(huff, s) + Ones(pad)
    decreases |bs|
  {
    hide CodeBits;
    if Starts(huff, bs) {
      var a := First(huff, bs);
      var rest := bs[huff[a].length..];
      DecodedWasEncoded(huff, rest);
      var more := Decode(huff, rest).symbols;
      var pad: nat :| pad <= 7 && rest == Encode(huff, more) + Ones(pad);
      var s := [a] + more;
      assert s[1..] == more && s[0] == a;
      assert bs == CodeBits(huff[a]) + rest;
      assert bs == Encode(huff, s) + Ones(pad);
    } else {
      assert bs == Encode(huff, []) + Ones(|bs|);
    }
  }

  // ---------------------------------------------------------------- the rows

  datatype Row = Row(bits: nat, firstCode: nat, firstIndex: nat, count: nat)

  /** The symbols of a row have its length and consecutive codes. */
  predicate RowFits(huff: seq<Code>, order: seq<nat>, row: Row)
    requires |huff| == 257 && Sorted(huff, order, 256)
  {
    row.count > 0 && row.firstIndex + row.count <= 256 &&
    forall k :: row.firstIndex <= k < row.firstIndex + row.count ==>
      huff[order[k]] == Code(row.bits, row.firstCode + (k - row.firstIndex))
  }

  /** Rows of growing length that share out the first `n` symbols. */
  predicate RowsFit(huff: seq<Code>, order: seq<nat>, rows: seq<Row>, n: nat)
    requires |huff| == 257 && Sorted(huff, order, 256)
  {
    (forall r :: 0 <= r < |rows| ==> RowFits(huff, order, rows[r])) &&
    (forall q, r :: 0 <= q < r < |rows| ==> rows[q].bits < rows[r].bits) &&
    (forall k :: 0 <= k < n ==> InRow(rows, k))
  }

  predicate InRow(rows: seq<Row>, k: int) {
    exists r :: 0 <= r < |rows| && rows[r].firstIndex <= k < rows[r].firstIndex + rows[r].count
  }

  /** Neighbouring symbols of one length have consecutive codes. */
  lemma NeighboursCount(huff: seq<Code>, order: seq<nat>, i: nat)
    requires Tiles(huff) && Sorted(huff, order, 256) && 0 < i < 256
    requires huff[order[i - 1]].length == huff[order[i]].length
    ensures huff[order[i]].code == huff[order[i - 1]].code + 1
  {
    hide Pow2;
    var a, b := huff[order[i - 1]], huff[order[i]];
    SortedApart(huff, order, 256, i - 1, i);
    var w := High(a);
    if w < Low(b) {
      LowInside(b);
      assert Covered(huff, w);
      var s :| 0 <= s < |huff| && Holds(huff[s], w);
      if s == Eos {
        EosTop(huff[Eos]);
      } else {
        assert s in order;
        var k :| 0 <= k < 256 && order[k] == s;
        if k < i - 1 {
          SortedApart(huff, order, 256, k, i - 1);
        } else if k > i {
          SortedApart(huff, order, 256, i, k);
        }
      }
      assert false;
    }
    PowZero();
    FollowsIffTouches(a, b);
  }

  /** The length rows, as the generator collects them; for a tiling table its check cannot fail. */
  method BuildDecodeTables(huff: seq<Code>, order: seq<nat>) returns (ok: bool, rows: seq<Row>)
    requires |huff| == 257 && AllShaped(huff) && Sorted(huff, order, 256)
    ensures ok ==> RowsFit(huff, order, rows, 256)
    ensures Tiles(huff) ==> ok
  {
    hide Tiles, Pow2;
    rows := [];
    var i := 0;
    while i < 256
      invariant i <= 256 && RowsFit(huff, order, rows, i)
      invariant rows != [] ==> i > 0 && rows[|rows| - 1].bits == huff[order[i - 1]].length
      invariant i < 256 && rows != [] ==> rows[|rows| - 1].bits < huff[order[i]].length
      decreases 256 - i
    {
      var bits := huff[order[i]].length;
      var j := i;
      while j < 256 && huff[order[j]].length == bits
        invariant i <= j <= 256 && forall k :: i <= k < j ==> huff[order[k]].length == bits
      {
        j := j + 1;
      }
      var firstCode := huff[order[i]].code;
      var k := i;
      while k < j
        invariant i <= k <= j && forall m :: i <= m < k ==> huff[order[m]].code == firstCode + (m - i)
      {
        if k > i {
          if huff[order[k]].code != firstCode + (k - i) {
            Gap(huff, order, k);
            return false, rows;
          }
        }
        k := k + 1;
      }
      var row := Row(bits, firstCode, i, j - i);
      AddRow(huff, order, rows, row, i);
      rows := rows + [row];
      if j < 256 {
        assert Before(huff[order[i]], huff[order[j]]);
      }
      i := j;
    }
    return true, rows;
  }

  lemma Gap(huff: seq<Code>, order: seq<nat>, k: nat)
    requires |huff| == 257 && Sorted(huff, order, 256) && 0 < k < 256
    requires huff[order[k - 1]].length == huff[order[k]].length && huff[order[k]].code != huff[order[k - 1]].code + 1
    ensures !Tiles(huff)
  {
    if Tiles(huff) {
      NeighboursCount(huff, order, k);
    }
  }

  lemma AddRow(huff: seq<Code>, order: seq<nat>, rows: seq<Row>, row: Row, i: nat)
    requires |huff| == 257 && Sorted(huff, order, 256) && RowsFit(huff, order, rows, i) && RowFits(huff, order, row)
    requires row.firstIndex == i && (rows != [] ==> rows[|rows| - 1].bits < row.bits)
    ensures RowsFit(huff, order, rows + [row], i + row.count)
  {
    var all := rows + [row];
    forall k | 0 <= k < i + row.count ensures InRow(all, k) {
      if k < i {
        assert InRow(rows, k);
        var r :| 0 <= r < |rows| && rows[r].firstIndex <= k < rows[r].firstIndex + rows[r].count;
        assert all[r] == rows[r];
      } else {
        assert all[|rows|] == row;
      }
    }
  }

  // ---------------------------------------------------------------- there are such tables

  /** Code number `i` of a sample table: ten of 5 bits, one of 6, then 8, 9 and one of every longer length. */
  function SampleCode(i: nat): Code {
    if i < 10 then Code(5, i)
    else if i == 10 then Code(6, 0x14)
    else if i < 130 then Code(8, 84 + (i - 11))
    else if i < 235 then Code(9, 406 + (i - 130))
    else if i < 255 then Code(i - 225, Pow2(i - 225) - 2)
    else Code(30, Pow2(30) - 2 + (i - 255))
  }

  /** Three symbols change places with the codes the check knows by heart. */
  function Exchange(s: nat): (r: nat)
    ensures (s < 256 <==> r < 256) && (s >= 256 ==> r == s)
  {
    if s == 0x30 then 0 else if s == 0 then 0x30
    else if s == 0x61 then 3 else if s == 3 then 0x61
    else if s == 0x20 then 10 else if s == 10 then 0x20
    else s
  }

  lemma ExchangedTwice(s: nat)
    ensures Exchange(Exchange(s)) == s
  {
  }

  function SampleTable(): (huff: seq<Code>)
    ensures |huff| == 257 && forall s :: 0 <= s < 257 ==> huff[s] == SampleCode(Exchange(s))
  {
    seq(257, s requires 0 <= s => SampleCode(Exchange(s)))
  }

  function SampleOrder(n: nat): (order: seq<nat>)
    ensures |order| == n && forall i :: 0 <= i < n ==> order[i] == Exchange(i)
  {
    seq(n, i requires 0 <= i => Exchange(i))
  }

  lemma PowStep(n: nat)
    ensures Pow2(n + 1) == 2 * Pow2(n)
    ensures Pow2(0) == 1 && Pow2(1) == 2 && Pow2(2) == 4
  {
    assert Pow2(1) == 2 * Pow2(0);
  }

  lemma {:induction false} PowGrows(a: nat, b: nat)
    requires a <= b
    ensures Pow2(a) <= Pow2(b)
  {
    if a < b {
      PowGrows(a, b - 1);
    }
  }

  lemma SmallPowers()
    ensures Pow2(5) == 32 && Pow2(6) == 64 && Pow2(8) == 256 && Pow2(9) == 512
  {
    assert Pow2(4) == 16;
    assert Pow2(7) == 128;
  }

  lemma SampleShaped(i: nat)
    requires i < 257
    ensures Shaped(SampleCode(i))
  {
    SmallPowers();
    EosValue();
    hide Pow2;
    if 235 <= i < 255 {
      PowGrows(5, i - 225);
    }
  }

  lemma SampleBefore(i: nat, j: nat)
    requires i < j < 257
    ensures Before(SampleCode(i), SampleCode(j))
  {
    hide Pow2;
  }

  lemma SampleFollowsEarly(i: nat)
    requires 0 < i <= 235
    ensures Follows(SampleCode(i - 1), SampleCode(i))
  {
    hide Pow2;
    PowStep(9);
    SmallPowers();
    if i == 235 {
      assert SampleCode(i - 1) == Code(9, 510) && SampleCode(i) == Code(10, 1022);
    }
  }

  lemma SampleFollowsLate(i: nat)
    requires 235 < i < 257
    ensures Follows(SampleCode(i - 1), SampleCode(i))
  {
    hide Pow2;
    if i < 256 {
      var d: int := Pow2(i - 226);
      PowStep(i - 226);
      assert SampleCode(i - 1) == Code(i - 226, d - 2);
      assert SampleCode(i) == Code(i - 225, 2 * d - 2);
      assert (d - 2 + 1) * 2 == 2 * d - 2;
    }
  }

  lemma SampleFollows(i: nat)
    requires 0 < i < 257
    ensures Follows(SampleCode(i - 1), SampleCode(i))
  {
    hide SampleCode, Follows;
    if i <= 235 {
      SampleFollowsEarly(i);
    } else {
      SampleFollowsLate(i);
    }
  }

  lemma SampleSorted(n: nat)
    requires n == 256 || n == 257
    ensures Sorted(SampleTable(), SampleOrder(n), n)
  {
    hide SampleCode, Exchange, Before;
    var huff, order := SampleTable(), SampleOrder(n);
    forall i, j | 0 <= i < j < n ensures order[i] != order[j] && Before(huff[order[i]], huff[order[j]]) {
      SampleBefore(i, j);
      ExchangedTwice(i);
      ExchangedTwice(j);
    }
    forall s: nat | s < n ensures s in order {
      ExchangedTwice(s);
      assert order[Exchange(s)] == s;
    }
  }

  lemma SampleSpots()
    ensures Spots(SampleTable())
    ensures SampleTable()[SampleOrder(257)[0]].code == 0 && SampleOrder(257)[256] == Eos
    ensures Pow2(30) == 0x4000_0000
  {
    EosValue();
    hide Pow2;
  }

  lemma SampleNeighbours(i: nat)
    requires 0 < i < 257
    ensures Follows(SampleTable()[SampleOrder(257)[i - 1]], SampleTable()[SampleOrder(257)[i]])
  {
    hide SampleCode, Exchange, Follows, Pow2;
    SampleFollows(i);
    ExchangedTwice(i - 1);
    ExchangedTwice(i);
  }

  lemma SampleCanonical()
    requires Sorted(SampleTable(), SampleOrder(257), 257)
    ensures Canonical(SampleTable(), SampleOrder(257))
  {
    hide Pow2, SampleCode, Exchange, Sorted, Follows, Shaped;
    SampleSpots();
    forall s | 0 <= s < 257 ensures Shaped(SampleTable()[s]) {
      SampleShaped(Exchange(s));
    }
    forall i | 0 < i < 257 ensures Follows(SampleTable()[SampleOrder(257)[i - 1]], SampleTable()[SampleOrder(257)[i]]) {
      SampleNeighbours(i);
    }
  }

  /** There is a table, with its order, that the check accepts; so what follows from acceptance is not empty. */
  lemma SampleTiles()
    ensures Sorted(SampleTable(), SampleOrder(257), 257) && Sorted(SampleTable(), SampleOrder(256), 256)
    ensures Canonical(SampleTable(), SampleOrder(257)) && Tiles(SampleTable())
  {
    hide Pow2, SampleCode, Exchange, Sorted, Tiles, Follows, Shaped, Canonical;
    SampleSorted(256);
    SampleSorted(257);
    SampleCanonical();
    AcceptedTiles(SampleTable(), SampleOrder(257));
  }
}
