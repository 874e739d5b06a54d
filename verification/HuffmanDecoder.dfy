/**
 The string decoder: one bit at a time, a cursor over the length rows, and the padding rule of
 section 5.2 of RFC 7541.
 */
module HuffmanDecoder {
  import opened Huffman
  import opened Varint

  /** The tables the generator emitted for a code it accepted. */
  ghost predicate Tables(huff: seq<Code>, order: seq<nat>, rows: seq<Row>) {
    Tiles(huff) && Sorted(huff, order, 256) && RowsFit(huff, order, rows, 256)
  }

  /** The rows passed over are too short for `n` bits, the next one is not. */
  predicate Cursor(rows: seq<Row>, row: nat, n: nat) {
    row <= |rows| && (forall r :: 0 <= r < row ==> rows[r].bits < n) && (row < |rows| ==> rows[row].bits >= n)
  }

  /** The comparison the decoder makes. */
  predicate Hit(rows: seq<Row>, row: nat, n: nat, code: nat) {
    row < |rows| && rows[row].bits == n && code < rows[row].firstCode + rows[row].count
  }

  lemma RowOf(huff: seq<Code>, order: seq<nat>, rows: seq<Row>, s: nat) returns (r: nat, k: nat)
    requires Tables(huff, order, rows) && s < 256
    ensures r < |rows| && rows[r].firstIndex <= k < rows[r].firstIndex + rows[r].count && k < 256 && order[k] == s
    ensures huff[s] == Code(rows[r].bits, rows[r].firstCode + (k - rows[r].firstIndex))
  {
    TilesShaped(huff);
    hide Tiles;
    assert s in order;
    k :| 0 <= k < 256 && order[k] == s;
    assert InRow(rows, k);
    r :| 0 <= r < |rows| && rows[r].firstIndex <= k < rows[r].firstIndex + rows[r].count;
    assert RowFits(huff, order, rows[r]);
  }

  /** A complete code is found by the comparison. */
  lemma CodeIsHit(huff: seq<Code>, order: seq<nat>, rows: seq<Row>, row: nat, bs: seq<bit>, s: nat)
    requires Tables(huff, order, rows) && s < 256 && Cursor(rows, row, |bs|) && huff[s] == Code(|bs|, Value(bs))
    ensures Hit(rows, row, |bs|, Value(bs))
  {
    hide Tiles, Value;
    var r, k := RowOf(huff, order, rows, s);
    assert r == row;
  }

  /** A symbol whose code is a prefix of the bits, but of no shorter ones, is the bits. */
  lemma WholeCode(huff: seq<Code>, bs: seq<bit>, s: nat)
    requires |huff| == 257 && AllShaped(huff) && bs != [] && !Starts(huff, bs[..|bs| - 1]) && s < 256 && Begins(bs, huff[s])
    ensures CodeBits(huff[s]) == bs && huff[s] == Code(|bs|, Value(bs))
  {
    hide Pow2, Bits, Value;
    var c := huff[s];
    BeginsShorter(bs, c);
    assert c.length == |bs|;
    assert bs[..|bs|] == bs;
    hide AllShaped, Starts;
    ValueBits(c.code, c.length);
  }

  lemma BeginsShorter(bs: seq<bit>, c: Code)
    requires Shaped(c) && Begins(bs, c) && bs != []
    ensures c.length < |bs| ==> Begins(bs[..|bs| - 1], c)
  {
    hide CodeBits, Pow2;
    assert c.length < |bs| ==> bs[..|bs| - 1][..c.length] == bs[..c.length];
  }

  /**
   The comparison only ever succeeds on a complete code: a smaller number of that many bits
   would lie in the interval of a shorter code, which would have been found before.
   */
  lemma HitIsCode(huff: seq<Code>, order: seq<nat>, rows: seq<Row>, row: nat, bs: seq<bit>)
    requires Tables(huff, order, rows) && 0 < |bs| <= 30 && !Starts(huff, bs[..|bs| - 1])
    requires Hit(rows, row, |bs|, Value(bs))
    ensures rows[row].firstCode <= Value(bs)
    ensures var k := rows[row].firstIndex + (Value(bs) - rows[row].firstCode);
      k < 256 && order[k] < 256 && Shaped(huff[order[k]]) && CodeBits(huff[order[k]]) == bs
  {
    hide Pow2, Bits, Value;
    var f := rows[row];
    assert RowFits(huff, order, f);
    NotBelow(huff, order, rows, row, bs);
    var k := f.firstIndex + (Value(bs) - f.firstCode);
    assert huff[order[k]] == Code(|bs|, Value(bs));
    BitsValue(bs);
  }

  lemma NotBelow(huff: seq<Code>, order: seq<nat>, rows: seq<Row>, row: nat, bs: seq<bit>)
    requires Tables(huff, order, rows) && 0 < |bs| <= 30 && !Starts(huff, bs[..|bs| - 1])
    requires row < |rows| && rows[row].bits == |bs|
    ensures rows[row].firstCode <= Value(bs)
  {
    hide Pow2, Bits, Value;
    if Value(bs) < rows[row].firstCode {
      assert RowFits(huff, order, rows[row]);
      var g := order[rows[row].firstIndex];
      var w := Word(bs);
      WordBelow(bs, huff[g]);
      var s := Owner(huff, w);
      LowInside(huff[g]);
      EosTop(huff[Eos]);
      TwoApart(huff, s, g);
      assert s != Eos && huff[s].length <= |bs|;
      BeginsIffHolds(bs, huff[s]);
      WholeCode(huff, bs, s);
      var r, k := RowOf(huff, order, rows, s);
      assert false;
    }
  }

  lemma WordBelow(bs: seq<bit>, f: Code)
    requires Shaped(f) && |bs| == f.length && Value(bs) < f.code
    ensures Word(bs) < Low(f) && Word(bs) < Pow2(30)
  {
    hide Pow2, Value;
    var d := Pow2(30 - |bs|);
    Monotone(Value(bs) + 1, f.code, d);
    assert (Value(bs) + 1) * d == Value(bs) * d + d;
    LowInside(f);
  }

  lemma Owner(huff: seq<Code>, w: nat) returns (s: nat)
    requires Tiles(huff) && w < Pow2(30)
    ensures s < 257 && Holds(huff[s], w)
  {
    assert Covered(huff, w);
    s :| 0 <= s < |huff| && Holds(huff[s], w);
  }

  /** Take one bit; say whether it completes a code, and which. */
  method TakeBit(ghost huff: seq<Code>, order: seq<nat>, rows: seq<Row>, ghost p: seq<bit>, b: bit, code: nat, bits: nat, row: nat)
      returns (code': nat, bits': nat, row': nat, hit: bool, symbol: nat)
    requires Tables(huff, order, rows) && !Starts(huff, p) && |p| < 30
    requires code == Value(p) && bits == |p| && row <= |rows| && forall r :: 0 <= r < row ==> rows[r].bits < |p|
    ensures code' == Value(p + [b]) && bits' == |p| + 1 && row' <= |rows| && forall r :: 0 <= r < row' ==> rows[r].bits < bits'
    ensures code' < 0x4000_0000
    ensures hit <==> Starts(huff, p + [b])
    ensures hit ==> symbol < 256 && CodeBits(huff[symbol]) == p + [b]
  {
    hide Tiles, RowsFit, Pow2, Bits;
    ghost var bs := p + [b];
    assert bs[..|bs| - 1] == p;
    code' := code * 2 + b;
    bits' := bits + 1;
    row' := row;
    while row' < |rows| && rows[row'].bits < bits'
      invariant row' <= |rows| && forall r :: 0 <= r < row' ==> rows[r].bits < bits'
    {
      row' := row' + 1;
    }
    symbol := 0;
    Small(bs);
    HitIff(huff, order, rows, row', bs);
    hit := row' < |rows| && rows[row'].bits == bits' && code' < rows[row'].firstCode + rows[row'].count;
    if hit {
      HitIsCode(huff, order, rows, row', bs);
      symbol := order[rows[row'].firstIndex + (code' - rows[row'].firstCode)];
    }
  }

  lemma Small(bs: seq<bit>)
    requires |bs| <= 30
    ensures Value(bs) < 0x4000_0000
  {
    hide Value, Bits;
    BitsValue(bs);
    EosValue();
    PowSum(|bs|, 30 - |bs|);
    var d := Pow2(30 - |bs|);
    hide Pow2;
    Monotone(1, d, Pow2(|bs|));
  }

  lemma HitIff(huff: seq<Code>, order: seq<nat>, rows: seq<Row>, row: nat, bs: seq<bit>)
    requires Tables(huff, order, rows) && 0 < |bs| <= 30 && !Starts(huff, bs[..|bs| - 1]) && Cursor(rows, row, |bs|)
    ensures Hit(rows, row, |bs|, Value(bs)) <==> Starts(huff, bs)
  {
    TilesShaped(huff);
    hide Tiles, RowsFit, Pow2, Bits, Value, CodeBits;
    if Starts(huff, bs) {
      StartIsHit(huff, order, rows, row, bs, First(huff, bs));
    } else if Hit(rows, row, |bs|, Value(bs)) {
      HitIsCode(huff, order, rows, row, bs);
      WholeStarts(huff, bs, order[rows[row].firstIndex + (Value(bs) - rows[row].firstCode)]);
    }
  }

  lemma StartIsHit(huff: seq<Code>, order: seq<nat>, rows: seq<Row>, row: nat, bs: seq<bit>, s: nat)
    requires Tables(huff, order, rows) && 0 < |bs| <= 30 && !Starts(huff, bs[..|bs| - 1]) && Cursor(rows, row, |bs|)
    requires s < 256 && Begins(bs, huff[s])
    ensures Hit(rows, row, |bs|, Value(bs))
  {
    TilesShaped(huff);
    hide Tiles, RowsFit, Pow2, Bits, Value, CodeBits, Starts;
    WholeCode(huff, bs, s);
    CodeIsHit(huff, order, rows, row, bs, s);
  }

  lemma WholeStarts(huff: seq<Code>, bs: seq<bit>, s: nat)
    requires |huff| == 257 && AllShaped(huff) && s < 256 && CodeBits(huff[s]) == bs
    ensures Starts(huff, bs)
  {
    hide CodeBits;
    assert bs[..|bs|] == bs;
    assert Begins(bs, huff[s]);
  }

  // ---------------------------------------------------------------- whole strings

  function AllBits(src: seq<byte>): seq<bit> {
    if src == [] then [] else Bits(src[0], 8) + AllBits(src[1..])
  }

  lemma {:induction false} BitsTop(v: nat, m: nat)
    ensures Bits(v, m + 1) == [v / Pow2(m) % 2] + Bits(v, m)
  {
    if m > 0 {
      BitsTop(v / 2, m - 1);
      HalfDiv(v, Pow2(m - 1));
      assert Bits(v, m + 1) == Bits(v / 2, m) + [v % 2];
    } else {
      assert v / 1 == v && Bits(v / 2, 0) == [];
    }
  }

  lemma HalfDiv(v: nat, d: nat)
    requires d > 0
    ensures v / 2 / d == v / (2 * d)
  {
    var q, r := v / 2 / d, v / 2 % d;
    assert v / 2 == d * q + r;
    assert v == (2 * d) * q + (2 * r + v % 2);
    assert 2 * r + v % 2 < 2 * d;
    DivisionIsUnique(v, 2 * d, q, 2 * r + v % 2);
  }

  datatype Status = Ok | Malformed | Full

  /** What is known between two bits: `s` was read, `p` is pending, `rest` is to come. */
  ghost predicate Halfway(huff: seq<Code>, bs: seq<bit>, s: seq<nat>, p: seq<bit>, rest: seq<bit>)
    requires Tiles(huff)
  {
    IsText(s) && !Starts(huff, p) && |p| < 30 && bs == Encode(huff, s) + (p + rest) &&
    Huffman.Decode(huff, bs) == Prepend(s, Huffman.Decode(huff, p + rest))
  }

  lemma {:induction false} EncodeMore(huff: seq<Code>, s: seq<nat>, a: nat)
    requires |huff| == 257 && AllShaped(huff) && IsText(s) && a < 256
    ensures Encode(huff, s + [a]) == Encode(huff, s) + CodeBits(huff[a])
  {
    hide CodeBits;
    if s == [] {
      assert s + [a] == [a] && [a][1..] == [];
      assert CodeBits(huff[a]) + [] == CodeBits(huff[a]) && [] + CodeBits(huff[a]) == CodeBits(huff[a]);
    } else {
      EncodeMore(huff, s[1..], a);
      assert (s + [a])[1..] == s[1..] + [a] && (s + [a])[0] == s[0];
    }
  }

  lemma HitStep(huff: seq<Code>, bs: seq<bit>, s: seq<nat>, p: seq<bit>, b: bit, rest: seq<bit>, a: nat)
    requires Tiles(huff) && Halfway(huff, bs, s, p, [b] + rest) && a < 256 && CodeBits(huff[a]) == p + [b]
    ensures Halfway(huff, bs, s + [a], [], rest)
  {
    TilesShaped(huff);
    NothingStarts(huff);
    hide Tiles, CodeBits, Huffman.Decode, Encode, Starts, Prepend;
    EncodeMore(huff, s, a);
    HitBits(Encode(huff, s), p, b, rest);
    DecodeFirst(huff, a, rest);
    Regroup(s, a, Huffman.Decode(huff, rest));
  }

  lemma HitBits(front: seq<bit>, p: seq<bit>, b: bit, rest: seq<bit>)
    ensures p + ([b] + rest) == (p + [b]) + rest && [] + rest == rest
    ensures front + ((p + [b]) + rest) == (front + (p + [b])) + ([] + rest)
  {
  }

  lemma Regroup(s: seq<nat>, a: nat, t: Text)
    ensures Prepend(s, Prepend([a], t)) == Prepend(s + [a], t)
  {
    if t.Text? {
      assert s + ([a] + t.symbols) == s + [a] + t.symbols;
    }
  }

  lemma NothingStarts(huff: seq<Code>)
    requires |huff| == 257 && AllShaped(huff)
    ensures !Starts(huff, [])
  {
  }

  /** Thirty bits that complete no code are the end of string, which has no place in a text. */
  lemma TooLong(huff: seq<Code>, p: seq<bit>, rest: seq<bit>)
    requires Tiles(huff) && |p| == 30 && !Starts(huff, p)
    ensures Huffman.Decode(huff, p + rest) == NoText
  {
    TilesShaped(huff);
    hide Tiles, CodeBits, Pow2;
    forall s | 0 <= s < 256 ensures !Begins(p + rest, huff[s]) {
      assert (p + rest)[..huff[s].length] == p[..huff[s].length];
    }
  }

  /**
   Decode a whole string. It is accepted exactly when it is the encoding of a text that fits,
   padded with up to seven ones, and then that text is the result.
   */
  method HuffmanDecode(ghost huff: seq<Code>, order: seq<nat>, rows: seq<Row>, src: seq<byte>, dst: array<nat>, cap: nat)
      returns (status: Status, n: nat)
    requires Tables(huff, order, rows) && cap <= dst.Length
    modifies dst
    ensures n <= cap
    ensures status == Ok ==> Huffman.Decode(huff, AllBits(src)) == Text(dst[..n])
    ensures status == Malformed ==> Huffman.Decode(huff, AllBits(src)) == NoText
    ensures status == Full ==> n == cap && forall s: seq<nat> :: Huffman.Decode(huff, AllBits(src)) == Text(s) ==> |s| > cap
  {
    hide Tiles, RowsFit, Pow2, Bits, Value, Starts, Huffman.Decode, Encode, AllBits, CodeBits, Halfway;
    ghost var bs := AllBits(src);
    var code: nat, bits: nat, row: nat := 0, 0, 0;
    n := 0;
    ghost var p: seq<bit> := [];
    Beginning(huff, bs);
    var i := 0;
    assert src[0..] == src && dst[..0] == [];
    while i < |src|
      invariant i <= |src| && n <= cap && bs == AllBits(src)
      invariant Halfway(huff, bs, dst[..n], p, AllBits(src[i..]))
      invariant code == Value(p) && bits == |p| && row <= |rows| && forall r :: 0 <= r < row ==> rows[r].bits < bits
    {
      NextByte(src, i);
      var left := 8;
      while left > 0
        invariant 0 <= left <= 8 && n <= cap
        invariant Halfway(huff, bs, dst[..n], p, Bits(src[i], left) + AllBits(src[i + 1..]))
        invariant code == Value(p) && bits == |p| && row <= |rows| && forall r :: 0 <= r < row ==> rows[r].bits < bits
      {
        left := left - 1;
        var b := src[i] / Pow2(left) % 2;
        ghost var rest := Bits(src[i], left) + AllBits(src[i + 1..]);
        BitsTop(src[i], left);
        assert Bits(src[i], left + 1) + AllBits(src[i + 1..]) == [b] + rest;
        HalfwayFacts(huff, bs, dst[..n], p, [b] + rest);
        var hit, symbol;
        code, bits, row, hit, symbol := TakeBit(huff, order, rows, p, b, code, bits, row);
        if hit {
          HitStep(huff, bs, dst[..n], p, b, rest, symbol);
          if n >= cap {
            Overflow(huff, bs, dst[..n] + [symbol], rest);
            return Full, n;
          }
          ghost var before := dst[..n];
          dst[n] := symbol;
          n := n + 1;
          assert dst[..n] == before + [symbol];
          code, bits, row := 0, 0, 0;
          p := [];
          EmptyValue();
        } else {
          p := p + [b];
          if bits >= EosBits {
            Refused(huff, bs, dst[..n], p[..29], b, rest, p);
            return Malformed, n;
          }
          MissStep(huff, bs, dst[..n], p[..|p| - 1], b, rest, p);
        }
      }
      NoBitsLeft(src, i);
      i := i + 1;
    }
    Ending(huff, bs, dst[..n], p, src, i);
    OnesIff(p);
    if bits > 7 {
      return Malformed, n;
    }
    if bits > 0 && code != Pow2(bits) - 1 {
      return Malformed, n;
    }
    return Ok, n;
  }

  lemma Beginning(huff: seq<Code>, bs: seq<bit>)
    requires Tiles(huff)
    ensures Halfway(huff, bs, [], [], bs) && Value([]) == 0
  {
    TilesShaped(huff);
    hide Tiles;
    assert [] + bs == bs;
    NothingStarts(huff);
    hide Huffman.Decode;
    PrependNothing(Huffman.Decode(huff, bs));
  }

  lemma PrependNothing(t: Text)
    ensures Prepend([], t) == t
  {
    if t.Text? {
      assert [] + t.symbols == t.symbols;
    }
  }

  lemma EmptyValue()
    ensures Value([]) == 0
  {
  }

  lemma NextByte(src: seq<byte>, i: nat)
    requires i < |src|
    ensures AllBits(src[i..]) == Bits(src[i], 8) + AllBits(src[i + 1..])
  {
    assert src[i..][1..] == src[i + 1..];
  }

  lemma NoBitsLeft(src: seq<byte>, i: nat)
    requires i < |src|
    ensures Bits(src[i], 0) + AllBits(src[i + 1..]) == AllBits(src[i + 1..])
  {
    hide AllBits;
    assert Bits(src[i], 0) == [];
    assert [] + AllBits(src[i + 1..]) == AllBits(src[i + 1..]);
  }

  lemma HalfwayFacts(huff: seq<Code>, bs: seq<bit>, s: seq<nat>, p: seq<bit>, rest: seq<bit>)
    requires Tiles(huff) && Halfway(huff, bs, s, p, rest)
    ensures |huff| == 257 && AllShaped(huff) && IsText(s) && !Starts(huff, p) && |p| < 30
  {
  }

  lemma MissStep(huff: seq<Code>, bs: seq<bit>, s: seq<nat>, p: seq<bit>, b: bit, rest: seq<bit>, q: seq<bit>)
    requires Tiles(huff) && Halfway(huff, bs, s, p, [b] + rest) && q == p + [b] && |q| < 30
    requires |huff| == 257 && AllShaped(huff) && !Starts(huff, q)
    ensures Halfway(huff, bs, s, q, rest)
  {
    hide Tiles, Huffman.Decode, Encode, Starts;
    assert p + ([b] + rest) == q + rest;
  }

  lemma Refused(huff: seq<Code>, bs: seq<bit>, s: seq<nat>, p: seq<bit>, b: bit, rest: seq<bit>, q: seq<bit>)
    requires Tiles(huff) && Halfway(huff, bs, s, p, [b] + rest) && q == p + [b] && |q| == 30
    requires |huff| == 257 && AllShaped(huff) && !Starts(huff, q)
    ensures Huffman.Decode(huff, bs) == NoText
  {
    hide Tiles, Huffman.Decode, Encode, Starts;
    assert p + ([b] + rest) == q + rest;
    TooLong(huff, q, rest);
  }

  lemma Overflow(huff: seq<Code>, bs: seq<bit>, s: seq<nat>, rest: seq<bit>)
    requires Tiles(huff) && Halfway(huff, bs, s, [], rest)
    ensures forall t: seq<nat> :: Huffman.Decode(huff, bs) == Text(t) ==> |t| >= |s|
  {
    hide Tiles, Huffman.Decode, Encode, Starts;
  }

  /** With no bits to come, what is pending decides. */
  lemma Ending(huff: seq<Code>, bs: seq<bit>, s: seq<nat>, p: seq<bit>, src: seq<byte>, i: nat)
    requires Tiles(huff) && i == |src| && Halfway(huff, bs, s, p, AllBits(src[i..]))
    ensures Huffman.Decode(huff, bs) == if |p| <= 7 && p == Ones(|p|) then Text(s) else NoText
  {
    TilesShaped(huff);
    hide Tiles;
    assert AllBits(src[i..]) == [];
    assert p + [] == p;
    assert s + [] == s;
  }

  lemma OnesIff(p: seq<bit>)
    ensures Value(p) == Pow2(|p|) - 1 <==> p == Ones(|p|)
    ensures p == [] ==> p == Ones(0)
  {
    hide Pow2, Value, Bits;
    OnesValue(|p|);
    BitsValue(p);
    BitsValue(Ones(|p|));
  }
}
