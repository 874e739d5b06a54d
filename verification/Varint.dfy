/**
 Variable-length integers of section 16 of RFC 9000, as the engine encodes them and decodes
 them, whole or byte by byte.
 */
module Varint {

  type byte = x: int | 0 <= x < 256

  const MaxValue: nat := 0x3fff_ffff_ffff_ffff

  /** The length announced by the top two bits of the first byte. */
  function LenFromFirst(b: byte): (n: nat)
    ensures n == 1 || n == 2 || n == 4 || n == 8
  {
    if b < 64 then 1 else if b < 128 then 2 else if b < 192 then 4 else 8
  }

  /** Big-endian accumulation onto `acc`. */
  function Fold(acc: nat, bs: seq<byte>): nat {
    if bs == [] then acc else Fold(acc, bs[..|bs| - 1]) * 256 + bs[|bs| - 1]
  }

  datatype Decoded = Decoded(value: nat, length: nat) | Incomplete

  /** Decode one integer from the front of a buffer. */
  function Decode(bs: seq<byte>): (r: Decoded)
    ensures r.Decoded? ==> 1 <= r.length <= |bs| && r.length <= 8
  {
    if bs == [] || |bs| < LenFromFirst(bs[0]) then Incomplete
    else
      var n := LenFromFirst(bs[0]);
      Decoded(Fold(bs[0] % 64, bs[1..n]), n)
  }

  // ---------------------------------------------------------------- byte by byte

  /** `need` is zero until the first byte arrives. */
  datatype Partial = Partial(acc: nat, need: nat, have: nat)

  const Start := Partial(0, 0, 0)

  predicate Complete(p: Partial) {
    p.need > 0 && p.have == p.need
  }

  function Step(p: Partial, b: byte): Partial {
    if p.need == 0 then Partial(b % 64, LenFromFirst(b), 1)
    else p.(acc := p.acc * 256 + b, have := p.have + 1)
  }

  function Steps(p: Partial, bs: seq<byte>): Partial {
    if bs == [] then p else Step(Steps(p, bs[..|bs| - 1]), bs[|bs| - 1])
  }

  /** A decoder between two bytes. */
  predicate Waiting(p: Partial) {
    p == Start || (1 <= p.have < p.need <= 8 && p.acc < Bound(p.have))
  }

  /** What `have` bytes can hold, two bits being the length. */
  function Bound(have: nat): nat
    requires 1 <= have <= 8
  {
    if have == 1 then 0x40 else if have == 2 then 0x4000 else if have == 3 then 0x40_0000
    else if have == 4 then 0x4000_0000 else if have == 5 then 0x40_0000_0000
    else if have == 6 then 0x4000_0000_0000 else if have == 7 then 0x40_0000_0000_0000 else 0x4000_0000_0000_0000
  }

  /** What the bytes taken so far add up to. */
  lemma {:induction false} StepsValue(p: Partial, bs: seq<byte>)
    requires p.need > 0
    ensures Steps(p, bs) == p.(acc := Fold(p.acc, bs), have := p.have + |bs|)
  {
    if bs != [] {
      StepsValue(p, bs[..|bs| - 1]);
    }
  }

  lemma {:induction false} StepsConcat(p: Partial, a: seq<byte>, b: seq<byte>)
    ensures Steps(p, a + b) == Steps(Steps(p, a), b)
  {
    if b == [] {
      assert a + b == a;
    } else {
      var n := |b| - 1;
      StepsConcat(p, a, b[..n]);
      assert (a + b)[..|a + b| - 1] == a + b[..n];
    }
  }

  /** The first byte decides the length, the others only add to the value. */
  lemma StepsFromStart(bs: seq<byte>)
    requires bs != []
    ensures Steps(Start, bs) == Partial(Fold(bs[0] % 64, bs[1..]), LenFromFirst(bs[0]), |bs|)
  {
    assert bs == bs[..1] + bs[1..] && bs[..1] == [bs[0]];
    StepsConcat(Start, bs[..1], bs[1..]);
    assert bs[..1][..0] == [];
    assert Steps(Start, bs[..1]) == Step(Start, bs[0]);
    StepsValue(Step(Start, bs[0]), bs[1..]);
  }

  /** Taking the bytes of a whole integer one by one decodes it; fewer leave the decoder waiting. */
  lemma StepsDecode(bs: seq<byte>, k: nat)
    requires k <= |bs|
    ensures Decode(bs).Decoded? && k == Decode(bs).length ==>
      Complete(Steps(Start, bs[..k])) && Steps(Start, bs[..k]).acc == Decode(bs).value
    ensures Decode(bs).Decoded? && k < Decode(bs).length ==> !Complete(Steps(Start, bs[..k]))
    ensures Decode(bs).Incomplete? ==> !Complete(Steps(Start, bs[..k]))
  {
    if k > 0 {
      StepsFromStart(bs[..k]);
      assert bs[..k][1..] == bs[1..k];
    }
  }

  /** The incremental decoder, fed with buffers of any size. */
  class Decoder {
    var acc: nat
    var need: nat
    var have: nat

    ghost function View(): Partial
      reads this
    {
      Partial(acc, need, have)
    }

    ghost predicate Valid()
      reads this
    {
      Waiting(View())
    }

    constructor ()
      ensures View() == Start && Valid()
    {
      acc, need, have := 0, 0, 0;
    }

    method Reset()
      modifies this
      ensures View() == Start && Valid()
    {
      acc, need, have := 0, 0, 0;
    }

    /**
     Take bytes until one integer is complete. The accumulator never leaves 62 bits, so the
     64-bit shift cannot lose any.
     */
    method Feed(src: seq<byte>) returns (done: bool, value: nat, consumed: nat)
      requires Valid()
      modifies this
      ensures Valid() && consumed <= |src|
      ensures forall k :: 0 <= k < consumed ==> !Complete(Steps(old(View()), src[..k]))
      ensures !done ==>
        consumed == |src| && View() == Steps(old(View()), src) && !Complete(View())
      ensures done ==>
        0 < consumed && Complete(Steps(old(View()), src[..consumed])) && View() == Start &&
        value == Steps(old(View()), src[..consumed]).acc && value <= MaxValue
    {
      ghost var before := View();
      consumed := 0;
      value := 0;
      assert src[..0] == [];
      if need == 0 {
        if |src| == 0 {
          return false, 0, 0;
        }
        need := LenFromFirst(src[0]);
        acc := src[0] % 64;
        have := 1;
        consumed := 1;
        assert src[..1][..0] == [];
      }
      while have < need && consumed < |src|
        invariant consumed <= |src| && View() == Steps(before, src[..consumed])
        invariant 1 <= have <= need <= 8 && acc < Bound(have) && (consumed == 0 ==> have < need)
        invariant forall k :: 0 <= k < consumed ==> !Complete(Steps(before, src[..k]))
      {
        assert src[..consumed + 1][..consumed] == src[..consumed];
        acc := acc * 256 + src[consumed];
        have := have + 1;
        consumed := consumed + 1;
      }
      if have < need {
        assert src[..consumed] == src;
        return false, 0, consumed;
      }
      value := acc;
      acc, need, have := 0, 0, 0;
      return true, value, consumed;
    }
  }

  // ---------------------------------------------------------------- encoding

  /** The shortest length that holds the value; zero when none does. */
  function Length(v: nat): (n: nat)
    ensures n == 0 <==> v > MaxValue
  {
    if v < 0x40 then 1 else if v < 0x4000 then 2 else if v < 0x4000_0000 then 4 else if v <= MaxValue then 8 else 0
  }

  function BigEndian(v: nat, n: nat): (bs: seq<byte>)
    ensures |bs| == n
  {
    if n == 0 then [] else BigEndian(v / 256, n - 1) + [v % 256]
  }

  function Pow256(n: nat): (d: nat)
    ensures d > 0
  {
    if n == 0 then 1 else 256 * Pow256(n - 1)
  }

  function Tag(n: nat): nat {
    if n == 1 then 0 else if n == 2 then 1 else if n == 4 then 2 else 3
  }

  /** `v` written in `n` bytes, shortest or not. */
  function Form(v: nat, n: nat): (bs: seq<byte>)
    requires n == 1 || n == 2 || n == 4 || n == 8
    requires v < 64 * Pow256(n - 1)
    ensures |bs| == n
  {
    [TopByte(v, n)] + BigEndian(v % Pow256(n - 1), n - 1)
  }

  function TopByte(v: nat, n: nat): byte
    requires n == 1 || n == 2 || n == 4 || n == 8
    requires v < 64 * Pow256(n - 1)
  {
    TopDigit(v, Pow256(n - 1));
    Tag(n) * 64 + v / Pow256(n - 1)
  }

  lemma TopDigit(v: nat, d: nat)
    requires v < 64 * d && d > 0
    ensures v / d < 64
  {
    var q := v / d;
    assert v == d * q + v % d;
    assert q >= 64 ==> d * q >= d * 64;
  }

  lemma Regroup(acc: nat, d: nat, v: nat)
    requires v < 256 * d
    ensures (acc * d + v / 256) * 256 + v % 256 == acc * (256 * d) + v
    ensures v / 256 < d
  {
  }

  lemma {:induction false} FoldBigEndian(acc: nat, v: nat, n: nat)
    requires v < Pow256(n)
    ensures Fold(acc, BigEndian(v, n)) == acc * Pow256(n) + v
  {
    if n > 0 {
      Regroup(acc, Pow256(n - 1), v);
      FoldBigEndian(acc, v / 256, n - 1);
      var bs := BigEndian(v, n);
      assert bs[..n - 1] == BigEndian(v / 256, n - 1) && bs[n - 1] == v % 256;
      assert Fold(acc, bs) == Fold(acc, bs[..n - 1]) * 256 + bs[n - 1];
    }
  }

  lemma TagReads(n: nat, q: nat)
    requires (n == 1 || n == 2 || n == 4 || n == 8) && q < 64
    ensures LenFromFirst(Tag(n) * 64 + q) == n && (Tag(n) * 64 + q) % 64 == q
  {
  }

  lemma DivMod(v: nat, d: nat)
    requires d > 0
    ensures v == (v / d) * d + v % d && 0 <= v % d < d
  {
  }

  /** Every form of a value, shortest or not, decodes to that value, whatever follows it. */
  lemma FormDecodes(v: nat, n: nat, rest: seq<byte>)
    requires n == 1 || n == 2 || n == 4 || n == 8
    requires v < 64 * Pow256(n - 1)
    ensures Decode(Form(v, n) + rest) == Decoded(v, n)
  {
    hide BigEndian, Pow256, Fold, LenFromFirst, Tag, Decode;
    var d := Pow256(n - 1);
    TopDigit(v, d);
    DivMod(v, d);
    var q, r := v / d, v % d;
    TagReads(n, q);
    FoldBigEndian(q, r, n - 1);
    assert TopByte(v, n) == Tag(n) * 64 + q;
    hide TopByte;
    DecodeParts(TopByte(v, n), BigEndian(r, n - 1), rest);
  }

  lemma DecodeParts(top: byte, tail: seq<byte>, rest: seq<byte>)
    requires |tail| + 1 == LenFromFirst(top)
    ensures Decode([top] + tail + rest) == Decoded(Fold(top % 64, tail), |tail| + 1)
  {
    var bs := [top] + tail + rest;
    assert bs[0] == top && bs[1..|tail| + 1] == tail;
  }

  lemma {:induction false} FoldSplit(acc: nat, bs: seq<byte>)
    ensures BigEndian(Fold(acc, bs) % Pow256(|bs|), |bs|) == bs && Fold(acc, bs) / Pow256(|bs|) == acc
    ensures Pow256(|bs|) > 0
  {
    var n := |bs|;
    if n > 0 {
      var m := n - 1;
      FoldSplit(acc, bs[..m]);
      var v := Fold(acc, bs[..m]);
      var d := Pow256(m);
      DigitsOf(v, d, bs[m]);
      assert BigEndian(Fold(acc, bs) % Pow256(n), n) == BigEndian(v % d, m) + [bs[m]];
      assert bs == bs[..m] + [bs[m]];
    }
  }

  lemma DigitsOf(v: nat, d: nat, b: byte)
    requires d > 0
    ensures (v * 256 + b) % (256 * d) == (v % d) * 256 + b
    ensures (v * 256 + b) / (256 * d) == v / d
    ensures ((v * 256 + b) % (256 * d)) / 256 == v % d && ((v * 256 + b) % (256 * d)) % 256 == b
  {
    var q, r := v / d, v % d;
    assert v == d * q + r;
    assert v * 256 + b == (256 * d) * q + (r * 256 + b);
    assert r * 256 + b < 256 * d;
    DivisionIsUnique(v * 256 + b, 256 * d, q, r * 256 + b);
  }

  lemma DivisionIsUnique(x: nat, d: nat, q: nat, r: nat)
    requires d > 0 && x == d * q + r && r < d
    ensures x / d == q && x % d == r
  {
    var q' := x / d;
    assert x == d * q' + x % d;
    assert q' > q ==> d * q' >= d * (q + 1);
    assert q' < q ==> d * q >= d * (q' + 1);
  }

  /** What is decoded was written: the bytes of a decoded integer are a form of its value. */
  lemma DecodedIsForm(bs: seq<byte>)
    requires Decode(bs).Decoded?
    ensures var r := Decode(bs);
      (r.length == 1 || r.length == 2 || r.length == 4 || r.length == 8) && r.value < 64 * Pow256(r.length - 1) &&
      bs[..r.length] == Form(r.value, r.length)
  {
    var n := LenFromFirst(bs[0]);
    var top := bs[0] % 64;
    var d := Pow256(n - 1);
    var tail := bs[1..n];
    var v := Fold(top, tail);
    FoldSplit(top, tail);
    DivMod(v, d);
    assert Tag(n) * 64 + top == bs[0];
    assert bs[..n] == [bs[0]] + tail;
    hide Pow256, Fold, BigEndian;
    Below(top, d, v);
    assert Form(v, n) == [bs[0]] + tail;
  }

  lemma Below(top: nat, d: nat, v: nat)
    requires top < 64 && d > 0 && top * d <= v < top * d + d
    ensures v < 64 * d
  {
    assert (top + 1) * d <= 64 * d;
  }
}
