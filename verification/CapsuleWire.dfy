/**
 Writing capsules, and reading back what was written: the encoders fill a caller's buffer with
 the wire form of a capsule, and any concatenation of wire forms decodes to what went in.
 */
module CapsuleWire {
  import opened Varint
  import opened FrameHeader
  import opened Capsules

  // ---------------------------------------------------------------- wire forms

  predicate IsLength(n: nat) {
    n == 1 || n == 2 || n == 4 || n == 8
  }

  /** A capsule on the wire; the two integers of its header may be longer than necessary. */
  datatype Item = Item(typ: nat, typLen: nat, lengthLen: nat, payload: seq<byte>)

  predicate Writable(x: Item) {
    IsLength(x.typLen) && x.typ < 64 * Pow256(x.typLen - 1) &&
    IsLength(x.lengthLen) && |x.payload| < 64 * Pow256(x.lengthLen - 1)
  }

  function Wire(x: Item): seq<byte>
    requires Writable(x)
  {
    Form(x.typ, x.typLen) + (Form(|x.payload|, x.lengthLen) + x.payload)
  }

  predicate WellFormed(x: Item) {
    Classify(x.typ, |x.payload|).Some?
  }

  /** What a well-formed capsule says. */
  function Meaning(x: Item): Capsule
    requires WellFormed(x)
  {
    Content(Classify(x.typ, |x.payload|).value, Header(x.typ, |x.payload|, x.typLen + x.lengthLen), x.payload)
  }

  function Wires(xs: seq<Item>): seq<byte>
    requires forall x <- xs :: Writable(x)
  {
    if xs == [] then [] else Wire(xs[0]) + Wires(xs[1..])
  }

  function Meanings(xs: seq<Item>): seq<Capsule>
    requires forall x <- xs :: WellFormed(x)
  {
    if xs == [] then [] else [Meaning(xs[0])] + Meanings(xs[1..])
  }

  lemma WireHeader(x: Item, rest: seq<byte>)
    requires Writable(x)
    ensures ParseHeader(Wire(x) + rest) == Header(x.typ, |x.payload|, x.typLen + x.lengthLen)
    ensures |Wire(x)| == x.typLen + x.lengthLen + |x.payload|
    ensures (Wire(x) + rest)[x.typLen + x.lengthLen..|Wire(x)|] == x.payload
  {
    hide Form, Decode, Pow256;
    var bs := Wire(x) + rest;
    var tail := Form(|x.payload|, x.lengthLen) + (x.payload + rest);
    assert bs == Form(x.typ, x.typLen) + tail;
    FormDecodes(x.typ, x.typLen, tail);
    assert bs[x.typLen..] == tail;
    FormDecodes(|x.payload|, x.lengthLen, x.payload + rest);
  }

  /** A well-formed capsule is read back, whatever follows it. */
  lemma WireParses(x: Item, rest: seq<byte>)
    requires Writable(x) && WellFormed(x)
    ensures Parse(Wire(x) + rest).capsules == [Meaning(x)] + Parse(rest).capsules
    ensures Parse(Wire(x) + rest).ending == Parse(rest).ending
  {
    hide Wire, Writable, Content, ParseHeader;
    WireHeader(x, rest);
    var bs := Wire(x) + rest;
    assert bs[|Wire(x)|..] == rest;
  }

  /** A known capsule of impossible length stops the decoder, whatever follows it. */
  lemma BadWireParses(x: Item, rest: seq<byte>)
    requires Writable(x) && !WellFormed(x)
    ensures Parse(Wire(x) + rest).capsules == [] && Parse(Wire(x) + rest).ending == Malformed
  {
    WireHeader(x, rest);
  }

  /** Any concatenation of well-formed capsules decodes to that list. */
  lemma {:induction false} RoundTrip(xs: seq<Item>)
    requires forall x <- xs :: Writable(x) && WellFormed(x)
    ensures Parse(Wires(xs)).capsules == Meanings(xs) && Parse(Wires(xs)).ending == More
  {
    if xs != [] {
      RoundTrip(xs[1..]);
      hide Parse;
      WireParses(xs[0], Wires(xs[1..]));
    }
  }

  /** The header that is read was written: its bytes are the forms of its two integers. */
  lemma HeaderIsWritten(bs: seq<byte>) returns (x: Item)
    requires ParseHeader(bs).Header? && |bs| >= ParseHeader(bs).bytes + ParseHeader(bs).length
    ensures var h := ParseHeader(bs); var n := h.bytes + h.length;
      Writable(x) && x.typ == h.typ && x.payload == bs[h.bytes..n] && x.typLen + x.lengthLen == h.bytes && bs[..n] == Wire(x)
  {
    hide Form, Decode, Pow256;
    var h := ParseHeader(bs);
    var n := h.bytes + h.length;
    var tl := Decode(bs).length;
    DecodedIsForm(bs);
    DecodedIsForm(bs[tl..]);
    hide ParseHeader;
    x := Item(h.typ, tl, h.bytes - tl, bs[h.bytes..n]);
    assert bs[tl..][..h.bytes - tl] == bs[tl..h.bytes];
    Three(bs, tl, h.bytes, n);
  }

  lemma Three(bs: seq<byte>, a: nat, b: nat, c: nat)
    requires a <= b <= c <= |bs|
    ensures bs[..c] == bs[..a] + (bs[a..b] + bs[b..c])
  {
  }

  /**
   The decoder reads exactly the capsules there are: every byte string is a concatenation of
   well-formed capsules, which it reports in order, and a rest in which it finds none.
   */
  lemma {:induction false} ParsedIsWritten(bs: seq<byte>) returns (xs: seq<Item>, rest: seq<byte>)
    ensures forall x <- xs :: Writable(x) && WellFormed(x)
    ensures bs == Wires(xs) + rest && Parse(bs).capsules == Meanings(xs)
    ensures Parse(rest).capsules == [] && Parse(rest).ending == Parse(bs).ending
    decreases |bs|
  {
    hide Wire, Writable, ParseHeader;
    var h := ParseHeader(bs);
    if h.Header? && Classify(h.typ, h.length).Some? && |bs| >= h.bytes + h.length {
      var n := h.bytes + h.length;
      var x := HeaderIsWritten(bs);
      var more, tail := ParsedIsWritten(bs[n..]);
      xs, rest := [x] + more, tail;
      assert xs[1..] == more;
      assert bs == bs[..n] + bs[n..];
      assert Wires(xs) + rest == Wire(x) + (Wires(more) + rest);
    } else {
      xs, rest := [], bs;
      assert [] + bs == bs;
    }
  }

  /** The capsule types this codec knows, with the payloads they may have: 4 to 1028 bytes, and none. */
  predicate Possible(x: Item) {
    (x.typ == 0x2843 ==> 4 <= |x.payload| <= 1028) && (x.typ == 0x78ae ==> x.payload == [])
  }

  function Word(a: nat, b: nat, c: nat, d: nat): nat {
    0x100_0000 * a + 0x1_0000 * b + 0x100 * c + d
  }

  /** A close capsule says a 32-bit code, most significant byte first, and a reason; others say nothing more. */
  predicate Says(x: Item, c: Capsule) {
    c.typ == x.typ && c.length == |x.payload| && c.headerLen == x.typLen + x.lengthLen &&
    if x.typ == 0x2843
    then c.kind == CloseKind && |x.payload| >= 4 && c.reason == x.payload[4..] &&
         c.code == Word(x.payload[0], x.payload[1], x.payload[2], x.payload[3])
    else c.kind == (if x.typ == 0x78ae then DrainKind else UnknownKind) && c.code == 0 && c.reason == []
  }

  /**
   What is accepted, by type and length. A capsule at the front of a buffer is malformed exactly
   when it is a close or a drain of impossible length; any other is reported as what it says, one
   of unknown type as skipped, and the rest of the buffer is read after it.
   */
  lemma AcceptedByType(x: Item, rest: seq<byte>)
    requires Writable(x)
    ensures var p, q := Parse(Wire(x) + rest), Parse(rest);
            if Possible(x)
            then |p.capsules| == 1 + |q.capsules| && Says(x, p.capsules[0]) && p.capsules[1..] == q.capsules && p.ending == q.ending
            else p.capsules == [] && p.ending == Malformed
  {
    TypesMean(x);
    if WellFormed(x) {
      WireParses(x, rest);
    } else {
      BadWireParses(x, rest);
    }
    hide Parse, Wire, Content, Classify;
  }

  lemma TypesMean(x: Item)
    ensures WellFormed(x) <==> Possible(x)
    ensures WellFormed(x) ==> Says(x, Meaning(x))
  {
    if x.typ == 0x2843 && |x.payload| >= 4 {
      FourBytes(x.payload[..4]);
    }
  }

  lemma FourBytes(bs: seq<byte>)
    requires |bs| == 4
    ensures Fold(0, bs) == Word(bs[0], bs[1], bs[2], bs[3])
  {
    assert bs[..3][..2] == bs[..2] && bs[..2][..1] == bs[..1] && bs[..1][..0] == [];
    assert Fold(0, bs[..1]) == bs[0];
    assert Fold(0, bs[..2]) == Word(0, 0, bs[0], bs[1]);
    assert Fold(0, bs[..3]) == Word(0, bs[0], bs[1], bs[2]);
  }

  // ---------------------------------------------------------------- the encoders

  function CloseItem(code: nat, reason: seq<byte>): Item {
    Item(CloseType, 2, Length(4 + |reason|), BigEndian(code, 4) + reason)
  }

  const DrainItem := Item(DrainType, 4, 1, [])

  lemma CloseIsWritable(code: nat, reason: seq<byte>)
    requires |reason| <= MaxReason
    ensures Writable(CloseItem(code, reason)) && WellFormed(CloseItem(code, reason))
  {
    assert Pow256(1) == 256 && Pow256(0) == 1;
  }

  lemma DrainIsWritable()
    ensures Writable(DrainItem) && WellFormed(DrainItem)
  {
    assert Pow256(1) == 256 && Pow256(2) == 0x1_0000 && Pow256(3) == 0x100_0000;
  }

  /** The five bytes of a drain capsule. */
  lemma DrainBytes()
    requires Writable(DrainItem)
    ensures Wire(DrainItem) == [0x80, 0x00, 0x78, 0xae, 0x00]
  {
    assert Pow256(0) == 1 && Pow256(1) == 256 && Pow256(2) == 0x1_0000 && Pow256(3) == 0x100_0000;
    assert BigEndian(DrainType, 4) == [0, 0, 0x78, 0xae] by {
      CodeDigits(DrainType);
    }
    assert BigEndian(0, 1) == [0] by {
      DigitAt(0, 1, 0);
    }
  }

  /** A close capsule brings back its code and its reason; a drain capsule is empty. */
  lemma CloseMeans(code: nat, reason: seq<byte>)
    requires |reason| <= MaxReason && code < 0x1_0000_0000
    ensures WellFormed(CloseItem(code, reason))
    ensures var c := Meaning(CloseItem(code, reason));
      c.kind == CloseKind && c.code == code && c.reason == reason && |c.reason| <= MaxReason
  {
    CloseIsWritable(code, reason);
    assert Pow256(4) == 0x1_0000_0000 by {
      assert Pow256(1) == 256 && Pow256(2) == 0x1_0000 && Pow256(3) == 0x100_0000;
    }
    FoldBigEndian(0, code, 4);
    var payload := BigEndian(code, 4) + reason;
    assert payload[..4] == BigEndian(code, 4) && payload[4..] == reason;
  }

  datatype EncodeStatus = Encoded | NoBuffer | OutOfRange

  lemma {:induction false} DigitAt(v: nat, n: nat, i: nat)
    requires i < n
    ensures BigEndian(v, n)[i] == v / Pow256(n - 1 - i) % 256
  {
    if i < n - 1 {
      DigitAt(v / 256, n - 1, i);
      var d := Pow256(n - 2 - i);
      hide Pow256, BigEndian;
      DivDiv(v, d);
      assert Pow256(n - 1 - i) == 256 * d;
      assert BigEndian(v, n)[i] == BigEndian(v / 256, n - 1)[i];
    }
  }

  lemma DivDiv(v: nat, d: nat)
    requires d > 0
    ensures v / 256 / d == v / (256 * d)
  {
    var q, r := v / 256 / d, v / 256 % d;
    assert v / 256 == d * q + r;
    assert v == 256 * (v / 256) + v % 256;
    assert v == (256 * d) * q + (256 * r + v % 256);
    assert 256 * r + v % 256 < 256 * d;
    DivisionIsUnique(v, 256 * d, q, 256 * r + v % 256);
  }

  /** The most significant digit comes first. */
  lemma {:induction false} BigEndianTop(v: nat, n: nat)
    requires n > 0
    ensures BigEndian(v, n) == [v / Pow256(n - 1) % 256] + BigEndian(v % Pow256(n - 1), n - 1)
  {
    if n == 1 {
      assert BigEndian(v / 256, 0) == [] && v / 1 == v;
    } else {
      var d := Pow256(n - 2);
      BigEndianTop(v / 256, n - 1);
      DigitsOf(v / 256, d, v % 256);
      DivDiv(v, d);
      assert BigEndian(v, n) == BigEndian(v / 256, n - 1) + [v % 256];
      assert BigEndian(v % (256 * d), n - 1) == BigEndian(v % (256 * d) / 256, n - 2) + [v % (256 * d) % 256];
    }
  }

  lemma FormIsBigEndian(v: nat, n: nat)
    requires IsLength(n) && v < 64 * Pow256(n - 1)
    ensures Form(v, n) == [Tag(n) * 64 + BigEndian(v, n)[0] % 64] + BigEndian(v, n)[1..]
  {
    hide Pow256, BigEndian, Tag;
    var d := Pow256(n - 1);
    TopDigit(v, d);
    BigEndianTop(v, n);
    var q := v / d;
    SmallTop(q);
    assert BigEndian(v, n)[0] == q && BigEndian(v, n)[1..] == BigEndian(v % d, n - 1);
    assert TopByte(v, n) == Tag(n) * 64 + q;
    hide TopByte;
  }

  lemma SmallTop(q: nat)
    requires q < 64
    ensures q % 256 == q && q % 64 == q
  {
  }

  lemma ShortestFits(v: nat)
    requires v <= MaxValue
    ensures IsLength(Length(v)) && v < 64 * Pow256(Length(v) - 1)
  {
    assert Pow256(1) == 256 && Pow256(2) == 0x1_0000 && Pow256(3) == 0x100_0000 && Pow256(4) == 0x1_0000_0000;
    assert Pow256(5) == 0x100_0000_0000 && Pow256(6) == 0x1_0000_0000_0000 && Pow256(7) == 0x100_0000_0000_0000;
  }

  /** Write the shortest form of `value` at `at`, shifting out one byte after the other. */
  method WriteVarint(value: nat, dst: array<byte>, at: nat) returns (n: nat)
    requires value <= MaxValue && at + Length(value) <= dst.Length
    modifies dst
    ensures n == Length(value) && IsLength(n) && value < 64 * Pow256(n - 1)
    ensures dst[at..at + n] == Form(value, n)
    ensures dst[..at] == old(dst[..at]) && dst[at + n..] == old(dst[at + n..])
  {
    hide Pow256, BigEndian, Form;
    n := Length(value);
    ShortestFits(value);
    var i := 0;
    while i < n
      invariant i <= n && forall k :: 0 <= k < i ==> dst[at + k] == BigEndian(value, n)[k]
      invariant forall k :: 0 <= k < dst.Length && !(at <= k < at + i) ==> dst[k] == old(dst[k])
    {
      DigitAt(value, n, i);
      dst[at + i] := value / Pow256(n - 1 - i) % 256;
      i := i + 1;
    }
    FormIsBigEndian(value, n);
    dst[at] := Tag(n) * 64 + dst[at] % 64;
    assert dst[at..at + n] == [Tag(n) * 64 + BigEndian(value, n)[0] % 64] + BigEndian(value, n)[1..];
  }

  /** Type and length; the buffer is left alone unless both fit. */
  method EncodeHeader(typ: nat, length: nat, dst: array<byte>, cap: nat) returns (status: EncodeStatus, n: nat)
    requires cap <= dst.Length
    modifies dst
    ensures status == OutOfRange <==> typ > MaxValue || length > MaxValue
    ensures status == NoBuffer <==> typ <= MaxValue && length <= MaxValue && cap < Length(typ) + Length(length)
    ensures status != Encoded ==> dst[..] == old(dst[..])
    ensures status == Encoded ==>
      n == Length(typ) + Length(length) <= cap && IsLength(Length(typ)) && IsLength(Length(length)) &&
      typ < 64 * Pow256(Length(typ) - 1) && length < 64 * Pow256(Length(length) - 1) &&
      dst[..n] == Form(typ, Length(typ)) + Form(length, Length(length)) && dst[n..] == old(dst[n..])
  {
    hide Form, Pow256;
    n := 0;
    if Length(typ) == 0 || Length(length) == 0 {
      return OutOfRange, 0;
    }
    if cap < Length(typ) + Length(length) {
      return NoBuffer, 0;
    }
    ghost var before := dst[..];
    var tl := WriteVarint(typ, dst, 0);
    ghost var middle := dst[..];
    assert middle[..tl] == dst[0..tl] && middle[tl..] == before[tl..];
    var ll := WriteVarint(length, dst, tl);
    n := tl + ll;
    assert dst[..tl] == middle[..tl];
    assert dst[..n] == dst[..tl] + dst[tl..n];
    assert dst[n..] == middle[n..] == before[n..];
    return Encoded, n;
  }

  method EncodeDrain(dst: array<byte>, cap: nat) returns (status: EncodeStatus, n: nat)
    requires cap <= dst.Length
    modifies dst
    ensures status == Encoded <==> cap >= 5
    ensures status != Encoded ==> status == NoBuffer && dst[..] == old(dst[..])
    ensures Writable(DrainItem)
    ensures status == Encoded ==> n == 5 && dst[..n] == Wire(DrainItem) && dst[n..] == old(dst[n..])
    ensures status == Encoded ==> dst[..5] == [0x80, 0x00, 0x78, 0xae, 0x00]
  {
    hide Form, Pow256;
    DrainIsWritable();
    DrainBytes();
    status, n := EncodeHeader(DrainType, 0, dst, cap);
    assert Form(0, 1) + [] == Form(0, 1);
  }

  method WriteCode(code: nat, dst: array<byte>, at: nat)
    requires at + 4 <= dst.Length
    modifies dst
    ensures dst[at..at + 4] == BigEndian(code, 4) && dst[..at] == old(dst[..at]) && dst[at + 4..] == old(dst[at + 4..])
  {
    hide BigEndian;
    CodeDigits(code);
    dst[at] := code / 0x100_0000 % 256;
    dst[at + 1] := code / 0x1_0000 % 256;
    dst[at + 2] := code / 0x100 % 256;
    dst[at + 3] := code % 256;
  }

  method WriteBytes(bs: seq<byte>, dst: array<byte>, at: nat)
    requires at + |bs| <= dst.Length
    modifies dst
    ensures dst[at..at + |bs|] == bs && dst[..at] == old(dst[..at]) && dst[at + |bs|..] == old(dst[at + |bs|..])
  {
    var i := 0;
    while i < |bs|
      invariant i <= |bs| && dst[at..at + i] == bs[..i] && dst[..at] == old(dst[..at])
      invariant dst[at + |bs|..] == old(dst[at + |bs|..])
    {
      dst[at + i] := bs[i];
      i := i + 1;
    }
    assert bs[..i] == bs;
  }

  /** A whole close capsule, or nothing at all. */
  method EncodeClose(code: nat, reason: seq<byte>, dst: array<byte>, cap: nat) returns (status: EncodeStatus, n: nat)
    requires code < 0x1_0000_0000 && cap <= dst.Length
    modifies dst
    ensures status == OutOfRange <==> |reason| > MaxReason
    ensures status == NoBuffer <==> |reason| <= MaxReason && cap < 2 + Length(4 + |reason|) + 4 + |reason|
    ensures status != Encoded ==> dst[..] == old(dst[..])
    ensures status == Encoded ==>
      Writable(CloseItem(code, reason)) && n == |Wire(CloseItem(code, reason))| <= cap &&
      dst[..n] == Wire(CloseItem(code, reason)) && dst[n..] == old(dst[n..])
  {
    hide Form, Pow256, BigEndian;
    n := 0;
    if |reason| > MaxReason {
      return OutOfRange, 0;
    }
    CloseIsWritable(code, reason);
    var payloadLen := 4 + |reason|;
    if cap < 2 + Length(payloadLen) + payloadLen {
      return NoBuffer, 0;
    }
    ghost var before := dst[..];
    var _, hl := EncodeHeader(CloseType, payloadLen, dst, cap);
    ghost var first := dst[..];
    WriteCode(code, dst, hl);
    ghost var second := dst[..];
    WriteBytes(reason, dst, hl + 4);
    n := hl + payloadLen;
    Pieces(before, first, second, dst[..], hl, BigEndian(code, 4), reason);
    return Encoded, n;
  }

  /** Three writes, one after the other. */
  lemma Pieces(before: seq<byte>, first: seq<byte>, second: seq<byte>, third: seq<byte>, hl: nat, code: seq<byte>, reason: seq<byte>)
    requires |before| == |first| == |second| == |third| && hl + |code| + |reason| <= |before|
    requires first[hl..] == before[hl..]
    requires second[..hl] == first[..hl] && second[hl..hl + |code|] == code && second[hl + |code|..] == first[hl + |code|..]
    requires var m := hl + |code|;
      third[..m] == second[..m] && third[m..m + |reason|] == reason && third[m + |reason|..] == second[m + |reason|..]
    ensures var n := hl + |code| + |reason|; third[..n] == first[..hl] + (code + reason) && third[n..] == before[n..]
  {
    var m := hl + |code|;
    var n := m + |reason|;
    assert third[..n] == third[..m] + third[m..n];
    assert third[..m] == second[..hl] + second[hl..m];
    assert third[n..] == second[m..][|reason|..] == first[hl..][|code| + |reason|..];
  }

  lemma CodeDigits(code: nat)
    ensures BigEndian(code, 4) == [code / 0x100_0000 % 256, code / 0x1_0000 % 256, code / 0x100 % 256, code % 256]
  {
    DigitAt(code, 4, 0);
    DigitAt(code, 4, 1);
    DigitAt(code, 4, 2);
    DigitAt(code, 4, 3);
    assert Pow256(0) == 1 && Pow256(1) == 256 && Pow256(2) == 0x1_0000 && Pow256(3) == 0x100_0000;
  }
}