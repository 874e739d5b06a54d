/**
 The capsule codec of the session stream (section 3.2 of RFC 9297 framing): close and drain
 capsules, and everything else skipped. A whole-buffer parser says what a byte string means;
 the incremental decoder, fed in any chunks, is proved to agree with it.
 */
module Capsules {
  import opened Varint
  import opened FrameHeader

  const CloseType: nat := 0x2843
  const DrainType: nat := 0x78ae
  const MaxReason: nat := 1024

  datatype Kind = CloseKind | DrainKind | UnknownKind

  datatype Capsule = Capsule(kind: Kind, typ: nat, length: nat, headerLen: nat, code: nat, reason: seq<byte>)

  datatype Option<T> = None | Some(value: T)

  /** What a header announces; nothing for a known capsule of impossible length. */
  function Classify(typ: nat, length: nat): Option<Kind> {
    if typ == CloseType then (if length < 4 || length > 4 + MaxReason then None else Some(CloseKind))
    else if typ == DrainType then (if length != 0 then None else Some(DrainKind))
    else Some(UnknownKind)
  }

  // ---------------------------------------------------------------- whole buffers

  /** What a header and its payload say. */
  function Content(kind: Kind, h: Header, payload: seq<byte>): (c: Capsule)
    requires h.Header? && |payload| == h.length && (kind == CloseKind ==> h.length >= 4)
    ensures kind == CloseKind && h.length <= 4 + MaxReason ==> |c.reason| <= MaxReason
  {
    if kind == CloseKind
    then Capsule(kind, h.typ, h.length, h.bytes, Fold(0, payload[..4]), payload[4..])
    else Capsule(kind, h.typ, h.length, h.bytes, 0, [])
  }

  datatype Ending = More | Malformed

  datatype Parsed = Parsed(capsules: seq<Capsule>, ending: Ending, consumed: nat)

  /** The capsules of a buffer, how it ends, and how much of it was looked at. */
  function Parse(bs: seq<byte>): (r: Parsed)
    ensures r.ending == More ==> r.consumed == |bs|
    ensures r.consumed <= |bs|
    decreases |bs|
  {
    var h := ParseHeader(bs);
    if h.NoHeader? then Parsed([], More, |bs|)
    else
      match Classify(h.typ, h.length)
      case None => Parsed([], Malformed, h.bytes)
      case Some(kind) =>
        var n := h.bytes + h.length;
        if |bs| < n then Parsed([], More, |bs|)
        else
          var rest := Parse(bs[n..]);
          Parsed([Content(kind, h, bs[h.bytes..n])] + rest.capsules, rest.ending, n + rest.consumed)
  }

  // ---------------------------------------------------------------- byte by byte

  /** What the incremental decoder remembers between two bytes. */
  datatype State =
    | InHeader(r: Reading)
    | InPayload(kind: Kind, typ: nat, length: nat, remaining: nat, headerLen: nat, code: nat, have: nat, reason: seq<byte>)
    | Poisoned

  const Fresh := InHeader(FreshHeader)

  /** The state after some bytes, and the capsules they completed. */
  datatype Stepped = Stepped(next: State, out: seq<Capsule>)

  function Begin(typ: nat, length: nat, bytes: nat): Stepped {
    match Classify(typ, length)
    case None => Stepped(Poisoned, [])
    case Some(kind) =>
      if length == 0 then Stepped(Fresh, [Capsule(kind, typ, 0, bytes, 0, [])])
      else Stepped(InPayload(kind, typ, length, length, bytes, 0, 0, []), [])
  }

  function Announced(h: Header): Stepped {
    if h.NoHeader? then Stepped(Poisoned, []) else Begin(h.typ, h.length, h.bytes)
  }

  function TakeByte(s: State, b: byte): State
    requires s.InPayload? && s.remaining > 0
  {
    var t := s.(remaining := s.remaining - 1);
    if s.kind != CloseKind then t
    else if s.have < 4 then t.(code := s.code * 256 + b, have := s.have + 1)
    else t.(reason := s.reason + [b])
  }

  function Emit(s: State): Capsule
    requires s.InPayload?
  {
    Capsule(s.kind, s.typ, s.length, s.headerLen, s.code, s.reason)
  }

  function StepByte(s: State, b: byte): Stepped {
    match s
    case InHeader(r) =>
      var a := HeaderStep(r, b);
      if a.Still? then Stepped(InHeader(a.r), []) else Announced(a.h)
    case InPayload(_, _, _, remaining, _, _, _, _) =>
      if remaining == 0 then Stepped(s, [])
      else
        var t := TakeByte(s, b);
        if t.remaining == 0 then Stepped(Fresh, [Emit(t)]) else Stepped(t, [])
    case Poisoned => Stepped(Poisoned, [])
  }

  function Run(s: State, bs: seq<byte>): Stepped {
    if bs == [] then Stepped(s, [])
    else
      var r := Run(s, bs[..|bs| - 1]);
      var last := StepByte(r.next, bs[|bs| - 1]);
      Stepped(last.next, r.out + last.out)
  }

  lemma {:induction false} RunConcat(s: State, a: seq<byte>, b: seq<byte>)
    ensures Run(s, a + b).next == Run(Run(s, a).next, b).next
    ensures Run(s, a + b).out == Run(s, a).out + Run(Run(s, a).next, b).out
  {
    hide StepByte;
    if b == [] {
      assert a + b == a;
    } else {
      var n := |b| - 1;
      RunConcat(s, a, b[..n]);
      assert (a + b)[..|a + b| - 1] == a + b[..n];
    }
  }

  /** Two feeds in a row are one. */
  lemma Join(s: State, src: seq<byte>, n: nat, c: nat, middle: State)
    requires n + c <= |src| && Run(s, src[..n]) == Stepped(middle, [])
    ensures Run(s, src[..n + c]) == Run(middle, src[n..][..c])
    ensures n + c == |src| ==> Run(s, src) == Run(middle, src[n..])
  {
    hide Run;
    RunConcat(s, src[..n], src[n..][..c]);
    assert src[..n] + src[n..][..c] == src[..n + c];
    assert n + c == |src| ==> src[..n + c] == src && src[n..][..c] == src[n..];
  }

  lemma {:induction false} PoisonStays(bs: seq<byte>)
    ensures Run(Poisoned, bs).next == Poisoned && Run(Poisoned, bs).out == []
  {
    if bs != [] {
      PoisonStays(bs[..|bs| - 1]);
    }
  }

  // ---------------------------------------------------------------- payloads

  function TakeBytes(s: State, bs: seq<byte>): (t: State)
    requires s.InPayload? && |bs| <= s.remaining
    ensures t.InPayload? && t.remaining == s.remaining - |bs|
  {
    if bs == [] then s else TakeByte(TakeBytes(s, bs[..|bs| - 1]), bs[|bs| - 1])
  }

  /** How many of `n` payload bytes still belong to the error code. */
  function CodeBytes(s: State, n: nat): nat
    requires s.InPayload?
  {
    if s.kind != CloseKind || s.have >= 4 then 0 else if n < 4 - s.have then n else 4 - s.have
  }

  /** The first four bytes of a close payload are its code, the others its reason. */
  lemma {:induction false} TakeShape(s: State, bs: seq<byte>)
    requires s.InPayload? && |bs| <= s.remaining && s.have <= 4 && s.kind == CloseKind
    ensures var k := CodeBytes(s, |bs|); var t := TakeBytes(s, bs);
      t == s.(remaining := s.remaining - |bs|, code := t.code, have := s.have + k, reason := t.reason) &&
      t.code == Fold(s.code, bs[..k]) && t.reason == s.reason + bs[k..]
  {
    if bs != [] {
      var n := |bs| - 1;
      TakeShape(s, bs[..n]);
      var j, k := CodeBytes(s, n), CodeBytes(s, |bs|);
      if j < k {
        assert j == n && k == n + 1 && bs[..k][..n] == bs[..n] && bs[..n][..j] == bs[..n];
        assert bs[..k][n] == bs[n];
      } else {
        assert bs[..n][..j] == bs[..j] && bs[..n][j..] + [bs[n]] == bs[j..];
      }
    }
  }

  lemma {:induction false} SkipShape(s: State, bs: seq<byte>)
    requires s.InPayload? && |bs| <= s.remaining && s.kind != CloseKind
    ensures TakeBytes(s, bs) == s.(remaining := s.remaining - |bs|)
  {
    if bs != [] {
      SkipShape(s, bs[..|bs| - 1]);
    }
  }

  lemma {:induction false} PayloadRun(s: State, bs: seq<byte>)
    requires s.InPayload? && |bs| <= s.remaining && 0 < s.remaining
    ensures |bs| < s.remaining ==> Run(s, bs) == Stepped(TakeBytes(s, bs), [])
    ensures |bs| == s.remaining ==> Run(s, bs) == Stepped(Fresh, [Emit(TakeBytes(s, bs))])
  {
    if bs != [] {
      PayloadRun(s, bs[..|bs| - 1]);
      hide TakeByte;
      assert forall x: seq<Capsule> :: [] + x == x;
    }
  }

  // ---------------------------------------------------------------- headers

  /** The decoder follows the header reader up to the byte that completes the header. */
  lemma {:induction false} HeaderRuns(r: Reading, bs: seq<byte>)
    requires bs == [] || HeaderSteps(r, bs[..|bs| - 1]).Still?
    ensures var a := HeaderSteps(r, bs);
      Run(InHeader(r), bs) == if a.Still? then Stepped(InHeader(a.r), []) else Announced(a.h)
    decreases |bs|
  {
    if bs != [] {
      var front := bs[..|bs| - 1];
      if front != [] {
        StillBefore(r, front, |front| - 1);
      }
      HeaderRuns(r, front);
      hide HeaderStep, Begin;
      assert forall x: seq<Capsule> :: [] + x == x;
    }
  }

  lemma HeaderRun(bs: seq<byte>)
    ensures ParseHeader(bs).NoHeader? ==> Run(Fresh, bs).next.InHeader? && Run(Fresh, bs).out == []
    ensures ParseHeader(bs).Header? ==>
      var h := ParseHeader(bs); Run(Fresh, bs[..h.bytes]) == Begin(h.typ, h.length, h.bytes)
  {
    hide HeaderSteps, ParseHeader, Run;
    HeaderIsParsed(bs);
    var h := ParseHeader(bs);
    if h.Header? {
      ShorterHasNoHeader(bs);
      HeaderIsParsed(bs[..h.bytes - 1]);
      assert bs[..h.bytes][..h.bytes - 1] == bs[..h.bytes - 1];
      HeaderRuns(FreshHeader, bs[..h.bytes]);
    } else {
      if bs != [] {
        StillBefore(FreshHeader, bs, |bs| - 1);
      }
      HeaderRuns(FreshHeader, bs);
    }
  }

  // ---------------------------------------------------------------- the two agree

  /** One whole capsule at the front of a buffer. */
  lemma CapsuleRun(bs: seq<byte>, kind: Kind)
    requires ParseHeader(bs).Header? && Classify(ParseHeader(bs).typ, ParseHeader(bs).length) == Some(kind)
    requires |bs| >= ParseHeader(bs).bytes + ParseHeader(bs).length
    ensures var h := ParseHeader(bs); var n := h.bytes + h.length;
      Run(Fresh, bs[..n]) == Stepped(Fresh, [Content(kind, h, bs[h.bytes..n])])
  {
    hide Run;
    var h := ParseHeader(bs);
    var n := h.bytes + h.length;
    HeaderRun(bs);
    hide ParseHeader;
    if h.length == 0 {
      assert bs[..n] == bs[..h.bytes];
    } else {
      var s := InPayload(kind, h.typ, h.length, h.length, h.bytes, 0, 0, []);
      assert Begin(h.typ, h.length, h.bytes) == Stepped(s, []) && (kind == CloseKind ==> h.length >= 4);
      hide Begin, Classify, Content, Emit, TakeBytes;
      var payload := bs[h.bytes..n];
      PayloadRun(s, payload);
      PayloadContent(s, h, payload);
      Join(Fresh, bs, h.bytes, h.length, s);
      assert bs[h.bytes..][..h.length] == payload;
    }
  }

  lemma PayloadContent(s: State, h: Header, payload: seq<byte>)
    requires h.Header? && |payload| == h.length && s.InPayload? && (s.kind == CloseKind ==> h.length >= 4)
    requires s == InPayload(s.kind, h.typ, h.length, h.length, h.bytes, 0, 0, [])
    ensures Emit(TakeBytes(s, payload)) == Content(s.kind, h, payload)
  {
    if s.kind == CloseKind {
      TakeShape(s, payload);
      assert [] + payload[4..] == payload[4..];
    } else {
      SkipShape(s, payload);
    }
  }

  /** A capsule whose payload has not all arrived. */
  lemma TruncatedRun(bs: seq<byte>, kind: Kind)
    requires ParseHeader(bs).Header? && Classify(ParseHeader(bs).typ, ParseHeader(bs).length) == Some(kind)
    requires |bs| < ParseHeader(bs).bytes + ParseHeader(bs).length
    ensures Run(Fresh, bs).next.InPayload? && Run(Fresh, bs).out == []
  {
    var h := ParseHeader(bs);
    HeaderRun(bs);
    hide Run, ParseHeader;
    var s := InPayload(kind, h.typ, h.length, h.length, h.bytes, 0, 0, []);
    PayloadRun(s, bs[h.bytes..]);
    RunConcat(Fresh, bs[..h.bytes], bs[h.bytes..]);
    assert bs[..h.bytes] + bs[h.bytes..] == bs;
  }

  /**
   For every byte string, the incremental decoder emits the capsules that the whole-buffer
   parser finds, and is poisoned exactly when the parser meets a malformed header.
   */
  lemma {:induction false} RunIsParse(bs: seq<byte>)
    ensures Run(Fresh, bs).out == Parse(bs).capsules
    ensures Run(Fresh, bs).next == Poisoned <==> Parse(bs).ending == Malformed
    decreases |bs|
  {
    var h := ParseHeader(bs);
    HeaderRun(bs);
    hide Run, ParseHeader;
    if h.Header? {
      match Classify(h.typ, h.length)
      case None =>
        RunConcat(Fresh, bs[..h.bytes], bs[h.bytes..]);
        assert bs[..h.bytes] + bs[h.bytes..] == bs;
        PoisonStays(bs[h.bytes..]);
      case Some(kind) =>
        var n := h.bytes + h.length;
        if |bs| < n {
          TruncatedRun(bs, kind);
        } else {
          CapsuleRun(bs, kind);
          RunConcat(Fresh, bs[..n], bs[n..]);
          assert bs[..n] + bs[n..] == bs;
          RunIsParse(bs[n..]);
        }
    }
  }

  // ---------------------------------------------------------------- the decoder

  lemma RunNothing(s: State, src: seq<byte>)
    ensures Run(s, src[..0]) == Stepped(s, [])
  {
  }

  datatype Status = Ok | NeedMore | Bad

  /** The decoder of the session stream. Only a close reason is ever buffered. */
  class CapsuleDecoder {
    const hdr: HeaderDecoder
    const reason: array<byte>
    var state: nat
    var kind: Kind
    var codeHave: nat
    var typ: nat
    var payloadLen: nat
    var remaining: nat
    var headerLen: nat
    var codeAcc: nat
    var reasonLen: nat

    ghost function View(): State
      requires reasonLen <= reason.Length
      reads this, hdr, hdr.vi, reason
    {
      if state == 0 then InHeader(hdr.View())
      else if state == 1 then InPayload(kind, typ, payloadLen, remaining, headerLen, codeAcc, codeHave, reason[..reasonLen])
      else Poisoned
    }

    /** The room for the rest of the payload, and that the code fits 32 bits. */
    ghost predicate PayloadOk()
      reads this, reason
    {
      remaining <= payloadLen && codeHave <= 4 && reason.Length == MaxReason && reasonLen <= MaxReason &&
      if kind == CloseKind
      then payloadLen <= 4 + MaxReason && codeHave + reasonLen + remaining == payloadLen && codeAcc < Pow256(codeHave) &&
           (reasonLen > 0 ==> codeHave == 4)
      else kind == UnknownKind && codeHave == 0 && codeAcc == 0 && reasonLen == 0
    }

    ghost predicate Valid()
      reads this, hdr, hdr.vi, reason
    {
      hdr.Valid() && reason.Length == MaxReason && reasonLen <= MaxReason && state <= 2 &&
      (state == 0 ==> codeAcc == 0 && reasonLen == 0 && codeHave == 0) &&
      (state == 1 ==> hdr.View() == FreshHeader && remaining > 0 && PayloadOk())
    }

    constructor ()
      ensures Valid() && View() == Fresh && fresh(hdr) && fresh(hdr.vi) && fresh(reason)
    {
      hdr := new HeaderDecoder();
      reason := new byte[MaxReason];
      state, kind, codeHave, typ, payloadLen := 0, UnknownKind, 0, 0, 0;
      remaining, headerLen, codeAcc, reasonLen := 0, 0, 0, 0;
    }

    /** Hand out the capsule and get ready for the next one. */
    method EmitCapsule() returns (out: Capsule)
      requires hdr.Valid() && reason.Length == MaxReason && reasonLen <= MaxReason
      modifies this, hdr, hdr.vi
      ensures Valid() && View() == Fresh
      ensures out == old(Capsule(kind, typ, payloadLen, headerLen, codeAcc, reason[..reasonLen]))
    {
      out := Capsule(kind, typ, payloadLen, headerLen, codeAcc, reason[..reasonLen]);
      hdr.Reset();
      state, kind, codeHave, typ, payloadLen := 0, UnknownKind, 0, 0, 0;
      remaining, headerLen, codeAcc, reasonLen := 0, 0, 0, 0;
    }

    /** The part of a close payload that belongs to the code. */
    method TakeCode(src: seq<byte>) returns (i: nat)
      requires codeHave <= 4 && codeAcc < Pow256(codeHave)
      modifies this`codeAcc, this`codeHave
      ensures i <= |src| && codeHave == old(codeHave) + i && codeHave <= 4 && (codeHave == 4 || i == |src|)
      ensures codeAcc == Fold(old(codeAcc), src[..i]) && codeAcc < Pow256(codeHave)
    {
      hide Fold, Pow256;
      i := 0;
      FoldNothing(codeAcc, src);
      while codeHave < 4 && i < |src|
        invariant i <= |src| && codeHave == old(codeHave) + i <= 4 && codeAcc == Fold(old(codeAcc), src[..i])
        invariant codeAcc < Pow256(codeHave)
      {
        FoldNext(old(codeAcc), src, i);
        PowNext(codeHave, codeAcc, src[i]);
        codeAcc := codeAcc * 256 + src[i];
        codeHave := codeHave + 1;
        i := i + 1;
      }
    }

    /** The part that belongs to the reason; there is room for it. */
    method TakeReason(src: seq<byte>, from: nat)
      requires from <= |src| && reason.Length == MaxReason && reasonLen + |src| - from <= MaxReason
      modifies this`reasonLen, reason
      ensures reasonLen == old(reasonLen) + |src| - from && reason[..reasonLen] == old(reason[..reasonLen]) + src[from..]
    {
      ghost var was := reason[..reasonLen];
      var i := from;
      assert src[from..from] == [] && was + [] == was;
      while i < |src|
        invariant from <= i <= |src| && reasonLen == old(reasonLen) + i - from
        invariant reason[..reasonLen] == was + src[from..i]
      {
        reason[reasonLen] := src[i];
        assert reason[..reasonLen + 1] == reason[..reasonLen] + [src[i]];
        assert src[from..i + 1] == src[from..i] + [src[i]];
        reasonLen := reasonLen + 1;
        i := i + 1;
      }
      assert src[from..i] == src[from..];
    }

    /** Take bytes that all belong to the payload. */
    method TakePayload(src: seq<byte>)
      requires state == 1 && PayloadOk() && |src| <= remaining
      modifies this`codeAcc, this`codeHave, this`reasonLen, this`remaining, reason
      ensures PayloadOk() && View() == TakeBytes(old(View()), src)
    {
      hide TakeBytes, Fold, Pow256;
      ghost var before := View();
      if kind == CloseKind {
        var i := TakeCode(src);
        assert i == CodeBytes(before, |src|);
        TakeReason(src, i);
        TakeShape(before, src);
      } else {
        SkipShape(before, src);
      }
      remaining := remaining - |src|;
    }

    /** Take the rest of the payload, or as much of it as there is. */
    method FeedPayload(src: seq<byte>) returns (status: Status, out: Capsule, consumed: nat)
      requires Valid() && state == 1
      modifies this, hdr, hdr.vi, reason
      ensures Valid() && consumed <= |src|
      ensures Run(old(View()), src[..consumed]) == Stepped(View(), if status == Ok then [out] else [])
      ensures status == Ok ==> View() == Fresh && consumed > 0 && |out.reason| <= MaxReason
      ensures status == NeedMore ==> consumed == |src| && View().InPayload?
      ensures status != Bad
    {
      hide Run, TakeBytes, Fold, Pow256;
      ghost var before := View();
      consumed := 0;
      out := Capsule(UnknownKind, 0, 0, 0, 0, []);
      TakeNothing(before, src);
      while remaining > 0 && consumed < |src|
        invariant consumed <= |src| && consumed <= before.remaining && state == 1 && PayloadOk()
        invariant hdr.Valid() && hdr.View() == FreshHeader
        invariant View() == TakeBytes(before, src[..consumed])
        decreases |src| - consumed
      {
        var avail := |src| - consumed;
        var take := if remaining < avail then remaining else avail;
        TakeMore(before, src, consumed, take);
        TakePayload(src[consumed..consumed + take]);
        consumed := consumed + take;
      }
      PayloadRun(before, src[..consumed]);
      if remaining > 0 {
        return NeedMore, out, consumed;
      }
      out := EmitCapsule();
      return Ok, out, consumed;
    }

    /** Take the header, and the capsule with it when it has no payload. */
    method FeedHeader(src: seq<byte>) returns (status: Status, out: Capsule, consumed: nat)
      requires Valid() && state == 0
      modifies this, hdr, hdr.vi
      ensures Valid() && consumed <= |src|
      ensures Run(old(View()), src[..consumed]) == Stepped(View(), if status == Ok then [out] else [])
      ensures status == Ok ==> View() == Fresh && consumed > 0 && out.reason == []
      ensures status == NeedMore ==> (state == 0 && consumed == |src|) || (state == 1 && consumed > 0)
      ensures status == Bad <==> View() == Poisoned
      ensures status == Bad ==> consumed > 0 && Run(old(View()), src[..consumed - 1]).next != Poisoned
    {
      hide Run, Fold, Waiting, HeaderSteps;
      out := Capsule(UnknownKind, 0, 0, 0, 0, []);
      ghost var r := hdr.View();
      var done, header, c := hdr.Feed(src);
      consumed := c;
      HeaderFed(r, src, c, done);
      if !done {
        return NeedMore, out, consumed;
      }
      typ, payloadLen, remaining, headerLen := header.typ, header.length, header.length, header.bytes;
      codeHave, codeAcc, reasonLen := 0, 0, 0;
      var k := Classify(typ, payloadLen);
      assert reason[..0] == [];
      if k.None? {
        state := 2;
        return Bad, out, consumed;
      }
      kind := k.value;
      if remaining == 0 {
        out := EmitCapsule();
        return Ok, out, consumed;
      }
      state := 1;
      return NeedMore, out, consumed;
    }

    /** Take bytes until a capsule is complete or found malformed. */
    method Feed(src: seq<byte>) returns (status: Status, out: Capsule, consumed: nat)
      requires Valid()
      modifies this, hdr, hdr.vi, reason
      ensures Valid() && consumed <= |src|
      ensures Run(old(View()), src[..consumed]) == Stepped(View(), if status == Ok then [out] else [])
      ensures status == Ok ==> View() == Fresh && consumed > 0 && |out.reason| <= MaxReason
      ensures status == NeedMore ==> consumed == |src|
      ensures status == Bad <==> View() == Poisoned
      ensures old(View()) == Poisoned ==> consumed == 0
      ensures old(View()) != Poisoned && status == Bad ==> consumed > 0 && Run(old(View()), src[..consumed - 1]).next != Poisoned
    {
      hide Run, Fold, Pow256, Waiting;
      ghost var before := View();
      RunNothing(before, src);
      if state == 2 {
        return Bad, Capsule(UnknownKind, 0, 0, 0, 0, []), 0;
      }
      consumed := 0;
      if state == 0 {
        status, out, consumed := FeedHeader(src);
        if status != NeedMore || state == 0 {
          return;
        }
      }
      ghost var middle := View();
      assert Run(before, src[..consumed]) == Stepped(middle, []);
      var c;
      status, out, c := FeedPayload(src[consumed..]);
      Join(before, src, consumed, c, middle);
      consumed := consumed + c;
    }
  }

  /** What a feed of the header reader does to the decoder. */
  lemma HeaderFed(r: Reading, src: seq<byte>, c: nat, done: bool)
    requires c <= |src|
    requires if done then c > 0 && HeaderSteps(r, src[..c - 1]).Still? && HeaderSteps(r, src[..c]).Got?
             else c == |src| && HeaderSteps(r, src).Still?
    ensures done ==>
      Run(InHeader(r), src[..c]) == Announced(HeaderSteps(r, src[..c]).h) && Run(InHeader(r), src[..c - 1]).next.InHeader?
    ensures !done ==> src[..c] == src && Run(InHeader(r), src) == Stepped(InHeader(HeaderSteps(r, src).r), [])
  {
    hide HeaderSteps, Run;
    if done {
      assert src[..c][..c - 1] == src[..c - 1];
      HeaderRuns(r, src[..c]);
      var less := src[..c - 1];
      if less != [] {
        StillBefore(r, less, |less| - 1);
      }
      HeaderRuns(r, less);
    } else {
      if src != [] {
        StillBefore(r, src, |src| - 1);
      }
      HeaderRuns(r, src);
    }
  }

  lemma FoldNothing(acc: nat, bs: seq<byte>)
    ensures Fold(acc, bs[..0]) == acc
  {
  }

  lemma FoldNext(acc: nat, bs: seq<byte>, i: nat)
    requires i < |bs|
    ensures Fold(acc, bs[..i + 1]) == Fold(acc, bs[..i]) * 256 + bs[i]
  {
    assert bs[..i + 1][..i] == bs[..i];
  }

  lemma PowNext(n: nat, v: nat, b: byte)
    requires v < Pow256(n)
    ensures v * 256 + b < Pow256(n + 1)
  {
  }

  lemma TakeNothing(s: State, src: seq<byte>)
    requires s.InPayload?
    ensures TakeBytes(s, src[..0]) == s
  {
  }

  lemma {:induction false} TakeConcat(s: State, a: seq<byte>, b: seq<byte>)
    requires s.InPayload? && |a| + |b| <= s.remaining
    ensures TakeBytes(s, a + b) == TakeBytes(TakeBytes(s, a), b)
  {
    hide TakeByte;
    if b == [] {
      assert a + b == a;
    } else {
      var n := |b| - 1;
      TakeConcat(s, a, b[..n]);
      assert (a + b)[..|a + b| - 1] == a + b[..n];
    }
  }

  lemma TakeMore(s: State, src: seq<byte>, n: nat, take: nat)
    requires s.InPayload? && n + take <= |src| && n + take <= s.remaining
    ensures TakeBytes(s, src[..n + take]) == TakeBytes(TakeBytes(s, src[..n]), src[n..n + take])
  {
    hide TakeBytes;
    TakeConcat(s, src[..n], src[n..n + take]);
    assert src[..n] + src[n..n + take] == src[..n + take];
  }

  // ---------------------------------------------------------------- any chunks

  /** How many bytes are looked at before the decoder is poisoned. */
  function Eaten(s: State, bs: seq<byte>): nat {
    if bs == [] then 0
    else
      var front := bs[..|bs| - 1];
      Eaten(s, front) + (if Run(s, front).next == Poisoned then 0 else 1)
  }

  lemma {:induction false} EatenConcat(s: State, a: seq<byte>, b: seq<byte>)
    ensures Eaten(s, a + b) == Eaten(s, a) + Eaten(Run(s, a).next, b)
  {
    hide Run;
    if b == [] {
      assert a + b == a;
    } else {
      var n := |b| - 1;
      EatenConcat(s, a, b[..n]);
      RunConcat(s, a, b[..n]);
      assert (a + b)[..|a + b| - 1] == a + b[..n];
    }
  }

  lemma {:induction false} EatenPoisoned(bs: seq<byte>)
    ensures Eaten(Poisoned, bs) == 0
  {
    if bs != [] {
      EatenPoisoned(bs[..|bs| - 1]);
      PoisonStays(bs[..|bs| - 1]);
    }
  }

  lemma {:induction false} EatenAll(s: State, bs: seq<byte>)
    requires bs == [] || Run(s, bs[..|bs| - 1]).next != Poisoned
    ensures Eaten(s, bs) == |bs|
  {
    hide StepByte;
    if bs != [] {
      var front := bs[..|bs| - 1];
      assert front != [] && Run(s, front[..|front| - 1]).next == Poisoned ==> Run(s, front).next == Poisoned by {
        PoisonedStep();
      }
      EatenAll(s, front);
    }
  }

  lemma PoisonedStep()
    ensures forall b: byte :: StepByte(Poisoned, b).next == Poisoned
  {
  }

  /** A decoder that is not poisoned before its last byte has eaten them all. */
  lemma EatenUnpoisoned(s: State, bs: seq<byte>)
    requires Run(s, bs).next != Poisoned
    ensures Eaten(s, bs) == |bs|
  {
    if bs != [] {
      PoisonedStep();
      EatenAll(s, bs);
    }
  }

  lemma EatenNothing(s: State, src: seq<byte>)
    ensures Eaten(s, src[..0]) == 0
  {
  }

  /** One more feed, from wherever the last one stopped. */
  lemma FeedStep(s: State, src: seq<byte>, n: nat, c: nat, middle: State)
    requires n + c <= |src| && Run(s, src[..n]).next == middle && Eaten(s, src[..n]) == n
    requires c == 0 || Run(middle, src[n..][..c - 1]).next != Poisoned
    ensures Run(s, src[..n + c]).next == Run(middle, src[n..][..c]).next
    ensures Run(s, src[..n + c]).out == Run(s, src[..n]).out + Run(middle, src[n..][..c]).out
    ensures Eaten(s, src[..n + c]) == n + c
  {
    hide Run;
    var more := src[n..][..c];
    RunConcat(s, src[..n], more);
    EatenConcat(s, src[..n], more);
    assert src[..n] + more == src[..n + c];
    assert c > 0 ==> more[..c - 1] == src[n..][..c - 1];
    EatenAll(middle, more);
  }

  /** Nothing after a malformed header is looked at. */
  lemma BadStep(s: State, src: seq<byte>, n: nat)
    requires n <= |src| && Run(s, src[..n]).next == Poisoned && Eaten(s, src[..n]) == n
    ensures Run(s, src).next == Poisoned && Run(s, src).out == Run(s, src[..n]).out && Eaten(s, src) == n
  {
    hide Run, Eaten;
    RunConcat(s, src[..n], src[n..]);
    EatenConcat(s, src[..n], src[n..]);
    assert src[..n] + src[n..] == src;
    PoisonStays(src[n..]);
    EatenPoisoned(src[n..]);
  }

  lemma {:induction false} UnpoisonedBefore(s: State, bs: seq<byte>, k: nat)
    requires k <= |bs| && Run(s, bs).next != Poisoned
    ensures Run(s, bs[..k]).next != Poisoned
  {
    hide Run;
    RunConcat(s, bs[..k], bs[k..]);
    assert bs[..k] + bs[k..] == bs;
    PoisonStays(bs[k..]);
  }

  /** Feed until the buffer is used up, or the stream is malformed. */
  method FeedAll(dec: CapsuleDecoder, src: seq<byte>) returns (out: seq<Capsule>, consumed: nat)
    requires dec.Valid()
    modifies dec, dec.hdr, dec.hdr.vi, dec.reason
    ensures dec.Valid() && consumed <= |src|
    ensures Run(old(dec.View()), src) == Stepped(dec.View(), out) && consumed == Eaten(old(dec.View()), src)
  {
    hide Run, Eaten, Pow256, Waiting;
    ghost var before := dec.View();
    out, consumed := [], 0;
    RunNothing(before, src);
    EatenNothing(before, src);
    while consumed < |src|
      invariant dec.Valid() && consumed <= |src| && Run(before, src[..consumed]) == Stepped(dec.View(), out)
      invariant Eaten(before, src[..consumed]) == consumed
      decreases |src| - consumed
    {
      ghost var middle := dec.View();
      var status, capsule, c := dec.Feed(src[consumed..]);
      if c > 0 && status != Bad {
        UnpoisonedBefore(middle, src[consumed..][..c], c - 1);
        assert src[consumed..][..c][..c - 1] == src[consumed..][..c - 1];
      }
      FeedStep(before, src, consumed, c, middle);
      consumed := consumed + c;
      if status == Ok {
        out := out + [capsule];
      } else if status == Bad {
        BadStep(before, src, consumed);
        return;
      }
    }
    assert src[..consumed] == src;
  }

  function Joined(chunks: seq<seq<byte>>): seq<byte> {
    if chunks == [] then [] else Joined(chunks[..|chunks| - 1]) + chunks[|chunks| - 1]
  }

  /**
   Whatever the chunks, the capsules, the outcome and the bytes looked at are those of the
   whole buffer.
   */
  method DecodeChunks(chunks: seq<seq<byte>>) returns (out: seq<Capsule>, malformed: bool, consumed: nat)
    ensures out == Parse(Joined(chunks)).capsules && consumed == Parse(Joined(chunks)).consumed
    ensures malformed <==> Parse(Joined(chunks)).ending == Malformed
  {
    hide Run, Eaten, Parse, Pow256, Waiting;
    var dec := new CapsuleDecoder();
    out, consumed := [], 0;
    var i := 0;
    ChunksStart();
    while i < |chunks|
      invariant i <= |chunks| && dec.Valid() && fresh(dec) && fresh(dec.hdr) && fresh(dec.hdr.vi) && fresh(dec.reason)
      invariant Run(Fresh, Joined(chunks[..i])) == Stepped(dec.View(), out) && consumed == Eaten(Fresh, Joined(chunks[..i]))
    {
      var more, c := FeedAll(dec, chunks[i]);
      assert chunks[..i + 1][..i] == chunks[..i];
      RunConcat(Fresh, Joined(chunks[..i]), chunks[i]);
      EatenConcat(Fresh, Joined(chunks[..i]), chunks[i]);
      out := out + more;
      consumed := consumed + c;
      i := i + 1;
    }
    assert chunks[..i] == chunks;
    RunIsParse(Joined(chunks));
    EatenIsParse(Joined(chunks));
    malformed := dec.state == 2;
  }

  lemma ChunksStart()
    ensures Run(Fresh, Joined([])) == Stepped(Fresh, []) && Eaten(Fresh, Joined([])) == 0
  {
  }

  lemma {:induction false} EatenIsParse(bs: seq<byte>)
    ensures Eaten(Fresh, bs) == Parse(bs).consumed
    decreases |bs|
  {
    hide Run, Eaten;
    RunIsParse(bs);
    if Parse(bs).ending == More {
      EatenUnpoisoned(Fresh, bs);
    } else {
      var h := ParseHeader(bs);
      match Classify(h.typ, h.length)
      case None => MalformedEaten(bs);
      case Some(kind) =>
        var n := h.bytes + h.length;
        CapsuleRun(bs, kind);
        EatenUnpoisoned(Fresh, bs[..n]);
        EatenConcat(Fresh, bs[..n], bs[n..]);
        assert bs[..n] + bs[n..] == bs;
        EatenIsParse(bs[n..]);
    }
  }

  /** A malformed header is found with its last byte, not before. */
  lemma MalformedEaten(bs: seq<byte>)
    requires ParseHeader(bs).Header? && Classify(ParseHeader(bs).typ, ParseHeader(bs).length).None?
    ensures Eaten(Fresh, bs) == ParseHeader(bs).bytes
  {
    hide Run, Eaten;
    var h := ParseHeader(bs);
    HeaderRun(bs);
    var less := bs[..h.bytes - 1];
    ShorterHasNoHeader(bs);
    HeaderRun(less);
    assert bs[..h.bytes][..h.bytes - 1] == less;
    EatenAll(Fresh, bs[..h.bytes]);
    BadStep(Fresh, bs, h.bytes);
  }
}
