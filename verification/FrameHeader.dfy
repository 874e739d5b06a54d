/**
 Type and length, the two integers in front of every HTTP/3 frame and every capsule: read whole
 from a buffer, or byte by byte.
 */
module FrameHeader {
  import opened Varint

  datatype Header = Header(typ: nat, length: nat, bytes: nat) | NoHeader

  function ParseHeader(bs: seq<byte>): (h: Header)
    ensures h.Header? ==> 2 <= h.bytes <= |bs|
  {
    match Decode(bs)
    case Incomplete => NoHeader
    case Decoded(typ, tl) =>
      match Decode(bs[tl..])
      case Incomplete => NoHeader
      case Decoded(length, ll) => Header(typ, length, tl + ll)
  }

  // ---------------------------------------------------------------- byte by byte

  datatype Reading = Reading(vi: Partial, typ: nat, bytes: nat, inLength: bool)

  const FreshHeader := Reading(Start, 0, 0, false)

  /** The reader goes on, or has a header. */
  datatype After = Still(r: Reading) | Got(h: Header)

  function HeaderStep(r: Reading, b: byte): After {
    var v := Step(r.vi, b);
    if !Complete(v) then Still(Reading(v, r.typ, r.bytes + 1, r.inLength))
    else Completed(r, v.acc, 1)
  }

  /** What completing the type, or the length, leads to. */
  function Completed(r: Reading, value: nat, taken: nat): After {
    if !r.inLength then Still(Reading(Start, value, r.bytes + taken, true))
    else Got(Header(r.typ, value, r.bytes + taken))
  }

  function HeaderSteps(r: Reading, bs: seq<byte>): After {
    if bs == [] then Still(r)
    else
      match HeaderSteps(r, bs[..|bs| - 1])
      case Still(q) => HeaderStep(q, bs[|bs| - 1])
      case Got(h) => Got(h)
  }

  lemma {:induction false} StepsOn(r: Reading, a: seq<byte>, b: seq<byte>)
    requires HeaderSteps(r, a).Still?
    ensures HeaderSteps(r, a + b) == HeaderSteps(HeaderSteps(r, a).r, b)
  {
    hide HeaderStep;
    if b == [] {
      assert a + b == a;
    } else {
      var n := |b| - 1;
      StepsOn(r, a, b[..n]);
      assert (a + b)[..|a + b| - 1] == a + b[..n];
    }
  }

  /** Two reads in a row are one. */
  lemma StepsJoin(r: Reading, src: seq<byte>, n: nat, c: nat, middle: Reading)
    requires n + c <= |src| && HeaderSteps(r, src[..n]) == Still(middle)
    ensures HeaderSteps(r, src[..n + c]) == HeaderSteps(middle, src[n..][..c])
    ensures n + c == |src| ==> HeaderSteps(r, src) == HeaderSteps(middle, src[n..])
  {
    hide HeaderSteps;
    StepsOn(r, src[..n], src[n..][..c]);
    assert src[..n] + src[n..][..c] == src[..n + c];
    assert n + c == |src| ==> src[..n + c] == src && src[n..][..c] == src[n..];
  }

  /** A reader that goes on was going on before. */
  lemma {:induction false} StillBefore(r: Reading, bs: seq<byte>, k: nat)
    requires k <= |bs| && HeaderSteps(r, bs).Still?
    ensures HeaderSteps(r, bs[..k]).Still?
    decreases |bs|
  {
    if k < |bs| {
      StillBefore(r, bs[..|bs| - 1], k);
      assert bs[..|bs| - 1][..k] == bs[..k];
    } else {
      assert bs[..k] == bs;
    }
  }

  /** No prefix of `bs` up to `n` bytes completes the integer. */
  ghost predicate NotBefore(p: Partial, bs: seq<byte>, n: nat)
    requires n <= |bs|
  {
    forall k :: 0 < k <= n ==> !Complete(Steps(p, bs[..k]))
  }

  /** Bytes of an integer that is not complete yet only add to it. */
  lemma {:induction false} PartialSteps(r: Reading, bs: seq<byte>)
    requires NotBefore(r.vi, bs, |bs|)
    ensures HeaderSteps(r, bs) == Still(r.(vi := Steps(r.vi, bs), bytes := r.bytes + |bs|))
  {
    if bs != [] {
      var n := |bs| - 1;
      assert NotBefore(r.vi, bs[..n], n) by {
        assert forall k :: 0 < k <= n ==> bs[..n][..k] == bs[..k];
      }
      PartialSteps(r, bs[..n]);
      assert bs[..|bs|] == bs;
      hide NotBefore;
      assert Complete(Steps(r.vi, bs)) == false;
    }
  }

  lemma WholeSteps(r: Reading, bs: seq<byte>)
    requires bs != [] && Complete(Steps(r.vi, bs)) && NotBefore(r.vi, bs, |bs| - 1)
    ensures HeaderSteps(r, bs) == Completed(r, Steps(r.vi, bs).acc, |bs|)
    ensures HeaderSteps(r, bs[..|bs| - 1]).Still?
  {
    hide HeaderSteps, Steps, Step, Complete;
    var n := |bs| - 1;
    var front := bs[..n];
    assert NotBefore(r.vi, front, n) by {
      assert forall k :: 0 < k <= n ==> front[..k] == bs[..k];
    }
    PartialSteps(r, front);
    LastStep(r.vi, bs);
    LastHeaderStep(r, bs);
  }

  lemma LastStep(p: Partial, bs: seq<byte>)
    requires bs != []
    ensures Steps(p, bs) == Step(Steps(p, bs[..|bs| - 1]), bs[|bs| - 1])
  {
  }

  lemma LastHeaderStep(r: Reading, bs: seq<byte>)
    requires bs != [] && HeaderSteps(r, bs[..|bs| - 1]).Still?
    ensures HeaderSteps(r, bs) == HeaderStep(HeaderSteps(r, bs[..|bs| - 1]).r, bs[|bs| - 1])
  {
  }

  lemma DecodeSteps(r: Reading, bs: seq<byte>)
    requires r.vi == Start
    ensures Decode(bs).Incomplete? ==> HeaderSteps(r, bs).Still?
    ensures Decode(bs).Decoded? ==> HeaderSteps(r, bs[..Decode(bs).length]) == Completed(r, Decode(bs).value, Decode(bs).length)
  {
    hide Completed, HeaderSteps, Steps;
    var d := Decode(bs);
    if d.Decoded? {
      var n := d.length;
      var front := bs[..n];
      forall k | 0 < k <= n - 1 ensures !Complete(Steps(Start, front[..k])) {
        assert front[..k] == bs[..k];
        StepsDecode(bs, k);
      }
      StepsDecode(bs, n);
      WholeSteps(r, front);
    } else {
      forall k | 0 < k <= |bs| ensures !Complete(Steps(Start, bs[..k])) {
        StepsDecode(bs, k);
      }
      PartialSteps(r, bs);
    }
  }

  /** Reading byte by byte finds the header that the whole buffer begins with, if it has one. */
  lemma HeaderIsParsed(bs: seq<byte>)
    ensures ParseHeader(bs).NoHeader? ==> HeaderSteps(FreshHeader, bs).Still?
    ensures ParseHeader(bs).Header? ==> HeaderSteps(FreshHeader, bs[..ParseHeader(bs).bytes]) == Got(ParseHeader(bs))
  {
    hide HeaderSteps;
    DecodeSteps(FreshHeader, bs);
    var d := Decode(bs);
    if d.Decoded? {
      LengthSteps(bs, d.value, d.length);
    }
  }

  lemma LengthSteps(bs: seq<byte>, typ: nat, tl: nat)
    requires tl <= |bs| && HeaderSteps(FreshHeader, bs[..tl]) == Still(Reading(Start, typ, tl, true))
    ensures var q := Decode(bs[tl..]);
      if q.Decoded? then HeaderSteps(FreshHeader, bs[..tl + q.length]) == Got(Header(typ, q.value, tl + q.length))
      else HeaderSteps(FreshHeader, bs).Still?
  {
    hide Decode, HeaderSteps, Steps;
    var r := Reading(Start, typ, tl, true);
    DecodeSteps(r, bs[tl..]);
    var q := Decode(bs[tl..]);
    StepsJoin(FreshHeader, bs, tl, if q.Decoded? then q.length else |bs| - tl, r);
  }

  lemma ShorterHasNoHeader(bs: seq<byte>)
    requires ParseHeader(bs).Header?
    ensures ParseHeader(bs[..ParseHeader(bs).bytes - 1]).NoHeader?
  {
    hide Fold;
    var less := bs[..ParseHeader(bs).bytes - 1];
    var tl := Decode(bs).length;
    assert less != [] ==> less[0] == bs[0];
    if |less| >= tl {
      assert less[tl..] == [] || less[tl..][0] == bs[tl..][0];
    }
  }

  // ---------------------------------------------------------------- the decoder

  class HeaderDecoder {
    const vi: Decoder
    var typ: nat
    var bytes: nat
    var inLength: bool

    ghost function View(): Reading
      reads this, vi
    {
      Reading(vi.View(), typ, bytes, inLength)
    }

    ghost predicate Valid()
      reads this, vi
    {
      vi.Valid()
    }

    constructor ()
      ensures Valid() && View() == FreshHeader && fresh(vi)
    {
      vi := new Decoder();
      typ, bytes, inLength := 0, 0, false;
    }

    method Reset()
      modifies this, vi
      ensures Valid() && View() == FreshHeader
    {
      vi.Reset();
      typ, bytes, inLength := 0, 0, false;
    }

    /** Take bytes until the next integer of the header is complete. */
    method NextInteger(src: seq<byte>) returns (done: bool, value: nat, consumed: nat)
      requires Valid()
      modifies this`bytes, vi
      ensures Valid() && consumed <= |src| && bytes == old(bytes) + consumed
      ensures !done ==> consumed == |src| && HeaderSteps(old(View()), src) == Still(View())
      ensures done ==> 0 < consumed && vi.View() == Start
      ensures done ==> HeaderSteps(old(View()), src[..consumed]) == Completed(old(View()), value, consumed)
      ensures done ==> HeaderSteps(old(View()), src[..consumed - 1]).Still?
    {
      ghost var before := View();
      done, value, consumed := vi.Feed(src);
      hide HeaderSteps, Steps, Complete, Completed, Waiting;
      FeedSteps(before, src, done, value, consumed);
      assert !done ==> src[..consumed] == src;
      bytes := bytes + consumed;
    }

    /** Take bytes until the header is complete, and not one more. */
    method Feed(src: seq<byte>) returns (done: bool, header: Header, consumed: nat)
      requires Valid()
      modifies this, vi
      ensures Valid() && consumed <= |src|
      ensures !done ==> consumed == |src| && HeaderSteps(old(View()), src) == Still(View())
      ensures done ==> header.Header? && View() == FreshHeader && consumed > 0
      ensures done ==> HeaderSteps(old(View()), src[..consumed]) == Got(header) && HeaderSteps(old(View()), src[..consumed - 1]).Still?
    {
      hide HeaderSteps, Steps, Complete, Waiting;
      ghost var before := View();
      NothingRead(before, src);
      consumed := 0;
      if !inLength {
        var ok, v, c := NextInteger(src);
        if !ok {
          return false, NoHeader, c;
        }
        consumed := c;
        typ := v;
        inLength := true;
      }
      ghost var middle := View();
      assert HeaderSteps(before, src[..consumed]) == Still(middle);
      var ok, length, c := NextInteger(src[consumed..]);
      StepsJoin(before, src, consumed, c, middle);
      consumed := consumed + c;
      if !ok {
        return false, NoHeader, consumed;
      }
      StepsJoin(before, src, consumed - c, c - 1, middle);
      header := Header(typ, length, bytes);
      Reset();
      return true, header, consumed;
    }
  }

  lemma NothingRead(r: Reading, src: seq<byte>)
    ensures HeaderSteps(r, src[..0]) == Still(r)
  {
  }

  /** What a feed of the integer decoder does to the header. */
  lemma FeedSteps(r: Reading, src: seq<byte>, ok: bool, value: nat, c: nat)
    requires c <= |src| && forall k :: 0 <= k < c ==> !Complete(Steps(r.vi, src[..k]))
    requires !ok ==> c == |src| && !Complete(Steps(r.vi, src))
    requires ok ==> 0 < c && Complete(Steps(r.vi, src[..c])) && value == Steps(r.vi, src[..c]).acc
    ensures !ok ==> HeaderSteps(r, src[..c]) == Still(r.(vi := Steps(r.vi, src), bytes := r.bytes + c))
    ensures ok ==> HeaderSteps(r, src[..c]) == Completed(r, value, c) && HeaderSteps(r, src[..c - 1]).Still?
  {
    hide HeaderSteps, Completed, Steps;
    var front := src[..c];
    assert forall k :: 0 < k <= c ==> front[..k] == src[..k];
    if ok {
      WholeSteps(r, front);
      assert front[..c - 1] == src[..c - 1];
    } else {
      assert front == src && src[..|src|] == src;
      PartialSteps(r, front);
    }
  }
}
