/**
 The order of what the application sees, over every run, budgeted or not:
 one terminal event, one closed event per stream, and the session's closed event after all of
 them.
 */
module EventOrder {
  import opened StreamMirror
  import opened MirrorRuns

  predicate IsTerminal(x: Seen) {
    x.Refused? || x.Failed? || x.Closed?
  }

  function Terminals(log: seq<Seen>): nat {
    if log == [] then 0
    else Terminals(log[..|log| - 1]) + (if IsTerminal(log[|log| - 1]) then 1 else 0)
  }

  /** How often the application was told that the stream of occupancy `o` is closed. */
  function Closings(log: seq<Seen>, o: nat): nat {
    if log == [] then 0
    else Closings(log[..|log| - 1], o) + (if log[|log| - 1] == StreamClosed(o) then 1 else 0)
  }

  predicate IsFire(f: Frame) {
    f.FireClosed? || f.FireFailed?
  }

  /** Terminal events that are decided and wait for the streams to close. */
  function Fires(fs: seq<Frame>): nat {
    if fs == [] then 0 else Fires(fs[..|fs| - 1]) + (if IsFire(fs[|fs| - 1]) then 1 else 0)
  }

  function Bit(b: bool): nat {
    if b then 1 else 0
  }

  /** The application is inside the callback that reports the commitment of a stream. */
  predicate Committing(s: State) {
    s.stack != [] && s.stack[0].CommitReturn?
  }

  /** The handle still owes the application its closed event. */
  predicate Owing(s: State, h: nat)
    requires h < |s.api|
  {
    s.api[h].alive || (Committing(s) && s.stack[0].h == h)
  }

  // ---------------------------------------------------------------- the invariant

  predicate RefsOk(s: State) {
    forall h :: 0 <= h < |s.api| ==>
      s.api[h].refs == s.api[h].appRefs + Weights(s.stack, h) + Bit(s.api[h].alive)
  }

  predicate ShapeOk(s: State) {
    (s.inApp || s.stack != []) &&
    s.m.commitDepth == Bit(Committing(s)) &&
    (s.m.deferred ==> Committing(s) || (|s.stack| > 1 && s.stack[1].FireDeferred?)) &&
    (Committing(s) ==> s.stack[0].h < |s.api| && !s.api[s.stack[0].h].alive) &&
    forall k :: 0 <= k < |s.stack| ==> FrameFits(s.stack, k)
  }

  predicate FrameFits(fs: seq<Frame>, k: nat)
    requires k < |fs|
  {
    (IsRoot(fs[k]) ==> k == 0) &&
    (fs[k].FireDeferred? ==> k == 1 && fs[0].EngineDone?) &&
    (fs[k].Teardown? ==> k > 0 && IsFire(fs[k - 1]))
  }

  predicate EndOk(s: State) {
    (s.m.terminalFired <==> s.m.phase == Over) && (s.m.connClosed ==> s.m.phase == Over) &&
    (s.m.phase == Connecting ==>
      s.stack == [] && s.m.nextOcc == 0 && forall h :: 0 <= h < |s.api| ==> !s.api[h].alive) &&
    (s.m.terminalFired ==> forall h :: 0 <= h < |s.api| && s.api[h].alive ==> TornLater(s, h))
  }

  /** The terminal event has been seen, is about to fire, or waits for the commitment callback. */
  predicate TerminalsOk(s: State) {
    Terminals(s.log) + Fires(s.stack) + Bit(s.m.deferred) == Bit(s.m.terminalFired)
  }

  /** Every occupancy so far owes its closed event or has had it, once. */
  ghost predicate OccOk(s: State) {
    (forall h :: 0 <= h < |s.api| && Owing(s, h) ==> s.api[h].occ < s.m.nextOcc && Closings(s.log, s.api[h].occ) == 0) &&
    (forall g, h :: 0 <= g < h < |s.api| && Owing(s, g) && Owing(s, h) ==> s.api[g].occ != s.api[h].occ) &&
    (forall o: nat :: Closings(s.log, o) <= 1 && (o >= s.m.nextOcc ==> Closings(s.log, o) == 0)) &&
    (forall o: nat :: o < s.m.nextOcc ==> Closings(s.log, o) == 1 || exists h :: 0 <= h < |s.api| && Owing(s, h) && s.api[h].occ == o)
  }

  /** Once the closed event was seen, nobody owes anything. */
  predicate LastOk(s: State) {
    forall i :: 0 <= i < |s.log| && s.log[i] == Closed ==>
      i == |s.log| - 1 && forall h :: 0 <= h < |s.api| ==> !Owing(s, h)
  }

  /** A slot that carries a handle carries a live one, whose slot it is. */
  predicate UsersOk(s: State) {
    forall e :: 0 <= e < |s.eng| && s.eng[e].kind == Wt && s.eng[e].user >= 0 ==>
      s.eng[e].user < |s.api| && s.api[s.eng[e].user].alive && s.api[s.eng[e].user].es == e
  }

  ghost predicate Order(s: State) {
    RefsOk(s) && ShapeOk(s) && EndOk(s) && TerminalsOk(s) && OccOk(s) && LastOk(s) && UsersOk(s)
  }

  // ---------------------------------------------------------------- counting

  lemma {:induction false} FiresConcat(xs: seq<Frame>, ys: seq<Frame>)
    ensures Fires(xs + ys) == Fires(xs) + Fires(ys)
  {
    if ys == [] {
      assert xs + ys == xs;
    } else {
      var n := |ys| - 1;
      FiresConcat(xs, ys[..n]);
      assert (xs + ys)[..|xs + ys| - 1] == xs + ys[..n];
    }
  }

  lemma {:induction false} FiresAt(fs: seq<Frame>, k: nat)
    requires k < |fs| && IsFire(fs[k])
    ensures Fires(fs) > 0
  {
    var n := |fs| - 1;
    if k < n {
      FiresAt(fs[..n], k);
    }
  }

  lemma {:induction false} NoFires(fs: seq<Frame>)
    requires forall k :: 0 <= k < |fs| ==> !IsFire(fs[k])
    ensures Fires(fs) == 0
  {
    if fs != [] {
      NoFires(fs[..|fs| - 1]);
    }
  }

  lemma LogGrows(log: seq<Seen>, x: Seen)
    ensures Terminals(log + [x]) == Terminals(log) + Bit(IsTerminal(x))
    ensures forall o: nat :: Closings(log + [x], o) == Closings(log, o) + Bit(x == StreamClosed(o))
  {
    assert (log + [x])[..|log + [x]| - 1] == log;
  }

  lemma {:induction false} ClosedCounts(log: seq<Seen>, i: nat)
    requires i < |log| && IsTerminal(log[i])
    ensures Terminals(log) > 0
  {
    var n := |log| - 1;
    if i < n {
      ClosedCounts(log[..n], i);
    }
  }

  lemma {:induction false} WeighsAtLeast(fs: seq<Frame>, k: nat, h: nat)
    requires k < |fs|
    ensures Weights(fs, h) >= Weight(fs[k], h)
  {
    var n := |fs| - 1;
    if k < n {
      WeighsAtLeast(fs[..n], k, h);
    }
  }

  // ---------------------------------------------------------------- nothing left to close

  /** With no terminal event waiting for the streams, an ended session has no live handle. */
  lemma NobodyLeft(s: State)
    requires ShapeOk(s) && EndOk(s) && s.m.terminalFired && Fires(s.stack) == 0
    ensures forall h :: 0 <= h < |s.api| ==> !s.api[h].alive
  {
    forall h | 0 <= h < |s.api| ensures !s.api[h].alive {
      if s.api[h].alive {
        assert TornLater(s, h);
        var k :| 0 <= k < |s.stack| && s.stack[k].Teardown? && s.stack[k].next <= h;
        assert FrameFits(s.stack, k);
        FiresAt(s.stack, k - 1);
      }
    }
  }

  // ---------------------------------------------------------------- a step about one handle

  predicate SameMeta(m: Meta, n: Meta) {
    n.phase == m.phase && n.connClosed == m.connClosed && n.terminalFired == m.terminalFired &&
    n.deferred == m.deferred && n.nextOcc == m.nextOcc
  }

  /** Frames of streams, none of the session's ending. */
  predicate Streamy(fs: seq<Frame>, h: nat) {
    forall k :: 0 <= k < |fs| ==> !IsFire(fs[k]) && !fs[k].Teardown? && (HasHandle(fs[k]) ==> fs[k].h == h)
  }

  predicate Moves(s: State, t: State, h: nat, base: seq<Frame>, pop: seq<Frame>, push: seq<Frame>) {
    h < |s.api| && |t.api| == |s.api| && t.api == s.api[h := t.api[h]] && SameMeta(s.m, t.m) &&
    t.api[h].occ == s.api[h].occ && (t.api[h].alive ==> s.api[h].alive) &&
    t.api[h].refs - t.api[h].appRefs - Bit(t.api[h].alive) - Weights(push, h) ==
    s.api[h].refs - s.api[h].appRefs - Bit(s.api[h].alive) - Weights(pop, h) &&
    s.stack == base + pop && t.stack == base + push && (t.inApp || t.stack != []) &&
    Streamy(pop, h) && Streamy(push, h) && t.m.commitDepth == Bit(Committing(t))
  }

  /** What is pushed fits, and what is popped leaves a deferred event in good hands. */
  predicate Fits(s: State, t: State, base: seq<Frame>, pop: seq<Frame>, push: seq<Frame>)
  {
    (forall k :: 0 <= k < |push| ==>
      (IsRoot(push[k]) ==> k == 0 && base == []) &&
      (push[k].FireDeferred? ==> base == [] && k == 1 && push[0].EngineDone?)) &&
    (forall k :: 0 <= k < |pop| ==> !pop[k].FireDeferred? && (pop[k].CommitReturn? ==> |push| > 1 && push[1].FireDeferred?)) &&
    (Committing(t) && !Committing(s) ==> t.stack[0].h < |t.api| && !t.api[t.stack[0].h].alive)
  }

  /** What the application is told about the handle. */
  predicate Tells(s: State, t: State, h: nat, seen: seq<Seen>)
    requires h < |s.api| && h < |t.api|
  {
    t.log == s.log + seen &&
    match |seen|
    case 0 => Owing(t, h) == Owing(s, h)
    case 1 =>
      Owing(s, h) && !IsTerminal(seen[0]) &&
      if seen[0].StreamClosed? then seen[0].occ == s.api[h].occ && !Owing(t, h) else Owing(t, h)
    case _ => false
  }

  lemma MovesRefs(s: State, t: State, h: nat, base: seq<Frame>, pop: seq<Frame>, push: seq<Frame>)
    requires RefsOk(s) && Moves(s, t, h, base, pop, push)
    ensures RefsOk(t)
  {
    forall g | 0 <= g < |t.api| ensures t.api[g].refs == t.api[g].appRefs + Weights(t.stack, g) + Bit(t.api[g].alive) {
      WeightsConcat(base, pop, g);
      WeightsConcat(base, push, g);
      if g != h {
        Weightless(pop, h, g);
        Weightless(push, h, g);
      }
    }
  }

  lemma {:induction false} Weightless(fs: seq<Frame>, h: nat, g: nat)
    requires Streamy(fs, h) && g != h
    ensures Weights(fs, g) == 0
  {
    if fs != [] {
      Weightless(fs[..|fs| - 1], h, g);
    }
  }

  lemma MovesFit(s: State, t: State, base: seq<Frame>, pop: seq<Frame>, push: seq<Frame>, h: nat, k: nat)
    requires ShapeOk(s) && s.stack == base + pop && t.stack == base + push && Streamy(push, h)
    requires Fits(s, t, base, pop, push) && k < |t.stack|
    ensures FrameFits(t.stack, k)
  {
    if k < |base| {
      assert FrameFits(s.stack, k);
      assert t.stack[k] == s.stack[k] && (k > 0 ==> t.stack[k - 1] == s.stack[k - 1]) && t.stack[0] == s.stack[0];
    } else {
      assert t.stack[k] == push[k - |base|];
      assert base == [] ==> t.stack[0] == push[0];
    }
  }

  lemma MovesShape(s: State, t: State, h: nat, base: seq<Frame>, pop: seq<Frame>, push: seq<Frame>)
    requires ShapeOk(s) && Moves(s, t, h, base, pop, push) && Fits(s, t, base, pop, push)
    ensures ShapeOk(t)
  {
    forall k | 0 <= k < |t.stack| ensures FrameFits(t.stack, k) {
      MovesFit(s, t, base, pop, push, h, k);
    }
    hide FrameFits, Streamy, Weights;
    assert base != [] ==> t.stack[0] == s.stack[0];
    if t.m.deferred {
      if |base| > 1 {
        assert t.stack[1] == s.stack[1];
      } else if |base| == 1 {
        assert |s.stack| > 1 ==> s.stack[1] == pop[0];
      } else {
        assert s.stack == pop && t.stack == push;
        assert Committing(s) ==> push[1].FireDeferred?;
      }
    }
  }

  lemma MovesEnd(s: State, t: State, h: nat, base: seq<Frame>, pop: seq<Frame>, push: seq<Frame>)
    requires EndOk(s) && Moves(s, t, h, base, pop, push) && (pop == [] && push != [] ==> s.m.phase != Connecting)
    ensures EndOk(t)
  {
    if t.m.terminalFired {
      forall g | 0 <= g < |t.api| && t.api[g].alive ensures TornLater(t, g) {
        assert TornLater(s, g);
        var k :| 0 <= k < |s.stack| && s.stack[k].Teardown? && s.stack[k].next <= g;
        assert k < |base|;
        assert t.stack[k] == s.stack[k];
      }
    }
  }

  lemma StreamyFires(base: seq<Frame>, fs: seq<Frame>, h: nat)
    requires Streamy(fs, h)
    ensures Fires(base + fs) == Fires(base)
  {
    FiresConcat(base, fs);
    NoFires(fs);
  }

  lemma TellsNoTerminal(s: State, t: State, h: nat, seen: seq<Seen>)
    requires h < |s.api| && h < |t.api| && Tells(s, t, h, seen)
    ensures Terminals(t.log) == Terminals(s.log)
  {
    if |seen| == 1 {
      LogGrows(s.log, seen[0]);
      assert seen == [seen[0]];
    } else {
      assert t.log == s.log;
    }
  }

  lemma MovesTerminals(s: State, t: State, h: nat, base: seq<Frame>, pop: seq<Frame>, push: seq<Frame>, seen: seq<Seen>)
    requires TerminalsOk(s) && Moves(s, t, h, base, pop, push) && Tells(s, t, h, seen)
    ensures TerminalsOk(t)
  {
    hide Fires, Terminals, Weights;
    StreamyFires(base, pop, h);
    StreamyFires(base, push, h);
    TellsNoTerminal(s, t, h, seen);
  }

  lemma MovesOwing(s: State, t: State, h: nat, base: seq<Frame>, pop: seq<Frame>, push: seq<Frame>, g: nat)
    requires Moves(s, t, h, base, pop, push) && g < |s.api| && g != h && ShapeOk(s) && Fits(s, t, base, pop, push)
    ensures Owing(t, g) == Owing(s, g)
  {
    assert base != [] ==> t.stack[0] == s.stack[0];
  }

  /** The same handles owe, on the same occupancies, except that `h` may have paid. */
  predicate Paid(s: State, t: State, h: nat) {
    |t.api| == |s.api| && t.m.nextOcc == s.m.nextOcc && h < |s.api| &&
    forall g :: 0 <= g < |t.api| ==>
      t.api[g].occ == s.api[g].occ && (if g == h then Owing(t, g) ==> Owing(s, g) else Owing(t, g) == Owing(s, g))
  }

  lemma PaidOcc(s: State, t: State, h: nat, seen: seq<Seen>)
    requires OccOk(s) && Paid(s, t, h) && Tells(s, t, h, seen)
    ensures OccOk(t)
  {
    hide Owing;
    if |seen| == 0 {
      assert t.log == s.log;
    } else {
      assert seen == [seen[0]];
      LogGrows(s.log, seen[0]);
    }
    forall o: nat | o < t.m.nextOcc
      ensures Closings(t.log, o) == 1 || exists g :: 0 <= g < |t.api| && Owing(t, g) && t.api[g].occ == o
    {
      if Closings(s.log, o) != 1 {
        var g :| 0 <= g < |s.api| && Owing(s, g) && s.api[g].occ == o;
        assert g != h || Owing(t, h) ==> Owing(t, g) && t.api[g].occ == o;
      }
    }
  }

  lemma PaidLast(s: State, t: State, h: nat, seen: seq<Seen>)
    requires LastOk(s) && Paid(s, t, h) && Tells(s, t, h, seen)
    ensures LastOk(t)
  {
    hide Owing;
    forall i | 0 <= i < |t.log| && t.log[i] == Closed
      ensures i == |t.log| - 1 && forall g :: 0 <= g < |t.api| ==> !Owing(t, g)
    {
      assert i < |s.log| && s.log[i] == Closed;
      assert !Owing(s, h);
    }
  }

  lemma MovesPaid(s: State, t: State, h: nat, base: seq<Frame>, pop: seq<Frame>, push: seq<Frame>, seen: seq<Seen>)
    requires ShapeOk(s) && Moves(s, t, h, base, pop, push) && Fits(s, t, base, pop, push) && Tells(s, t, h, seen)
    ensures Paid(s, t, h)
  {
    forall g | 0 <= g < |t.api| && g != h ensures Owing(t, g) == Owing(s, g) {
      MovesOwing(s, t, h, base, pop, push, g);
    }
  }

  /** The workhorse for every step about one handle. */
  lemma MovesKeep(s: State, t: State, h: nat, base: seq<Frame>, pop: seq<Frame>, push: seq<Frame>, seen: seq<Seen>)
    requires Order(s) && Moves(s, t, h, base, pop, push) && Fits(s, t, base, pop, push) && Tells(s, t, h, seen)
    requires UsersOk(t) && (pop == [] && push != [] ==> s.m.phase != Connecting)
    ensures Order(t)
  {
    MovesRefs(s, t, h, base, pop, push);
    MovesShape(s, t, h, base, pop, push);
    MovesEnd(s, t, h, base, pop, push);
    MovesTerminals(s, t, h, base, pop, push, seen);
    MovesPaid(s, t, h, base, pop, push, seen);
    PaidOcc(s, t, h, seen);
    PaidLast(s, t, h, seen);
  }

  // ---------------------------------------------------------------- steps nobody sees

  /** The references, the life and the occupancy of a handle. */
  predicate SameLife(a: ASlot, b: ASlot) {
    b.refs == a.refs && b.appRefs == a.appRefs && b.alive == a.alive && b.occ == a.occ
  }

  predicate SameView(s: State, t: State) {
    |t.api| == |s.api| && (forall h :: 0 <= h < |s.api| ==> SameLife(s.api[h], t.api[h])) &&
    t.stack == s.stack && t.log == s.log && SameMeta(s.m, t.m) && t.m.commitDepth == s.m.commitDepth
  }

  lemma SameViewKeeps(s: State, t: State)
    requires Order(s) && SameView(s, t) && UsersOk(t) && (t.inApp || t.stack != [])
    ensures Order(t)
  {
    assert Committing(t) == Committing(s);
    assert forall h :: 0 <= h < |s.api| ==> Owing(t, h) == Owing(s, h);
    SameViewOcc(s, t);
    if t.m.terminalFired {
      forall g | 0 <= g < |t.api| && t.api[g].alive ensures TornLater(t, g) {
        assert TornLater(s, g);
      }
    }
  }

  lemma SameViewOcc(s: State, t: State)
    requires OccOk(s) && SameView(s, t)
    ensures OccOk(t)
  {
    assert forall h :: 0 <= h < |s.api| ==> Owing(t, h) == Owing(s, h);
    hide Owing;
    forall o: nat | o < t.m.nextOcc
      ensures Closings(t.log, o) == 1 || exists g :: 0 <= g < |t.api| && Owing(t, g) && t.api[g].occ == o
    {
      if Closings(s.log, o) != 1 {
        var g :| 0 <= g < |s.api| && Owing(s, g) && s.api[g].occ == o;
        assert Owing(t, g) && t.api[g].occ == o;
      }
    }
  }

  // ---------------------------------------------------------------- slots and the handles they carry

  lemma FramedUsers(s: State, t: State)
    requires UsersOk(s) && Framed(s, t)
    ensures UsersOk(t)
  {
    forall e | 0 <= e < |t.eng| && t.eng[e].kind == Wt && t.eng[e].user >= 0
      ensures t.eng[e].user < |t.api| && t.api[t.eng[e].user].alive && t.api[t.eng[e].user].es == e
    {
      assert SameSlot(s.eng[e], t.eng[e]);
      assert SameHandle(s.api[s.eng[e].user], t.api[s.eng[e].user]);
    }
  }

  lemma UsersKept(s: State, ev: Event)
    requires Order(s) && Enabled(s, ev)
    ensures UsersOk(Next(s, ev))
  {
    if MovesSlots(ev) {
      hide OccOk, ShapeOk, EndOk, TerminalsOk, LastOk;
      if ev.Open? || ev.PeerStream? {
        assert !s.api[ev.h].alive;
      }
    } else {
      hide RefsOk, OccOk, ShapeOk, EndOk, TerminalsOk, LastOk;
      NextFrame(s, ev);
      hide Next, Enabled;
      FramedUsers(s, Next(s, ev));
    }
  }

  // ---------------------------------------------------------------- calls of the application

  lemma CountKeeps(s: State, t: State, h: nat)
    requires Order(s) && UsersOk(t) && h < |s.api| && h < |t.api| && t == Handle(s, h, t.api[h])
    requires var a, b := s.api[h], t.api[h];
      b.refs - b.appRefs == a.refs - a.appRefs && b.alive == a.alive && b.occ == a.occ
    ensures Order(t)
  {
    assert s.stack + [] == s.stack && s.log + [] == s.log;
    assert Committing(t) == Committing(s);
    hide RefsOk, OccOk, EndOk, TerminalsOk, LastOk;
    MovesKeep(s, t, h, s.stack, [], [], []);
  }

  /** A handle that finishes inside a call of the application. */
  lemma FinishOrder(s: State, u: State, h: nat)
    requires Order(s) && SameView(s, u) && h < |s.api| && u.api[h].es < |u.eng| && u.api == s.api[h := u.api[h]]
    requires s.inApp && u.inApp && UsersOk(FinishCall(u, h)) && UsersOk(u)
    ensures Order(FinishCall(u, h))
  {
    if Finished(u.api[h]) {
      var t := FinishCall(u, h);
      var push := [DropHold(h)] + [ClosedReturn(h)];
      TwoWeights(h);
      assert push == [DropHold(h), ClosedReturn(h)];
      assert s.stack + [] == s.stack;
      assert Committing(s) ==> s.stack[0].h != h;
      assert t.stack == s.stack + push;
      assert Committing(t) == Committing(s);
      hide RefsOk, OccOk, EndOk, TerminalsOk, LastOk, Weights;
      assert s.m.phase != Connecting by {
        LivesActive(s, h);
      }
      MovesKeep(s, t, h, s.stack, [], push, [StreamClosed(s.api[h].occ)]);
    } else {
      SameViewKeeps(s, u);
    }
  }

  lemma LivesActive(s: State, h: nat)
    requires EndOk(s) && h < |s.api| && s.api[h].alive
    ensures s.m.phase != Connecting
  {
  }

  lemma SendOrder(s: State, h: nat, fin: bool, ok: bool)
    requires Order(s) && Enabled(s, Send(h, fin, ok))
    ensures Order(Next(s, Send(h, fin, ok)))
  {
    UsersKept(s, Send(h, fin, ok));
    var a := s.api[h];
    var v := s.eng[a.es];
    if !fin || AfterSend(s, h, fin, ok) == s {
      hide Order;
      SameViewKeeps(s, Next(s, Send(h, fin, ok)));
    } else {
      var v' := ReleaseIfDone(v.(sent := true, flags := v.flags.(send := false, fin := v.commit)));
      CallOrder(s, h, a.flags.(send := false, fin := a.commit), v');
    }
  }

  /** Flags and slot change, then the handle may be finished. */
  lemma CallOrder(s: State, h: nat, flags: Flags, v: ESlot)
    requires Order(s) && s.inApp && Known(s, h) && SameSlot(s.eng[s.api[h].es], v)
    ensures Order(FinishCall(Changed(s, h, flags, v), h))
  {
    var u := Changed(s, h, flags, v);
    BothFrame(s, h, u.api[h], s.api[h].es, v);
    FramedUsers(s, u);
    FinishFrame(u, h);
    FramedUsers(u, FinishCall(u, h));
    hide Order, Framed, FinishCall;
    FinishOrder(s, u, h);
  }

  lemma ShutdownOrder(s: State, h: nat, send: bool, recv: bool, whole: bool, answer: Answer)
    requires Order(s) && Enabled(s, Shutdown(h, send, recv, whole, answer))
    ensures Order(Next(s, Shutdown(h, send, recv, whole, answer)))
  {
    hide Order, FinishCall, LoseConnection;
    var a := s.api[h];
    if answer == Fatal {
      if a.alive {
        FatalOrder(s, h);
      }
    } else {
      var v := s.eng[a.es];
      var abortSend := if whole then v.flags.send || v.flags.fin else send;
      var abortRecv := if whole then v.flags.recv else recv;
      CallOrder(s, h, if whole then Shut else ShutSides(a.flags, send, recv), EngineShutdown(v, abortSend, abortRecv));
    }
  }

  lemma FatalOrder(s: State, h: nat)
    requires Order(s) && s.inApp && Known(s, h) && s.api[h].alive
    ensures var held := Handle(s, h, s.api[h].(refs := s.api[h].refs + 1));
      Order(LoseConnection(held.(stack := held.stack + [DropHold(h)], inApp := false)))
  {
    var held := Handle(s, h, s.api[h].(refs := s.api[h].refs + 1));
    var t := held.(stack := held.stack + [DropHold(h)], inApp := false);
    OneWeight(DropHold(h), h);
    assert s.stack + [] == s.stack && s.log + [] == s.log;
    assert Committing(t) == Committing(s);
    LivesActive(s, h);
    assert UsersOk(t);
    hide RefsOk, OccOk, EndOk, TerminalsOk, LastOk, UsersOk, Weights;
    MovesKeep(s, t, h, s.stack, [], [DropHold(h)], []);
    hide Order;
    LoseOrder(t);
  }

  // ---------------------------------------------------------------- the session's own steps

  /** The session ends: the fire frame and the teardown go onto the stack. */
  lemma EndOrder(s: State, rawFails: bool)
    requires Order(s) && s.m.phase == Active
    ensures Order(EndSession(s, rawFails))
    ensures Order(EndSession(s.(m := s.m.(connClosed := true)), rawFails))
  {
    var push := [if rawFails then FireFailed else FireClosed, Teardown(0)];
    EndedKeeps(s, EndSession(s, rawFails), push);
    EndedKeeps(s, EndSession(s.(m := s.m.(connClosed := true)), rawFails), push);
  }

  predicate Ended(s: State, t: State, push: seq<Frame>) {
    t.api == s.api && t.log == s.log && t.stack == s.stack + push && t.m.commitDepth == s.m.commitDepth &&
    t.m.deferred == s.m.deferred && t.m.nextOcc == s.m.nextOcc && t.m.phase == Over && t.m.terminalFired &&
    |push| == 2 && IsFire(push[0]) && push[1] == Teardown(0) && |t.eng| == |s.eng| &&
    forall e :: 0 <= e < |s.eng| ==> t.eng[e].user == s.eng[e].user && (t.eng[e].kind == Wt ==> s.eng[e].kind == Wt)
  }

  lemma EndedKeeps(s: State, t: State, push: seq<Frame>)
    requires Order(s) && s.m.phase == Active && Ended(s, t, push)
    ensures Order(t)
  {
    forall h | 0 <= h < |t.api| ensures Weights(t.stack, h) == Weights(s.stack, h) {
      WeightsConcat(s.stack, push, h);
      HandleFree(push, h);
    }
    FiresConcat(s.stack, push);
    assert push == [push[0]] + [push[1]];
    FiresConcat([push[0]], [push[1]]);
    assert t.stack[|s.stack| + 1] == Teardown(0);
    assert forall g :: 0 <= g < |t.api| ==> TornLater(t, g);
    EndedShape(s, t, push);
    EndedOcc(s, t, push);
  }

  lemma EndedShape(s: State, t: State, push: seq<Frame>)
    requires ShapeOk(s) && !s.m.deferred && Ended(s, t, push)
    ensures ShapeOk(t)
  {
    forall k | 0 <= k < |t.stack| ensures FrameFits(t.stack, k) {
      if k < |s.stack| {
        assert FrameFits(s.stack, k);
        assert t.stack[k] == s.stack[k] && (k > 0 ==> t.stack[k - 1] == s.stack[k - 1]) && t.stack[0] == s.stack[0];
      } else {
        assert t.stack[k] == push[k - |s.stack|];
      }
    }
    assert s.stack != [] ==> t.stack[0] == s.stack[0];
    assert s.stack == [] ==> t.stack[0] == push[0];
  }

  lemma EndedOcc(s: State, t: State, push: seq<Frame>)
    requires OccOk(s) && LastOk(s) && Ended(s, t, push)
    ensures OccOk(t) && LastOk(t)
  {
    assert s.stack != [] ==> t.stack[0] == s.stack[0];
    assert s.stack == [] ==> t.stack[0] == push[0];
    forall h | 0 <= h < |s.api| ensures Owing(t, h) == Owing(s, h) {
    }
    hide Owing, Ended;
    OwingOcc(s, t);
  }

  /** What the occupancies promise depends on the log, the handles and who owes. */
  lemma OwingOcc(s: State, t: State)
    requires OccOk(s) && t.api == s.api && t.m.nextOcc == s.m.nextOcc
    requires forall h :: 0 <= h < |s.api| ==> Owing(t, h) == Owing(s, h)
    requires forall o: nat :: Closings(t.log, o) == Closings(s.log, o)
    ensures OccOk(t)
  {
    hide Owing;
    forall o: nat | o < t.m.nextOcc
      ensures Closings(t.log, o) == 1 || exists g :: 0 <= g < |t.api| && Owing(t, g) && t.api[g].occ == o
    {
      if Closings(s.log, o) != 1 {
        var g :| 0 <= g < |s.api| && Owing(s, g) && s.api[g].occ == o;
        assert Owing(t, g) && t.api[g].occ == o;
      }
    }
  }

  /** A session that never was active tells the application how that ended, or that it is active. */
  lemma OutcomeOrder(s: State, t: State, x: Seen)
    requires Order(s) && s.m.phase == Connecting && (IsTerminal(x) || x == Established) && x != Closed
    requires t.api == s.api && t.eng == s.eng && t.stack == s.stack + [Plain] && t.log == s.log + [x] && t.inApp
    requires t.m.deferred == s.m.deferred && t.m.commitDepth == s.m.commitDepth && t.m.nextOcc == s.m.nextOcc
    requires t.m.terminalFired == IsTerminal(x) && t.m.phase == (if IsTerminal(x) then Over else Active)
    requires t.m.connClosed ==> IsTerminal(x)
    ensures Order(t)
  {
    assert s.stack == [] && t.stack == [Plain];
    forall h | 0 <= h < |t.api| ensures Weights(t.stack, h) == Weights(s.stack, h) {
      HandleFree(t.stack, h);
    }
    NoFires(t.stack);
    LogGrows(s.log, x);
    assert forall h :: 0 <= h < |s.api| ==> !Owing(s, h) && !Owing(t, h);
    OwingOcc(s, t);
    LastGrows(s, t, x);
  }

  lemma LastGrows(s: State, t: State, x: Seen)
    requires LastOk(s) && TerminalsOk(s) && !s.m.terminalFired && t.log == s.log + [x] && x != Closed
    ensures LastOk(t)
  {
    forall i | 0 <= i < |t.log| && t.log[i] == Closed ensures false {
      ClosedCounts(s.log, i);
    }
  }

  /** Something about the session is reported that is neither a beginning nor an end. */
  predicate Noticed(s: State, t: State, x: Seen) {
    (x == Draining || x == Datagram) && s.stack == [] && s.m.phase == Active &&
    t == s.(stack := [Plain], inApp := true, log := s.log + [x], m := s.m.(drained := t.m.drained))
  }

  lemma NoticedShape(s: State, t: State, x: Seen)
    requires RefsOk(s) && ShapeOk(s) && EndOk(s) && TerminalsOk(s) && UsersOk(s) && Noticed(s, t, x)
    ensures RefsOk(t) && ShapeOk(t) && EndOk(t) && TerminalsOk(t) && UsersOk(t)
  {
    forall h | 0 <= h < |t.api| ensures Weights(t.stack, h) == Weights(s.stack, h) {
      HandleFree(t.stack, h);
    }
    NoFires(t.stack);
    LogGrows(s.log, x);
  }

  lemma NoticedLog(s: State, t: State, x: Seen)
    requires OccOk(s) && LastOk(s) && TerminalsOk(s) && !s.m.terminalFired && Noticed(s, t, x)
    ensures OccOk(t) && LastOk(t)
  {
    LogGrows(s.log, x);
    assert forall h :: 0 <= h < |s.api| ==> Owing(t, h) == Owing(s, h);
    hide OccOk, LastOk;
    OwingOcc(s, t);
    LastGrows(s, t, x);
  }

  lemma NoticeOrder(s: State, ev: Event)
    requires Order(s) && Enabled(s, ev) && (ev.PeerDrain? || ev.PeerDatagram?)
    ensures Order(Next(s, ev))
  {
    var t := Next(s, ev);
    if t != s {
      var x := if ev.PeerDrain? then Draining else Datagram;
      assert Noticed(s, t, x) && !s.m.terminalFired;
      hide Noticed;
      NoticedShape(s, t, x);
      NoticedLog(s, t, x);
    }
  }

  lemma LoseOrder(s: State)
    requires Order(s)
    ensures Order(LoseConnection(s))
  {
    var t := LoseConnection(s);
    if !s.m.connClosed {
      match s.m.phase
      case Active => EndOrder(s, false);
      case Connecting => OutcomeOrder(s, t, Failed);
      case Over => ConnClosedOrder(s);
    }
  }

  lemma ConnClosedOrder(s: State)
    requires Order(s) && s.m.phase == Over
    ensures Order(s.(m := s.m.(connClosed := true)))
  {
    var t := s.(m := s.m.(connClosed := true));
    assert forall h :: 0 <= h < |s.api| ==> Owing(t, h) == Owing(s, h);
    OwingOcc(s, t);
    forall g | 0 <= g < |t.api| && t.api[g].alive ensures TornLater(t, g) {
      assert TornLater(s, g);
    }
  }

  // ---------------------------------------------------------------- new streams

  /** Handle `h`, owned by nobody, starts a new occupancy. */
  predicate Acquired(s: State, t: State, h: nat, push: seq<Frame>, seen: seq<Seen>) {
    h < |s.api| && |t.api| == |s.api| && t.api == s.api[h := t.api[h]] && s.api[h].refs == 0 &&
    t.api[h].refs == 1 && t.api[h].appRefs == 0 && t.api[h].alive && t.api[h].occ == s.m.nextOcc &&
    t.m.nextOcc == s.m.nextOcc + 1 && t.m.phase == s.m.phase == Active && !s.m.terminalFired && !t.m.terminalFired &&
    t.m.connClosed == s.m.connClosed && t.m.deferred == s.m.deferred && t.m.commitDepth == s.m.commitDepth &&
    t.stack == s.stack + push && t.log == s.log + seen && t.inApp &&
    (push == [] || (push == [Plain] && s.stack == [])) && (seen == [] || seen == [StreamOpened(s.m.nextOcc)])
  }

  lemma AcquiredOwing(s: State, t: State, h: nat, push: seq<Frame>, seen: seq<Seen>)
    requires Acquired(s, t, h, push, seen) && RefsOk(s) && ShapeOk(s)
    ensures !Owing(s, h) && forall g :: 0 <= g < |t.api| ==> Owing(t, g) == (Owing(s, g) || g == h)
    ensures Committing(t) == Committing(s) && (Committing(s) ==> t.stack[0] == s.stack[0] && s.stack[0].h != h)
    ensures Weights(s.stack, h) == 0
  {
    if Committing(s) {
      WeighsAtLeast(s.stack, 0, s.stack[0].h);
      assert t.stack[0] == s.stack[0];
    }
    assert push == [] ==> t.stack == s.stack;
  }

  lemma AcquiredShape(s: State, t: State, h: nat, push: seq<Frame>, seen: seq<Seen>)
    requires ShapeOk(s) && RefsOk(s) && Acquired(s, t, h, push, seen)
    ensures ShapeOk(t) && Fires(t.stack) == Fires(s.stack)
    ensures forall g :: 0 <= g < |t.api| ==> Weights(t.stack, g) == Weights(s.stack, g)
  {
    AcquiredOwing(s, t, h, push, seen);
    if push == [] {
      assert t.stack == s.stack;
      assert forall k :: 0 <= k < |t.stack| ==> FrameFits(s.stack, k);
    } else {
      assert t.stack == [Plain];
      NoFires(t.stack);
      forall g | 0 <= g < |t.api| ensures Weights(t.stack, g) == 0 {
        HandleFree(t.stack, g);
      }
    }
  }

  lemma AcquiredKeeps(s: State, t: State, h: nat, push: seq<Frame>, seen: seq<Seen>)
    requires Order(s) && Acquired(s, t, h, push, seen) && UsersOk(t)
    ensures Order(t)
  {
    AcquiredOwing(s, t, h, push, seen);
    AcquiredShape(s, t, h, push, seen);
    AcquiredLog(s, t, h, push, seen);
    hide OccOk, LastOk, ShapeOk, UsersOk, Owing, Weights;
  }

  lemma AcquiredLog(s: State, t: State, h: nat, push: seq<Frame>, seen: seq<Seen>)
    requires OccOk(s) && LastOk(s) && TerminalsOk(s) && Acquired(s, t, h, push, seen)
    requires !Owing(s, h) && forall g :: 0 <= g < |t.api| ==> Owing(t, g) == (Owing(s, g) || g == h)
    ensures OccOk(t) && LastOk(t) && Terminals(t.log) == Terminals(s.log)
  {
    hide Owing, OccOk, LastOk;
    LogGrows(s.log, StreamOpened(s.m.nextOcc));
    assert seen == [] ==> t.log == s.log;
    AcquiredOcc(s, t, h);
    NoClosedYet(s, t, seen);
  }

  lemma NoClosedYet(s: State, t: State, seen: seq<Seen>)
    requires Terminals(s.log) == 0 && t.log == s.log + seen && Closed !in seen
    ensures LastOk(t)
  {
    forall i | 0 <= i < |t.log| && t.log[i] == Closed ensures false {
      ClosedCounts(s.log, i);
    }
  }

  lemma AcquiredOcc(s: State, t: State, h: nat)
    requires OccOk(s) && h < |s.api| && |t.api| == |s.api| && t.api == s.api[h := t.api[h]]
    requires t.api[h].occ == s.m.nextOcc && t.m.nextOcc == s.m.nextOcc + 1
    requires forall o: nat :: Closings(t.log, o) == Closings(s.log, o)
    requires !Owing(s, h) && forall g :: 0 <= g < |t.api| ==> Owing(t, g) == (Owing(s, g) || g == h)
    ensures OccOk(t)
  {
    hide Owing, Closings;
    assert Owing(t, h);
    forall o: nat | o < t.m.nextOcc
      ensures Closings(t.log, o) == 1 || exists g :: 0 <= g < |t.api| && Owing(t, g) && t.api[g].occ == o
    {
      if o < s.m.nextOcc && Closings(s.log, o) != 1 {
        var g :| 0 <= g < |s.api| && Owing(s, g) && s.api[g].occ == o;
        assert Owing(t, g) && t.api[g].occ == o;
      } else if o == s.m.nextOcc {
        assert t.api[h].occ == o;
      }
    }
  }

  // ---------------------------------------------------------------- transport events

  /** A live handle is told something by a transport event. */
  lemma EventOrderKeeps(s: State, t: State, h: nat, push: seq<Frame>, seen: seq<Seen>)
    requires Order(s) && s.stack == [] && UsersOk(t) && h < |s.api| && s.api[h].alive
    requires Moves(s, t, h, [], [], push) && Fits(s, t, [], [], push) && Tells(s, t, h, seen)
    ensures Order(t)
  {
    LivesActive(s, h);
    hide Order;
    MovesKeep(s, t, h, [], [], push, seen);
  }

  lemma DataOrder(s: State, e: nat, fin: bool)
    requires Order(s) && Enabled(s, Data(e, fin)) && UsersOk(AfterData(s, e, fin))
    ensures Order(AfterData(s, e, fin))
  {
    var v := s.eng[e];
    var t := AfterData(s, e, fin);
    if v.drain || v.user < 0 {
      SameViewKeeps(s, t);
    } else {
      var h := v.user;
      OneWeight(DataReturn(h, e, v.gen, fin), h);
      assert s.api[h].alive && !Committing(t) && s.m.commitDepth == 0;
      hide Order;
      EventOrderKeeps(s, t, h, [DataReturn(h, e, v.gen, fin)], [StreamData(s.api[h].occ, fin)]);
    }
  }

  lemma WritableOrder(s: State, e: nat)
    requires Order(s) && Enabled(s, Writable(e)) && UsersOk(AfterWritable(s, e))
    ensures Order(AfterWritable(s, e))
  {
    var h := s.eng[e].user;
    if h >= 0 {
      var t := AfterWritable(s, e);
      OneWeight(DropHold(h), h);
      assert s.api[h].alive && !Committing(t) && s.m.commitDepth == 0;
      hide Order;
      EventOrderKeeps(s, t, h, [DropHold(h)], [StreamWritable(s.api[h].occ)]);
    }
  }

  lemma ResetOrder(s: State, e: nat)
    requires Order(s) && Enabled(s, PeerReset(e)) && UsersOk(AfterReset(s, e))
    ensures Order(AfterReset(s, e))
  {
    var v := s.eng[e];
    var t := AfterReset(s, e);
    if v.drain || v.user < 0 {
      SameViewKeeps(s, t);
    } else {
      var h := v.user;
      OneWeight(ResetReturn(h, e, v.gen), h);
      assert s.api[h].alive && !Committing(t) && s.m.commitDepth == 0;
      hide Order;
      EventOrderKeeps(s, t, h, [ResetReturn(h, e, v.gen)], [StreamReset(s.api[h].occ)]);
    }
  }

  lemma StopOrder(s: State, e: nat)
    requires Order(s) && Enabled(s, PeerStop(e)) && UsersOk(AfterStop(s, e))
    ensures Order(AfterStop(s, e))
  {
    var v := s.eng[e];
    var t := AfterStop(s, e);
    if v.user < 0 {
      SameViewKeeps(s, t);
    } else {
      var h := v.user;
      OneWeight(StopReturn(h, e, v.gen, v.commit), h);
      assert s.api[h].alive && !Committing(t) && s.m.commitDepth == 0;
      hide Order;
      EventOrderKeeps(s, t, h, [StopReturn(h, e, v.gen, v.commit)], [StreamStop(s.api[h].occ)]);
    }
  }

  lemma CommitOrder(s: State, e: nat, gen: nat)
    requires Order(s) && s.stack == [] && OnWt(s, e) && UsersOk(AfterSendOver(s, e, gen, true))
    requires s.eng[e].user >= 0 && s.inApp
    ensures Order(AfterSendOver(s, e, gen, true))
  {
    var t := AfterSendOver(s, e, gen, true);
    var h := s.eng[e].user;
    assert s.api[h].alive && s.m.commitDepth == 0;
    hide Order, UsersOk, Weights;
    if !s.api[h].commit || !s.api[h].flags.fin {
      SameViewKeeps(s, t);
    } else {
      CommittedOrder(s, t, h, e, gen);
    }
  }

  lemma CommittedOrder(s: State, t: State, h: nat, e: nat, gen: nat)
    requires Order(s) && s.stack == [] && UsersOk(t) && h < |s.api| && s.api[h].alive && s.m.commitDepth == 0
    requires t.stack == [CommitReturn(h, e, gen)] && t.log == s.log + [StreamCommitted(s.api[h].occ)] && t.inApp
    requires |t.api| == |s.api| && t.api == s.api[h := t.api[h]] && t.m == s.m.(commitDepth := 1)
    requires SameLife(s.api[h].(refs := s.api[h].refs + 1, alive := false), t.api[h])
    ensures Order(t)
  {
    CommitWeighs(h, e, gen);
    assert Weights([], h) == 0;
    hide Order, UsersOk, Weights;
    EventOrderKeeps(s, t, h, [CommitReturn(h, e, gen)], [StreamCommitted(s.api[h].occ)]);
  }

  lemma CommitWeighs(h: nat, e: nat, gen: nat)
    ensures Weights([CommitReturn(h, e, gen)], h) == 2
  {
    assert [CommitReturn(h, e, gen)][..0] == [];
  }

  /** A transport event that closes the handle outright. */
  lemma UserLives(s: State, e: nat)
    requires Order(s) && e < |s.eng| && s.eng[e].kind == Wt && s.eng[e].user >= 0
    ensures s.eng[e].user < |s.api| && s.api[s.eng[e].user].alive
  {
  }

  lemma AtRest(s: State)
    requires Order(s) && s.stack == []
    ensures s.m.commitDepth == 0
  {
  }

  lemma EventEnds(s: State, u: State, h: nat, root: Frame)
    requires Order(s) && s.stack == [] && h < |s.api| && s.api[h].alive && s.api[h].es < |u.eng|
    requires |u.api| == |s.api| && u.api == s.api[h := s.api[h].(refs := s.api[h].refs + 1, flags := Shut)]
    requires u.m == s.m && u.stack == s.stack && u.log == s.log && (root.EngineDone? || root.EngineRelease?)
    requires UsersOk(Terminal(u, h, [root, DropHold(h)]))
    ensures Order(Terminal(u, h, [root, DropHold(h)]))
  {
    hide Order, Weights, UsersOk;
    var t := Terminal(u, h, [root, DropHold(h)]);
    var push := [root, DropHold(h)] + [ClosedReturn(h)];
    AtRest(s);
    NoFrames();
    ThreeWeights(root, h);
    assert t.stack == push && !Committing(t);
    assert t.api == s.api[h := t.api[h]];
    hide Terminal;
    EventOrderKeeps(s, t, h, push, [StreamClosed(s.api[h].occ)]);
  }

  lemma AbandonOrder(s: State, e: nat, gen: nat)
    requires Order(s) && s.stack == [] && OnWt(s, e) && UsersOk(AfterSendOver(s, e, gen, false))
    requires s.eng[e].user >= 0
    ensures Order(AfterSendOver(s, e, gen, false))
  {
    hide Order, UsersOk, Terminal;
    var h := s.eng[e].user;
    UserLives(s, e);
    var v := s.eng[e];
    var u := Put(s, e, v.(flags := ShutSides(v.flags, true, false)));
    EventEnds(s, Handle(u, h, s.api[h].(refs := s.api[h].refs + 1, flags := Shut)), h, EngineDone(e, gen, true));
  }

  lemma GoneOrder(s: State, e: nat)
    requires Order(s) && s.stack == [] && s.inApp && OnWt(s, e) && UsersOk(AfterGone(s, e))
    ensures Order(AfterGone(s, e))
  {
    var v := s.eng[e];
    hide Order, UsersOk;
    if !AnyOpen(v.flags) || v.user < 0 || !s.api[v.user].alive {
      SameViewKeeps(s, AfterGone(s, e));
    } else {
      GoneEnds(s, e);
    }
  }

  lemma GoneEnds(s: State, e: nat)
    requires Order(s) && s.stack == [] && s.inApp && OnWt(s, e) && UsersOk(AfterGone(s, e))
    requires AnyOpen(s.eng[e].flags) && s.eng[e].user >= 0 && s.api[s.eng[e].user].alive
    ensures Order(AfterGone(s, e))
  {
    var v := s.eng[e];
    var h := v.user;
    hide Order, UsersOk, Terminal;
    var u := Put(s, e, v.(flags := Shut, drain := false));
    EventEnds(s, Handle(u, h, s.api[h].(refs := s.api[h].refs + 1, flags := Shut)), h, EngineRelease(e, v.gen));
  }

  // ---------------------------------------------------------------- returning from callbacks

  /** The frame on top, and what lies under it. */
  predicate Top(s: State, base: seq<Frame>, f: Frame) {
    s.stack == base + [f] && InRange(s.(stack := base), f)
  }

  lemma TopFits(s: State, base: seq<Frame>, f: Frame)
    requires ShapeOk(s) && Top(s, base, f)
    ensures IsRoot(f) ==> base == []
    ensures f.FireDeferred? ==> |base| == 1 && base[0].EngineDone? && s.m.commitDepth == 0
    ensures base != [] ==> s.stack[0] == base[0]
    ensures base == [] ==> s.stack[0] == f
    ensures IsRoot(f) && !f.CommitReturn? ==> s.m.commitDepth == 0
  {
    assert s.stack[|base|] == f;
    assert FrameFits(s.stack, |base|);
  }

  /** A callback that says nothing more about its handle releases its hold. */
  lemma DropOrder(s: State, t: State, base: seq<Frame>, f: Frame)
    requires Order(s) && Top(s, base, f) && UsersOk(t)
    requires f.DataReturn? || f.ResetReturn? || f.StopReturn? || f.ClosedReturn? || f.DropHold?
    requires |t.api| == |s.api| && f.h < |s.api| && t.api == s.api[f.h := t.api[f.h]]
    requires SameLife(s.api[f.h].(refs := s.api[f.h].refs - 1), t.api[f.h])
    requires t.m == s.m && t.log == s.log && t.stack == base && t.inApp == (base == [])
    ensures Order(t)
  {
    TopFits(s, base, f);
    OneWeight(f, f.h);
    assert base + [] == base && s.log + [] == s.log;
    assert Committing(t) == Committing(s);
    hide RefsOk, OccOk, EndOk, TerminalsOk, LastOk, UsersOk, Weights, InRange;
    MovesKeep(s, t, f.h, base, [f], [], []);
  }

  /** The last callback about a handle is followed by its closed event. */
  lemma EndsOrder(s: State, u: State, f: Frame, frames: seq<Frame>)
    requires Order(s) && s.stack == [f] && (f.DataReturn? || f.ResetReturn? || f.StopReturn?)
    requires f.h < |s.api| && |u.api| == |s.api| && u.api == s.api[f.h := u.api[f.h]] && u.api[f.h].es < |u.eng|
    requires SameLife(s.api[f.h], u.api[f.h]) && s.api[f.h].alive
    requires u.m == s.m && u.log == s.log && u.stack == []
    requires frames == [DropHold(f.h)] || (|frames| == 2 && (frames[0].EngineFin? || frames[0].EngineDone?) && frames[1] == DropHold(f.h))
    requires UsersOk(Terminal(u, f.h, frames))
    ensures Order(Terminal(u, f.h, frames))
  {
    var h := f.h;
    var t := Terminal(u, h, frames);
    EndWeights(frames, h);
    OneWeight(f, h);
    assert s.m.commitDepth == 0;
    assert t.api == s.api[h := t.api[h]];
    assert t.m == s.m && t.stack == frames + [ClosedReturn(h)] && t.log == s.log + [StreamClosed(s.api[h].occ)] && t.inApp;
    hide Order, UsersOk, Weights, Terminal;
    EndedReturn(s, t, h, f, frames + [ClosedReturn(h)]);
  }

  lemma EndedReturn(s: State, t: State, h: nat, f: Frame, push: seq<Frame>)
    requires Order(s) && s.stack == [f] && (f.DataReturn? || f.ResetReturn? || f.StopReturn?) && f.h == h && UsersOk(t)
    requires h < |s.api| && s.api[h].alive && s.m.commitDepth == 0 && Weights([f], h) == 1 && Weights(push, h) == 2
    requires |t.api| == |s.api| && t.api == s.api[h := t.api[h]] && SameLife(s.api[h].(alive := false), t.api[h])
    requires t.m == s.m && t.stack == push && t.log == s.log + [StreamClosed(s.api[h].occ)] && t.inApp
    requires 2 <= |push| <= 3 && push[|push| - 1] == ClosedReturn(h) && push[|push| - 2] == DropHold(h)
    requires |push| == 3 ==> push[0].EngineFin? || push[0].EngineDone?
    ensures Order(t)
  {
    hide Order, UsersOk, Weights;
    EndedFits(s, t, h, f, push);
    assert [] + [f] == s.stack && t.stack == [] + push;
    assert !Committing(t) && !Committing(s);
    hide Streamy, Fits;
    MovesKeep(s, t, h, [], [f], push, [StreamClosed(s.api[h].occ)]);
  }

  lemma EndedFits(s: State, t: State, h: nat, f: Frame, push: seq<Frame>)
    requires (f.DataReturn? || f.ResetReturn? || f.StopReturn?) && f.h == h && t.stack == push
    requires 2 <= |push| <= 3 && push[|push| - 1] == ClosedReturn(h) && push[|push| - 2] == DropHold(h)
    requires |push| == 3 ==> push[0].EngineFin? || push[0].EngineDone?
    ensures Streamy(push, h) && Streamy([f], h) && Fits(s, t, [], [f], push)
  {
  }

  lemma EndWeights(frames: seq<Frame>, h: nat)
    requires frames == [DropHold(h)] || (|frames| == 2 && (frames[0].EngineFin? || frames[0].EngineDone?) && frames[1] == DropHold(h))
    ensures Weights(frames + [ClosedReturn(h)], h) == 2
  {
    if |frames| == 1 {
      TwoWeights(h);
    } else {
      ThreeWeights(frames[0], h);
      assert frames == [frames[0], DropHold(h)];
    }
  }

  lemma CloseRecvOrder(s: State, f: Frame, tail: Frame)
    requires Order(s) && Top(s, [], f) && (f.DataReturn? || f.ResetReturn?) && !s.inApp
    requires (tail.EngineFin? || tail.EngineDone?) && tail.e < |s.eng|
    requires UsersOk(CloseRecv(s.(stack := []), f.h, tail))
    ensures Order(CloseRecv(s.(stack := []), f.h, tail))
  {
    hide Order, UsersOk;
    var h := f.h;
    var a := s.api[h];
    var z := s.(stack := []);
    var u := if a.alive then Handle(z, h, a.(flags := a.flags.(recv := false))) else z;
    if Finished(u.api[h]) {
      EndsOrder(s, u, f, [tail, DropHold(h)]);
    } else {
      DropOrder(s, CloseRecv(z, h, tail), [], f);
    }
  }

  lemma StopReturnOrder(s: State, f: Frame)
    requires Order(s) && Top(s, [], f) && f.StopReturn? && !s.inApp && UsersOk(Resumed(s.(stack := []), f))
    ensures Order(Resumed(s.(stack := []), f))
  {
    hide Order, UsersOk;
    var z := s.(stack := []);
    if s.api[f.h].commit && Finished(s.api[f.h]) {
      EndsOrder(s, z, f, (if f.commit then [EngineDone(f.e, f.gen, true)] else []) + [DropHold(f.h)]);
    } else {
      DropOrder(s, Resumed(z, f), [], f);
    }
  }

  lemma CommitReturnOrder(s: State, f: Frame)
    requires Order(s) && Top(s, [], f) && f.CommitReturn? && UsersOk(Resumed(s.(stack := []), f))
    ensures Order(Resumed(s.(stack := []), f))
  {
    var h := f.h;
    var t := Resumed(s.(stack := []), f);
    var push := [EngineDone(f.e, f.gen, true), FireDeferred, DropHold(h), ClosedReturn(h)];
    CommitWeights(f.e, f.gen, h);
    CommitWeighs(h, f.e, f.gen);
    assert s.stack == [f];
    assert s.stack == [] + [f] && t.stack == [] + push;
    assert s.m.commitDepth == 1;
    assert t.api == s.api && s.api == s.api[h := s.api[h]];
    assert !Committing(t) && Committing(s) && !s.api[h].alive;
    assert t.log == s.log + [StreamClosed(s.api[h].occ)] && SameMeta(s.m, t.m) && t.m.commitDepth == 0;
    hide RefsOk, OccOk, EndOk, TerminalsOk, LastOk, UsersOk, Weights, Resumed, ShapeOk;
    assert Fits(s, t, [], [f], push);
    assert Streamy(push, h) && Streamy([f], h);
    hide Fits, Streamy;
    MovesKeep(s, t, h, [], [f], push, [StreamClosed(s.api[h].occ)]);
  }

  /** A frame without a handle leaves, and the application may be told how the session ended. */
  predicate Leaves(s: State, t: State, base: seq<Frame>, f: Frame, push: seq<Frame>, seen: seq<Seen>) {
    t.api == s.api && s.stack == base + [f] && t.stack == base + push && t.log == s.log + seen &&
    t.m.phase == s.m.phase && t.m.connClosed == s.m.connClosed && t.m.terminalFired == s.m.terminalFired &&
    t.m.nextOcc == s.m.nextOcc && t.m.commitDepth == s.m.commitDepth && (t.inApp || t.stack != []) &&
    !HasHandle(f) && (f.Teardown? ==> f.next == |s.api|) && (push == [] || push == [Plain]) &&
    (seen == [] || (|seen| == 1 && IsTerminal(seen[0])))
  }

  lemma LeavesShape(s: State, t: State, base: seq<Frame>, f: Frame, push: seq<Frame>, seen: seq<Seen>)
    requires ShapeOk(s) && Leaves(s, t, base, f, push, seen)
    requires t.m.deferred ==> Committing(t) || (|t.stack| > 1 && t.stack[1].FireDeferred?)
    ensures ShapeOk(t) && forall h :: 0 <= h < |s.api| ==> Owing(t, h) == Owing(s, h)
  {
    assert base != [] ==> t.stack[0] == s.stack[0] == base[0];
    assert base == [] ==> s.stack[0] == f && t.stack == push;
    forall k | 0 <= k < |t.stack| ensures FrameFits(t.stack, k) {
      if k < |base| {
        assert FrameFits(s.stack, k);
        assert t.stack[k] == s.stack[k] && (k > 0 ==> t.stack[k - 1] == s.stack[k - 1]);
      } else {
        assert t.stack[k] == Plain;
      }
    }
  }

  lemma LeavesRefs(s: State, t: State, base: seq<Frame>, f: Frame, push: seq<Frame>, seen: seq<Seen>)
    requires RefsOk(s) && EndOk(s) && Leaves(s, t, base, f, push, seen)
    ensures RefsOk(t) && EndOk(t)
  {
    forall h | 0 <= h < |t.api| ensures Weights(t.stack, h) == Weights(s.stack, h) {
      WeightsConcat(base, [f], h);
      WeightsConcat(base, push, h);
      HandleFree([f], h);
      HandleFree(push, h);
    }
    if t.m.terminalFired {
      forall g | 0 <= g < |t.api| && t.api[g].alive ensures TornLater(t, g) {
        assert TornLater(s, g);
        var k :| 0 <= k < |s.stack| && s.stack[k].Teardown? && s.stack[k].next <= g;
        assert k < |base|;
        assert t.stack[k] == s.stack[k];
      }
    }
  }

  lemma LeavesKeeps(s: State, t: State, base: seq<Frame>, f: Frame, push: seq<Frame>, seen: seq<Seen>)
    requires Order(s) && Leaves(s, t, base, f, push, seen) && UsersOk(t) && TerminalsOk(t)
    requires t.m.deferred ==> Committing(t) || (|t.stack| > 1 && t.stack[1].FireDeferred?)
    requires seen != [] ==> Terminals(s.log) == 0
    requires seen == [Closed] ==> forall h :: 0 <= h < |s.api| ==> !Owing(s, h)
    ensures Order(t)
  {
    LeavesShape(s, t, base, f, push, seen);
    LeavesRefs(s, t, base, f, push, seen);
    if seen == [] {
      assert t.log == s.log;
    } else {
      LogGrows(s.log, seen[0]);
      assert seen == [seen[0]];
    }
    LeavesLast(s, t, seen);
    OwingOcc(s, t);
  }

  lemma LeavesLast(s: State, t: State, seen: seq<Seen>)
    requires LastOk(s) && t.log == s.log + seen && t.api == s.api && |seen| <= 1
    requires forall h :: 0 <= h < |s.api| ==> Owing(t, h) == Owing(s, h)
    requires seen != [] ==> Terminals(s.log) == 0
    requires seen == [Closed] ==> forall h :: 0 <= h < |s.api| ==> !Owing(s, h)
    ensures LastOk(t)
  {
    hide Owing;
    forall i | 0 <= i < |t.log| && t.log[i] == Closed
      ensures i == |t.log| - 1 && forall h :: 0 <= h < |t.api| ==> !Owing(t, h)
    {
      if i < |s.log| {
        ClosedCounts(s.log, i);
        assert s.log[i] == Closed;
      } else {
        assert seen == [Closed];
      }
    }
  }

  /** An ordinary frame leaves and nothing is said. */
  lemma QuietOrder(s: State, t: State, base: seq<Frame>, f: Frame)
    requires Order(s) && Leaves(s, t, base, f, [], []) && UsersOk(t) && t.m.deferred == s.m.deferred
    requires !IsFire(f) && (f.FireDeferred? ==> !s.m.deferred)
    ensures Order(t)
  {
    FiresConcat(base, [f]);
    NoFires([f]);
    assert base + [] == base && s.log + [] == s.log;
    assert t.m.deferred ==> Committing(t) || (|t.stack| > 1 && t.stack[1].FireDeferred?) by {
      assert base != [] ==> t.stack[0] == s.stack[0];
      assert base == [] ==> s.stack[0] == f;
      assert |base| > 1 ==> t.stack[1] == s.stack[1];
      assert |base| == 1 ==> s.stack[1] == f;
    }
    hide RefsOk, ShapeOk, EndOk, OccOk, LastOk, UsersOk;
    LeavesKeeps(s, t, base, f, [], []);
  }

  /** The terminal event fires, or waits for the commitment callback to end. */
  lemma FireFacts(s: State, base: seq<Frame>, f: Frame)
    requires Order(s) && s.stack == base + [f] && IsFire(f)
    ensures Terminals(s.log) == 0 && !s.m.deferred && Fires(base) == 0 && s.m.terminalFired
    ensures forall h :: 0 <= h < |s.api| ==> !s.api[h].alive
    ensures s.m.commitDepth == Bit(Committing(s)) && s.stack[|base|] == f
    ensures Committing(s) ==> base != [] && s.stack[0] == base[0]
  {
    FiresConcat(base, [f]);
    FiresAt([f], 0);
    NothingWaits(s, base, f);
    assert s.stack[|base|] == f;
  }

  lemma FireOrder(s: State, base: seq<Frame>, f: Frame)
    requires Order(s) && s.stack == base + [f] && IsFire(f) && UsersOk(Resumed(s.(stack := base), f))
    ensures Order(Resumed(s.(stack := base), f))
  {
    FireFacts(s, base, f);
    var t := Resumed(s.(stack := base), f);
    hide Order, UsersOk;
    if f == FireClosed && s.m.commitDepth != 0 {
      assert base + [] == base && s.log + [] == s.log;
      LeavesKeeps(s, t, base, f, [], []);
    } else {
      FiresConcat(base, [Plain]);
      NoFires([Plain]);
      var x := if f == FireClosed then Closed else Failed;
      LogGrows(s.log, x);
      assert f == FireClosed ==> !Committing(s);
      LeavesKeeps(s, t, base, f, [Plain], [x]);
    }
  }

  lemma NothingWaits(s: State, base: seq<Frame>, f: Frame)
    requires ShapeOk(s) && EndOk(s) && s.m.terminalFired && s.stack == base + [f] && !f.Teardown? && Fires(base) == 0
    ensures forall h :: 0 <= h < |s.api| ==> !s.api[h].alive
  {
    forall h | 0 <= h < |s.api| ensures !s.api[h].alive {
      if s.api[h].alive {
        assert TornLater(s, h);
        var k :| 0 <= k < |s.stack| && s.stack[k].Teardown? && s.stack[k].next <= h;
        assert FrameFits(s.stack, k);
        assert base[k - 1] == s.stack[k - 1];
        FiresAt(base, k - 1);
      }
    }
  }

  lemma DeferredOrder(s: State, base: seq<Frame>)
    requires Order(s) && Top(s, base, FireDeferred) && UsersOk(Resumed(s.(stack := base), FireDeferred))
    ensures Order(Resumed(s.(stack := base), FireDeferred))
  {
    var t := Resumed(s.(stack := base), FireDeferred);
    TopFits(s, base, FireDeferred);
    if s.m.deferred {
      FiresConcat(base, [FireDeferred]);
      NoFires([FireDeferred]);
      FiresConcat(base, [Plain]);
      NoFires([Plain]);
      LogGrows(s.log, Closed);
      NothingWaits(s, base, FireDeferred);
      assert !Committing(s);
      hide RefsOk, ShapeOk, EndOk, OccOk, LastOk, UsersOk;
      LeavesKeeps(s, t, base, FireDeferred, [Plain], [Closed]);
    } else {
      assert base + [] == base && s.log + [] == s.log;
      hide Order, UsersOk;
      QuietOrder(s, t, base, FireDeferred);
    }
  }

  // ---------------------------------------------------------------- the teardown

  lemma AdvanceOrder(s: State, k: nat, i: nat)
    requires Order(s) && k < |s.stack| && s.stack[k] == Teardown(i) && i < |s.api| && !s.api[i].alive
    ensures Order(s.(stack := s.stack[k := Teardown(i + 1)]))
  {
    var t := s.(stack := s.stack[k := Teardown(i + 1)]);
    forall h | 0 <= h < |t.api| ensures Weights(t.stack, h) == Weights(s.stack, h) {
      SameWeights(s.stack, k, i, h);
    }
    SameFires(s.stack, k, i);
    assert forall h :: 0 <= h < |s.api| ==> Owing(t, h) == Owing(s, h);
    OwingOcc(s, t);
    AdvanceShape(s, k, i);
    hide OccOk, ShapeOk, Weights, Fires;
    if s.m.terminalFired {
      forall g | 0 <= g < |t.api| && t.api[g].alive ensures TornLater(t, g) {
        assert TornLater(s, g);
        var j :| 0 <= j < |s.stack| && s.stack[j].Teardown? && s.stack[j].next <= g;
        assert t.stack[j].Teardown? && t.stack[j].next <= g;
      }
    }
  }

  lemma AdvanceShape(s: State, k: nat, i: nat)
    requires ShapeOk(s) && k < |s.stack| && s.stack[k] == Teardown(i)
    ensures ShapeOk(s.(stack := s.stack[k := Teardown(i + 1)]))
  {
    var fs := s.stack[k := Teardown(i + 1)];
    assert FrameFits(s.stack, k);
    forall j | 0 <= j < |fs| ensures FrameFits(fs, j) {
      assert FrameFits(s.stack, j);
    }
  }

  lemma {:induction false} SameFires(fs: seq<Frame>, k: nat, i: nat)
    requires k < |fs| && fs[k] == Teardown(i)
    ensures Fires(fs[k := Teardown(i + 1)]) == Fires(fs)
  {
    var n := |fs| - 1;
    if k == n {
      assert fs[k := Teardown(i + 1)][..n] == fs[..n];
    } else {
      SameFires(fs[..n], k, i);
      assert fs[k := Teardown(i + 1)][..n] == fs[..n][k := Teardown(i + 1)];
    }
  }

  lemma TearOneOrder(s: State, i: nat)
    requires Order(s) && i < |s.api| && s.api[i].alive && s.api[i].es < |s.eng|
    ensures Order(TornOne(s, i))
  {
    var t := TornOne(s, i);
    HandleFrame(s, i, s.api[i].(flags := Shut));
    var u := Handle(s, i, s.api[i].(flags := Shut));
    TerminalFrame(u, i, []);
    FramedUsers(s, u);
    FramedUsers(u, t);
    assert [] + [ClosedReturn(i)] == [ClosedReturn(i)];
    OneWeight(ClosedReturn(i), i);
    assert s.stack + [] == s.stack;
    assert Committing(t) == Committing(s) && (Committing(s) ==> s.stack[0].h != i && t.stack[0] == s.stack[0]);
    LivesActive(s, i);
    assert t.api == s.api[i := t.api[i]];
    hide RefsOk, OccOk, EndOk, TerminalsOk, LastOk, UsersOk, Weights, Framed;
    MovesKeep(s, t, i, s.stack, [], [ClosedReturn(i)], [StreamClosed(s.api[i].occ)]);
  }

  lemma LivesHeld(s: State, h: nat)
    requires Order(s) && h < |s.api| && s.api[h].alive
    ensures s.api[h].refs > 0
  {
  }

  lemma TeardownOrder(s: State, base: seq<Frame>, i: nat)
    requires Order(s) && !s.inApp && Top(s, base, Teardown(i)) && UsersOk(Resumed(s.(stack := base), Teardown(i)))
    ensures Order(Resumed(s.(stack := base), Teardown(i)))
  {
    hide Order, UsersOk;
    var t := Resumed(s.(stack := base), Teardown(i));
    var n := |base|;
    assert s.stack[n] == Teardown(i);
    assert base + [] == base && s.log + [] == s.log;
    if i == |s.api| {
      QuietOrder(s, t, base, Teardown(i));
    } else if s.api[i].alive {
      LivesHeld(s, i);
      TearOneOrder(s, i);
      var u := TornOne(s, i);
      AdvanceOrder(u, n, i);
      assert t.stack == u.stack[n := Teardown(i + 1)];
      assert t == u.(stack := u.stack[n := Teardown(i + 1)]);
    } else {
      AdvanceOrder(s, n, i);
      assert t == s.(stack := s.stack[n := Teardown(i + 1)]);
    }
  }

  lemma RootOrder(s: State, f: Frame)
    requires Order(s) && !s.inApp && Top(s, [], f) && IsRoot(f) && UsersOk(Resumed(s.(stack := []), f))
    ensures Order(Resumed(s.(stack := []), f))
  {
    var t := Resumed(s.(stack := []), f);
    assert [] + [f] == [f] && s.log + [] == s.log;
    hide Order, UsersOk, CloseRecv;
    match f
    case DataReturn(h, e, gen, fin) =>
      if fin {
        CloseRecvOrder(s, f, EngineFin(e, gen));
      } else {
        DropOrder(s, t, [], f);
      }
    case ResetReturn(h, e, gen) => CloseRecvOrder(s, f, EngineDone(e, gen, false));
    case StopReturn(h, e, gen, commit) => StopReturnOrder(s, f);
    case CommitReturn(h, e, gen) => CommitReturnOrder(s, f);
    case EngineFin(_, _) => QuietOrder(s, t, [], f);
    case EngineDone(_, _, _) => QuietOrder(s, t, [], f);
    case EngineRelease(_, _) => QuietOrder(s, t, [], f);
  }

  lemma ReturnOrder(s: State, base: seq<Frame>, f: Frame)
    requires Order(s) && !s.inApp && Top(s, base, f) && UsersOk(Resumed(s.(stack := base), f))
    ensures Order(Resumed(s.(stack := base), f))
  {
    var t := Resumed(s.(stack := base), f);
    TopFits(s, base, f);
    hide Order, UsersOk, CloseRecv;
    if IsRoot(f) {
      RootOrder(s, f);
    } else {
      match f
      case ClosedReturn(h) => DropOrder(s, t, base, f);
      case DropHold(h) => DropOrder(s, t, base, f);
      case Teardown(i) => TeardownOrder(s, base, i);
      case FireClosed => FireOrder(s, base, f);
      case FireFailed => FireOrder(s, base, f);
      case FireDeferred => DeferredOrder(s, base);
      case Plain =>
        assert base + [] == base && s.log + [] == s.log;
        QuietOrder(s, t, base, f);
    }
  }

  // ---------------------------------------------------------------- every step, every run

  lemma ResumeOrder(s: State)
    requires Order(s) && Enabled(s, Resume) && UsersOk(Next(s, Resume))
    ensures Order(Next(s, Resume))
  {
    var n := |s.stack| - 1;
    assert s.stack == s.stack[..n] + [s.stack[n]];
    hide Order, UsersOk, Resumed;
    ReturnOrder(s, s.stack[..n], s.stack[n]);
  }

  lemma OpenOrder(s: State, ev: Event)
    requires Order(s) && Enabled(s, ev) && UsersOk(Next(s, ev)) && (ev.Open? || ev.PeerStream?)
    ensures Order(Next(s, ev))
  {
    assert EndOk(s);
    hide Order, UsersOk;
    var t := Next(s, ev);
    if ev.PeerStream? {
      AcquiredKeeps(s, t, ev.h, [Plain], [StreamOpened(s.m.nextOcc)]);
    } else if !s.m.terminalFired && !s.m.connClosed && s.m.phase == Active {
      assert s.stack + [] == s.stack && s.log + [] == s.log;
      AcquiredKeeps(s, t, ev.h, [], []);
    }
  }

  lemma SlotOrder(s: State, ev: Event)
    requires Order(s) && Enabled(s, ev) && UsersOk(Next(s, ev))
    requires ev.AppReturn? || ev.EnableCommit? || ev.OpenUnheld? || ev.PeerAlloc? || ev.PeerFree? || ev.PeerUnheld? || ev.Retire?
    ensures Order(Next(s, ev))
  {
    assert s.inApp || s.stack != [];
    hide Order, UsersOk;
    SameViewKeeps(s, Next(s, ev));
  }

  lemma FirstOrder(s: State, ev: Event)
    requires Order(s) && Enabled(s, ev) && (ev.Establish? || ev.Refuse? || ev.Fail?)
    ensures Order(Next(s, ev))
  {
    assert !s.m.terminalFired by {
      assert EndOk(s);
    }
    hide Order;
    OutcomeOrder(s, Next(s, ev), if ev.Establish? then Established else if ev.Refuse? then Refused else Failed);
  }

  lemma SessionOrder(s: State, ev: Event)
    requires Order(s) && Enabled(s, ev) && (ev.OpenFatal? || ev.CloseSession? || ev.PeerClose? || ev.Lost?)
    ensures Order(Next(s, ev))
  {
    hide Order, LoseConnection, EndSession;
    if ev.Lost? || ev.OpenFatal? {
      LoseOrder(s);
    } else if s.m.phase == Active {
      EndOrder(s, ev.rawFails);
    }
  }

  lemma RefOrder(s: State, ev: Event)
    requires Order(s) && Enabled(s, ev) && UsersOk(Next(s, ev)) && (ev.AddRef? || ev.ReleaseRef?)
    ensures Order(Next(s, ev))
  {
    hide Order, UsersOk;
    if ev.AddRef? || s.api[ev.h].appRefs > 0 {
      CountKeeps(s, Next(s, ev), ev.h);
    }
  }

  lemma SendOverOrder(s: State, e: nat, gen: nat, graceful: bool)
    requires Order(s) && s.stack == [] && s.inApp && OnWt(s, e) && UsersOk(AfterSendOver(s, e, gen, graceful))
    ensures Order(AfterSendOver(s, e, gen, graceful))
  {
    hide Order, UsersOk;
    if s.eng[e].user < 0 {
      SameViewKeeps(s, AfterSendOver(s, e, gen, graceful));
    } else if graceful {
      CommitOrder(s, e, gen);
    } else {
      AbandonOrder(s, e, gen);
    }
  }

  lemma StepOrdered(s: State, ev: Event)
    requires Order(s) && Enabled(s, ev)
    ensures Order(Next(s, ev))
  {
    UsersKept(s, ev);
    assert s.stack == [] ==> s.inApp;
    hide Order, UsersOk;
    match ev
    case Resume => ResumeOrder(s);
    case Send(h, fin, ok) => SendOrder(s, h, fin, ok);
    case Shutdown(h, send, recv, whole, answer) => ShutdownOrder(s, h, send, recv, whole, answer);
    case Open(_, _, _) => OpenOrder(s, ev);
    case PeerStream(_, _, _) => OpenOrder(s, ev);
    case AddRef(_) => RefOrder(s, ev);
    case ReleaseRef(_) => RefOrder(s, ev);
    case Data(e, fin) => DataOrder(s, e, fin);
    case PeerReset(e) => ResetOrder(s, e);
    case PeerStop(e) => StopOrder(s, e);
    case SendOver(e, gen, graceful) => SendOverOrder(s, e, gen, graceful);
    case StreamGone(e) => GoneOrder(s, e);
    case Writable(e) => WritableOrder(s, e);
    case PeerDrain => NoticeOrder(s, ev);
    case PeerDatagram => NoticeOrder(s, ev);
    case _ =>
      if ev.AppReturn? || ev.EnableCommit? || ev.OpenUnheld? || ev.PeerAlloc? || ev.PeerFree? || ev.PeerUnheld? || ev.Retire? {
        SlotOrder(s, ev);
      } else if ev.Establish? || ev.Refuse? || ev.Fail? {
        FirstOrder(s, ev);
      } else {
        SessionOrder(s, ev);
      }
  }

  lemma InitOrdered(engine: nat, handles: nat, budgeted: bool)
    ensures Order(Init(engine, handles, budgeted))
  {
    var s := Init(engine, handles, budgeted);
    assert forall h :: 0 <= h < |s.api| ==> s.api[h] == EmptyHandle;
    assert forall e :: 0 <= e < |s.eng| ==> s.eng[e] == EmptyEngine;
  }

  lemma {:induction false} RunOrdered(es: seq<Event>, ss: seq<State>, n: nat)
    requires Run(es, ss) && n <= |es|
    ensures Order(ss[n])
  {
    if n == 0 {
      InitOrdered(|ss[0].eng|, |ss[0].api|, ss[0].m.budgeted);
    } else {
      RunOrdered(es, ss, n - 1);
      hide Order;
      StepOrdered(ss[n - 1], es[n - 1]);
    }
  }

  // ---------------------------------------------------------------- what the application may rely on

  /** At most one terminal event in every run, and exactly one once the connection or session is over. */
  lemma OneTerminal(es: seq<Event>, ss: seq<State>, n: nat)
    requires Run(es, ss) && n <= |es|
    ensures Terminals(ss[n].log) <= 1
    ensures ss[n].stack == [] ==> Terminals(ss[n].log) == Bit(ss[n].m.terminalFired)
    ensures ss[n].stack == [] && ss[n].m.connClosed ==> Terminals(ss[n].log) == 1
  {
    RunOrdered(es, ss, n);
  }

  /** Each stream is closed at most once; after the session is over, each was closed exactly once. */
  lemma OneClosing(es: seq<Event>, ss: seq<State>, n: nat, o: nat)
    requires Run(es, ss) && n <= |es|
    ensures Closings(ss[n].log, o) <= 1
    ensures ss[n].stack == [] && ss[n].m.terminalFired ==> Closings(ss[n].log, o) == Bit(o < ss[n].m.nextOcc)
  {
    RunOrdered(es, ss, n);
    if ss[n].stack == [] && ss[n].m.terminalFired {
      NobodyLeft(ss[n]);
      assert forall h :: 0 <= h < |ss[n].api| ==> !Owing(ss[n], h);
    }
  }

  lemma {:induction false} CountedIsThere(log: seq<Seen>, o: nat) returns (j: nat)
    requires Closings(log, o) > 0
    ensures j < |log| && log[j] == StreamClosed(o)
  {
    var n := |log| - 1;
    if log[n] == StreamClosed(o) {
      j := n;
    } else {
      j := CountedIsThere(log[..n], o);
    }
  }

  /**
   The session's closed event is the last thing the application sees, and every stream it ever
   had was reported closed before it, even when the session is closed from inside a commitment
   callback.
   */
  lemma ClosedComesLast(es: seq<Event>, ss: seq<State>, n: nat, i: nat, o: nat)
    requires Run(es, ss) && n <= |es| && i < |ss[n].log| && ss[n].log[i] == Closed && o < ss[n].m.nextOcc
    ensures i == |ss[n].log| - 1
    ensures exists j :: 0 <= j < i && ss[n].log[j] == StreamClosed(o)
  {
    RunOrdered(es, ss, n);
    assert Closings(ss[n].log, o) == 1;
    var j := CountedIsThere(ss[n].log, o);
  }

  /** Every stream the session ever had was reported closed. */
  ghost predicate AllClosed(log: seq<Seen>, occupancies: nat) {
    forall o: nat :: o < occupancies ==> Closings(log, o) == 1
  }

  lemma FailureFires(s: State)
    requires Order(s) && Enabled(s, Resume) && s.stack[|s.stack| - 1].FireFailed?
    ensures var t := Next(s, Resume); t.log == s.log + [Failed] && (AllClosed(t.log, t.m.nextOcc) <==> s.m.commitDepth == 0)
  {
    var n := |s.stack| - 1;
    assert s.stack == s.stack[..n] + [FireFailed];
    assert Next(s, Resume).log == s.log + [Failed] && Next(s, Resume).m == s.m;
    hide Next, Enabled;
    FailureFinds(s, s.stack[..n]);
    hide Order;
    LogGrows(s.log, Failed);
    if s.m.commitDepth != 0 {
      var o: nat :| o < s.m.nextOcc && Closings(s.log, o) != 1;
      assert Closings(s.log + [Failed], o) != 1;
    }
  }

  /**
   Whenever in a run a failure fires, the streams have all been reported closed if and only if the
   application is not inside a commitment callback.
   */
  lemma FailureOrderIff(es: seq<Event>, ss: seq<State>, n: nat)
    requires Run(es, ss) && n < |es| && es[n] == Resume && ss[n].stack[|ss[n].stack| - 1].FireFailed?
    ensures ss[n + 1].log == ss[n].log + [Failed]
    ensures AllClosed(ss[n + 1].log, ss[n + 1].m.nextOcc) <==> ss[n].m.commitDepth == 0
  {
    RunOrdered(es, ss, n);
    assert Enabled(ss[n], es[n]) && ss[n + 1] == Next(ss[n], es[n]);
    hide Order, Run, Next, Enabled, AllClosed;
    FailureFires(ss[n]);
  }

  lemma FailureFinds(s: State, base: seq<Frame>)
    requires Order(s) && s.stack == base + [FireFailed]
    ensures AllClosed(s.log, s.m.nextOcc) <==> s.m.commitDepth == 0
  {
    FiresConcat(base, [FireFailed]);
    FiresAt([FireFailed], 0);
    NothingWaits(s, base, FireFailed);
    if Committing(s) {
      var h := s.stack[0].h;
      assert Owing(s, h);
      assert Closings(s.log, s.api[h].occ) == 0;
    } else {
      assert forall h :: 0 <= h < |s.api| ==> !Owing(s, h);
    }
  }

  // ---------------------------------------------------------------- a failure inside a commitment callback

  function Pair(v: ESlot, w: ESlot, a: ASlot, b: ASlot, gen: nat, occ: nat, stack: seq<Frame>, inApp: bool, log: seq<Seen>): State {
    State([v, w], [a, b], Meta(Active, false, false, false, 0, gen, occ, false, false), stack, inApp, log)
  }

  function Ending(b: ASlot, user: int, stack: seq<Frame>, inApp: bool, log: seq<Seen>): State {
    State([ClosedSlot, OtherSlot.(kind := Free, flags := Shut, user := user)], [Committed, b],
          Meta(Over, true, true, false, 1, 2, 2, false, false), stack, inApp, log)
  }

  const First := ASlot(1, 0, true, Flags(true, false, false), false, true, false, 0, 0)
  const Second := ASlot(1, 0, true, Flags(true, false, false), false, true, false, 1, 1)
  const FirstSlot := FreshWt(1, true, false, 0, false)
  const OtherSlot := FreshWt(2, true, false, 1, false)
  const Finishing := First.(commit := true, flags := Flags(false, true, false))
  const FinishingSlot := FirstSlot.(commit := true, sent := true, flags := Flags(false, true, false))
  const Committed := Finishing.(refs := 2, flags := Shut, alive := false)
  const CommittedSlot := FinishingSlot.(flags := Shut, user := -1)
  const ClosedSlot := CommittedSlot.(kind := Free)
  const Torn := Second.(flags := Shut, alive := false)
  const Told := [Established, StreamCommitted(0)]

  const EarlyEvents: seq<Event> := [
    Establish, AppReturn, Resume, Open(false, 0, 0), Open(false, 1, 1), EnableCommit(0), Send(0, true, true),
    SendOver(0, 1, true), CloseSession(true), Resume, Resume, AppReturn, Resume, Resume, Resume]

  const EarlyStates: seq<State> := [
    Init(2, 2, false),
    Pair(EmptyEngine, EmptyEngine, EmptyHandle, EmptyHandle, 0, 0, [Plain], true, [Established]),
    Pair(EmptyEngine, EmptyEngine, EmptyHandle, EmptyHandle, 0, 0, [Plain], false, [Established]),
    Pair(EmptyEngine, EmptyEngine, EmptyHandle, EmptyHandle, 0, 0, [], true, [Established]),
    Pair(FirstSlot, EmptyEngine, First, EmptyHandle, 1, 1, [], true, [Established]),
    Pair(FirstSlot, OtherSlot, First, Second, 2, 2, [], true, [Established]),
    Pair(FirstSlot.(commit := true), OtherSlot, First.(commit := true), Second, 2, 2, [], true, [Established]),
    Pair(FinishingSlot, OtherSlot, Finishing, Second, 2, 2, [], true, [Established]),
    State([CommittedSlot, OtherSlot], [Committed, Second], Meta(Active, false, false, false, 1, 2, 2, false, false),
          [CommitReturn(0, 0, 1)], true, Told),
    Ending(Second, 1, [CommitReturn(0, 0, 1), FireFailed, Teardown(0)], false, Told),
    Ending(Second, 1, [CommitReturn(0, 0, 1), FireFailed, Teardown(1)], false, Told),
    Ending(Torn, -1, [CommitReturn(0, 0, 1), FireFailed, Teardown(2), ClosedReturn(1)], true, Told + [StreamClosed(1)]),
    Ending(Torn, -1, [CommitReturn(0, 0, 1), FireFailed, Teardown(2), ClosedReturn(1)], false, Told + [StreamClosed(1)]),
    Ending(Torn.(refs := 0), -1, [CommitReturn(0, 0, 1), FireFailed, Teardown(2)], false, Told + [StreamClosed(1)]),
    Ending(Torn.(refs := 0), -1, [CommitReturn(0, 0, 1), FireFailed], false, Told + [StreamClosed(1)]),
    Ending(Torn.(refs := 0), -1, [CommitReturn(0, 0, 1), Plain], true, Told + [StreamClosed(1)] + [Failed])]

  /** Step `i` of that run. */
  ghost predicate Ensues(i: nat)
    requires i < 15
  {
    Enabled(EarlyStates[i], EarlyEvents[i]) && EarlyStates[i + 1] == Next(EarlyStates[i], EarlyEvents[i])
  }

  lemma EarlyStarts()
    ensures Ensues(0) && Ensues(1)
  {
    assert Init(2, 2, false).eng == [EmptyEngine, EmptyEngine] && Init(2, 2, false).api == [EmptyHandle, EmptyHandle];
    hide Init;
  }

  lemma EarlyOpens()
    ensures Ensues(2) && Ensues(3)
  {
  }

  lemma EarlyOpensAgain()
    ensures Ensues(4) && Ensues(5)
  {
  }

  lemma EarlySends()
    ensures Ensues(6)
  {
  }

  lemma EarlyCommits()
    ensures Ensues(7)
  {
  }

  lemma EarlyCloses()
    ensures Ensues(8)
  {
    var s := EarlyStates[8];
    assert s.eng[1] == OtherSlot;
    assert CloseAll(s.eng) == [ClosedSlot, OtherSlot.(kind := Free, flags := Shut)];
  }

  lemma EarlyTears()
    ensures Ensues(9) && Ensues(10)
  {
  }

  lemma EarlyReturns()
    ensures Ensues(11) && Ensues(12)
  {
  }

  lemma EarlyFails()
    ensures Ensues(13) && Ensues(14)
  {
  }

  lemma EarlyRuns()
    ensures Run(EarlyEvents, EarlyStates)
  {
    EarlyStarts();
    EarlyOpens();
    EarlyOpensAgain();
    EarlySends();
    EarlyCommits();
    EarlyCloses();
    EarlyTears();
    EarlyReturns();
    EarlyFails();
    hide Next, Enabled;
    forall i | 0 <= i < 15 ensures Ensues(i) {
    }
  }

  lemma EmptyLog()
    ensures Terminals([]) == 0 && forall o: nat :: Closings([], o) == 0
  {
  }

  lemma EarlyLog()
    ensures var log := Told + [StreamClosed(1)] + [Failed];
      Terminals(log) == 1 && Closings(log, 0) == 0 && Closings(log, 1) == 1
  {
    hide Terminals, Closings;
    EmptyLog();
    LogGrows(Told + [StreamClosed(1)], Failed);
    LogGrows(Told, StreamClosed(1));
    LogGrows([Established], StreamCommitted(0));
    assert [Established] + [StreamCommitted(0)] == Told;
    LogGrows([], Established);
    assert [] + [Established] == [Established];
  }

  /**
   A complete run in which the failure is reported while the stream whose commitment callback
   is still running has not been reported closed.
   */
  lemma FailureCanComeEarly()
    ensures Run(EarlyEvents, EarlyStates)
    ensures Terminals(EarlyStates[15].log) == 1 && EarlyStates[15].m.nextOcc == 2
    ensures Closings(EarlyStates[15].log, 0) == 0 && Closings(EarlyStates[15].log, 1) == 1
  {
    EarlyRuns();
    EarlyLog();
    hide Run, Closings, Terminals;
  }
}
