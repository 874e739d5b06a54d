/**
 How a client session is established: the server's response and the native id of the CONNECT
 stream arrive in either order, with GOAWAY frames anywhere around them. The outcome does not
 depend on that order.
 */
module Establishment {

  datatype Option<T> = None | Some(value: T)

  datatype Phase = Sent | Established | Draining | Failed | Over

  datatype Seen = SessionEstablished(id: nat, offer: int) | SessionDraining | SessionFailed | SessionClosed

  /**
   The client once its CONNECT is out. `offer` is the selected subprotocol, -1 for none; `log` is
   what the layer above was told.
   */
  datatype Client = Client(
    phase: Phase,
    responseOk: bool,
    offer: int,
    id: Option<nat>,
    goaway: Option<nat>,
    closed: bool,
    sessionId: Option<nat>,
    log: seq<Seen>)

  const Init := Client(Sent, false, -1, None, None, false, None, [])

  /**
   Whether the connection is gone after the session failed or was established: the application
   may close it, and resetting the request may fail. Inside the established callback it may also
   close the session alone.
   */
  datatype Env = Env(closesOnFailure: bool, closesOnEstablish: bool, endsOnEstablish: bool)

  datatype Event = Response(offer: int) | NativeId(id: nat) | Goaway(limit: nat)

  /** The request is given up; the connection may go with it. */
  function GiveUp(env: Env, c: Client): Client {
    c.(phase := Failed, log := c.log + [SessionFailed], closed := c.closed || env.closesOnFailure)
  }

  function StartDraining(c: Client): Client {
    if c.closed || c.phase != Established then c else c.(phase := Draining, log := c.log + [SessionDraining])
  }

  predicate Beyond(c: Client) {
    c.id.Some? && c.goaway.Some? && c.id.value >= c.goaway.value
  }

  /** Both latches are needed, in either order. */
  function MaybeEstablish(env: Env, c: Client): Client {
    if c.phase != Sent || !c.responseOk || c.id.None? then c
    else if Beyond(c) then GiveUp(env, c)
    else
      var t := c.(phase := Established, sessionId := c.id, log := c.log + [SessionEstablished(c.id.value, c.offer)],
                  closed := env.closesOnEstablish);
      var u := if env.endsOnEstablish then t.(phase := Over, log := t.log + [SessionClosed]) else t;
      if c.goaway.Some? then StartDraining(u) else u
  }

  /** A protocol error of the peer ends the connection, and the session with it, whatever its state. */
  function Fatal(c: Client): Client {
    match c.phase
    case Sent => c.(closed := true, phase := Failed, log := c.log + [SessionFailed])
    case Established => c.(closed := true, phase := Over, log := c.log + [SessionClosed])
    case Draining => c.(closed := true, phase := Over, log := c.log + [SessionClosed])
    case _ => c.(closed := true)
  }

  function Next(env: Env, c: Client, ev: Event): Client {
    if c.closed then c
    else
      match ev
      case Response(offer) => if c.phase != Sent then c else MaybeEstablish(env, c.(responseOk := true, offer := offer))
      case NativeId(id) => MaybeEstablish(env, c.(id := Some(id)))
      case Goaway(limit) =>
        if limit % 4 != 0 || (c.goaway.Some? && limit > c.goaway.value) then Fatal(c)
        else
          var t := c.(goaway := Some(limit));
          if t.phase == Sent && Beyond(t) then GiveUp(env, t) else StartDraining(t)
  }

  function Run(env: Env, c: Client, es: seq<Event>): Client {
    if es == [] then c else Next(env, Run(env, c, es[..|es| - 1]), es[|es| - 1])
  }

  lemma {:induction false} RunConcat(env: Env, c: Client, a: seq<Event>, b: seq<Event>)
    ensures Run(env, c, a + b) == Run(env, Run(env, c, a), b)
  {
    hide Next;
    if b == [] {
      assert a + b == a;
    } else {
      var n := |b| - 1;
      RunConcat(env, c, a, b[..n]);
      assert (a + b)[..|a + b| - 1] == a + b[..n];
    }
  }

  predicate Goaways(es: seq<Event>) {
    forall i :: 0 <= i < |es| ==> es[i].Goaway?
  }

  // ---------------------------------------------------------------- the order does not matter

  /** What the layer above can tell apart. */
  predicate SameOutcome(a: Client, b: Client) {
    a.phase == b.phase && a.sessionId == b.sessionId && a.closed == b.closed && a.log == b.log &&
    (a.sessionId.Some? ==> a.offer == b.offer) && (!a.closed ==> a.goaway == b.goaway)
  }

  /** GOAWAY frames before either of the two arrives change only the limit, or end it all. */
  lemma {:induction false} BeforeBoth(env: Env, es: seq<Event>)
    requires Goaways(es)
    ensures var c := Run(env, Init, es);
      if c.closed then c.phase == Failed && c.log == [SessionFailed] && c.sessionId.None?
      else c == Init.(goaway := c.goaway)
  {
    if es != [] {
      BeforeBoth(env, es[..|es| - 1]);
    }
  }

  /** `a` has the id and waits for the response, `b` the other way round. */
  predicate Between(env: Env, a: Client, b: Client, id: nat, offer: int) {
    a.sessionId.None? && b.sessionId.None? &&
    if a.phase == Sent
    then a.log == [] && b == a.(responseOk := true, offer := offer, id := None) && a.id == Some(id) && !a.closed && !a.responseOk
    else a.phase == Failed && a.log == [SessionFailed] && Waits(env, a, b, id)
  }

  /** The failure has been reported on one side, and the other is bound to find it or has ended. */
  predicate Waits(env: Env, a: Client, b: Client, id: nat) {
    if b.phase == Sent
    then
      !b.closed && b.log == [] && b.responseOk && b.id.None? && b.goaway.Some? && id >= b.goaway.value &&
      a.closed == env.closesOnFailure && (!a.closed ==> a.goaway == b.goaway)
    else b.phase == Failed && b.log == [SessionFailed] && b.closed && a.closed
  }

  lemma BetweenStep(env: Env, a: Client, b: Client, id: nat, offer: int, limit: nat)
    requires Between(env, a, b, id, offer)
    ensures Between(env, Next(env, a, Goaway(limit)), Next(env, b, Goaway(limit)), id, offer)
  {
  }

  lemma {:induction false} BetweenRuns(env: Env, a: Client, b: Client, id: nat, offer: int, es: seq<Event>)
    requires Between(env, a, b, id, offer) && Goaways(es)
    ensures Between(env, Run(env, a, es), Run(env, b, es), id, offer)
  {
    hide Next, Between;
    if es != [] {
      var n := |es| - 1;
      BetweenRuns(env, a, b, id, offer, es[..n]);
      BetweenStep(env, Run(env, a, es[..n]), Run(env, b, es[..n]), id, offer, es[n].limit);
    }
  }

  /** When the missing half arrives, both have come to the same. */
  lemma BetweenMeet(env: Env, a: Client, b: Client, id: nat, offer: int)
    requires Between(env, a, b, id, offer)
    ensures SameOutcome(Next(env, a, Response(offer)), Next(env, b, NativeId(id)))
  {
  }

  lemma OutcomeStep(env: Env, a: Client, b: Client, limit: nat)
    requires SameOutcome(a, b) && a.phase != Sent
    ensures SameOutcome(Next(env, a, Goaway(limit)), Next(env, b, Goaway(limit))) && Next(env, a, Goaway(limit)).phase != Sent
  {
  }

  lemma {:induction false} OutcomeRuns(env: Env, a: Client, b: Client, es: seq<Event>)
    requires SameOutcome(a, b) && a.phase != Sent && Goaways(es)
    ensures SameOutcome(Run(env, a, es), Run(env, b, es)) && Run(env, a, es).phase != Sent
  {
    hide Next, SameOutcome;
    if es != [] {
      var n := |es| - 1;
      OutcomeRuns(env, a, b, es[..n]);
      OutcomeStep(env, Run(env, a, es[..n]), Run(env, b, es[..n]), es[n].limit);
    }
  }

  function IdFirst(before: seq<Event>, between: seq<Event>, after: seq<Event>, id: nat, offer: int): seq<Event> {
    before + ([NativeId(id)] + (between + ([Response(offer)] + after)))
  }

  function ResponseFirst(before: seq<Event>, between: seq<Event>, after: seq<Event>, id: nat, offer: int): seq<Event> {
    before + ([Response(offer)] + (between + ([NativeId(id)] + after)))
  }

  lemma RunFive(env: Env, c: Client, a: seq<Event>, x: Event, b: seq<Event>, y: Event, d: seq<Event>)
    ensures Run(env, c, a + ([x] + (b + ([y] + d)))) ==
      Run(env, Next(env, Run(env, Next(env, Run(env, c, a), x), b), y), d)
  {
    var c1 := Run(env, c, a);
    RunConcat(env, c, a, [x] + (b + ([y] + d)));
    RunConcat(env, c1, [x], b + ([y] + d));
    RunOne(env, c1, x);
    var c2 := Next(env, c1, x);
    RunConcat(env, c2, b, [y] + d);
    var c3 := Run(env, c2, b);
    RunConcat(env, c3, [y], d);
    RunOne(env, c3, y);
  }

  lemma RunOne(env: Env, c: Client, x: Event)
    ensures Run(env, c, [x]) == Next(env, c, x)
  {
    assert [x][..0] == [];
  }

  lemma {:induction false} ClosedStays(env: Env, c: Client, es: seq<Event>)
    requires c.closed
    ensures Run(env, c, es) == c
  {
    if es != [] {
      ClosedStays(env, c, es[..|es| - 1]);
    }
  }

  /**
   A valid response and the native id may change places, with any GOAWAY frames before, between
   and after them: session state, session id, subprotocol and reports are the same.
   */
  lemma Confluent(env: Env, before: seq<Event>, between: seq<Event>, after: seq<Event>, id: nat, offer: int)
    requires Goaways(before) && Goaways(between) && Goaways(after)
    ensures SameOutcome(Run(env, Init, IdFirst(before, between, after, id, offer)),
                        Run(env, Init, ResponseFirst(before, between, after, id, offer)))
  {
    RunFive(env, Init, before, NativeId(id), between, Response(offer), after);
    RunFive(env, Init, before, Response(offer), between, NativeId(id), after);
    BeforeBoth(env, before);
    var c := Run(env, Init, before);
    var a, b := Next(env, c, NativeId(id)), Next(env, c, Response(offer));
    if c.closed {
      ClosedStays(env, c, between);
      ClosedStays(env, c, after);
    } else {
      assert Between(env, a, b, id, offer);
      BetweenRuns(env, a, b, id, offer, between);
      var x, y := Run(env, a, between), Run(env, b, between);
      BetweenMeet(env, x, y, id, offer);
      MetIsOver(env, x, y, id, offer);
      hide Run, Next, Between, SameOutcome;
      OutcomeRuns(env, Next(env, x, Response(offer)), Next(env, y, NativeId(id)), after);
    }
  }

  lemma MetIsOver(env: Env, a: Client, b: Client, id: nat, offer: int)
    requires Between(env, a, b, id, offer)
    ensures Next(env, a, Response(offer)).phase != Sent
  {
  }

  // ---------------------------------------------------------------- at most once, never beyond a limit

  function Establishments(log: seq<Seen>): nat {
    if log == [] then 0
    else Establishments(log[..|log| - 1]) + (if log[|log| - 1].SessionEstablished? then 1 else 0)
  }

  predicate Ok(c: Client) {
    Establishments(c.log) == (if c.sessionId.Some? then 1 else 0) &&
    (c.sessionId.Some? <==> c.phase == Established || c.phase == Draining || c.phase == Over) &&
    (c.sessionId.Some? ==> c.id == c.sessionId)
  }

  lemma LogGrows(log: seq<Seen>, x: Seen)
    ensures Establishments(log + [x]) == Establishments(log) + (if x.SessionEstablished? then 1 else 0)
  {
    assert (log + [x])[..|log + [x]| - 1] == log;
  }

  lemma StepOk(env: Env, c: Client, ev: Event)
    requires Ok(c) && (ev.NativeId? ==> c.id.None?)
    ensures Ok(Next(env, c, ev))
  {
    hide Establishments;
    LogGrows(c.log, SessionFailed);
    LogGrows(c.log, SessionDraining);
    LogGrows(c.log, SessionClosed);
    if ev.NativeId? {
      LogGrows(c.log, SessionEstablished(ev.id, c.offer));
      LogGrows(c.log + [SessionEstablished(ev.id, c.offer)], SessionDraining);
      LogGrows(c.log + [SessionEstablished(ev.id, c.offer)], SessionClosed);
    } else if ev.Response? && c.id.Some? {
      LogGrows(c.log, SessionEstablished(c.id.value, ev.offer));
      LogGrows(c.log + [SessionEstablished(c.id.value, ev.offer)], SessionDraining);
      LogGrows(c.log + [SessionEstablished(c.id.value, ev.offer)], SessionClosed);
    }
  }

  /** The backend reports the id of the CONNECT stream once. */
  predicate OneReport(es: seq<Event>) {
    forall i, j :: 0 <= i < j < |es| ==> !(es[i].NativeId? && es[j].NativeId?)
  }

  lemma {:induction false} Reported(env: Env, es: seq<Event>)
    requires forall i :: 0 <= i < |es| ==> !es[i].NativeId?
    ensures Run(env, Init, es).id.None?
  {
    if es != [] {
      Reported(env, es[..|es| - 1]);
    }
  }

  /** Establishment happens at most once, and the session id is the id of the CONNECT stream. */
  lemma {:induction false} EstablishedOnce(env: Env, es: seq<Event>)
    requires OneReport(es)
    ensures Ok(Run(env, Init, es))
  {
    hide Next;
    if es != [] {
      var n := |es| - 1;
      EstablishedOnce(env, es[..n]);
      if es[n].NativeId? {
        Reported(env, es[..n]);
      }
      StepOk(env, Run(env, Init, es[..n]), es[n]);
    }
  }

  /** As long as the connection lives, the limit is the lowest that was announced. */
  lemma {:induction false} LimitIsLowest(env: Env, es: seq<Event>, i: nat)
    requires i < |es| && es[i].Goaway? && !Run(env, Init, es).closed
    ensures Run(env, Init, es).goaway.Some? && Run(env, Init, es).goaway.value <= es[i].limit
  {
    var n := |es| - 1;
    if i < n {
      LimitIsLowest(env, es[..n], i);
    }
  }

  lemma EstablishedBelow(env: Env, c: Client, ev: Event)
    requires c.sessionId.None? && Next(env, c, ev).sessionId.Some?
    ensures !c.closed && !ev.Goaway? && (c.goaway.Some? ==> Next(env, c, ev).sessionId.value < c.goaway.value)
  {
  }

  /** A session is never established for a request at or beyond any limit the peer has announced. */
  lemma NeverBeyondLimit(env: Env, es: seq<Event>, n: nat, i: nat)
    requires i < n < |es| && es[i].Goaway?
    requires Run(env, Init, es[..n]).sessionId.None? && Run(env, Init, es[..n + 1]).sessionId.Some?
    ensures Run(env, Init, es[..n + 1]).sessionId.value < es[i].limit
  {
    hide Next;
    assert es[..n + 1][..n] == es[..n];
    EstablishedBelow(env, Run(env, Init, es[..n]), es[n]);
    assert es[..n][i] == es[i];
    LimitIsLowest(env, es[..n], i);
  }

  // ---------------------------------------------------------------- exactly when

  /** Limits as a correct peer announces them: ids of client requests, never rising. */
  predicate ValidLimits(es: seq<Event>) {
    (forall i :: 0 <= i < |es| ==> es[i].Goaway? && es[i].limit % 4 == 0) &&
    (forall i, j :: 0 <= i < j < |es| && es[i].Goaway? && es[j].Goaway? ==> es[j].limit <= es[i].limit)
  }

  /** The request is below every limit. */
  predicate Allowed(es: seq<Event>, id: nat) {
    forall i :: 0 <= i < |es| && es[i].Goaway? ==> id < es[i].limit
  }

  /** Waiting for at least one of the two, with these limits seen, and all of them acceptable. */
  predicate Waiting(c: Client, es: seq<Event>) {
    c.phase == Sent && !c.closed && c.sessionId.None? && c.log == [] &&
    c.goaway == (if es == [] || !es[|es| - 1].Goaway? then None else Some(es[|es| - 1].limit))
  }

  predicate GivenUp(c: Client) {
    c.phase == Failed && c.sessionId.None? && c.log == [SessionFailed]
  }

  /** After the limits `es` with the id known or not, the client waits on exactly if they allow it. */
  predicate After(c: Client, es: seq<Event>) {
    if ValidLimits(es) && (c.id.Some? ==> Allowed(es, c.id.value)) then Waiting(c, es) else GivenUp(c)
  }

  /** The same, but an id that has just come in has not been held against the limits yet. */
  predicate Pending(c: Client, es: seq<Event>) {
    After(c, es) || (ValidLimits(es) && Waiting(c, es))
  }

  lemma LimitStep(env: Env, c: Client, es: seq<Event>, limit: nat)
    requires Goaways(es) && Pending(c, es)
    ensures After(Next(env, c, Goaway(limit)), es + [Goaway(limit)])
    ensures var d := Next(env, c, Goaway(limit)); d.id == c.id && d.responseOk == c.responseOk && d.offer == c.offer
  {
    LimitsGrow(es, limit);
    if c.id.Some? {
      AllowedGrows(es, c.id.value, limit);
    }
    hide ValidLimits, Allowed;
  }

  lemma LimitsGrow(es: seq<Event>, limit: nat)
    requires Goaways(es)
    ensures ValidLimits(es + [Goaway(limit)]) <==>
            ValidLimits(es) && limit % 4 == 0 && (es != [] ==> limit <= es[|es| - 1].limit)
  {
    var all := es + [Goaway(limit)];
    assert all[|es|] == Goaway(limit) && forall i :: 0 <= i < |es| ==> all[i] == es[i];
    if ValidLimits(all) {
      forall i, j | 0 <= i < j < |es| ensures es[j].limit <= es[i].limit {
        assert all[j].limit <= all[i].limit;
      }
      assert forall i :: 0 <= i < |es| ==> es[i].limit == all[i].limit;
    }
  }

  lemma AllowedGrows(es: seq<Event>, id: nat, limit: nat)
    requires Goaways(es)
    ensures Allowed(es + [Goaway(limit)], id) <==> Allowed(es, id) && id < limit
  {
    var all := es + [Goaway(limit)];
    assert all[|es|] == Goaway(limit) && forall i :: 0 <= i < |es| ==> all[i] == es[i];
    if Allowed(all, id) {
      forall i | 0 <= i < |es| ensures id < es[i].limit {
        assert id < all[i].limit;
      }
    }
  }

  lemma {:induction false} LimitRuns(env: Env, c: Client, es: seq<Event>, more: seq<Event>)
    requires Goaways(es) && Goaways(more) && Pending(c, es)
    ensures var d := Run(env, c, more);
            Pending(d, es + more) && (more != [] ==> After(d, es + more)) && d.id == c.id && d.responseOk == c.responseOk && d.offer == c.offer
  {
    hide Next, After, ValidLimits, Waiting;
    if more == [] {
      assert es + more == es;
    } else {
      var n := |more| - 1;
      LimitRuns(env, c, es, more[..n]);
      LimitStep(env, Run(env, c, more[..n]), es + more[..n], more[n].limit);
      assert es + more[..n] + [more[n]] == es + more;
    }
  }

  lemma NativeIdStep(env: Env, c: Client, es: seq<Event>, id: nat)
    requires Goaways(es) && After(c, es) && c.id.None? && !c.responseOk
    ensures var d := Next(env, c, NativeId(id));
            if ValidLimits(es) then Waiting(d, es) && d.id == Some(id) && !d.responseOk else GivenUp(d)
  {
  }

  /** What the application is told when both halves are there. */
  function Reports(env: Env, limited: bool, id: nat, offer: int): seq<Seen> {
    [SessionEstablished(id, offer)] +
    if env.endsOnEstablish then [SessionClosed]
    else if limited && !env.closesOnEstablish then [SessionDraining]
    else []
  }

  lemma ResponseStep(env: Env, c: Client, es: seq<Event>, id: nat, offer: int)
    requires Waiting(c, es) && c.id == Some(id) && Goaways(es)
    ensures var d := Next(env, c, Response(offer));
            if es != [] && id >= es[|es| - 1].limit then GivenUp(d)
            else d.sessionId == Some(id) && d.log == Reports(env, es != [], id, offer)
  {
  }

  lemma FailedStays(env: Env, c: Client, ev: Event)
    requires GivenUp(c)
    ensures GivenUp(Next(env, c, ev))
  {
  }

  lemma {:induction false} FailedRuns(env: Env, c: Client, es: seq<Event>)
    requires GivenUp(c)
    ensures GivenUp(Run(env, c, es))
  {
    hide Next, GivenUp;
    if es != [] {
      FailedRuns(env, c, es[..|es| - 1]);
      FailedStays(env, Run(env, c, es[..|es| - 1]), es[|es| - 1]);
    }
  }

  /** The last limit is the lowest. */
  lemma LastIsLowest(es: seq<Event>, id: nat)
    requires ValidLimits(es) && es != []
    ensures Allowed(es, id) <==> id < es[|es| - 1].limit
  {
  }

  /** The limits a client has seen when both halves are there. */
  function Limits(before: seq<Event>, between: seq<Event>): seq<Event> {
    before + between
  }

  /**
   When a session is established, exactly. With the response and the native id there in either
   order, it is reported at once, under the id of the CONNECT stream, if the limits announced so
   far are valid and allow that id; and otherwise it has failed and is never established.
   */
  lemma EstablishedIff(env: Env, before: seq<Event>, between: seq<Event>, id: nat, offer: int)
    requires Goaways(before) && Goaways(between)
    ensures var ls := Limits(before, between);
            var a, b := Run(env, Init, IdFirst(before, between, [], id, offer)), Run(env, Init, ResponseFirst(before, between, [], id, offer));
            if ValidLimits(ls) && Allowed(ls, id)
            then a.sessionId == Some(id) && b.sessionId == Some(id) &&
                 a.log == Reports(env, ls != [], id, offer) && b.log == Reports(env, ls != [], id, offer)
            else a.sessionId.None? && b.sessionId.None? && a.log == [SessionFailed] && b.log == [SessionFailed]
  {
    Confluent(env, before, between, [], id, offer);
    RunFive(env, Init, before, NativeId(id), between, Response(offer), []);
    hide Next, ValidLimits, Allowed, IdFirst, ResponseFirst;
    IdThenResponse(env, before, between, id, offer);
    RunNone(env, Next(env, Run(env, Next(env, Run(env, Init, before), NativeId(id)), between), Response(offer)));
  }

  lemma RunNone(env: Env, c: Client)
    ensures Run(env, c, []) == c
  {
  }

  lemma IdThenResponse(env: Env, before: seq<Event>, between: seq<Event>, id: nat, offer: int)
    requires Goaways(before) && Goaways(between)
    ensures var d := Next(env, Run(env, Next(env, Run(env, Init, before), NativeId(id)), between), Response(offer));
            var ls := Limits(before, between);
            if ValidLimits(ls) && Allowed(ls, id) then d.sessionId == Some(id) && d.log == Reports(env, ls != [], id, offer)
            else GivenUp(d)
  {
    hide Run, Next, Waiting, ValidLimits, Allowed;
    InitAfter();
    LimitRuns(env, Init, [], before);
    assert [] + before == before;
    var c := Run(env, Init, before);
    NativeIdStep(env, c, before, id);
    var d := Next(env, c, NativeId(id));
    var e := Run(env, d, between);
    if ValidLimits(before) {
      LimitRuns(env, d, before, between);
      RunNone(env, d);
      assert before + [] == before;
      Meet(env, e, before, between, id, offer);
    } else {
      FailedRuns(env, d, between);
      FailedStays(env, e, Response(offer));
      PrefixValid(before, between);
    }
  }

  lemma Meet(env: Env, e: Client, before: seq<Event>, between: seq<Event>, id: nat, offer: int)
    requires Goaways(before) && Goaways(between) && e.id == Some(id)
    requires Pending(e, before + between)
    ensures var d := Next(env, e, Response(offer));
            var ls := before + between;
            if ValidLimits(ls) && Allowed(ls, id) then d.sessionId == Some(id) && d.log == Reports(env, ls != [], id, offer)
            else GivenUp(d)
  {
    var ls := before + between;
    if Waiting(e, ls) {
      hide Next;
      ResponseStep(env, e, ls, id, offer);
      if ls != [] {
        LastIsLowest(ls, id);
      }
    } else {
      FailedStays(env, e, Response(offer));
    }
  }

  lemma PrefixValid(a: seq<Event>, b: seq<Event>)
    ensures ValidLimits(a + b) ==> ValidLimits(a)
  {
    var all := a + b;
    assert forall i :: 0 <= i < |a| ==> all[i] == a[i];
    if ValidLimits(all) {
      assert forall i :: 0 <= i < |a| ==> all[i].Goaway? && all[i].limit % 4 == 0;
      forall i, j | 0 <= i < j < |a| ensures a[j].limit <= a[i].limit {
        assert all[j].limit <= all[i].limit;
      }
    }
  }

  lemma InitAfter()
    ensures Pending(Init, []) && Goaways([])
  {
  }
}
