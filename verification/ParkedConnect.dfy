/**
 A server may not judge a CONNECT before the client's SETTINGS have selected a profile. A request
 that is complete by then is parked, with its bytes set aside and a FIN remembered, and judged
 when SETTINGS arrive: with the same outcome as if they had come first.
 */
module ParkedConnect {

  type byte = x: int | 0 <= x < 256

  datatype Option<T> = None | Some(value: T)

  datatype Decision = Answer(status: nat) | Refuse | Fatal(code: nat) | Accept(offer: int)

  datatype Reaction = Carry | CloseSession | CloseConnection

  /**
   What is decided elsewhere: how a request is judged under a profile, what the application does
   when told of the settings or of the session, and whether the transport takes sends and resets.
   */
  datatype Env = Env(
    judge: (int, seq<byte>) -> Decision,
    onSettings: Reaction,
    onSession: Reaction,
    sendFails: bool,
    resetFails: bool)

  datatype Seen = PeerSettings | Status(code: nat) | Reset | SessionEstablished(offer: int) | SessionClosed | ConnectionClosed(code: nat)

  datatype Phase = Idle | Established | Over

  /** The request stream: `buffer` holds the field section read last. */
  datatype Slot = Slot(live: bool, dead: bool, session: bool, headersDone: bool, buffer: seq<byte>)

  datatype Parked = Parked(bytes: seq<byte>, fin: bool)

  datatype Server = Server(profile: Option<int>, closed: bool, slot: Slot, parked: Option<Parked>, phase: Phase, log: seq<Seen>)

  const Init := Server(None, false, Slot(true, false, false, false, []), None, Idle, [])

  const InternalError: nat := 0x0102

  function Tell(s: Server, x: Seen): Server {
    if s.closed then s else s.(log := s.log + [x])
  }

  function ConnFatal(s: Server, code: nat): Server {
    if s.closed then s
    else
      var t := if s.phase == Established then Tell(s, SessionClosed).(phase := Over) else s;
      Tell(t, ConnectionClosed(code)).(closed := true)
  }

  function React(s: Server, r: Reaction): Server {
    match r
    case Carry => s
    case CloseSession => if s.phase == Established && !s.closed then Tell(s, SessionClosed).(phase := Over) else s
    case CloseConnection => ConnFatal(s, 0)
  }

  function Respond(env: Env, s: Server, status: nat): Server {
    var t := Tell(s, Status(status));
    if env.sendFails then ConnFatal(t, InternalError) else t
  }

  function Kill(s: Server): Server {
    s.(slot := s.slot.(dead := true))
  }

  /** Judge the field section in the buffer. */
  function Judge(env: Env, s: Server, profile: int): Server {
    match env.judge(profile, s.slot.buffer)
    case Answer(status) => Kill(Respond(env, s, status))
    case Refuse => Kill(if env.resetFails then ConnFatal(Tell(s, Reset), InternalError) else Tell(s, Reset))
    case Fatal(code) => ConnFatal(s, code)
    case Accept(offer) =>
      var t := Respond(env, s, 200);
      if t.closed then t
      else React(Tell(t.(phase := Established, slot := t.slot.(session := true)), SessionEstablished(offer)), env.onSession)
  }

  /** A clean end of the request stream, and the release of its slot. */
  function Ended(s: Server): Server {
    var t := if s.slot.dead || !s.slot.session || s.phase != Established then s else Tell(s, SessionClosed).(phase := Over);
    t.(slot := t.slot.(live := false))
  }

  datatype Event = Headers(section: seq<byte>) | Trailers(section: seq<byte>) | Fin | Settings(profile: int)

  function Next(env: Env, s: Server, ev: Event): Server {
    if s.closed then s
    else
      match ev
      case Headers(section) =>
        if s.slot.dead || !s.slot.live || s.slot.headersDone then s
        else
          var t := s.(slot := s.slot.(headersDone := true, buffer := section));
          if s.profile.None? then t.(parked := Some(Parked(section, false))) else Judge(env, t, s.profile.value)
      case Trailers(section) => if s.slot.dead || !s.slot.live then s else s.(slot := s.slot.(buffer := []))
      case Fin =>
        if !s.slot.live then s
        else if s.parked.Some? then s.(parked := Some(s.parked.value.(fin := true)))
        else Ended(s)
      case Settings(profile) =>
        if s.profile.Some? then s
        else
          var t := React(Tell(s.(profile := Some(profile)), PeerSettings), env.onSettings);
          (match s.parked
           case None => t
           case Some(p) =>
             var u := Judge(env, t.(parked := None, slot := t.slot.(buffer := p.bytes)), profile);
             if p.fin && !u.closed && u.slot.live then Ended(u) else u)
  }

  function Run(env: Env, s: Server, es: seq<Event>): Server {
    if es == [] then s else Next(env, Run(env, s, es[..|es| - 1]), es[|es| - 1])
  }

  // ---------------------------------------------------------------- parked or not, the same

  /** What peer and application have seen, and what is left of the stream. */
  predicate SameOutcome(a: Server, b: Server) {
    a.log == b.log && a.phase == b.phase && a.closed == b.closed && a.profile == b.profile && a.parked == b.parked &&
    (!a.closed ==> a.slot.(buffer := []) == b.slot.(buffer := [])) && (a.closed ==> a.slot.live == b.slot.live)
  }

  /** Headers, perhaps valid trailers, perhaps a clean FIN. */
  function Request(section: seq<byte>, trailers: Option<seq<byte>>, fin: bool): seq<Event> {
    [Headers(section)] + (if trailers.Some? then [Trailers(trailers.value)] else []) + (if fin then [Fin] else [])
  }

  /** The events of a request while it is parked. */
  lemma ParkedRuns(env: Env, section: seq<byte>, trailers: Option<seq<byte>>, fin: bool)
    ensures var s := Run(env, Init, Request(section, trailers, fin));
      s == Init.(slot := s.slot, parked := Some(Parked(section, fin))) &&
      s.slot == Slot(true, false, false, true, s.slot.buffer)
  {
    RunOne(env, Init, Headers(section));
    var a := [Headers(section)];
    if trailers.Some? {
      RunMore(env, Init, a, Trailers(trailers.value));
      a := a + [Trailers(trailers.value)];
    }
    assert a + [] == a;
    if fin {
      RunMore(env, Init, a, Fin);
    }
  }

  lemma RunOne(env: Env, s: Server, x: Event)
    ensures Run(env, s, [x]) == Next(env, s, x)
  {
    assert [x][..0] == [];
  }

  lemma RunMore(env: Env, s: Server, a: seq<Event>, x: Event)
    ensures Run(env, s, a + [x]) == Next(env, Run(env, s, a), x)
  {
    assert (a + [x])[..|a + [x]| - 1] == a;
  }

  /** The events of a request that is judged at once. */
  lemma JudgedRuns(env: Env, s: Server, section: seq<byte>, trailers: Option<seq<byte>>, fin: bool)
    requires s.profile.Some? && s.parked.None? && s.slot == Init.slot && s.phase != Established
    ensures var j := Judge(env, s.(slot := s.slot.(headersDone := true, buffer := section)), s.profile.value);
      var t := Run(env, s, Request(section, trailers, fin));
      if s.closed then t == s
      else SameOutcome(t, if fin && !j.closed then Ended(j) else j)
  {
    hide Run, Judge;
    JudgeKeepsLive(env, s.(slot := s.slot.(headersDone := true, buffer := section)), s.profile.value);
    RunOne(env, s, Headers(section));
    var a := [Headers(section)];
    if trailers.Some? {
      RunMore(env, s, a, Trailers(trailers.value));
      a := a + [Trailers(trailers.value)];
    }
    assert a + [] == a;
    if fin {
      RunMore(env, s, a, Fin);
    }
  }

  /** Nothing more is said once the connection is closed. */
  lemma ClosedIsSilent(env: Env, s: Server, profile: int)
    requires s.closed && s.phase != Established
    ensures Judge(env, s, profile).log == s.log && Judge(env, s, profile).closed && Judge(env, s, profile).phase == s.phase
    ensures Judge(env, s, profile).slot.live == s.slot.live && Judge(env, s, profile).profile == s.profile && Judge(env, s, profile).parked == s.parked
  {
  }

  /**
   A request that is complete before SETTINGS ends with the same response, session outcome and
   slot as one that comes after them, with or without trailers and FIN.
   */
  lemma ParkedIsImmediate(env: Env, section: seq<byte>, trailers: Option<seq<byte>>, fin: bool, profile: int)
    ensures SameOutcome(Run(env, Init, Request(section, trailers, fin) + [Settings(profile)]),
                        Run(env, Init, [Settings(profile)] + Request(section, trailers, fin)))
  {
    var req := Request(section, trailers, fin);
    ParkedRuns(env, section, trailers, fin);
    RunMore(env, Init, req, Settings(profile));
    RunConcat(env, Init, [Settings(profile)], req);
    RunOne(env, Init, Settings(profile));
    var s := Next(env, Init, Settings(profile));
    JudgedRuns(env, s, section, trailers, fin);
    hide Run, Request;
    SettingsThenJudge(env, Run(env, Init, req), section, fin, profile);
  }

  lemma {:induction false} RunConcat(env: Env, s: Server, a: seq<Event>, b: seq<Event>)
    ensures Run(env, s, a + b) == Run(env, Run(env, s, a), b)
  {
    hide Next;
    if b == [] {
      assert a + b == a;
    } else {
      var n := |b| - 1;
      RunConcat(env, s, a, b[..n]);
      assert (a + b)[..|a + b| - 1] == a + b[..n];
    }
  }

  /** SETTINGS that meet a parked request. */
  lemma SettingsThenJudge(env: Env, p: Server, section: seq<byte>, fin: bool, profile: int)
    requires p == Init.(slot := p.slot, parked := Some(Parked(section, fin))) && p.slot == Slot(true, false, false, true, p.slot.buffer)
    ensures var s := Next(env, Init, Settings(profile));
      var j := Judge(env, s.(slot := s.slot.(headersDone := true, buffer := section)), profile);
      var t := Next(env, p, Settings(profile));
      s.profile == Some(profile) && s.parked.None? && s.slot == Init.slot && s.phase != Established &&
      SameOutcome(t, if s.closed then s else if fin && !j.closed then Ended(j) else j)
  {
    var s := Next(env, Init, Settings(profile));
    var q := s.(slot := Slot(true, false, false, true, section));
    if s.closed {
      ClosedIsSilent(env, q, profile);
    } else {
      JudgeKeepsLive(env, q, profile);
    }
    hide Judge;
  }

  lemma JudgeKeepsLive(env: Env, s: Server, profile: int)
    ensures Judge(env, s, profile).slot.live == s.slot.live && Judge(env, s, profile).parked == s.parked
  {
  }

  /** What the peer and the application see of a request, by what is decided elsewhere. */
  function Outcome(env: Env, section: seq<byte>, fin: bool, profile: int): seq<Seen> {
    [PeerSettings] +
    if env.onSettings == CloseConnection then [ConnectionClosed(0)]
    else
      var broken: seq<Seen> := [ConnectionClosed(0x0102)];
      match env.judge(profile, section)
      case Answer(status) => [Status(status)] + if env.sendFails then broken else []
      case Refuse => [Reset] + if env.resetFails then broken else []
      case Fatal(code) => [ConnectionClosed(code)]
      case Accept(offer) =>
        [Status(200)] +
        if env.sendFails then broken
        else [SessionEstablished(offer)] + AfterEstablished(env, fin)
  }

  /** An established session goes on, unless the application or the end of the request closes it. */
  function AfterEstablished(env: Env, fin: bool): seq<Seen> {
    match env.onSession
    case CloseConnection => [SessionClosed, ConnectionClosed(0)]
    case CloseSession => [SessionClosed]
    case Carry => if fin then [SessionClosed] else []
  }

  /** Whether the session is there in the end. */
  predicate StaysUp(env: Env, section: seq<byte>, fin: bool, profile: int) {
    env.onSettings != CloseConnection && env.judge(profile, section).Accept? && !env.sendFails && env.onSession == Carry && !fin
  }

  lemma SettingsFirst(env: Env, profile: int)
    ensures var s := Next(env, Init, Settings(profile));
            s.profile == Some(profile) && s.parked.None? && s.slot == Init.slot && s.phase == Idle &&
            (s.closed <==> env.onSettings == CloseConnection) &&
            s.log == [PeerSettings] + if s.closed then [ConnectionClosed(0)] else []
  {
  }

  lemma JudgeSees(env: Env, s: Server, fin: bool, profile: int)
    requires s.profile == Some(profile) && s.parked.None? && s.phase == Idle && !s.closed && s.log == [PeerSettings]
    requires s.slot.live && !s.slot.dead && !s.slot.session && env.onSettings != CloseConnection
    ensures var j := Judge(env, s, profile);
            var t := if fin && !j.closed then Ended(j) else j;
            t.log == Outcome(env, s.slot.buffer, fin, profile) &&
            (t.phase == Established <==> StaysUp(env, s.slot.buffer, fin, profile))
  {
  }

  /**
   What comes of a request, in either order: the response that judging it asks for, 200 for one
   that is accepted; the session, which is reported once that response is out; and the end of
   everything when the transport fails, the application closes it or the request ends.
   */
  lemma RequestOutcome(env: Env, section: seq<byte>, trailers: Option<seq<byte>>, fin: bool, profile: int)
    ensures var t := Run(env, Init, Request(section, trailers, fin) + [Settings(profile)]);
            t.log == Outcome(env, section, fin, profile) && (t.phase == Established <==> StaysUp(env, section, fin, profile))
    ensures var t := Run(env, Init, [Settings(profile)] + Request(section, trailers, fin));
            t.log == Outcome(env, section, fin, profile) && (t.phase == Established <==> StaysUp(env, section, fin, profile))
  {
    ParkedIsImmediate(env, section, trailers, fin, profile);
    RunConcat(env, Init, [Settings(profile)], Request(section, trailers, fin));
    RunOne(env, Init, Settings(profile));
    SettingsFirst(env, profile);
    var s := Next(env, Init, Settings(profile));
    JudgedRuns(env, s, section, trailers, fin);
    hide Run, Request, Judge, Next, Outcome;
    var q := s.(slot := s.slot.(headersDone := true, buffer := section));
    if !s.closed {
      JudgeSees(env, q, fin, profile);
    } else {
      ClosedOutcome(env, section, fin, profile);
    }
  }

  lemma ClosedOutcome(env: Env, section: seq<byte>, fin: bool, profile: int)
    requires env.onSettings == CloseConnection
    ensures Outcome(env, section, fin, profile) == [PeerSettings] + [ConnectionClosed(0)] && !StaysUp(env, section, fin, profile)
  {
  }
}
