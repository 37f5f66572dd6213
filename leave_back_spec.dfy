/**
 * The leave/back monitor of `useUserLeaveAndBack`, as values.
 *
 * Every `subscribe` adds a session with the one-shot flags `isLeave` and
 * `isBack` and one armed flag for its five listeners (visibilitychange and
 * the four raw activity events). All sessions of one hook instance share one
 * countdown engine, whose timeout slot holds the subscribing session's
 * `onLeave` and whose tick slot holds its host `onTick`. `stopRef` holds the
 * stop capability of the last session subscribed, named by its index.
 *
 * What the host sees is the trace of host callbacks: `Tick(s)` for `onTick`,
 * `Leave(s)` for `onUserLeave` and `Back(s)` for `onUserBack` of session `s`.
 */
module LeaveBackSpec {
  import opened Wrappers
  import opened Countdown

  /** What the engine's slots hold: a session's host `onTick`, or its `onLeave`. */
  datatype Callback = HostTick(sid: nat) | SessionLeave(sid: nat)

  /** A host callback invocation. */
  datatype Event = Tick(sid: nat) | Leave(sid: nat) | Back(sid: nat)

  datatype Session = Session(isLeave: bool, isBack: bool, armed: bool)

  datatype MonitorState = MonitorState(
    engine: EngineState<Callback>,
    sessions: seq<Session>,
    stopRef: Option<nat>,
    trace: seq<Event>)

  function Init(): MonitorState {
    MonitorState(Idle(), [], None, [])
  }

  /** Flags once set stay set, and listeners once removed stay removed. */
  predicate OneShot(a: Session, b: Session) {
    && (a.isLeave ==> b.isLeave)
    && (a.isBack ==> b.isBack)
    && (!a.armed ==> !b.armed)
  }

  /** A session whose guards still let `e` through. */
  predicate Allows(a: Session, e: Event) {
    if e.Back? then !a.isBack else !a.isLeave
  }

  /** `r` comes from `m` by host events: sessions are only added, flags are one-shot, the
      trace is only appended to, and each new event belongs to a session that allowed it. */
  ghost predicate Grows(m: MonitorState, r: MonitorState) {
    && |m.sessions| <= |r.sessions|
    && m.trace <= r.trace
    && (forall s :: 0 <= s < |m.sessions| ==> OneShot(m.sessions[s], r.sessions[s]))
    && (forall k :: |m.trace| <= k < |r.trace| && r.trace[k].sid < |m.sessions| ==>
          Allows(m.sessions[r.trace[k].sid], r.trace[k]))
  }

  /** `stop` of session `s`: both flags set, engine cleared, listeners removed, slot emptied. */
  function Stop(m: MonitorState, s: nat, now: int): (r: MonitorState)
    requires s < |m.sessions|
    ensures |r.sessions| == |m.sessions| && r.trace == m.trace && Grows(m, r)
    ensures r.sessions[s] == Session(true, true, false)
    ensures forall j :: 0 <= j < |m.sessions| && j != s ==> r.sessions[j] == m.sessions[j]
    ensures Wired(r)
  {
    m.(sessions := m.sessions[s := m.sessions[s].(isBack := true, isLeave := true, armed := false)],
       engine := Cleared(now),
       stopRef := None)
  }

  /** `onLeave` of session `s`. */
  function OnLeave(m: MonitorState, s: nat, now: int): (r: MonitorState)
    requires s < |m.sessions|
    ensures |r.sessions| == |m.sessions| && Grows(m, r)
    ensures r.sessions[s].isLeave
    ensures forall j :: 0 <= j < |m.sessions| && j != s ==> r.sessions[j] == m.sessions[j]
    ensures Wired(m) ==> Wired(r)
  {
    if m.sessions[s].isLeave then m
    else
      m.(sessions := m.sessions[s := m.sessions[s].(isLeave := true)],
         trace := m.trace + [Leave(s)],
         engine := Cleared(now))
  }

  /** `onBack` of session `s`. */
  function OnBack(m: MonitorState, s: nat, now: int): (r: MonitorState)
    requires s < |m.sessions|
    ensures |r.sessions| == |m.sessions| && Grows(m, r)
    ensures forall j :: 0 <= j < |m.sessions| && j != s ==> r.sessions[j] == m.sessions[j]
    ensures Wired(m) ==> Wired(r)
  {
    if !m.sessions[s].isLeave then m
    else if m.sessions[s].isBack then m
    else
      var m' := m.(sessions := m.sessions[s := m.sessions[s].(isBack := true)],
                   trace := m.trace + [Back(s)]);
      Stop(m', s, now)
  }

  /** `subscribe`: a new session, the shared engine restarted for it, its stop in the slot. */
  function Subscribe(m: MonitorState, activeCountdown: int, activeCheckTickInterval: int, now: int): (r: MonitorState)
    ensures |r.sessions| == |m.sessions| + 1 && r.trace == m.trace && Grows(m, r)
    ensures r.sessions[|m.sessions|] == Session(false, false, true)
    ensures r.stopRef == Some(|m.sessions|) && Running(r.engine)
    ensures r.engine == Started(activeCountdown, activeCheckTickInterval,
                                SessionLeave(|m.sessions|), HostTick(|m.sessions|), now)
    ensures r.sessions[..|m.sessions|] == m.sessions
    ensures Wired(r)
  {
    var sid := |m.sessions|;
    m.(engine := Started(activeCountdown, activeCheckTickInterval, SessionLeave(sid), HostTick(sid), now),
       sessions := m.sessions + [Session(false, false, true)],
       stopRef := Some(sid))
  }

  /** The structural part of the invariant: the engine is all-or-nothing, its two slots hold
      the callbacks of one live session, and the slot `stopRef` names a subscribed session. */
  predicate Wired(m: MonitorState) {
    && Coherent(m.engine)
    && (m.engine.onTimeout.Some? && m.engine.onTick.Some? ==>
          m.engine.onTimeout.value.sid == m.engine.onTick.value.sid)
    && (m.engine.onTimeout.Some? ==>
          m.engine.onTimeout.value.SessionLeave? &&
          m.engine.onTimeout.value.sid < |m.sessions| &&
          !m.sessions[m.engine.onTimeout.value.sid].isLeave)
    && (m.engine.onTick.Some? ==>
          m.engine.onTick.value.HostTick? &&
          m.engine.onTick.value.sid < |m.sessions| &&
          !m.sessions[m.engine.onTick.value.sid].isLeave)
    && (m.stopRef.Some? ==> m.stopRef.value < |m.sessions|)
  }

  /** `stopSubscribe`: the stop in the slot, if any. */
  function StopSubscribe(m: MonitorState, now: int): (r: MonitorState)
    requires Wired(m)
    ensures |r.sessions| == |m.sessions| && r.trace == m.trace && Grows(m, r)
    ensures r.stopRef == None && Wired(r)
  {
    match m.stopRef
    case None => m
    case Some(s) => Stop(m, s, now)
  }

  /** One firing of the interval timer: the engine ticks and its owner runs the callback. */
  function IntervalFires(m: MonitorState, now: int): (r: MonitorState)
    requires Wired(m)
    ensures |r.sessions| == |m.sessions| && Grows(m, r) && Wired(r)
  {
    if m.engine.interval.None? then m
    else
      var step: (EngineState<Callback>, Option<Callback>) := TickStep(m.engine, now);
      var m' := m.(engine := step.0);
      match step.1
      case None => m'
      case Some(HostTick(s)) => m'.(trace := m'.trace + [Tick(s)])
      case Some(SessionLeave(s)) => OnLeave(m', s, now)
  }

  /** One DOM event delivered to the armed sessions from index `i` on, in subscription
      order: `onLeave` of each when `leave`, its `onBack` otherwise. */
  function Dispatch(m: MonitorState, i: nat, leave: bool, now: int): (r: MonitorState)
    requires i <= |m.sessions|
    ensures |r.sessions| == |m.sessions| && Grows(m, r)
    ensures forall j :: 0 <= j < i ==> r.sessions[j] == m.sessions[j]
    ensures Wired(m) ==> Wired(r)
    decreases |m.sessions| - i
  {
    if i == |m.sessions| then m
    else
      var m' := if !m.sessions[i].armed then m
                else if leave then OnLeave(m, i, now)
                else OnBack(m, i, now);
      GrowsTransitive(m, m', Dispatch(m', i + 1, leave, now));
      Dispatch(m', i + 1, leave, now)
  }

  /** A raw activity event: the engine's throttled refresh if its listeners are armed and
      the throttle lets this call through (`refresh`), then every armed session's `onBack`. */
  function Activity(m: MonitorState, now: int, refresh: bool): (r: MonitorState)
    ensures |r.sessions| == |m.sessions| && Grows(m, r)
    ensures Wired(m) ==> Wired(r)
  {
    var m' := if refresh && m.engine.armed then m.(engine := Refreshed(m.engine, now)) else m;
    Dispatch(m', 0, false, now)
  }

  /** A visibilitychange event: `onLeave` of every armed session when the page is hidden,
      `onBack` when it is visible. */
  function Visibility(m: MonitorState, now: int, hidden: bool): (r: MonitorState)
    ensures |r.sessions| == |m.sessions| && Grows(m, r)
    ensures Wired(m) ==> Wired(r)
  {
    Dispatch(m, 0, hidden, now)
  }

  lemma GrowsTransitive(a: MonitorState, b: MonitorState, c: MonitorState)
    requires Grows(a, b) && Grows(b, c)
    ensures Grows(a, c)
  {
    forall k | |a.trace| <= k < |c.trace| && c.trace[k].sid < |a.sessions|
      ensures Allows(a.sessions[c.trace[k].sid], c.trace[k])
    {
      var s := c.trace[k].sid;
      if k < |b.trace| {
        assert c.trace[k] == b.trace[k];
      } else {
        assert OneShot(a.sessions[s], b.sessions[s]);
      }
    }
  }

  /** Host events, each at an instant. */
  datatype Input =
    | Subscribed(activeCountdown: int, activeCheckTickInterval: int)
    | StopCalled(sid: nat)
    | StopSubscribeCalled
    | TimerFired
    | UserActivity(refresh: bool)
    | VisibilityChanged(hidden: bool)

  datatype Timed = At(now: int, input: Input)

  /** A stop capability is a session index handed out by `Subscribed`; any other number
      names no capability and changes nothing. */
  function Step(m: MonitorState, t: Timed): (r: MonitorState)
    requires Wired(m)
    ensures Grows(m, r) && Wired(r)
  {
    match t.input
    case Subscribed(c, i) => Subscribe(m, c, i, t.now)
    case StopCalled(s) => if s < |m.sessions| then Stop(m, s, t.now) else m
    case StopSubscribeCalled => StopSubscribe(m, t.now)
    case TimerFired => IntervalFires(m, t.now)
    case UserActivity(refresh) => Activity(m, t.now, refresh)
    case VisibilityChanged(hidden) => Visibility(m, t.now, hidden)
  }

  /** The guarantees a host can rely on, read off a trace: per session, `onUserLeave`
      and `onUserBack` at most once, `onUserBack` only after `onUserLeave`, and no
      `onTick` after `onUserLeave`. */
  ghost predicate TraceWellFormed(t: seq<Event>) {
    && (forall i, j :: 0 <= i < j < |t| && t[i].Leave? && t[j].Leave? ==> t[i].sid != t[j].sid)
    && (forall i, j :: 0 <= i < j < |t| && t[i].Back? && t[j].Back? ==> t[i].sid != t[j].sid)
    && (forall i, j :: 0 <= i < j < |t| && t[i].Leave? && t[j].Tick? ==> t[i].sid != t[j].sid)
    && (forall j :: 0 <= j < |t| && t[j].Back? ==> Leave(t[j].sid) in t[..j])
  }

  /** How a session's flags determine what the trace holds for it. */
  ghost predicate FlagsMatchTrace(sessions: seq<Session>, t: seq<Event>) {
    forall s :: 0 <= s < |sessions| ==>
      && (sessions[s].isBack ==> sessions[s].isLeave)
      && (!sessions[s].isLeave ==> Leave(s) !in t)
      && (!sessions[s].isBack ==> Back(s) !in t)
      && (sessions[s].isLeave && !sessions[s].isBack ==> Leave(s) in t)
  }

  ghost predicate Inv(m: MonitorState) {
    && Wired(m)
    && (forall k :: 0 <= k < |m.trace| ==> m.trace[k].sid < |m.sessions|)
    && FlagsMatchTrace(m.sessions, m.trace)
    && TraceWellFormed(m.trace)
  }

  lemma InitInv()
    ensures Inv(Init())
  {
  }

  /** Appending a callback its guards allow keeps the trace well formed. */
  lemma AppendKeepsWellFormed(t: seq<Event>, e: Event)
    requires TraceWellFormed(t)
    requires !e.Back? ==> (e.Leave? || e.Tick?) && Leave(e.sid) !in t
    requires e.Back? ==> Back(e.sid) !in t && Leave(e.sid) in t
    ensures TraceWellFormed(t + [e])
  {
    var t' := t + [e];
    forall j | 0 <= j < |t'| && t'[j].Back?
      ensures Leave(t'[j].sid) in t'[..j]
    {
      if j < |t| {
        assert t'[..j] == t[..j];
      } else {
        assert t'[..j] == t;
      }
    }
    forall i, j | 0 <= i < j < |t'|
      ensures t'[i].Leave? && t'[j].Leave? ==> t'[i].sid != t'[j].sid
      ensures t'[i].Back? && t'[j].Back? ==> t'[i].sid != t'[j].sid
      ensures t'[i].Leave? && t'[j].Tick? ==> t'[i].sid != t'[j].sid
    {
      if j == |t| {
        assert t'[i] == t[i] && t[i] in t;
      }
    }
  }

  lemma StopKeepsInv(m: MonitorState, s: nat, now: int)
    requires Inv(m) && s < |m.sessions|
    ensures Inv(Stop(m, s, now))
  {
  }

  lemma OnLeaveKeepsInv(m: MonitorState, s: nat, now: int)
    requires Inv(m) && s < |m.sessions|
    ensures Inv(OnLeave(m, s, now))
  {
    if !m.sessions[s].isLeave {
      AppendKeepsWellFormed(m.trace, Leave(s));
      var r := OnLeave(m, s, now);
      forall j | 0 <= j < |r.sessions| && j != s
        ensures Leave(j) in r.trace <==> Leave(j) in m.trace
        ensures Back(j) in r.trace <==> Back(j) in m.trace
      {
      }
    }
  }

  lemma OnBackKeepsInv(m: MonitorState, s: nat, now: int)
    requires Inv(m) && s < |m.sessions|
    ensures Inv(OnBack(m, s, now))
  {
    if m.sessions[s].isLeave && !m.sessions[s].isBack {
      AppendKeepsWellFormed(m.trace, Back(s));
      var m' := m.(sessions := m.sessions[s := m.sessions[s].(isBack := true)],
                   trace := m.trace + [Back(s)]);
      forall j | 0 <= j < |m'.sessions| && j != s
        ensures Leave(j) in m'.trace <==> Leave(j) in m.trace
        ensures Back(j) in m'.trace <==> Back(j) in m.trace
      {
      }
      assert Inv(m');
      StopKeepsInv(m', s, now);
    }
  }

  lemma SubscribeKeepsInv(m: MonitorState, activeCountdown: int, activeCheckTickInterval: int, now: int)
    requires Inv(m)
    ensures Inv(Subscribe(m, activeCountdown, activeCheckTickInterval, now))
  {
  }

  lemma StopSubscribeKeepsInv(m: MonitorState, now: int)
    requires Inv(m)
    ensures Inv(StopSubscribe(m, now))
  {
    if m.stopRef.Some? {
      StopKeepsInv(m, m.stopRef.value, now);
    }
  }

  lemma IntervalFiresKeepsInv(m: MonitorState, now: int)
    requires Inv(m)
    ensures Inv(IntervalFires(m, now))
  {
    if m.engine.interval.Some? {
      var step := TickStep(m.engine, now);
      var m' := m.(engine := step.0);
      assert Inv(m');
      match step.1
      case None =>
      case Some(HostTick(s)) =>
        AppendKeepsWellFormed(m.trace, Tick(s));
        var r := m'.(trace := m'.trace + [Tick(s)]);
        forall j | 0 <= j < |r.sessions|
          ensures Leave(j) in r.trace <==> Leave(j) in m.trace
          ensures Back(j) in r.trace <==> Back(j) in m.trace
        {
        }
      case Some(SessionLeave(s)) =>
        OnLeaveKeepsInv(m', s, now);
    }
  }

  lemma {:induction false} DispatchKeepsInv(m: MonitorState, i: nat, leave: bool, now: int)
    requires Inv(m) && i <= |m.sessions|
    ensures Inv(Dispatch(m, i, leave, now))
    decreases |m.sessions| - i
  {
    if i < |m.sessions| {
      var m' := if !m.sessions[i].armed then m
                else if leave then OnLeave(m, i, now)
                else OnBack(m, i, now);
      if m.sessions[i].armed {
        if leave { OnLeaveKeepsInv(m, i, now); } else { OnBackKeepsInv(m, i, now); }
      }
      DispatchKeepsInv(m', i + 1, leave, now);
    }
  }

  lemma StepKeepsInv(m: MonitorState, t: Timed)
    requires Inv(m)
    ensures Inv(Step(m, t))
  {
    match t.input
    case Subscribed(c, i) => SubscribeKeepsInv(m, c, i, t.now);
    case StopCalled(s) => if s < |m.sessions| { StopKeepsInv(m, s, t.now); }
    case StopSubscribeCalled => StopSubscribeKeepsInv(m, t.now);
    case TimerFired => IntervalFiresKeepsInv(m, t.now);
    case UserActivity(refresh) =>
      var m' := if refresh && m.engine.armed then m.(engine := Refreshed(m.engine, t.now)) else m;
      assert Inv(m');
      DispatchKeepsInv(m', 0, false, t.now);
    case VisibilityChanged(hidden) => DispatchKeepsInv(m, 0, hidden, t.now);
  }

  /** The state after a sequence of host events. */
  function Run(m: MonitorState, ts: seq<Timed>): (r: MonitorState)
    requires Wired(m)
    ensures Wired(r) && |m.sessions| <= |r.sessions| && |m.trace| <= |r.trace|
    decreases |ts|
  {
    if ts == [] then m else Run(Step(m, ts[0]), ts[1..])
  }

  /** Every sequence of host events keeps the invariant, and only grows the state. */
  lemma {:induction false} RunKeepsInv(m: MonitorState, ts: seq<Timed>)
    requires Inv(m)
    ensures Inv(Run(m, ts)) && Grows(m, Run(m, ts))
    decreases |ts|
  {
    if ts != [] {
      StepKeepsInv(m, ts[0]);
      var m' := Step(m, ts[0]);
      RunKeepsInv(m', ts[1..]);
      GrowsTransitive(m, m', Run(m', ts[1..]));
    }
  }
}
