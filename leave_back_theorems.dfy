/**
 * What the leave/back monitor promises its host, over any sequence of host
 * events: the exactly-once and ordering guarantees of the trace, the effect of
 * `stop`, the two ways to leave and the two ways to come back, and the
 * scenarios that pin down timings.
 */
module LeaveBackTheorems {
  import opened Wrappers
  import opened Countdown
  import opened LeaveBackSpec

  /** From the first subscribe on, whatever the host events: per session `onUserLeave` and
      `onUserBack` fire at most once, `onUserBack` only after `onUserLeave`, and `onTick`
      never after `onUserLeave`. */
  lemma ReachableTraceGuarantees(ts: seq<Timed>)
    ensures TraceWellFormed(Run(Init(), ts).trace)
    ensures var t := Run(Init(), ts).trace;
      && (forall i, j :: 0 <= i < j < |t| && t[i].Leave? && t[j].Leave? ==> t[i].sid != t[j].sid)
      && (forall i, j :: 0 <= i < j < |t| && t[i].Back? && t[j].Back? ==> t[i].sid != t[j].sid)
      && (forall i, j :: 0 <= i < j < |t| && t[i].Leave? && t[j].Tick? ==> t[i].sid != t[j].sid)
      && (forall j :: 0 <= j < |t| && t[j].Back? ==> Leave(t[j].sid) in t[..j])
  {
    RunKeepsInv(Init(), ts);
  }

  /** A session whose two flags are set receives no callback ever again, and its
      flags and removed listeners stay as they are. */
  lemma StoppedSessionStaysSilent(m: MonitorState, s: nat, ts: seq<Timed>)
    requires Inv(m) && s < |m.sessions|
    requires m.sessions[s].isLeave && m.sessions[s].isBack
    ensures var r := Run(m, ts);
      && m.trace <= r.trace
      && (forall k :: |m.trace| <= k < |r.trace| ==> r.trace[k].sid != s)
      && r.sessions[s].isLeave && r.sessions[s].isBack
      && (!m.sessions[s].armed ==> !r.sessions[s].armed)
  {
    RunKeepsInv(m, ts);
    var r := Run(m, ts);
    assert OneShot(m.sessions[s], r.sessions[s]);
  }

  /** `stop` (the capability, or `stopSubscribe` reaching it) ends the session for good,
      from any state: no `onUserLeave`, `onUserBack` or `onTick` for it afterwards, and
      its listeners stay removed. */
  lemma StopSilencesSession(m: MonitorState, s: nat, now: int, ts: seq<Timed>)
    requires Inv(m) && s < |m.sessions|
    ensures var m' := Stop(m, s, now); var r := Run(m', ts);
      && r.trace[..|m.trace|] == m.trace
      && (forall k :: |m.trace| <= k < |r.trace| ==> r.trace[k].sid != s)
      && !r.sessions[s].armed
  {
    StopKeepsInv(m, s, now);
    StoppedSessionStaysSilent(Stop(m, s, now), s, ts);
  }

  /** `stopSubscribe` called while the slot holds session `s` silences `s` for good. */
  lemma StopSubscribeSilencesLastSession(m: MonitorState, now: int, ts: seq<Timed>)
    requires Inv(m) && m.stopRef.Some?
    ensures var s := m.stopRef.value; var r := Run(StopSubscribe(m, now), ts);
      && (forall k :: |m.trace| <= k < |r.trace| ==> r.trace[k].sid != s)
      && !r.sessions[s].armed
  {
    StopSilencesSession(m, m.stopRef.value, now, ts);
  }

  /** Once `onUserBack` of a session has fired, the session is torn down: no further
      callback for it, whatever the host events. */
  lemma NothingAfterBack(m: MonitorState, s: nat, ts: seq<Timed>)
    requires Inv(m) && s < |m.sessions| && Back(s) in m.trace
    ensures var r := Run(m, ts);
      forall k :: |m.trace| <= k < |r.trace| ==> r.trace[k].sid != s
  {
    assert m.sessions[s].isBack && m.sessions[s].isLeave;
    StoppedSessionStaysSilent(m, s, ts);
  }

  /** `stop` twice is `stop` once; it clears the shared engine and empties the slot
      whichever session they belong to; `stopSubscribe` on an empty slot does nothing. */
  lemma StopIsIdempotent(m: MonitorState, s: nat, now: int)
    requires Wired(m) && s < |m.sessions|
    ensures Stop(Stop(m, s, now), s, now) == Stop(m, s, now)
    ensures Stop(m, s, now).engine == Cleared(now) && Stop(m, s, now).stopRef == None
    ensures m.stopRef.None? ==> StopSubscribe(m, now) == m
    ensures StopSubscribe(StopSubscribe(m, now), now) == StopSubscribe(m, now)
  {
  }

  /** The one-shot guards: a second leave is a no-op, a back before any leave is a no-op,
      a second back is a no-op. */
  lemma GuardsIgnoreRepeats(m: MonitorState, s: nat, now: int)
    requires s < |m.sessions|
    ensures m.sessions[s].isLeave ==> OnLeave(m, s, now) == m
    ensures !m.sessions[s].isLeave ==> OnBack(m, s, now) == m
    ensures m.sessions[s].isBack ==> OnBack(m, s, now) == m
  {
  }

  /** A leave by `onLeave`: `onUserLeave` fires once and the shared engine is cleared,
      while the session's own listeners stay armed to see the return. */
  lemma LeaveClearsEngineKeepsListeners(m: MonitorState, s: nat, now: int)
    requires s < |m.sessions| && !m.sessions[s].isLeave
    ensures var r := OnLeave(m, s, now);
      && r.trace == m.trace + [Leave(s)]
      && r.engine == Cleared(now) && !Running(r.engine)
      && r.sessions[s].armed == m.sessions[s].armed
  {
  }

  lemma {:induction false} DispatchDeclaresLeave(m: MonitorState, i: nat, now: int, s: nat)
    requires i <= s < |m.sessions| && m.sessions[s].armed && !m.sessions[s].isLeave
    ensures var r := Dispatch(m, i, true, now); r.sessions[s].isLeave && Leave(s) in r.trace
    decreases |m.sessions| - i
  {
    var m' := if !m.sessions[i].armed then m else OnLeave(m, i, now);
    if i < s {
      DispatchDeclaresLeave(m', i + 1, now, s);
    } else {
      var r := Dispatch(m', i + 1, true, now);
      assert Leave(s) in m'.trace;
      assert Grows(m', r);
      assert r.trace[..|m'.trace|] == m'.trace;
    }
  }

  /** The page becoming hidden declares an active session left at once, without waiting
      for the countdown. */
  lemma HiddenPageLeavesAtOnce(m: MonitorState, s: nat, now: int)
    requires Inv(m) && s < |m.sessions| && m.sessions[s].armed && !m.sessions[s].isLeave
    ensures var r := Visibility(m, now, true);
      r.sessions[s].isLeave && Leave(s) !in m.trace && Leave(s) in r.trace
  {
    DispatchDeclaresLeave(m, 0, now, s);
  }

  lemma {:induction false} DispatchDeclaresBack(m: MonitorState, i: nat, now: int, s: nat)
    requires i <= s < |m.sessions| && m.sessions[s].armed
    requires m.sessions[s].isLeave && !m.sessions[s].isBack
    ensures var r := Dispatch(m, i, false, now); r.sessions[s] == Session(true, true, false) && Back(s) in r.trace
    decreases |m.sessions| - i
  {
    var m' := if !m.sessions[i].armed then m else OnBack(m, i, now);
    if i < s {
      DispatchDeclaresBack(m', i + 1, now, s);
    } else {
      var r := Dispatch(m', i + 1, false, now);
      assert Back(s) in m'.trace;
      assert Grows(m', r);
      assert r.trace[..|m'.trace|] == m'.trace;
    }
  }

  /** After a leave, the page becoming visible or any raw activity event fires `onUserBack`
      for the first time and tears the session down. */
  lemma VisibleOrActivityBringsBack(m: MonitorState, s: nat, now: int, refresh: bool)
    requires Inv(m) && s < |m.sessions| && m.sessions[s].armed
    requires m.sessions[s].isLeave && !m.sessions[s].isBack
    ensures Back(s) !in m.trace
    ensures var r := Visibility(m, now, false);
      r.sessions[s] == Session(true, true, false) && Back(s) in r.trace
    ensures var r := Activity(m, now, refresh);
      r.sessions[s] == Session(true, true, false) && Back(s) in r.trace
  {
    DispatchDeclaresBack(m, 0, now, s);
    var m' := if refresh && m.engine.armed then m.(engine := Refreshed(m.engine, now)) else m;
    DispatchDeclaresBack(m', 0, now, s);
  }

  /** A timer firing past the deadline is the idle leave: `onUserLeave` of the session that
      started the engine, and the engine stops ticking. Before the deadline it is only that
      session's `onTick`. */
  lemma TimerFiringOutcome(m: MonitorState, now: int)
    requires Inv(m) && Running(m.engine)
    ensures var s := m.engine.onTick.value.sid; var r := IntervalFires(m, now);
      && (m.engine.targetTime <= now ==>
            && r.trace == m.trace + [Leave(s)] && r.sessions[s].isLeave
            && r.engine == Cleared(now) && r.stopRef == m.stopRef)
      && (now < m.engine.targetTime ==>
            r == m.(trace := m.trace + [Tick(s)]))
  {
  }

  /** Timer firings at the given instants, and no other host event. */
  function Firings(times: seq<int>): (ts: seq<Timed>)
    ensures |ts| == |times|
    ensures forall k :: 0 <= k < |times| ==> ts[k] == At(times[k], TimerFired)
    decreases |times|
  {
    if times == [] then [] else [At(times[0], TimerFired)] + Firings(times[1..])
  }

  /** What the host should see from firings at `times` while nothing else happens: the
      session's `onTick` for each firing before the deadline, its `onUserLeave` at the first
      firing at or after it, and nothing from then on. */
  function IdleTrace(sid: nat, deadline: int, times: seq<int>): (t: seq<Event>)
    ensures |t| <= |times|
    ensures forall k :: 0 <= k < |t| ==> t[k].sid == sid && !t[k].Back?
    ensures forall k :: 0 <= k < |t| - 1 ==> t[k] == Tick(sid)
    decreases |times|
  {
    if times == [] then []
    else if times[0] < deadline then [Tick(sid)] + IdleTrace(sid, deadline, times[1..])
    else [Leave(sid)]
  }

  /** `IdleTrace` spelled out: if the first `k` firings come before the deadline and the
      next one (if any) at or after it, the host sees `k` ticks and then one leave. */
  lemma {:induction false} IdleTraceShape(sid: nat, deadline: int, times: seq<int>, k: nat)
    requires k <= |times| && forall j :: 0 <= j < k ==> times[j] < deadline
    requires k < |times| ==> deadline <= times[k]
    ensures var t := IdleTrace(sid, deadline, times);
      && |t| == (if k < |times| then k + 1 else k)
      && (forall j :: 0 <= j < k ==> t[j] == Tick(sid))
      && (k < |times| ==> t[k] == Leave(sid))
    decreases k
  {
    if k > 0 {
      IdleTraceShape(sid, deadline, times[1..], k - 1);
      var t := IdleTrace(sid, deadline, times);
      assert t == [Tick(sid)] + IdleTrace(sid, deadline, times[1..]);
    }
  }

  /** Once the engine has stopped, timer firings change nothing. */
  lemma {:induction false} StoppedIgnoresFirings(m: MonitorState, times: seq<int>)
    requires Wired(m) && !Running(m.engine)
    ensures Run(m, Firings(times)) == m
    decreases |times|
  {
    if times != [] {
      assert Firings(times)[1..] == Firings(times[1..]);
      StoppedIgnoresFirings(m, times[1..]);
    }
  }

  /** Timer firings on an engine started by session `sid`, with no other event in between,
      produce exactly `IdleTrace` with that engine's deadline. */
  lemma {:induction false} ArmedFirings(m: MonitorState, sid: nat, times: seq<int>)
    requires Wired(m) && Running(m.engine) && m.engine.onTimeout == Some(SessionLeave(sid))
    ensures Run(m, Firings(times)).trace == m.trace + IdleTrace(sid, m.engine.targetTime, times)
    decreases |times|
  {
    if times != [] {
      var ts := Firings(times);
      assert ts[1..] == Firings(times[1..]);
      var m' := Step(m, ts[0]);
      if times[0] < m.engine.targetTime {
        assert m' == m.(trace := m.trace + [Tick(sid)]);
        ArmedFirings(m', sid, times[1..]);
        assert m.trace + [Tick(sid)] + IdleTrace(sid, m.engine.targetTime, times[1..])
            == m.trace + IdleTrace(sid, m.engine.targetTime, times);
      } else {
        assert m'.trace == m.trace + [Leave(sid)] && !Running(m'.engine);
        StoppedIgnoresFirings(m', times[1..]);
      }
    }
  }

  /** The idle leave for any subscription: after `subscribe` at `t0` with countdown `c`,
      followed by nothing but timer firings, the new session gets `onTick` for each firing before
      `t0 + c`, `onUserLeave` at the first firing at or after it, and nothing after that. */
  lemma IdleSubscriptionLeavesOnce(m: MonitorState, c: int, ti: int, t0: int, times: seq<int>)
    requires Wired(m)
    ensures Run(Subscribe(m, c, ti, t0), Firings(times)).trace
         == m.trace + IdleTrace(|m.sessions|, t0 + c, times)
  {
    SubscribeArmsEngine(m, c, ti, t0);
    ArmedFirings(Subscribe(m, c, ti, t0), |m.sessions|, times);
  }

  /** `subscribe` starts the shared engine for the new session, with its deadline
      `countdown` after the subscription, and fires nothing. */
  lemma SubscribeArmsEngine(m: MonitorState, c: int, ti: int, t0: int)
    requires Wired(m)
    ensures var m1 := Subscribe(m, c, ti, t0);
      && Run(m, [At(t0, Subscribed(c, ti))]) == m1
      && Running(m1.engine) && m1.engine.onTimeout == Some(SessionLeave(|m.sessions|))
      && m1.engine.targetTime == t0 + c && m1.trace == m.trace
  {
    assert [At(t0, Subscribed(c, ti))][1..] == [];
  }

  /** A run is the events applied one after the other: running `a` then `b` is running `a + b`. */
  lemma {:induction false} RunConcat(m: MonitorState, a: seq<Timed>, b: seq<Timed>)
    requires Wired(m)
    ensures Run(m, a + b) == Run(Run(m, a), b)
    decreases |a|
  {
    if a != [] {
      assert (a + b)[0] == a[0] && (a + b)[1..] == a[1..] + b;
      RunConcat(Step(m, a[0]), a[1..], b);
    } else {
      assert a + b == b;
    }
  }

  lemma {:induction false} BackDispatchWithoutLeftSessionIsNoop(m: MonitorState, i: nat, now: int)
    requires i <= |m.sessions|
    requires forall j :: i <= j < |m.sessions| && m.sessions[j].armed ==>
      !m.sessions[j].isLeave || m.sessions[j].isBack
    ensures Dispatch(m, i, false, now) == m
    decreases |m.sessions| - i
  {
    if i < |m.sessions| {
      BackDispatchWithoutLeftSessionIsNoop(m, i + 1, now);
    }
  }

  /** Activity while no armed session is waiting for its return only moves the deadline
      (when the throttle lets the refresh run and the engine's listeners are armed). */
  lemma ActivityBeforeLeaveOnlyRefreshes(m: MonitorState, now: int, refresh: bool)
    requires forall j :: 0 <= j < |m.sessions| && m.sessions[j].armed ==>
      !m.sessions[j].isLeave || m.sessions[j].isBack
    ensures Activity(m, now, refresh) ==
      if refresh && m.engine.armed then m.(engine := Refreshed(m.engine, now)) else m
  {
    var m' := if refresh && m.engine.armed then m.(engine := Refreshed(m.engine, now)) else m;
    BackDispatchWithoutLeftSessionIsNoop(m', 0, now);
  }

  /** Idle timeline, first phase (shared with the key-press timeline): after `subscribe` at 0
      with countdown 2000 and tick interval 500, the firings at 500, 1000 and 1500 each give
      `onTick` and leave the deadline at 2000. */
  lemma KeyDownBeforePress()
    ensures Run(Init(), [At(0, Subscribed(2000, 500)), At(500, TimerFired), At(1000, TimerFired), At(1500, TimerFired)])
         == MonitorState(EngineState(2000, 2000, Some(SessionLeave(0)), Some(HostTick(0)), Some(500), true),
                         [Session(false, false, true)], Some(0), [Tick(0), Tick(0), Tick(0)])
  {
  }

  /** Idle timeline, last phase: the firing at 2000 is the leave, which clears the engine;
      the firing at 2500 changes nothing. */
  lemma IdleLeavePhase()
    ensures Run(MonitorState(EngineState(2000, 2000, Some(SessionLeave(0)), Some(HostTick(0)), Some(500), true),
                             [Session(false, false, true)], Some(0), [Tick(0), Tick(0), Tick(0)]),
                [At(2000, TimerFired)])
         == MonitorState(EngineState(2000, 0, None, None, None, false),
                         [Session(true, false, true)], Some(0), [Tick(0), Tick(0), Tick(0), Leave(0)])
    ensures Run(MonitorState(EngineState(2000, 0, None, None, None, false),
                             [Session(true, false, true)], Some(0), [Tick(0), Tick(0), Tick(0), Leave(0)]),
                [At(2500, TimerFired)])
         == MonitorState(EngineState(2000, 0, None, None, None, false),
                         [Session(true, false, true)], Some(0), [Tick(0), Tick(0), Tick(0), Leave(0)])
  {
  }

  /** No activity and a visible page, countdown 2000 and tick interval 500: `onTick` at
      500, 1000 and 1500 and no leave before 2000; `onUserLeave` at 2000; nothing at 2500. */
  lemma IdleScenario(ticks: seq<Timed>, leave: seq<Timed>, late: seq<Timed>)
    requires ticks == [At(0, Subscribed(2000, 500)), At(500, TimerFired), At(1000, TimerFired), At(1500, TimerFired)]
    requires leave == [At(2000, TimerFired)]
    requires late == [At(2500, TimerFired)]
    ensures Run(Init(), ticks).trace == [Tick(0), Tick(0), Tick(0)]
    ensures Run(Init(), ticks + leave).trace == [Tick(0), Tick(0), Tick(0), Leave(0)]
    ensures Run(Init(), ticks + leave + late) == Run(Init(), ticks + leave)
  {
    KeyDownBeforePress();
    IdleLeavePhase();
    RunConcat(Init(), ticks, leave);
    RunConcat(Init(), ticks + leave, late);
  }

  /** Key-press timeline, second phase: the press at 1800 moves the deadline to 3800. */
  lemma KeyDownPress()
    ensures Run(MonitorState(EngineState(2000, 2000, Some(SessionLeave(0)), Some(HostTick(0)), Some(500), true),
                             [Session(false, false, true)], Some(0), [Tick(0), Tick(0), Tick(0)]),
                [At(1800, UserActivity(true))])
         == MonitorState(EngineState(3800, 2000, Some(SessionLeave(0)), Some(HostTick(0)), Some(500), true),
                         [Session(false, false, true)], Some(0), [Tick(0), Tick(0), Tick(0)])
  {
  }

  /** Key-press timeline, third phase: the firings at 2000 to 3500 are all before the new
      deadline, so each gives `onTick` and nothing else changes. */
  lemma KeyDownTicksAfterPress()
    ensures Run(MonitorState(EngineState(3800, 2000, Some(SessionLeave(0)), Some(HostTick(0)), Some(500), true),
                             [Session(false, false, true)], Some(0), [Tick(0), Tick(0), Tick(0)]),
                [At(2000, TimerFired), At(2500, TimerFired), At(3000, TimerFired), At(3500, TimerFired)])
         == MonitorState(EngineState(3800, 2000, Some(SessionLeave(0)), Some(HostTick(0)), Some(500), true),
                         [Session(false, false, true)], Some(0),
                         [Tick(0), Tick(0), Tick(0), Tick(0), Tick(0), Tick(0), Tick(0)])
  {
  }

  /** Key-press timeline, last phase: the firing at 4000 is the leave; the one at 4500
      changes nothing. */
  lemma KeyDownAfterPress()
    ensures Run(MonitorState(EngineState(3800, 2000, Some(SessionLeave(0)), Some(HostTick(0)), Some(500), true),
                             [Session(false, false, true)], Some(0),
                             [Tick(0), Tick(0), Tick(0), Tick(0), Tick(0), Tick(0), Tick(0)]),
                [At(4000, TimerFired)])
         == MonitorState(EngineState(4000, 0, None, None, None, false), [Session(true, false, true)], Some(0),
                         [Tick(0), Tick(0), Tick(0), Tick(0), Tick(0), Tick(0), Tick(0), Leave(0)])
    ensures Run(MonitorState(EngineState(4000, 0, None, None, None, false), [Session(true, false, true)], Some(0),
                             [Tick(0), Tick(0), Tick(0), Tick(0), Tick(0), Tick(0), Tick(0), Leave(0)]),
                [At(4500, TimerFired)])
         == MonitorState(EngineState(4000, 0, None, None, None, false), [Session(true, false, true)], Some(0),
                         [Tick(0), Tick(0), Tick(0), Tick(0), Tick(0), Tick(0), Tick(0), Leave(0)])
  {
  }

  /** As in the idle timeline, with a key press at 1800 that the throttle lets through:
      the deadline moves to 3800, the firings up to 3500 give `onTick` only, the leave
      comes at 4000, and nothing at 4500. */
  lemma KeyDownScenario(before: seq<Timed>, press: seq<Timed>, ticks: seq<Timed>, leave: seq<Timed>, late: seq<Timed>)
    requires before == [At(0, Subscribed(2000, 500)), At(500, TimerFired), At(1000, TimerFired), At(1500, TimerFired)]
    requires press == [At(1800, UserActivity(true))]
    requires ticks == [At(2000, TimerFired), At(2500, TimerFired), At(3000, TimerFired), At(3500, TimerFired)]
    requires leave == [At(4000, TimerFired)]
    requires late == [At(4500, TimerFired)]
    ensures Run(Init(), before + press).engine.targetTime == 3800
    ensures Run(Init(), before + press + ticks).trace
         == [Tick(0), Tick(0), Tick(0), Tick(0), Tick(0), Tick(0), Tick(0)]
    ensures Run(Init(), before + press + ticks + leave).trace
         == [Tick(0), Tick(0), Tick(0), Tick(0), Tick(0), Tick(0), Tick(0), Leave(0)]
    ensures Run(Init(), before + press + ticks + leave + late) == Run(Init(), before + press + ticks + leave)
  {
    KeyDownBeforePress();
    KeyDownPress();
    KeyDownTicksAfterPress();
    KeyDownAfterPress();
    RunConcat(Init(), before, press);
    RunConcat(Init(), before + press, ticks);
    RunConcat(Init(), before + press + ticks, leave);
    RunConcat(Init(), before + press + ticks + leave, late);
  }

  /** The same key press dropped by the throttle leaves the deadline at 2000. */
  lemma ThrottledKeyDownScenario()
    ensures Run(Init(), [At(0, Subscribed(2000, 500)), At(1800, UserActivity(false)),
                         At(2000, TimerFired)]).trace
            == [Leave(0)]
  {
  }

  /** Hide-and-show timeline, first phase: hiding the page at 0 is the leave, at once. */
  lemma HiddenPhase()
    ensures Run(Init(), [At(0, Subscribed(2000, 500)), At(0, VisibilityChanged(true))])
         == MonitorState(EngineState(0, 0, None, None, None, false), [Session(true, false, true)], Some(0), [Leave(0)])
  {
  }

  /** Hide-and-show timeline, second phase: showing the page at 100 is the return, and the
      session's `stop` tears it down. */
  lemma VisiblePhase()
    ensures Run(MonitorState(EngineState(0, 0, None, None, None, false), [Session(true, false, true)], Some(0), [Leave(0)]),
                [At(100, VisibilityChanged(false))])
         == MonitorState(EngineState(100, 0, None, None, None, false), [Session(true, true, false)], None,
                         [Leave(0), Back(0)])
  {
  }

  /** Hide-and-show timeline, last phase: activity at 200 and a firing at 500 change nothing. */
  lemma AfterBackPhase()
    ensures Run(MonitorState(EngineState(100, 0, None, None, None, false), [Session(true, true, false)], None,
                             [Leave(0), Back(0)]),
                [At(200, UserActivity(true)), At(500, TimerFired)])
         == MonitorState(EngineState(100, 0, None, None, None, false), [Session(true, true, false)], None,
                         [Leave(0), Back(0)])
  {
  }

  /** Leave by hiding the page at 0, return by showing it at 100: `onUserLeave` fires at 0,
      `onUserBack` at 100, the session is torn down, and the activity at 200 and the timer
      firing at 500 change nothing. */
  lemma HiddenThenVisibleScenario(hiding: seq<Timed>, showing: seq<Timed>, later: seq<Timed>)
    requires hiding == [At(0, Subscribed(2000, 500)), At(0, VisibilityChanged(true))]
    requires showing == [At(100, VisibilityChanged(false))]
    requires later == [At(200, UserActivity(true)), At(500, TimerFired)]
    ensures Run(Init(), hiding).trace == [Leave(0)]
    ensures var r := Run(Init(), hiding + showing);
      && r.trace == [Leave(0), Back(0)]
      && r.sessions == [Session(true, true, false)]
      && r.stopRef == None && !Running(r.engine)
    ensures Run(Init(), hiding + showing + later) == Run(Init(), hiding + showing)
  {
    HiddenPhase();
    VisiblePhase();
    AfterBackPhase();
    RunConcat(Init(), hiding, showing);
    RunConcat(Init(), hiding + showing, later);
  }

  /** Shared-engine scenario, first phase: session 0 leaves by a hidden page, session 1 subscribes. */
  lemma SharedEngineSecondSubscribe()
    ensures Run(Init(), [At(0, Subscribed(2000, 500)), At(10, VisibilityChanged(true)), At(20, Subscribed(2000, 500))])
         == MonitorState(EngineState(2020, 2000, Some(SessionLeave(1)), Some(HostTick(1)), Some(500), true),
                         [Session(true, false, true), Session(false, false, true)], Some(1), [Leave(0)])
  {
  }

  /** Shared-engine scenario, second phase: activity brings session 0 back, and its stop
      clears the countdown session 1 had started. */
  lemma SharedEngineOlderBackPhase()
    ensures Run(MonitorState(EngineState(2020, 2000, Some(SessionLeave(1)), Some(HostTick(1)), Some(500), true),
                             [Session(true, false, true), Session(false, false, true)], Some(1), [Leave(0)]),
                [At(30, UserActivity(false))])
         == MonitorState(EngineState(30, 0, None, None, None, false),
                         [Session(true, true, false), Session(false, false, true)], None, [Leave(0), Back(0)])
  {
    var m0 := MonitorState(EngineState(2020, 2000, Some(SessionLeave(1)), Some(HostTick(1)), Some(500), true),
                           [Session(true, false, true), Session(false, false, true)], Some(1), [Leave(0)]);
    var m1 := MonitorState(EngineState(30, 0, None, None, None, false),
                           [Session(true, true, false), Session(false, false, true)], None, [Leave(0), Back(0)]);
    assert OnBack(m0, 0, 30) == m1;
    assert Dispatch(m1, 1, false, 30) == m1;
  }

  /** Shared-engine timeline, third phase: the timer firing at 5000 and `stopSubscribe`
      at 6000 change nothing, since the engine is stopped and the slot empty. */
  lemma SharedEngineQuietPhase()
    ensures Run(MonitorState(EngineState(30, 0, None, None, None, false),
                             [Session(true, true, false), Session(false, false, true)], None, [Leave(0), Back(0)]),
                [At(5000, TimerFired), At(6000, StopSubscribeCalled)])
         == MonitorState(EngineState(30, 0, None, None, None, false),
                         [Session(true, true, false), Session(false, false, true)], None, [Leave(0), Back(0)])
  {
  }

  /** Shared-engine timeline, last phase: the hidden page at 7000 makes session 1 leave. */
  lemma SharedEngineLastPhase()
    ensures Run(MonitorState(EngineState(30, 0, None, None, None, false),
                             [Session(true, true, false), Session(false, false, true)], None, [Leave(0), Back(0)]),
                [At(7000, VisibilityChanged(true))])
         == MonitorState(EngineState(7000, 0, None, None, None, false),
                         [Session(true, true, false), Session(true, false, true)], None, [Leave(0), Back(0), Leave(1)])
  {
  }

  /** One engine and one `stopRef` slot for all sessions of a hook instance: session 0's
      return at 30 cancels the countdown session 1 started at 20, so the firing at 5000
      brings no timeout for session 1 and `stopSubscribe` at 6000 finds the slot empty;
      session 1 leaves only by the hidden page at 7000. */
  lemma SharedEngineScenario(first: seq<Timed>, back: seq<Timed>, quiet: seq<Timed>, hidden: seq<Timed>)
    requires first == [At(0, Subscribed(2000, 500)), At(10, VisibilityChanged(true)), At(20, Subscribed(2000, 500))]
    requires back == [At(30, UserActivity(false))]
    requires quiet == [At(5000, TimerFired), At(6000, StopSubscribeCalled)]
    requires hidden == [At(7000, VisibilityChanged(true))]
    ensures var r := Run(Init(), first + back);
      && r.stopRef == None && !Running(r.engine)
      && r.sessions == [Session(true, true, false), Session(false, false, true)]
    ensures Run(Init(), first + back + quiet) == Run(Init(), first + back)
    ensures Run(Init(), first + back + quiet + hidden).trace == [Leave(0), Back(0), Leave(1)]
  {
    SharedEngineSecondSubscribe();
    SharedEngineOlderBackPhase();
    SharedEngineQuietPhase();
    SharedEngineLastPhase();
    RunConcat(Init(), first, back);
    RunConcat(Init(), first + back, quiet);
    RunConcat(Init(), first + back + quiet, hidden);
  }

  lemma {:induction false} BackDispatchStaysStopped(m: MonitorState, i: nat, now: int)
    requires i <= |m.sessions| && !Running(m.engine) && m.stopRef == None
    ensures var r := Dispatch(m, i, false, now); !Running(r.engine) && r.stopRef == None
    decreases |m.sessions| - i
  {
    if i < |m.sessions| {
      var m' := if !m.sessions[i].armed then m else OnBack(m, i, now);
      BackDispatchStaysStopped(m', i + 1, now);
    }
  }

  lemma {:induction false} BackDispatchStopsEngine(m: MonitorState, i: nat, now: int, s: nat)
    requires i <= s < |m.sessions| && m.sessions[s].armed
    requires m.sessions[s].isLeave && !m.sessions[s].isBack
    ensures var r := Dispatch(m, i, false, now); !Running(r.engine) && r.stopRef == None
    decreases |m.sessions| - i
  {
    var m' := if !m.sessions[i].armed then m else OnBack(m, i, now);
    if i < s {
      BackDispatchStopsEngine(m', i + 1, now, s);
    } else {
      BackDispatchStaysStopped(m', i + 1, now);
    }
  }

  lemma {:induction false} BackDispatchSparesActive(m: MonitorState, i: nat, now: int, n: nat)
    requires i <= |m.sessions| && n < |m.sessions| && !m.sessions[n].isLeave
    ensures Dispatch(m, i, false, now).sessions[n] == m.sessions[n]
    decreases |m.sessions| - i
  {
    if i < |m.sessions| {
      var m' := if !m.sessions[i].armed then m else OnBack(m, i, now);
      BackDispatchSparesActive(m', i + 1, now, n);
    }
  }

  /** When an older session `s` comes back, its `stop` clears the one engine all sessions
      share and empties the one `stopRef` slot, while another session `n` that has not left
      stays subscribed as it was. */
  lemma OlderBackStopsSharedEngine(m: MonitorState, s: nat, n: nat, now: int, refresh: bool)
    requires Inv(m) && s < |m.sessions| && n < |m.sessions|
    requires m.sessions[s].armed && m.sessions[s].isLeave && !m.sessions[s].isBack
    requires !m.sessions[n].isLeave
    ensures var r := Activity(m, now, refresh);
      && Inv(r) && Back(s) in r.trace && r.sessions[n] == m.sessions[n]
      && !Running(r.engine) && r.stopRef == None
  {
    VisibleOrActivityBringsBack(m, s, now, refresh);
    var m' := if refresh && m.engine.armed then m.(engine := Refreshed(m.engine, now)) else m;
    BackDispatchStopsEngine(m', 0, now, s);
    BackDispatchSparesActive(m', 0, now, n);
    StepKeepsInv(m, At(now, UserActivity(refresh)));
  }

  /** With the engine stopped and the slot empty, the interval timer and `stopSubscribe`
      change nothing. */
  lemma StoppedEngineIgnoresTimer(m: MonitorState, now: int)
    requires Wired(m) && !Running(m.engine) && m.stopRef == None
    ensures IntervalFires(m, now) == m && StopSubscribe(m, now) == m
  {
  }

  /** All sessions of one hook instance share one engine and one `stopRef` slot. When an
      older session `s` comes back, its `stop` cancels the countdown that a newer session `n`
      started and empties the slot that held `n`'s stop: from then on neither the interval
      timer nor `stopSubscribe` reaches `n`, which stays subscribed and not left; only a
      hidden page can still make it leave. */
  lemma SharedEngineOlderBack(m: MonitorState, s: nat, n: nat, now: int, refresh: bool, later: int)
    requires Inv(m) && s < |m.sessions| && n < |m.sessions|
    requires m.sessions[s].armed && m.sessions[s].isLeave && !m.sessions[s].isBack
    requires m.sessions[n].armed && !m.sessions[n].isLeave
    ensures var r := Activity(m, now, refresh);
      && IntervalFires(r, later) == r && StopSubscribe(r, later) == r
      && Leave(n) !in r.trace && Leave(n) in Visibility(r, later, true).trace
  {
    OlderBackStopsSharedEngine(m, s, n, now, refresh);
    var r := Activity(m, now, refresh);
    StoppedEngineIgnoresTimer(r, later);
    HiddenPageLeavesAtOnce(r, n, later);
  }
}
