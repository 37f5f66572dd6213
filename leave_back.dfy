/**
 * The leave/back monitor as the hook runs it: one shared countdown engine,
 * the sessions' flags, the `stopRef` slot and the trace of host callbacks are
 * state that the closures of `subscribe` update in place. Each method is one
 * host event or one closure, proved to have the effect `LeaveBackSpec` gives it.
 */
module LeaveBack {
  import opened Wrappers
  import opened Countdown
  import opened LeaveBackSpec

  class Monitor {
    /** `useUserLeaveCountDown()` is called once per hook instance: all sessions share it. */
    const engine: Engine<Callback>
    var sessions: seq<Session>
    var stopRef: Option<nat>
    var trace: seq<Event>

    function State(): MonitorState
      reads this, engine
    {
      MonitorState(engine.State(), sessions, stopRef, trace)
    }

    ghost predicate Valid()
      reads this, engine
    {
      Inv(State())
    }

    constructor ()
      ensures Valid() && fresh(engine)
      ensures State() == Init()
    {
      engine := new Engine<Callback>();
      sessions := [];
      stopRef := None;
      trace := [];
      InitInv();
    }

    /** The stop capability of session `sid`. */
    method Stop(sid: nat, now: int)
      requires Valid() && sid < |sessions|
      modifies this, engine
      ensures Valid()
      ensures State() == LeaveBackSpec.Stop(old(State()), sid, now)
    {
      StopKeepsInv(State(), sid, now);
      sessions := sessions[sid := sessions[sid].(isBack := true)];
      sessions := sessions[sid := sessions[sid].(isLeave := true)];
      engine.ClearCountDown(now);
      sessions := sessions[sid := sessions[sid].(armed := false)];
      stopRef := None;
    }

    /** The `onLeave` closure of session `sid`. */
    method OnLeave(sid: nat, now: int)
      requires Valid() && sid < |sessions|
      modifies this, engine
      ensures Valid()
      ensures State() == LeaveBackSpec.OnLeave(old(State()), sid, now)
    {
      OnLeaveKeepsInv(State(), sid, now);
      if sessions[sid].isLeave {
        return;
      }
      sessions := sessions[sid := sessions[sid].(isLeave := true)];
      trace := trace + [Leave(sid)];
      engine.ClearCountDown(now);
    }

    /** The `onBack` closure of session `sid`. */
    method OnBack(sid: nat, now: int)
      requires Valid() && sid < |sessions|
      modifies this, engine
      ensures Valid()
      ensures State() == LeaveBackSpec.OnBack(old(State()), sid, now)
    {
      OnBackKeepsInv(State(), sid, now);
      if !sessions[sid].isLeave {
        return;
      }
      if sessions[sid].isBack {
        return;
      }
      sessions := sessions[sid := sessions[sid].(isBack := true)];
      trace := trace + [Back(sid)];
      Stop(sid, now);
    }

    /** `subscribe`; the returned index is the session's stop capability. */
    method Subscribe(activeCountdown: int, activeCheckTickInterval: int, now: int) returns (sid: nat)
      requires Valid()
      modifies this, engine
      ensures Valid()
      ensures sid == old(|sessions|) && stopRef == Some(sid)
      ensures State() == LeaveBackSpec.Subscribe(old(State()), activeCountdown, activeCheckTickInterval, now)
    {
      SubscribeKeepsInv(State(), activeCountdown, activeCheckTickInterval, now);
      sid := |sessions|;
      engine.StartCountDown(activeCountdown, activeCheckTickInterval, SessionLeave(sid), HostTick(sid), now);
      sessions := sessions + [Session(false, false, true)];
      stopRef := Some(sid);
    }

    method StopSubscribe(now: int)
      requires Valid()
      modifies this, engine
      ensures Valid()
      ensures State() == LeaveBackSpec.StopSubscribe(old(State()), now)
    {
      if stopRef.Some? {
        Stop(stopRef.value, now);
      }
    }

    /** A firing of the interval timer, which is scheduled only while the interval is defined. */
    method IntervalFires(now: int)
      requires Valid()
      modifies this, engine
      ensures Valid()
      ensures State() == LeaveBackSpec.IntervalFires(old(State()), now)
    {
      IntervalFiresKeepsInv(State(), now);
      if engine.interval.None? {
        return;
      }
      var fired := engine.Tick(now);
      match fired
      case None =>
      case Some(HostTick(s)) =>
        trace := trace + [Tick(s)];
      case Some(SessionLeave(s)) =>
        OnLeave(s, now);
    }

    /** Delivers one DOM event to the armed sessions' listeners in subscription order. */
    method Dispatch(leave: bool, now: int)
      requires Valid()
      modifies this, engine
      ensures Valid()
      ensures State() == LeaveBackSpec.Dispatch(old(State()), 0, leave, now)
    {
      var i := 0;
      while i < |sessions|
        invariant 0 <= i <= |sessions| == old(|sessions|)
        invariant Valid()
        invariant LeaveBackSpec.Dispatch(State(), i, leave, now) == LeaveBackSpec.Dispatch(old(State()), 0, leave, now)
        decreases |sessions| - i
      {
        if sessions[i].armed {
          if leave {
            OnLeave(i, now);
          } else {
            OnBack(i, now);
          }
        }
        i := i + 1;
      }
    }

    /** A raw activity event; `refresh` says whether the throttle lets the refresh run. */
    method Activity(now: int, refresh: bool)
      requires Valid()
      modifies this, engine
      ensures Valid()
      ensures State() == LeaveBackSpec.Activity(old(State()), now, refresh)
    {
      if refresh && engine.armed {
        engine.Refresh(now);
      }
      Dispatch(false, now);
    }

    method Visibility(now: int, hidden: bool)
      requires Valid()
      modifies this, engine
      ensures Valid()
      ensures State() == LeaveBackSpec.Visibility(old(State()), now, hidden)
    {
      Dispatch(hidden, now);
    }
  }
}
