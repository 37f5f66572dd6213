/**
 * The countdown engine of `useUserLeaveCountDown`: a deadline, the countdown
 * length added to "now" on every refresh, two single-slot callbacks, the tick
 * interval (`None` while the engine is not running) and whether the four raw
 * activity listeners (mousemove, mousedown, keydown, scroll) are armed.
 *
 * The engine does not know what its callbacks do: a callback is a tag of type
 * `C`, and `Tick` hands back the tag it fires so that its owner can run it.
 * The clock is the parameter `now`, in milliseconds.
 */
module Countdown {
  import opened Wrappers

  datatype EngineState<C> = EngineState(
    targetTime: int,
    countdown: int,
    onTimeout: Option<C>,
    onTick: Option<C>,
    interval: Option<int>,
    armed: bool)

  /** The state before the first start: both refs at 0, nothing set, no interval. */
  function Idle<C>(): EngineState<C> {
    EngineState(0, 0, None, None, None, false)
  }

  /** The repeating tick is scheduled exactly while the interval is defined. */
  predicate Running<C>(e: EngineState<C>) {
    e.interval.Some?
  }

  /** Both callbacks are unset: no tick can reach the host any more. */
  predicate Silent<C>(e: EngineState<C>) {
    e.onTimeout.None? && e.onTick.None?
  }

  /** All or nothing: callbacks, interval and activity listeners are set together. */
  predicate Coherent<C>(e: EngineState<C>) {
    && e.onTimeout.Some? == e.onTick.Some?
    && e.onTick.Some? == e.interval.Some?
    && e.interval.Some? == e.armed
  }

  /** `startCountDown`: overwrites the whole configuration. */
  function Started<C>(countdown: int, tickInterval: int, onTimeout: C, onTick: C, now: int): (e: EngineState<C>)
    ensures Running(e) && Coherent(e) && !Silent(e)
  {
    EngineState(now + countdown, countdown, Some(onTimeout), Some(onTick), Some(tickInterval), true)
  }

  /** The throttled `updateTargetTime` body, when it runs. */
  function Refreshed<C>(e: EngineState<C>, now: int): (r: EngineState<C>)
    ensures r.(targetTime := e.targetTime) == e
    ensures Running(r) == Running(e) && (Coherent(e) ==> Coherent(r))
  {
    e.(targetTime := now + e.countdown)
  }

  /** `clearCountDown`: the deadline is rewritten to `now + 0` after the countdown is zeroed. */
  function Cleared<C>(now: int): (e: EngineState<C>)
    ensures !Running(e) && Silent(e) && Coherent(e) && !e.armed
    ensures e.targetTime == now && e.countdown == 0
  {
    EngineState(now + 0, 0, None, None, None, false)
  }

  /** `tick`: the new state and the callback it invokes, if any. */
  function TickStep<C>(e: EngineState<C>, now: int): (r: (EngineState<C>, Option<C>))
    ensures r.1 == e.onTimeout || r.1 == e.onTick
    ensures r.0 == e || r.0 == Cleared(now)
    ensures Coherent(e) ==> Coherent(r.0)
  {
    if e.targetTime <= now then (Cleared(now), e.onTimeout) else (e, e.onTick)
  }

  /** The callbacks fired by ticks at the given instants, with no activity in between. */
  function TickAll<C>(e: EngineState<C>, times: seq<int>): (fired: seq<Option<C>>)
    ensures |fired| == |times|
    decreases |times|
  {
    if times == [] then []
    else
      var (e', f) := TickStep(e, times[0]);
      [f] + TickAll(e', times[1..])
  }

  /** Clearing does not depend on the state it clears: `Engine.ClearCountDown` ends in
      `Cleared(now)` whatever the engine held, so clearing twice at one instant is clearing
      once. The deadline it leaves is the clearing instant, not 0, and a tick at that
      instant finds nothing to fire and leaves the engine as it is. */
  lemma ClearIsIdempotent<C>(now: int)
    ensures TickStep(Cleared<C>(now), now) == (Cleared<C>(now), None)
  {
  }

  /** A tick fires exactly one of the two slots: the timeout slot once the deadline has
      passed, and then the engine is stopped; otherwise the tick slot, and nothing changes. */
  lemma TickFiresOneSlot<C>(e: EngineState<C>, now: int)
    ensures e.targetTime <= now ==> TickStep(e, now).1 == e.onTimeout && !Running(TickStep(e, now).0) && Silent(TickStep(e, now).0)
    ensures now < e.targetTime ==> TickStep(e, now) == (e, e.onTick)
  {
  }

  /** After a refresh, every tick before the new deadline fires only the tick slot. */
  lemma RefreshPostponesTimeout<C>(e: EngineState<C>, now: int, later: int)
    requires now <= later < now + e.countdown
    ensures TickStep(Refreshed(e, now), later) == (Refreshed(e, now), e.onTick)
  {
  }

  /** A silent engine stays silent whatever the ticks. */
  lemma {:induction false} SilentTicksFireNothing<C>(e: EngineState<C>, times: seq<int>)
    requires Silent(e)
    ensures forall k :: 0 <= k < |times| ==> TickAll(e, times)[k].None?
    decreases |times|
  {
    if times != [] {
      var (e', f) := TickStep(e, times[0]);
      SilentTicksFireNothing(e', times[1..]);
    }
  }

  /** Ticks at non-decreasing instants with no activity: the tick slot fires before the
      deadline, the timeout slot fires at the first tick at or after it, and nothing after. */
  lemma {:induction false} IdleTicksThenTimeout<C>(e: EngineState<C>, times: seq<int>)
    requires forall i, j :: 0 <= i < j < |times| ==> times[i] <= times[j]
    ensures forall k :: 0 <= k < |times| && times[k] < e.targetTime ==>
      TickAll(e, times)[k] == e.onTick
    ensures forall k :: 0 <= k < |times| && e.targetTime <= times[k] && (k == 0 || times[k - 1] < e.targetTime) ==>
      TickAll(e, times)[k] == e.onTimeout
    ensures forall k :: 0 < k < |times| && e.targetTime <= times[k - 1] ==>
      TickAll(e, times)[k] == None
    decreases |times|
  {
    if times != [] {
      var fired := TickAll(e, times);
      if times[0] < e.targetTime {
        var rest := TickAll(e, times[1..]);
        assert fired == [e.onTick] + rest;
        IdleTicksThenTimeout(e, times[1..]);
        forall k {:trigger times[k]} | 0 < k < |times|
          ensures fired[k] == rest[k - 1] && times[0] <= times[k - 1] <= times[k]
        {
        }
      } else {
        var rest := TickAll(Cleared<C>(times[0]), times[1..]);
        assert fired == [e.onTimeout] + rest;
        SilentTicksFireNothing(Cleared<C>(times[0]), times[1..]);
        forall k {:trigger times[k]} | 0 < k < |times|
          ensures fired[k] == rest[k - 1] && times[0] <= times[k - 1] <= times[k]
        {
        }
      }
    }
  }

  /** The engine as the hook keeps it: refs and the interval state become fields. */
  class Engine<C> {
    var targetTime: int
    var countdown: int
    var onTimeout: Option<C>
    var onTick: Option<C>
    var interval: Option<int>
    var armed: bool

    function State(): EngineState<C>
      reads this
    {
      EngineState(targetTime, countdown, onTimeout, onTick, interval, armed)
    }

    constructor ()
      ensures State() == Idle()
    {
      targetTime, countdown := 0, 0;
      onTimeout, onTick := None, None;
      interval, armed := None, false;
    }

    method StartCountDown(countdown: int, tickInterval: int, onTimeout: C, onTick: C, now: int)
      modifies this
      ensures State() == Started(countdown, tickInterval, onTimeout, onTick, now)
      ensures Running(State()) && Coherent(State())
    {
      this.countdown := countdown;
      this.onTimeout := Some(onTimeout);
      this.onTick := Some(onTick);
      targetTime := now + this.countdown;
      armed := true;
      interval := Some(tickInterval);
    }

    /** The throttled refresh, on a run the throttle lets through. */
    method Refresh(now: int)
      modifies this`targetTime
      ensures State() == Refreshed(old(State()), now)
      ensures targetTime == now + countdown
    {
      targetTime := now + countdown;
    }

    method ClearCountDown(now: int)
      modifies this
      ensures State() == Cleared(now)
      ensures !Running(State()) && Silent(State()) && Coherent(State()) && targetTime == now
    {
      targetTime := 0;
      countdown := 0;
      onTimeout := None;
      onTick := None;
      targetTime := now + countdown;
      armed := false;
      interval := None;
    }

    /** Returns the callback the tick invokes; the caller runs it. */
    method Tick(now: int) returns (fired: Option<C>)
      modifies this
      ensures (State(), fired) == TickStep(old(State()), now)
      ensures old(targetTime) <= now ==> fired == old(onTimeout) && !Running(State())
      ensures now < old(targetTime) ==> fired == old(onTick) && State() == old(State())
    {
      if targetTime <= now {
        fired := onTimeout;
        ClearCountDown(now);
      } else {
        fired := onTick;
      }
    }
  }
}
