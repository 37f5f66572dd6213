# Leave/back detection with an idle countdown

A Dafny model of `useUserLeaveAndBack.ts`. The file holds two React hooks.

- `useUserLeaveCountDown` is a countdown engine. It keeps a deadline (`targetTime`), a countdown length, a timeout-callback slot, a tick-callback slot, a tick interval that is undefined while the engine is stopped, and the activity listeners that push the deadline back (throttled).
- `useUserLeaveAndBack` is a monitor built on one such engine. Each `subscribe` starts a session with two one-shot flags, `isLeave` and `isBack`. The idle timeout or a hidden page makes the user *leave*: `onUserLeave` fires once and the engine is cleared. Afterwards, activity or a visible page makes the user *come back*: `onUserBack` fires once and the session is torn down by its `stop`. `stopSubscribe` calls the `stop` of the session kept in the single `stopRef` slot.

The current time is a parameter `now` of every operation: one instant per host event. Each DOM event and each firing of the interval timer is one call. What the host observes is a trace of its callbacks: `Tick(s)` for `onTick`, `Leave(s)` for `onUserLeave` and `Back(s)` for `onUserBack` of session `s`. A session is named by its subscription index.

Files:

- `countdown.dfy`, module `Countdown`: the engine as a value, `EngineState`, with its operations as functions. The class `Engine` keeps the hook's refs as fields, and its methods are proved against those functions. The engine's callback slots hold tags. `Tick` returns the tag it fires and its owner runs it.
- `leave_back_spec.dfy`, module `LeaveBackSpec`, defines the monitor as values:
  - the state is the engine, the sessions' flags, `stopRef` and the trace;
  - each closure and each host event is a function;
  - `Run` applies a sequence of timed host events;
  - `Inv` is the invariant every reachable state keeps, proved preserved by every step.
- `leave_back.dfy`, module `LeaveBack`: the class `Monitor`, which owns one `Engine` and updates its fields in place. Each method is proved to have the effect the matching `LeaveBackSpec` function gives it, and to keep `Inv`.
- `leave_back_theorems.dfy`, module `LeaveBackTheorems`, holds what the host can rely on:
  - the trace guarantees over any sequence of host events;
  - the effect of `stop`;
  - the two ways to leave and the two ways to come back;
  - what sharing one engine between sessions does;
  - concrete timelines.
- `wrappers.dfy`: `Option`.

Three behaviours of the code are easy to overlook, and the model keeps them as written:

- `clearCountDown` first sets `targetTime` to 0, then overwrites it with `now + 0` (lines 47 and 51). A cleared engine therefore has its deadline at the clearing instant, not at 0.
- `useUserLeaveCountDown()` is called once per hook instance (line 74). Every session of that instance starts, and clears, the same engine.
- `stop` empties `stopRef` whichever session it belongs to (line 135). When an older session comes back, its `stop` therefore also cancels a newer session's countdown and forgets the newer session's stop. From then on neither the timer nor `stopSubscribe` reaches the newer session (`LeaveBackTheorems.SharedEngineOlderBack`).

## Model

| member | source | states |
|---|---|---|
| Countdown.Engine.constructor | useUserLeaveAndBack.ts:5-9 | a new engine has deadline 0, countdown 0, both slots empty, no interval and listeners not armed |
| Countdown.Engine.StartCountDown | useUserLeaveAndBack.ts:32-44 | stores the countdown and both callbacks, sets the deadline to `now + countdown`, arms the listeners and sets the interval, so the engine runs |
| Countdown.Engine.Refresh | useUserLeaveAndBack.ts:11-16 | the throttled refresh sets the deadline to `now + countdown` and changes nothing else (its frame is `targetTime` alone) |
| Countdown.Engine.ClearCountDown | useUserLeaveAndBack.ts:46-54 | leaves countdown 0, both slots empty, listeners disarmed, no interval and the deadline at `now`, whatever the state before, so two clears at one instant are one |
| Countdown.Engine.Tick | useUserLeaveAndBack.ts:56-63 | past the deadline it returns the timeout callback and the engine is stopped; before it, it returns the tick callback and the engine is unchanged |
| Countdown.Started | useUserLeaveAndBack.ts:32-44 | the configuration `startCountDown` writes: the engine runs, both slots are set, and callbacks, interval and listeners are all set together |
| Countdown.Refreshed | useUserLeaveAndBack.ts:11-16 | a refresh changes the deadline and nothing else, so it keeps whether the engine runs and keeps callbacks, interval and listeners together |
| Countdown.Cleared | useUserLeaveAndBack.ts:46-54 | the state `clearCountDown` leaves, whatever it cleared: not running, both slots empty, listeners disarmed, countdown 0 and the deadline at the clearing instant, not 0 |
| Countdown.TickStep | useUserLeaveAndBack.ts:56-63 | a tick fires one of the two slots and either changes nothing or leaves the cleared state; it keeps callbacks, interval and listeners together |
| Countdown.TickAll | useUserLeaveAndBack.ts:65-67 | the interval timer's ticks with no activity in between: one firing, or none, per tick instant |
| Countdown.ClearIsIdempotent | useUserLeaveAndBack.ts:46-54 | a tick at the clearing instant finds nothing to fire and leaves the cleared engine as it is; clearing twice is clearing once because `Cleared(now)` does not depend on the state cleared |
| Countdown.TickFiresOneSlot | useUserLeaveAndBack.ts:56-63 | each tick fires exactly one slot: the timeout slot at or past the deadline, after which the engine is stopped and silent; otherwise the tick slot, with no change |
| Countdown.RefreshPostponesTimeout | useUserLeaveAndBack.ts:11-16 | after a refresh at `now`, every tick before `now + countdown` fires only the tick slot and changes nothing |
| Countdown.SilentTicksFireNothing | useUserLeaveAndBack.ts:56-63 | an engine with both slots empty fires nothing on any sequence of ticks |
| Countdown.IdleTicksThenTimeout | useUserLeaveAndBack.ts:56-67 | for ticks at non-decreasing instants with no activity: the tick slot fires before the deadline, the timeout slot at the first tick at or after it, and nothing afterwards |
| LeaveBackSpec.Stop | useUserLeaveAndBack.ts:126-136 | `stop` of a session sets both flags, disarms its listeners, clears the shared engine and empties `stopRef`; every other session is unchanged and the trace is unchanged |
| LeaveBackSpec.OnLeave | useUserLeaveAndBack.ts:91-96 | after `onLeave` the session has left; other sessions are unchanged; the trace only grows by events the guards allow |
| LeaveBackSpec.OnBack | useUserLeaveAndBack.ts:98-105 | `onBack` changes no other session and only appends events the guards allow |
| LeaveBackSpec.Subscribe | useUserLeaveAndBack.ts:76-141 | adds a fresh session whose flags are clear and listeners armed, keeps the earlier sessions, restarts the shared engine with the new session's `onLeave` and `onTick`, the given tick interval and the deadline `now + activeCountdown`, and puts its stop in the `stopRef` slot |
| LeaveBackSpec.StopSubscribe | useUserLeaveAndBack.ts:146-148 | leaves the `stopRef` slot empty and the trace unchanged |
| LeaveBackSpec.IntervalFires | useUserLeaveAndBack.ts:65-67 | a timer firing keeps the session count and only appends events the guards allow |
| LeaveBackSpec.Dispatch | useUserLeaveAndBack.ts:113-124 | delivering a DOM event to the sessions from index `i` on leaves the earlier sessions as they were |
| LeaveBackSpec.Activity | useUserLeaveAndBack.ts:11-23 | a raw activity event, which runs the engine's throttled refresh (lines 11-23) and then each armed session's `onBack` (lines 121-124), keeps the session count and only appends events the guards allow |
| LeaveBackSpec.Visibility | useUserLeaveAndBack.ts:113-120 | a visibilitychange keeps the session count and only appends events the guards allow |
| LeaveBackSpec.Step | useUserLeaveAndBack.ts:73-150 | any host event only grows the state: flags are one-shot, removed listeners stay removed, the trace is only appended to |
| LeaveBackSpec.AppendKeepsWellFormed | useUserLeaveAndBack.ts:91-105 | appending an event the `isLeave`/`isBack` guards let through keeps the trace well formed |
| LeaveBackSpec.StopKeepsInv | useUserLeaveAndBack.ts:126-136 | `stop` keeps the invariant |
| LeaveBackSpec.OnLeaveKeepsInv | useUserLeaveAndBack.ts:91-96 | `onLeave` keeps the invariant, so `Leave` appears at most once per session and never after it a `Tick` |
| LeaveBackSpec.OnBackKeepsInv | useUserLeaveAndBack.ts:98-105 | `onBack` keeps the invariant, so `Back` appears at most once per session and only after its `Leave` |
| LeaveBackSpec.SubscribeKeepsInv | useUserLeaveAndBack.ts:76-141 | `subscribe` keeps the invariant |
| LeaveBackSpec.StopSubscribeKeepsInv | useUserLeaveAndBack.ts:146-148 | `stopSubscribe` keeps the invariant |
| LeaveBackSpec.IntervalFiresKeepsInv | useUserLeaveAndBack.ts:56-67 | a timer firing keeps the invariant |
| LeaveBackSpec.DispatchKeepsInv | useUserLeaveAndBack.ts:113-124 | delivering a DOM event to the armed sessions keeps the invariant |
| LeaveBackSpec.StepKeepsInv | useUserLeaveAndBack.ts:73-150 | every host event keeps the invariant |
| LeaveBackSpec.Run | useUserLeaveAndBack.ts:73-150 | any sequence of host events keeps the engine wired to a live session's callbacks and the slot on a subscribed session, and drops no session and no trace event |
| LeaveBackSpec.RunKeepsInv | useUserLeaveAndBack.ts:73-150 | every sequence of host events keeps the invariant and only grows the state |
| LeaveBack.Monitor.constructor | useUserLeaveAndBack.ts:73-75 | a new monitor has a fresh idle engine, no session, an empty slot and an empty trace |
| LeaveBack.Monitor.Stop | useUserLeaveAndBack.ts:126-136 | the in-place `stop` has the effect of `LeaveBackSpec.Stop` and keeps the invariant |
| LeaveBack.Monitor.OnLeave | useUserLeaveAndBack.ts:91-96 | the in-place `onLeave` has the effect of `LeaveBackSpec.OnLeave` and keeps the invariant |
| LeaveBack.Monitor.OnBack | useUserLeaveAndBack.ts:98-105 | the in-place `onBack` has the effect of `LeaveBackSpec.OnBack` and keeps the invariant |
| LeaveBack.Monitor.Subscribe | useUserLeaveAndBack.ts:76-141 | returns the new session's index, which is now in the slot; has the effect of `LeaveBackSpec.Subscribe` and keeps the invariant |
| LeaveBack.Monitor.StopSubscribe | useUserLeaveAndBack.ts:146-148 | has the effect of `LeaveBackSpec.StopSubscribe` and keeps the invariant |
| LeaveBack.Monitor.IntervalFires | useUserLeaveAndBack.ts:65-67 | a timer firing has the effect of `LeaveBackSpec.IntervalFires` and keeps the invariant |
| LeaveBack.Monitor.Dispatch | useUserLeaveAndBack.ts:113-124 | the loop over the sessions has the effect of `LeaveBackSpec.Dispatch` from index 0 and keeps the invariant |
| LeaveBack.Monitor.Activity | useUserLeaveAndBack.ts:121-124 | has the effect of `LeaveBackSpec.Activity` and keeps the invariant |
| LeaveBack.Monitor.Visibility | useUserLeaveAndBack.ts:113-120 | has the effect of `LeaveBackSpec.Visibility` and keeps the invariant |
| LeaveBackTheorems.ReachableTraceGuarantees | useUserLeaveAndBack.ts:91-105 | for every trace reachable over any host events, at every position: per session `onUserLeave` and `onUserBack` at most once, `onUserBack` only after `onUserLeave`, no `onTick` after `onUserLeave` |
| LeaveBackTheorems.StoppedSessionStaysSilent | useUserLeaveAndBack.ts:126-136 | a session with both flags set gets no callback ever again, and its flags and disarmed listeners stay so |
| LeaveBackTheorems.StopSilencesSession | useUserLeaveAndBack.ts:126-136 | after `stop` of a session, whatever happens next, the earlier trace is kept, no callback names that session, and its listeners stay removed |
| LeaveBackTheorems.StopSubscribeSilencesLastSession | useUserLeaveAndBack.ts:146-148 | `stopSubscribe` while the slot holds a session silences that session for good |
| LeaveBackTheorems.NothingAfterBack | useUserLeaveAndBack.ts:98-105 | once `onUserBack` of a session has fired, no further callback names it |
| LeaveBackTheorems.StopIsIdempotent | useUserLeaveAndBack.ts:126-148 | `stop` twice is `stop` once; it clears the engine and empties the slot whichever session it belongs to; `stopSubscribe` on an empty slot changes nothing, and twice is once |
| LeaveBackTheorems.GuardsIgnoreRepeats | useUserLeaveAndBack.ts:91-105 | a second `onLeave` is a no-op; `onBack` before any leave is a no-op; a second `onBack` is a no-op |
| LeaveBackTheorems.LeaveClearsEngineKeepsListeners | useUserLeaveAndBack.ts:91-96 | a first leave appends exactly `Leave(s)`, clears the shared engine and leaves the session's listeners as they were, to see the return |
| LeaveBackTheorems.DispatchDeclaresLeave | useUserLeaveAndBack.ts:113-120 | a hidden-page event delivered from index `i` makes every armed session at or after `i` that had not left leave |
| LeaveBackTheorems.HiddenPageLeavesAtOnce | useUserLeaveAndBack.ts:113-120 | a hidden page fires `onUserLeave` of every armed session that had not left, without waiting for the countdown |
| LeaveBackTheorems.DispatchDeclaresBack | useUserLeaveAndBack.ts:113-124 | a back event delivered from index `i` tears down every armed session at or after `i` that has left and not come back, with `Back` in the trace |
| LeaveBackTheorems.VisibleOrActivityBringsBack | useUserLeaveAndBack.ts:113-124 | after a leave, a visible page or any activity fires `onUserBack` for the first time and tears the session down |
| LeaveBackTheorems.TimerFiringOutcome | useUserLeaveAndBack.ts:56-67 | a timer firing at or past the deadline is the idle leave of the session that started the engine: exactly `Leave` is appended, the engine is cleared and the slot kept; before it, the state is unchanged except for that session's `Tick` |
| LeaveBackTheorems.Firings | useUserLeaveAndBack.ts:65-67 | the host events that are timer firings at the given instants, one per instant |
| LeaveBackTheorems.IdleTrace | useUserLeaveAndBack.ts:56-63 | the callbacks firings should give with no other event: all of the session, never `Back`, at most one per firing, and only the last one can be other than `Tick` |
| LeaveBackTheorems.IdleTraceShape | useUserLeaveAndBack.ts:56-63 | if the first `k` firings come before the deadline and the next one at or after it, the host sees exactly `k` ticks and then one leave |
| LeaveBackTheorems.StoppedIgnoresFirings | useUserLeaveAndBack.ts:65-67 | once the engine is stopped, any timer firings leave the state unchanged |
| LeaveBackTheorems.ArmedFirings | useUserLeaveAndBack.ts:56-96 | timer firings on an engine started by a session, with nothing else in between, append exactly `IdleTrace` for that engine's deadline |
| LeaveBackTheorems.SubscribeArmsEngine | useUserLeaveAndBack.ts:107-112 | `subscribe` as one host event starts the engine for the new session with deadline `now + activeCountdown` and fires nothing |
| LeaveBackTheorems.IdleSubscriptionLeavesOnce | useUserLeaveAndBack.ts:88-112 | after any `subscribe` at `t0` with countdown `c`, timer firings alone give the new session `onTick` for each firing before `t0 + c`, `onUserLeave` once at the first firing at or after it, and nothing after |
| LeaveBackTheorems.RunConcat | useUserLeaveAndBack.ts:73-150 | running `a` then `b` is running `a + b` |
| LeaveBackTheorems.BackDispatchWithoutLeftSessionIsNoop | useUserLeaveAndBack.ts:98-100 | a back event changes nothing while no armed session is waiting for its return |
| LeaveBackTheorems.ActivityBeforeLeaveOnlyRefreshes | useUserLeaveAndBack.ts:11-23 | activity while no armed session has left only moves the deadline, and only when the throttle lets the refresh run and the engine's listeners are armed |
| LeaveBackTheorems.KeyDownBeforePress | useUserLeaveAndBack.ts:56-63 | after `subscribe` at 0 with countdown 2000 and ticks every 500, the firings at 500, 1000 and 1500 give three ticks and leave the deadline at 2000 (the full state) |
| LeaveBackTheorems.IdleLeavePhase | useUserLeaveAndBack.ts:56-63 | from there the firing at 2000 is the leave, which clears the engine, and the firing at 2500 changes nothing (full states) |
| LeaveBackTheorems.IdleScenario | useUserLeaveAndBack.ts:56-67 | countdown 2000, ticks every 500, no activity: three ticks and no leave up to 1500, `onUserLeave` at 2000, nothing at 2500 |
| LeaveBackTheorems.KeyDownPress | useUserLeaveAndBack.ts:11-16 | a key press at 1800 that the throttle lets through moves the deadline to 3800 and fires nothing (the full state) |
| LeaveBackTheorems.KeyDownTicksAfterPress | useUserLeaveAndBack.ts:56-63 | the firings at 2000, 2500, 3000 and 3500 are before the new deadline: each adds a tick and nothing else changes |
| LeaveBackTheorems.KeyDownAfterPress | useUserLeaveAndBack.ts:56-63 | the firing at 4000 is the leave, which clears the engine, and the firing at 4500 changes nothing (full states) |
| LeaveBackTheorems.KeyDownScenario | useUserLeaveAndBack.ts:11-63 | the whole key-press timeline: the press moves the deadline to 3800, the firings up to 3500 give seven ticks, the leave comes at 4000, and 4500 changes nothing |
| LeaveBackTheorems.ThrottledKeyDownScenario | useUserLeaveAndBack.ts:11-16 | the same key press dropped by the throttle: the one firing at 2000 is the leave |
| LeaveBackTheorems.HiddenPhase | useUserLeaveAndBack.ts:113-116 | hiding the page at 0 is the leave, at once, and clears the engine (the full state) |
| LeaveBackTheorems.VisiblePhase | useUserLeaveAndBack.ts:116-118 | showing the page at 100 is the return, and the session's `stop` tears it down and empties the slot (the full state) |
| LeaveBackTheorems.AfterBackPhase | useUserLeaveAndBack.ts:126-136 | after the teardown, activity at 200 and a firing at 500 change nothing |
| LeaveBackTheorems.HiddenThenVisibleScenario | useUserLeaveAndBack.ts:113-136 | hidden at 0 gives `onUserLeave`, visible at 100 gives `onUserBack` and tears the session down, and the later activity and firing change nothing |
| LeaveBackTheorems.SharedEngineSecondSubscribe | useUserLeaveAndBack.ts:107-112 | a second subscribe restarts the shared engine for the new session and takes over the slot |
| LeaveBackTheorems.SharedEngineOlderBackPhase | useUserLeaveAndBack.ts:126-136 | the older session's return stops the engine the newer session had started, and empties the slot |
| LeaveBackTheorems.SharedEngineQuietPhase | useUserLeaveAndBack.ts:146-148 | after that, the firing at 5000 and `stopSubscribe` at 6000 leave the state unchanged |
| LeaveBackTheorems.SharedEngineLastPhase | useUserLeaveAndBack.ts:113-116 | the hidden page at 7000 makes the newer session leave (the full state) |
| LeaveBackTheorems.SharedEngineScenario | useUserLeaveAndBack.ts:73-150 | the whole shared-engine timeline: after the return at 30 the engine is stopped and the slot empty, the firing and `stopSubscribe` change nothing, and only the hidden page brings `Leave(1)` |
| LeaveBackTheorems.BackDispatchStaysStopped | useUserLeaveAndBack.ts:126-136 | a back event keeps a stopped engine stopped and an empty slot empty |
| LeaveBackTheorems.BackDispatchStopsEngine | useUserLeaveAndBack.ts:98-105 | a back event that brings some session back leaves the engine stopped and the slot empty |
| LeaveBackTheorems.BackDispatchSparesActive | useUserLeaveAndBack.ts:98-100 | a back event leaves every session that has not left exactly as it was |
| LeaveBackTheorems.OlderBackStopsSharedEngine | useUserLeaveAndBack.ts:126-136 | when an older session comes back by activity, the shared engine is stopped and the slot emptied, while a session that has not left is untouched |
| LeaveBackTheorems.StoppedEngineIgnoresTimer | useUserLeaveAndBack.ts:56-67 | with the engine stopped and the slot empty, a timer firing and `stopSubscribe` change nothing |
| LeaveBackTheorems.SharedEngineOlderBack | useUserLeaveAndBack.ts:74-138 | after an older session comes back, a newer active session is reached by neither the timer nor `stopSubscribe`; only a hidden page still makes it leave |

## Left out

- React scheduling (`useRef`, `useState`, `useCallback` and ahooks `useInterval`) is not modelled. Refs and state are fields. A timer firing is an explicit host event that does something only while the interval is defined. A firing already scheduled when the interval changes is not modelled.
- ahooks `useThrottleFn` is not part of this model. Its 200 ms window and its leading and trailing edges are replaced by the Boolean `refresh` of each activity event, which says whether the throttle lets this call through. A refresh delivered later on the trailing edge is not modelled.
- DOM `addEventListener` and `removeEventListener` are not modelled. One armed flag per session stands for its five listeners, and one flag for the engine's four. The model receives one abstract activity event, not `mousemove`, `mousedown`, `keydown` and `scroll` separately, and `document.hidden` is the parameter `hidden`.
- The order in which the browser calls listeners is not modelled. The model takes the engine's refresh first, then the sessions in subscription order.
- `Date.now()` is the parameter `now`. One event reads one instant, although the source may read the clock several times within one callback.
- Countdown.Engine.Tick: the source runs the timeout callback before it clears the engine. The model clears first and hands the callback to its owner. In the monitor the callback is `onLeave`, which clears the engine again at the same instant, so the resulting state is the same.
- The host callbacks `onTick`, `onUserLeave` and `onUserBack` are recorded as trace events. What they do themselves, including calling back into the monitor, is not modelled.
- `countdown` and `tickInterval` are not validated, as in the source. Zero or negative values are allowed, and what a browser timer does with them is not modelled.
- The 500 ms tick instants in the timelines are inputs. The model does not derive them from a real timer.

