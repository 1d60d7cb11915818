/** The event loop: timing state, the two update handlers and the tick that
    runs the variable-rate update once, drains the accumulator in whole
    fixed steps, sleeps, and pumps every registered window. */
module Application {
  import opened Effects
  import Windowing

  /** The only names `App.event` accepts, each with the number of
      parameters of its dispatcher (`on_update(dt)`, `on_fix_update(fdt)`). */
  const UpdateEvents: map<string, nat> := map["on_update" := 1, "on_fix_update" := 1]

  /** The checks of `App.event`, in order: an allowed name, not registered
      yet, and the dispatcher's parameter count. */
  function Validate(handlers: map<string, Handler>, func: Handler): (r: Option<RegistrationError>)
    ensures r.None? <==>
      (func.name == "on_update" || func.name == "on_fix_update") && func.name !in handlers && func.arity == 1
    ensures func.name != "on_update" && func.name != "on_fix_update" ==> r == Some(NotAllowed(func.name))
    ensures func.name in UpdateEvents && func.name in handlers ==> r == Some(AlreadyRegistered(func.name))
    ensures func.name in UpdateEvents && func.name !in handlers && func.arity != 1 ==>
      r == Some(ArityMismatch(func.name, 1, func.arity))
  {
    if func.name !in UpdateEvents then Some(NotAllowed(func.name))
    else if func.name in handlers then Some(AlreadyRegistered(func.name))
    else if func.arity != UpdateEvents[func.name] then Some(ArityMismatch(func.name, UpdateEvents[func.name], func.arity))
    else None
  }

  /** The invariant of the update-handler table: each handler is stored under
      its own name, an update event, and takes one parameter. */
  ghost predicate UpdateHandlersWellFormed(handlers: map<string, Handler>)
  {
    forall n :: n in handlers ==> handlers[n].name == n && n in UpdateEvents && handlers[n].arity == 1
  }

  /** The dispatcher `on_update(dt)`. */
  function OnUpdate(handlers: map<string, Handler>, dt: real): (r: seq<Effect>)
    ensures |r| == if "on_update" in handlers then 1 else 0
    ensures forall i :: 0 <= i < |r| ==> r[i] == Invoke(handlers["on_update"], [RealV(dt)])
  {
    if "on_update" in handlers then [Invoke(handlers["on_update"], [RealV(dt)])] else []
  }

  /** The dispatcher `on_fix_update(fdt)`: whatever `fdt` is, the handler
      receives the nominal interval. */
  function OnFixUpdate(handlers: map<string, Handler>, interval: real, fdt: real): (r: seq<Effect>)
    ensures |r| == if "on_fix_update" in handlers then 1 else 0
    ensures forall i :: 0 <= i < |r| ==> r[i] == Invoke(handlers["on_fix_update"], [RealV(interval)])
  {
    if "on_fix_update" in handlers then [Invoke(handlers["on_fix_update"], [RealV(interval)])] else []
  }

  /** The handler calls of `steps` fixed steps. */
  function FixedCalls(handlers: map<string, Handler>, interval: real, steps: nat): (r: seq<Effect>)
    ensures |r| == if "on_fix_update" in handlers then steps else 0
    ensures forall i :: 0 <= i < |r| ==> r[i] == Invoke(handlers["on_fix_update"], [RealV(interval)])
  {
    if steps == 0 then []
    else FixedCalls(handlers, interval, steps - 1) + OnFixUpdate(handlers, interval, interval)
  }

  /** The handler calls of one tick, before the sleep. */
  function TickCalls(handlers: map<string, Handler>, dt: real, interval: real, steps: nat): seq<Effect>
  {
    OnUpdate(handlers, dt) + FixedCalls(handlers, interval, steps)
  }

  /** The variable-rate handler runs once, with `dt`, and first; everything
      after it is a fixed-rate call with the nominal interval. */
  lemma TickCallOrder(handlers: map<string, Handler>, dt: real, interval: real, steps: nat)
    requires UpdateHandlersWellFormed(handlers)
    ensures var calls, first := TickCalls(handlers, dt, interval, steps), if "on_update" in handlers then 1 else 0;
      && |calls| == first + (if "on_fix_update" in handlers then steps else 0)
      && ("on_update" in handlers ==> calls[0] == Invoke(handlers["on_update"], [RealV(dt)]))
      && (forall i :: first <= i < |calls| ==>
            calls[i] == Invoke(handlers["on_fix_update"], [RealV(interval)])
            && ("on_update" in handlers ==> calls[i].handler != handlers["on_update"]))
  {
    var calls, first := TickCalls(handlers, dt, interval, steps), if "on_update" in handlers then 1 else 0;
    var fixed := FixedCalls(handlers, interval, steps);
    forall i | first <= i < |calls|
      ensures calls[i] == Invoke(handlers["on_fix_update"], [RealV(interval)])
      ensures "on_update" in handlers ==> calls[i].handler != handlers["on_update"]
    {
      assert calls[i] == fixed[i - first];
    }
  }

  /** The drain loop terminates: a positive interval, or nothing to drain. */
  predicate DrainTerminates(total: real, interval: real)
  {
    interval > 0.0 || total < interval
  }

  lemma ProductSign(z: real, interval: real)
    requires interval > 0.0
    ensures z > 0.0 ==> z * interval > 0.0
    ensures z < 0.0 ==> z * interval < 0.0
    ensures z == 0.0 ==> z * interval == 0.0
  {
  }

  /** Scaling by a positive interval keeps the order of two reals. */
  lemma ScaledOrder(a: real, b: real, interval: real)
    requires interval > 0.0 && a <= b
    ensures a * interval <= b * interval
    ensures a < b ==> a * interval < b * interval
  {
    ProductSign(b - a, interval);
    assert (b - a) * interval == b * interval - a * interval;
  }

  /** A total between `k` and `k + 1` intervals has a quotient between `k`
      and `k + 1`. */
  lemma QuotientBracket(total: real, interval: real, k: real)
    requires interval > 0.0 && k * interval <= total < k * interval + interval
    ensures k <= total / interval < k + 1.0
  {
    var q := total / interval;
    assert q * interval == total;
    assert (k + 1.0) * interval == k * interval + interval;
    if q < k {
      ScaledOrder(q, k, interval);
      assert false;
    }
    if q >= k + 1.0 {
      ScaledOrder(k + 1.0, q, interval);
      assert false;
    }
  }

  /** Removing one interval removes exactly one from the quotient. */
  lemma QuotientStep(total: real, interval: real)
    requires interval > 0.0
    ensures (total - interval) / interval == total / interval - 1.0
    ensures total >= interval ==> total / interval >= 1.0
  {
    var q, p := total / interval, (total - interval) / interval;
    assert q * interval == total && p * interval == total - interval;
    assert (p - q + 1.0) * interval == 0.0;
    ProductSign(p - q + 1.0, interval);
    ProductSign(q - 1.0, interval);
  }

  /** The drain loop on its own: how many whole intervals it removes from
      `total`, and what it leaves in the accumulator. */
  function Drain(total: real, interval: real): (d: (nat, real))
    requires DrainTerminates(total, interval)
    ensures d.1 == total - d.0 as real * interval
    ensures d.1 < interval
    ensures total >= 0.0 ==> d.1 >= 0.0
    ensures total < interval ==> d == (0, total)
    decreases if interval > 0.0 && total >= interval then total / interval else 0.0
  {
    if total < interval then (0, total)
    else
      QuotientStep(total, interval);
      var d := Drain(total - interval, interval);
      (d.0 + 1, d.1)
  }

  /** With a positive interval and nothing negative to drain, the number of
      fixed steps is the whole number of intervals in `total`. */
  lemma DrainSteps(total: real, interval: real)
    requires interval > 0.0 && total >= 0.0
    ensures Drain(total, interval).0 == (total / interval).Floor
  {
    var k := Drain(total, interval).0 as real;
    QuotientBracket(total, interval, k);
  }

  /** A fixed interval of 0.02 and one tick of 0.05 from an empty
      accumulator: two fixed steps, 0.01 left over. */
  lemma DrainExample()
    ensures Drain(0.05, 0.02) == (2, 0.01)
  {
    assert Drain(0.01, 0.02) == (0, 0.01);
    assert Drain(0.03, 0.02) == (1, 0.01);
  }

  /** Frames one after another. */
  function Concat(frames: seq<seq<Effect>>): seq<Effect>
  {
    if frames == [] then [] else Concat(frames[..|frames| - 1]) + frames[|frames| - 1]
  }

  /** A frame in front of the others comes first in the concatenation. */
  lemma {:induction false} ConcatPrepend(frame: seq<Effect>, frames: seq<seq<Effect>>)
    ensures Concat([frame] + frames) == frame + Concat(frames)
    decreases |frames|
  {
    if frames != [] {
      var last := |frames| - 1;
      assert ([frame] + frames)[..last + 1] == [frame] + frames[..last];
      ConcatPrepend(frame, frames[..last]);
    }
  }

  /** Every registered window has a native window. */
  ghost predicate AllOpen(registry: Windowing.Registry)
    reads registry, registry.instances
  {
    forall k :: 0 <= k < |registry.instances| ==> registry.instances[k].handle.Some?
  }

  /** `frames` is what the window pump yields for `registry`: the frame of
      each window of a prefix of the registry, in order, ending at the first
      window without a native window or at the end of the registry. */
  ghost predicate Pumped(registry: Windowing.Registry, frames: seq<seq<Effect>>)
    reads registry, registry.instances
  {
    && |frames| <= |registry.instances|
    && (forall k :: 0 <= k < |frames| ==> registry.instances[k].Update() == Ok(frames[k]))
    && (|frames| == |registry.instances| || registry.instances[|frames|].handle.None?)
  }

  /** Every registry has a pump: the frames of its windows up to the first
      one without a native window. */
  lemma PumpDefined(registry: Windowing.Registry) returns (frames: seq<seq<Effect>>)
    ensures Pumped(registry, frames)
  {
    var windows := registry.instances;
    frames := [];
    while |frames| < |windows| && windows[|frames|].handle.Some?
      invariant |frames| <= |windows|
      invariant forall k :: 0 <= k < |frames| ==> windows[k].Update() == Ok(frames[k])
    {
      frames := frames + [windows[|frames|].Update().value];
    }
  }

  /** The pump of a registry yields one sequence of frames only. */
  lemma PumpedUnique(registry: Windowing.Registry, frames: seq<seq<Effect>>, others: seq<seq<Effect>>)
    requires Pumped(registry, frames) && Pumped(registry, others)
    ensures frames == others
  {
    forall k | 0 <= k < |frames|
      ensures frames[k] == others[k]
    {
      assert registry.instances[k].Update() == Ok(frames[k]);
    }
  }

  /** The window pump at the end of a tick: `update()` on every registered
      window in registration order. It stops at the first window that has no
      native window, as the exception raised there ends the tick. */
  method Pump(registry: Windowing.Registry) returns (frames: seq<seq<Effect>>, updated: seq<Windowing.Window>, done: bool)
    ensures updated <= registry.instances
    ensures done <==> updated == registry.instances
    ensures !done ==> registry.instances[|updated|].handle.None?
    ensures |frames| == |updated|
    ensures forall k :: 0 <= k < |updated| ==> updated[k].Update() == Ok(frames[k])
    ensures done <==> AllOpen(registry)
  {
    var windows := registry.instances;
    frames := [];
    var i := 0;
    while i < |windows| && windows[i].handle.Some?
      invariant 0 <= i <= |windows|
      invariant |frames| == i
      invariant forall k :: 0 <= k < i ==> windows[k].Update() == Ok(frames[k])
    {
      var frame := windows[i].Update();
      frames, i := frames + [frame.value], i + 1;
    }
    updated, done := windows[..i], i == |windows|;
  }

  /** Why a tick stops before it has pumped every window. */
  datatype TickError =
    | ZeroDivision      // `1/fps` with `fps == 0`
    | NegativeSleep     // `time.sleep` of a negative length
    | WindowUnavailable // a registered window has no native window

  /** How a bounded run of the loop ends. */
  datatype RunOutcome =
    | NotRunning        // `running` was false: the loop never starts
    | ClockExhausted    // every clock reading was used for a tick
    | Raised(error: TickError)
    | Hangs             // the next tick's drain loop would never end

  /** The clock readings `clock` never go back in time from `start`. */
  ghost predicate Ascending(start: real, clock: seq<real>)
  {
    && (forall i :: 0 <= i < |clock| ==> start <= clock[i])
    && (forall i, j :: 0 <= i < j < |clock| ==> clock[i] <= clock[j])
  }

  /** What one tick of a run sees and leaves: the elapsed time, the fixed
      steps it takes and the accumulator after them. */
  datatype TickRecord = TickRecord(dt: real, steps: nat, acc: real)

  /** The tick that the clock reading `now` makes from the clock reading
      `time` and the accumulator `acc`. */
  function NextTick(time: real, acc: real, interval: real, now: real): TickRecord
    requires DrainTerminates(acc + (now - time), interval)
  {
    var d := Drain(acc + (now - time), interval);
    TickRecord(now - time, d.0, d.1)
  }

  /** The ticks a run makes over the clock readings `clock`, from the clock
      reading `time` and the accumulator `acc`. The schedule ends before the
      first tick whose drain loop would never end. */
  function Schedule(time: real, acc: real, interval: real, clock: seq<real>): (r: seq<TickRecord>)
    ensures |r| <= |clock|
    ensures interval > 0.0 ==> |r| == |clock|
    ensures forall t :: 0 <= t < |r| ==> r[t].acc < interval
    decreases |clock|
  {
    if clock == [] then []
    else if !DrainTerminates(acc + (clock[0] - time), interval) then []
    else
      var tick := NextTick(time, acc, interval, clock[0]);
      [tick] + Schedule(clock[0], tick.acc, interval, clock[1..])
  }

  /** One tick of a schedule, entered with the accumulator `prev`: a
      non-negative elapsed time, `floor((prev + dt) / interval)` fixed steps
      and an accumulator in `[0, interval)` afterwards. */
  ghost predicate TickFits(prev: real, tick: TickRecord, interval: real)
    requires interval > 0.0
  {
    && 0.0 <= tick.dt
    && tick.steps == ((prev + tick.dt) / interval).Floor
    && 0.0 <= tick.acc < interval
  }

  /** The accumulator a schedule's tick `t` starts from. */
  function AccBefore(acc: real, r: seq<TickRecord>, t: nat): real
    requires t <= |r|
  {
    if t == 0 then acc else r[t - 1].acc
  }

  /** A clock that never goes back from `start` never goes back from its
      first reading either. */
  lemma AscendingTail(start: real, clock: seq<real>)
    requires clock != [] && Ascending(start, clock)
    ensures start <= clock[0] && Ascending(clock[0], clock[1..])
  {
    forall i | 0 <= i < |clock[1..]|
      ensures clock[0] <= clock[1..][i]
    {
      assert clock[1..][i] == clock[i + 1];
    }
  }

  /** The first tick of a schedule fits. */
  lemma ScheduleHead(time: real, acc: real, interval: real, clock: seq<real>)
    requires interval > 0.0 && 0.0 <= acc && clock != [] && time <= clock[0]
    ensures var r := Schedule(time, acc, interval, clock);
      && r == [r[0]] + Schedule(clock[0], r[0].acc, interval, clock[1..])
      && TickFits(acc, r[0], interval)
  {
    DrainSteps(acc + (clock[0] - time), interval);
  }

  /** With a positive interval, an accumulator of at least 0 and a clock that
      never goes back, every tick sees a non-negative elapsed time, takes
      `floor((acc + dt) / interval)` fixed steps and leaves the accumulator
      in `[0, interval)`. */
  lemma {:induction false} ScheduleBounded(time: real, acc: real, interval: real, clock: seq<real>)
    requires interval > 0.0 && 0.0 <= acc && Ascending(time, clock)
    ensures var r := Schedule(time, acc, interval, clock);
      forall t :: 0 <= t < |r| ==> TickFits(AccBefore(acc, r, t), r[t], interval)
    decreases |clock|
  {
    if clock != [] {
      AscendingTail(time, clock);
      ScheduleHead(time, acc, interval, clock);
      var r := Schedule(time, acc, interval, clock);
      var rest := Schedule(clock[0], r[0].acc, interval, clock[1..]);
      ScheduleBounded(clock[0], r[0].acc, interval, clock[1..]);
      forall t | 1 <= t < |r|
        ensures TickFits(AccBefore(acc, r, t), r[t], interval)
      {
        assert r[t] == rest[t - 1];
        assert AccBefore(acc, r, t) == AccBefore(r[0].acc, rest, t - 1);
      }
    }
  }

  /** The effects of one tick in a run, given the frames its pump produces. */
  function TickEffects(handlers: map<string, Handler>, interval: real, fps: real, tick: TickRecord,
                       frames: seq<seq<Effect>>): seq<Effect>
  {
    TickCalls(handlers, tick.dt, interval, tick.steps) + (if fps > 0.0 then [Sleep(1.0 / fps)] else []) + Concat(frames)
  }

  /** What a run of the loop leaves: its effects, the number of ticks it
      made, how it ended, and the final clock reading and accumulator. */
  datatype RunRecord = RunRecord(effects: seq<Effect>, ticks: nat, outcome: RunOutcome, time: real, acc: real)

  /** A run that starts with `ticks` ticks whose effects are `effects` and
      goes on as `rest`. */
  function Extend(effects: seq<Effect>, ticks: nat, rest: RunRecord): RunRecord
  {
    RunRecord(effects + rest.effects, ticks + rest.ticks, rest.outcome, rest.time, rest.acc)
  }

  lemma ExtendTwice(effects: seq<Effect>, ticks: nat, tick: seq<Effect>, rest: RunRecord)
    ensures Extend(effects, ticks, Extend(tick, 1, rest)) == Extend(effects + tick, ticks + 1, rest)
  {
    assert effects + (tick + rest.effects) == (effects + tick) + rest.effects;
  }

  /** The loop while `running`, over the clock readings `clock`, from the
      clock reading `time` and the accumulator `acc`. Every tick pumps the
      same windows, yielding `frames`; `allOpen` says whether every
      registered window has a native window. A tick that raises ends the
      run, and so does a tick whose drain loop would never end, before it
      starts. */
  function RunFrom(handlers: map<string, Handler>, interval: real, fps: real, frames: seq<seq<Effect>>,
                   allOpen: bool, time: real, acc: real, clock: seq<real>): (r: RunRecord)
    decreases |clock|
  {
    if clock == [] then RunRecord([], 0, ClockExhausted, time, acc)
    else if !DrainTerminates(acc + (clock[0] - time), interval) then RunRecord([], 0, Hangs, time, acc)
    else
      var tick := NextTick(time, acc, interval, clock[0]);
      var effects := TickEffects(handlers, interval, fps, tick, frames);
      if fps == 0.0 then RunRecord(effects, 1, Raised(ZeroDivision), clock[0], tick.acc)
      else if fps < 0.0 then RunRecord(effects, 1, Raised(NegativeSleep), clock[0], tick.acc)
      else if !allOpen then RunRecord(effects, 1, Raised(WindowUnavailable), clock[0], tick.acc)
      else Extend(effects, 1, RunFrom(handlers, interval, fps, frames, allOpen, clock[0], tick.acc, clock[1..]))
  }
  /** How a run ends: it raises exactly when it makes a tick and ticks fail,
      with the error of the first failing step of `App.update`, and then
      after that one tick; it uses up the clock when it ends normally; it
      ends at the clock reading of its last tick. */
  lemma {:induction false} RunEnds(handlers: map<string, Handler>, interval: real, fps: real,
                                   frames: seq<seq<Effect>>, allOpen: bool, time: real, acc: real, clock: seq<real>)
    ensures var r := RunFrom(handlers, interval, fps, frames, allOpen, time, acc, clock);
      && r.ticks <= |clock| && r.outcome != NotRunning
      && (r.outcome.Raised? <==> 0 < r.ticks && (fps <= 0.0 || !allOpen))
      && (r.outcome.Raised? ==>
            r.ticks == 1
            && r.outcome.error == (if fps == 0.0 then ZeroDivision else if fps < 0.0 then NegativeSleep else WindowUnavailable))
      && (r.outcome == ClockExhausted ==> r.ticks == |clock|)
      && (r.ticks == 0 ==> r.effects == [] && r.time == time && r.acc == acc)
      && (0 < r.ticks ==> r.time == clock[r.ticks - 1])
    decreases |clock|
  {
    if clock != [] && DrainTerminates(acc + (clock[0] - time), interval) && fps > 0.0 && allOpen {
      var tick := NextTick(time, acc, interval, clock[0]);
      RunEnds(handlers, interval, fps, frames, allOpen, clock[0], tick.acc, clock[1..]);
    }
  }


  /** The effects of the ticks `ticks`, one sequence per tick. */
  function TickTraces(handlers: map<string, Handler>, interval: real, fps: real, ticks: seq<TickRecord>,
                      frames: seq<seq<Effect>>): (r: seq<seq<Effect>>)
    ensures |r| == |ticks|
    ensures forall t :: 0 <= t < |ticks| ==> r[t] == TickEffects(handlers, interval, fps, ticks[t], frames)
  {
    if ticks == [] then []
    else [TickEffects(handlers, interval, fps, ticks[0], frames)] + TickTraces(handlers, interval, fps, ticks[1..], frames)
  }

  /** A run `r` follows the schedule `s` of a clock with `clockLength`
      readings: it makes the scheduled ticks, only the first when ticks fail,
      and its effects are those of these ticks, one after another. It raises
      exactly when a tick is made and fails, hangs when the schedule stops
      short of the clock, and otherwise uses up the clock. */
  ghost predicate FollowsSchedule(r: RunRecord, s: seq<TickRecord>, clockLength: nat, handlers: map<string, Handler>,
                                  interval: real, fps: real, frames: seq<seq<Effect>>, allOpen: bool)
  {
    && r.ticks == (if 0 < |s| && (fps <= 0.0 || !allOpen) then 1 else |s|)
    && r.ticks <= |s|
    && r.effects == Concat(TickTraces(handlers, interval, fps, s[..r.ticks], frames))
    && (0 < r.ticks ==> r.acc == s[r.ticks - 1].acc)
    && r.outcome == (if 0 < |s| && fps == 0.0 then Raised(ZeroDivision)
                     else if 0 < |s| && fps < 0.0 then Raised(NegativeSleep)
                     else if 0 < |s| && !allOpen then Raised(WindowUnavailable)
                     else if |s| < clockLength then Hangs
                     else ClockExhausted)
  }

  /** A run whose first tick fails follows the schedule. */
  lemma RunFailsFirst(handlers: map<string, Handler>, interval: real, fps: real, frames: seq<seq<Effect>>,
                      allOpen: bool, time: real, acc: real, clock: seq<real>)
    requires clock != [] && DrainTerminates(acc + (clock[0] - time), interval) && (fps <= 0.0 || !allOpen)
    ensures FollowsSchedule(RunFrom(handlers, interval, fps, frames, allOpen, time, acc, clock),
                            Schedule(time, acc, interval, clock), |clock|, handlers, interval, fps, frames, allOpen)
  {
    var s := Schedule(time, acc, interval, clock);
    var first := TickEffects(handlers, interval, fps, s[0], frames);
    assert TickTraces(handlers, interval, fps, s[..1], frames) == [first];
    assert Concat([first]) == Concat([]) + first;
  }

  /** A successful first tick followed by a run that follows the rest of
      the schedule is a run that follows the whole schedule. */
  lemma RunStep(handlers: map<string, Handler>, interval: real, fps: real, frames: seq<seq<Effect>>,
                allOpen: bool, time: real, acc: real, clock: seq<real>)
    requires clock != [] && DrainTerminates(acc + (clock[0] - time), interval) && fps > 0.0 && allOpen
    requires var tick := NextTick(time, acc, interval, clock[0]);
      FollowsSchedule(RunFrom(handlers, interval, fps, frames, allOpen, clock[0], tick.acc, clock[1..]),
                      Schedule(clock[0], tick.acc, interval, clock[1..]), |clock| - 1,
                      handlers, interval, fps, frames, allOpen)
    ensures FollowsSchedule(RunFrom(handlers, interval, fps, frames, allOpen, time, acc, clock),
                            Schedule(time, acc, interval, clock), |clock|, handlers, interval, fps, frames, allOpen)
  {
    var tick := NextTick(time, acc, interval, clock[0]);
    var s, rest := Schedule(time, acc, interval, clock), Schedule(clock[0], tick.acc, interval, clock[1..]);
    var r := RunFrom(handlers, interval, fps, frames, allOpen, clock[0], tick.acc, clock[1..]);
    var first := TickEffects(handlers, interval, fps, tick, frames);
    assert s == [tick] + rest;
    assert s[..|s|] == s && rest[..|rest|] == rest && s[1..] == rest;
    ConcatPrepend(first, TickTraces(handlers, interval, fps, rest, frames));
    if 0 < r.ticks {
      assert s[|s| - 1] == rest[|rest| - 1];
    } else {
      assert s[0] == tick;
    }
  }

  /** Every run follows its schedule. */
  lemma {:induction false} RunFollowsSchedule(handlers: map<string, Handler>, interval: real, fps: real,
                                              frames: seq<seq<Effect>>, allOpen: bool, time: real, acc: real,
                                              clock: seq<real>)
    ensures FollowsSchedule(RunFrom(handlers, interval, fps, frames, allOpen, time, acc, clock),
                            Schedule(time, acc, interval, clock), |clock|, handlers, interval, fps, frames, allOpen)
    decreases |clock|
  {
    if clock != [] && DrainTerminates(acc + (clock[0] - time), interval) {
      if fps <= 0.0 || !allOpen {
        RunFailsFirst(handlers, interval, fps, frames, allOpen, time, acc, clock);
      } else {
        var tick := NextTick(time, acc, interval, clock[0]);
        RunFollowsSchedule(handlers, interval, fps, frames, allOpen, clock[0], tick.acc, clock[1..]);
        RunStep(handlers, interval, fps, frames, allOpen, time, acc, clock);
      }
    }
  }

  /** With a positive interval, a clock that never goes back and an
      accumulator in `[0, interval)`, a run leaves the accumulator in
      `[0, interval)`. */
  lemma RunKeepsAccumulatorBound(handlers: map<string, Handler>, interval: real, fps: real,
                                 frames: seq<seq<Effect>>, allOpen: bool, time: real, acc: real, clock: seq<real>)
    requires interval > 0.0 && 0.0 <= acc < interval && Ascending(time, clock)
    ensures var r := RunFrom(handlers, interval, fps, frames, allOpen, time, acc, clock);
      0.0 <= r.acc < interval
  {
    var r := RunFrom(handlers, interval, fps, frames, allOpen, time, acc, clock);
    RunFollowsSchedule(handlers, interval, fps, frames, allOpen, time, acc, clock);
    ScheduleBounded(time, acc, interval, clock);
    if 0 < r.ticks {
      assert TickFits(AccBefore(acc, Schedule(time, acc, interval, clock), r.ticks - 1),
                      Schedule(time, acc, interval, clock)[r.ticks - 1], interval);
    }
  }

  class App {
    var running: bool
    var fixUpdateInterval: real
    var fps: real
    var currentTime: real
    var accumulator: real
    var updateHandlers: map<string, Handler>

    ghost predicate Valid()
      reads this
    {
      UpdateHandlersWellFormed(updateHandlers)
    }

    /** `now` is the clock reading at construction. */
    constructor (fixUpdateInterval: real, fps: real, now: real)
      ensures Valid() && running
      ensures this.fixUpdateInterval == fixUpdateInterval && this.fps == fps
      ensures currentTime == now && accumulator == 0.0 && updateHandlers == map[]
    {
      running := true;
      this.fixUpdateInterval, this.fps := fixUpdateInterval, fps;
      currentTime, accumulator := now, 0.0;
      updateHandlers := map[];
    }

    /** `App.params`: an absent argument keeps the current value. */
    method Params(fixUpdateInterval: Option<real>, fps: Option<real>)
      modifies this`fixUpdateInterval, this`fps
      ensures this.fixUpdateInterval == if fixUpdateInterval.Some? then fixUpdateInterval.value else old(this.fixUpdateInterval)
      ensures this.fps == if fps.Some? then fps.value else old(this.fps)
    {
      if fixUpdateInterval.Some? {
        this.fixUpdateInterval := fixUpdateInterval.value;
      }
      if fps.Some? {
        this.fps := fps.value;
      }
    }

    /** `App.event`: validate, then insert under the handler's name. On
        success the handler itself is returned. */
    method Event(func: Handler) returns (r: Result<Handler, RegistrationError>, effects: seq<Effect>)
      requires Valid()
      modifies this`updateHandlers
      ensures Valid()
      ensures r.Ok? <==> Validate(old(updateHandlers), func).None?
      ensures r.Ok? ==> r.value == func && updateHandlers == old(updateHandlers)[func.name := func]
      ensures r.Ok? ==> effects == [Log(func.name + " registered")]
      ensures r.Err? ==> Validate(old(updateHandlers), func) == Some(r.error)
      ensures r.Err? ==> updateHandlers == old(updateHandlers) && effects == []
    {
      var failure := Validate(updateHandlers, func);
      if failure.Some? {
        return Err(failure.value), [];
      }
      effects := [Log(func.name + " registered")];
      updateHandlers := updateHandlers[func.name := func];
      r := Ok(func);
    }

    /** The drain loop of `App.update`: one fixed step per whole interval
        in the accumulator. */
    method DrainAccumulator() returns (calls: seq<Effect>, steps: nat)
      requires DrainTerminates(accumulator, fixUpdateInterval)
      modifies this`accumulator
      ensures (steps, accumulator) == Drain(old(accumulator), fixUpdateInterval)
      ensures calls == FixedCalls(updateHandlers, fixUpdateInterval, steps)
    {
      ghost var total := accumulator;
      calls, steps := [], 0;
      while accumulator >= fixUpdateInterval
        invariant DrainTerminates(accumulator, fixUpdateInterval)
        invariant steps + Drain(accumulator, fixUpdateInterval).0 == Drain(total, fixUpdateInterval).0
        invariant Drain(accumulator, fixUpdateInterval).1 == Drain(total, fixUpdateInterval).1
        invariant calls == FixedCalls(updateHandlers, fixUpdateInterval, steps)
        decreases Drain(accumulator, fixUpdateInterval).0
      {
        accumulator := accumulator - fixUpdateInterval;
        calls := calls + OnFixUpdate(updateHandlers, fixUpdateInterval, fixUpdateInterval);
        steps := steps + 1;
      }
    }

    /** `App.update` with the clock reading `now`. `steps` is the number of
        fixed steps taken and `updated` the windows pumped, in order. */
    method Update(now: real, registry: Windowing.Registry)
      returns (effects: seq<Effect>, steps: nat, updated: seq<Windowing.Window>, frames: seq<seq<Effect>>,
               failure: Option<TickError>)
      requires DrainTerminates(accumulator + (now - currentTime), fixUpdateInterval)
      modifies this`currentTime, this`accumulator
      ensures currentTime == now
      ensures var total := old(accumulator) + (now - old(currentTime));
        (steps, accumulator) == Drain(total, fixUpdateInterval)
      ensures var total := old(accumulator) + (now - old(currentTime));
        fixUpdateInterval > 0.0 && total >= 0.0 ==> 0.0 <= accumulator < fixUpdateInterval
      ensures failure == (if fps == 0.0 then Some(ZeroDivision) else if fps < 0.0 then Some(NegativeSleep)
                          else if updated == registry.instances then None else Some(WindowUnavailable))
      ensures updated <= registry.instances
      ensures failure == Some(WindowUnavailable) ==> registry.instances[|updated|].handle.None?
      ensures fps <= 0.0 ==> updated == []
      ensures |frames| == |updated| && forall k :: 0 <= k < |updated| ==> updated[k].Update() == Ok(frames[k])
      ensures failure.None? <==> fps > 0.0 && AllOpen(registry)
      ensures effects == TickEffects(updateHandlers, fixUpdateInterval, fps,
                                     TickRecord(now - old(currentTime), steps, accumulator), frames)
    {
      var dt := now - currentTime;
      currentTime := now;
      accumulator := accumulator + dt;
      effects := OnUpdate(updateHandlers, dt);
      var fixed;
      fixed, steps := DrainAccumulator();
      effects := effects + fixed;
      updated, frames := [], [];
      if fps == 0.0 {
        return effects, steps, updated, frames, Some(ZeroDivision);
      }
      if 1.0 / fps < 0.0 {
        return effects, steps, updated, frames, Some(NegativeSleep);
      }
      effects := effects + [Sleep(1.0 / fps)];
      var done;
      frames, updated, done := Pump(registry);
      effects := effects + Concat(frames);
      failure := if done then None else Some(WindowUnavailable);
    }

    /** One tick of `App.run`, made from the clock reading `clock[ticks]`:
        `App.update`, seen as the first step of the rest of the run. `pumped`
        are the frames of the window pump, none when `fps` makes every tick
        fail before the pump. */
    method RunTick(clock: seq<real>, ticks: nat, registry: Windowing.Registry, ghost open: bool, ghost pumped: seq<seq<Effect>>)
      returns (tick: seq<Effect>, failure: Option<TickError>)
      requires ticks < |clock| && DrainTerminates(accumulator + (clock[ticks] - currentTime), fixUpdateInterval)
      requires open == AllOpen(registry)
      requires fps > 0.0 ==> Pumped(registry, pumped)
      requires fps <= 0.0 ==> pumped == []
      modifies this`currentTime, this`accumulator
      ensures failure.None? <==> fps > 0.0 && open
      ensures var run := RunFrom(updateHandlers, fixUpdateInterval, fps, pumped, open,
                                 old(currentTime), old(accumulator), clock[ticks..]);
        run == Extend(tick, 1, if failure.Some? then RunRecord([], 0, Raised(failure.value), currentTime, accumulator)
                               else RunFrom(updateHandlers, fixUpdateInterval, fps, pumped, open,
                                            currentTime, accumulator, clock[ticks + 1..]))
    {
      ghost var rest := clock[ticks..];
      assert rest[0] == clock[ticks] && rest[1..] == clock[ticks + 1..];
      var steps, updated, frames;
      tick, steps, updated, frames, failure := Update(clock[ticks], registry);
      if fps > 0.0 {
        PumpedUnique(registry, frames, pumped);
      }
      assert tick + [] == tick;
    }

    /** `App.run`: ticks while `running`, one tick per reading of `clock`.
        Nothing in the application clears `running`, so the loop ends only
        when a tick raises, when the readings run out, or never (a drain
        loop that cannot end). `pumped` are the frames the window pump
        yields, the same in every tick since no tick changes a window. */
    method Run(clock: seq<real>, registry: Windowing.Registry)
      returns (effects: seq<Effect>, ticks: nat, outcome: RunOutcome, ghost pumped: seq<seq<Effect>>)
      modifies this`currentTime, this`accumulator
      ensures fps > 0.0 ==> old(Pumped(registry, pumped))
      ensures fps <= 0.0 ==> pumped == []
      ensures !running ==> outcome == NotRunning && ticks == 0 && effects == []
                           && currentTime == old(currentTime) && accumulator == old(accumulator)
      ensures running ==>
        RunRecord(effects, ticks, outcome, currentTime, accumulator)
          == RunFrom(updateHandlers, fixUpdateInterval, fps, pumped, old(AllOpen(registry)), old(currentTime), old(accumulator), clock)
    {
      pumped := [];
      if fps > 0.0 {
        pumped := PumpDefined(registry);
      }
      if !running {
        return [], 0, NotRunning, pumped;
      }
      effects, ticks, outcome := RunLoop(clock, registry, pumped);
    }

    /** The loop of `App.run` once `running` holds. */
    method RunLoop(clock: seq<real>, registry: Windowing.Registry, ghost pumped: seq<seq<Effect>>)
      returns (effects: seq<Effect>, ticks: nat, outcome: RunOutcome)
      requires fps > 0.0 ==> Pumped(registry, pumped)
      requires fps <= 0.0 ==> pumped == []
      modifies this`currentTime, this`accumulator
      ensures RunRecord(effects, ticks, outcome, currentTime, accumulator)
          == RunFrom(updateHandlers, fixUpdateInterval, fps, pumped, old(AllOpen(registry)), old(currentTime), old(accumulator), clock)
    {
      ghost var open, handlers, interval, rate, time, acc := AllOpen(registry), updateHandlers, fixUpdateInterval, fps, currentTime, accumulator;
      ghost var rest := RunFrom(handlers, interval, rate, pumped, open, time, acc, clock);
      assert clock[0..] == clock;
      assert rest.effects == [] + rest.effects;
      effects, ticks, outcome := [], 0, ClockExhausted;
      while ticks < |clock| && outcome == ClockExhausted
        invariant ticks <= |clock|
        invariant RunFrom(handlers, interval, rate, pumped, open, time, acc, clock) == Extend(effects, ticks, rest)
        invariant rest == if outcome == ClockExhausted
                          then RunFrom(handlers, interval, rate, pumped, open, currentTime, accumulator, clock[ticks..])
                          else RunRecord([], 0, outcome, currentTime, accumulator)
        invariant open == AllOpen(registry)
        decreases |clock| - ticks, if outcome == ClockExhausted then 1 else 0
      {
        if !DrainTerminates(accumulator + (clock[ticks] - currentTime), fixUpdateInterval) {
          ghost var remaining := clock[ticks..];
          assert remaining[0] == clock[ticks];
          outcome := Hangs;
        } else {
          var tick, failure := RunTick(clock, ticks, registry, open, pumped);
          ghost var after := if failure.Some? then RunRecord([], 0, Raised(failure.value), currentTime, accumulator)
                             else RunFrom(handlers, interval, rate, pumped, open, currentTime, accumulator, clock[ticks + 1..]);
          ExtendTwice(effects, ticks, tick, after);
          effects, ticks, rest := effects + tick, ticks + 1, after;
          if failure.Some? {
            outcome := Raised(failure.value);
          }
        }
      }
      assert outcome == ClockExhausted ==> clock[ticks..] == [];
      assert effects + [] == effects;
    }
  }
}
