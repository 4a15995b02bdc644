/** The timers of a run of the library form a run of the timer module, so all that is proved of those holds here. */
module KernelTimers {
  import opened TimerWheel
  import opened TimerRefinement
  import T = TimerRuns
  import opened Kernel
  import opened KernelPlaces
  import opened KernelSleep
  import opened KernelLocks
  import opened KernelRuns
  import opened KernelSafety
  import opened KernelWakeUps
  import opened KernelAlarm

  /** What a step asks of the timer module. */
  function EventsOf(k: Kernel, a: Action): seq<T.Event>
    requires k.current in k.tasks
  {
    match a
    case CreateTimer(due, period, tag) => [T.NewTimer(due, period, Other(tag))]
    case DeleteTimer(slot, pos) => [T.DropTimer(slot, pos)]
    case Handler(now) => [T.Advance(now)] + if Me(k).collaborative then [T.NewTimer(Me(k).sleepMs, 0, Wake(k.current))] else []
    case _ => []
  }

  ghost predicate CurrentsKnown(ks: seq<Kernel>) { forall k | k in ks :: k.current in k.tasks }

  /** And a run's first n steps. */
  ghost function Events(ks: seq<Kernel>, acts: seq<Action>, n: nat): seq<T.Event>
    requires n <= |acts| <= |ks| && CurrentsKnown(ks)
  {
    if n == 0 then [] else Events(ks, acts, n - 1) + EventsOf(ks[n - 1], acts[n - 1])
  }

  predicate Agree(h: T.History, k: Kernel) { h.wheel == k.wheel && h.next == k.nextTimer }

  /** The steps of a run of the timer module from h. */
  ghost predicate Steps(g: nat, hs: seq<T.History>, es: seq<T.Event>)
    requires g >= 1
  {
    |hs| == |es| + 1 && forall i | 0 <= i < |es| :: T.Enabled(hs[i], es[i]) && hs[i + 1] == T.Apply(g, hs[i], es[i])
  }

  lemma StepsOn(g: nat, hs: seq<T.History>, es: seq<T.Event>, e: T.Event) returns (hs': seq<T.History>)
    requires g >= 1 && Steps(g, hs, es) && T.Enabled(hs[|es|], e)
    ensures Steps(g, hs', es + [e]) && hs'[0] == hs[0] && hs'[|es| + 1] == T.Apply(g, hs[|es|], e)
  {
    hide T.Enabled, T.Apply;
    hs' := hs + [T.Apply(g, hs[|es|], e)];
    var es' := es + [e];
    forall i | 0 <= i < |es'| ensures T.Enabled(hs'[i], es'[i]) && hs'[i + 1] == T.Apply(g, hs'[i], es'[i]) {
      if i < |es| { assert hs'[i] == hs[i] && hs'[i + 1] == hs[i + 1] && es'[i] == es[i]; }
    }
  }

  /** A handler run. */
  lemma HandlerTimers(g: nat, k: Kernel, now: nat, hs: seq<T.History>, es: seq<T.Event>) returns (hs': seq<T.History>)
    requires g >= 1 && KernelInv(g, k) && CanStep(g, k, Handler(now)) && CanHandle(g, k, now) && k.current in k.tasks
    requires Steps(g, hs, es) && Agree(hs[|es|], k)
    ensures Steps(g, hs', es + EventsOf(k, Handler(now))) && hs'[0] == hs[0] && Agree(hs'[|hs'| - 1], TimerHandler(g, k, now))
  {
    hide KernelInv, CanStep, CanHandle, TimerHandler, Run, RunLog, Create, T.Enabled, T.Apply, Steps, Fits;
    StepsLength(g, hs, es);
    PlacesOf(g, k);
    HandlerFits(g, k, now);
    HandlerWheelIs(g, k, now);
    var h := hs[|es|];
    AdvanceIs(g, h, now);
    hs' := StepsOn(g, hs, es, T.Advance(now));
    if Me(k).collaborative {
      var h1 := T.Apply(g, h, T.Advance(now));
      NewTimerIs(g, h1, Me(k).sleepMs, 0, Wake(k.current));
      StepsLength(g, hs', es + [T.Advance(now)]);
      hs' := StepsOn(g, hs', es + [T.Advance(now)], T.NewTimer(Me(k).sleepMs, 0, Wake(k.current)));
      assert es + EventsOf(k, Handler(now)) == es + [T.Advance(now)] + [T.NewTimer(Me(k).sleepMs, 0, Wake(k.current))];
    } else {
      assert es + EventsOf(k, Handler(now)) == es + [T.Advance(now)];
    }
    StepsLength(g, hs', es + EventsOf(k, Handler(now)));
  }

  lemma StepsLength(g: nat, hs: seq<T.History>, es: seq<T.Event>)
    requires g >= 1 && Steps(g, hs, es)
    ensures |hs| == |es| + 1
  {
  }

  lemma HandlerFits(g: nat, k: Kernel, now: nat)
    requires g >= 1 && Shape(k) && CanStep(g, k, Handler(now))
    ensures |k.wheel.cells| == SLOTS && now < WORD - 1 && Fits(k.wheel, now)
  {
    hide Fits, RunLog, Woken;
  }

  lemma HandlerWheelIs(g: nat, k: Kernel, now: nat)
    requires g >= 1 && KernelInv(g, k) && CanStep(g, k, Handler(now)) && CanHandle(g, k, now)
    ensures var w, k' := Run(g, k.wheel, now), TimerHandler(g, k, now);
            && |w.cells| == SLOTS && (Me(k).collaborative ==> w.jiffies + Me(k).sleepMs < WORD)
            && k'.wheel == (if Me(k).collaborative then Create(g, w, k.nextTimer, Me(k).sleepMs, 0, Wake(k.current)) else w)
            && k'.nextTimer == k.nextTimer + One(Me(k).collaborative)
  {
    hide LocksOk, Woken, RunLog, WheelInv, Create, Fits;
    TimersKeep(g, k, now);
    RunKeepsWheelInv(g, k.wheel, now);
    hide Places, SleepersOk, Run;
    WakeAllNext(k.(wheel := Run(g, k.wheel, now)), Woken(RunLog(g, k.wheel, now)));
  }

  lemma {:induction false} WakeAllNext(k: Kernel, ts: seq<TaskId>)
    requires forall t | t in ts :: t in k.tasks
    ensures WakeUpAll(k, ts).nextTimer == k.nextTimer
  {
    if ts != [] { WakeAllNext(k, ts[..|ts| - 1]); }
  }

  lemma AdvanceIs(g: nat, h: T.History, now: nat)
    requires g >= 1 && |h.wheel.cells| == SLOTS && now < WORD - 1 && Fits(h.wheel, now)
    ensures T.Enabled(h, T.Advance(now))
    ensures T.Apply(g, h, T.Advance(now)).wheel == Run(g, h.wheel, now) && T.Apply(g, h, T.Advance(now)).next == h.next
  {
    hide Run, RunLog, Fits;
  }

  lemma NewTimerIs(g: nat, h: T.History, due: nat, period: nat, cb: Callback)
    requires g >= 1 && |h.wheel.cells| == SLOTS && h.wheel.jiffies + due < WORD
    ensures T.Enabled(h, T.NewTimer(due, period, cb))
    ensures T.Apply(g, h, T.NewTimer(due, period, cb)).wheel == Create(g, h.wheel, h.next, due, period, cb)
    ensures T.Apply(g, h, T.NewTimer(due, period, cb)).next == h.next + 1
  {
    hide Create;
  }

  lemma DropTimerIs(g: nat, h: T.History, slot: nat, pos: nat)
    requires g >= 1 && |h.wheel.cells| == SLOTS && slot < SLOTS && pos < |h.wheel.cells[slot]|
    ensures T.Enabled(h, T.DropTimer(slot, pos))
    ensures T.Apply(g, h, T.DropTimer(slot, pos)).wheel == Delete(h.wheel, slot, pos)
    ensures T.Apply(g, h, T.DropTimer(slot, pos)).next == h.next
  {
    hide Delete;
  }

  /** Any step. */
  lemma StepTimers(g: nat, k: Kernel, a: Action, hs: seq<T.History>, es: seq<T.Event>) returns (hs': seq<T.History>)
    requires g >= 1 && KernelInv(g, k) && Shape(k) && CanStep(g, k, a) && Defined(g, k, a)
    requires Steps(g, hs, es) && Agree(hs[|es|], k)
    ensures k.current in k.tasks
    ensures Steps(g, hs', es + EventsOf(k, a)) && hs'[0] == hs[0] && Agree(hs'[|hs'| - 1], Apply(g, k, a))
  {
    hide KernelInv, Steps, TimerHandler, CanHandle, Statement, Create, Delete, Fits, Run, RunLog, Woken, Removed, TaskBlock, TaskExit, T.Enabled, T.Apply;
    hs' := hs;
    StepsLength(g, hs, es);
    match a {
      case Handler(now) => hs' := HandlerTimers(g, k, now, hs, es);
      case CreateTimer(due, period, tag) =>
        NewTimerIs(g, hs[|es|], due, period, Other(tag));
        hs' := StepsOn(g, hs, es, T.NewTimer(due, period, Other(tag)));
      case DeleteTimer(slot, pos) =>
        DropTimerIs(g, hs[|es|], slot, pos);
        hs' := StepsOn(g, hs, es, T.DropTimer(slot, pos));
      case _ =>
        assert es + EventsOf(k, a) == es;
        SameWheel(g, k, a);
        SameNext(g, k, a);
    }
    StepsLength(g, hs', es + EventsOf(k, a));
  }

  lemma SameNext(g: nat, k: Kernel, a: Action)
    requires g >= 1 && Shape(k) && CanStep(g, k, a) && Defined(g, k, a)
    requires !a.Handler? && !a.CreateTimer? && !a.DeleteTimer?
    ensures Apply(g, k, a).nextTimer == k.nextTimer
  {
    hide LockStatement;
  }

  /** Every run of the library is a run of the timer module: with the timers its tasks create and delete, a catch-up
      for every handler run, and a one-shot of the requested length for every sleeper the handler finds. */
  lemma {:induction false} RunOfTimers(g: nat, ks: seq<Kernel>, acts: seq<Action>, n: nat) returns (hs: seq<T.History>)
    requires g >= 1 && IsRun(g, ks, acts) && n <= |acts|
    ensures |ks| == |acts| + 1 && CurrentsKnown(ks)
    ensures T.IsRun(g, hs, Events(ks, acts, n)) && Agree(hs[|hs| - 1], ks[n])
  {
    hide KernelInv, Shape, CanStep, Defined, Apply, Initial, T.Enabled, T.Apply, EventsOf;
    CurrentsAre(g, ks, acts);
    if n == 0 {
      var h := StartOf(ks[0]);
      hs := [h];
    } else {
      hs := RunOfTimers(g, ks, acts, n - 1);
      RunStep(g, ks, acts, n - 1);
      var es := Events(ks, acts, n - 1);
      hs := StepTimers(g, ks[n - 1], acts[n - 1], hs, es);
    }
  }

  lemma CurrentsAre(g: nat, ks: seq<Kernel>, acts: seq<Action>)
    requires g >= 1 && IsRun(g, ks, acts)
    ensures |ks| == |acts| + 1 && CurrentsKnown(ks)
  {
    hide KernelInv, CanStep, Defined, Apply, Initial, Asserts;
    RunKeepsInv(g, ks, acts);
    forall k | k in ks ensures k.current in k.tasks {
      PlacesOf(g, k);
    }
  }

  lemma StartOf(k: Kernel) returns (h: T.History)
    requires Initial(k)
    ensures T.Start(h) && Agree(h, k)
  {
    h := T.History(k.wheel, 0, map[], [], multiset{});
  }
}
