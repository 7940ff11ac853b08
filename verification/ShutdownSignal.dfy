/**
 The shutdown signal: one flag and one notifier that wakes every registered waiter and stores no permit.
 A waiter registers and reads the flag before it blocks, a signal sets the flag and then notifies; each of
 these is one atomic step, and any number of waiters and signals interleave.
 */
module ShutdownSignal {
  import opened Wrappers

  /** The code registers first; the other order is here to show what it would lose. */
  datatype Order = RegisterFirst | CheckFirst

  /** `timed` waiters sleep and also end by their timer; `result` is what the call returned (`wait` returns true). */
  datatype Waiter = Waiter(timed: bool, registered: bool, checked: bool, notified: bool, result: Option<bool>)

  datatype SignalStage = Begun | FlagSet | Completed

  datatype World = World(flag: bool, waiters: seq<Waiter>, signals: seq<SignalStage>)

  datatype Step =
    | Arrive(timed: bool)
    | Register(w: nat)
    | CheckFlag(w: nat)
    | Wake(w: nat)
    | Timeout(w: nat)
    | BeginSignal
    | StoreFlag(s: nat)
    | Notify(s: nat)
    | RawStore // someone sharing the flag sets it without notifying

  const QUIET := World(false, [], [])

  predicate Waiting(w: World, i: nat) {
    i < |w.waiters| && w.waiters[i].result.None?
  }

  predicate Suspended(v: Waiter) {
    v.registered && v.checked && v.result.None?
  }

  /** Suspended with no wakeup on its way: only a later notification can end it. */
  predicate Asleep(v: Waiter) {
    Suspended(v) && !v.notified
  }

  predicate Enabled(order: Order, w: World, s: Step) {
    match s
    case Register(i) => Waiting(w, i) && !w.waiters[i].registered && (order.RegisterFirst? || w.waiters[i].checked)
    case CheckFlag(i) => Waiting(w, i) && !w.waiters[i].checked && (order.CheckFirst? || w.waiters[i].registered)
    case Wake(i) => Waiting(w, i) && Suspended(w.waiters[i]) && w.waiters[i].notified
    case Timeout(i) => Waiting(w, i) && Suspended(w.waiters[i]) && w.waiters[i].timed
    case StoreFlag(i) => i < |w.signals| && w.signals[i].Begun?
    case Notify(i) => i < |w.signals| && w.signals[i].FlagSet?
    case _ => true
  }

  function Notified(v: Waiter): Waiter {
    if v.registered then v.(notified := true) else v
  }

  function Do(order: Order, w: World, s: Step): World
    requires Enabled(order, w, s)
  {
    match s
    case Arrive(timed) => w.(waiters := w.waiters + [Waiter(timed, false, false, false, None)])
    case Register(i) => w.(waiters := w.waiters[i := w.waiters[i].(registered := true)])
    case CheckFlag(i) =>
      w.(waiters := w.waiters[i := w.waiters[i].(checked := true, result := if w.flag then Some(true) else None)])
    case Wake(i) => w.(waiters := w.waiters[i := w.waiters[i].(result := Some(true))])
    case Timeout(i) => w.(waiters := w.waiters[i := w.waiters[i].(result := Some(w.flag))])
    case BeginSignal => w.(signals := w.signals + [Begun])
    case StoreFlag(i) => w.(flag := true, signals := w.signals[i := FlagSet])
    case Notify(i) =>
      w.(signals := w.signals[i := Completed],
         waiters := seq(|w.waiters|, k requires 0 <= k < |w.waiters| => Notified(w.waiters[k])))
    case RawStore => w.(flag := true)
  }

  /** A step that cannot be taken yet changes nothing. */
  function Run(order: Order, history: seq<Step>): World {
    if history == [] then QUIET
    else
      var before := Run(order, history[..|history| - 1]);
      var step := history[|history| - 1];
      if Enabled(order, before, step) then Do(order, before, step) else before
  }

  predicate Signalled(w: World) {
    exists s :: 0 <= s < |w.signals| && w.signals[s].Completed?
  }

  /** No signal has completed while a waiter sleeps on. */
  predicate NothingLost(w: World) {
    Signalled(w) ==> forall i :: 0 <= i < |w.waiters| ==> !Asleep(w.waiters[i])
  }

  /** Nobody is told of a shutdown that was not signalled, and only a sleep may end without one. */
  predicate Truthful(w: World) {
    && (forall i :: 0 <= i < |w.waiters| ==>
          && (w.waiters[i].result == Some(true) || w.waiters[i].notified ==> w.flag)
          && (w.waiters[i].result == Some(false) ==> w.waiters[i].timed))
    && (forall s :: 0 <= s < |w.signals| && !w.signals[s].Begun? ==> w.flag)
  }

  lemma {:induction false} AlwaysTruthful(order: Order, history: seq<Step>)
    ensures Truthful(Run(order, history))
  {
    if history != [] {
      AlwaysTruthful(order, history[..|history| - 1]);
    }
  }

  predicate ChecksRegistered(w: World) {
    forall i :: 0 <= i < |w.waiters| && w.waiters[i].checked ==> w.waiters[i].registered
  }

  lemma StepLosesNothing(w: World, s: Step)
    requires Enabled(RegisterFirst, w, s) && NothingLost(w) && Truthful(w) && ChecksRegistered(w)
    ensures NothingLost(Do(RegisterFirst, w, s)) && ChecksRegistered(Do(RegisterFirst, w, s))
  {
    var v := Do(RegisterFirst, w, s);
    assert Signalled(w) ==> w.flag;
    assert Signalled(v) && !s.Notify? ==> Signalled(w);
  }

  /**
   No lost wakeup: for any number of waiters and signals and any interleaving, no reachable state has a
   completed signal and a waiter still blocked with no wakeup on its way.
   */
  lemma {:induction false} NoLostWakeup(history: seq<Step>)
    ensures NothingLost(Run(RegisterFirst, history)) && ChecksRegistered(Run(RegisterFirst, history))
  {
    if history != [] {
      var shorter := history[..|history| - 1];
      NoLostWakeup(shorter);
      AlwaysTruthful(RegisterFirst, shorter);
      if Enabled(RegisterFirst, Run(RegisterFirst, shorter), history[|history| - 1]) {
        StepLosesNothing(Run(RegisterFirst, shorter), history[|history| - 1]);
      }
    }
  }

  lemma RunOneMore(order: Order, history: seq<Step>, s: Step)
    ensures var w := Run(order, history);
            Run(order, history + [s]) == if Enabled(order, w, s) then Do(order, w, s) else w
  {
    assert (history + [s])[..|history|] == history;
  }

  /** A wait that reads the flag before registering: the whole signal fits in between. */
  lemma CheckFirstLoses() returns (history: seq<Step>)
    ensures !NothingLost(Run(CheckFirst, history))
  {
    history := [];
    assert Run(CheckFirst, history) == QUIET;
    hide Run;
    RunOneMore(CheckFirst, history, Arrive(false));
    history := history + [Arrive(false)];
    RunOneMore(CheckFirst, history, CheckFlag(0));
    history := history + [CheckFlag(0)];
    assert Run(CheckFirst, history) == World(false, [Waiter(false, false, true, false, None)], []);
    RunOneMore(CheckFirst, history, BeginSignal);
    history := history + [BeginSignal];
    RunOneMore(CheckFirst, history, StoreFlag(0));
    history := history + [StoreFlag(0)];
    assert Run(CheckFirst, history) == World(true, [Waiter(false, false, true, false, None)], [FlagSet]);
    RunOneMore(CheckFirst, history, Notify(0));
    history := history + [Notify(0)];
    RunOneMore(CheckFirst, history, Register(0));
    history := history + [Register(0)];
    assert Run(CheckFirst, history) == World(true, [Waiter(false, true, true, false, None)], [Completed]);
    assert Run(CheckFirst, history).signals[0].Completed? && Asleep(Run(CheckFirst, history).waiters[0]);
  }

  /** The order of registering and checking is what makes it so: it holds of every run exactly when registering comes first. */
  lemma OrderMatters(order: Order)
    ensures (forall history :: NothingLost(Run(order, history))) <==> order == RegisterFirst
  {
    if order.RegisterFirst? {
      forall history ensures NothingLost(Run(order, history)) {
        NoLostWakeup(history);
      }
    } else {
      var history := CheckFirstLoses();
      assert !NothingLost(Run(order, history));
    }
  }

  predicate ReturnedTrue(w: World, i: nat) {
    i < |w.waiters| && w.waiters[i].result == Some(true)
  }

  /** After a completed signal every call still out returns true by its own steps alone. */
  lemma ReturnsByItsOwnSteps(history: seq<Step>, i: nat)
    requires Signalled(Run(RegisterFirst, history)) && Waiting(Run(RegisterFirst, history), i)
    ensures ReturnedTrue(Run(RegisterFirst, history + [Register(i)] + [CheckFlag(i)] + [Wake(i)]), i)
  {
    NoLostWakeup(history);
    AlwaysTruthful(RegisterFirst, history);
    RunOneMore(RegisterFirst, history, Register(i));
    RunOneMore(RegisterFirst, history + [Register(i)], CheckFlag(i));
    RunOneMore(RegisterFirst, history + [Register(i)] + [CheckFlag(i)], Wake(i));
    assert !Asleep(Run(RegisterFirst, history).waiters[i]);
    hide Run;
  }

  /** A call that outlives a completed signal never reports that its full time elapsed. */
  lemma {:induction false} NoFalseElapse(history: seq<Step>, m: nat, i: nat)
    requires m <= |history|
    requires Signalled(Run(RegisterFirst, history[..m]))
    requires i < |Run(RegisterFirst, history[..m]).waiters| ==> Waiting(Run(RegisterFirst, history[..m]), i)
    ensures var w := Run(RegisterFirst, history);
            w.flag && (i < |w.waiters| ==> w.waiters[i].result != Some(false))
    decreases |history|
  {
    if m == |history| {
      assert history[..m] == history;
      AlwaysTruthful(RegisterFirst, history);
    } else {
      var shorter := history[..|history| - 1];
      assert shorter[..m] == history[..m];
      NoFalseElapse(shorter, m, i);
    }
  }
}
