/** A pool that feeds tasks to workers over an unbuffered channel and waits for them
    with a WaitGroup. */
module WorkerPool {
  import opened Wrappers

  /** What a task's function returns: no error, or some error. */
  type Outcome = Option<nat>

  /** `Done` below zero panics in Go, so callers have to have counted first. */
  class WaitGroup {
    var count: int

    constructor ()
      ensures count == 0
    {
      count := 0;
    }

    method Done()
      requires count > 0
      modifies this
      ensures count == old(count) - 1
    {
      count := count - 1;
    }
  }

  class Task {
    var err: Outcome

    constructor ()
      ensures err == None
    {
      err := None;
    }

    /** `Run` with a function that returns `outcome`. */
    method Run(outcome: Outcome, wg: WaitGroup)
      requires wg.count > 0
      modifies this, wg
      ensures err == outcome && wg.count == old(wg.count) - 1
    {
      err := outcome;
      wg.Done();
    }
  }

  class Pool {
    const tasks: seq<Task>

    constructor (tasks: seq<Task>)
      ensures this.tasks == tasks
    {
      this.tasks := tasks;
    }

    /** What a worker does with a task it received. In the pool's eyes the outcome
        lands in the task's own slot and, if the tasks are distinct, in no other. */
    method RunTask(t: nat, outcome: Outcome, wg: WaitGroup)
      requires t < |tasks| && wg.count > 0
      modifies tasks[t], wg
      ensures wg.count == old(wg.count) - 1
      ensures forall k | 0 <= k < |tasks| :: Errs()[k] == if tasks[k] == tasks[t] then outcome else old(Errs())[k]
      ensures (forall k | 0 <= k < |tasks| && k != t :: tasks[k] != tasks[t]) ==> Errs() == old(Errs())[t := outcome]
    {
      tasks[t].Run(outcome, wg);
    }

    ghost function Errs(): (errs: seq<Outcome>)
      reads tasks
      ensures |errs| == |tasks|
    {
      seq(|tasks|, i requires 0 <= i < |tasks| reads tasks => tasks[i].err)
    }

    method HasErrors() returns (found: bool)
      ensures found <==> AnyError(Errs())
    {
      for i := 0 to |tasks|
        invariant forall k | 0 <= k < i :: tasks[k].err.None?
      {
        if tasks[i].err.Some? {
          assert Errs()[i].Some?;
          return true;
        }
      }
      found := false;
    }
  }

  predicate AnyError(errs: seq<Outcome>) {
    exists i :: 0 <= i < |errs| && errs[i].Some?
  }

  // ----------------------------------------------------------------- the run

  /** `Finishing(t)`: the task's error is stored, `wg.Done()` is still to come. */
  datatype Worker = Idle | Running(t: nat) | Finishing(t: nat) | Gone

  datatype Main = Adding | Sending | Waiting | Returned

  /** `next` is the task the feeder sends next, `errs` the tasks' error fields, and
      `returned[t]` the history of what task `t`'s function returned. */
  datatype State = State(
    main: Main,
    next: nat,
    closed: bool,
    wg: int,
    workers: seq<Worker>,
    errs: seq<Outcome>,
    returned: seq<seq<Outcome>>)

  datatype Step =
    | Add                                  // wg.Add(len(tasks))
    | Send(w: nat)                         // the feeder meets an idle worker
    | Close                                // close(tasksChan)
    | Return                               // wg.Wait() returns
    | Finish(w: nat, outcome: Outcome)     // a task's function returns
    | Done(w: nat)                         // wg.Done()
    | Exit(w: nat)                         // a worker's range ends

  function Init(tasks: nat, concurrency: int): State {
    State(Adding, 0, false, 0, seq(if concurrency < 0 then 0 else concurrency, _ => Idle),
          seq(tasks, _ => None), seq(tasks, _ => []))
  }

  predicate Shape(s: State) {
    |s.errs| == |s.returned|
  }

  function Tasks(s: State): nat {
    |s.returned|
  }

  predicate Enabled(s: State, st: Step) {
    match st
    case Add => s.main == Adding
    case Send(w) => s.main == Sending && s.next < Tasks(s) && w < |s.workers| && s.workers[w].Idle?
    case Close => s.main == Sending && s.next >= Tasks(s)
    case Return => s.main == Waiting && s.wg == 0
    case Finish(w, _) => w < |s.workers| && s.workers[w].Running? && s.workers[w].t < Tasks(s)
    case Done(w) => w < |s.workers| && s.workers[w].Finishing?
    case Exit(w) => w < |s.workers| && s.workers[w].Idle? && s.closed
  }

  function Apply(s: State, st: Step): (t: State)
    requires Shape(s) && Enabled(s, st)
    ensures Shape(t) && Tasks(t) == Tasks(s) && |t.workers| == |s.workers|
  {
    match st
    case Add => s.(wg := s.wg + Tasks(s), main := Sending)
    case Send(w) => s.(workers := s.workers[w := Running(s.next)], next := s.next + 1)
    case Close => s.(closed := true, main := Waiting)
    case Return => s.(main := Returned)
    case Finish(w, outcome) =>
      var t := s.workers[w].t;
      s.(workers := s.workers[w := Finishing(t)], errs := s.errs[t := outcome],
         returned := s.returned[t := s.returned[t] + [outcome]])
    case Done(w) => s.(workers := s.workers[w := Idle], wg := s.wg - 1)
    case Exit(w) => s.(workers := s.workers[w := Gone])
  }

  ghost predicate Valid(s: State, steps: seq<Step>)
    requires Shape(s)
    decreases |steps|
  {
    steps == [] || (Enabled(s, steps[0]) && Valid(Apply(s, steps[0]), steps[1..]))
  }

  ghost function After(s: State, steps: seq<Step>): (t: State)
    requires Shape(s) && Valid(s, steps)
    ensures Shape(t) && Tasks(t) == Tasks(s) && |t.workers| == |s.workers|
    decreases |steps|
  {
    if steps == [] then s else After(Apply(s, steps[0]), steps[1..])
  }

  predicate Holds(w: Worker, t: nat) {
    (w.Running? || w.Finishing?) && w.t == t
  }

  function Busy(workers: seq<Worker>): nat {
    if workers == [] then 0
    else
      var w := workers[|workers| - 1];
      Busy(workers[..|workers| - 1]) + if w.Running? || w.Finishing? then 1 else 0
  }

  lemma {:induction false} BusyUpdate(workers: seq<Worker>, i: nat, w: Worker)
    requires i < |workers|
    ensures var d := (if w.Running? || w.Finishing? then 1 else 0)
                     - (if workers[i].Running? || workers[i].Finishing? then 1 else 0);
            Busy(workers[i := w]) == Busy(workers) + d
  {
    var front := workers[..|workers| - 1];
    if i < |workers| - 1 {
      BusyUpdate(front, i, w);
      assert workers[i := w][..|workers| - 1] == front[i := w];
    } else {
      assert workers[i := w][..|workers| - 1] == front;
    }
  }

  lemma {:induction false} BusyWorker(workers: seq<Worker>) returns (i: nat)
    requires Busy(workers) > 0
    ensures i < |workers| && (workers[i].Running? || workers[i].Finishing?)
  {
    i := |workers| - 1;
    if !(workers[i].Running? || workers[i].Finishing?) {
      i := BusyWorker(workers[..|workers| - 1]);
    }
  }

  lemma {:induction false} NobodyBusy(workers: seq<Worker>, i: nat)
    requires Busy(workers) == 0 && i < |workers|
    ensures !workers[i].Running? && !workers[i].Finishing?
  {
    if i < |workers| - 1 {
      NobodyBusy(workers[..|workers| - 1], i);
    }
  }

  ghost predicate HeldBySome(workers: seq<Worker>, t: nat) {
    exists w :: 0 <= w < |workers| && Holds(workers[w], t)
  }

  /** Task `t` is unsent, with one worker, or done; and its function has returned
      once exactly if the worker got that far. */
  ghost predicate TaskOk(s: State, t: nat)
    requires Shape(s) && t < Tasks(s)
  {
    && |s.returned[t]| <= 1
    && s.errs[t] == (if s.returned[t] == [] then None else s.returned[t][0])
    && (forall w | 0 <= w < |s.workers| && Holds(s.workers[w], t) ::
          t < s.next && (s.workers[w].Running? <==> s.returned[t] == []))
    && (forall v, w | 0 <= v < w < |s.workers| && Holds(s.workers[v], t) :: !Holds(s.workers[w], t))
    && (s.returned[t] == [] && t < s.next ==> HeldBySome(s.workers, t))
    && (t >= s.next ==> s.returned[t] == [])
  }

  ghost predicate Inv(s: State) {
    && Shape(s) && s.next <= Tasks(s)
    && (forall t | 0 <= t < Tasks(s) :: TaskOk(s, t))
    && (forall w | 0 <= w < |s.workers| && (s.workers[w].Running? || s.workers[w].Finishing?) ::
          s.workers[w].t < s.next)
    && s.wg == (if s.main == Adding then 0 else Tasks(s) - s.next + Busy(s.workers))
    && (s.main == Adding ==> s.next == 0 && Busy(s.workers) == 0)
    && (s.closed <==> s.main == Waiting || s.main == Returned)
    && (s.closed ==> s.next == Tasks(s))
    && (s.main == Returned ==> s.wg == 0)
    && (!s.closed ==> forall w | 0 <= w < |s.workers| :: !s.workers[w].Gone?)
  }

  lemma StillHeld(workers: seq<Worker>, i: nat, w: Worker, t: nat)
    requires i < |workers| && HeldBySome(workers, t)
    requires Holds(workers[i], t) ==> Holds(w, t)
    ensures HeldBySome(workers[i := w], t)
  {
    var v :| 0 <= v < |workers| && Holds(workers[v], t);
    assert Holds(workers[i := w][v], t);
  }

  lemma SendTask(s: State, w: nat, t: nat)
    requires Inv(s) && Enabled(s, Send(w)) && t < Tasks(s)
    ensures TaskOk(Apply(s, Send(w)), t)
  {
    var u := Apply(s, Send(w));
    assert TaskOk(s, t);
    if t == s.next {
      assert Holds(u.workers[w], t);
    } else if HeldBySome(s.workers, t) {
      StillHeld(s.workers, w, u.workers[w], t);
    }
  }

  lemma FinishTask(s: State, w: nat, outcome: Outcome, t: nat)
    requires Inv(s) && Enabled(s, Finish(w, outcome)) && t < Tasks(s)
    ensures TaskOk(Apply(s, Finish(w, outcome)), t)
  {
    assert TaskOk(s, t);
    if HeldBySome(s.workers, t) {
      StillHeld(s.workers, w, Apply(s, Finish(w, outcome)).workers[w], t);
    }
  }

  lemma TaskStep(s: State, st: Step, t: nat)
    requires Inv(s) && Enabled(s, st) && t < Tasks(s)
    ensures TaskOk(Apply(s, st), t)
  {
    assert TaskOk(s, t);
    match st {
      case Send(w) => SendTask(s, w, t);
      case Finish(w, outcome) => FinishTask(s, w, outcome, t);
      case Done(w) =>
        if HeldBySome(s.workers, t) && !Holds(s.workers[w], t) {
          StillHeld(s.workers, w, Idle, t);
        }
      case Exit(w) =>
        if HeldBySome(s.workers, t) {
          StillHeld(s.workers, w, Gone, t);
        }
      case _ =>
    }
  }

  lemma StepInv(s: State, st: Step)
    requires Inv(s) && Enabled(s, st)
    ensures Inv(Apply(s, st))
  {
    var u := Apply(s, st);
    forall t | 0 <= t < Tasks(s) ensures TaskOk(u, t) { TaskStep(s, st, t); }
    match st {
      case Send(w) => BusyUpdate(s.workers, w, u.workers[w]);
      case Finish(w, _) => BusyUpdate(s.workers, w, u.workers[w]);
      case Done(w) => BusyUpdate(s.workers, w, u.workers[w]);
      case Exit(w) => BusyUpdate(s.workers, w, u.workers[w]);
      case _ =>
    }
  }

  lemma {:induction false} NoneBusy(workers: seq<Worker>)
    requires forall w | 0 <= w < |workers| :: workers[w].Idle?
    ensures Busy(workers) == 0
  {
    if workers != [] {
      NoneBusy(workers[..|workers| - 1]);
    }
  }

  lemma InitInv(tasks: nat, concurrency: int)
    ensures Inv(Init(tasks, concurrency))
  {
    var s := Init(tasks, concurrency);
    NoneBusy(s.workers);
    forall t | 0 <= t < tasks ensures TaskOk(s, t) {}
  }

  lemma {:induction false} RunInv(s: State, steps: seq<Step>)
    requires Inv(s) && Valid(s, steps)
    ensures Inv(After(s, steps))
    decreases |steps|
  {
    if steps != [] {
      StepInv(s, steps[0]);
      RunInv(Apply(s, steps[0]), steps[1..]);
    }
  }

  /** What task `t`'s function returned in a run, each time it did. */
  ghost function OutcomesOf(s: State, steps: seq<Step>, t: nat): seq<Outcome>
    requires Shape(s) && Valid(s, steps)
    decreases |steps|
  {
    if steps == [] then []
    else
      var st := steps[0];
      (if st.Finish? && s.workers[st.w].t == t then [st.outcome] else []) + OutcomesOf(Apply(s, st), steps[1..], t)
  }

  lemma {:induction false} RunOutcomes(s: State, steps: seq<Step>, t: nat)
    requires Shape(s) && Valid(s, steps) && t < Tasks(s)
    ensures After(s, steps).returned[t] == s.returned[t] + OutcomesOf(s, steps, t)
    decreases |steps|
  {
    if steps != [] {
      var st, u := steps[0], Apply(s, steps[0]);
      RunOutcomes(u, steps[1..], t);
      var x := if st.Finish? && s.workers[st.w].t == t then [st.outcome] else [];
      assert u.returned[t] == s.returned[t] + x;
      assert s.returned[t] + x + OutcomesOf(u, steps[1..], t) == s.returned[t] + (x + OutcomesOf(u, steps[1..], t));
    }
  }

  /** Over every schedule: the WaitGroup count is never negative, no function returns
      twice, and once `Run` has returned every task's function has returned exactly
      once, its `Err` is what the function returned, and `HasErrors` holds exactly
      when some function failed. */
  lemma EveryTaskRunsOnce(tasks: nat, concurrency: int, steps: seq<Step>)
    requires Valid(Init(tasks, concurrency), steps)
    ensures var start := Init(tasks, concurrency);
            var s := After(start, steps);
            && s.wg >= 0 && |s.errs| == tasks
            && (forall t: nat | t < tasks :: |OutcomesOf(start, steps, t)| <= 1)
            && (s.main == Returned ==>
                  && (forall t: nat | t < tasks :: OutcomesOf(start, steps, t) == [s.errs[t]])
                  && (AnyError(s.errs) <==> exists t: nat :: t < tasks && OutcomesOf(start, steps, t) != [None]))
  {
    var start := Init(tasks, concurrency);
    var s := After(start, steps);
    InitInv(tasks, concurrency);
    RunInv(start, steps);
    forall t: nat | t < tasks
      ensures OutcomesOf(start, steps, t) == s.returned[t]
      ensures |s.returned[t]| <= 1 && (s.main == Returned ==> s.returned[t] == [s.errs[t]])
    {
      RunOutcomes(start, steps, t);
      assert TaskOk(s, t);
      if s.main == Returned && s.returned[t] == [] {
        var w :| 0 <= w < |s.workers| && Holds(s.workers[w], t);
        NobodyBusy(s.workers, w);
        assert false;
      }
    }
    if t: nat :| t < tasks && OutcomesOf(start, steps, t) != [None] {
      assert s.main == Returned ==> s.errs[t].Some?;
    }
  }

  // ----------------------------------------------------------- concurrency

  lemma {:induction false} BusyAtMost(workers: seq<Worker>)
    ensures Busy(workers) <= |workers|
  {
    if workers != [] {
      BusyAtMost(workers[..|workers| - 1]);
    }
  }

  /** The feeder has handed the first `n` tasks to the first `n` workers. */
  ghost predicate Handed(s: State, n: nat) {
    && Shape(s) && s.main == Sending && s.next == n <= |s.workers|
    && (forall w | 0 <= w < |s.workers| :: s.workers[w] == if w < n then Running(w) else Idle)
    && Busy(s.workers) == n
  }

  lemma {:induction false} HandOut(s: State, n: nat, m: nat) returns (steps: seq<Step>)
    requires Handed(s, n) && n <= m <= |s.workers| && m <= Tasks(s)
    ensures Valid(s, steps) && Handed(After(s, steps), m)
    decreases m - n
  {
    steps := [];
    if n < m {
      var t := Apply(s, Send(n));
      BusyUpdate(s.workers, n, Running(n));
      var rest := HandOut(t, n + 1, m);
      steps := [Send(n)] + rest;
    }
  }

  /** The pool has the configured number of workers: never more tasks are being worked
      on at once, and that many can be, if there are as many. */
  lemma ConcurrencyIsExact(tasks: nat, concurrency: nat, steps: seq<Step>) returns (full: seq<Step>)
    requires Valid(Init(tasks, concurrency), steps)
    ensures Busy(After(Init(tasks, concurrency), steps).workers) <= concurrency
    ensures Valid(Init(tasks, concurrency), full)
    ensures Busy(After(Init(tasks, concurrency), full).workers) == if tasks < concurrency then tasks else concurrency
  {
    BusyAtMost(After(Init(tasks, concurrency), steps).workers);
    var s := Apply(Init(tasks, concurrency), Add);
    NoneBusy(s.workers);
    var rest := HandOut(s, 0, if tasks < concurrency then tasks else concurrency);
    full := [Add] + rest;
  }

  // ----------------------------------------------------------- termination

  function WorkerWeight(w: Worker): nat {
    match w case Running(_) => 3 case Finishing(_) => 2 case Idle => 1 case Gone => 0
  }

  function WorkersWeight(workers: seq<Worker>): nat {
    if workers == [] then 0
    else WorkersWeight(workers[..|workers| - 1]) + WorkerWeight(workers[|workers| - 1])
  }

  function MainWeight(m: Main): nat {
    match m case Adding => 3 case Sending => 2 case Waiting => 1 case Returned => 0
  }

  function Measure(s: State): nat
    requires Shape(s)
  {
    MainWeight(s.main) + WorkersWeight(s.workers) + 3 * (if s.next <= Tasks(s) then Tasks(s) - s.next else 0)
  }

  lemma {:induction false} WeightUpdate(workers: seq<Worker>, i: nat, w: Worker)
    requires i < |workers|
    ensures WorkersWeight(workers[i := w]) + WorkerWeight(workers[i]) == WorkersWeight(workers) + WorkerWeight(w)
  {
    var front := workers[..|workers| - 1];
    if i < |workers| - 1 {
      WeightUpdate(front, i, w);
      assert workers[i := w][..|workers| - 1] == front[i := w];
    } else {
      assert workers[i := w][..|workers| - 1] == front;
    }
  }

  lemma StepLowersMeasure(s: State, st: Step)
    requires Shape(s) && Enabled(s, st)
    ensures Measure(Apply(s, st)) < Measure(s)
  {
    var u := Apply(s, st);
    match st {
      case Send(w) => WeightUpdate(s.workers, w, u.workers[w]);
      case Finish(w, _) => WeightUpdate(s.workers, w, u.workers[w]);
      case Done(w) => WeightUpdate(s.workers, w, u.workers[w]);
      case Exit(w) => WeightUpdate(s.workers, w, u.workers[w]);
      case _ =>
    }
  }

  lemma {:induction false} RunsAreBounded(s: State, steps: seq<Step>)
    requires Shape(s) && Valid(s, steps)
    ensures |steps| + Measure(After(s, steps)) <= Measure(s)
    decreases |steps|
  {
    if steps != [] {
      StepLowersMeasure(s, steps[0]);
      RunsAreBounded(Apply(s, steps[0]), steps[1..]);
    }
  }

  /** With a worker, or nothing to do, the run is never stuck before `Run` returns and
      every worker has exited. */
  lemma PoolMoves(s: State) returns (st: Step)
    requires Inv(s) && (|s.workers| > 0 || Tasks(s) == 0)
    requires s.main != Returned || exists w :: 0 <= w < |s.workers| && !s.workers[w].Gone?
    ensures Enabled(s, st)
  {
    if w :| 0 <= w < |s.workers| && (s.workers[w].Running? || s.workers[w].Finishing?) {
      st := if s.workers[w].Running? then Finish(w, None) else Done(w);
    } else if s.main == Adding {
      st := Add;
    } else if s.main == Sending {
      st := if s.next < Tasks(s) then Send(0) else Close;
    } else if s.main == Waiting {
      if Busy(s.workers) > 0 {
        var w := BusyWorker(s.workers);
        assert false;
      }
      st := Return;
    } else {
      var w :| 0 <= w < |s.workers| && !s.workers[w].Gone?;
      st := Exit(w);
    }
  }

  lemma {:induction false} NothingSentWithoutWorkers(s: State, steps: seq<Step>)
    requires Inv(s) && Valid(s, steps) && |s.workers| == 0
    ensures After(s, steps).next == s.next
    decreases |steps|
  {
    if steps != [] {
      StepInv(s, steps[0]);
      NothingSentWithoutWorkers(Apply(s, steps[0]), steps[1..]);
    }
  }

  /** `Run` always returns, for every schedule, exactly if the concurrency is at least
      one or there is nothing to do: no run is longer than the initial measure, and
      one that cannot go on has returned, with all workers gone, in that case and has
      not returned in the other. */
  lemma PoolReturnsExactlyWhen(tasks: nat, concurrency: int, steps: seq<Step>)
    requires Valid(Init(tasks, concurrency), steps)
    ensures |steps| <= Measure(Init(tasks, concurrency))
    ensures var s := After(Init(tasks, concurrency), steps);
            (forall st: Step :: !Enabled(s, st)) ==>
              && (s.main == Returned <==> concurrency >= 1 || tasks == 0)
              && (s.main == Returned ==> forall w | 0 <= w < |s.workers| :: s.workers[w].Gone?)
  {
    var s := After(Init(tasks, concurrency), steps);
    InitInv(tasks, concurrency);
    RunInv(Init(tasks, concurrency), steps);
    RunsAreBounded(Init(tasks, concurrency), steps);
    if concurrency >= 1 || tasks == 0 {
      if s.main != Returned || exists w :: 0 <= w < |s.workers| && !s.workers[w].Gone? {
        var st := PoolMoves(s);
      }
    } else {
      NothingSentWithoutWorkers(Init(tasks, concurrency), steps);
    }
  }
}
