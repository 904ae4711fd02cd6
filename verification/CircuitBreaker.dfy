/** A consecutive-failure circuit breaker. `allow` and `record` are two separate
    critical sections around the caller's function, so calls overlap freely. */
module CircuitBreaker {

  datatype Mode = Closed | Open | HalfOpen

  datatype Config = Config(failureThreshold: int, successThreshold: int, cooldown: int)

  /** The fields guarded by the breaker's mutex; `log` is what the state-change
      callback has seen so far. */
  datatype Core = Core(
    mode: Mode, failures: int, successes: int, openedAt: int, probing: bool, log: seq<(Mode, Mode)>)

  function InitCore(): Core {
    Core(Closed, 0, 0, 0, false, [])
  }

  function TransitionTo(c: Core, to: Mode): Core {
    if c.mode == to then c
    else c.(mode := to, failures := 0, successes := 0,
            probing := to == HalfOpen && c.probing, log := c.log + [(c.mode, to)])
  }

  /** The state after `allow` at time `now`, and whether the call may proceed. */
  function AllowAt(cfg: Config, c: Core, now: int): (Core, bool) {
    match c.mode
    case Closed => (c, true)
    case Open =>
      if now - c.openedAt < cfg.cooldown then (c, false)
      else (TransitionTo(c, HalfOpen).(probing := true), true)
    case HalfOpen => if c.probing then (c, false) else (c.(probing := true), true)
  }

  function RecordAt(cfg: Config, c: Core, success: bool, now: int): Core {
    match c.mode
    case Closed =>
      if success then c.(failures := 0)
      else
        var d := c.(failures := c.failures + 1);
        if d.failures >= cfg.failureThreshold then TransitionTo(d.(openedAt := now), Open) else d
    case HalfOpen =>
      var d := c.(probing := false);
      if !success then TransitionTo(d.(openedAt := now), Open)
      else
        var e := d.(successes := d.successes + 1);
        if e.successes >= cfg.successThreshold then TransitionTo(e, Closed) else e
    case Open => c
  }

  /** `Do` with nobody else in between: the function is called from `start` to `end`
      if it is called at all. */
  function DoAt(cfg: Config, c: Core, outcome: bool, start: int, end: int): (Core, bool) {
    var (d, ok) := AllowAt(cfg, c, start);
    if ok then (RecordAt(cfg, d, outcome, end), true) else (d, false)
  }

  /** The breaker itself. Each method is one critical section. */
  class Breaker {
    const cfg: Config
    var mode: Mode
    var failures: int
    var successes: int
    var openedAt: int
    var probing: bool
    var log: seq<(Mode, Mode)>

    ghost function View(): Core
      reads this
    {
      Core(mode, failures, successes, openedAt, probing, log)
    }

    constructor (failureThreshold: int, successThreshold: int, cooldown: int)
      ensures cfg == Config(failureThreshold, successThreshold, cooldown)
      ensures View() == InitCore()
    {
      cfg := Config(failureThreshold, successThreshold, cooldown);
      mode, failures, successes, openedAt, probing, log := Closed, 0, 0, 0, false, [];
    }

    method Transition(to: Mode)
      modifies this
      ensures View() == TransitionTo(old(View()), to)
    {
      var from := mode;
      if from == to {
        return;
      }
      mode := to;
      failures := 0;
      successes := 0;
      if to != HalfOpen {
        probing := false;
      }
      log := log + [(from, to)];
    }

    method Allow(now: int) returns (ok: bool)
      modifies this
      ensures (View(), ok) == AllowAt(cfg, old(View()), now)
    {
      match mode {
        case Closed =>
          ok := true;
        case Open =>
          if now - openedAt < cfg.cooldown {
            return false;
          }
          Transition(HalfOpen);
          probing := true;
          ok := true;
        case HalfOpen =>
          if probing {
            return false;
          }
          probing := true;
          ok := true;
      }
    }

    method Record(success: bool, now: int)
      modifies this
      ensures View() == RecordAt(cfg, old(View()), success, now)
    {
      match mode {
        case Closed =>
          if success {
            failures := 0;
            return;
          }
          failures := failures + 1;
          if failures >= cfg.failureThreshold {
            openedAt := now;
            Transition(Open);
          }
        case HalfOpen =>
          probing := false;
          if !success {
            openedAt := now;
            Transition(Open);
            return;
          }
          successes := successes + 1;
          if successes >= cfg.successThreshold {
            Transition(Closed);
          }
        case Open =>
      }
    }

    /** `Do` with nobody else using the breaker: `outcome` is whether the caller's
        function, if it is invoked, returns without an error. Refused, nothing
        changes. A success clears the failures of a closed breaker, and in half-open
        counts towards closing; a failure counts towards opening a closed breaker and
        opens a half-open one, from the time the function returned. */
    method Do(outcome: bool, start: int, end: int) returns (invoked: bool)
      modifies this
      ensures (View(), invoked) == DoAt(cfg, old(View()), outcome, start, end)
      ensures invoked <==> match old(mode)
                           case Closed => true
                           case Open => start - old(openedAt) >= cfg.cooldown
                           case HalfOpen => !old(probing)
      ensures !invoked ==> View() == old(View())
      ensures invoked && old(mode) == Closed && outcome ==>
                mode == Closed && failures == 0 && successes == old(successes) && log == old(log)
      ensures invoked && old(mode) == Closed && !outcome && old(failures) + 1 < cfg.failureThreshold ==>
                mode == Closed && failures == old(failures) + 1 && log == old(log)
      ensures invoked && old(mode) == Closed && !outcome && old(failures) + 1 >= cfg.failureThreshold ==>
                mode == Open && openedAt == end && log == old(log) + [(Closed, Open)]
      ensures invoked && old(mode) != Closed && outcome ==>
                var n := 1 + if old(mode) == HalfOpen then old(successes) else 0;
                if n >= cfg.successThreshold then mode == Closed && failures == 0
                else mode == HalfOpen && successes == n && !probing
      ensures invoked && old(mode) != Closed && !outcome ==> mode == Open && openedAt == end
    {
      invoked := Allow(start);
      if invoked {
        Record(outcome, end);
      }
    }
  }

  // ------------------------------------------------------- overlapping calls

  /** Calls in flight are keyed by a number and remember the period they were
      admitted in: how many state changes had happened by then.

      History: `outcomes` are the outcomes recorded in the current period,
      `leftovers` how many of them came from calls of earlier periods, `trips` the
      times at which the breaker opened. */
  datatype System = System(
    core: Core,
    clock: int,
    inFlight: map<nat, nat>,
    nextCall: nat,
    outcomes: seq<bool>,
    leftovers: nat,
    trips: seq<int>)

  datatype Step =
    | Tick(duration: nat)
    | Call                              // `allow`
    | Return(call: nat, success: bool)  // the caller's function returned; `record`

  function Init(start: int): System {
    System(InitCore(), start, map[], 0, [], 0, [])
  }

  function Period(c: Core): nat {
    |c.log|
  }

  predicate Enabled(s: System, st: Step) {
    st.Return? ==> st.call in s.inFlight
  }

  function Apply(cfg: Config, s: System, st: Step): System
    requires Enabled(s, st)
  {
    match st
    case Tick(d) => s.(clock := s.clock + d)
    case Call =>
      var (c, ok) := AllowAt(cfg, s.core, s.clock);
      var t := Observe(s, c);
      if !ok then t
      else t.(inFlight := t.inFlight[t.nextCall := Period(c)], nextCall := t.nextCall + 1)
    case Return(k, success) =>
      var noted := s.(outcomes := s.outcomes + [success],
                      leftovers := s.leftovers + if s.inFlight[k] < Period(s.core) then 1 else 0,
                      inFlight := s.inFlight - {k});
      Observe(noted, RecordAt(cfg, s.core, success, s.clock))
  }

  /** Replaces the breaker's fields; a state change starts a new period. */
  function Observe(s: System, c: Core): System {
    if Period(c) == Period(s.core) then s.(core := c)
    else s.(core := c, outcomes := [], leftovers := 0,
            trips := if c.mode == Open then s.trips + [s.clock] else s.trips)
  }

  ghost predicate Valid(cfg: Config, s: System, steps: seq<Step>)
    decreases |steps|
  {
    steps == [] || (Enabled(s, steps[0]) && Valid(cfg, Apply(cfg, s, steps[0]), steps[1..]))
  }

  ghost function After(cfg: Config, s: System, steps: seq<Step>): System
    requires Valid(cfg, s, steps)
    decreases |steps|
  {
    if steps == [] then s else After(cfg, Apply(cfg, s, steps[0]), steps[1..])
  }

  lemma {:induction false} RunThenRun(cfg: Config, s: System, first: seq<Step>, second: seq<Step>)
    requires Valid(cfg, s, first) && Valid(cfg, After(cfg, s, first), second)
    ensures Valid(cfg, s, first + second)
    ensures After(cfg, s, first + second) == After(cfg, After(cfg, s, first), second)
    decreases |first|
  {
    if first == [] {
      assert first + second == second;
    } else {
      RunThenRun(cfg, Apply(cfg, s, first[0]), first[1..], second);
      assert (first + second)[1..] == first[1..] + second;
    }
  }

  lemma OneStep(cfg: Config, s: System, st: Step)
    requires Enabled(s, st)
    ensures Valid(cfg, s, [st]) && After(cfg, s, [st]) == Apply(cfg, s, st)
  {
    assert [st][1..] == [];
    assert Valid(cfg, Apply(cfg, s, st), []);
  }

  /** `Do` is what the state machine does: time passes until it is called, `allow`, time
      passes while the function runs, `record` with the function's own outcome. */
  lemma DoIsARun(cfg: Config, s: System, outcome: bool, start: int, end: int) returns (steps: seq<Step>)
    requires s.clock <= start <= end && s.nextCall !in s.inFlight
    ensures steps == [Tick(start - s.clock), Call]
                     + if DoAt(cfg, s.core, outcome, start, end).1
                       then [Tick(end - start), Return(s.nextCall, outcome)] else []
    ensures Valid(cfg, s, steps)
    ensures var t := After(cfg, s, steps);
            && t.core == DoAt(cfg, s.core, outcome, start, end).0
            && t.inFlight == s.inFlight
            && t.clock == if DoAt(cfg, s.core, outcome, start, end).1 then end else start
  {
    var k := s.nextCall;
    var s1 := Apply(cfg, s, Tick(start - s.clock));
    var s2 := Apply(cfg, s1, Call);
    OneStep(cfg, s, Tick(start - s.clock));
    OneStep(cfg, s1, Call);
    RunThenRun(cfg, s, [Tick(start - s.clock)], [Call]);
    var head := [Tick(start - s.clock)] + [Call];
    assert head == [Tick(start - s.clock), Call];
    steps := head;
    if AllowAt(cfg, s.core, start).1 {
      var s3 := Apply(cfg, s2, Tick(end - start));
      OneStep(cfg, s2, Tick(end - start));
      OneStep(cfg, s3, Return(k, outcome));
      RunThenRun(cfg, s2, [Tick(end - start)], [Return(k, outcome)]);
      var tail := [Tick(end - start)] + [Return(k, outcome)];
      assert tail == [Tick(end - start), Return(k, outcome)];
      RunThenRun(cfg, s, head, tail);
      steps := head + tail;
      assert Apply(cfg, s3, Return(k, outcome)).inFlight == s.inFlight;
    } else {
      assert steps + [] == steps;
    }
  }

  /** The calls in flight that were admitted in period `p`. */
  ghost function AdmittedIn(s: System, p: nat): set<nat> {
    set k | k in s.inFlight && s.inFlight[k] == p
  }

  ghost function Probes(s: System): set<nat> {
    AdmittedIn(s, Period(s.core))
  }

  /** The calls in flight from earlier periods. */
  ghost function Stragglers(s: System): set<nat> {
    set k | k in s.inFlight && s.inFlight[k] < Period(s.core)
  }

  ghost predicate ProbeBound(s: System) {
    && (s.core.probing ==> s.core.mode == HalfOpen)
    && (forall k | k in s.inFlight :: k < s.nextCall && s.inFlight[k] <= Period(s.core))
    && (s.core.mode == HalfOpen ==> |Probes(s)| <= (if s.core.probing then 1 else 0) + s.leftovers)
  }

  lemma AdmitProbe(s: System, t: System)
    requires t.inFlight == s.inFlight[s.nextCall := Period(t.core)]
    requires forall k | k in s.inFlight :: k < s.nextCall && s.inFlight[k] <= Period(s.core)
    ensures Period(t.core) == Period(s.core) ==> |Probes(t)| == |Probes(s)| + 1
    ensures Period(t.core) > Period(s.core) ==> |Probes(t)| == 1
  {
    if Period(t.core) == Period(s.core) {
      assert Probes(t) == Probes(s) + {s.nextCall};
    } else if Period(t.core) > Period(s.core) {
      assert Probes(t) == {s.nextCall};
    }
  }

  lemma CallProbeBound(cfg: Config, s: System)
    requires ProbeBound(s)
    ensures ProbeBound(Apply(cfg, s, Call))
  {
    var t := Apply(cfg, s, Call);
    if AllowAt(cfg, s.core, s.clock).1 {
      AdmitProbe(s, t);
    } else {
      assert t == s;
    }
  }

  lemma ReturnProbeBound(cfg: Config, s: System, k: nat, success: bool)
    requires Enabled(s, Return(k, success)) && ProbeBound(s)
    ensures ProbeBound(Apply(cfg, s, Return(k, success)))
  {
    var t := Apply(cfg, s, Return(k, success));
    assert t.inFlight == s.inFlight - {k};
    if Period(t.core) == Period(s.core) {
      assert Probes(t) == Probes(s) - {k};
    }
  }

  lemma StepProbeBound(cfg: Config, s: System, st: Step)
    requires Enabled(s, st) && ProbeBound(s)
    ensures ProbeBound(Apply(cfg, s, st))
  {
    match st {
      case Tick(_) => assert Probes(Apply(cfg, s, st)) == Probes(s);
      case Call => CallProbeBound(cfg, s);
      case Return(k, success) => ReturnProbeBound(cfg, s, k, success);
    }
  }

  lemma {:induction false} RunProbeBound(cfg: Config, s: System, steps: seq<Step>)
    requires Valid(cfg, s, steps) && ProbeBound(s)
    ensures ProbeBound(After(cfg, s, steps))
    decreases |steps|
  {
    if steps != [] {
      StepProbeBound(cfg, s, steps[0]);
      RunProbeBound(cfg, Apply(cfg, s, steps[0]), steps[1..]);
    }
  }

  /** Half-open lets few calls through: in every reachable state the probes in
      flight are at most one more than the calls of earlier periods that were
      recorded in this one; with no such call there is at most one. */
  lemma ProbesAreBounded(cfg: Config, start: int, steps: seq<Step>)
    requires Valid(cfg, Init(start), steps)
    ensures var s := After(cfg, Init(start), steps);
            && (s.core.probing ==> s.core.mode == HalfOpen)
            && (s.core.mode == HalfOpen ==> |Probes(s)| <= 1 + s.leftovers)
            && (s.core.mode == HalfOpen && s.leftovers == 0 ==> |Probes(s)| <= 1)
  {
    assert Probes(Init(start)) == {};
    RunProbeBound(cfg, Init(start), steps);
  }

  // --------------------------------- when exactly "one probe at a time" holds

  ghost predicate OneProbe(s: System, probe: nat) {
    s.core.mode == HalfOpen && s.core.probing && Probes(s) == {probe}
  }

  /** A straggler may still be recorded as a success without closing the breaker. */
  ghost predicate StragglerCanClearProbe(cfg: Config, s: System) {
    Stragglers(s) != {} && s.core.successes + 1 < cfg.successThreshold
  }

  ghost predicate NeverReturns(probe: nat, steps: seq<Step>) {
    forall i | 0 <= i < |steps| :: steps[i].Return? ==> steps[i].call != probe
  }

  lemma StepKeepsOneProbe(cfg: Config, s: System, probe: nat, st: Step)
    requires ProbeBound(s) && OneProbe(s, probe) && !StragglerCanClearProbe(cfg, s)
    requires Enabled(s, st) && (st.Return? ==> st.call != probe)
    ensures var t := Apply(cfg, s, st);
            Period(t.core) == Period(s.core) ==> OneProbe(t, probe) && !StragglerCanClearProbe(cfg, t)
  {
    var t := Apply(cfg, s, st);
    match st {
      case Tick(_) => assert Probes(t) == Probes(s) && Stragglers(t) == Stragglers(s);
      case Call => assert t == s;
      case Return(k, _) =>
        assert k !in Probes(s) && k in Stragglers(s);
    }
  }

  lemma PeriodsGrow(cfg: Config, s: System, st: Step)
    requires Enabled(s, st)
    ensures Period(s.core) <= Period(Apply(cfg, s, st).core)
  {
  }

  lemma {:induction false} PeriodsGrowOverRuns(cfg: Config, s: System, steps: seq<Step>)
    requires Valid(cfg, s, steps)
    ensures Period(s.core) <= Period(After(cfg, s, steps).core)
    decreases |steps|
  {
    if steps != [] {
      PeriodsGrow(cfg, s, steps[0]);
      PeriodsGrowOverRuns(cfg, Apply(cfg, s, steps[0]), steps[1..]);
    }
  }

  lemma {:induction false} RunKeepsOneProbe(cfg: Config, s: System, probe: nat, steps: seq<Step>)
    requires ProbeBound(s) && OneProbe(s, probe) && !StragglerCanClearProbe(cfg, s)
    requires Valid(cfg, s, steps) && NeverReturns(probe, steps)
    ensures var t := After(cfg, s, steps); Period(t.core) == Period(s.core) ==> OneProbe(t, probe)
    decreases |steps|
  {
    if steps != [] {
      var t := Apply(cfg, s, steps[0]);
      PeriodsGrow(cfg, s, steps[0]);
      PeriodsGrowOverRuns(cfg, t, steps[1..]);
      if Period(t.core) == Period(s.core) {
        StepKeepsOneProbe(cfg, s, probe, steps[0]);
        StepProbeBound(cfg, s, steps[0]);
        assert forall i | 0 <= i < |steps[1..]| :: steps[1..][i] == steps[i + 1];
        RunKeepsOneProbe(cfg, t, probe, steps[1..]);
      }
    }
  }

  ghost predicate SecondProbeAfter(cfg: Config, s: System, probe: nat, steps: seq<Step>) {
    && Valid(cfg, s, steps) && NeverReturns(probe, steps)
    && Period(After(cfg, s, steps).core) == Period(s.core)
    && |Probes(After(cfg, s, steps))| >= 2
  }

  /** "One probe at a time" is not what the code guarantees. While a probe is in
      flight, a second one can be let through in the same half-open period if and
      only if a call from an earlier period is still in flight and one more success
      does not yet close the breaker: that straggler's `record` clears the flag. */
  lemma SecondProbeExactlyWhen(cfg: Config, start: int, before: seq<Step>, probe: nat)
    requires Valid(cfg, Init(start), before) && OneProbe(After(cfg, Init(start), before), probe)
    ensures var s := After(cfg, Init(start), before);
            (exists steps :: SecondProbeAfter(cfg, s, probe, steps)) <==> StragglerCanClearProbe(cfg, s)
  {
    assert Probes(Init(start)) == {};
    RunProbeBound(cfg, Init(start), before);
    var s := After(cfg, Init(start), before);
    assert probe in Probes(s);
    if StragglerCanClearProbe(cfg, s) {
      var k :| k in Stragglers(s);
      var s1 := Apply(cfg, s, Return(k, true));
      var s2 := Apply(cfg, s1, Call);
      var steps := [Return(k, true), Call];
      assert steps[1..] == [Call] && steps[1..][1..] == [];
      assert After(cfg, s, steps) == After(cfg, s1, [Call]) == s2;
      assert {probe, s.nextCall} <= Probes(s2) && probe != s.nextCall;
      TwoElements(Probes(s2), probe, s.nextCall);
      assert SecondProbeAfter(cfg, s, probe, steps);
    }
    forall steps | SecondProbeAfter(cfg, s, probe, steps) ensures StragglerCanClearProbe(cfg, s) {
      if !StragglerCanClearProbe(cfg, s) {
        RunKeepsOneProbe(cfg, s, probe, steps);
      }
    }
  }

  lemma TwoElements(xs: set<nat>, a: nat, b: nat)
    requires a in xs && b in xs && a != b
    ensures |xs| >= 2
  {
    assert {a, b} <= xs;
    assert |xs - {a, b}| == |xs| - |{a, b}|;
  }

  // ------------------------------------------------ the history is the run's own

  /** The outcomes that the steps report, in order. */
  function Reported(steps: seq<Step>): seq<bool> {
    if steps == [] then []
    else (if steps[0].Return? then [steps[0].success] else []) + Reported(steps[1..])
  }

  /** How many calls the steps report that were admitted before period `p`. */
  ghost function ReportedFromBefore(cfg: Config, s: System, steps: seq<Step>, p: nat): nat
    requires Valid(cfg, s, steps)
    decreases |steps|
  {
    if steps == [] then 0
    else (if steps[0].Return? && s.inFlight[steps[0].call] < p then 1 else 0)
         + ReportedFromBefore(cfg, Apply(cfg, s, steps[0]), steps[1..], p)
  }

  /** `first` leads to the start of the current period: the period has not changed
      since, and it did change with the last step of `first`, if there is one. */
  ghost predicate PeriodStartsAfter(cfg: Config, s: System, first: seq<Step>, rest: seq<Step>) {
    && Valid(cfg, s, first) && Valid(cfg, After(cfg, s, first), rest)
    && Period(After(cfg, s, first).core) == Period(After(cfg, After(cfg, s, first), rest).core)
    && (first != [] ==>
          && Valid(cfg, s, first[..|first| - 1])
          && Period(After(cfg, s, first[..|first| - 1]).core) < Period(After(cfg, s, first).core))
  }

  lemma SamePeriodStep(cfg: Config, s: System, st: Step)
    requires Enabled(s, st) && Period(Apply(cfg, s, st).core) == Period(s.core)
    ensures var t := Apply(cfg, s, st);
            && t.outcomes == s.outcomes + (if st.Return? then [st.success] else [])
            && t.leftovers == s.leftovers + (if st.Return? && s.inFlight[st.call] < Period(s.core) then 1 else 0)
  {
  }

  /** Within one period the history collects what the steps report. */
  lemma {:induction false} SamePeriodHistory(cfg: Config, s: System, steps: seq<Step>)
    requires Valid(cfg, s, steps) && Period(After(cfg, s, steps).core) == Period(s.core)
    ensures After(cfg, s, steps).outcomes == s.outcomes + Reported(steps)
    ensures After(cfg, s, steps).leftovers == s.leftovers + ReportedFromBefore(cfg, s, steps, Period(s.core))
    decreases |steps|
  {
    if steps != [] {
      var u := Apply(cfg, s, steps[0]);
      PeriodsGrow(cfg, s, steps[0]);
      PeriodsGrowOverRuns(cfg, u, steps[1..]);
      SamePeriodStep(cfg, s, steps[0]);
      SamePeriodHistory(cfg, u, steps[1..]);
    }
  }

  /** A step that changes the period starts an empty history; one that opens the
      breaker notes the time. */
  lemma NewPeriodHistory(cfg: Config, s: System, st: Step)
    requires Enabled(s, st) && Period(Apply(cfg, s, st).core) != Period(s.core)
    ensures var t := Apply(cfg, s, st);
            && t.outcomes == [] && t.leftovers == 0
            && t.trips == if t.core.mode == Open then s.trips + [s.clock] else s.trips
  {
  }

  lemma {:induction false} SplitAtPeriod(cfg: Config, s: System, steps: seq<Step>)
    returns (first: seq<Step>, rest: seq<Step>)
    requires Valid(cfg, s, steps)
    ensures steps == first + rest && PeriodStartsAfter(cfg, s, first, rest)
    ensures After(cfg, s, steps) == After(cfg, After(cfg, s, first), rest)
    decreases |steps|
  {
    if Period(After(cfg, s, steps).core) == Period(s.core) {
      first, rest := [], steps;
    } else {
      var u := Apply(cfg, s, steps[0]);
      PeriodsGrow(cfg, s, steps[0]);
      PeriodsGrowOverRuns(cfg, u, steps[1..]);
      var f, r := SplitAtPeriod(cfg, u, steps[1..]);
      first, rest := [steps[0]] + f, r;
      assert first[1..] == f && steps == first + rest;
      if f == [] {
        assert first[..0] == [];
        OneStep(cfg, s, steps[0]);
        assert first == [steps[0]];
      } else {
        var g := f[..|f| - 1];
        assert first[..|first| - 1] == [steps[0]] + g && ([steps[0]] + g)[1..] == g;
      }
    }
  }

  /** The times at which the breaker went open in a run. */
  ghost function TripTimes(cfg: Config, s: System, steps: seq<Step>): seq<int>
    requires Valid(cfg, s, steps)
    decreases |steps|
  {
    if steps == [] then []
    else
      var t := Apply(cfg, s, steps[0]);
      (if s.core.mode != Open && t.core.mode == Open then [s.clock] else []) + TripTimes(cfg, t, steps[1..])
  }

  lemma StepTrips(cfg: Config, s: System, st: Step)
    requires Enabled(s, st)
    ensures var t := Apply(cfg, s, st);
            t.trips == s.trips + if s.core.mode != Open && t.core.mode == Open then [s.clock] else []
  {
  }

  lemma {:induction false} RunTrips(cfg: Config, s: System, steps: seq<Step>)
    requires Valid(cfg, s, steps)
    ensures After(cfg, s, steps).trips == s.trips + TripTimes(cfg, s, steps)
    decreases |steps|
  {
    if steps != [] {
      StepTrips(cfg, s, steps[0]);
      RunTrips(cfg, Apply(cfg, s, steps[0]), steps[1..]);
    }
  }

  /** The outcomes, leftovers and trips that the theorems speak of are those of the run:
      its `Return` steps since the current period began, those among them whose calls
      were admitted before it, and the times at which it went open. */
  lemma HistoryIsTheRuns(cfg: Config, start: int, steps: seq<Step>) returns (first: seq<Step>, rest: seq<Step>)
    requires Valid(cfg, Init(start), steps)
    ensures steps == first + rest && PeriodStartsAfter(cfg, Init(start), first, rest)
    ensures var s := After(cfg, Init(start), steps);
            && s.outcomes == Reported(rest)
            && s.leftovers == ReportedFromBefore(cfg, After(cfg, Init(start), first), rest, Period(s.core))
            && s.trips == TripTimes(cfg, Init(start), steps)
  {
    RunTrips(cfg, Init(start), steps);
    first, rest := SplitAtPeriod(cfg, Init(start), steps);
    var u := After(cfg, Init(start), first);
    SamePeriodHistory(cfg, u, rest);
    if first != [] {
      var g, st := first[..|first| - 1], first[|first| - 1];
      assert first == g + [st];
      LastStep(cfg, Init(start), g, st);
      NewPeriodHistory(cfg, After(cfg, Init(start), g), st);
    }
  }

  lemma {:induction false} LastStep(cfg: Config, s: System, steps: seq<Step>, st: Step)
    requires Valid(cfg, s, steps) && Valid(cfg, s, steps + [st])
    ensures Enabled(After(cfg, s, steps), st)
    ensures After(cfg, s, steps + [st]) == Apply(cfg, After(cfg, s, steps), st)
    decreases |steps|
  {
    if steps == [] {
      assert steps + [st] == [st] && [st][1..] == [];
    } else {
      assert (steps + [st])[1..] == steps[1..] + [st];
      LastStep(cfg, Apply(cfg, s, steps[0]), steps[1..], st);
    }
  }

  // -------------------------- which breakers let one probe through at a time

  /** With a success threshold of at most one, whatever is recorded in half-open ends
      the period. */
  ghost predicate FirstRecordDecides(s: System) {
    s.core.successes >= 0 && (s.core.mode == HalfOpen ==> s.leftovers == 0 && s.core.successes == 0)
  }

  lemma {:induction false} RunFirstRecordDecides(cfg: Config, s: System, steps: seq<Step>)
    requires cfg.successThreshold <= 1 && Valid(cfg, s, steps) && FirstRecordDecides(s)
    ensures FirstRecordDecides(After(cfg, s, steps))
    decreases |steps|
  {
    if steps != [] {
      RunFirstRecordDecides(cfg, Apply(cfg, s, steps[0]), steps[1..]);
    }
  }

  /** Call 0, admitted while closed and not yet returned. */
  ghost predicate EarlyCall(s: System) {
    0 in s.inFlight && s.inFlight[0] == 0 < s.nextCall
  }

  /** Failing calls one after the other trip a closed breaker while call 0 stays out. */
  lemma {:induction false} TripBeside(cfg: Config, s: System) returns (steps: seq<Step>)
    requires s.core.mode == Closed && s.core.failures >= 0 && Period(s.core) == 0 && EarlyCall(s)
    ensures Valid(cfg, s, steps)
    ensures var t := After(cfg, s, steps);
            && t.core.mode == Open && t.core.openedAt == t.clock && Period(t.core) == 1
            && t.core.successes == 0 && EarlyCall(t)
    decreases cfg.failureThreshold - s.core.failures
  {
    var k := s.nextCall;
    var called := Apply(cfg, s, Call);
    var t := Apply(cfg, called, Return(k, false));
    var pair := [Call, Return(k, false)];
    assert pair[1..] == [Return(k, false)] && pair[1..][1..] == [];
    assert After(cfg, called, [Return(k, false)]) == t;
    assert After(cfg, s, pair) == t;
    steps := pair;
    if t.core.mode == Closed {
      var rest := TripBeside(cfg, t);
      RunThenRun(cfg, s, pair, rest);
      steps := pair + rest;
    }
  }

  /** After the cooldown a probe starts, call 0 comes back with a success, and the next
      call is let through beside the probe. */
  lemma ProbeThenStraggler(cfg: Config, s: System) returns (steps: seq<Step>)
    requires cfg.successThreshold >= 2
    requires s.core.mode == Open && s.core.openedAt == s.clock && Period(s.core) == 1
    requires s.core.successes == 0 && EarlyCall(s)
    ensures Valid(cfg, s, steps)
    ensures After(cfg, s, steps).core.mode == HalfOpen && |Probes(After(cfg, s, steps))| >= 2
  {
    var wait := if cfg.cooldown < 0 then 0 else cfg.cooldown;
    var probe := s.nextCall;
    var s1 := Apply(cfg, s, Tick(wait));
    var s2 := Apply(cfg, s1, Call);
    assert s2.core.mode == HalfOpen && s2.inFlight == s.inFlight[probe := 2];
    var s3 := Apply(cfg, s2, Return(0, true));
    assert s3.core.mode == HalfOpen && !s3.core.probing && s3.inFlight == s2.inFlight - {0};
    var s4 := Apply(cfg, s3, Call);
    steps := [Tick(wait), Call, Return(0, true), Call];
    assert steps[1..] == [Call, Return(0, true), Call] && steps[1..][1..] == [Return(0, true), Call];
    assert steps[1..][1..][1..] == [Call] && [Call][1..] == [];
    assert After(cfg, s3, [Call]) == s4;
    assert Valid(cfg, s2, [Return(0, true), Call]) && After(cfg, s2, [Return(0, true), Call]) == s4;
    assert After(cfg, s1, [Call, Return(0, true), Call]) == s4;
    assert {probe, probe + 1} <= Probes(s4);
    TwoElements(Probes(s4), probe, probe + 1);
  }

  lemma TwoProbesAreReachable(cfg: Config, start: int) returns (steps: seq<Step>)
    requires cfg.successThreshold >= 2
    ensures Valid(cfg, Init(start), steps)
    ensures var s := After(cfg, Init(start), steps); s.core.mode == HalfOpen && |Probes(s)| >= 2
  {
    var first := [Call];
    var s := Apply(cfg, Init(start), Call);
    assert first[1..] == [] && After(cfg, s, []) == s;
    var trip := TripBeside(cfg, s);
    var probes := ProbeThenStraggler(cfg, After(cfg, s, trip));
    RunThenRun(cfg, s, trip, probes);
    RunThenRun(cfg, Init(start), first, trip + probes);
    steps := first + (trip + probes);
  }

  ghost predicate OneProbeAtATime(s: System) {
    s.core.mode == HalfOpen ==> |Probes(s)| <= 1
  }

  /** Which breakers do keep the promise: in every run half-open has at most one probe
      in flight if and only if the breaker was made with a success threshold of at
      most one. */
  lemma OneProbeAtATimeExactlyWhen(cfg: Config, start: int)
    ensures (forall steps | Valid(cfg, Init(start), steps) :: OneProbeAtATime(After(cfg, Init(start), steps)))
            <==> cfg.successThreshold <= 1
  {
    if cfg.successThreshold <= 1 {
      forall steps | Valid(cfg, Init(start), steps) ensures OneProbeAtATime(After(cfg, Init(start), steps)) {
        RunFirstRecordDecides(cfg, Init(start), steps);
        ProbesAreBounded(cfg, start, steps);
      }
    } else {
      var steps := TwoProbesAreReachable(cfg, start);
      assert !OneProbeAtATime(After(cfg, Init(start), steps));
    }
  }

  // ------------------------------------------------------------ never wedged

  /** The probing flag always belongs to a call that can still clear it. */
  ghost predicate ProbeIsOut(s: System) {
    && (s.core.probing ==> s.core.mode == HalfOpen && Probes(s) != {})
    && (s.core.mode == Open ==> s.core.openedAt <= s.clock)
    && (forall k | k in s.inFlight :: k < s.nextCall)
  }

  lemma StepProbeIsOut(cfg: Config, s: System, st: Step)
    requires Enabled(s, st) && ProbeIsOut(s)
    ensures ProbeIsOut(Apply(cfg, s, st))
  {
    var t := Apply(cfg, s, st);
    match st {
      case Tick(_) => assert Probes(t) == Probes(s);
      case Call =>
        if AllowAt(cfg, s.core, s.clock).1 {
          assert t.core.mode == HalfOpen ==> s.nextCall in Probes(t);
        } else {
          assert t == s;
        }
      case Return(_, _) =>
        assert !t.core.probing;
    }
  }

  lemma {:induction false} RunProbeIsOut(cfg: Config, s: System, steps: seq<Step>)
    requires Valid(cfg, s, steps) && ProbeIsOut(s)
    ensures ProbeIsOut(After(cfg, s, steps))
    decreases |steps|
  {
    if steps != [] {
      StepProbeIsOut(cfg, s, steps[0]);
      RunProbeIsOut(cfg, Apply(cfg, s, steps[0]), steps[1..]);
    }
  }

  predicate AdmitsAfterCooldown(cfg: Config, s: System) {
    AllowAt(cfg, s.core, s.clock + if cfg.cooldown < 0 then 0 else cfg.cooldown).1
  }

  /** The breaker is never wedged while functions return. In every reachable state it
      lets a call through once the cooldown is over, unless a probe is in flight; and
      then any call that returns, with any outcome, makes it do so. */
  lemma NeverWedged(cfg: Config, start: int, steps: seq<Step>, k: nat, success: bool)
    requires Valid(cfg, Init(start), steps)
    ensures var s := After(cfg, Init(start), steps);
            && (AdmitsAfterCooldown(cfg, s) <==> !s.core.probing)
            && (s.core.probing ==> Probes(s) != {})
            && (k in s.inFlight ==> AdmitsAfterCooldown(cfg, Apply(cfg, s, Return(k, success))))
  {
    assert Probes(Init(start)) == {};
    RunProbeIsOut(cfg, Init(start), steps);
    var s := After(cfg, Init(start), steps);
    if k in s.inFlight {
      StepProbeIsOut(cfg, s, Return(k, success));
    }
  }

  ghost predicate SomeReturn(steps: seq<Step>) {
    exists i :: 0 <= i < |steps| && steps[i].Return?
  }

  /** While a probe is out, every call is refused until some call is recorded: a probe
      that never returns, with no straggler behind it, blocks the breaker for good. */
  lemma {:induction false} ProbingRefusesUntilAReturn(cfg: Config, s: System, steps: seq<Step>)
    requires s.core.mode == HalfOpen && s.core.probing && Valid(cfg, s, steps)
    ensures SomeReturn(steps) ||
            (var t := After(cfg, s, steps);
             t.core == s.core && t.inFlight == s.inFlight && !AllowAt(cfg, t.core, t.clock).1)
    decreases |steps|
  {
    if steps != [] && !steps[0].Return? {
      ProbingRefusesUntilAReturn(cfg, Apply(cfg, s, steps[0]), steps[1..]);
      if i :| 0 <= i < |steps[1..]| && steps[1..][i].Return? {
        assert steps[i + 1].Return?;
      }
    }
  }

  // ------------------------------------------------- the trace specification

  /** How many outcomes at the end of the trace are failures in a row. */
  function TrailingFailures(outcomes: seq<bool>): nat {
    if outcomes == [] || outcomes[|outcomes| - 1] then 0
    else 1 + TrailingFailures(outcomes[..|outcomes| - 1])
  }

  predicate Legal(from: Mode, to: Mode) {
    || (from == Closed && to == Open)
    || (from == Open && to == HalfOpen)
    || (from == HalfOpen && (to == Open || to == Closed))
  }

  /** The callback log is a path through the legal transitions from closed to `to`. */
  predicate Path(log: seq<(Mode, Mode)>, to: Mode) {
    if log == [] then to == Closed
    else
      var (a, b) := log[|log| - 1];
      b == to && Legal(a, b) && Path(log[..|log| - 1], a)
  }

  /** The counters are what the trace of recorded outcomes says they are. */
  ghost predicate CountersOk(cfg: Config, c: Core, outcomes: seq<bool>) {
    match c.mode
    case Closed => c.failures == TrailingFailures(outcomes) < cfg.failureThreshold && c.successes == 0
    case HalfOpen =>
      && c.successes == |outcomes| < cfg.successThreshold && c.failures == 0
      && forall x | x in outcomes :: x
    case Open => c.successes == 0 && c.failures == 0
  }

  ghost predicate TripsOk(cfg: Config, s: System) {
    && (forall x | x in s.trips :: x <= s.core.openedAt <= s.clock)
    && (s.core.mode == Open ==> s.core.openedAt in s.trips)
    && (s.core.mode != Open ==> forall x | x in s.trips :: s.clock - x >= cfg.cooldown)
  }

  ghost predicate Trace(cfg: Config, s: System) {
    Path(s.core.log, s.core.mode) && CountersOk(cfg, s.core, s.outcomes) && TripsOk(cfg, s)
  }

  lemma TransitionPath(c: Core, to: Mode)
    requires Path(c.log, c.mode) && Legal(c.mode, to)
    ensures Path(c.log + [(c.mode, to)], to)
  {
    assert (c.log + [(c.mode, to)])[..|c.log|] == c.log;
  }

  lemma TrailingFailuresAppend(outcomes: seq<bool>, x: bool)
    ensures TrailingFailures(outcomes + [x]) == if x then 0 else 1 + TrailingFailures(outcomes)
  {
    assert (outcomes + [x])[..|outcomes|] == outcomes;
  }

  lemma RecordCounters(cfg: Config, c: Core, outcomes: seq<bool>, success: bool, now: int)
    requires cfg.failureThreshold >= 1 && cfg.successThreshold >= 1
    requires CountersOk(cfg, c, outcomes) && Path(c.log, c.mode)
    ensures var d := RecordAt(cfg, c, success, now);
            && Path(d.log, d.mode)
            && (d.mode == c.mode ==> d.log == c.log && CountersOk(cfg, d, outcomes + [success]))
            && (d.mode != c.mode ==> d.log == c.log + [(c.mode, d.mode)] && CountersOk(cfg, d, []))
            && (d.mode == Open && c.mode != Open ==> d.openedAt == now)
            && (!(d.mode == Open && c.mode != Open) ==> d.openedAt == c.openedAt)
  {
    var d := RecordAt(cfg, c, success, now);
    TrailingFailuresAppend(outcomes, success);
    if d.mode != c.mode {
      TransitionPath(c, d.mode);
    }
  }

  lemma CallTrace(cfg: Config, s: System)
    requires cfg.failureThreshold >= 1 && cfg.successThreshold >= 1 && Trace(cfg, s)
    ensures Trace(cfg, Apply(cfg, s, Call))
  {
    if s.core.mode == Open {
      TransitionPath(s.core, HalfOpen);
    }
  }

  lemma ReturnTrace(cfg: Config, s: System, k: nat, success: bool)
    requires cfg.failureThreshold >= 1 && cfg.successThreshold >= 1
    requires Enabled(s, Return(k, success)) && Trace(cfg, s)
    ensures Trace(cfg, Apply(cfg, s, Return(k, success)))
  {
    RecordCounters(cfg, s.core, s.outcomes, success, s.clock);
    var t := Apply(cfg, s, Return(k, success));
    assert t.core == RecordAt(cfg, s.core, success, s.clock);
    assert t.outcomes == if t.core.mode == s.core.mode then s.outcomes + [success] else [];
  }

  lemma StepTrace(cfg: Config, s: System, st: Step)
    requires cfg.failureThreshold >= 1 && cfg.successThreshold >= 1
    requires Enabled(s, st) && Trace(cfg, s)
    ensures Trace(cfg, Apply(cfg, s, st))
  {
    match st {
      case Tick(_) =>
      case Call => CallTrace(cfg, s);
      case Return(k, success) => ReturnTrace(cfg, s, k, success);
    }
  }

  lemma {:induction false} RunTrace(cfg: Config, s: System, steps: seq<Step>)
    requires cfg.failureThreshold >= 1 && cfg.successThreshold >= 1
    requires Valid(cfg, s, steps) && Trace(cfg, s)
    ensures Trace(cfg, After(cfg, s, steps))
    decreases |steps|
  {
    if steps != [] {
      StepTrace(cfg, s, steps[0]);
      RunTrace(cfg, Apply(cfg, s, steps[0]), steps[1..]);
    }
  }

  /** The breaker, over every run of overlapping calls, is the machine its comments
      describe: closed until `failureThreshold` consecutive recorded failures,
      half-open until a failure or `successThreshold` recorded outcomes, its
      callback log a path of legal transitions, and no call let through within the
      cooldown of any trip. */
  lemma BreakerRefinesTrace(cfg: Config, start: int, steps: seq<Step>, k: nat, success: bool)
    requires cfg.failureThreshold >= 1 && cfg.successThreshold >= 1
    requires Valid(cfg, Init(start), steps)
    ensures var s := After(cfg, Init(start), steps);
            && Trace(cfg, s)
            && (AllowAt(cfg, s.core, s.clock).1 ==> forall x | x in s.trips :: s.clock - x >= cfg.cooldown)
            && (k in s.inFlight ==>
                  var now := Apply(cfg, s, Return(k, success)).core.mode;
                  && (s.core.mode == Closed ==>
                        now == if TrailingFailures(s.outcomes + [success]) == cfg.failureThreshold
                               then Open else Closed)
                  && (s.core.mode == HalfOpen ==>
                        now == if !success then Open
                               else if |s.outcomes| + 1 == cfg.successThreshold then Closed else HalfOpen)
                  && (s.core.mode == Open ==> now == Open))
  {
    RunTrace(cfg, Init(start), steps);
    TrailingFailuresAppend(After(cfg, Init(start), steps).outcomes, success);
  }

  // -------------------------------------------- an always-failing downstream

  /** A sequential caller's attempts: when it calls `Do`, and when its function, if
      invoked, returns its error. */
  type Attempt = (int, int)

  predicate InOrder(start: int, xs: seq<Attempt>) {
    && (forall i | 0 <= i < |xs| :: start <= xs[i].0 <= xs[i].1)
    && (forall i | 0 < i < |xs| :: xs[i - 1].1 <= xs[i].0)
  }

  /** The breaker after the attempts, and how many of them reached the downstream. */
  function FailingCalls(cfg: Config, xs: seq<Attempt>): (Core, nat) {
    if xs == [] then (InitCore(), 0)
    else
      var (c, n) := FailingCalls(cfg, xs[..|xs| - 1]);
      var (start, end) := xs[|xs| - 1];
      var (d, invoked) := DoAt(cfg, c, false, start, end);
      (d, if invoked then n + 1 else n)
  }

  function FirstTrip(cfg: Config): nat {
    if cfg.failureThreshold < 1 then 1 else cfg.failureThreshold
  }

  function Elapsed(start: int, xs: seq<Attempt>): int {
    if xs == [] then 0 else xs[|xs| - 1].1 - start
  }

  lemma OneMoreCooldown(a: nat, b: nat, cooldown: int)
    requires cooldown > 0 && a + cooldown <= b
    ensures a / cooldown + 1 <= b / cooldown
  {
    var q, r := a / cooldown, a % cooldown;
    assert a == q * cooldown + r;
    var q2, r2 := b / cooldown, b % cooldown;
    assert b == q2 * cooldown + r2;
    if q2 < q + 1 {
      assert q2 * cooldown <= q * cooldown by { MulMonotone(q2, q, cooldown); }
      assert false;
    }
  }

  lemma MulMonotone(a: int, b: int, c: int)
    requires a <= b && c >= 0
    ensures a * c <= b * c
  {
  }

  lemma FailingDo(cfg: Config, c: Core, start: int, end: int)
    requires c.mode != HalfOpen && (c.mode == Closed ==> 0 <= c.failures < FirstTrip(cfg))
    ensures var (d, invoked) := DoAt(cfg, c, false, start, end);
            && (c.mode == Closed ==>
                  && invoked
                  && (if c.failures + 1 < FirstTrip(cfg) then d.mode == Closed && d.failures == c.failures + 1
                      else d.mode == Open && d.openedAt == end))
            && (c.mode == Open && start - c.openedAt < cfg.cooldown ==> !invoked && d == c)
            && (c.mode == Open && start - c.openedAt >= cfg.cooldown ==>
                  invoked && d.mode == Open && d.openedAt == end)
  {
  }

  lemma {:induction false} FailingCallsInv(cfg: Config, start: int, xs: seq<Attempt>)
    requires cfg.cooldown > 0 && InOrder(start, xs)
    ensures var (c, n) := FailingCalls(cfg, xs);
            && c.mode != HalfOpen
            && (c.mode == Closed ==> n == c.failures < FirstTrip(cfg))
            && (c.mode == Open ==>
                  && start <= c.openedAt <= start + Elapsed(start, xs)
                  && n <= FirstTrip(cfg) + (c.openedAt - start) / cfg.cooldown)
  {
    if xs != [] {
      var ys := xs[..|xs| - 1];
      FailingCallsInv(cfg, start, ys);
      var (c, n) := FailingCalls(cfg, ys);
      var (d, m) := FailingCalls(cfg, xs);
      FailingDo(cfg, c, xs[|xs| - 1].0, xs[|xs| - 1].1);
      if c.mode == Open && xs[|xs| - 1].0 - c.openedAt >= cfg.cooldown {
        OneMoreCooldown(c.openedAt - start, d.openedAt - start, cfg.cooldown);
      } else if c.mode == Closed && d.mode == Open {
        DivMonotone(0, d.openedAt - start, cfg.cooldown);
      }
    }
  }

  /** Load protection: if the downstream never recovers, a sequential caller reaches
      it at most `failureThreshold` times, plus once per cooldown that has passed,
      however often it tries. */
  lemma FailingDownstreamIsProtected(cfg: Config, start: int, xs: seq<Attempt>)
    requires cfg.cooldown > 0 && InOrder(start, xs)
    ensures FailingCalls(cfg, xs).1 <= FirstTrip(cfg) + Elapsed(start, xs) / cfg.cooldown
  {
    FailingCallsInv(cfg, start, xs);
    var c := FailingCalls(cfg, xs).0;
    if c.mode == Open {
      DivMonotone(c.openedAt - start, Elapsed(start, xs), cfg.cooldown);
    } else {
      assert Elapsed(start, xs) >= 0;
      DivMonotone(0, Elapsed(start, xs), cfg.cooldown);
    }
  }

  lemma DivMonotone(a: nat, b: nat, d: int)
    requires d > 0 && a <= b
    ensures a / d <= b / d
  {
    var q, p := a / d, b / d;
    assert a == q * d + a % d && b == p * d + b % d;
    if p < q {
      MulMonotone(p + 1, q, d);
      assert false;
    }
  }

  function Cooldowns(cfg: Config, k: nat): int {
    if k == 0 then 0 else Cooldowns(cfg, k - 1) + cfg.cooldown
  }

  lemma {:induction false} CooldownsElapsed(cfg: Config, k: nat)
    requires cfg.cooldown > 0
    ensures Cooldowns(cfg, k) >= 0 && Cooldowns(cfg, k) / cfg.cooldown == k
  {
    if k == 0 {
    } else {
      CooldownsElapsed(cfg, k - 1);
      DivAddOne(Cooldowns(cfg, k - 1), cfg.cooldown);
    }
  }

  lemma DivAddOne(a: nat, d: int)
    requires d > 0
    ensures (a + d) / d == a / d + 1
  {
    OneMoreCooldown(a, a + d, d);
    var q := (a + d) / d;
    assert a + d == q * d + (a + d) % d;
    var p := a / d;
    assert a == p * d + a % d;
    if q > p + 1 {
      MulMonotone(p + 2, q, d);
      assert false;
    }
  }

  /** The caller that trips the breaker at once and then tries exactly when each
      cooldown ends. */
  function Eager(cfg: Config, start: int, n: nat): seq<Attempt> {
    if n == 0 then []
    else Eager(cfg, start, n - 1) + [(EagerTime(cfg, start, n), EagerTime(cfg, start, n))]
  }

  function EagerTime(cfg: Config, start: int, n: nat): int {
    start + Cooldowns(cfg, if n <= FirstTrip(cfg) then 0 else n - FirstTrip(cfg))
  }

  lemma {:induction false} EagerIsInOrder(cfg: Config, start: int, n: nat)
    requires cfg.cooldown > 0
    ensures |Eager(cfg, start, n)| == n && InOrder(start, Eager(cfg, start, n))
    ensures n > 0 ==> Eager(cfg, start, n)[n - 1] == (EagerTime(cfg, start, n), EagerTime(cfg, start, n))
    ensures start <= EagerTime(cfg, start, n)
  {
    if n > 0 {
      EagerIsInOrder(cfg, start, n - 1);
    }
  }

  lemma {:induction false} EagerAlwaysCalls(cfg: Config, start: int, n: nat)
    ensures var (c, calls) := FailingCalls(cfg, Eager(cfg, start, n));
            && calls == n
            && (if n < FirstTrip(cfg) then c.mode == Closed && c.failures == n
                else c.mode == Open && c.openedAt == EagerTime(cfg, start, n))
  {
    if n > 0 {
      EagerAlwaysCalls(cfg, start, n - 1);
      var xs := Eager(cfg, start, n);
      assert xs[..|xs| - 1] == Eager(cfg, start, n - 1);
      var t := EagerTime(cfg, start, n);
      FailingDo(cfg, FailingCalls(cfg, Eager(cfg, start, n - 1)).0, t, t);
      assert n > FirstTrip(cfg) ==> t == EagerTime(cfg, start, n - 1) + cfg.cooldown;
    }
  }

  lemma EagerElapsed(cfg: Config, start: int, n: nat)
    requires cfg.cooldown > 0 && n >= FirstTrip(cfg)
    ensures Elapsed(start, Eager(cfg, start, n)) / cfg.cooldown == n - FirstTrip(cfg)
  {
    CooldownsElapsed(cfg, n - FirstTrip(cfg));
    EagerIsInOrder(cfg, start, n);
  }

  /** The bound cannot be improved: after any number of cooldowns some caller has
      reached the downstream exactly as often as the bound allows. */
  lemma ProtectionIsTight(cfg: Config, start: int, cooldowns: nat)
    requires cfg.cooldown > 0
    ensures var xs := Eager(cfg, start, FirstTrip(cfg) + cooldowns);
            && InOrder(start, xs)
            && Elapsed(start, xs) / cfg.cooldown == cooldowns
            && FailingCalls(cfg, xs).1 == FirstTrip(cfg) + Elapsed(start, xs) / cfg.cooldown
  {
    var n: nat := FirstTrip(cfg) + cooldowns;
    EagerIsInOrder(cfg, start, n);
    EagerAlwaysCalls(cfg, start, n);
    EagerElapsed(cfg, start, n);
  }
}
