/** The channel pipeline: networks of `gen`, `square` and `merge` stages over
    unbuffered channels, a consumer that may walk away, and one context. */
module Pipeline {

  // ---------------------------------------------------------------- networks

  /** What one goroutine runs. A `Closer` is the extra goroutine of `merge`: it
      waits for the forwarders `first..last` and then closes their output. */
  datatype Role =
    | Gen(nums: seq<int>)
    | Square(input: nat)
    | Forwarder(input: nat)
    | Closer(first: nat, last: nat)

  datatype Goroutine = Goroutine(role: Role, out: nat)

  /** `owner[c]` is the goroutine that has to close channel `c`; the consumer
      ranges over channel `sink`. */
  datatype Network = Network(routines: seq<Goroutine>, owner: seq<nat>, sink: nat)

  predicate Reads(r: Role) {
    r.Square? || r.Forwarder?
  }

  function AddGen(net: Network, nums: seq<int>): Network {
    var c := |net.owner|;
    net.(routines := net.routines + [Goroutine(Gen(nums), c)], owner := net.owner + [|net.routines|])
  }

  function AddSquare(net: Network, input: nat): Network {
    var c := |net.owner|;
    net.(routines := net.routines + [Goroutine(Square(input), c)], owner := net.owner + [|net.routines|])
  }

  function AddMerge(net: Network, inputs: seq<nat>): Network {
    var c := |net.owner|;
    var n := |net.routines|;
    var forwarders := seq(|inputs|, k requires 0 <= k < |inputs| => Goroutine(Forwarder(inputs[k]), c));
    net.(routines := net.routines + forwarders + [Goroutine(Closer(n, n + |inputs|), c)],
         owner := net.owner + [n + |inputs|])
  }

  /** The wiring discipline: every channel has one owner, which closes it; only
      the owner, or the forwarders a closer waits for, send on it; and every
      stage reads a channel created before its own output. */
  ghost predicate WellFormed(net: Network) {
    && (forall c | 0 <= c < |net.owner| ::
          && net.owner[c] < |net.routines|
          && net.routines[net.owner[c]].out == c
          && !net.routines[net.owner[c]].role.Forwarder?)
    && (forall i | 0 <= i < |net.routines| :: WiredAt(net, i))
  }

  ghost predicate WiredAt(net: Network, i: nat)
    requires i < |net.routines|
  {
    var g := net.routines[i];
    && g.out < |net.owner|
    && net.owner[g.out] < |net.routines|
    && (Reads(g.role) ==> g.role.input < g.out)
    && (!g.role.Forwarder? ==> net.owner[g.out] == i)
    && (g.role.Forwarder? ==>
          var o := net.routines[net.owner[g.out]].role;
          o.Closer? && o.first <= i < o.last)
    && (g.role.Closer? ==>
          && g.role.first <= g.role.last <= i
          && forall k | g.role.first <= k < g.role.last ::
               net.routines[k].role.Forwarder? && net.routines[k].out == g.out)
  }

  /** A program hands the consumer one of the channels it built. */
  ghost predicate Ready(net: Network) {
    WellFormed(net) && net.sink < |net.owner|
  }

  lemma GenKeepsWiring(net: Network, nums: seq<int>)
    requires WellFormed(net)
    ensures WellFormed(AddGen(net, nums))
  {
    var a := AddGen(net, nums);
    forall i | 0 <= i < |a.routines| ensures WiredAt(a, i) {
      if i < |net.routines| { assert WiredAt(net, i); }
    }
  }

  /** Every network that calls of the three constructors can build is
      well-formed, whatever channels they are wired to. */
  lemma ConstructorsKeepWiring(net: Network, nums: seq<int>, input: nat, inputs: seq<nat>)
    requires WellFormed(net)
    requires input < |net.owner|
    requires forall k | 0 <= k < |inputs| :: inputs[k] < |net.owner|
    ensures WellFormed(AddGen(net, nums))
    ensures WellFormed(AddSquare(net, input))
    ensures WellFormed(AddMerge(net, inputs))
  {
    GenKeepsWiring(net, nums);
    var b := AddSquare(net, input);
    forall i | 0 <= i < |b.routines| ensures WiredAt(b, i) {
      if i < |net.routines| { assert WiredAt(net, i); }
    }
    var m := AddMerge(net, inputs);
    forall i | 0 <= i < |m.routines| ensures WiredAt(m, i) {
      if i < |net.routines| { assert WiredAt(net, i); }
    }
  }

  // ------------------------------------------------------------------ states

  /** `Head` is the top of a goroutine's loop: a generator about to take its next
      number, a reader blocked in `range`, a closer blocked in `Wait`. */
  datatype Pc = Head | Sending(v: int) | Closing | Exited

  /** `rest` are a generator's numbers not yet taken; `got` is the history of
      values this goroutine received. */
  datatype Proc = Proc(pc: Pc, rest: seq<int>, got: seq<int>)

  datatype Consumer = Ranging | Finished | Left

  /** `closes[c]` counts `close` calls on `c`, `sent[c]` is the history of values
      handed over on `c`, and `dropped` are the values a stage was holding when it
      took the `ctx.Done()` arm, with the channel they were meant for. */
  datatype State = State(
    procs: seq<Proc>,
    closes: seq<nat>,
    sent: seq<seq<int>>,
    consumer: Consumer,
    cancelled: bool,
    delivered: seq<int>,
    dropped: seq<(nat, int)>)

  function InitProc(r: Role): Proc {
    Proc(Head, if r.Gen? then r.nums else [], [])
  }

  function Init(net: Network): State {
    State(
      seq(|net.routines|, i requires 0 <= i < |net.routines| => InitProc(net.routines[i].role)),
      seq(|net.owner|, _ => 0),
      seq(|net.owner|, _ => []),
      Ranging, false, [], [])
  }

  datatype Step =
    | Next(i: nat)                // a generator's loop head
    | Handoff(from: nat, to: nat) // a send meets a stage's receive
    | Deliver(from: nat)          // a send meets the consumer's receive
    | SeeClosed(i: nat)           // a stage's `range` ends: its input is closed
    | Abandon(i: nat)             // the `ctx.Done()` arm of a send
    | Waited(i: nat)              // a closer's `Wait` returns
    | Close(i: nat)               // `close(out)`
    | ConsumerEnd                 // the consumer's `range` ends
    | ConsumerLeave               // the consumer breaks out of its loop
    | Cancel                      // `cancel()`

  ghost predicate Shape(net: Network, s: State) {
    |s.procs| == |net.routines| && |s.closes| == |net.owner| == |s.sent|
  }

  ghost predicate Enabled(net: Network, s: State, st: Step)
    requires Ready(net) && Shape(net, s)
  {
    match st
    case Next(i) => i < |s.procs| && net.routines[i].role.Gen? && s.procs[i].pc.Head?
    case Handoff(a, b) =>
      && a < |s.procs| && b < |s.procs|
      && s.procs[a].pc.Sending? && s.procs[b].pc.Head?
      && Reads(net.routines[b].role) && net.routines[b].role.input == net.routines[a].out
    case Deliver(a) =>
      a < |s.procs| && s.procs[a].pc.Sending? && net.routines[a].out == net.sink && s.consumer.Ranging?
    case SeeClosed(i) =>
      && i < |s.procs| && Reads(net.routines[i].role) && s.procs[i].pc.Head?
      && WiredAt(net, i) && s.closes[net.routines[i].role.input] > 0
    case Abandon(i) => i < |s.procs| && s.cancelled && s.procs[i].pc.Sending?
    case Waited(i) =>
      && i < |s.procs| && net.routines[i].role.Closer? && s.procs[i].pc.Head?
      && WiredAt(net, i)
      && forall k | net.routines[i].role.first <= k < net.routines[i].role.last :: s.procs[k].pc.Exited?
    case Close(i) => i < |s.procs| && s.procs[i].pc.Closing?
    case ConsumerEnd => s.consumer.Ranging? && s.closes[net.sink] > 0
    case ConsumerLeave => s.consumer.Ranging?
    case Cancel => !s.cancelled
  }

  /** Where a goroutine goes when its loop is over: a forwarder only counts down
      its WaitGroup, every other goroutine still has to close its output. */
  function AfterLoop(r: Role): Pc {
    if r.Forwarder? then Exited else Closing
  }

  function Emit(r: Role, v: int): int {
    if r.Square? then v * v else v
  }

  function SetPc(s: State, i: nat, pc: Pc): State
    requires i < |s.procs|
  {
    s.(procs := s.procs[i := s.procs[i].(pc := pc)])
  }

  ghost function Apply(net: Network, s: State, st: Step): (t: State)
    requires Ready(net) && Shape(net, s) && Enabled(net, s, st)
    ensures Shape(net, t)
  {
    match st
    case Next(i) =>
      var p := s.procs[i];
      if p.rest == [] then SetPc(s, i, Closing)
      else s.(procs := s.procs[i := p.(pc := Sending(p.rest[0]), rest := p.rest[1..])])
    case Handoff(a, b) =>
      var v := s.procs[a].pc.v;
      var c := net.routines[a].out;
      assert WiredAt(net, a);
      var q := s.procs[b].(pc := Sending(Emit(net.routines[b].role, v)), got := s.procs[b].got + [v]);
      s.(procs := s.procs[a := s.procs[a].(pc := Head)][b := q], sent := s.sent[c := s.sent[c] + [v]])
    case Deliver(a) =>
      var v := s.procs[a].pc.v;
      s.(procs := s.procs[a := s.procs[a].(pc := Head)],
         sent := s.sent[net.sink := s.sent[net.sink] + [v]],
         delivered := s.delivered + [v])
    case SeeClosed(i) => SetPc(s, i, AfterLoop(net.routines[i].role))
    case Abandon(i) =>
      SetPc(s, i, AfterLoop(net.routines[i].role)).(dropped := s.dropped + [(net.routines[i].out, s.procs[i].pc.v)])
    case Waited(i) => SetPc(s, i, Closing)
    case Close(i) =>
      var c := net.routines[i].out;
      assert WiredAt(net, i);
      SetPc(s, i, Exited).(closes := s.closes[c := s.closes[c] + 1])
    case ConsumerEnd => s.(consumer := Finished)
    case ConsumerLeave => s.(consumer := Left)
    case Cancel => s.(cancelled := true)
  }

  ghost predicate Valid(net: Network, s: State, steps: seq<Step>)
    requires Ready(net) && Shape(net, s)
    decreases |steps|
  {
    steps == [] || (Enabled(net, s, steps[0]) && Valid(net, Apply(net, s, steps[0]), steps[1..]))
  }

  ghost function After(net: Network, s: State, steps: seq<Step>): (t: State)
    requires Ready(net) && Shape(net, s) && Valid(net, s, steps)
    ensures Shape(net, t)
    decreases |steps|
  {
    if steps == [] then s else After(net, Apply(net, s, steps[0]), steps[1..])
  }

  // ----------------------------------------------------- the state invariant

  ghost predicate ProcOk(net: Network, s: State, i: nat)
    requires Shape(net, s) && i < |s.procs|
  {
    var g := net.routines[i];
    var pc := s.procs[i].pc;
    && WiredAt(net, i)
    && (!g.role.Gen? || (!s.cancelled && (pc.Closing? || pc.Exited?)) ==> s.procs[i].rest == [])
    && (g.role.Forwarder? ==> !pc.Closing?)
    && (g.role.Closer? ==>
          && !pc.Sending?
          && (!pc.Head? ==> forall k | g.role.first <= k < g.role.last :: s.procs[k].pc.Exited?))
    && (Reads(g.role) && !s.cancelled && (pc.Closing? || pc.Exited?) ==> s.closes[g.role.input] > 0)
  }

  /** A channel is closed exactly when its owner has exited, and exactly once. */
  ghost predicate ChannelOk(net: Network, s: State, c: nat)
    requires WellFormed(net) && Shape(net, s) && c < |net.owner|
  {
    s.closes[c] == if s.procs[net.owner[c]].pc.Exited? then 1 else 0
  }

  ghost predicate Inv(net: Network, s: State)
    requires Ready(net)
  {
    && Shape(net, s)
    && (forall i | 0 <= i < |s.procs| :: ProcOk(net, s, i))
    && (forall c | 0 <= c < |net.owner| :: ChannelOk(net, s, c))
    && (s.consumer.Finished? ==> s.closes[net.sink] > 0)
  }

  lemma InitInv(net: Network)
    requires Ready(net)
    ensures Inv(net, Init(net))
  {
    var s := Init(net);
    forall i | 0 <= i < |s.procs| ensures ProcOk(net, s, i) { assert WiredAt(net, i); }
  }

  /** A goroutine that still wants to send does so on a channel nobody has closed. */
  lemma SenderFindsOpenChannel(net: Network, s: State, i: nat)
    requires Ready(net) && Inv(net, s) && i < |s.procs| && s.procs[i].pc.Sending?
    ensures WiredAt(net, i) && s.closes[net.routines[i].out] == 0
  {
    assert ProcOk(net, s, i);
    var c := net.routines[i].out;
    assert ChannelOk(net, s, c);
    assert ProcOk(net, s, net.owner[c]);
  }

  lemma HandoffProcOk(net: Network, s: State, a: nat, b: nat, i: nat)
    requires Ready(net) && Shape(net, s) && Enabled(net, s, Handoff(a, b)) && i < |s.procs| && ProcOk(net, s, i)
    ensures ProcOk(net, Apply(net, s, Handoff(a, b)), i)
  {
    var t := Apply(net, s, Handoff(a, b));
    assert forall k | 0 <= k < |s.procs| && s.procs[k].pc.Exited? :: t.procs[k].pc.Exited?;
  }

  lemma OtherProcOk(net: Network, s: State, st: Step, i: nat)
    requires Ready(net) && Shape(net, s) && Enabled(net, s, st) && !st.Handoff? && i < |s.procs| && ProcOk(net, s, i)
    ensures ProcOk(net, Apply(net, s, st), i)
  {
    var t := Apply(net, s, st);
    assert forall c | 0 <= c < |s.closes| :: s.closes[c] <= t.closes[c];
    assert forall k | 0 <= k < |s.procs| && s.procs[k].pc.Exited? :: t.procs[k].pc.Exited?;
    if t.procs[i] == s.procs[i] {
      RestingProcOk(net, s, t, i);
    }
  }

  /** A goroutine that does not move stays in order: channels are never reopened,
      goroutines never restarted, cancellations never withdrawn. */
  lemma RestingProcOk(net: Network, s: State, t: State, i: nat)
    requires Shape(net, s) && Shape(net, t) && i < |s.procs| && ProcOk(net, s, i) && t.procs[i] == s.procs[i]
    requires forall c | 0 <= c < |s.closes| :: s.closes[c] <= t.closes[c]
    requires forall k | 0 <= k < |s.procs| && s.procs[k].pc.Exited? :: t.procs[k].pc.Exited?
    requires s.cancelled ==> t.cancelled
    ensures ProcOk(net, t, i)
  {
  }

  lemma StepProcOk(net: Network, s: State, st: Step, i: nat)
    requires Ready(net) && Shape(net, s) && Enabled(net, s, st) && i < |s.procs| && ProcOk(net, s, i)
    ensures ProcOk(net, Apply(net, s, st), i)
  {
    if st.Handoff? {
      HandoffProcOk(net, s, st.from, st.to, i);
    } else {
      OtherProcOk(net, s, st, i);
    }
  }

  lemma StepChannelOk(net: Network, s: State, st: Step, c: nat)
    requires Ready(net) && Shape(net, s) && Enabled(net, s, st) && c < |net.owner|
    requires ChannelOk(net, s, c) && ProcOk(net, s, net.owner[c])
    requires st.Close? ==> ProcOk(net, s, st.i)
    ensures ChannelOk(net, Apply(net, s, st), c)
  {
  }

  lemma StepInv(net: Network, s: State, st: Step)
    requires Ready(net) && Inv(net, s) && Enabled(net, s, st)
    ensures Inv(net, Apply(net, s, st))
  {
    var t := Apply(net, s, st);
    assert forall c | 0 <= c < |s.closes| :: s.closes[c] <= t.closes[c];
    forall i | 0 <= i < |t.procs| ensures ProcOk(net, t, i) { StepProcOk(net, s, st, i); }
    forall c | 0 <= c < |net.owner| ensures ChannelOk(net, t, c) { StepChannelOk(net, s, st, c); }
  }

  lemma {:induction false} RunInv(net: Network, s: State, steps: seq<Step>)
    requires Ready(net) && Inv(net, s) && Valid(net, s, steps)
    ensures Inv(net, After(net, s, steps))
    decreases |steps|
  {
    if steps != [] {
      StepInv(net, s, steps[0]);
      RunInv(net, Apply(net, s, steps[0]), steps[1..]);
    }
  }

  /** Close discipline over whole runs: no channel is ever closed twice, only its
      owner closes it, `merge` closes only after all its forwarders exited, and
      no value is ever handed over on a closed channel. */
  lemma CloseDiscipline(net: Network, steps: seq<Step>, st: Step)
    requires Ready(net) && Valid(net, Init(net), steps)
    requires Enabled(net, After(net, Init(net), steps), st)
    ensures var s := After(net, Init(net), steps);
            && (forall c | 0 <= c < |net.owner| :: s.closes[c] <= 1)
            && (st.Close? ==>
                  && st.i < |net.routines| && WiredAt(net, st.i)
                  && net.owner[net.routines[st.i].out] == st.i
                  && s.closes[net.routines[st.i].out] == 0
                  && (net.routines[st.i].role.Closer? ==>
                        forall k | net.routines[st.i].role.first <= k < net.routines[st.i].role.last ::
                          s.procs[k].pc.Exited?))
            && (st.Handoff? || st.Deliver? ==>
                  st.from < |net.routines| && WiredAt(net, st.from) && s.closes[net.routines[st.from].out] == 0)
  {
    var s := After(net, Init(net), steps);
    InitInv(net);
    RunInv(net, Init(net), steps);
    forall c | 0 <= c < |net.owner| ensures s.closes[c] <= 1 { assert ChannelOk(net, s, c); }
    if st.Close? {
      assert ProcOk(net, s, st.i);
      assert ChannelOk(net, s, net.routines[st.i].out);
    }
    if st.Handoff? || st.Deliver? {
      SenderFindsOpenChannel(net, s, st.from);
    }
  }

  // ------------------------------------------------------------- termination

  /** How much a goroutine can still do: its loop, its close, the distance a held
      value has to travel, and all of that again for each number not yet taken. */
  function Weight(net: Network, g: Goroutine, p: Proc): nat {
    var channels := |net.owner|;
    var own := match p.pc
      case Head => 2
      case Sending(_) => 2 + if g.out < channels then channels - g.out else 0
      case Closing => 1
      case Exited => 0;
    own + Reserve(p.rest, channels + 1)
  }

  function Reserve(rest: seq<int>, perNumber: nat): nat {
    if rest == [] then 0 else perNumber + Reserve(rest[1..], perNumber)
  }

  ghost function WeightSum(net: Network, procs: seq<Proc>, n: nat): nat
    requires n <= |procs| == |net.routines|
  {
    if n == 0 then 0 else WeightSum(net, procs, n - 1) + Weight(net, net.routines[n - 1], procs[n - 1])
  }

  ghost function Measure(net: Network, s: State): nat
    requires Shape(net, s)
  {
    WeightSum(net, s.procs, |s.procs|) + (if s.consumer.Ranging? then 1 else 0) + (if s.cancelled then 0 else 1)
  }

  lemma {:induction false} WeightSumUpdate(net: Network, procs: seq<Proc>, i: nat, p: Proc, n: nat)
    requires i < |procs| == |net.routines| && n <= |procs|
    ensures i >= n ==> WeightSum(net, procs[i := p], n) == WeightSum(net, procs, n)
    ensures i < n ==>
              WeightSum(net, procs[i := p], n) + Weight(net, net.routines[i], procs[i])
              == WeightSum(net, procs, n) + Weight(net, net.routines[i], p)
  {
    if n > 0 {
      WeightSumUpdate(net, procs, i, p, n - 1);
    }
  }

  lemma LighterProc(net: Network, s: State, i: nat, p: Proc)
    requires Shape(net, s) && i < |s.procs|
    requires Weight(net, net.routines[i], p) < Weight(net, net.routines[i], s.procs[i])
    ensures WeightSum(net, s.procs[i := p], |s.procs|) < WeightSum(net, s.procs, |s.procs|)
  {
    WeightSumUpdate(net, s.procs, i, p, |s.procs|);
  }

  lemma HandoffLowersWeight(net: Network, s: State, a: nat, b: nat)
    requires Ready(net) && Inv(net, s) && Enabled(net, s, Handoff(a, b))
    ensures WeightSum(net, Apply(net, s, Handoff(a, b)).procs, |s.procs|) < WeightSum(net, s.procs, |s.procs|)
  {
    assert WiredAt(net, a) && WiredAt(net, b);
    var n := |s.procs|;
    var t := Apply(net, s, Handoff(a, b));
    var mid := s.procs[a := s.procs[a].(pc := Head)];
    assert t.procs == mid[b := t.procs[b]];
    WeightSumUpdate(net, s.procs, a, mid[a], n);
    WeightSumUpdate(net, mid, b, t.procs[b], n);
    var ga, gb := net.routines[a], net.routines[b];
    assert Weight(net, ga, s.procs[a]) == Weight(net, ga, mid[a]) + (|net.owner| - ga.out);
    assert Weight(net, gb, t.procs[b]) == Weight(net, gb, mid[b]) + (|net.owner| - gb.out);
  }

  /** Every step of every goroutine and of the consumer uses up some measure. */
  lemma StepLowersMeasure(net: Network, s: State, st: Step)
    requires Ready(net) && Inv(net, s) && Enabled(net, s, st)
    ensures Measure(net, Apply(net, s, st)) < Measure(net, s)
  {
    var t := Apply(net, s, st);
    match st {
      case Handoff(a, b) => HandoffLowersWeight(net, s, a, b);
      case Next(i) => assert WiredAt(net, i); LighterProc(net, s, i, t.procs[i]);
      case Deliver(i) => assert WiredAt(net, i); LighterProc(net, s, i, t.procs[i]);
      case SeeClosed(i) => LighterProc(net, s, i, t.procs[i]);
      case Abandon(i) => assert WiredAt(net, i); LighterProc(net, s, i, t.procs[i]);
      case Waited(i) => LighterProc(net, s, i, t.procs[i]);
      case Close(i) => LighterProc(net, s, i, t.procs[i]);
      case ConsumerEnd =>
      case ConsumerLeave =>
      case Cancel =>
    }
  }

  /** No schedule is infinite: a run is never longer than the initial measure. */
  lemma {:induction false} RunsAreBounded(net: Network, s: State, steps: seq<Step>)
    requires Ready(net) && Inv(net, s) && Valid(net, s, steps)
    ensures |steps| + Measure(net, After(net, s, steps)) <= Measure(net, s)
    decreases |steps|
  {
    if steps != [] {
      StepInv(net, s, steps[0]);
      StepLowersMeasure(net, s, steps[0]);
      RunsAreBounded(net, Apply(net, s, steps[0]), steps[1..]);
    }
  }

  ghost predicate AllExited(s: State) {
    forall i | 0 <= i < |s.procs| :: s.procs[i].pc.Exited?
  }

  predicate IsGoroutineStep(st: Step) {
    !st.ConsumerEnd? && !st.ConsumerLeave? && !st.Cancel?
  }

  /** Goroutine `i` is unfinished and every goroutine writing to an earlier channel
      has exited; it is a forwarder if its channel has an unfinished forwarder. */
  ghost predicate Earliest(net: Network, s: State, i: nat)
    requires Ready(net) && Shape(net, s)
  {
    && i < |s.procs| && !s.procs[i].pc.Exited?
    && (forall j | 0 <= j < |s.procs| && net.routines[j].out < net.routines[i].out :: s.procs[j].pc.Exited?)
    && (net.routines[i].role.Closer? ==>
          forall j | 0 <= j < |s.procs| && net.routines[j].out == net.routines[i].out && j != i ::
            s.procs[j].pc.Exited?)
  }

  lemma {:induction false} EarliestExists(net: Network, s: State, i: nat) returns (e: nat)
    requires Ready(net) && Inv(net, s) && i < |s.procs| && !s.procs[i].pc.Exited?
    ensures Earliest(net, s, e)
    decreases net.routines[i].out, if net.routines[i].role.Closer? then 1 else 0
  {
    assert WiredAt(net, i);
    if j :| 0 <= j < |s.procs| && net.routines[j].out < net.routines[i].out && !s.procs[j].pc.Exited? {
      e := EarliestExists(net, s, j);
    } else if j :| && 0 <= j < |s.procs| && net.routines[i].role.Closer? && !s.procs[j].pc.Exited?
                   && net.routines[j].out == net.routines[i].out && j != i {
      assert WiredAt(net, j);
      e := EarliestExists(net, s, j);
    } else {
      e := i;
    }
  }

  /** An earliest unfinished goroutine that is not blocked on a send can move. */
  lemma EarliestMoves(net: Network, s: State, i: nat) returns (st: Step)
    requires Ready(net) && Inv(net, s) && Earliest(net, s, i)
    requires s.procs[i].pc.Sending? ==> s.cancelled
    ensures IsGoroutineStep(st) && Enabled(net, s, st)
  {
    assert ProcOk(net, s, i);
    var g := net.routines[i];
    match s.procs[i].pc {
      case Sending(_) => st := Abandon(i);
      case Closing => st := Close(i);
      case Head =>
        if g.role.Gen? {
          st := Next(i);
        } else if Reads(g.role) {
          assert ChannelOk(net, s, g.role.input);
          st := SeeClosed(i);
        } else {
          st := Waited(i);
        }
    }
  }

  /** No leaks: once the context is cancelled, an unfinished goroutine always
      means that some goroutine can move, whatever the consumer does. */
  lemma CancelledNetworkMoves(net: Network, s: State)
    requires Ready(net) && Inv(net, s) && s.cancelled && !AllExited(s)
    ensures exists st: Step :: IsGoroutineStep(st) && Enabled(net, s, st)
  {
    var i :| 0 <= i < |s.procs| && !s.procs[i].pc.Exited?;
    var e := EarliestExists(net, s, i);
    var st := EarliestMoves(net, s, e);
  }

  /** The no-leak claim for every network, input, schedule and point at which the
      consumer left: `wg.Wait()` after `cancel()` returns. A run in which no
      goroutine can move any more has seen all of them exit, and no run is longer
      than the initial measure. */
  lemma NoLeaksAfterCancel(net: Network, steps: seq<Step>)
    requires Ready(net) && Valid(net, Init(net), steps)
    ensures |steps| <= Measure(net, Init(net))
    ensures var s := After(net, Init(net), steps);
            Cancel in steps && (forall st: Step :: IsGoroutineStep(st) ==> !Enabled(net, s, st)) ==> AllExited(s)
  {
    InitInv(net);
    RunFlags(net, Init(net), steps);
    RunInv(net, Init(net), steps);
    RunsAreBounded(net, Init(net), steps);
    var s := After(net, Init(net), steps);
    if s.cancelled && !AllExited(s) {
      CancelledNetworkMoves(net, s);
    }
  }

  /** The context is cancelled exactly by `Cancel`, and the consumer is where its own
      steps have taken it. */
  lemma {:induction false} RunFlags(net: Network, s: State, steps: seq<Step>)
    requires Ready(net) && Shape(net, s) && Valid(net, s, steps)
    ensures var t := After(net, s, steps);
            && (t.cancelled <==> s.cancelled || Cancel in steps)
            && (t.consumer.Left? <==> s.consumer.Left? || ConsumerLeave in steps)
            && (t.consumer.Finished? <==> s.consumer.Finished? || ConsumerEnd in steps)
    decreases |steps|
  {
    if steps != [] {
      RunFlags(net, Apply(net, s, steps[0]), steps[1..]);
      assert steps == [steps[0]] + steps[1..];
    }
  }

  /** A program starts uncancelled with its consumer in the range loop, and only
      `cancel()`, `break` and the end of the range change that. */
  lemma OnlyStepsCancelOrLeave(net: Network, steps: seq<Step>)
    requires Ready(net) && Valid(net, Init(net), steps)
    ensures var s := After(net, Init(net), steps);
            && (s.cancelled <==> Cancel in steps)
            && (s.consumer.Left? <==> ConsumerLeave in steps)
            && (s.consumer.Finished? <==> ConsumerEnd in steps)
  {
    RunFlags(net, Init(net), steps);
  }

  lemma {:induction false} RunThenRun(net: Network, s: State, first: seq<Step>, second: seq<Step>)
    requires Ready(net) && Shape(net, s) && Valid(net, s, first) && Valid(net, After(net, s, first), second)
    ensures Valid(net, s, first + second)
    ensures After(net, s, first + second) == After(net, After(net, s, first), second)
    decreases |first|
  {
    if first == [] {
      assert first + second == second;
    } else {
      RunThenRun(net, Apply(net, s, first[0]), first[1..], second);
      assert (first + second)[1..] == first[1..] + second;
    }
  }

  lemma OneStep(net: Network, s: State, st: Step)
    requires Ready(net) && Shape(net, s) && Enabled(net, s, st)
    ensures Valid(net, s, [st]) && After(net, s, [st]) == Apply(net, s, st)
  {
    assert [st][1..] == [];
    assert Valid(net, Apply(net, s, st), []);
  }

  lemma {:induction false} CancelledNetworkFinishes(net: Network, s: State) returns (steps: seq<Step>)
    requires Ready(net) && Inv(net, s) && s.cancelled
    ensures Valid(net, s, steps) && AllExited(After(net, s, steps))
    decreases Measure(net, s)
  {
    steps := [];
    if !AllExited(s) {
      CancelledNetworkMoves(net, s);
      var st: Step :| IsGoroutineStep(st) && Enabled(net, s, st);
      StepInv(net, s, st);
      StepLowersMeasure(net, s, st);
      var rest := CancelledNetworkFinishes(net, Apply(net, s, st));
      steps := [st] + rest;
    }
  }

  /** The consumer may leave and the context may be cancelled at any point of any run,
      and from there everything can be brought to its end. */
  lemma CanAlwaysShutDown(net: Network, before: seq<Step>) returns (steps: seq<Step>)
    requires Ready(net) && Valid(net, Init(net), before)
    ensures Valid(net, After(net, Init(net), before), steps)
    ensures AllExited(After(net, After(net, Init(net), before), steps))
    ensures ConsumerEnd !in before ==> ConsumerLeave in before + steps
    ensures Cancel in before + steps
  {
    InitInv(net);
    RunInv(net, Init(net), before);
    OnlyStepsCancelOrLeave(net, before);
    var s := After(net, Init(net), before);
    var leave := if s.consumer.Ranging? then [ConsumerLeave] else [];
    if s.consumer.Ranging? {
      OneStep(net, s, ConsumerLeave);
    }
    RunInv(net, s, leave);
    var t := After(net, s, leave);
    var cancel := if t.cancelled then [] else [Cancel];
    if !t.cancelled {
      OneStep(net, t, Cancel);
    }
    RunInv(net, t, cancel);
    var rest := CancelledNetworkFinishes(net, After(net, t, cancel));
    RunThenRun(net, t, cancel, rest);
    RunThenRun(net, s, leave, cancel + rest);
    steps := leave + (cancel + rest);
    assert Cancel in before + steps;
  }

  lemma {:induction false} AbandonedSenderIsStuck(net: Network, s: State, steps: seq<Step>, i: nat)
    requires Ready(net) && OnlyConsumerReadsSink(net) && Shape(net, s) && Valid(net, s, steps)
    requires s.consumer.Left? && !s.cancelled && Cancel !in steps
    requires i < |s.procs| && s.procs[i].pc.Sending? && net.routines[i].out == net.sink
    ensures After(net, s, steps).procs[i] == s.procs[i]
    decreases |steps|
  {
    if steps != [] {
      assert steps == [steps[0]] + steps[1..];
      assert steps[0].Handoff? ==> ReaderOf(net, steps[0].to, net.routines[steps[0].from].out);
      AbandonedSenderIsStuck(net, Apply(net, s, steps[0]), steps[1..], i);
    }
  }

  /** Why `cancel()` is there: once the consumer has left while a stage wants to send
      to it, the goroutines of a run that goes as far as it can have all exited if
      and only if the context was cancelled; otherwise that stage blocks forever. */
  lemma CancelIsNeeded(net: Network, s: State, steps: seq<Step>, i: nat)
    requires Ready(net) && OnlyConsumerReadsSink(net) && Inv(net, s) && Valid(net, s, steps)
    requires s.consumer.Left? && !s.cancelled
    requires i < |s.procs| && s.procs[i].pc.Sending? && net.routines[i].out == net.sink
    requires forall st: Step :: IsGoroutineStep(st) ==> !Enabled(net, After(net, s, steps), st)
    ensures AllExited(After(net, s, steps)) <==> Cancel in steps
  {
    RunFlags(net, s, steps);
    RunInv(net, s, steps);
    if Cancel !in steps {
      AbandonedSenderIsStuck(net, s, steps, i);
      assert !After(net, s, steps).procs[i].pc.Exited?;
    } else if !AllExited(After(net, s, steps)) {
      CancelledNetworkMoves(net, After(net, s, steps));
    }
  }

  /** Every channel has somebody ranging over it. */
  ghost predicate EveryChannelRead(net: Network) {
    forall c | 0 <= c < |net.owner| && c != net.sink :: HasReader(net, c)
  }

  ghost predicate HasReader(net: Network, c: nat) {
    exists i :: 0 <= i < |net.routines| && ReaderOf(net, i, c)
  }

  ghost predicate ReaderOf(net: Network, i: nat, c: nat)
    requires i < |net.routines|
  {
    Reads(net.routines[i].role) && net.routines[i].role.input == c
  }

  lemma {:induction false} LatestSender(net: Network, s: State, i: nat) returns (e: nat)
    requires Ready(net) && Inv(net, s) && i < |s.procs| && s.procs[i].pc.Sending?
    ensures e < |s.procs| && s.procs[e].pc.Sending?
    ensures forall j | 0 <= j < |s.procs| && s.procs[j].pc.Sending? :: net.routines[j].out <= net.routines[e].out
    decreases |net.owner| - net.routines[i].out
  {
    if j :| 0 <= j < |s.procs| && s.procs[j].pc.Sending? && net.routines[j].out > net.routines[i].out {
      assert WiredAt(net, i) && WiredAt(net, j);
      e := LatestSender(net, s, j);
    } else {
      e := i;
    }
  }

  /** A consumer that keeps draining is never starved: until the consumer's range
      has ended and every goroutine has exited, something can move. */
  lemma DrainedNetworkMoves(net: Network, s: State) returns (st: Step)
    requires Ready(net) && EveryChannelRead(net) && Inv(net, s) && !s.cancelled && !s.consumer.Left?
    requires s.consumer.Ranging? || !AllExited(s)
    ensures !st.ConsumerLeave? && !st.Cancel? && Enabled(net, s, st)
  {
    if i :| 0 <= i < |s.procs| && s.procs[i].pc.Sending? {
      var e := LatestSender(net, s, i);
      var c := net.routines[e].out;
      SenderFindsOpenChannel(net, s, e);
      if c == net.sink {
        st := Deliver(e);
      } else {
        assert HasReader(net, c);
        var r :| 0 <= r < |net.routines| && ReaderOf(net, r, c);
        assert ProcOk(net, s, r);
        st := Handoff(e, r);
      }
    } else if j :| 0 <= j < |s.procs| && !s.procs[j].pc.Exited? {
      var e := EarliestExists(net, s, j);
      st := EarliestMoves(net, s, e);
    } else {
      assert ChannelOk(net, s, net.sink);
      st := ConsumerEnd;
    }
  }

  /** Without cancellation, with a consumer that ranges to the end and a reader on
      every channel, a run that cannot be continued has ended properly: the
      consumer's range is over, every goroutine has exited and every channel is
      closed. */
  lemma DrainedNetworkTerminates(net: Network, steps: seq<Step>)
    requires Ready(net) && EveryChannelRead(net) && Valid(net, Init(net), steps)
    ensures |steps| <= Measure(net, Init(net))
    ensures var s := After(net, Init(net), steps);
            (Cancel !in steps && ConsumerLeave !in steps
             && forall st: Step :: !st.ConsumerLeave? && !st.Cancel? ==> !Enabled(net, s, st))
            ==> s.consumer.Finished? && AllExited(s) && forall c | 0 <= c < |net.owner| :: s.closes[c] == 1
  {
    InitInv(net);
    RunInv(net, Init(net), steps);
    RunsAreBounded(net, Init(net), steps);
    OnlyStepsCancelOrLeave(net, steps);
    var s := After(net, Init(net), steps);
    if !s.cancelled && !s.consumer.Left? && (s.consumer.Ranging? || !AllExited(s)) {
      var st := DrainedNetworkMoves(net, s);
    }
    forall c | 0 <= c < |net.owner| && AllExited(s) ensures s.closes[c] == 1 { assert ChannelOk(net, s, c); }
  }

  // ------------------------------------------------ what the channels carried

  function Squares(xs: seq<int>): (ys: seq<int>)
    ensures |ys| == |xs|
  {
    seq(|xs|, i requires 0 <= i < |xs| => xs[i] * xs[i])
  }

  ghost predicate SoleReader(net: Network, i: nat, c: nat)
    requires i < |net.routines|
  {
    && c != net.sink && ReaderOf(net, i, c)
    && forall j | 0 <= j < |net.routines| && ReaderOf(net, j, c) :: j == i
  }

  ghost predicate OnlyConsumerReadsSink(net: Network) {
    forall j | 0 <= j < |net.routines| :: !ReaderOf(net, j, net.sink)
  }

  /** A producer with the values `all` to send has sent `out` so far. */
  ghost predicate Produced(p: Proc, out: seq<int>, all: seq<int>, rest: seq<int>, cancelled: bool) {
    match p.pc
    case Head => out + rest == all
    case Sending(v) => out + [v] + rest == all
    case _ => out <= all && (!cancelled ==> out == all)
  }

  ghost predicate HistoryOk(net: Network, s: State, i: nat)
    requires Ready(net) && Shape(net, s) && i < |s.procs|
  {
    var g := net.routines[i];
    var p := s.procs[i];
    && WiredAt(net, i)
    && (g.role.Gen? ==> Produced(p, s.sent[g.out], g.role.nums, p.rest, s.cancelled))
    && (g.role.Square? ==> Produced(p, s.sent[g.out], Squares(p.got), [], s.cancelled))
    && (Reads(g.role) && SoleReader(net, i, g.role.input) ==> p.got == s.sent[g.role.input])
  }

  ghost predicate History(net: Network, s: State)
    requires Ready(net) && Shape(net, s)
  {
    && (forall i | 0 <= i < |s.procs| :: HistoryOk(net, s, i))
    && (OnlyConsumerReadsSink(net) ==> s.delivered == s.sent[net.sink])
  }

  lemma HandoffHistory(net: Network, s: State, a: nat, b: nat, i: nat)
    requires Ready(net) && Shape(net, s) && Enabled(net, s, Handoff(a, b)) && i < |s.procs|
    requires HistoryOk(net, s, i) && WiredAt(net, a)
    ensures HistoryOk(net, Apply(net, s, Handoff(a, b)), i)
  {
    var t := Apply(net, s, Handoff(a, b));
    var c := net.routines[a].out;
    assert ReaderOf(net, b, c);
    if i == b && net.routines[i].role.Square? {
      assert Squares(t.procs[i].got) == Squares(s.procs[i].got) + [t.procs[i].pc.v];
    }
  }

  lemma OtherHistory(net: Network, s: State, st: Step, i: nat)
    requires Ready(net) && Shape(net, s) && Enabled(net, s, st) && !st.Handoff? && i < |s.procs|
    requires HistoryOk(net, s, i) && (st.Deliver? ==> WiredAt(net, st.from))
    ensures HistoryOk(net, Apply(net, s, st), i)
  {
  }

  lemma StepHistory(net: Network, s: State, st: Step)
    requires Ready(net) && Inv(net, s) && Enabled(net, s, st) && History(net, s)
    ensures History(net, Apply(net, s, st))
  {
    var t := Apply(net, s, st);
    forall i | 0 <= i < |t.procs| ensures HistoryOk(net, t, i) {
      if st.Handoff? {
        HandoffHistory(net, s, st.from, st.to, i);
      } else {
        OtherHistory(net, s, st, i);
      }
    }
    if st.Handoff? && OnlyConsumerReadsSink(net) {
      assert !ReaderOf(net, st.to, net.sink);
    }
  }

  lemma {:induction false} RunHistory(net: Network, s: State, steps: seq<Step>)
    requires Ready(net) && Inv(net, s) && Valid(net, s, steps) && History(net, s)
    ensures History(net, After(net, s, steps))
    decreases |steps|
  {
    if steps != [] {
      StepInv(net, s, steps[0]);
      StepHistory(net, s, steps[0]);
      RunHistory(net, Apply(net, s, steps[0]), steps[1..]);
    }
  }

  lemma InitHistory(net: Network)
    requires Ready(net)
    ensures History(net, Init(net))
  {
    forall i | 0 <= i < |net.routines| ensures HistoryOk(net, Init(net), i) { assert WiredAt(net, i); }
  }

  ghost predicate LinearShape(net: Network, nums: seq<int>) {
    var n := |net.routines|;
    && n >= 1 && |net.owner| == n && net.sink == n - 1
    && net.routines[0] == Goroutine(Gen(nums), 0)
    && (forall i | 1 <= i < n :: net.routines[i] == Goroutine(Square(i - 1), i))
    && (forall i | 0 <= i < n :: net.owner[i] == i)
  }

  /** A linear pipeline: a generator followed by any number of `square` stages. */
  ghost predicate Linear(net: Network, nums: seq<int>): (r: bool)
    ensures r ==> Ready(net)
  {
    LinearShape(net, nums) && (LinearIsReady(net, nums); true)
  }

  function LinearNetwork(stages: nat, nums: seq<int>): (net: Network)
    ensures Ready(net)
    ensures |net.owner| == stages + 1
  {
    if stages == 0 then
      GenKeepsWiring(Network([], [], 0), nums);
      AddGen(Network([], [], 0), nums)
    else
      var net := LinearNetwork(stages - 1, nums);
      ConstructorsKeepWiring(net, nums, stages - 1, []);
      SinkKeepsWiring(AddSquare(net, stages - 1), stages);
      AddSquare(net, stages - 1).(sink := stages)
  }

  /** Composing the constructors the way `linearPipeline` does gives such a network. */
  lemma {:induction false} LinearNetworkIsLinear(stages: nat, nums: seq<int>)
    ensures |LinearNetwork(stages, nums).routines| == stages + 1 && Linear(LinearNetwork(stages, nums), nums)
  {
    if stages > 0 {
      LinearNetworkIsLinear(stages - 1, nums);
    }
  }

  function SquaresTimes(k: nat, xs: seq<int>): (ys: seq<int>)
    ensures |ys| == |xs|
  {
    if k == 0 then xs else Squares(SquaresTimes(k - 1, xs))
  }

  lemma LinearIsReady(net: Network, nums: seq<int>)
    requires LinearShape(net, nums)
    ensures Ready(net) && OnlyConsumerReadsSink(net)
    ensures forall i | 1 <= i < |net.routines| :: SoleReader(net, i, net.routines[i].role.input)
  {
    forall i | 0 <= i < |net.routines| ensures WiredAt(net, i) {}
  }

  /** Channel `i` carries a prefix of the input mapped `i` times, and all of it once
      it is closed without a cancellation. */
  lemma {:induction false} LinearChannel(net: Network, nums: seq<int>, s: State, i: nat)
    requires Linear(net, nums) && Inv(net, s) && History(net, s) && i < |net.routines|
    ensures s.sent[i] <= SquaresTimes(i, nums)
    ensures s.closes[i] > 0 && !s.cancelled ==> s.sent[i] == SquaresTimes(i, nums)
  {
    LinearIsReady(net, nums);
    assert HistoryOk(net, s, i) && ProcOk(net, s, i) && ChannelOk(net, s, i);
    if i > 0 {
      LinearChannel(net, nums, s, i - 1);
      assert s.procs[i].got == s.sent[i - 1];
      SquaresPrefix(s.sent[i - 1], SquaresTimes(i - 1, nums));
    }
  }

  lemma SquaresPrefix(xs: seq<int>, ys: seq<int>)
    requires xs <= ys
    ensures Squares(xs) <= Squares(ys)
  {
  }

  /** The consumer of a linear pipeline sees a prefix of the mapped input in every
      reachable state, cancelled or not. If nobody cancelled, the goroutines can
      all have exited only after the whole of it was delivered; so a consumer that
      leaves early leaks goroutines unless somebody cancels. */
  lemma LinearDeliversPrefix(net: Network, nums: seq<int>, steps: seq<Step>)
    requires Linear(net, nums) && Valid(net, Init(net), steps)
    ensures var s := After(net, Init(net), steps);
            && s.delivered <= SquaresTimes(net.sink, nums)
            && (Cancel !in steps && (AllExited(s) || ConsumerEnd in steps) ==>
                  s.delivered == SquaresTimes(net.sink, nums))
  {
    OnlyStepsCancelOrLeave(net, steps);
    LinearIsReady(net, nums);
    InitInv(net);
    RunInv(net, Init(net), steps);
    InitHistory(net);
    RunHistory(net, Init(net), steps);
    var s := After(net, Init(net), steps);
    LinearChannel(net, nums, s, net.sink);
    assert ChannelOk(net, s, net.sink);
  }

  /** `gen` followed by one `square`, as `linearPipeline` and `earlyCancellation` chain
      them: what the consumer has after k values are the squares of the first k
      numbers, and with 1 to 5 and nobody stopping early it ends with 1 4 9 16 25. */
  lemma SquarePipelinePrints(nums: seq<int>, steps: seq<Step>)
    requires Valid(LinearNetwork(1, nums), Init(LinearNetwork(1, nums)), steps)
    ensures var net := LinearNetwork(1, nums);
            var s := After(net, Init(net), steps);
            && |s.delivered| <= |nums|
            && (forall k | 0 <= k < |s.delivered| :: s.delivered[k] == nums[k] * nums[k])
            && (Cancel !in steps && ConsumerEnd in steps && nums == [1, 2, 3, 4, 5] ==>
                  s.delivered == [1, 4, 9, 16, 25])
  {
    var net := LinearNetwork(1, nums);
    LinearNetworkIsLinear(1, nums);
    LinearDeliversPrefix(net, nums, steps);
    assert SquaresTimes(0, nums) == nums && SquaresTimes(1, nums) == Squares(nums);
  }

  // ------------------------------------------------------------ conservation

  /** `hit(c, v)` selects values on channels. It is consistent if no stage changes
      whether the value it passes on is selected; "will be `x` when it reaches the
      consumer" is such a selection. */
  ghost predicate Consistent(net: Network, hit: (nat, int) -> bool) {
    forall i, v: int | 0 <= i < |net.routines| && Reads(net.routines[i].role) ::
      hit(net.routines[i].role.input, v) == hit(net.routines[i].out, Emit(net.routines[i].role, v))
  }

  function Hits(hit: (nat, int) -> bool, c: nat, vs: seq<int>): nat {
    if vs == [] then 0 else (if hit(c, vs[0]) then 1 else 0) + Hits(hit, c, vs[1..])
  }

  /** The selected values a goroutine holds: the one it is trying to send, and its
      numbers not yet taken. */
  function Holding(hit: (nat, int) -> bool, g: Goroutine, p: Proc): nat {
    (if p.pc.Sending? && hit(g.out, p.pc.v) then 1 else 0) + Hits(hit, g.out, p.rest)
  }

  ghost function Held(net: Network, hit: (nat, int) -> bool, procs: seq<Proc>, n: nat): nat
    requires n <= |procs| == |net.routines|
  {
    if n == 0 then 0
    else Held(net, hit, procs, n - 1) + Holding(hit, net.routines[n - 1], procs[n - 1])
  }

  function Lost(hit: (nat, int) -> bool, dropped: seq<(nat, int)>): nat {
    if dropped == [] then 0
    else
      var (c, v) := dropped[|dropped| - 1];
      Lost(hit, dropped[..|dropped| - 1]) + if hit(c, v) then 1 else 0
  }

  /** The selected inputs of all generators. */
  ghost function Inputs(net: Network, hit: (nat, int) -> bool, n: nat): nat
    requires n <= |net.routines|
  {
    if n == 0 then 0
    else
      var g := net.routines[n - 1];
      Inputs(net, hit, n - 1) + if g.role.Gen? then Hits(hit, g.out, g.role.nums) else 0
  }

  ghost predicate Conserved(net: Network, hit: (nat, int) -> bool, s: State)
    requires Shape(net, s)
  {
    Hits(hit, net.sink, s.delivered) + Held(net, hit, s.procs, |s.procs|) + Lost(hit, s.dropped)
    == Inputs(net, hit, |net.routines|)
  }

  lemma {:induction false} HeldUpdate(net: Network, hit: (nat, int) -> bool, procs: seq<Proc>, i: nat, p: Proc, n: nat)
    requires i < |procs| == |net.routines| && n <= |procs|
    ensures i >= n ==> Held(net, hit, procs[i := p], n) == Held(net, hit, procs, n)
    ensures i < n ==>
              Held(net, hit, procs[i := p], n) + Holding(hit, net.routines[i], procs[i])
              == Held(net, hit, procs, n) + Holding(hit, net.routines[i], p)
  {
    if n > 0 {
      HeldUpdate(net, hit, procs, i, p, n - 1);
    }
  }

  lemma {:induction false} HitsAppend(hit: (nat, int) -> bool, c: nat, vs: seq<int>, v: int)
    ensures Hits(hit, c, vs + [v]) == Hits(hit, c, vs) + if hit(c, v) then 1 else 0
  {
    if vs == [] {
      assert vs + [v] == [v];
    } else {
      HitsAppend(hit, c, vs[1..], v);
      assert (vs + [v])[1..] == vs[1..] + [v];
    }
  }

  lemma HandoffConserves(net: Network, hit: (nat, int) -> bool, s: State, a: nat, b: nat)
    requires Ready(net) && Inv(net, s) && Enabled(net, s, Handoff(a, b)) && Consistent(net, hit)
    ensures Held(net, hit, Apply(net, s, Handoff(a, b)).procs, |s.procs|) == Held(net, hit, s.procs, |s.procs|)
  {
    assert WiredAt(net, a) && WiredAt(net, b);
    var t := Apply(net, s, Handoff(a, b));
    var mid := s.procs[a := s.procs[a].(pc := Head)];
    assert t.procs == mid[b := t.procs[b]];
    HeldUpdate(net, hit, s.procs, a, mid[a], |s.procs|);
    HeldUpdate(net, hit, mid, b, t.procs[b], |s.procs|);
  }

  lemma OneHolds(net: Network, hit: (nat, int) -> bool, s: State, i: nat, p: Proc)
    requires Shape(net, s) && i < |s.procs|
    ensures Held(net, hit, s.procs[i := p], |s.procs|) + Holding(hit, net.routines[i], s.procs[i])
            == Held(net, hit, s.procs, |s.procs|) + Holding(hit, net.routines[i], p)
  {
    HeldUpdate(net, hit, s.procs, i, p, |s.procs|);
  }

  lemma DeliverConserves(net: Network, hit: (nat, int) -> bool, s: State, i: nat)
    requires Ready(net) && Shape(net, s) && Enabled(net, s, Deliver(i)) && Conserved(net, hit, s)
    ensures Conserved(net, hit, Apply(net, s, Deliver(i)))
  {
    OneHolds(net, hit, s, i, s.procs[i].(pc := Head));
    HitsAppend(hit, net.sink, s.delivered, s.procs[i].pc.v);
  }

  lemma AbandonConserves(net: Network, hit: (nat, int) -> bool, s: State, i: nat)
    requires Ready(net) && Shape(net, s) && Enabled(net, s, Abandon(i)) && Conserved(net, hit, s)
    ensures Conserved(net, hit, Apply(net, s, Abandon(i)))
  {
    var t := Apply(net, s, Abandon(i));
    OneHolds(net, hit, s, i, t.procs[i]);
    assert t.dropped[..|t.dropped| - 1] == s.dropped;
  }

  /** Steps that neither pass a value on nor drop one. */
  lemma QuietConserves(net: Network, hit: (nat, int) -> bool, s: State, i: nat, p: Proc)
    requires Shape(net, s) && i < |s.procs| && Conserved(net, hit, s)
    requires Holding(hit, net.routines[i], p) == Holding(hit, net.routines[i], s.procs[i])
    ensures Conserved(net, hit, s.(procs := s.procs[i := p]))
  {
    OneHolds(net, hit, s, i, p);
  }

  /** No step creates, duplicates or changes a value: whatever is not delivered is
      held, not yet taken, or was dropped by a `ctx.Done()` arm. */
  lemma StepConserves(net: Network, hit: (nat, int) -> bool, s: State, st: Step)
    requires Ready(net) && Inv(net, s) && Enabled(net, s, st) && Consistent(net, hit) && Conserved(net, hit, s)
    ensures Conserved(net, hit, Apply(net, s, st))
  {
    var t := Apply(net, s, st);
    match st {
      case Handoff(a, b) => HandoffConserves(net, hit, s, a, b);
      case Deliver(i) => DeliverConserves(net, hit, s, i);
      case Abandon(i) => AbandonConserves(net, hit, s, i);
      case Next(i) => QuietConserves(net, hit, s, i, t.procs[i]);
      case SeeClosed(i) => QuietConserves(net, hit, s, i, t.procs[i]);
      case Waited(i) => QuietConserves(net, hit, s, i, t.procs[i]);
      case Close(i) => QuietConserves(net, hit, s, i, t.procs[i]);
      case _ =>
    }
  }

  lemma {:induction false} InitConserves(net: Network, hit: (nat, int) -> bool, n: nat)
    requires Ready(net) && n <= |net.routines|
    ensures Held(net, hit, Init(net).procs, n) == Inputs(net, hit, n)
  {
    if n > 0 {
      InitConserves(net, hit, n - 1);
    }
  }

  /** Conservation over whole runs, for every network, schedule and consistent
      selection of values, cancelled or not. */
  lemma {:induction false} RunConserves(net: Network, hit: (nat, int) -> bool, s: State, steps: seq<Step>)
    requires Ready(net) && Inv(net, s) && Valid(net, s, steps) && Consistent(net, hit) && Conserved(net, hit, s)
    ensures Conserved(net, hit, After(net, s, steps))
    decreases |steps|
  {
    if steps != [] {
      StepInv(net, s, steps[0]);
      StepConserves(net, hit, s, steps[0]);
      RunConserves(net, hit, Apply(net, s, steps[0]), steps[1..]);
    }
  }

  /** `level[c]` squarings lie between channel `c` and the consumer, on every path. */
  ghost predicate Levels(net: Network, level: seq<nat>) {
    && |level| == |net.owner| && net.sink < |level| && level[net.sink] == 0
    && forall i | 0 <= i < |net.routines| && WiredAt(net, i) ::
         && (net.routines[i].role.Square? ==> level[net.routines[i].role.input] == level[net.routines[i].out] + 1)
         && (net.routines[i].role.Forwarder? ==> level[net.routines[i].role.input] == level[net.routines[i].out])
  }

  function Final(k: nat, v: int): int {
    if k == 0 then v else Final(k - 1, v * v)
  }

  /** Selects the values that will be `x` when they reach the consumer. */
  function Becomes(level: seq<nat>, x: int): (nat, int) -> bool {
    (c: nat, v: int) => c < |level| && Final(level[c], v) == x
  }

  function Finals(k: nat, vs: seq<int>): multiset<int> {
    if vs == [] then multiset{} else multiset{Final(k, vs[0])} + Finals(k, vs[1..])
  }

  /** Every input, squared as often as its channel's level says. */
  ghost function InputFinals(net: Network, level: seq<nat>, n: nat): multiset<int>
    requires n <= |net.routines|
  {
    if n == 0 then multiset{}
    else
      var g := net.routines[n - 1];
      InputFinals(net, level, n - 1)
      + if g.role.Gen? && g.out < |level| then Finals(level[g.out], g.role.nums) else multiset{}
  }

  lemma {:induction false} HitsAreMultiplicity(level: seq<nat>, x: int, c: nat, vs: seq<int>)
    requires c < |level|
    ensures Hits(Becomes(level, x), c, vs) == Finals(level[c], vs)[x]
  {
    if vs != [] {
      HitsAreMultiplicity(level, x, c, vs[1..]);
    }
  }

  lemma {:induction false} InputsAreMultiplicity(net: Network, level: seq<nat>, x: int, n: nat)
    requires Ready(net) && n <= |net.routines| && |level| == |net.owner|
    ensures Inputs(net, Becomes(level, x), n) == InputFinals(net, level, n)[x]
  {
    if n > 0 {
      InputsAreMultiplicity(net, level, x, n - 1);
      var g := net.routines[n - 1];
      assert WiredAt(net, n - 1);
      if g.role.Gen? {
        HitsAreMultiplicity(level, x, g.out, g.role.nums);
      }
    }
  }

  lemma {:induction false} FinalsOfDelivered(vs: seq<int>)
    ensures Finals(0, vs) == multiset(vs)
  {
    if vs != [] {
      FinalsOfDelivered(vs[1..]);
      assert vs == [vs[0]] + vs[1..];
    }
  }

  lemma {:induction false} ExitedHoldNothing(net: Network, hit: (nat, int) -> bool, s: State, n: nat)
    requires Ready(net) && Inv(net, s) && n <= |s.procs| && !s.cancelled && AllExited(s)
    ensures Held(net, hit, s.procs, n) == 0
  {
    if n > 0 {
      ExitedHoldNothing(net, hit, s, n - 1);
      assert ProcOk(net, s, n - 1);
    }
  }

  lemma {:induction false} NothingDroppedBeforeCancel(net: Network, s: State, steps: seq<Step>)
    requires Ready(net) && Shape(net, s) && Valid(net, s, steps)
    requires !s.cancelled ==> s.dropped == []
    ensures !After(net, s, steps).cancelled ==> After(net, s, steps).dropped == []
    decreases |steps|
  {
    if steps != [] {
      NothingDroppedBeforeCancel(net, Apply(net, s, steps[0]), steps[1..]);
    }
  }

  /** Fan-out and fan-in lose and invent nothing. In every reachable state each
      number `x` is delivered, still held upstream, or dropped after a cancellation
      as often as the inputs call for; and when every goroutine has exited without
      a cancellation, the consumer has exactly the mapped inputs. */
  lemma FanInConserves(net: Network, level: seq<nat>, steps: seq<Step>, x: int)
    requires Ready(net) && Levels(net, level) && Valid(net, Init(net), steps)
    ensures var s := After(net, Init(net), steps);
            var expected := InputFinals(net, level, |net.routines|);
            var hit := Becomes(level, x);
            && multiset(s.delivered)[x] + Held(net, hit, s.procs, |s.procs|) + Lost(hit, s.dropped) == expected[x]
            && (Cancel !in steps ==> s.dropped == [])
            && (Cancel !in steps && AllExited(s) ==> multiset(s.delivered)[x] == expected[x])
  {
    OnlyStepsCancelOrLeave(net, steps);
    var hit := Becomes(level, x);
    forall i, v: int | 0 <= i < |net.routines| && Reads(net.routines[i].role)
      ensures hit(net.routines[i].role.input, v) == hit(net.routines[i].out, Emit(net.routines[i].role, v))
    {
      assert WiredAt(net, i);
    }
    InitInv(net);
    InitConserves(net, hit, |net.routines|);
    RunInv(net, Init(net), steps);
    RunConserves(net, hit, Init(net), steps);
    NothingDroppedBeforeCancel(net, Init(net), steps);
    var s := After(net, Init(net), steps);
    HitsAreMultiplicity(level, x, net.sink, s.delivered);
    FinalsOfDelivered(s.delivered);
    InputsAreMultiplicity(net, level, x, |net.routines|);
    if !s.cancelled && AllExited(s) {
      ExitedHoldNothing(net, hit, s, |s.procs|);
    }
  }

  /** The network of `fanInPipeline`: two `square` stages share one generator and
      `merge` fans them in again. */
  function FanInNetwork(nums: seq<int>): (net: Network)
    ensures Ready(net)
  {
    var none := Network([], [], 0);
    var one := AddGen(none, nums);
    var two := AddSquare(one, 0);
    var three := AddSquare(two, 0);
    GenKeepsWiring(none, nums);
    ConstructorsKeepWiring(one, nums, 0, []);
    ConstructorsKeepWiring(two, nums, 0, []);
    ConstructorsKeepWiring(three, nums, 0, [1, 2]);
    SinkKeepsWiring(AddMerge(three, [1, 2]), 3);
    AddMerge(three, [1, 2]).(sink := 3)
  }

  lemma FanInShape(nums: seq<int>)
    ensures var net := FanInNetwork(nums);
            && |net.routines| == 6 && |net.owner| == 4 && net.sink == 3
            && net.routines[0] == Goroutine(Gen(nums), 0)
            && net.routines[1] == Goroutine(Square(0), 1)
            && net.routines[2] == Goroutine(Square(0), 2)
            && net.routines[3] == Goroutine(Forwarder(1), 3)
            && net.routines[4] == Goroutine(Forwarder(2), 3)
            && net.routines[5] == Goroutine(Closer(3, 5), 3)
  {
    var two := AddSquare(AddSquare(AddGen(Network([], [], 0), nums), 0), 0);
    assert two.routines == [Goroutine(Gen(nums), 0), Goroutine(Square(0), 1), Goroutine(Square(0), 2)];
    assert |two.owner| == 3;
  }

  lemma SinkKeepsWiring(net: Network, c: nat)
    requires WellFormed(net) && c < |net.owner|
    ensures Ready(net.(sink := c))
  {
    var m := net.(sink := c);
    forall i | 0 <= i < |m.routines| ensures WiredAt(m, i) { assert WiredAt(net, i); }
  }

  lemma FanInChannels(nums: seq<int>)
    ensures EveryChannelRead(FanInNetwork(nums)) && Levels(FanInNetwork(nums), [1, 0, 0, 0])
  {
    var net := FanInNetwork(nums);
    FanInShape(nums);
    assert ReaderOf(net, 1, 0) && ReaderOf(net, 3, 1) && ReaderOf(net, 4, 2);
    forall c | 0 <= c < |net.owner| && c != net.sink ensures HasReader(net, c) {}
  }

  lemma FanInFinals(nums: seq<int>)
    ensures InputFinals(FanInNetwork(nums), [1, 0, 0, 0], |FanInNetwork(nums).routines|) == multiset(Squares(nums))
  {
    var net := FanInNetwork(nums);
    var level := [1, 0, 0, 0];
    FanInShape(nums);
    FinalsOnce(nums);
    OnlyGenCounts(net, level, 6);
    assert InputFinals(net, level, 1) == Finals(1, nums);
  }

  lemma {:induction false} OnlyGenCounts(net: Network, level: seq<nat>, n: nat)
    requires 1 <= n <= |net.routines|
    requires forall i | 1 <= i < n :: !net.routines[i].role.Gen?
    ensures InputFinals(net, level, n) == InputFinals(net, level, 1)
  {
    if n > 1 {
      OnlyGenCounts(net, level, n - 1);
    }
  }

  /** `fanInPipeline` always ends, and then it has printed the squares of its
      numbers, each as often as it occurs. */
  lemma FanInPipelineDeliversSquares(nums: seq<int>, steps: seq<Step>)
    requires Valid(FanInNetwork(nums), Init(FanInNetwork(nums)), steps)
    ensures var net := FanInNetwork(nums);
            var s := After(net, Init(net), steps);
            && (Cancel !in steps && ConsumerLeave !in steps
                && (forall st: Step :: !st.ConsumerLeave? && !st.Cancel? ==> !Enabled(net, s, st))
                ==> AllExited(s))
            && (Cancel !in steps && AllExited(s) ==> multiset(s.delivered) == multiset(Squares(nums)))
  {
    var net := FanInNetwork(nums);
    FanInChannels(nums);
    FanInFinals(nums);
    DrainedNetworkTerminates(net, steps);
    var s := After(net, Init(net), steps);
    forall x: int | Cancel !in steps && AllExited(s) ensures multiset(s.delivered)[x] == multiset(Squares(nums))[x] {
      FanInConserves(net, [1, 0, 0, 0], steps, x);
    }
  }

  const ONE_TO_TEN := [1, 2, 3, 4, 5, 6, 7, 8, 9, 10]

  /** With the numbers of the program: whatever the order, each square once. */
  lemma FanInPipelinePrints(nums: seq<int>, steps: seq<Step>)
    requires nums == ONE_TO_TEN && Valid(FanInNetwork(nums), Init(FanInNetwork(nums)), steps)
    requires Cancel !in steps && AllExited(After(FanInNetwork(nums), Init(FanInNetwork(nums)), steps))
    ensures multiset(After(FanInNetwork(nums), Init(FanInNetwork(nums)), steps).delivered)
            == multiset([1, 4, 9, 16, 25, 36, 49, 64, 81, 100])
  {
    FanInPipelineDeliversSquares(nums, steps);
    TenSquares(nums);
  }

  lemma TenSquares(nums: seq<int>)
    requires nums == ONE_TO_TEN
    ensures Squares(nums) == [1, 4, 9, 16, 25, 36, 49, 64, 81, 100]
  {
  }

  lemma {:induction false} FinalsOnce(vs: seq<int>)
    ensures Finals(1, vs) == multiset(Squares(vs))
  {
    if vs != [] {
      FinalsOnce(vs[1..]);
      assert Squares(vs) == [vs[0] * vs[0]] + Squares(vs[1..]);
      assert Final(1, vs[0]) == vs[0] * vs[0];
    }
  }
}
