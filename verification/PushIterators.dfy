/** Push iterators: an iterator is handed a `yield` function and calls it once per
    element until it answers false. Chains of filter, map and take stages push
    values from a source to a consumer that may stop at any point. */
module PushIterators {

  /** One combinator of a chain; stage 0 ranges over the source. */
  datatype Stage<!T> =
    | Filter(pred: T -> bool)
    | Map(f: T -> T)
    | Take(n: int)

  /** A consumer decides, from all it has received, whether it wants more. */
  type Consumer<!T> = seq<T> -> bool

  /** `calls[i]` logs the calls of the `yield` function that stage `i` (or, for the
      last one, the consumer) offers to what comes before it: the value passed and
      the answer. `counts` are the counters of the take stages, and `going` is the
      answer of the latest call. */
  datatype Chain<!T> = Chain(calls: seq<seq<(T, bool)>>, counts: seq<int>, going: bool)

  function Start<T>(stages: seq<Stage<T>>): Chain<T> {
    Chain(seq(|stages| + 1, _ => []), seq(|stages|, _ => 0), true)
  }

  function Values<T>(log: seq<(T, bool)>): (vs: seq<T>)
    ensures |vs| == |log|
  {
    seq(|log|, k requires 0 <= k < |log| => log[k].0)
  }

  predicate Shape<T>(stages: seq<Stage<T>>, c: Chain<T>) {
    |c.calls| == |stages| + 1 && |c.counts| == |stages|
  }

  function Answer<T>(c: Chain<T>, i: nat, v: T): (d: Chain<T>)
    requires i < |c.calls|
    ensures |d.calls| == |c.calls| && d.counts == c.counts && d.going == c.going
  {
    c.(calls := c.calls[i := c.calls[i] + [(v, c.going)]])
  }

  /** A call of the `yield` function of stage `i` with `v`: the body of that stage's
      range loop. */
  function Yield<T>(stages: seq<Stage<T>>, i: nat, c: Chain<T>, v: T, more: Consumer<T>): (d: Chain<T>)
    requires i <= |stages| && Shape(stages, c)
    ensures Shape(stages, d)
    decreases |stages| - i
  {
    var body :=
      if i == |stages| then c.(going := more(Values(c.calls[i]) + [v]))
      else match stages[i]
        case Filter(pred) => if pred(v) then Yield(stages, i + 1, c, v, more) else c.(going := true)
        case Map(f) => Yield(stages, i + 1, c, f(v), more)
        case Take(n) =>
          if c.counts[i] >= n then c.(going := false)
          else
            var d := Yield(stages, i + 1, c, v, more);
            if d.going then d.(counts := d.counts[i := d.counts[i] + 1]) else d;
    Answer(body, i, v)
  }

  /** The source's loop over `xs`: it stops as soon as `yield` answers false. */
  function Drive<T>(stages: seq<Stage<T>>, c: Chain<T>, xs: seq<T>, more: Consumer<T>): (d: Chain<T>)
    requires Shape(stages, c)
    ensures Shape(stages, d)
    decreases |xs|
  {
    if xs == [] || !c.going then c
    else Drive(stages, Yield(stages, 0, c, xs[0], more), xs[1..], more)
  }

  /** What the consumer of a chain has received. */
  function Seen<T>(stages: seq<Stage<T>>, c: Chain<T>): seq<T>
    requires Shape(stages, c)
  {
    Values(c.calls[|stages|])
  }

  // ------------------------------------------------------------ list meaning

  function Select<T>(pred: T -> bool, xs: seq<T>): seq<T> {
    if xs == [] then []
    else Select(pred, xs[..|xs| - 1]) + if pred(xs[|xs| - 1]) then [xs[|xs| - 1]] else []
  }

  function Image<V, W>(f: V -> W, xs: seq<V>): (ys: seq<W>)
    ensures |ys| == |xs|
  {
    seq(|xs|, k requires 0 <= k < |xs| => f(xs[k]))
  }

  /** How many elements `Take(n)` passes on at most; a negative `n` is like zero. */
  function Limit(n: int): nat {
    if n < 0 then 0 else n
  }

  function AtMost(n: nat, k: nat): nat {
    if n < k then n else k
  }

  function StageMeaning<T>(st: Stage<T>, xs: seq<T>): seq<T> {
    match st
    case Filter(pred) => Select(pred, xs)
    case Map(f) => Image(f, xs)
    case Take(n) => xs[..AtMost(Limit(n), |xs|)]
  }

  /** Filtering is decided element by element, and keeps the order. */
  lemma {:induction false} SelectIs<T>(pred: T -> bool, xs: seq<T>, ys: seq<T>, x: T)
    ensures Select(pred, xs + ys) == Select(pred, xs) + Select(pred, ys)
    ensures Select(pred, [x]) == if pred(x) then [x] else []
  {
    assert [x][..0] == [];
    if ys == [] {
      assert xs + ys == xs;
    } else {
      SelectIs(pred, xs, ys[..|ys| - 1], x);
      assert (xs + ys)[..|xs + ys| - 1] == xs + ys[..|ys| - 1];
    }
  }

  /** The lists that the first `i` stages of a chain make of `xs`. */
  function Meaning<T>(stages: seq<Stage<T>>, i: nat, xs: seq<T>): seq<T>
    requires i <= |stages|
  {
    if i == 0 then xs else StageMeaning(stages[i - 1], Meaning(stages, i - 1, xs))
  }

  // ---------------------------------------------------------- the invariants

  /** Every answer but the last was true: nobody was called again after a false. */
  predicate StopsAfterFalse<T>(log: seq<(T, bool)>) {
    forall k | 0 <= k < |log| - 1 :: log[k].1
  }

  predicate AllTrue<T>(log: seq<(T, bool)>) {
    forall k | 0 <= k < |log| :: log[k].1
  }

  /** Stage `i` has passed on what it means to pass on, and a take stage counts it and
      refuses the first element too many. */
  ghost predicate StageOk<T>(stages: seq<Stage<T>>, c: Chain<T>, i: nat)
    requires Shape(stages, c) && i < |stages|
  {
    && Values(c.calls[i + 1]) == StageMeaning(stages[i], Values(c.calls[i]))
    && (stages[i].Take? && c.going ==> c.counts[i] == |c.calls[i]| == |c.calls[i + 1]|)
    && (stages[i].Take? ==> |c.calls[i]| <= Limit(stages[i].n) + if AllTrue(c.calls[i]) then 0 else 1)
  }

  ghost predicate Inv<T>(stages: seq<Stage<T>>, c: Chain<T>, from: nat)
    requires Shape(stages, c)
  {
    && (forall i | from <= i < |stages| :: StageOk(stages, c, i))
    && (forall i | from <= i <= |stages| :: StopsAfterFalse(c.calls[i]) && (c.going ==> AllTrue(c.calls[i])))
  }

  lemma ValuesAppend<T>(log: seq<(T, bool)>, e: (T, bool))
    ensures Values(log + [e]) == Values(log) + [e.0]
  {
  }

  lemma SelectAppend<T>(pred: T -> bool, xs: seq<T>, v: T)
    ensures Select(pred, xs + [v]) == Select(pred, xs) + if pred(v) then [v] else []
  {
    assert (xs + [v])[..|xs|] == xs;
  }

  /** Logging a call at level `i`, once its body left the later levels in order and
      passed on what the stage means to pass on. */
  lemma AnswerInv<T>(stages: seq<Stage<T>>, i: nat, log: seq<(T, bool)>, body: Chain<T>, v: T)
    requires i < |stages| && Shape(stages, body) && Inv(stages, body, i + 1)
    requires body.calls[i] == log && AllTrue(log)
    requires Values(body.calls[i + 1]) == StageMeaning(stages[i], Values(log) + [v])
    requires stages[i].Take? ==> |log| <= Limit(stages[i].n)
    requires stages[i].Take? && body.going ==> body.counts[i] == |log| + 1 == |body.calls[i + 1]|
    ensures Inv(stages, Answer(body, i, v), i)
  {
    var d := Answer(body, i, v);
    ValuesAppend(log, (v, body.going));
    forall k | i < k < |stages| ensures StageOk(stages, d, k) { assert StageOk(stages, body, k); }
  }

  lemma RefusedInv<T>(stages: seq<Stage<T>>, c: Chain<T>, from: nat)
    requires Shape(stages, c) && Inv(stages, c, from)
    ensures Inv(stages, c.(going := false), from)
  {
    var d := c.(going := false);
    forall k | from <= k < |stages| ensures StageOk(stages, d, k) { assert StageOk(stages, c, k); }
  }

  lemma CountedInv<T>(stages: seq<Stage<T>>, c: Chain<T>, i: nat)
    requires Shape(stages, c) && i < |stages| && Inv(stages, c, i + 1)
    ensures Inv(stages, c.(counts := c.counts[i := c.counts[i] + 1]), i + 1)
  {
    var d := c.(counts := c.counts[i := c.counts[i] + 1]);
    forall k | i < k < |stages| ensures StageOk(stages, d, k) { assert StageOk(stages, c, k); }
  }

  /** A call at level `i` touches only the logs and counters from level `i` on, logs
      one call at level `i`, and keeps every stage from there on in order. */
  ghost predicate Called<T>(stages: seq<Stage<T>>, i: nat, c: Chain<T>, v: T, d: Chain<T>)
    requires i <= |stages| && Shape(stages, c) && Shape(stages, d)
  {
    && Inv(stages, d, i)
    && d.calls[i] == c.calls[i] + [(v, d.going)]
    && (forall k | 0 <= k < i :: d.calls[k] == c.calls[k] && d.counts[k] == c.counts[k])
  }

  lemma FilterCalled<T>(stages: seq<Stage<T>>, i: nat, c: Chain<T>, v: T, more: Consumer<T>)
    requires i < |stages| && Shape(stages, c) && c.going && Inv(stages, c, i) && stages[i].Filter?
    requires stages[i].pred(v) ==> Called(stages, i + 1, c, v, Yield(stages, i + 1, c, v, more))
    ensures Called(stages, i, c, v, Yield(stages, i, c, v, more))
  {
    var log := c.calls[i];
    assert StageOk(stages, c, i);
    SelectAppend(stages[i].pred, Values(log), v);
    var body := c;
    if stages[i].pred(v) {
      body := Yield(stages, i + 1, c, v, more);
      ValuesAppend(c.calls[i + 1], (v, body.going));
    }
    AnswerInv(stages, i, log, body, v);
    assert Yield(stages, i, c, v, more) == Answer(body, i, v);
  }

  lemma MapCalled<T>(stages: seq<Stage<T>>, i: nat, c: Chain<T>, v: T, more: Consumer<T>)
    requires i < |stages| && Shape(stages, c) && c.going && Inv(stages, c, i) && stages[i].Map?
    requires Called(stages, i + 1, c, stages[i].f(v), Yield(stages, i + 1, c, stages[i].f(v), more))
    ensures Called(stages, i, c, v, Yield(stages, i, c, v, more))
  {
    var log, f := c.calls[i], stages[i].f;
    assert StageOk(stages, c, i);
    var body := Yield(stages, i + 1, c, f(v), more);
    ValuesAppend(c.calls[i + 1], (f(v), body.going));
    assert Image(f, Values(log) + [v]) == Image(f, Values(log)) + [f(v)];
    AnswerInv(stages, i, log, body, v);
    assert Yield(stages, i, c, v, more) == Answer(body, i, v);
  }

  lemma TakeCalled<T>(stages: seq<Stage<T>>, i: nat, c: Chain<T>, v: T, more: Consumer<T>)
    requires i < |stages| && Shape(stages, c) && c.going && Inv(stages, c, i) && stages[i].Take?
    requires c.counts[i] < stages[i].n ==> Called(stages, i + 1, c, v, Yield(stages, i + 1, c, v, more))
    ensures Called(stages, i, c, v, Yield(stages, i, c, v, more))
  {
    var log, n := c.calls[i], stages[i].n;
    assert StageOk(stages, c, i);
    var body;
    if c.counts[i] < n {
      body := Yield(stages, i + 1, c, v, more);
      ValuesAppend(c.calls[i + 1], (v, body.going));
      if body.going {
        CountedInv(stages, body, i);
        body := body.(counts := body.counts[i := body.counts[i] + 1]);
      }
    } else {
      RefusedInv(stages, c, i + 1);
      body := c.(going := false);
    }
    AnswerInv(stages, i, log, body, v);
    assert Yield(stages, i, c, v, more) == Answer(body, i, v);
  }

  lemma {:induction false} YieldInv<T>(stages: seq<Stage<T>>, i: nat, c: Chain<T>, v: T, more: Consumer<T>)
    requires i <= |stages| && Shape(stages, c) && c.going && Inv(stages, c, i)
    ensures Called(stages, i, c, v, Yield(stages, i, c, v, more))
    decreases |stages| - i
  {
    if i < |stages| {
      match stages[i] {
        case Filter(pred) =>
          if pred(v) {
            YieldInv(stages, i + 1, c, v, more);
          }
          FilterCalled(stages, i, c, v, more);
        case Map(f) =>
          YieldInv(stages, i + 1, c, f(v), more);
          MapCalled(stages, i, c, v, more);
        case Take(n) =>
          if c.counts[i] < n {
            YieldInv(stages, i + 1, c, v, more);
          }
          TakeCalled(stages, i, c, v, more);
      }
    }
  }

  lemma InitInv<T>(stages: seq<Stage<T>>)
    ensures Inv(stages, Start(stages), 0)
  {
    var c := Start(stages);
    forall i | 0 <= i < |stages| ensures StageOk(stages, c, i) {}
  }

  /** The source's loop keeps every stage in order, and what it pulled is a prefix of
      what it has; it stops early only because it was told to. */
  lemma {:induction false} DriveInv<T>(stages: seq<Stage<T>>, c: Chain<T>, xs: seq<T>, more: Consumer<T>)
    requires Shape(stages, c) && Inv(stages, c, 0)
    ensures var d := Drive(stages, c, xs, more);
            && Inv(stages, d, 0)
            && Values(c.calls[0]) <= Values(d.calls[0]) <= Values(c.calls[0]) + xs
            && (d.going ==> Values(d.calls[0]) == Values(c.calls[0]) + xs)
    decreases |xs|
  {
    if xs != [] && c.going {
      YieldInv(stages, 0, c, xs[0], more);
      var d := Yield(stages, 0, c, xs[0], more);
      ValuesAppend(c.calls[0], (xs[0], d.going));
      DriveInv(stages, d, xs[1..], more);
      assert Values(d.calls[0]) + xs[1..] == Values(c.calls[0]) + xs;
    }
  }

  lemma {:induction false} SeenIsMeaning<T>(stages: seq<Stage<T>>, c: Chain<T>, i: nat)
    requires Shape(stages, c) && Inv(stages, c, 0) && i <= |stages|
    ensures Values(c.calls[i]) == Meaning(stages, i, Values(c.calls[0]))
  {
    if i > 0 {
      SeenIsMeaning(stages, c, i - 1);
      assert StageOk(stages, c, i - 1);
    }
  }

  lemma {:induction false} SelectPrefix<T>(pred: T -> bool, xs: seq<T>, ys: seq<T>)
    requires xs <= ys
    ensures Select(pred, xs) <= Select(pred, ys)
    decreases |ys|
  {
    if xs != ys {
      SelectPrefix(pred, xs, ys[..|ys| - 1]);
    }
  }

  lemma {:induction false} MeaningPrefix<T>(stages: seq<Stage<T>>, i: nat, xs: seq<T>, ys: seq<T>)
    requires i <= |stages| && xs <= ys
    ensures Meaning(stages, i, xs) <= Meaning(stages, i, ys)
  {
    if i > 0 {
      MeaningPrefix(stages, i - 1, xs, ys);
      match stages[i - 1] {
        case Filter(pred) => SelectPrefix(pred, Meaning(stages, i - 1, xs), Meaning(stages, i - 1, ys));
        case Map(f) =>
        case Take(n) =>
      }
    }
  }

  /** For every chain, source and consumer that stops at any point: the consumer saw
      exactly what the chain means on the elements pulled so far, which is a prefix
      of what it means on the whole source; nobody was called again after it
      answered false; and a run that nobody stopped saw everything. */
  lemma ChainsAreLazy<T>(stages: seq<Stage<T>>, xs: seq<T>, more: Consumer<T>)
    ensures var d := Drive(stages, Start(stages), xs, more);
            var pulled := Values(d.calls[0]);
            && pulled <= xs
            && Seen(stages, d) == Meaning(stages, |stages|, pulled) <= Meaning(stages, |stages|, xs)
            && (forall i | 0 <= i <= |stages| :: StopsAfterFalse(d.calls[i]))
            && (d.going ==> pulled == xs)
  {
    var d := Drive(stages, Start(stages), xs, more);
    InitInv(stages);
    DriveInv(stages, Start(stages), xs, more);
    assert Values(Start(stages).calls[0]) + xs == xs;
    SeenIsMeaning(stages, d, |stages|);
    MeaningPrefix(stages, |stages|, Values(d.calls[0]), xs);
  }

  // ------------------------------------------------------- why a run stopped

  predicate SaidNo<T>(log: seq<(T, bool)>) {
    log != [] && !log[|log| - 1].1
  }

  /** Stage `i` is a take that was offered one element too many. */
  predicate Overfed<T>(stages: seq<Stage<T>>, c: Chain<T>, i: nat)
    requires Shape(stages, c) && i < |stages|
  {
    stages[i].Take? && |c.calls[i]| == Limit(stages[i].n) + 1
  }

  /** Stage `k`, or the consumer, is the one that said no: everybody before it passed
      its answer back, and everybody after it has answered true only. */
  ghost predicate Blamed<T>(stages: seq<Stage<T>>, c: Chain<T>, from: nat, k: nat)
    requires Shape(stages, c)
  {
    && from <= k <= |stages|
    && (forall j | from <= j <= k :: SaidNo(c.calls[j]))
    && (forall j | k < j <= |stages| :: AllTrue(c.calls[j]))
    && (k < |stages| ==> Overfed(stages, c, k))
  }

  lemma TakeRefuses<T>(stages: seq<Stage<T>>, i: nat, c: Chain<T>, v: T, more: Consumer<T>)
    requires i < |stages| && Shape(stages, c) && c.going && Inv(stages, c, i)
    requires stages[i].Take? && c.counts[i] >= stages[i].n
    ensures Blamed(stages, Yield(stages, i, c, v, more), i, i)
  {
    assert StageOk(stages, c, i);
    var d := Yield(stages, i, c, v, more);
    assert d == Answer(c.(going := false), i, v);
  }

  lemma BlamePassesBack<T>(stages: seq<Stage<T>>, d: Chain<T>, e: Chain<T>, i: nat, k: nat)
    requires i < |stages| && Shape(stages, d) && Shape(stages, e) && Blamed(stages, d, i + 1, k)
    requires SaidNo(e.calls[i]) && forall j | i < j <= |stages| :: e.calls[j] == d.calls[j]
    ensures Blamed(stages, e, i, k)
  {
  }

  lemma {:induction false} YieldStops<T>(stages: seq<Stage<T>>, i: nat, c: Chain<T>, v: T, more: Consumer<T>)
    returns (k: nat)
    requires i <= |stages| && Shape(stages, c) && c.going && Inv(stages, c, i)
    ensures Yield(stages, i, c, v, more).going || Blamed(stages, Yield(stages, i, c, v, more), i, k)
    decreases |stages| - i
  {
    var d := Yield(stages, i, c, v, more);
    k := i;
    if i < |stages| && !d.going {
      if stages[i].Take? && c.counts[i] >= stages[i].n {
        TakeRefuses(stages, i, c, v, more);
      } else {
        var w := if stages[i].Map? then stages[i].f(v) else v;
        var inner := Yield(stages, i + 1, c, w, more);
        k := YieldStops(stages, i + 1, c, w, more);
        BlamePassesBack(stages, inner, d, i, k);
      }
    }
  }

  lemma {:induction false} DriveStops<T>(stages: seq<Stage<T>>, c: Chain<T>, xs: seq<T>, more: Consumer<T>)
    returns (k: nat)
    requires Shape(stages, c) && c.going && Inv(stages, c, 0)
    ensures Drive(stages, c, xs, more).going || Blamed(stages, Drive(stages, c, xs, more), 0, k)
    decreases |xs|
  {
    k := 0;
    if xs != [] {
      YieldInv(stages, 0, c, xs[0], more);
      k := YieldStops(stages, 0, c, xs[0], more);
      if Yield(stages, 0, c, xs[0], more).going {
        k := DriveStops(stages, Yield(stages, 0, c, xs[0], more), xs[1..], more);
      }
    }
  }

  lemma {:induction false} FullHidesTheRest<T>(stages: seq<Stage<T>>, k: nat, i: nat, xs: seq<T>, ys: seq<T>)
    requires k < i <= |stages| && xs <= ys
    requires stages[k].Take? && stages[k].n <= |Meaning(stages, k + 1, xs)|
    ensures Meaning(stages, i, xs) == Meaning(stages, i, ys)
  {
    if i == k + 1 {
      MeaningPrefix(stages, k, xs, ys);
    } else {
      FullHidesTheRest(stages, k, i - 1, xs, ys);
    }
  }

  /** After a stop, what stage `i` was offered is its whole meaning if the blame lies
      before it. */
  lemma OfferedEverything<T>(stages: seq<Stage<T>>, d: Chain<T>, xs: seq<T>, k: nat, i: nat)
    requires Shape(stages, d) && Inv(stages, d, 0) && Values(d.calls[0]) <= xs
    requires k < i <= |stages| && Overfed(stages, d, k)
    ensures Values(d.calls[i]) == Meaning(stages, i, xs)
  {
    assert StageOk(stages, d, k);
    SeenIsMeaning(stages, d, k + 1);
    SeenIsMeaning(stages, d, i);
    FullHidesTheRest(stages, k, i, Values(d.calls[0]), xs);
  }

  /** A consumer that never answers false gets the whole meaning of the chain, even
      where a take stage stopped the source early. */
  lemma WillingConsumerSeesAll<T>(stages: seq<Stage<T>>, xs: seq<T>, more: Consumer<T>)
    requires !SaidNo(Drive(stages, Start(stages), xs, more).calls[|stages|])
    ensures Seen(stages, Drive(stages, Start(stages), xs, more)) == Meaning(stages, |stages|, xs)
  {
    var d := Drive(stages, Start(stages), xs, more);
    ChainsAreLazy(stages, xs, more);
    InitInv(stages);
    DriveInv(stages, Start(stages), xs, more);
    var k := DriveStops(stages, Start(stages), xs, more);
    if !d.going {
      assert k < |stages|;
      OfferedEverything(stages, d, xs, k, |stages|);
    }
  }

  // ------------------------------------------ what the consumer's answers decide

  /** Every answer logged is the consumer's, given all it had received by then. */
  predicate Answered<T>(log: seq<(T, bool)>, more: Consumer<T>) {
    forall k | 0 <= k < |log| :: log[k].1 == more(Values(log)[..k + 1])
  }

  lemma AnsweredAppend<T>(log: seq<(T, bool)>, v: T, more: Consumer<T>)
    requires Answered(log, more)
    ensures Answered(log + [(v, more(Values(log) + [v]))], more)
  {
    var next := log + [(v, more(Values(log) + [v]))];
    ValuesAppend(log, (v, more(Values(log) + [v])));
    forall k | 0 <= k < |next| ensures next[k].1 == more(Values(next)[..k + 1]) {
      if k < |log| {
        assert Values(next)[..k + 1] == Values(log)[..k + 1];
      } else {
        assert Values(next)[..k + 1] == Values(log) + [v];
      }
    }
  }

  lemma {:induction false} YieldAnswers<T>(stages: seq<Stage<T>>, i: nat, c: Chain<T>, v: T, more: Consumer<T>)
    requires i <= |stages| && Shape(stages, c) && Answered(c.calls[|stages|], more)
    ensures Answered(Yield(stages, i, c, v, more).calls[|stages|], more)
    decreases |stages| - i
  {
    if i == |stages| {
      AnsweredAppend(c.calls[i], v, more);
    } else {
      YieldAnswers(stages, i + 1, c, if stages[i].Map? then stages[i].f(v) else v, more);
    }
  }

  lemma {:induction false} DriveAnswers<T>(stages: seq<Stage<T>>, c: Chain<T>, xs: seq<T>, more: Consumer<T>)
    requires Shape(stages, c) && Answered(c.calls[|stages|], more)
    ensures Answered(Drive(stages, c, xs, more).calls[|stages|], more)
    decreases |xs|
  {
    if xs != [] && c.going {
      YieldAnswers(stages, 0, c, xs[0], more);
      DriveAnswers(stages, Yield(stages, 0, c, xs[0], more), xs[1..], more);
    }
  }

  /** How much of `ys` a consumer receives that already has the first `m` elements. */
  function Wanted<T>(ys: seq<T>, m: nat, more: Consumer<T>): (w: nat)
    requires m <= |ys|
    ensures m <= w <= |ys|
    decreases |ys| - m
  {
    if m == |ys| then m else if more(ys[..m + 1]) then Wanted(ys, m + 1, more) else m + 1
  }

  lemma {:induction false} WantedIs<T>(ys: seq<T>, m: nat, more: Consumer<T>, w: nat)
    requires m <= w <= |ys|
    requires forall k | m < k < w :: more(ys[..k])
    requires if m < w then w == |ys| || !more(ys[..w]) else w == |ys|
    ensures Wanted(ys, m, more) == w
    decreases w - m
  {
    if m < w && more(ys[..m + 1]) {
      WantedIs(ys, m + 1, more, w);
    }
  }

  /** The chain is its list meaning, whatever its stages and the consumer: of the list
      that the chain means on the whole source, the consumer receives everything up
      to and including the first element it answers false to, and nothing else. */
  lemma ConsumerGetsWhatItWants<T>(stages: seq<Stage<T>>, xs: seq<T>, more: Consumer<T>)
    ensures var ys := Meaning(stages, |stages|, xs);
            Seen(stages, Drive(stages, Start(stages), xs, more)) == ys[..Wanted(ys, 0, more)]
  {
    var d := Drive(stages, Start(stages), xs, more);
    var ys := Meaning(stages, |stages|, xs);
    var log := d.calls[|stages|];
    ChainsAreLazy(stages, xs, more);
    DriveAnswers(stages, Start(stages), xs, more);
    forall k | 0 < k < |log| ensures more(ys[..k]) {
      assert log[k - 1].1 && Values(log)[..k] == ys[..k];
    }
    if SaidNo(log) {
      assert Values(log)[..|log|] == ys[..|log|];
    } else {
      WillingConsumerSeesAll(stages, xs, more);
    }
    WantedIs(ys, 0, more, |log|);
  }

  // ------------------------------------------------ how much a chain pulls

  /** What a take stage pulls from what comes before it, in any chain: the elements it
      passes on and, if there is one, the element at which it notices it is done. It
      pulls less only if what comes after it refused an element. */
  lemma TakePulls<T>(stages: seq<Stage<T>>, xs: seq<T>, more: Consumer<T>, i: nat)
    requires i < |stages| && stages[i].Take?
    requires AllTrue(Drive(stages, Start(stages), xs, more).calls[i + 1])
    ensures |Drive(stages, Start(stages), xs, more).calls[i]|
            == AtMost(Limit(stages[i].n) + 1, |Meaning(stages, i, xs)|)
  {
    var d := Drive(stages, Start(stages), xs, more);
    ChainsAreLazy(stages, xs, more);
    InitInv(stages);
    DriveInv(stages, Start(stages), xs, more);
    assert StageOk(stages, d, i);
    SeenIsMeaning(stages, d, i);
    var k := DriveStops(stages, Start(stages), xs, more);
    if !d.going {
      assert k <= i by { assert k > i ==> SaidNo(d.calls[i + 1]); }
      if k < i {
        OfferedEverything(stages, d, xs, k, i);
      } else {
        MeaningPrefix(stages, i, Values(d.calls[0]), xs);
      }
    }
  }

  lemma {:induction false} MeaningOfFront<T>(stages: seq<Stage<T>>, st: Stage<T>, i: nat, xs: seq<T>)
    requires i <= |stages|
    ensures Meaning(stages + [st], i, xs) == Meaning(stages, i, xs)
  {
    if i > 0 {
      MeaningOfFront(stages, st, i - 1, xs);
    }
  }

  /** The same for a take stage at the end of a chain, as the examples build it, and a
      consumer that never answers false. */
  lemma TakePullsOneMore<T>(stages: seq<Stage<T>>, n: int, xs: seq<T>, more: Consumer<T>)
    requires forall ys: seq<T> :: more(ys)
    ensures var all := stages + [Take(n)];
            |Drive(all, Start(all), xs, more).calls[|stages|]|
            == AtMost(Limit(n) + 1, |Meaning(stages, |stages|, xs)|)
  {
    var all := stages + [Take(n)];
    var log := Drive(all, Start(all), xs, more).calls[|all|];
    DriveAnswers(all, Start(all), xs, more);
    assert AllTrue(log);
    TakePulls(all, xs, more, |stages|);
    MeaningOfFront(stages, Take(n), |stages|, xs);
  }

  // ------------------------------------------------ when a chain stops its source

  /** The consumer refuses some prefix of what the chain means on `xs`, or some take
      stage is offered more than it takes. */
  ghost predicate Stops<T>(stages: seq<Stage<T>>, xs: seq<T>, more: Consumer<T>) {
    || (exists m :: 0 < m <= |Meaning(stages, |stages|, xs)| && !more(Meaning(stages, |stages|, xs)[..m]))
    || (exists k :: 0 <= k < |stages| && TakesLess(stages, k, xs))
  }

  predicate TakesLess<T>(stages: seq<Stage<T>>, k: nat, xs: seq<T>)
    requires k < |stages|
  {
    stages[k].Take? && Limit(stages[k].n) < |Meaning(stages, k, xs)|
  }

  /** Exactly when a chain tells a source with the elements `xs` to stop. */
  lemma StopsExactlyWhen<T>(stages: seq<Stage<T>>, xs: seq<T>, more: Consumer<T>)
    ensures !Drive(stages, Start(stages), xs, more).going <==> Stops(stages, xs, more)
  {
    var d := Drive(stages, Start(stages), xs, more);
    ChainsAreLazy(stages, xs, more);
    InitInv(stages);
    DriveInv(stages, Start(stages), xs, more);
    DriveAnswers(stages, Start(stages), xs, more);
    var k := DriveStops(stages, Start(stages), xs, more);
    var log := d.calls[|stages|];
    if !d.going {
      if k == |stages| {
        assert Values(log)[..|log|] == Meaning(stages, |stages|, xs)[..|log|];
      } else {
        SeenIsMeaning(stages, d, k);
        MeaningPrefix(stages, k, Values(d.calls[0]), xs);
        assert TakesLess(stages, k, xs);
      }
    } else {
      forall m | 0 < m <= |log| ensures more(Meaning(stages, |stages|, xs)[..m]) {
        assert log[m - 1].1;
      }
      forall j | 0 <= j < |stages| ensures !TakesLess(stages, j, xs) {
        assert StageOk(stages, d, j);
        SeenIsMeaning(stages, d, j);
      }
    }
  }

  /** Once stopped, a chain does not depend on what else the source has. */
  lemma {:induction false} StoppedIgnoresRest<T>(stages: seq<Stage<T>>, c: Chain<T>, xs: seq<T>, ys: seq<T>,
                                                 more: Consumer<T>)
    requires Shape(stages, c) && xs <= ys && !Drive(stages, c, xs, more).going
    ensures Drive(stages, c, ys, more) == Drive(stages, c, xs, more)
    decreases |xs|
  {
    if c.going {
      StoppedIgnoresRest(stages, Yield(stages, 0, c, xs[0], more), xs[1..], ys[1..], more);
    }
  }

  /** One call of a single stage's `yield`, spelled out. */
  lemma OneStage<T>(st: Stage<T>, c: Chain<T>, v: T, more: Consumer<T>)
    requires Shape([st], c) && c.going
    ensures var d := Yield([st], 0, c, v, more);
            var w := if st.Map? then st.f(v) else v;
            var wanted := more(Values(c.calls[1]) + [w]);
            var passed := match st case Filter(pred) => pred(v) case Map(_) => true case Take(n) => c.counts[0] < n;
            && d.calls[0] == c.calls[0] + [(v, d.going)]
            && (passed ==> d.going == wanted && d.calls[1] == c.calls[1] + [(w, wanted)])
            && (!passed ==> d.going == st.Filter? && d.calls[1] == c.calls[1])
            && d.counts[0] == c.counts[0] + if st.Take? && passed && wanted then 1 else 0
  {
    var w := if st.Map? then st.f(v) else v;
    var inner := Yield([st], 1, c, w, more);
    assert inner.calls[1] == c.calls[1] + [(w, inner.going)] && inner.calls[0] == c.calls[0];
    assert inner.counts == c.counts && inner.going == more(Values(c.calls[1]) + [w]);
    assert [st][0] == st;
    ValuesAppend(c.calls[1], (w, inner.going));
  }

  // ---------------------------------------------------------------- the loops

  /** `Filter`'s range loop over a source with the elements `xs`. */
  method RangeFilter<T>(xs: seq<T>, pred: T -> bool, more: Consumer<T>) returns (seen: seq<T>)
    ensures seen == Seen([Filter(pred)], Drive([Filter(pred)], Start([Filter(pred)]), xs, more))
  {
    ghost var stages := [Filter(pred)];
    ghost var c := Start(stages);
    seen := [];
    for k := 0 to |xs|
      invariant Shape(stages, c) && c.going && seen == Values(c.calls[1])
      invariant Drive(stages, Start(stages), xs, more) == Drive(stages, c, xs[k..], more)
    {
      assert xs[k..][1..] == xs[k + 1..];
      OneStage(Filter(pred), c, xs[k], more);
      ValuesAppend(c.calls[1], (xs[k], more(seen + [xs[k]])));
      c := Yield(stages, 0, c, xs[k], more);
      if pred(xs[k]) {
        seen := seen + [xs[k]];
        if !more(seen) {
          return;
        }
      }
    }
  }

  /** `Map`'s range loop, from any element type to any other, in front of a chain and
      its consumer: they get the mapped elements, one for each element pulled. */
  method RangeMap<V, W>(xs: seq<V>, f: V -> W, stages: seq<Stage<W>>, more: Consumer<W>)
    returns (c: Chain<W>, pulled: nat)
    ensures c == Drive(stages, Start(stages), Image(f, xs), more)
    ensures pulled == |c.calls[0]|
  {
    c, pulled := Start(stages), 0;
    for k := 0 to |xs|
      invariant Shape(stages, c) && c.going && pulled == |c.calls[0]|
      invariant Drive(stages, Start(stages), Image(f, xs), more) == Drive(stages, c, Image(f, xs)[k..], more)
    {
      assert Image(f, xs)[k..][1..] == Image(f, xs)[k + 1..];
      YieldLogs(stages, 0, c, f(xs[k]), more);
      c := Yield(stages, 0, c, f(xs[k]), more);
      pulled := pulled + 1;
      if !c.going {
        return;
      }
    }
  }

  /** A call of `yield` is logged once, whatever happens further down. */
  lemma {:induction false} YieldLogs<T>(stages: seq<Stage<T>>, i: nat, c: Chain<T>, v: T, more: Consumer<T>)
    requires i <= |stages| && Shape(stages, c)
    ensures forall k | 0 <= k < i :: Yield(stages, i, c, v, more).calls[k] == c.calls[k]
    ensures |Yield(stages, i, c, v, more).calls[i]| == |c.calls[i]| + 1
    decreases |stages| - i
  {
    if i < |stages| {
      YieldLogs(stages, i + 1, c, if stages[i].Map? then stages[i].f(v) else v, more);
    }
  }

  /** `c` is what is left of `b` without its first stage. */
  ghost predicate Behind<T>(b: Chain<T>, c: Chain<T>) {
    |b.calls| == |c.calls| + 1 && |b.counts| == |c.counts| + 1 && b.going == c.going
    && b.calls[1..] == c.calls && b.counts[1..] == c.counts
  }

  lemma AnswerBehind<T>(b: Chain<T>, c: Chain<T>, i: nat, v: T)
    requires i < |c.calls| && Behind(b, c)
    ensures Behind(Answer(b, i + 1, v), Answer(c, i, v))
  {
    assert b.calls[1..][i] == c.calls[i];
    assert Answer(b, i + 1, v).calls[1..] == Answer(c, i, v).calls;
  }

  lemma CountBehind<T>(b: Chain<T>, c: Chain<T>, i: nat)
    requires i < |c.counts| && Behind(b, c)
    ensures b.counts[i + 1] == c.counts[i]
    ensures Behind(b.(counts := b.counts[i + 1 := b.counts[i + 1] + 1]), c.(counts := c.counts[i := c.counts[i] + 1]))
  {
    assert b.counts[1..][i] == c.counts[i];
    assert b.counts[i + 1 := b.counts[i + 1] + 1][1..] == c.counts[i := c.counts[i] + 1];
  }

  lemma {:induction false} YieldBehind<T>(st: Stage<T>, stages: seq<Stage<T>>, i: nat, b: Chain<T>, c: Chain<T>,
                                          v: T, more: Consumer<T>)
    requires i <= |stages| && Shape(stages, c) && Shape([st] + stages, b) && Behind(b, c)
    ensures Behind(Yield([st] + stages, i + 1, b, v, more), Yield(stages, i, c, v, more))
    decreases |stages| - i, 1
  {
    var all := [st] + stages;
    if i == |stages| {
      assert b.calls[1..][i] == c.calls[i];
      var going := more(Values(c.calls[i]) + [v]);
      AnswerBehind(b.(going := going), c.(going := going), i, v);
    } else {
      assert all[i + 1] == stages[i];
      CountBehind(b, c, i);
      match stages[i] {
        case Filter(pred) =>
          if pred(v) {
            YieldBehind(st, stages, i + 1, b, c, v, more);
            AnswerBehind(Yield(all, i + 2, b, v, more), Yield(stages, i + 1, c, v, more), i, v);
          } else {
            AnswerBehind(b.(going := true), c.(going := true), i, v);
          }
        case Map(f) =>
          YieldBehind(st, stages, i + 1, b, c, f(v), more);
          AnswerBehind(Yield(all, i + 2, b, f(v), more), Yield(stages, i + 1, c, f(v), more), i, v);
        case Take(n) =>
          TakeBehind(st, stages, i, b, c, v, more);
      }
    }
  }

  lemma {:induction false} TakeBehind<T>(st: Stage<T>, stages: seq<Stage<T>>, i: nat, b: Chain<T>, c: Chain<T>,
                                         v: T, more: Consumer<T>)
    requires i < |stages| && stages[i].Take? && Shape(stages, c) && Shape([st] + stages, b) && Behind(b, c)
    ensures Behind(Yield([st] + stages, i + 1, b, v, more), Yield(stages, i, c, v, more))
    decreases |stages| - i, 0
  {
    var all := [st] + stages;
    assert all[i + 1] == stages[i];
    CountBehind(b, c, i);
    if c.counts[i] >= stages[i].n {
      AnswerBehind(b.(going := false), c.(going := false), i, v);
    } else {
      YieldBehind(st, stages, i + 1, b, c, v, more);
      var b2, c2 := Yield(all, i + 2, b, v, more), Yield(stages, i + 1, c, v, more);
      if c2.going {
        CountBehind(b2, c2, i);
        AnswerBehind(b2.(counts := b2.counts[i + 1 := b2.counts[i + 1] + 1]),
                     c2.(counts := c2.counts[i := c2.counts[i] + 1]), i, v);
      } else {
        AnswerBehind(b2, c2, i, v);
      }
    }
  }

  lemma {:induction false} DriveBehindMap<T>(f: T -> T, stages: seq<Stage<T>>, b: Chain<T>, c: Chain<T>, xs: seq<T>,
                                             more: Consumer<T>)
    requires Shape(stages, c) && Shape([Map(f)] + stages, b) && Behind(b, c)
    ensures Behind(Drive([Map(f)] + stages, b, xs, more), Drive(stages, c, Image(f, xs), more))
    decreases |xs|
  {
    if xs != [] && c.going {
      var all := [Map(f)] + stages;
      YieldBehind(Map(f), stages, 0, b, c, f(xs[0]), more);
      assert all[0] == Map(f);
      assert Image(f, xs)[1..] == Image(f, xs[1..]);
      DriveBehindMap(f, stages, Yield(all, 0, b, xs[0], more), Yield(stages, 0, c, f(xs[0]), more), xs[1..], more);
    }
  }

  /** A map stage at the front of a chain is the rest of the chain on the mapped list,
      call for call. */
  lemma MapStageIsImage<T>(f: T -> T, stages: seq<Stage<T>>, xs: seq<T>, more: Consumer<T>)
    ensures var all := [Map(f)] + stages;
            Drive(all, Start(all), xs, more).calls[1..] == Drive(stages, Start(stages), Image(f, xs), more).calls
  {
    var all := [Map(f)] + stages;
    assert Start(all).calls[1..] == Start(stages).calls && Start(all).counts[1..] == Start(stages).counts;
    DriveBehindMap(f, stages, Start(all), Start(stages), xs, more);
  }

  /** `Take`'s range loop, with its counter; `pulled` is how many elements it asked
      its source for. */
  method RangeTake<T>(xs: seq<T>, n: int, more: Consumer<T>) returns (seen: seq<T>, pulled: nat)
    ensures var d := Drive([Take(n)], Start([Take(n)]), xs, more);
            seen == Seen([Take(n)], d) && pulled == |d.calls[0]|
  {
    ghost var stages := [Take(n)];
    ghost var c := Start(stages);
    seen, pulled := [], 0;
    var count := 0;
    for k := 0 to |xs|
      invariant Shape(stages, c) && c.going && seen == Values(c.calls[1])
      invariant pulled == |c.calls[0]| && count == c.counts[0]
      invariant Drive(stages, Start(stages), xs, more) == Drive(stages, c, xs[k..], more)
    {
      assert xs[k..][1..] == xs[k + 1..];
      OneStage(Take(n), c, xs[k], more);
      ValuesAppend(c.calls[1], (xs[k], more(seen + [xs[k]])));
      c := Yield(stages, 0, c, xs[k], more);
      pulled := pulled + 1;
      if count >= n {
        return;
      }
      seen := seen + [xs[k]];
      if !more(seen) {
        return;
      }
      count := count + 1;
    }
  }

  function Upto(start: int, n: nat): (xs: seq<int>)
    ensures |xs| == n
    ensures forall k | 0 <= k < n :: xs[k] == start + k
    decreases n
  {
    if n == 0 then [] else [start] + Upto(start + 1, n - 1)
  }

  lemma {:induction false} UptoPrefix(start: int, m: nat, n: nat)
    requires m <= n
    ensures Upto(start, m) <= Upto(start, n)
    decreases m
  {
    if m > 0 {
      UptoPrefix(start + 1, m - 1, n - 1);
    }
  }

  /** A chain that stops after some naturals does the same after any more of them. */
  lemma SameStop(stages: seq<Stage<int>>, start: int, more: Consumer<int>, m: nat, n: nat)
    requires Stops(stages, Upto(start, m), more) && Stops(stages, Upto(start, n), more)
    ensures Drive(stages, Start(stages), Upto(start, m), more) == Drive(stages, Start(stages), Upto(start, n), more)
  {
    StopsExactlyWhen(stages, Upto(start, m), more);
    StopsExactlyWhen(stages, Upto(start, n), more);
    if m <= n {
      UptoPrefix(start, m, n);
      StoppedIgnoresRest(stages, Start(stages), Upto(start, m), Upto(start, n), more);
    } else {
      UptoPrefix(start, n, m);
      StoppedIgnoresRest(stages, Start(stages), Upto(start, n), Upto(start, m), more);
    }
  }

  /** `Naturals` feeding a chain, which has to stop it sometime: among the first
      naturals there are enough for a take stage or for the consumer. */
  method RangeNaturals(stages: seq<Stage<int>>, start: int, more: Consumer<int>) returns (seen: seq<int>)
    requires exists bound: nat :: Stops(stages, Upto(start, bound), more)
    ensures forall bound: nat | Stops(stages, Upto(start, bound), more) ::
              seen == Seen(stages, Drive(stages, Start(stages), Upto(start, bound), more)) <=
              Meaning(stages, |stages|, Upto(start, bound))
  {
    ghost var bound: nat :| Stops(stages, Upto(start, bound), more);
    StopsExactlyWhen(stages, Upto(start, bound), more);
    ghost var d := Drive(stages, Start(stages), Upto(start, bound), more);
    var c := Start(stages);
    var i := start;
    while c.going
      invariant start <= i <= start + bound && Shape(stages, c)
      invariant d == Drive(stages, c, Upto(i, start + bound - i), more)
      decreases start + bound - i, c.going
    {
      c := Yield(stages, 0, c, i, more);
      if c.going {
        i := i + 1;
      }
    }
    seen := Seen(stages, c);
    forall b: nat | Stops(stages, Upto(start, b), more)
      ensures seen == Seen(stages, Drive(stages, Start(stages), Upto(start, b), more)) <=
              Meaning(stages, |stages|, Upto(start, b))
    {
      SameStop(stages, start, more, bound, b);
      ChainsAreLazy(stages, Upto(start, b), more);
    }
  }

  function FirstOf(p: nat, start: int): int {
    if start % 2 == p then start else start + 1
  }

  lemma OneOfTwo(pred: int -> bool, p: nat, start: int, rest: seq<int>)
    requires p < 2 && (pred(start) <==> start % 2 == p) && (pred(start + 1) <==> (start + 1) % 2 == p)
    ensures Select(pred, [start] + ([start + 1] + rest)) == [FirstOf(p, start)] + Select(pred, rest)
  {
    SelectIs(pred, [start + 1], rest, start + 1);
    SelectIs(pred, [start], [start + 1] + rest, start);
  }

  function Pairs(start: int, n: nat): seq<int>
    decreases n
  {
    if n == 0 then [] else [start] + ([start + 1] + Pairs(start + 2, n - 1))
  }

  lemma {:induction false} UptoIsPairs(start: int, n: nat)
    ensures Upto(start, 2 * n) == Pairs(start, n)
    decreases n
  {
    if n > 0 {
      UptoIsPairs(start + 2, n - 1);
      assert Upto(start, 2 * n) == [start] + Upto(start + 1, 2 * n - 1);
    }
  }

  ghost predicate InTwos(ys: seq<int>, n: nat, first: int) {
    |ys| == n && forall j | 0 <= j < n :: ys[j] == first + 2 * j
  }

  lemma InTwosCons(ys: seq<int>, n: nat, first: int)
    requires InTwos(ys, n, first + 2)
    ensures InTwos([first] + ys, n + 1, first)
  {
  }

  lemma {:induction false} EveryOtherPair(pred: int -> bool, p: nat, start: int, n: nat)
    requires p < 2 && forall x :: pred(x) <==> x % 2 == p
    ensures InTwos(Select(pred, Pairs(start, n)), n, FirstOf(p, start))
    decreases n
  {
    if n > 0 {
      var rest := Pairs(start + 2, n - 1);
      EveryOtherPair(pred, p, start + 2, n - 1);
      OneOfTwo(pred, p, start, rest);
      InTwosCons(Select(pred, rest), n - 1, FirstOf(p, start));
    }
  }

  /** A filter that takes the even, or the odd, ones among the naturals from `start` on. */
  lemma EveryOther(pred: int -> bool, p: nat, start: int, n: nat)
    requires p < 2 && forall x :: pred(x) <==> x % 2 == p
    ensures InTwos(Select(pred, Upto(start, 2 * n)), n, FirstOf(p, start))
  {
    UptoIsPairs(start, n);
    EveryOtherPair(pred, p, start, n);
  }

  /** The program's loops, for any number of elements taken: the even numbers from 2 on, */
  lemma EvensOfNaturals(even: int -> bool, n: nat)
    requires forall x :: even(x) <==> x % 2 == 0
    ensures var evens := Meaning([Filter(even), Take(n)], 2, Upto(1, 2 * (n + 1)));
            |evens| == n && forall k | 0 <= k < n :: evens[k] == 2 * k + 2
  {
    var xs := Upto(1, 2 * (n + 1));
    EveryOther(even, 0, 1, n + 1);
    assert Meaning([Filter(even), Take(n)], 1, xs) == Select(even, xs);
  }

  /** the squares of the odd ones from 1 on, */
  lemma OddSquaresOfNaturals(odd: int -> bool, square: int -> int, n: nat)
    requires (forall x :: odd(x) <==> x % 2 == 1) && forall x :: square(x) == x * x
    ensures var squares := Meaning([Filter(odd), Map(square), Take(n)], 3, Upto(1, 2 * (n + 1)));
            |squares| == n && forall k | 0 <= k < n :: squares[k] == (2 * k + 1) * (2 * k + 1)
  {
    var xs := Upto(1, 2 * (n + 1));
    EveryOther(odd, 1, 1, n + 1);
    var odds := [Filter(odd), Map(square), Take(n)];
    assert Meaning(odds, 1, xs) == Select(odd, xs);
    assert Meaning(odds, 2, xs) == Image(square, Select(odd, xs));
  }

  /** and the naturals themselves. */
  lemma TakeOfNaturals(start: int, n: nat)
    ensures Meaning([Take(n)], 1, Upto(start, n + 1)) == Upto(start, n)
  {
    UptoPrefix(start, n, n + 1);
    assert Meaning([Take(n)], 0, Upto(start, n + 1)) == Upto(start, n + 1);
  }

  lemma TakeOfFilter(pred: int -> bool, n: int, xs: seq<int>, more: Consumer<int>)
    requires forall ys: seq<int> :: more(ys)
    ensures Stops([Filter(pred), Take(n)], xs, more) <==> Limit(n) < |Select(pred, xs)|
    ensures Seen([Filter(pred), Take(n)], Drive([Filter(pred), Take(n)], Start([Filter(pred), Take(n)]), xs, more))
            == Select(pred, xs)[..AtMost(Limit(n), |Select(pred, xs)|)]
  {
    var stages := [Filter(pred), Take(n)];
    assert Meaning(stages, 1, xs) == Select(pred, xs);
    assert TakesLess(stages, 1, xs) <==> Limit(n) < |Select(pred, xs)|;
    DriveAnswers(stages, Start(stages), xs, more);
    WillingConsumerSeesAll(stages, xs, more);
  }

  /** `Take(Filter(Naturals(start), pred), n)` with a consumer that wants everything
      comes back if and only if more than `n` naturals from `start` on satisfy `pred`.
      If there are just `n`, or fewer, the consumer gets all of them and the call
      then looks for another one forever. */
  lemma TakeReturnsExactlyWhen(pred: int -> bool, n: int, start: int, more: Consumer<int>)
    requires forall ys: seq<int> :: more(ys)
    ensures var stages := [Filter(pred), Take(n)];
            && ((exists bound: nat :: Stops(stages, Upto(start, bound), more)) <==>
                (exists bound: nat :: Limit(n) < |Select(pred, Upto(start, bound))|))
            && forall bound: nat | |Select(pred, Upto(start, bound))| <= Limit(n) ::
                 var d := Drive(stages, Start(stages), Upto(start, bound), more);
                 d.going && Seen(stages, d) == Select(pred, Upto(start, bound))
  {
    var stages := [Filter(pred), Take(n)];
    forall bound: nat
      ensures Stops(stages, Upto(start, bound), more) <==> Limit(n) < |Select(pred, Upto(start, bound))|
      ensures |Select(pred, Upto(start, bound))| <= Limit(n) ==>
                var d := Drive(stages, Start(stages), Upto(start, bound), more);
                d.going && Seen(stages, d) == Select(pred, Upto(start, bound))
    {
      TakeOfFilter(pred, n, Upto(start, bound), more);
      StopsExactlyWhen(stages, Upto(start, bound), more);
    }
  }
}
