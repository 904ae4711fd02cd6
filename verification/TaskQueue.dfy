/** A task queue over Redis: requests take an id, push it on their engine's queue and
    wait on the result list of that id; engines pop ids and push results. */
module TaskQueue {
  import opened Wrappers
  import opened RedisKeys

  // ---------------------------------------------------------- Redis commands

  datatype Value = Counter(n: nat) | Items(xs: seq<string>)

  type Db = map<string, Value>

  /** `None` is Redis's WRONGTYPE error. */
  function Incr(db: Db, key: string): (Db, Option<nat>) {
    if key !in db then (db[key := Counter(1)], Some(1))
    else if db[key].Counter? then (db[key := Counter(db[key].n + 1)], Some(db[key].n + 1))
    else (db, None)
  }

  function RPush(db: Db, key: string, x: string): (Db, Option<nat>) {
    if key !in db then (db[key := Items([x])], Some(1))
    else if db[key].Items? then (db[key := Items(db[key].xs + [x])], Some(|db[key].xs| + 1))
    else (db, None)
  }

  /** The list under a key; a missing key is an empty list. */
  function ListAt(db: Db, key: string): seq<string> {
    if key in db && db[key].Items? then db[key].xs else []
  }

  /** The pop of BLPOP, once there is something to pop; an emptied list is removed. */
  function LPop(db: Db, key: string): (Db, string)
    requires ListAt(db, key) != []
  {
    var xs := ListAt(db, key);
    (if |xs| == 1 then db - {key} else db[key := Items(xs[1..])], xs[0])
  }

  /** The server, one method per command. */
  class Redis {
    var db: Db

    constructor ()
      ensures db == map[]
    {
      db := map[];
    }

    method RunIncr(key: string) returns (n: Option<nat>)
      modifies this
      ensures (db, n) == Incr(old(db), key)
    {
      if key !in db {
        db := db[key := Counter(1)];
        return Some(1);
      }
      match db[key] {
        case Counter(k) =>
          db := db[key := Counter(k + 1)];
          n := Some(k + 1);
        case Items(_) =>
          n := None;
      }
    }

    method RunRPush(key: string, x: string) returns (len: Option<nat>)
      modifies this
      ensures (db, len) == RPush(old(db), key, x)
    {
      if key !in db {
        db := db[key := Items([x])];
        return Some(1);
      }
      match db[key] {
        case Counter(_) =>
          len := None;
        case Items(xs) =>
          db := db[key := Items(xs + [x])];
          len := Some(|xs| + 1);
      }
    }

    /** BLPOP that does not have to wait, or times out at once. */
    method RunLPop(key: string) returns (x: Option<string>)
      modifies this
      ensures ListAt(old(db), key) == [] ==> x == None && db == old(db)
      ensures ListAt(old(db), key) != [] ==> (db, x) == (LPop(old(db), key).0, Some(LPop(old(db), key).1))
    {
      if key !in db || !db[key].Items? || db[key].xs == [] {
        return None;
      }
      var xs := db[key].xs;
      db := if |xs| == 1 then db - {key} else db[key := Items(xs[1..])];
      x := Some(xs[0]);
    }
  }

  // ------------------------------------------------------- requests and engines

  datatype Phase = Fresh | Allocated | Waiting | Got(value: string) | TimedOut | Failed

  /** A call of `enqueueAndWait`; `id` is its queue id once it has one. */
  datatype Request = Request(engine: nat, id: nat, phase: Phase)

  /** An engine's loop: popping, or working on a job it knows by its text. Any number
      of loops may serve one engine number. */
  datatype Worker = Worker(engine: nat, job: Option<string>)

  /** `processed` is the history of finished jobs: engine, job text and result. */
  datatype System = System(
    db: Db, requests: seq<Request>, workers: seq<Worker>, processed: seq<(nat, string, string)>)

  datatype Step =
    | Arrive(engine: nat)
    | TakeId(q: nat)
    | Enqueue(q: nat)
    | StartJob(w: nat)
    | FinishJob(w: nat, value: string)
    | TakeResult(q: nat)
    | TimeOut(q: nat)

  function Init(engines: seq<nat>): System {
    System(map[], [], seq(|engines|, i requires 0 <= i < |engines| => Worker(engines[i], None)), [])
  }

  predicate Enabled(s: System, st: Step) {
    match st
    case Arrive(_) => true
    case TakeId(q) => q < |s.requests| && s.requests[q].phase.Fresh?
    case Enqueue(q) => q < |s.requests| && s.requests[q].phase.Allocated?
    case StartJob(w) =>
      w < |s.workers| && s.workers[w].job.None? && ListAt(s.db, TaskKey(s.workers[w].engine)) != []
    case FinishJob(w, _) => w < |s.workers| && s.workers[w].job.Some?
    case TakeResult(q) =>
      && q < |s.requests| && s.requests[q].phase.Waiting?
      && ListAt(s.db, ResultKey(s.requests[q].engine, Itoa(s.requests[q].id))) != []
    case TimeOut(q) => q < |s.requests| && s.requests[q].phase.Waiting?
  }

  function Apply(s: System, st: Step): System
    requires Enabled(s, st)
  {
    match st
    case Arrive(e) => s.(requests := s.requests + [Request(e, 0, Fresh)])
    case TakeId(q) =>
      var r := s.requests[q];
      var (db, n) := Incr(s.db, CounterKey(r.engine));
      s.(db := db, requests := s.requests[q :=
         match n case Some(id) => Request(r.engine, id, Allocated) case None => r.(phase := Failed)])
    case Enqueue(q) =>
      var r := s.requests[q];
      var (db, n) := RPush(s.db, TaskKey(r.engine), Itoa(r.id));
      s.(db := db, requests := s.requests[q := r.(phase := if n.Some? then Waiting else Failed)])
    case StartJob(w) =>
      var (db, job) := LPop(s.db, TaskKey(s.workers[w].engine));
      s.(db := db, workers := s.workers[w := s.workers[w].(job := Some(job))])
    case FinishJob(w, value) =>
      var k := s.workers[w];
      var (db, _) := RPush(s.db, ResultKey(k.engine, k.job.value), value);
      s.(db := db, workers := s.workers[w := k.(job := None)],
         processed := s.processed + [(k.engine, k.job.value, value)])
    case TakeResult(q) =>
      var r := s.requests[q];
      var (db, value) := LPop(s.db, ResultKey(r.engine, Itoa(r.id)));
      s.(db := db, requests := s.requests[q := r.(phase := Got(value))])
    case TimeOut(q) => s.(requests := s.requests[q := s.requests[q].(phase := TimedOut)])
  }

  ghost predicate Valid(s: System, steps: seq<Step>)
    decreases |steps|
  {
    steps == [] || (Enabled(s, steps[0]) && Valid(Apply(s, steps[0]), steps[1..]))
  }

  ghost function After(s: System, steps: seq<Step>): System
    requires Valid(s, steps)
    decreases |steps|
  {
    if steps == [] then s else After(Apply(s, steps[0]), steps[1..])
  }

  /** A run can be cut anywhere. */
  lemma {:induction false} CutRun(s: System, steps: seq<Step>, j: nat)
    requires Valid(s, steps) && j <= |steps|
    ensures Valid(s, steps[..j]) && Valid(After(s, steps[..j]), steps[j..])
    ensures After(After(s, steps[..j]), steps[j..]) == After(s, steps)
    decreases |steps|
  {
    if j == 0 {
      assert steps[0..] == steps;
    } else {
      CutRun(Apply(s, steps[0]), steps[1..], j - 1);
      assert steps[..j][1..] == steps[1..][..j - 1] && steps[1..][j - 1..] == steps[j..];
    }
  }

  /** Step `j` of the run: engine loop `w`, serving `engine` and working on `job`,
      finishes with `value`. */
  ghost predicate FinishedAt(s: System, steps: seq<Step>, j: nat, w: nat, engine: nat, job: string, value: string)
    requires Valid(s, steps) && j < |steps|
  {
    CutRun(s, steps, j);
    && steps[j] == FinishJob(w, value)
    && w < |After(s, steps[..j]).workers| && After(s, steps[..j]).workers[w] == Worker(engine, Some(job))
  }

  ghost predicate Computed(s: System, steps: seq<Step>, engine: nat, job: string, value: string)
    requires Valid(s, steps)
  {
    exists j, w :: 0 <= j < |steps| && FinishedAt(s, steps, j, w, engine, job, value)
  }

  /** The history of results has nothing that some engine did not compute in the run. */
  lemma {:induction false} ProcessedIsComputed(s: System, steps: seq<Step>, x: (nat, string, string))
    requires Valid(s, steps) && x in After(s, steps).processed && x !in s.processed
    ensures Computed(s, steps, x.0, x.1, x.2)
    decreases |steps|
  {
    if steps != [] {
      var t := Apply(s, steps[0]);
      if x in t.processed {
        assert steps[..0] == [];
        assert FinishedAt(s, steps, 0, steps[0].w, x.0, x.1, x.2);
      } else {
        ProcessedIsComputed(t, steps[1..], x);
        var j, w :| 0 <= j < |steps[1..]| && FinishedAt(t, steps[1..], j, w, x.0, x.1, x.2);
        assert steps[..j + 1][1..] == steps[1..][..j];
        assert FinishedAt(s, steps, j + 1, w, x.0, x.1, x.2);
      }
    }
  }

  // ----------------------------------------------------------- where an id is

  function Issued(db: Db, engine: nat): nat {
    if CounterKey(engine) in db && db[CounterKey(engine)].Counter? then db[CounterKey(engine)].n else 0
  }

  function Queue(db: Db, engine: nat): seq<string> {
    ListAt(db, TaskKey(engine))
  }

  function Results(db: Db, engine: nat, id: nat): seq<string> {
    ListAt(db, ResultKey(engine, Itoa(id)))
  }

  /** The places an allocated id can be in. */
  datatype Place = Unpushed(q: nat) | Queued | InEngine(w: nat) | InResults | Consumed(q: nat)

  predicate At(s: System, place: Place, engine: nat, id: nat) {
    match place
    case Unpushed(q) => q < |s.requests| && s.requests[q] == Request(engine, id, Allocated)
    case Queued => Itoa(id) in Queue(s.db, engine)
    case InEngine(w) => w < |s.workers| && s.workers[w] == Worker(engine, Some(Itoa(id)))
    case InResults => Results(s.db, engine, id) != []
    case Consumed(q) =>
      && q < |s.requests| && s.requests[q].engine == engine && s.requests[q].id == id
      && s.requests[q].phase.Got?
  }

  ghost predicate OnePlace(s: System, engine: nat, id: nat) {
    && (exists place :: At(s, place, engine, id))
    && (forall a, b :: At(s, a, engine, id) && At(s, b, engine, id) ==> a == b)
  }

  /** Every key holds what its family is for, so no command ever answers WRONGTYPE. */
  ghost predicate DbOk(db: Db) {
    && (forall e: nat :: CounterKey(e) in db ==> db[CounterKey(e)].Counter?)
    && (forall e: nat :: TaskKey(e) in db ==> db[TaskKey(e)].Items?)
    && (forall e: nat, job: string :: ResultKey(e, job) in db ==> db[ResultKey(e, job)].Items?)
  }

  /** Writing under one key leaves the other keys' families alone. */
  lemma WriteKeepsDb(db: Db, key: string, v: Value, e: nat, job: string)
    requires DbOk(db)
    requires (key == CounterKey(e) && v.Counter?) || (v.Items? && (key == TaskKey(e) || key == ResultKey(e, job)))
    ensures DbOk(db[key := v])
  {
    var after := db[key := v];
    forall f: nat | CounterKey(f) in after ensures after[CounterKey(f)].Counter? {
      TaskKeys(e, f);
      ResultKeys(e, f, job, job);
    }
    forall f: nat | TaskKey(f) in after ensures after[TaskKey(f)].Items? {
      TaskKeys(f, e);
      ResultKeys(e, f, job, job);
    }
    forall f: nat, k: string | ResultKey(f, k) in after ensures after[ResultKey(f, k)].Items? {
      ResultKeys(f, e, k, job);
    }
  }

  /** What each command of the protocol does to every engine's counter and queue and
      to every job's result list. */
  lemma IncrEffect(db: Db, engine: nat, e: nat, id: nat)
    requires DbOk(db)
    ensures var (d, n) := Incr(db, CounterKey(engine));
            && DbOk(d) && n == Some(Issued(db, engine) + 1)
            && Issued(d, e) == Issued(db, e) + (if e == engine then 1 else 0)
            && Queue(d, e) == Queue(db, e) && Results(d, e, id) == Results(db, e, id)
  {
    var (d, n) := Incr(db, CounterKey(engine));
    WriteKeepsDb(db, CounterKey(engine), Counter(Issued(db, engine) + 1), engine, "");
    TaskKeys(e, engine);
    ResultKeys(e, engine, Itoa(id), "");
  }

  lemma PushJobEffect(db: Db, engine: nat, job: string, e: nat, id: nat)
    requires DbOk(db)
    ensures var (d, n) := RPush(db, TaskKey(engine), job);
            && DbOk(d) && n.Some?
            && Queue(d, e) == Queue(db, e) + (if e == engine then [job] else [])
            && Issued(d, e) == Issued(db, e) && Results(d, e, id) == Results(db, e, id)
  {
    WriteKeepsDb(db, TaskKey(engine), Items(Queue(db, engine) + [job]), engine, "");
    TaskKeys(engine, e);
    ResultKeys(e, engine, Itoa(id), "");
    assert [] + [job] == [job];
  }

  lemma PopJobEffect(db: Db, engine: nat, e: nat, id: nat)
    requires DbOk(db) && Queue(db, engine) != []
    ensures var (d, job) := LPop(db, TaskKey(engine));
            && DbOk(d) && job == Queue(db, engine)[0]
            && Queue(d, e) == (if e == engine then Queue(db, e)[1..] else Queue(db, e))
            && Issued(d, e) == Issued(db, e) && Results(d, e, id) == Results(db, e, id)
  {
    WriteKeepsDb(db, TaskKey(engine), Items(Queue(db, engine)[1..]), engine, "");
    TaskKeys(engine, e);
    ResultKeys(e, engine, Itoa(id), "");
  }

  lemma PushResultEffect(db: Db, engine: nat, i: nat, value: string, e: nat, id: nat)
    requires DbOk(db)
    ensures var (d, n) := RPush(db, ResultKey(engine, Itoa(i)), value);
            && DbOk(d) && n.Some?
            && Results(d, e, id) == Results(db, e, id) + (if e == engine && id == i then [value] else [])
            && Issued(d, e) == Issued(db, e) && Queue(d, e) == Queue(db, e)
  {
    WriteKeepsDb(db, ResultKey(engine, Itoa(i)), Items(Results(db, engine, i) + [value]), engine, Itoa(i));
    KeysDoNotCollide(engine, e, i, id);
    assert [] + [value] == [value];
  }

  lemma PopResultEffect(db: Db, engine: nat, i: nat, e: nat, id: nat)
    requires DbOk(db) && Results(db, engine, i) != []
    ensures var (d, value) := LPop(db, ResultKey(engine, Itoa(i)));
            && DbOk(d) && value == Results(db, engine, i)[0]
            && Results(d, e, id) == (if e == engine && id == i then Results(db, e, id)[1..] else Results(db, e, id))
            && Issued(d, e) == Issued(db, e) && Queue(d, e) == Queue(db, e)
  {
    WriteKeepsDb(db, ResultKey(engine, Itoa(i)), Items(Results(db, engine, i)[1..]), engine, Itoa(i));
    KeysDoNotCollide(engine, e, i, id);
  }

  ghost predicate IsIssued(db: Db, engine: nat, job: string) {
    exists id: nat :: 1 <= id <= Issued(db, engine) && job == Itoa(id)
  }

  ghost predicate RequestsOk(s: System) {
    && (forall q | 0 <= q < |s.requests| ::
          && !s.requests[q].phase.Failed?
          && (!s.requests[q].phase.Fresh? ==> 1 <= s.requests[q].id <= Issued(s.db, s.requests[q].engine)))
    && (forall p, q | 0 <= p < q < |s.requests| && !s.requests[p].phase.Fresh? && !s.requests[q].phase.Fresh? ::
          s.requests[p].engine == s.requests[q].engine ==> s.requests[p].id != s.requests[q].id)
  }

  ghost predicate QueueOk(db: Db, engine: nat) {
    var xs := Queue(db, engine);
    && (forall k | 0 <= k < |xs| :: IsIssued(db, engine, xs[k]))
    && (forall j, k | 0 <= j < k < |xs| :: xs[j] != xs[k])
  }

  ghost predicate WorkersOk(s: System) {
    forall w | 0 <= w < |s.workers| && s.workers[w].job.Some? ::
      IsIssued(s.db, s.workers[w].engine, s.workers[w].job.value)
  }

  /** Id `id` of an engine: nowhere before it is issued, and in one place from then on. */
  ghost predicate IdOk(s: System, engine: nat, id: nat) {
    && (1 <= id <= Issued(s.db, engine) ==> OnePlace(s, engine, id))
    && (forall place :: At(s, place, engine, id) ==> 1 <= id <= Issued(s.db, engine))
    && |Results(s.db, engine, id)| <= 1
  }

  /** The step is about this id, which it moves from one place to the next. */
  predicate Subject(s: System, st: Step, engine: nat, id: nat)
    requires Enabled(s, st)
  {
    match st
    case TakeId(q) => engine == s.requests[q].engine && id == Issued(s.db, engine) + 1
    case Enqueue(q) => engine == s.requests[q].engine && id == s.requests[q].id
    case StartJob(w) => engine == s.workers[w].engine && Itoa(id) == Queue(s.db, engine)[0]
    case FinishJob(w, _) => engine == s.workers[w].engine && Itoa(id) == s.workers[w].job.value
    case TakeResult(q) => engine == s.requests[q].engine && id == s.requests[q].id
    case _ => false
  }

  function From(st: Step): Place
    requires !st.Arrive? && !st.TakeId? && !st.TimeOut?
  {
    match st
    case Enqueue(q) => Unpushed(q)
    case StartJob(_) => Queued
    case FinishJob(w, _) => InEngine(w)
    case TakeResult(_) => InResults
  }

  function To(st: Step): Place
    requires !st.Arrive? && !st.TimeOut?
  {
    match st
    case TakeId(q) => Unpushed(q)
    case Enqueue(_) => Queued
    case StartJob(w) => InEngine(w)
    case FinishJob(_, _) => InResults
    case TakeResult(q) => Consumed(q)
  }

  lemma TakeIdMoves(s: System, q: nat, engine: nat, id: nat, place: Place, e: nat, i: nat)
    requires Enabled(s, TakeId(q)) && Subject(s, TakeId(q), engine, id)
    requires DbOk(s.db) && IdOk(s, e, i) && IdOk(s, engine, id)
    ensures At(Apply(s, TakeId(q)), place, e, i)
            <==> if e == engine && i == id then place == Unpushed(q) else At(s, place, e, i)
  {
    IncrEffect(s.db, engine, e, i);
    assert place.Consumed? && place.q == q ==> !At(s, place, e, i);
    assert !At(s, place, engine, id);
  }

  lemma EnqueueMoves(s: System, q: nat, engine: nat, id: nat, place: Place, e: nat, i: nat)
    requires Enabled(s, Enqueue(q)) && Subject(s, Enqueue(q), engine, id)
    requires DbOk(s.db) && IdOk(s, e, i) && At(s, Unpushed(q), engine, id)
    ensures At(Apply(s, Enqueue(q)), place, e, i)
            <==> if e == engine && i == id then place == Queued else At(s, place, e, i)
  {
    PushJobEffect(s.db, engine, Itoa(id), e, i);
    if Itoa(i) == Itoa(id) { ItoaInjective(i, id); }
    if e == engine && i == id { assert At(s, place, e, i) ==> place == Unpushed(q); }
  }

  lemma StartJobMoves(s: System, w: nat, engine: nat, id: nat, place: Place, e: nat, i: nat)
    requires Enabled(s, StartJob(w)) && Subject(s, StartJob(w), engine, id)
    requires DbOk(s.db) && IdOk(s, e, i) && QueueOk(s.db, engine)
    ensures At(Apply(s, StartJob(w)), place, e, i)
            <==> if e == engine && i == id then place == InEngine(w) else At(s, place, e, i)
  {
    PopJobEffect(s.db, engine, e, i);
    if Itoa(i) == Itoa(id) { ItoaInjective(i, id); }
    var xs := Queue(s.db, engine);
    assert xs == [xs[0]] + xs[1..];
    assert xs[0] !in xs[1..];
    if e == engine && i == id {
      assert At(s, Queued, e, i);
      assert At(s, place, e, i) ==> place == Queued;
    }
  }

  lemma FinishJobMoves(s: System, w: nat, value: string, engine: nat, id: nat, place: Place, e: nat, i: nat)
    requires Enabled(s, FinishJob(w, value)) && Subject(s, FinishJob(w, value), engine, id)
    requires DbOk(s.db) && IdOk(s, e, i)
    ensures At(Apply(s, FinishJob(w, value)), place, e, i)
            <==> if e == engine && i == id then place == InResults else At(s, place, e, i)
  {
    PushResultEffect(s.db, engine, id, value, e, i);
    if Itoa(i) == Itoa(id) { ItoaInjective(i, id); }
    if e == engine && i == id {
      assert At(s, InEngine(w), e, i);
      assert At(s, place, e, i) ==> place == InEngine(w);
    }
  }

  lemma TakeResultMoves(s: System, q: nat, engine: nat, id: nat, place: Place, e: nat, i: nat)
    requires Enabled(s, TakeResult(q)) && Subject(s, TakeResult(q), engine, id)
    requires DbOk(s.db) && IdOk(s, e, i)
    ensures At(Apply(s, TakeResult(q)), place, e, i)
            <==> if e == engine && i == id then place == Consumed(q) else At(s, place, e, i)
  {
    PopResultEffect(s.db, engine, id, e, i);
    if e == engine && i == id {
      assert At(s, InResults, e, i);
      assert At(s, place, e, i) ==> place == InResults;
    }
  }

  /** A finished job's id is in its result list or consumed. */
  ghost predicate Done(s: System, engine: nat, id: nat) {
    At(s, InResults, engine, id) || exists q :: At(s, Consumed(q), engine, id)
  }

  ghost predicate ProcessedOk(s: System) {
    && (forall j, k | 0 <= j < k < |s.processed| ::
          s.processed[j].0 != s.processed[k].0 || s.processed[j].1 != s.processed[k].1)
    && (forall k, i: nat | 0 <= k < |s.processed| && s.processed[k].1 == Itoa(i) :: Done(s, s.processed[k].0, i))
    && (forall e: nat, i: nat | Results(s.db, e, i) != [] :: (e, Itoa(i), Results(s.db, e, i)[0]) in s.processed)
    && (forall q | 0 <= q < |s.requests| && s.requests[q].phase.Got? ::
          (s.requests[q].engine, Itoa(s.requests[q].id), s.requests[q].phase.value) in s.processed)
  }

  ghost predicate Inv(s: System) {
    && DbOk(s.db) && RequestsOk(s) && WorkersOk(s) && ProcessedOk(s)
    && (forall e: nat :: QueueOk(s.db, e))
    && (forall e: nat, i: nat :: IdOk(s, e, i))
  }

  lemma SubjectOf(s: System, st: Step) returns (engine: nat, id: nat)
    requires Inv(s) && Enabled(s, st) && !st.Arrive? && !st.TimeOut?
    ensures Subject(s, st, engine, id)
  {
    match st {
      case TakeId(q) => engine, id := s.requests[q].engine, Issued(s.db, s.requests[q].engine) + 1;
      case Enqueue(q) => engine, id := s.requests[q].engine, s.requests[q].id;
      case TakeResult(q) => engine, id := s.requests[q].engine, s.requests[q].id;
      case StartJob(w) =>
        engine := s.workers[w].engine;
        assert QueueOk(s.db, engine) && IsIssued(s.db, engine, Queue(s.db, engine)[0]);
        id :| 1 <= id <= Issued(s.db, engine) && Queue(s.db, engine)[0] == Itoa(id);
      case FinishJob(w, _) =>
        engine := s.workers[w].engine;
        id :| 1 <= id <= Issued(s.db, engine) && s.workers[w].job.value == Itoa(id);
    }
  }

  /** Every protocol step moves one id from one place to the next and no other. */
  lemma StepMoves(s: System, st: Step, engine: nat, id: nat, place: Place, e: nat, i: nat)
    requires Inv(s) && Enabled(s, st) && Subject(s, st, engine, id)
    ensures At(Apply(s, st), place, e, i) <==> if e == engine && i == id then place == To(st) else At(s, place, e, i)
    ensures !st.TakeId? ==> At(s, From(st), engine, id)
    ensures Issued(Apply(s, st).db, e) == Issued(s.db, e) + (if st.TakeId? && e == engine then 1 else 0)
    ensures DbOk(Apply(s, st).db)
  {
    assert IdOk(s, e, i) && IdOk(s, engine, id) && QueueOk(s.db, engine);
    match st {
      case TakeId(q) => IncrEffect(s.db, engine, e, i); TakeIdMoves(s, q, engine, id, place, e, i);
      case Enqueue(q) => PushJobEffect(s.db, engine, Itoa(id), e, i); EnqueueMoves(s, q, engine, id, place, e, i);
      case StartJob(w) => PopJobEffect(s.db, engine, e, i); StartJobMoves(s, w, engine, id, place, e, i);
      case FinishJob(w, value) =>
        PushResultEffect(s.db, engine, id, value, e, i);
        FinishJobMoves(s, w, value, engine, id, place, e, i);
      case TakeResult(q) => PopResultEffect(s.db, engine, id, e, i); TakeResultMoves(s, q, engine, id, place, e, i);
    }
  }

  /** Arrivals and timeouts move nothing. */
  lemma OtherStepsMoveNothing(s: System, st: Step, place: Place, e: nat, i: nat)
    requires Enabled(s, st) && (st.Arrive? || st.TimeOut?)
    ensures At(Apply(s, st), place, e, i) <==> At(s, place, e, i)
    ensures Apply(s, st).db == s.db && Apply(s, st).processed == s.processed && Apply(s, st).workers == s.workers
  {
  }

  lemma StepId(s: System, st: Step, engine: nat, id: nat, e: nat, i: nat)
    requires Inv(s) && Enabled(s, st) && Subject(s, st, engine, id)
    ensures var u := Apply(s, st);
            && (1 <= i <= Issued(u.db, e) ==> OnePlace(u, e, i))
            && (forall place :: At(u, place, e, i) ==> 1 <= i <= Issued(u.db, e))
  {
    var u := Apply(s, st);
    assert IdOk(s, e, i) && IdOk(s, engine, id);
    forall place
      ensures At(u, place, e, i) <==> if e == engine && i == id then place == To(st) else At(s, place, e, i)
    {
      StepMoves(s, st, engine, id, place, e, i);
    }
    StepMoves(s, st, engine, id, To(st), e, i);
    if e == engine && i == id {
      assert At(u, To(st), e, i);
    } else if 1 <= i <= Issued(u.db, e) {
      assert OnePlace(s, e, i);
      var place :| At(s, place, e, i);
      assert At(u, place, e, i);
    }
  }

  lemma StepResults(s: System, st: Step, engine: nat, id: nat, e: nat, i: nat)
    requires Inv(s) && Enabled(s, st) && Subject(s, st, engine, id)
    ensures var u := Apply(s, st);
            && |Results(u.db, e, i)| <= 1
            && (Results(u.db, e, i) != [] ==> (e, Itoa(i), Results(u.db, e, i)[0]) in u.processed)
  {
    var u := Apply(s, st);
    assert IdOk(s, e, i) && IdOk(s, engine, id);
    match st {
      case TakeId(q) => IncrEffect(s.db, engine, e, i);
      case Enqueue(q) => PushJobEffect(s.db, engine, Itoa(id), e, i);
      case StartJob(w) => PopJobEffect(s.db, engine, e, i);
      case FinishJob(w, value) =>
        PushResultEffect(s.db, engine, id, value, e, i);
        assert At(s, InEngine(w), engine, id);
        assert !At(s, InResults, engine, id);
        assert u.processed[|s.processed|] == (engine, Itoa(id), value);
      case TakeResult(q) => PopResultEffect(s.db, engine, id, e, i);
    }
  }

  lemma QueueEffect(s: System, st: Step, engine: nat, id: nat, e: nat)
    requires Inv(s) && Enabled(s, st) && Subject(s, st, engine, id)
    ensures var xs, ys := Queue(s.db, e), Queue(Apply(s, st).db, e);
            ys == if e == engine && st.Enqueue? then xs + [Itoa(id)]
                  else if e == engine && st.StartJob? then xs[1..] else xs
    ensures st.Enqueue? ==> Itoa(id) !in Queue(s.db, engine)
    ensures Issued(s.db, e) <= Issued(Apply(s, st).db, e)
  {
    assert IdOk(s, engine, id);
    match st {
      case TakeId(q) => IncrEffect(s.db, engine, e, id);
      case Enqueue(q) =>
        PushJobEffect(s.db, engine, Itoa(id), e, id);
        assert At(s, Unpushed(q), engine, id);
        assert !At(s, Queued, engine, id);
      case StartJob(w) => PopJobEffect(s.db, engine, e, id);
      case FinishJob(w, value) => PushResultEffect(s.db, engine, id, value, e, id);
      case TakeResult(q) => PopResultEffect(s.db, engine, id, e, id);
    }
  }

  lemma QueueGrows(a: Db, b: Db, e: nat, job: string)
    requires QueueOk(a, e) && Issued(a, e) <= Issued(b, e) && Queue(b, e) == Queue(a, e) + [job]
    requires job !in Queue(a, e) && IsIssued(b, e, job)
    ensures QueueOk(b, e)
  {
    forall k | 0 <= k < |Queue(a, e)| ensures IsIssued(b, e, Queue(b, e)[k]) {
      StillIssued(a, b, e, Queue(a, e)[k]);
    }
  }

  lemma QueueShrinks(a: Db, b: Db, e: nat, n: nat)
    requires QueueOk(a, e) && Issued(a, e) <= Issued(b, e) && n <= |Queue(a, e)| && Queue(b, e) == Queue(a, e)[n..]
    ensures QueueOk(b, e)
  {
    forall k | 0 <= k < |Queue(b, e)| ensures IsIssued(b, e, Queue(b, e)[k]) {
      StillIssued(a, b, e, Queue(a, e)[k + n]);
    }
  }

  lemma StepQueue(s: System, st: Step, engine: nat, id: nat, e: nat)
    requires Inv(s) && Enabled(s, st) && Subject(s, st, engine, id)
    ensures QueueOk(Apply(s, st).db, e)
  {
    var u := Apply(s, st);
    assert QueueOk(s.db, e);
    QueueEffect(s, st, engine, id, e);
    if e == engine && st.Enqueue? {
      assert IdOk(s, engine, id) && At(s, Unpushed(st.q), engine, id);
      assert IsIssued(u.db, e, Itoa(id));
      QueueGrows(s.db, u.db, e, Itoa(id));
    } else {
      QueueShrinks(s.db, u.db, e, if e == engine && st.StartJob? then 1 else 0);
    }
  }

  lemma StillIssued(a: Db, b: Db, e: nat, job: string)
    requires IsIssued(a, e, job) && Issued(a, e) <= Issued(b, e)
    ensures IsIssued(b, e, job)
  {
  }

  lemma StepRequests(s: System, st: Step, engine: nat, id: nat)
    requires Inv(s) && Enabled(s, st) && Subject(s, st, engine, id)
    ensures RequestsOk(Apply(s, st))
  {
    var u := Apply(s, st);
    forall q | 0 <= q < |s.requests| ensures Issued(s.db, s.requests[q].engine) <= Issued(u.db, s.requests[q].engine) {
      QueueEffect(s, st, engine, id, s.requests[q].engine);
    }
    match st {
      case TakeId(q) => IncrEffect(s.db, engine, engine, id);
      case Enqueue(q) => PushJobEffect(s.db, engine, Itoa(id), engine, id);
      case _ =>
    }
  }

  lemma StepWorkers(s: System, st: Step, engine: nat, id: nat)
    requires Inv(s) && Enabled(s, st) && Subject(s, st, engine, id)
    ensures WorkersOk(Apply(s, st))
  {
    var u := Apply(s, st);
    forall w | 0 <= w < |u.workers| && u.workers[w].job.Some?
      ensures IsIssued(u.db, u.workers[w].engine, u.workers[w].job.value)
    {
      var e := u.workers[w].engine;
      QueueEffect(s, st, engine, id, e);
      if st == StartJob(w) {
        PopJobEffect(s.db, engine, engine, id);
        assert QueueOk(s.db, engine) && IsIssued(s.db, engine, Queue(s.db, engine)[0]);
      }
      StillIssued(s.db, u.db, e, u.workers[w].job.value);
    }
  }

  lemma DoneStays(s: System, st: Step, engine: nat, id: nat, e: nat, i: nat)
    requires Inv(s) && Enabled(s, st) && Subject(s, st, engine, id) && Done(s, e, i)
    ensures Done(Apply(s, st), e, i)
    ensures st.FinishJob? ==> e != engine || i != id
  {
    var u := Apply(s, st);
    var place: Place;
    if At(s, InResults, e, i) {
      place := InResults;
    } else {
      var q :| At(s, Consumed(q), e, i);
      place := Consumed(q);
    }
    assert IdOk(s, e, i);
    StepMoves(s, st, engine, id, place, e, i);
    StepMoves(s, st, engine, id, To(st), e, i);
    if e == engine && i == id && !st.TakeId? {
      assert From(st) == place;
    }
  }

  lemma StepProcessedDone(s: System, st: Step, engine: nat, id: nat, k: nat, i: nat)
    requires Inv(s) && Enabled(s, st) && Subject(s, st, engine, id)
    requires k < |Apply(s, st).processed| && Apply(s, st).processed[k].1 == Itoa(i)
    ensures Done(Apply(s, st), Apply(s, st).processed[k].0, i)
    ensures st.FinishJob? && k < |s.processed| ==> s.processed[k].0 != engine || s.processed[k].1 != Itoa(id)
  {
    var u := Apply(s, st);
    if k < |s.processed| {
      assert Done(s, s.processed[k].0, i);
      DoneStays(s, st, engine, id, s.processed[k].0, i);
      if s.processed[k].1 == Itoa(id) { ItoaInjective(i, id); }
    } else {
      ItoaInjective(i, id);
      StepMoves(s, st, engine, id, InResults, engine, id);
    }
  }

  lemma StepProcessed(s: System, st: Step, engine: nat, id: nat)
    requires Inv(s) && Enabled(s, st) && Subject(s, st, engine, id)
    ensures ProcessedOk(Apply(s, st))
  {
    var u := Apply(s, st);
    forall k, i: nat | 0 <= k < |u.processed| && u.processed[k].1 == Itoa(i) ensures Done(u, u.processed[k].0, i) {
      StepProcessedDone(s, st, engine, id, k, i);
    }
    forall e: nat, i: nat | Results(u.db, e, i) != []
      ensures (e, Itoa(i), Results(u.db, e, i)[0]) in u.processed
    {
      StepResults(s, st, engine, id, e, i);
    }
    forall j, k | 0 <= j < k < |u.processed|
      ensures u.processed[j].0 != u.processed[k].0 || u.processed[j].1 != u.processed[k].1
    {
      if k == |s.processed| && u.processed[j].1 == Itoa(id) {
        StepProcessedDone(s, st, engine, id, j, id);
      }
    }
    forall q | 0 <= q < |u.requests| && u.requests[q].phase.Got?
      ensures (u.requests[q].engine, Itoa(u.requests[q].id), u.requests[q].phase.value) in u.processed
    {
      if st == TakeResult(q) {
        PopResultEffect(s.db, engine, id, engine, id);
        assert (engine, Itoa(id), Results(s.db, engine, id)[0]) in s.processed;
      } else {
        assert (s.requests[q].engine, Itoa(s.requests[q].id), s.requests[q].phase.value) in s.processed;
      }
    }
  }

  lemma StepInv(s: System, st: Step)
    requires Inv(s) && Enabled(s, st)
    ensures Inv(Apply(s, st))
  {
    var u := Apply(s, st);
    if st.Arrive? || st.TimeOut? {
      OtherStepInv(s, st);
    } else {
      var engine, id := SubjectOf(s, st);
      StepMoves(s, st, engine, id, To(st), engine, id);
      StepRequests(s, st, engine, id);
      StepWorkers(s, st, engine, id);
      StepProcessed(s, st, engine, id);
      forall e: nat ensures QueueOk(u.db, e) { StepQueue(s, st, engine, id, e); }
      forall e: nat, i: nat ensures IdOk(u, e, i) {
        StepId(s, st, engine, id, e, i);
        StepResults(s, st, engine, id, e, i);
      }
    }
  }

  lemma OtherStepInv(s: System, st: Step)
    requires Inv(s) && Enabled(s, st) && (st.Arrive? || st.TimeOut?)
    ensures Inv(Apply(s, st))
  {
    var u := Apply(s, st);
    forall place, e, i: nat ensures At(u, place, e, i) <==> At(s, place, e, i) {
      OtherStepsMoveNothing(s, st, place, e, i);
    }
    forall e: nat, i: nat ensures IdOk(u, e, i) {
      assert IdOk(s, e, i);
      if 1 <= i <= Issued(s.db, e) {
        var place :| At(s, place, e, i);
        assert At(u, place, e, i);
      }
    }
    forall k, i: nat | 0 <= k < |u.processed| && u.processed[k].1 == Itoa(i) ensures Done(u, u.processed[k].0, i) {
      assert Done(s, s.processed[k].0, i);
      if q :| At(s, Consumed(q), s.processed[k].0, i) {
        assert At(u, Consumed(q), s.processed[k].0, i);
      }
    }
    forall e: nat ensures QueueOk(u.db, e) { assert QueueOk(s.db, e); }
  }

  lemma InitInv(engines: seq<nat>)
    ensures Inv(Init(engines))
  {
    var s := Init(engines);
    forall e: nat, i: nat ensures IdOk(s, e, i) {}
    forall e: nat ensures QueueOk(s.db, e) {}
  }

  lemma {:induction false} RunInv(s: System, steps: seq<Step>)
    requires Inv(s) && Valid(s, steps)
    ensures Inv(After(s, steps))
    decreases |steps|
  {
    if steps != [] {
      StepInv(s, steps[0]);
      RunInv(Apply(s, steps[0]), steps[1..]);
    }
  }

  /** Conservation: in every reachable state each id an engine's counter has issued is
      in exactly one place (with its request and not pushed, in the queue, with one
      engine loop, in its result list, or consumed by one request), and no other id is
      anywhere. A request that gave up leaves its id where it is. */
  lemma EveryIdIsInOnePlace(engines: seq<nat>, steps: seq<Step>, engine: nat, id: nat)
    requires Valid(Init(engines), steps)
    ensures var s := After(Init(engines), steps);
            && (1 <= id <= Issued(s.db, engine) <==> exists place :: At(s, place, engine, id))
            && (forall a, b :: At(s, a, engine, id) && At(s, b, engine, id) ==> a == b)
            && |Results(s.db, engine, id)| <= 1
  {
    InitInv(engines);
    RunInv(Init(engines), steps);
    assert IdOk(After(Init(engines), steps), engine, id);
  }

  /** For any number of requests and engine loops: no command ever fails; no two
      requests share an id of an engine; no job is processed twice; and what a request
      gets is a value with which an engine loop finished that very job in the run. */
  lemma RequestsGetTheirOwnResult(engines: seq<nat>, steps: seq<Step>, q: nat)
    requires Valid(Init(engines), steps) && q < |After(Init(engines), steps).requests|
    ensures var s := After(Init(engines), steps);
            var r := s.requests[q];
            && !r.phase.Failed?
            && (forall p | 0 <= p < |s.requests| && p != q && !r.phase.Fresh? && !s.requests[p].phase.Fresh? ::
                  s.requests[p].engine == r.engine ==> s.requests[p].id != r.id)
            && (r.phase.Got? ==> Computed(Init(engines), steps, r.engine, Itoa(r.id), r.phase.value))
            && (forall j, k | 0 <= j < k < |s.processed| ::
                  s.processed[j].0 != s.processed[k].0 || s.processed[j].1 != s.processed[k].1)
  {
    InitInv(engines);
    RunInv(Init(engines), steps);
    var s := After(Init(engines), steps);
    var r := s.requests[q];
    if r.phase.Got? {
      ProcessedIsComputed(Init(engines), steps, (r.engine, Itoa(r.id), r.phase.value));
    }
  }

  /** An engine loop that finishes works on an issued id, and leaves exactly the value
      it computed in that id's result list. */
  lemma FinishLeavesItsValue(engines: seq<nat>, before: seq<Step>, w: nat, value: string) returns (id: nat)
    requires Valid(Init(engines), before) && Enabled(After(Init(engines), before), FinishJob(w, value))
    ensures var s := After(Init(engines), before);
            var k := s.workers[w];
            && 1 <= id <= Issued(s.db, k.engine) && k.job == Some(Itoa(id))
            && Results(Apply(s, FinishJob(w, value)).db, k.engine, id) == [value]
  {
    InitInv(engines);
    RunInv(Init(engines), before);
    var s := After(Init(engines), before);
    var k := s.workers[w];
    id :| 1 <= id <= Issued(s.db, k.engine) && k.job.value == Itoa(id);
    assert IdOk(s, k.engine, id) && At(s, InEngine(w), k.engine, id);
    assert !At(s, InResults, k.engine, id);
    PushResultEffect(s.db, k.engine, id, value, k.engine, id);
  }

  // ------------------------------------------------------- no request is lost

  /** What a waiting request waits for is queued, with an engine loop, or there. */
  lemma WaitingPlace(s: System, q: nat) returns (place: Place)
    requires Inv(s) && q < |s.requests| && s.requests[q].phase.Waiting?
    ensures At(s, place, s.requests[q].engine, s.requests[q].id)
    ensures place.Queued? || place.InEngine? || place.InResults?
  {
    var r := s.requests[q];
    assert IdOk(s, r.engine, r.id);
    place :| At(s, place, r.engine, r.id);
    if place.Unpushed? || place.Consumed? {
      assert false;
    }
  }

  lemma FinishKeepsWaiting(s: System, w: nat, value: string, e: nat, i: nat)
    requires Inv(s) && Enabled(s, FinishJob(w, value))
    ensures var u := Apply(s, FinishJob(w, value));
            && Inv(u) && u.requests == s.requests && Queue(u.db, e) == Queue(s.db, e)
            && (Results(s.db, e, i) != [] ==> Results(u.db, e, i) != [])
            && (s.workers[w] == Worker(e, Some(Itoa(i))) ==> Results(u.db, e, i) != [])
  {
    StepInv(s, FinishJob(w, value));
    var engine, id := SubjectOf(s, FinishJob(w, value));
    PushResultEffect(s.db, engine, id, value, e, i);
    if s.workers[w] == Worker(e, Some(Itoa(i))) { ItoaInjective(i, id); }
  }

  lemma {:induction false} ServeWaiting(s: System, q: nat, w: nat) returns (steps: seq<Step>)
    requires Inv(s) && q < |s.requests| && s.requests[q].phase.Waiting?
    requires w < |s.workers| && s.workers[w].engine == s.requests[q].engine
    ensures Valid(s, steps) && q < |After(s, steps).requests| && After(s, steps).requests[q].phase.Got?
    decreases |Queue(s.db, s.requests[q].engine)|,
              if Results(s.db, s.requests[q].engine, s.requests[q].id) == [] then 1 else 0,
              if s.workers[w].job.Some? then 1 else 0
  {
    var engine, id := s.requests[q].engine, s.requests[q].id;
    if Results(s.db, engine, id) != [] {
      steps := [TakeResult(q)];
      assert steps[1..] == [] && Valid(Apply(s, steps[0]), []);
      return;
    }
    var place := WaitingPlace(s, q);
    var next: Step;
    if place.InEngine? {
      next := FinishJob(place.w, "");
      FinishKeepsWaiting(s, place.w, "", engine, id);
    } else if s.workers[w].job.Some? {
      next := FinishJob(w, "");
      FinishKeepsWaiting(s, w, "", engine, id);
    } else {
      next := StartJob(w);
      StepInv(s, next);
      PopJobEffect(s.db, engine, engine, id);
    }
    var rest := ServeWaiting(Apply(s, next), q, w);
    steps := [next] + rest;
  }

  /** No waiting request is lost: from any reachable state in which a request waits and
      its engine has a loop, some continuation gives it its result. */
  lemma WaitingCanBeServed(engines: seq<nat>, before: seq<Step>, q: nat, w: nat) returns (steps: seq<Step>)
    requires Valid(Init(engines), before)
    requires var s := After(Init(engines), before);
             && q < |s.requests| && s.requests[q].phase.Waiting?
             && w < |s.workers| && s.workers[w].engine == s.requests[q].engine
    ensures var s := After(Init(engines), before);
            && Valid(s, steps) && q < |After(s, steps).requests| && After(s, steps).requests[q].phase.Got?
  {
    InitInv(engines);
    RunInv(Init(engines), before);
    steps := ServeWaiting(After(Init(engines), before), q, w);
  }
}
