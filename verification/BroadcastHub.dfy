/** The broadcast hub: every message read from a client is written to a snapshot of
    the clients registered at that moment. */
module BroadcastHub {

  class Conn {
    var inbox: seq<string>

    constructor ()
      ensures inbox == []
    {
      inbox := [];
    }

    /** A write either reaches the peer or fails within its deadline. */
    method Write(msg: string, reachable: bool)
      modifies this
      ensures inbox == if reachable then old(inbox) + [msg] else old(inbox)
    {
      if reachable {
        inbox := inbox + [msg];
      }
    }
  }

  class Hub {
    var clients: set<Conn>

    constructor ()
      ensures clients == {}
    {
      clients := {};
    }

    method ClientCount() returns (n: nat)
      ensures n == |clients|
    {
      n := |clients|;
    }

    method Register(conn: Conn)
      modifies this
      ensures clients == old(clients) + {conn}
    {
      clients := clients + {conn};
    }

    method Unregister(conn: Conn)
      modifies this
      ensures clients == old(clients) - {conn}
    {
      clients := clients - {conn};
    }

    /** The registered clients, each once, in the arbitrary order of a map walk. */
    method Snapshot() returns (conns: seq<Conn>)
      ensures forall c :: c in conns <==> c in clients
      ensures forall i, j | 0 <= i < j < |conns| :: conns[i] != conns[j]
    {
      conns := [];
      var left := clients;
      while left != {}
        invariant left <= clients
        invariant forall c :: c in conns <==> c in clients - left
        invariant forall i, j | 0 <= i < j < |conns| :: conns[i] != conns[j]
        decreases left
      {
        var c :| c in left;
        assert c !in conns;
        left := left - {c};
        conns := conns + [c];
      }
    }

    /** Every registered client that can be written to gets the message exactly once;
        one that cannot does not keep it from the others. */
    method Broadcast(msg: string, reachable: set<Conn>)
      modifies clients
      ensures forall c | c in clients ::
                c.inbox == if c in reachable then old(c.inbox) + [msg] else old(c.inbox)
    {
      ghost var before := map c | c in clients :: c.inbox;
      var conns := Snapshot();
      assert forall k | 0 <= k < |conns| :: conns[k] in conns && conns[k] in clients;
      for i := 0 to |conns|
        invariant forall k | 0 <= k < i ::
                    conns[k].inbox == if conns[k] in reachable then before[conns[k]] + [msg] else before[conns[k]]
        invariant forall k | i <= k < |conns| :: conns[k].inbox == before[conns[k]]
      {
        conns[i].Write(msg, conns[i] in reachable);
      }
    }
  }

  // --------------------------------------------- clients, running concurrently

  /** A client's read loop: waiting for a message, holding one, or writing its latest
      message to the clients `left` of the snapshot. */
  datatype Phase = Reading | HasMsg | Writing(left: set<nat>) | Closed

  /** `snaps` is the history of the snapshots taken for the client's messages 0, 1, ...
      and `log` what was written to it, as (sender, message). */
  datatype Client = Client(phase: Phase, snaps: seq<set<nat>>, log: seq<(nat, nat)>)

  /** Clients are numbered; `conns` has every client that ever joined, `failed` the
      (receiver, sender, message) triples whose write failed. */
  datatype System = System(registered: set<nat>, conns: map<nat, Client>, failed: set<(nat, nat, nat)>)

  datatype Step =
    | Join(c: nat)
    | Read(c: nat)
    | TakeSnapshot(c: nat)
    | Write(c: nat, to: nat, ok: bool)
    | EndBroadcast(c: nat)
    | Leave(c: nat)

  function Init(): System {
    System({}, map[], {})
  }

  /** How many messages were read from a client. */
  function Sent(x: Client): nat {
    |x.snaps| + if x.phase.HasMsg? then 1 else 0
  }

  predicate Enabled(s: System, st: Step) {
    match st
    case Join(c) => c !in s.conns
    case Read(c) => c in s.conns && s.conns[c].phase.Reading?
    case TakeSnapshot(c) => c in s.conns && s.conns[c].phase.HasMsg?
    case Write(c, to, _) =>
      && c in s.conns && s.conns[c].phase.Writing? && |s.conns[c].snaps| > 0
      && to in s.conns[c].phase.left && to in s.conns
    case EndBroadcast(c) => c in s.conns && s.conns[c].phase == Writing({})
    case Leave(c) => c in s.conns && s.conns[c].phase.Reading?
  }

  function SetPhase(s: System, c: nat, phase: Phase): System
    requires c in s.conns
  {
    s.(conns := s.conns[c := s.conns[c].(phase := phase)])
  }

  function Apply(s: System, st: Step): System
    requires Enabled(s, st)
  {
    match st
    case Join(c) => s.(registered := s.registered + {c}, conns := s.conns[c := Client(Reading, [], [])])
    case Read(c) => SetPhase(s, c, HasMsg)
    case TakeSnapshot(c) =>
      var x := s.conns[c];
      s.(conns := s.conns[c := Client(Writing(s.registered), x.snaps + [s.registered], x.log)])
    case Write(c, to, ok) =>
      var k := |s.conns[c].snaps| - 1;
      var t := SetPhase(s, c, Writing(s.conns[c].phase.left - {to}));
      if ok then t.(conns := t.conns[to := t.conns[to].(log := t.conns[to].log + [(c, k)])])
      else t.(failed := t.failed + {(to, c, k)})
    case EndBroadcast(c) => SetPhase(s, c, Reading)
    case Leave(c) => SetPhase(s, c, Closed).(registered := s.registered - {c})
  }

  ghost predicate Valid(s: System, steps: seq<Step>)
    decreases |steps|
  {
    steps == [] || (Enabled(s, steps[0]) && Valid(Apply(s, steps[0]), steps[1..]))
  }

  ghost function After(s: System, steps: seq<Step>): System
    requires Valid(s, steps)
    decreases |steps|
  {
    if steps == [] then s else After(Apply(s, steps[0]), steps[1..])
  }

  /** The messages of `c` in a log, in the order they were written. */
  function From(log: seq<(nat, nat)>, c: nat): seq<nat> {
    if log == [] then []
    else From(log[..|log| - 1], c) + if log[|log| - 1].0 == c then [log[|log| - 1].1] else []
  }

  /** The client `x` numbered `c` has written its message `k` to `t`: `t` was in the
      snapshot, its turn has come, and the write did not fail. */
  predicate WasWritten(x: Client, failed: set<(nat, nat, nat)>, t: nat, c: nat, k: nat)
    requires k < |x.snaps|
  {
    && t in x.snaps[k]
    && (t, c, k) !in failed
    && !(x.phase.Writing? && k == |x.snaps| - 1 && t in x.phase.left)
  }

  /** The first `n` messages of a client, without those not written to `t`. */
  function Expected(x: Client, failed: set<(nat, nat, nat)>, t: nat, c: nat, n: nat): seq<nat>
    requires n <= |x.snaps|
  {
    if n == 0 then []
    else Expected(x, failed, t, c, n - 1) + if WasWritten(x, failed, t, c, n - 1) then [n - 1] else []
  }

  ghost predicate ClientOk(s: System, c: nat)
    requires c in s.conns
  {
    var x := s.conns[c];
    && (forall i | 0 <= i < |x.log| :: x.log[i].0 in s.conns)
    && (forall k | 0 <= k < |x.snaps| :: x.snaps[k] <= s.conns.Keys)
    && (x.phase.Writing? ==>
          && |x.snaps| > 0
          && forall t | t in x.phase.left :: t in x.snaps[|x.snaps| - 1] && (t, c, |x.snaps| - 1) !in s.failed)
  }

  ghost predicate FailuresOk(s: System) {
    forall t, c, k :: (t, c, k) in s.failed ==> c in s.conns && k < |s.conns[c].snaps|
  }

  ghost predicate LogOk(s: System, t: nat, c: nat)
    requires t in s.conns && c in s.conns
  {
    From(s.conns[t].log, c) == Expected(s.conns[c], s.failed, t, c, |s.conns[c].snaps|)
  }

  ghost predicate Inv(s: System) {
    && s.registered <= s.conns.Keys && FailuresOk(s)
    && (forall c | c in s.conns :: ClientOk(s, c))
    && (forall t, c | t in s.conns && c in s.conns :: LogOk(s, t, c))
  }

  lemma {:induction false} ExpectedFrame(x: Client, y: Client, f: set<(nat, nat, nat)>, g: set<(nat, nat, nat)>,
                                         t: nat, c: nat, n: nat)
    requires n <= |x.snaps| && n <= |y.snaps|
    requires forall k | 0 <= k < n :: WasWritten(x, f, t, c, k) <==> WasWritten(y, g, t, c, k)
    ensures Expected(x, f, t, c, n) == Expected(y, g, t, c, n)
  {
    if n > 0 {
      ExpectedFrame(x, y, f, g, t, c, n - 1);
    }
  }

  lemma FromAppend(log: seq<(nat, nat)>, d: nat, k: nat, c: nat)
    ensures From(log + [(d, k)], c) == From(log, c) + if d == c then [k] else []
  {
    assert (log + [(d, k)])[..|log|] == log;
  }

  lemma {:induction false} NothingFrom(log: seq<(nat, nat)>, c: nat)
    requires forall i | 0 <= i < |log| :: log[i].0 != c
    ensures From(log, c) == []
  {
    if log != [] {
      NothingFrom(log[..|log| - 1], c);
    }
  }

  lemma {:induction false} NothingTo(x: Client, failed: set<(nat, nat, nat)>, t: nat, c: nat, n: nat)
    requires n <= |x.snaps| && forall k | 0 <= k < n :: t !in x.snaps[k]
    ensures Expected(x, failed, t, c, n) == []
  {
    if n > 0 {
      NothingTo(x, failed, t, c, n - 1);
    }
  }

  lemma StepClient(s: System, st: Step, c: nat)
    requires s.registered <= s.conns.Keys && FailuresOk(s) && Enabled(s, st) && c in Apply(s, st).conns
    requires c in s.conns ==> ClientOk(s, c)
    ensures ClientOk(Apply(s, st), c)
  {
    if st.Write? && c in s.conns {
      WriteEffect(s, st.c, st.to, st.ok, c);
    }
  }

  lemma StepClients(s: System, st: Step)
    requires Inv(s) && Enabled(s, st)
    ensures var u := Apply(s, st);
            && u.registered <= u.conns.Keys && FailuresOk(u)
            && forall c | c in u.conns :: ClientOk(u, c)
  {
    var u := Apply(s, st);
    forall c | c in u.conns ensures ClientOk(u, c) { StepClient(s, st, c); }
  }

  lemma JoinLog(s: System, d: nat, t: nat, c: nat)
    requires Inv(s) && Enabled(s, Join(d)) && t in s.conns.Keys + {d} && c in s.conns.Keys + {d}
    ensures LogOk(Apply(s, Join(d)), t, c)
  {
    if c == d {
      if t != d {
        assert ClientOk(s, t);
        NothingFrom(s.conns[t].log, c);
      }
    } else if t == d {
      assert ClientOk(s, c);
      NothingTo(s.conns[c], s.failed, t, c, |s.conns[c].snaps|);
    } else {
      assert LogOk(s, t, c);
    }
  }

  /** Writing the latest message settles it, and no other. */
  lemma ExpectedAfterWrite(x: Client, y: Client, f: set<(nat, nat, nat)>, t: nat, c: nat, ok: bool)
    requires |x.snaps| > 0 && y.snaps == x.snaps && x.phase.Writing? && y.phase == Writing(x.phase.left - {t})
    requires t in x.phase.left && t in x.snaps[|x.snaps| - 1] && (t, c, |x.snaps| - 1) !in f
    ensures var n := |x.snaps|;
            var g := if ok then f else f + {(t, c, n - 1)};
            Expected(y, g, t, c, n) == Expected(x, f, t, c, n) + if ok then [n - 1] else []
  {
    var n := |x.snaps|;
    var g := if ok then f else f + {(t, c, n - 1)};
    ExpectedFrame(x, y, f, g, t, c, n - 1);
  }

  lemma WriteEffect(s: System, d: nat, to: nat, ok: bool, c: nat)
    requires Enabled(s, Write(d, to, ok)) && c in s.conns
    ensures var u := Apply(s, Write(d, to, ok));
            && u.conns.Keys == s.conns.Keys
            && u.conns[c].snaps == s.conns[c].snaps
            && u.conns[c].phase == (if c == d then Writing(s.conns[d].phase.left - {to}) else s.conns[c].phase)
            && u.conns[c].log == s.conns[c].log + if ok && c == to then [(d, |s.conns[d].snaps| - 1)] else []
  {
  }

  /** A write to or from somebody else leaves the messages of `c` to `t` as they were. */
  lemma ExpectedAfterOtherWrite(s: System, d: nat, to: nat, ok: bool, t: nat, c: nat)
    requires Enabled(s, Write(d, to, ok)) && t in s.conns && c in s.conns && (d != c || to != t)
    ensures var u := Apply(s, Write(d, to, ok));
            var n := |s.conns[c].snaps|;
            && n == |u.conns[c].snaps|
            && Expected(u.conns[c], u.failed, t, c, n) == Expected(s.conns[c], s.failed, t, c, n)
  {
    var u := Apply(s, Write(d, to, ok));
    WriteEffect(s, d, to, ok, c);
    ExpectedFrame(s.conns[c], u.conns[c], s.failed, u.failed, t, c, |s.conns[c].snaps|);
  }

  lemma WriteGrowsLog(s: System, d: nat, to: nat, ok: bool, t: nat, c: nat)
    requires Enabled(s, Write(d, to, ok)) && t in s.conns
    ensures From(Apply(s, Write(d, to, ok)).conns[t].log, c)
            == From(s.conns[t].log, c) + if ok && c == d && t == to then [|s.conns[d].snaps| - 1] else []
  {
    WriteEffect(s, d, to, ok, t);
    FromAppend(s.conns[t].log, d, |s.conns[d].snaps| - 1, c);
  }

  lemma WriteSettles(s: System, d: nat, to: nat, ok: bool)
    requires Enabled(s, Write(d, to, ok)) && ClientOk(s, d)
    ensures var u := Apply(s, Write(d, to, ok));
            var n := |s.conns[d].snaps|;
            && n == |u.conns[d].snaps|
            && Expected(u.conns[d], u.failed, to, d, n)
               == Expected(s.conns[d], s.failed, to, d, n) + if ok then [n - 1] else []
  {
    WriteEffect(s, d, to, ok, d);
    ExpectedAfterWrite(s.conns[d], Apply(s, Write(d, to, ok)).conns[d], s.failed, to, d, ok);
  }

  lemma WriteLog(s: System, d: nat, to: nat, ok: bool, t: nat, c: nat)
    requires Enabled(s, Write(d, to, ok)) && t in s.conns && c in s.conns && LogOk(s, t, c) && ClientOk(s, d)
    ensures LogOk(Apply(s, Write(d, to, ok)), t, c)
  {
    WriteGrowsLog(s, d, to, ok, t, c);
    if d == c && to == t {
      WriteSettles(s, d, to, ok);
    } else {
      ExpectedAfterOtherWrite(s, d, to, ok, t, c);
    }
  }

  /** Other steps write nothing, fail nothing, and at most take a snapshot. */
  lemma OtherEffect(s: System, st: Step, c: nat)
    requires Enabled(s, st) && !st.Join? && !st.Write? && c in s.conns
    ensures var u := Apply(s, st);
            && u.failed == s.failed && u.conns.Keys == s.conns.Keys
            && u.conns[c].log == s.conns[c].log
            && if st == TakeSnapshot(c)
               then u.conns[c].snaps == s.conns[c].snaps + [s.registered] && u.conns[c].phase == Writing(s.registered)
               else u.conns[c].snaps == s.conns[c].snaps
                    && (u.conns[c].phase == s.conns[c].phase
                        || (!u.conns[c].phase.Writing? && (s.conns[c].phase.Writing? ==> s.conns[c].phase.left == {})))
  {
  }

  lemma OtherLog(s: System, st: Step, t: nat, c: nat)
    requires Inv(s) && Enabled(s, st) && !st.Join? && !st.Write? && t in s.conns && c in s.conns
    ensures LogOk(Apply(s, st), t, c)
  {
    var u := Apply(s, st);
    assert LogOk(s, t, c) && ClientOk(s, c);
    OtherEffect(s, st, t);
    OtherEffect(s, st, c);
    ExpectedFrame(s.conns[c], u.conns[c], s.failed, u.failed, t, c, |s.conns[c].snaps|);
  }

  lemma StepInv(s: System, st: Step)
    requires Inv(s) && Enabled(s, st)
    ensures Inv(Apply(s, st))
  {
    StepClients(s, st);
    var u := Apply(s, st);
    forall t, c | t in u.conns && c in u.conns ensures LogOk(u, t, c) {
      match st {
        case Join(d) => JoinLog(s, d, t, c);
        case Write(d, to, ok) => assert ClientOk(s, d) && LogOk(s, t, c); WriteLog(s, d, to, ok, t, c);
        case _ => OtherLog(s, st, t, c);
      }
    }
  }

  lemma {:induction false} RunInv(s: System, steps: seq<Step>)
    requires Inv(s) && Valid(s, steps)
    ensures Inv(After(s, steps))
    decreases |steps|
  {
    if steps != [] {
      StepInv(s, steps[0]);
      RunInv(Apply(s, steps[0]), steps[1..]);
    }
  }

  /** The clients whose read loop has not ended. */
  function OpenClients(s: System): set<nat> {
    set c | c in s.conns && !s.conns[c].phase.Closed?
  }

  lemma {:induction false} RunRegistered(s: System, steps: seq<Step>)
    requires Valid(s, steps) && s.registered == OpenClients(s)
    ensures After(s, steps).registered == OpenClients(After(s, steps))
    decreases |steps|
  {
    if steps != [] {
      var t := Apply(s, steps[0]);
      assert t.registered == OpenClients(t);
      RunRegistered(t, steps[1..]);
    }
  }

  /** A client is registered exactly while its read loop runs, so the client count is
      the number of running read loops, and a broadcast starts out with exactly these. */
  lemma RegisteredExactlyWhileOpen(steps: seq<Step>, c: nat)
    requires Valid(Init(), steps)
    ensures var s := After(Init(), steps);
            && s.registered == OpenClients(s)
            && (Enabled(s, TakeSnapshot(c)) ==>
                  c in OpenClients(s) && Apply(s, TakeSnapshot(c)).conns[c].phase == Writing(OpenClients(s)))
  {
    assert OpenClients(Init()) == {};
    RunRegistered(Init(), steps);
  }

  ghost predicate Increasing(ks: seq<nat>, n: nat) {
    && (forall i, j | 0 <= i < j < |ks| :: ks[i] < ks[j])
    && (forall i | 0 <= i < |ks| :: ks[i] < n)
  }

  lemma {:induction false} ExpectedIncreasing(x: Client, failed: set<(nat, nat, nat)>, t: nat, c: nat, n: nat)
    requires n <= |x.snaps|
    ensures Increasing(Expected(x, failed, t, c, n), n)
    ensures forall k: nat | k < n :: k in Expected(x, failed, t, c, n) <==> WasWritten(x, failed, t, c, k)
  {
    if n > 0 {
      ExpectedIncreasing(x, failed, t, c, n - 1);
    }
  }

  /** How many messages have been read from `c`, if it joined at all. */
  function SentBy(s: System, c: nat): nat {
    if c in s.conns then Sent(s.conns[c]) else 0
  }

  /** How many messages the steps read from `c`. */
  function Reads(steps: seq<Step>, c: nat): nat {
    if steps == [] then 0 else (if steps[0] == Read(c) then 1 else 0) + Reads(steps[1..], c)
  }

  /** The numbers of the messages of `c` that the steps write to `t`, with success or
      without, in order; `sent` messages were read from `c` before. */
  function Writes(steps: seq<Step>, c: nat, t: nat, ok: bool, sent: nat): seq<nat> {
    if steps == [] then []
    else if steps[0] == Read(c) then Writes(steps[1..], c, t, ok, sent + 1)
    else (if steps[0] == Write(c, t, ok) && sent > 0 then [sent - 1] else []) + Writes(steps[1..], c, t, ok, sent)
  }

  function LogOf(s: System, t: nat, c: nat): seq<nat> {
    if t in s.conns then From(s.conns[t].log, c) else []
  }

  lemma StepRecords(s: System, st: Step, t: nat, c: nat)
    requires Enabled(s, st)
    ensures var u := Apply(s, st);
            && SentBy(u, c) == SentBy(s, c) + (if st == Read(c) then 1 else 0)
            && (st.Write? && st.c == c ==> SentBy(s, c) > 0)
            && LogOf(u, t, c) == LogOf(s, t, c) + (if st == Write(c, t, true) then [SentBy(s, c) - 1] else [])
            && forall k :: (t, c, k) in u.failed <==>
                             (t, c, k) in s.failed || (st == Write(c, t, false) && k == SentBy(s, c) - 1)
  {
    if st.Write? {
      WriteEffect(s, st.c, st.to, st.ok, st.c);
      if c in s.conns {
        WriteEffect(s, st.c, st.to, st.ok, c);
      }
      if t in s.conns {
        WriteGrowsLog(s, st.c, st.to, st.ok, t, c);
      }
    }
  }

  lemma {:induction false} RunRecords(s: System, steps: seq<Step>, t: nat, c: nat)
    requires Valid(s, steps)
    ensures var u := After(s, steps);
            && SentBy(u, c) == SentBy(s, c) + Reads(steps, c)
            && LogOf(u, t, c) == LogOf(s, t, c) + Writes(steps, c, t, true, SentBy(s, c))
            && forall k :: (t, c, k) in u.failed <==>
                             (t, c, k) in s.failed || k in Writes(steps, c, t, false, SentBy(s, c))
    decreases |steps|
  {
    if steps != [] {
      StepRecords(s, steps[0], t, c);
      RunRecords(Apply(s, steps[0]), steps[1..], t, c);
    }
  }

  /** For any clients joining, leaving and broadcasting at once: the messages of one
      sender that a run writes to a receiver successfully are in the order in which
      they were read from the sender, without repeats, and exactly those in whose
      snapshot the receiver was and whose write has happened and not failed. */
  lemma MessagesKeepOrder(steps: seq<Step>, t: nat, c: nat)
    requires Valid(Init(), steps)
    requires t in After(Init(), steps).conns && c in After(Init(), steps).conns
    ensures var s := After(Init(), steps);
            var x := s.conns[c];
            var got := Writes(steps, c, t, true, 0);
            && Sent(x) == Reads(steps, c) && From(s.conns[t].log, c) == got
            && Increasing(got, |x.snaps|)
            && (forall k: nat :: k in got <==> k < |x.snaps| && WasWritten(x, s.failed, t, c, k))
            && (forall k: nat :: (t, c, k) in s.failed <==> k in Writes(steps, c, t, false, 0))
  {
    RunInv(Init(), steps);
    RunRecords(Init(), steps, t, c);
    var s := After(Init(), steps);
    assert LogOk(s, t, c);
    ExpectedIncreasing(s.conns[c], s.failed, t, c, |s.conns[c].snaps|);
  }

  /** A read loop is never stuck: whatever the others do, it can read, broadcast to the
      next client of its snapshot, or go back to reading. */
  lemma OpenClientMoves(steps: seq<Step>, c: nat) returns (st: Step)
    requires Valid(Init(), steps) && c in After(Init(), steps).registered
    ensures Enabled(After(Init(), steps), st)
    ensures st == Read(c) || st == TakeSnapshot(c) || st == EndBroadcast(c)
            || (st.Write? && st.c == c && Enabled(After(Init(), steps), Write(c, st.to, !st.ok)))
  {
    RunInv(Init(), steps);
    RegisteredExactlyWhileOpen(steps, c);
    var s := After(Init(), steps);
    assert ClientOk(s, c);
    match s.conns[c].phase {
      case Reading => st := Read(c);
      case HasMsg => st := TakeSnapshot(c);
      case Writing(left) =>
        if to :| to in left {
          st := Write(c, to, true);
        } else {
          st := EndBroadcast(c);
        }
    }
  }

  // --------------------------------------------------- staying registered

  /** Throughout the run `t` is registered and no write of `c` to it fails. */
  ghost predicate Stays(s: System, t: nat, c: nat, steps: seq<Step>)
    requires Valid(s, steps)
    decreases |steps|
  {
    && t in s.registered
    && (steps == [] || (steps[0] != Write(c, t, false) && Stays(Apply(s, steps[0]), t, c, steps[1..])))
  }

  /** From message `from` on, `t` is in every snapshot of `c` and no write failed. */
  ghost predicate Complete(s: System, t: nat, c: nat, from: nat) {
    c in s.conns ==>
      forall k | from <= k < |s.conns[c].snaps| :: t in s.conns[c].snaps[k] && (t, c, k) !in s.failed
  }

  lemma StepComplete(s: System, st: Step, t: nat, c: nat, from: nat)
    requires FailuresOk(s) && Enabled(s, st) && t in s.registered && st != Write(c, t, false)
    requires Complete(s, t, c, from)
    ensures Complete(Apply(s, st), t, c, from)
  {
  }

  lemma {:induction false} RunComplete(s: System, t: nat, c: nat, from: nat, steps: seq<Step>)
    requires Inv(s) && Valid(s, steps) && Stays(s, t, c, steps) && Complete(s, t, c, from)
    ensures Inv(After(s, steps)) && Complete(After(s, steps), t, c, from) && t in After(s, steps).registered
    decreases |steps|
  {
    if steps != [] {
      StepInv(s, steps[0]);
      StepComplete(s, steps[0], t, c, from);
      RunComplete(Apply(s, steps[0]), t, c, from, steps[1..]);
    }
  }

  /** A receiver that stays registered and whose writes succeed gets every message a
      sender sends in that time: once the sender is back at its read loop, all
      messages read from it since then are in the receiver's log. */
  lemma RegisteredReceiverGetsAll(before: seq<Step>, steps: seq<Step>, t: nat, c: nat, k: nat)
    requires Valid(Init(), before) && Valid(After(Init(), before), steps)
    requires Stays(After(Init(), before), t, c, steps)
    ensures var s := After(Init(), before);
            var u := After(s, steps);
            && t in u.conns
            && (c in u.conns && (u.conns[c].phase.Reading? || u.conns[c].phase.Closed?)
                && SentBy(s, c) <= k < SentBy(u, c) ==>
                  k in From(u.conns[t].log, c))
  {
    var s := After(Init(), before);
    RunInv(Init(), before);
    RunComplete(s, t, c, SentBy(s, c), steps);
    var u := After(s, steps);
    if c in u.conns {
      assert LogOk(u, t, c);
      ExpectedIncreasing(u.conns[c], u.failed, t, c, |u.conns[c].snaps|);
    }
  }
}
