/** Sharing memory by communicating: resources travel in a ring from the pollers to
    sleeping goroutines and back, over unbuffered channels, each owned by one
    goroutine at a time. */
module PollerRing {
  import opened Wrappers

  const POLL_INTERVAL := 60
  const ERR_TIMEOUT := 10

  /** A completed poll: when, whether the request succeeded, and the status text. */
  datatype Poll = Poll(time: int, ok: bool, status: string)

  function NextErrCount(errCount: nat, ok: bool): nat {
    if ok then 0 else errCount + 1
  }

  function Nap(errCount: nat): nat {
    POLL_INTERVAL + ERR_TIMEOUT * errCount
  }

  class Resource {
    const url: string
    var errCount: nat

    constructor (url: string)
      ensures this.url == url && errCount == 0
    {
      this.url := url;
      errCount := 0;
    }

    /** The request's outcome and its status or error text come from outside. */
    method DoPoll(ok: bool, text: string) returns (status: string)
      modifies this
      ensures errCount == NextErrCount(old(errCount), ok) && status == text
      ensures if ok then errCount == 0 else errCount == old(errCount) + 1
    {
      if !ok {
        errCount := errCount + 1;
        return text;
      }
      errCount := 0;
      status := text;
    }

    method SleepTime() returns (seconds: nat)
      ensures seconds == Nap(errCount) == 60 + 10 * errCount
    {
      seconds := POLL_INTERVAL + ERR_TIMEOUT * errCount;
    }
  }

  class StateMonitor {
    var urlStatus: map<string, string>

    constructor ()
      ensures urlStatus == map[]
    {
      urlStatus := map[];
    }

    method Update(url: string, status: string)
      modifies this
      ensures urlStatus == old(urlStatus)[url := status]
    {
      urlStatus := urlStatus[url := status];
    }
  }

  // ------------------------------------------------------------------ the ring

  datatype Poller = Idle | Polling(r: nat) | Reporting(r: nat, status: string) | Sending(r: nat)

  datatype Sleeper = Sleeper(r: nat, wake: int)

  /** Resources are numbered like `urls`; `next` is the first one not yet sent by the
      seeding goroutine. `main` is the resource the main loop has received and not
      yet passed on to a sleeper. `polls[r]` is the history of polls of resource `r`. */
  datatype Ring = Ring(
    clock: int,
    urls: seq<string>,
    next: nat,
    pollers: seq<Poller>,
    main: Option<nat>,
    sleepers: map<nat, Sleeper>,
    nextSleeper: nat,
    errCount: seq<nat>,
    urlStatus: map<string, string>,
    polls: seq<seq<Poll>>)

  datatype Step =
    | Tick(seconds: nat)
    | Seed(p: nat)                                // the seeder's send meets poller `p`
    | FinishPoll(p: nat, ok: bool, text: string)
    | Report(p: nat)                              // the monitor receives the state
    | Collect(p: nat)                             // the main loop receives a resource
    | Spawn                                       // go r.Sleep(pending)
    | Requeue(id: nat, p: nat)                    // a sleeper's send meets poller `p`

  function Init(clock: int, urls: seq<string>, numPollers: nat): Ring {
    Ring(clock, urls, 0, seq(numPollers, _ => Idle), None, map[], 0,
         seq(|urls|, _ => 0), map[], seq(|urls|, _ => []))
  }

  predicate Enabled(s: Ring, st: Step) {
    match st
    case Tick(_) => true
    case Seed(p) => s.next < |s.urls| && p < |s.pollers| && s.pollers[p].Idle?
    case FinishPoll(p, _, _) =>
      p < |s.pollers| && s.pollers[p].Polling? && s.pollers[p].r < |s.errCount| && s.pollers[p].r < |s.polls|
    case Report(p) => p < |s.pollers| && s.pollers[p].Reporting? && s.pollers[p].r < |s.urls|
    case Collect(p) => p < |s.pollers| && s.pollers[p].Sending? && s.main.None?
    case Spawn => s.main.Some? && s.main.value < |s.errCount|
    case Requeue(id, p) =>
      && id in s.sleepers && s.sleepers[id].wake <= s.clock
      && p < |s.pollers| && s.pollers[p].Idle?
  }

  function Apply(s: Ring, st: Step): Ring
    requires Enabled(s, st)
  {
    match st
    case Tick(d) => s.(clock := s.clock + d)
    case Seed(p) => s.(next := s.next + 1, pollers := s.pollers[p := Polling(s.next)])
    case FinishPoll(p, ok, text) =>
      var r := s.pollers[p].r;
      s.(pollers := s.pollers[p := Reporting(r, text)],
         errCount := s.errCount[r := NextErrCount(s.errCount[r], ok)],
         polls := s.polls[r := s.polls[r] + [Poll(s.clock, ok, text)]])
    case Report(p) =>
      s.(pollers := s.pollers[p := Sending(s.pollers[p].r)],
         urlStatus := s.urlStatus[s.urls[s.pollers[p].r] := s.pollers[p].status])
    case Collect(p) => s.(pollers := s.pollers[p := Idle], main := Some(s.pollers[p].r))
    case Spawn =>
      s.(main := None,
         sleepers := s.sleepers[s.nextSleeper := Sleeper(s.main.value, s.clock + Nap(s.errCount[s.main.value]))],
         nextSleeper := s.nextSleeper + 1)
    case Requeue(id, p) =>
      s.(pollers := s.pollers[p := Polling(s.sleepers[id].r)], sleepers := s.sleepers - {id})
  }

  ghost predicate Valid(s: Ring, steps: seq<Step>)
    decreases |steps|
  {
    steps == [] || (Enabled(s, steps[0]) && Valid(Apply(s, steps[0]), steps[1..]))
  }

  ghost function After(s: Ring, steps: seq<Step>): Ring
    requires Valid(s, steps)
    decreases |steps|
  {
    if steps == [] then s else After(Apply(s, steps[0]), steps[1..])
  }

  // ----------------------------------------------------------------- ownership

  datatype Owner = Seeder | ByPoller(p: nat) | Main | BySleeper(id: nat)

  /** The goroutine `o` has resource `r` in its hands. */
  predicate Owns(s: Ring, o: Owner, r: nat) {
    match o
    case Seeder => s.next <= r < |s.urls|
    case ByPoller(p) => p < |s.pollers| && !s.pollers[p].Idle? && s.pollers[p].r == r
    case Main => s.main == Some(r)
    case BySleeper(id) => id in s.sleepers && s.sleepers[id].r == r
  }

  ghost predicate OneOwner(s: Ring, r: nat) {
    && (exists o :: Owns(s, o, r))
    && (forall o, q :: Owns(s, o, r) && Owns(s, q, r) ==> o == q)
  }

  ghost predicate Owned(s: Ring) {
    && |s.errCount| == |s.urls| == |s.polls| && s.next <= |s.urls|
    && (forall id | id in s.sleepers :: id < s.nextSleeper)
    && (forall o, r: nat :: Owns(s, o, r) ==> r < |s.urls|)
    && (forall r: nat | r < |s.urls| :: OneOwner(s, r))
  }

  /** Where a step moves the resource it is about. */
  function NewOwner(s: Ring, st: Step): Owner {
    match st
    case Seed(p) => ByPoller(p)
    case Requeue(_, p) => ByPoller(p)
    case Collect(_) => Main
    case Spawn => BySleeper(s.nextSleeper)
    case FinishPoll(p, _, _) => ByPoller(p)
    case Report(p) => ByPoller(p)
    case Tick(_) => Main
  }

  function OldOwner(st: Step): Owner {
    match st
    case Seed(_) => Seeder
    case Requeue(id, _) => BySleeper(id)
    case Collect(p) => ByPoller(p)
    case Spawn => Main
    case FinishPoll(p, _, _) => ByPoller(p)
    case Report(p) => ByPoller(p)
    case Tick(_) => Main
  }

  function Moved(s: Ring, st: Step): nat
    requires Enabled(s, st) && !st.Tick?
  {
    match st
    case Seed(_) => s.next
    case Requeue(id, _) => s.sleepers[id].r
    case Collect(p) => s.pollers[p].r
    case Spawn => s.main.value
    case FinishPoll(p, _, _) => s.pollers[p].r
    case Report(p) => s.pollers[p].r
  }

  /** A step hands its resource from one owner to another and touches no other. */
  lemma StepOwns(s: Ring, st: Step, o: Owner, r: nat)
    requires Owned(s) && Enabled(s, st)
    ensures st.Tick? ==> (Owns(Apply(s, st), o, r) <==> Owns(s, o, r))
    ensures !st.Tick? ==> Owns(s, OldOwner(st), Moved(s, st))
    ensures !st.Tick? ==>
              (Owns(Apply(s, st), o, r) <==>
               if r == Moved(s, st) then o == NewOwner(s, st) else Owns(s, o, r))
  {
    if !st.Tick? {
      var m := Moved(s, st);
      assert Owns(s, OldOwner(st), m);
      assert OneOwner(s, m);
      if r == m && Owns(s, o, r) { assert o == OldOwner(st); }
    }
  }

  lemma StepOwned(s: Ring, st: Step)
    requires Owned(s) && Enabled(s, st)
    ensures Owned(Apply(s, st))
  {
    var u := Apply(s, st);
    forall o, r: nat | Owns(u, o, r) ensures r < |u.urls| {
      StepOwns(s, st, o, r);
    }
    forall r: nat | r < |u.urls| ensures OneOwner(u, r) {
      assert OneOwner(s, r);
      forall o, q | Owns(u, o, r) && Owns(u, q, r) ensures o == q {
        StepOwns(s, st, o, r);
        StepOwns(s, st, q, r);
      }
      var o :| Owns(s, o, r);
      var n := if !st.Tick? && r == Moved(s, st) then NewOwner(s, st) else o;
      StepOwns(s, st, n, r);
      assert Owns(u, n, r);
    }
  }

  lemma InitOwned(clock: int, urls: seq<string>, numPollers: nat)
    ensures Owned(Init(clock, urls, numPollers))
  {
    var s := Init(clock, urls, numPollers);
    forall r: nat | r < |urls| ensures OneOwner(s, r) {
      assert Owns(s, Seeder, r);
    }
  }

  lemma {:induction false} RunOwned(s: Ring, steps: seq<Step>)
    requires Owned(s) && Valid(s, steps)
    ensures Owned(After(s, steps)) && After(s, steps).urls == s.urls && |After(s, steps).pollers| == |s.pollers|
    decreases |steps|
  {
    if steps != [] {
      StepOwned(s, steps[0]);
      RunOwned(Apply(s, steps[0]), steps[1..]);
    }
  }

  /** At every moment each resource is in the hands of exactly one goroutine; a step
      changes a resource only if it is its owner's, so no two ever touch it at once. */
  lemma ExactlyOneOwner(clock: int, urls: seq<string>, numPollers: nat, steps: seq<Step>, st: Step, r: nat)
    requires Valid(Init(clock, urls, numPollers), steps) && r < |urls|
    requires Enabled(After(Init(clock, urls, numPollers), steps), st)
    ensures var s := After(Init(clock, urls, numPollers), steps);
            && OneOwner(s, r) && |s.pollers| == numPollers
            && |s.errCount| == |s.polls| == |Apply(s, st).errCount| == |Apply(s, st).polls| == |urls|
            && (Apply(s, st).errCount[r] != s.errCount[r] || Apply(s, st).polls[r] != s.polls[r] ==>
                  st.FinishPoll? && Owns(s, ByPoller(st.p), r))
  {
    InitOwned(clock, urls, numPollers);
    RunOwned(Init(clock, urls, numPollers), steps);
  }

  // ------------------------------------------------------------------ progress

  /** The ring never stops: with a poller and a resource, some resource can be moved
      on now, or a sleeper only has to wait out its nap. */
  lemma RingMoves(clock: int, urls: seq<string>, numPollers: nat, steps: seq<Step>) returns (nap: nat, st: Step)
    requires Valid(Init(clock, urls, numPollers), steps) && numPollers >= 1 && urls != []
    ensures var s := After(Init(clock, urls, numPollers), steps);
            && !st.Tick? && Enabled(Apply(s, Tick(nap)), st)
            && (nap > 0 ==> st.Requeue? && s.sleepers[st.id].wake == s.clock + nap)
  {
    InitOwned(clock, urls, numPollers);
    RunOwned(Init(clock, urls, numPollers), steps);
    var s := After(Init(clock, urls, numPollers), steps);
    nap := 0;
    if s.main.Some? {
      assert Owns(s, Main, s.main.value);
      st := Spawn;
    } else if p :| 0 <= p < |s.pollers| && !s.pollers[p].Idle? {
      assert Owns(s, ByPoller(p), s.pollers[p].r);
      st := if s.pollers[p].Polling? then FinishPoll(p, true, "")
      else if s.pollers[p].Reporting? then Report(p)
      else Collect(p);
    } else {
      assert OneOwner(s, 0);
      var o :| Owns(s, o, 0);
      match o {
        case Seeder => st := Seed(0);
        case BySleeper(id) =>
          if s.sleepers[id].wake > s.clock {
            nap := s.sleepers[id].wake - s.clock;
          }
          st := Requeue(id, 0);
        case _ => assert false;
      }
    }
  }

  // ------------------------------------------------------- statuses and errors

  /** How many polls at the end of the history failed in a row. */
  function TrailingFailures(polls: seq<Poll>): nat {
    if polls == [] || polls[|polls| - 1].ok then 0 else 1 + TrailingFailures(polls[..|polls| - 1])
  }

  lemma TrailingFailuresAppend(polls: seq<Poll>, x: Poll)
    ensures TrailingFailures(polls + [x]) == NextErrCount(TrailingFailures(polls), x.ok)
  {
    assert (polls + [x])[..|polls|] == polls;
  }

  /** When a resource may be polled again: its last poll, plus the interval, plus a
      back-off for each failure in a row. */
  function Due(polls: seq<Poll>): int
    requires polls != []
  {
    polls[|polls| - 1].time + Nap(TrailingFailures(polls))
  }

  /** Each poll of the history came when the ones before it allowed. */
  ghost predicate Paced(polls: seq<Poll>) {
    forall k | 0 < k < |polls| :: Due(polls[..k]) <= polls[k].time
  }

  /** What a resource's history looks like while a poller has it. */
  ghost predicate PollerOk(x: Poller, polls: seq<Poll>, clock: int) {
    match x
    case Idle => true
    case Polling(_) => polls != [] ==> Due(polls) <= clock
    case Reporting(_, status) => polls != [] && status == polls[|polls| - 1].status
    case Sending(_) => polls != []
  }

  ghost predicate HistoryOk(errCount: nat, polls: seq<Poll>, clock: int) {
    errCount == TrailingFailures(polls) && Paced(polls) && (polls != [] ==> polls[|polls| - 1].time <= clock)
  }

  ghost predicate ResourceOk(s: Ring, r: nat)
    requires r < |s.urls| == |s.errCount| == |s.polls|
  {
    var polls := s.polls[r];
    && HistoryOk(s.errCount[r], polls, s.clock)
    && (forall p | 0 <= p < |s.pollers| && !s.pollers[p].Idle? && s.pollers[p].r == r ::
          PollerOk(s.pollers[p], polls, s.clock))
    && (s.main == Some(r) ==> polls != [])
    && (forall id | id in s.sleepers && s.sleepers[id].r == r :: polls != [] && Due(polls) <= s.sleepers[id].wake)
    && (r >= s.next ==> polls == [])
  }

  predicate IsReported(s: Ring, r: nat) {
    forall p | 0 <= p < |s.pollers| :: !(s.pollers[p].Reporting? && s.pollers[p].r == r)
  }

  /** The monitor's map has the resource's latest status, once it was reported. */
  ghost predicate StatusOk(s: Ring, r: nat)
    requires r < |s.urls| == |s.polls|
  {
    s.polls[r] != [] && IsReported(s, r) ==>
      s.urls[r] in s.urlStatus && s.urlStatus[s.urls[r]] == s.polls[r][|s.polls[r]| - 1].status
  }

  predicate Distinct(urls: seq<string>) {
    forall i, j | 0 <= i < j < |urls| :: urls[i] != urls[j]
  }

  lemma PacedAppend(polls: seq<Poll>, x: Poll)
    requires Paced(polls) && (polls != [] ==> Due(polls) <= x.time)
    ensures Paced(polls + [x])
  {
    var all := polls + [x];
    forall k | 0 < k < |all| ensures Due(all[..k]) <= all[k].time {
      assert all[..k] == polls[..k];
      assert polls[..|polls|] == polls;
    }
  }

  lemma OnlyPoller(s: Ring, p: nat, r: nat)
    requires Owned(s) && Owns(s, ByPoller(p), r)
    ensures r < s.next && s.main != Some(r)
    ensures forall id | id in s.sleepers :: s.sleepers[id].r != r
    ensures forall q | 0 <= q < |s.pollers| && q != p && !s.pollers[q].Idle? :: s.pollers[q].r != r
  {
    assert OneOwner(s, r);
    assert s.main == Some(r) ==> Owns(s, Main, r);
    assert r >= s.next ==> Owns(s, Seeder, r);
    forall id | id in s.sleepers ensures s.sleepers[id].r != r { assert !Owns(s, BySleeper(id), r); }
    forall q | 0 <= q < |s.pollers| && q != p && !s.pollers[q].Idle? ensures s.pollers[q].r != r {
      assert !Owns(s, ByPoller(q), r);
    }
  }

  lemma FinishHistory(errCount: nat, polls: seq<Poll>, clock: int, ok: bool, text: string)
    requires HistoryOk(errCount, polls, clock) && (polls != [] ==> Due(polls) <= clock)
    ensures HistoryOk(NextErrCount(errCount, ok), polls + [Poll(clock, ok, text)], clock)
  {
    TrailingFailuresAppend(polls, Poll(clock, ok, text));
    PacedAppend(polls, Poll(clock, ok, text));
  }

  lemma FinishResource(s: Ring, p: nat, ok: bool, text: string, r: nat)
    requires |s.errCount| == |s.urls| == |s.polls| && Enabled(s, FinishPoll(p, ok, text))
    requires r == s.pollers[p].r && ResourceOk(s, r)
    requires r < s.next && s.main != Some(r)
    requires forall id | id in s.sleepers :: s.sleepers[id].r != r
    requires forall q | 0 <= q < |s.pollers| && q != p && !s.pollers[q].Idle? :: s.pollers[q].r != r
    ensures ResourceOk(Apply(s, FinishPoll(p, ok, text)), r)
  {
    var u := Apply(s, FinishPoll(p, ok, text));
    assert PollerOk(s.pollers[p], s.polls[r], s.clock);
    FinishHistory(s.errCount[r], s.polls[r], s.clock, ok, text);
    assert PollerOk(u.pollers[p], u.polls[r], u.clock);
  }

  lemma StepResource(s: Ring, st: Step, r: nat)
    requires Owned(s) && Enabled(s, st) && r < |s.urls| && ResourceOk(s, r)
    ensures ResourceOk(Apply(s, st), r)
  {
    if st.FinishPoll? && r == s.pollers[st.p].r {
      assert Owns(s, ByPoller(st.p), r);
      OnlyPoller(s, st.p, r);
      FinishResource(s, st.p, st.ok, st.text, r);
    }
  }

  lemma WasReported(s: Ring, st: Step, r: nat)
    requires Owned(s) && Enabled(s, st) && IsReported(Apply(s, st), r)
    requires st.Report? ==> s.pollers[st.p].r != r
    ensures IsReported(s, r)
  {
    var u := Apply(s, st);
    forall p | 0 <= p < |s.pollers| ensures !(s.pollers[p].Reporting? && s.pollers[p].r == r) {
      assert !(u.pollers[p].Reporting? && u.pollers[p].r == r);
    }
  }

  lemma StepStatus(s: Ring, st: Step, r: nat)
    requires Owned(s) && Enabled(s, st) && r < |s.urls| && Distinct(s.urls) && StatusOk(s, r)
    requires ResourceOk(s, r)
    ensures StatusOk(Apply(s, st), r)
  {
    var u := Apply(s, st);
    if u.polls[r] != [] && IsReported(u, r) {
      if st.Report? && s.pollers[st.p].r == r {
        assert Owns(s, ByPoller(st.p), r);
      } else {
        WasReported(s, st, r);
        if st.FinishPoll? {
          assert !(u.pollers[st.p].Reporting? && u.pollers[st.p].r == r);
        }
      }
    }
  }

  ghost predicate Inv(s: Ring) {
    && Owned(s)
    && forall r: nat | r < |s.urls| :: ResourceOk(s, r) && (Distinct(s.urls) ==> StatusOk(s, r))
  }

  lemma {:induction false} RunInv(s: Ring, steps: seq<Step>)
    requires Inv(s) && Valid(s, steps)
    ensures Inv(After(s, steps)) && After(s, steps).urls == s.urls
    decreases |steps|
  {
    if steps != [] {
      var u := Apply(s, steps[0]);
      StepOwned(s, steps[0]);
      forall r: nat | r < |u.urls| ensures ResourceOk(u, r) && (Distinct(u.urls) ==> StatusOk(u, r)) {
        StepResource(s, steps[0], r);
        if Distinct(s.urls) {
          StepStatus(s, steps[0], r);
        }
      }
      RunInv(u, steps[1..]);
    }
  }

  /** The polls of resource `r` that the steps of a run report: when each ended, whether
      the request succeeded, and the status. */
  ghost function PollsOf(s: Ring, steps: seq<Step>, r: nat): seq<Poll>
    requires Valid(s, steps)
    decreases |steps|
  {
    if steps == [] then []
    else
      var st := steps[0];
      (if st.FinishPoll? && s.pollers[st.p].r == r then [Poll(s.clock, st.ok, st.text)] else [])
      + PollsOf(Apply(s, st), steps[1..], r)
  }

  lemma {:induction false} RunPolls(s: Ring, steps: seq<Step>, r: nat)
    requires Valid(s, steps) && r < |s.polls|
    ensures r < |After(s, steps).polls| && After(s, steps).polls[r] == s.polls[r] + PollsOf(s, steps, r)
    decreases |steps|
  {
    if steps != [] {
      var st, u := steps[0], Apply(s, steps[0]);
      RunPolls(u, steps[1..], r);
      var x := if st.FinishPoll? && s.pollers[st.p].r == r then [Poll(s.clock, st.ok, st.text)] else [];
      assert u.polls[r] == s.polls[r] + x;
      assert s.polls[r] + x + PollsOf(u, steps[1..], r) == s.polls[r] + (x + PollsOf(u, steps[1..], r));
    }
  }

  ghost predicate KeepsDistance(polls: seq<Poll>) {
    forall k | 0 < k < |polls| :: polls[k].time >= polls[k - 1].time + 60 + 10 * TrailingFailures(polls[..k])
  }

  lemma PacedKeepsDistance(polls: seq<Poll>)
    requires Paced(polls)
    ensures KeepsDistance(polls)
  {
    forall k | 0 < k < |polls|
      ensures polls[k].time >= polls[k - 1].time + 60 + 10 * TrailingFailures(polls[..k])
    {
      assert Due(polls[..k]) <= polls[k].time;
    }
  }

  /** For every run, in terms of the polls of a resource that it contains: the
      resource's `errCount` is the length of the trailing run of failed polls; no poll
      of it ends before 60 seconds, and 10 more per failure in a row, have passed since
      the one before; and, with distinct URLs, once a polled resource's status has been
      handed to the monitor the map holds that latest status. */
  lemma RingIsPacedAndCurrent(clock: int, urls: seq<string>, numPollers: nat, steps: seq<Step>, r: nat)
    requires Valid(Init(clock, urls, numPollers), steps) && r < |urls|
    ensures var s := After(Init(clock, urls, numPollers), steps);
            var polls := PollsOf(Init(clock, urls, numPollers), steps, r);
            && |s.errCount| == |urls| && s.urls == urls
            && s.errCount[r] == TrailingFailures(polls)
            && KeepsDistance(polls)
            && (Distinct(urls) && polls != [] && IsReported(s, r) ==>
                  urls[r] in s.urlStatus && s.urlStatus[urls[r]] == polls[|polls| - 1].status)
  {
    InitOwned(clock, urls, numPollers);
    RunInv(Init(clock, urls, numPollers), steps);
    RunPolls(Init(clock, urls, numPollers), steps, r);
    var s := After(Init(clock, urls, numPollers), steps);
    assert ResourceOk(s, r);
    assert s.polls[r] == PollsOf(Init(clock, urls, numPollers), steps, r);
    PacedKeepsDistance(s.polls[r]);
  }
}
