/** A lock over one Redis: SET NX PX to acquire, compare-and-act scripts to release
    and extend, INCR for fencing numbers, and the store that checks them. */
module DistributedLock {
  import opened Wrappers

  // ---------------------------------------------------------- Redis commands

  /** A key with its owner token, gone from time `expiry` on. */
  datatype Entry = Entry(token: nat, expiry: int)

  /** The lock key and the fence counter. */
  datatype Db = Db(entry: Option<Entry>, fence: nat)

  /** What GET would answer at time `now`. */
  function Live(db: Db, now: int): Option<nat> {
    if db.entry.Some? && now < db.entry.value.expiry then Some(db.entry.value.token) else None
  }

  function SetNX(db: Db, now: int, token: nat, ttl: int): (Db, bool) {
    if Live(db, now).Some? then (db, false)
    else (db.(entry := Some(Entry(token, now + ttl))), true)
  }

  function Incr(db: Db): (Db, nat) {
    (db.(fence := db.fence + 1), db.fence + 1)
  }

  function ReleaseScript(db: Db, now: int, token: nat): (Db, int) {
    if Live(db, now) == Some(token) then (db.(entry := None), 1) else (db, 0)
  }

  /** PEXPIRE with a TTL below one millisecond removes the key, and still answers 1. */
  function ExtendScript(db: Db, now: int, token: nat, ms: int): (Db, int) {
    if Live(db, now) == Some(token) then
      (db.(entry := if ms > 0 then Some(Entry(token, now + ms)) else None), 1)
    else (db, 0)
  }

  /** `Failed` stands for every error of the random source or the network. */
  datatype Error = ErrNotAcquired | ErrNotHeld | Failed

  /** What becomes of a command: it is done, it never reaches the server, or it is done
      and the reply is lost. */
  datatype Link = Up | RequestLost | ReplyLost

  datatype Lock = Lock(token: nat, fence: nat)

  /** The Redis server. Every method is one command or script, executed atomically;
      `now` is the server's clock. */
  class Redis {
    var entry: Option<Entry>
    var fence: nat

    ghost function View(): Db
      reads this
    {
      Db(entry, fence)
    }

    constructor ()
      ensures View() == Db(None, 0)
    {
      entry, fence := None, 0;
    }

    method Get(now: int) returns (token: Option<nat>)
      ensures token == Live(View(), now)
    {
      token := None;
      if entry.Some? && now < entry.value.expiry {
        token := Some(entry.value.token);
      }
    }

    method RunSetNX(now: int, token: nat, ttl: int) returns (ok: bool)
      modifies this
      ensures (View(), ok) == SetNX(old(View()), now, token, ttl)
    {
      var holder := Get(now);
      if holder.Some? {
        return false;
      }
      entry := Some(Entry(token, now + ttl));
      ok := true;
    }

    method RunIncr() returns (n: nat)
      modifies this
      ensures (View(), n) == Incr(old(View()))
    {
      fence := fence + 1;
      n := fence;
    }

    method RunRelease(now: int, token: nat) returns (deleted: int)
      modifies this
      ensures (View(), deleted) == ReleaseScript(old(View()), now, token)
    {
      var holder := Get(now);
      if holder == Some(token) {
        entry := None;
        return 1;
      }
      deleted := 0;
    }

    method RunExtend(now: int, token: nat, ms: int) returns (extended: int)
      modifies this
      ensures (View(), extended) == ExtendScript(old(View()), now, token, ms)
    {
      var holder := Get(now);
      if holder == Some(token) {
        entry := if ms > 0 then Some(Entry(token, now + ms)) else None;
        return 1;
      }
      extended := 0;
    }

    /** `Acquire` with nobody in between its two commands; `token` is `None` if the
        random source fails. A lost INCR leaves the key behind without a `Lock`. */
    method Acquire(now: int, token: Option<nat>, ttl: int, setNX: Link, incr: Link)
      returns (lock: Option<Lock>, err: Option<Error>)
      modifies this
      ensures lock.Some? <==> err.None?
      ensures err.None? <==> token.Some? && setNX.Up? && incr.Up? && Live(old(View()), now).None?
      ensures err == Some(ErrNotAcquired) <==> token.Some? && setNX.Up? && Live(old(View()), now).Some?
      ensures lock.Some? ==> lock.value == Lock(token.value, old(fence) + 1)
      ensures entry == if token.Some? && !setNX.RequestLost? && Live(old(View()), now).None?
                       then Some(Entry(token.value, now + ttl)) else old(entry)
      ensures fence == if token.Some? && setNX.Up? && !incr.RequestLost? && Live(old(View()), now).None?
                       then old(fence) + 1 else old(fence)
    {
      if token.None? {
        return None, Some(Failed);
      }
      var ok := false;
      if !setNX.RequestLost? {
        ok := RunSetNX(now, token.value, ttl);
      }
      if !setNX.Up? {
        return None, Some(Failed);
      }
      if !ok {
        return None, Some(ErrNotAcquired);
      }
      var n := 0;
      if !incr.RequestLost? {
        n := RunIncr();
      }
      if !incr.Up? {
        return None, Some(Failed);
      }
      return Some(Lock(token.value, n)), None;
    }

    /** Fails with `ErrNotHeld`, changing nothing, exactly when the caller is not the holder. */
    method Release(now: int, lock: Lock, link: Link) returns (err: Option<Error>)
      modifies this
      ensures err == if !link.Up? then Some(Failed)
                     else if Live(old(View()), now) == Some(lock.token) then None else Some(ErrNotHeld)
      ensures View() == if !link.RequestLost? && Live(old(View()), now) == Some(lock.token)
                        then old(View()).(entry := None) else old(View())
    {
      var deleted := 0;
      if !link.RequestLost? {
        deleted := RunRelease(now, lock.token);
      }
      if !link.Up? {
        return Some(Failed);
      }
      err := if deleted == 0 then Some(ErrNotHeld) else None;
    }

    method Extend(now: int, lock: Lock, ms: int, link: Link) returns (err: Option<Error>)
      modifies this
      ensures err == if !link.Up? then Some(Failed)
                     else if Live(old(View()), now) == Some(lock.token) then None else Some(ErrNotHeld)
      ensures link.RequestLost? || Live(old(View()), now) != Some(lock.token) ==> View() == old(View())
      ensures !link.RequestLost? && Live(old(View()), now) == Some(lock.token) ==>
                View() == old(View()).(entry := if ms > 0 then Some(Entry(lock.token, now + ms)) else None)
    {
      var extended := 0;
      if !link.RequestLost? {
        extended := RunExtend(now, lock.token, ms);
      }
      if !link.Up? {
        return Some(Failed);
      }
      err := if extended == 0 then Some(ErrNotHeld) else None;
    }

    /** The renewal loop: work slices shorter than the lease, each followed by an
        `Extend`, keep the lock for any number of slices. */
    method RenewWhileWorking(start: int, lock: Lock, ttl: int, slice: nat, slices: nat)
      returns (err: Option<Error>, end: int)
      requires slice < ttl && entry == Some(Entry(lock.token, start + ttl))
      modifies this
      ensures err == None && end == start + slices * slice
      ensures View() == Db(Some(Entry(lock.token, end + ttl)), old(fence))
    {
      err, end := None, start;
      for k := 0 to slices
        invariant err == None && end == start + k * slice
        invariant View() == Db(Some(Entry(lock.token, end + ttl)), old(fence))
      {
        end := end + slice;
        err := Extend(end, lock, ttl, Up);
        if err.Some? {
          return;
        }
      }
    }
  }

  function WriteTo(highest: int, fence: int): (int, bool) {
    if fence < highest then (highest, false) else (fence, true)
  }

  /** The downstream resource: it refuses fences below the highest it has accepted. */
  class Storage {
    var highestFence: int

    constructor ()
      ensures highestFence == 0
    {
      highestFence := 0;
    }

    method Write(fence: int) returns (accepted: bool)
      modifies this
      ensures (highestFence, accepted) == WriteTo(old(highestFence), fence)
    {
      if fence < highestFence {
        return false;
      }
      highestFence := fence;
      accepted := true;
    }
  }

  // --------------------------------------------------- clients, interleaved

  /** One successful SETNX. Its lease runs from `start` to `end`; `end` moves when
      the lease is extended or released. `fence` is what INCR answered, once the
      client got that far. */
  datatype Acquisition = Acquisition(token: nat, start: int, end: int, fence: Option<nat>)

  /** `acqs` lists the acquisitions in SETNX order, `tokens` every token ever drawn,
      `accepted` the acquisitions whose writes the store let through, in order. */
  datatype System = System(
    db: Db,
    clock: int,
    acqs: seq<Acquisition>,
    tokens: set<nat>,
    highest: int,
    accepted: seq<nat>)

  datatype Step =
    | Tick(duration: nat)
    | TryAcquire(token: nat, ttl: int)   // SETNX of a client
    | TakeFence(i: nat)                  // INCR of the client of acquisition `i`
    | Release(i: nat)
    | Extend(i: nat, ms: int)
    | Write(i: nat)

  function Init(start: int): System {
    System(Db(None, 0), start, [], {}, 0, [])
  }

  /** Tokens are fresh and TTLs at least a millisecond; a client has its `Lock`, and
      can use it, only after INCR answered. */
  predicate Enabled(s: System, st: Step) {
    match st
    case Tick(_) => true
    case TryAcquire(token, ttl) => token !in s.tokens && ttl >= 1
    case TakeFence(i) => i < |s.acqs| && s.acqs[i].fence.None?
    case Release(i) => i < |s.acqs| && s.acqs[i].fence.Some?
    case Extend(i, _) => i < |s.acqs| && s.acqs[i].fence.Some?
    case Write(i) => i < |s.acqs| && s.acqs[i].fence.Some?
  }

  function Apply(s: System, st: Step): System
    requires Enabled(s, st)
  {
    match st
    case Tick(d) => s.(clock := s.clock + d)
    case TryAcquire(token, ttl) =>
      var (db, ok) := SetNX(s.db, s.clock, token, ttl);
      var t := s.(db := db, tokens := s.tokens + {token});
      if ok then t.(acqs := t.acqs + [Acquisition(token, s.clock, s.clock + ttl, None)]) else t
    case TakeFence(i) =>
      var (db, n) := Incr(s.db);
      s.(db := db, acqs := s.acqs[i := s.acqs[i].(fence := Some(n))])
    case Release(i) =>
      var (db, deleted) := ReleaseScript(s.db, s.clock, s.acqs[i].token);
      if deleted == 0 then s.(db := db)
      else s.(db := db, acqs := s.acqs[i := s.acqs[i].(end := s.clock)])
    case Extend(i, ms) =>
      var (db, extended) := ExtendScript(s.db, s.clock, s.acqs[i].token, ms);
      if extended == 0 then s.(db := db)
      else s.(db := db, acqs := s.acqs[i := s.acqs[i].(end := if ms > 0 then s.clock + ms else s.clock)])
    case Write(i) =>
      var (highest, ok) := WriteTo(s.highest, s.acqs[i].fence.value);
      s.(highest := highest, accepted := if ok then s.accepted + [i] else s.accepted)
  }

  ghost predicate Valid(s: System, steps: seq<Step>)
    decreases |steps|
  {
    steps == [] || (Enabled(s, steps[0]) && Valid(Apply(s, steps[0]), steps[1..]))
  }

  ghost function After(s: System, steps: seq<Step>): System
    requires Valid(s, steps)
    decreases |steps|
  {
    if steps == [] then s else After(Apply(s, steps[0]), steps[1..])
  }

  predicate Holds(s: System, i: nat) {
    i < |s.acqs| && s.clock < s.acqs[i].end
  }

  // ---------------------------------------------------------------- leases

  ghost predicate LeasesDisjoint(s: System) {
    forall i, j | 0 <= i < j < |s.acqs| :: s.acqs[i].end <= s.acqs[j].start
  }

  ghost predicate Inv(s: System) {
    && (forall i | 0 <= i < |s.acqs| ::
          s.acqs[i].token in s.tokens && s.acqs[i].start <= s.clock && s.acqs[i].start <= s.acqs[i].end)
    && (forall i, j | 0 <= i < j < |s.acqs| :: s.acqs[i].token != s.acqs[j].token)
    && LeasesDisjoint(s)
    && (match Live(s.db, s.clock)
        case None => forall i | 0 <= i < |s.acqs| :: !Holds(s, i)
        case Some(token) =>
          && |s.acqs| > 0 && s.acqs[|s.acqs| - 1].token == token
          && s.acqs[|s.acqs| - 1].end == s.db.entry.value.expiry)
  }

  lemma EarlierLeasesAreOver(s: System, i: nat)
    requires Inv(s) && i < |s.acqs| && (i < |s.acqs| - 1 || Live(s.db, s.clock).None?)
    ensures s.acqs[i].end <= s.clock
  {
    if i < |s.acqs| - 1 {
      assert s.acqs[i].end <= s.acqs[|s.acqs| - 1].start;
    } else {
      assert !Holds(s, i);
    }
  }

  lemma TryAcquireInv(s: System, token: nat, ttl: int)
    requires Enabled(s, TryAcquire(token, ttl)) && Inv(s)
    ensures Inv(Apply(s, TryAcquire(token, ttl)))
  {
    var t := Apply(s, TryAcquire(token, ttl));
    if Live(s.db, s.clock).None? {
      forall i | 0 <= i < |s.acqs| ensures t.acqs[i] == s.acqs[i] && s.acqs[i].end <= s.clock {
        EarlierLeasesAreOver(s, i);
      }
    }
  }

  lemma ScriptInv(s: System, st: Step)
    requires Enabled(s, st) && Inv(s) && (st.Release? || st.Extend?)
    ensures Inv(Apply(s, st))
  {
    forall i | 0 <= i < |s.acqs| - 1 ensures s.acqs[i].end <= s.clock { EarlierLeasesAreOver(s, i); }
    if Live(s.db, s.clock).None? {
      assert Apply(s, st) == s;
    }
  }

  lemma TickInv(s: System, d: nat)
    requires Inv(s)
    ensures Inv(Apply(s, Tick(d)))
  {
    var t := Apply(s, Tick(d));
    if Live(t.db, t.clock).None? {
      forall i | 0 <= i < |t.acqs| ensures !Holds(t, i) {
        if i < |s.acqs| - 1 || Live(s.db, s.clock).None? {
          EarlierLeasesAreOver(s, i);
        }
      }
    }
  }

  lemma FenceOrWriteInv(s: System, st: Step)
    requires Enabled(s, st) && Inv(s) && (st.TakeFence? || st.Write?)
    ensures Inv(Apply(s, st))
  {
    var t := Apply(s, st);
    assert |t.acqs| == |s.acqs| && Live(t.db, t.clock) == Live(s.db, s.clock);
    assert forall i | 0 <= i < |s.acqs| ::
        t.acqs[i].token == s.acqs[i].token && t.acqs[i].start == s.acqs[i].start && t.acqs[i].end == s.acqs[i].end;
    forall i | 0 <= i < |t.acqs| && Live(s.db, s.clock).None? ensures !Holds(t, i) {
      EarlierLeasesAreOver(s, i);
    }
  }

  lemma StepInv(s: System, st: Step)
    requires Enabled(s, st) && Inv(s)
    ensures Inv(Apply(s, st))
  {
    match st {
      case Tick(d) => TickInv(s, d);
      case TryAcquire(token, ttl) => TryAcquireInv(s, token, ttl);
      case Release(_) => ScriptInv(s, st);
      case Extend(_, _) => ScriptInv(s, st);
      case _ => FenceOrWriteInv(s, st);
    }
  }

  lemma {:induction false} RunInv(s: System, steps: seq<Step>)
    requires Valid(s, steps) && Inv(s)
    ensures Inv(After(s, steps))
    decreases |steps|
  {
    if steps != [] {
      StepInv(s, steps[0]);
      RunInv(Apply(s, steps[0]), steps[1..]);
    }
  }

  /** Mutual exclusion over whole runs: the leases of different acquisitions never
      overlap, so at any time at most one client holds the lock, and Redis's answer
      is that client's token. */
  lemma LeasesNeverOverlap(start: int, steps: seq<Step>)
    requires Valid(Init(start), steps)
    ensures var s := After(Init(start), steps);
            && LeasesDisjoint(s)
            && (forall i, j :: Holds(s, i) && Holds(s, j) ==> i == j)
            && (forall i | 0 <= i < |s.acqs| :: Holds(s, i) <==> Live(s.db, s.clock) == Some(s.acqs[i].token))
  {
    RunInv(Init(start), steps);
  }

  /** `Release` and `Extend` act exactly on the caller's own, still running lease. A
      stale caller changes nothing at all; a holder ends or prolongs its own lease
      and no other. The lock survives an `Extend` exactly when the new TTL is at
      least one millisecond, although the script reports success either way. */
  lemma StaleHoldersChangeNothing(start: int, steps: seq<Step>, i: nat, ms: int)
    requires Valid(Init(start), steps)
    requires Enabled(After(Init(start), steps), Extend(i, ms))
    ensures var s := After(Init(start), steps);
            var r := Apply(s, Release(i));
            var e := Apply(s, Extend(i, ms));
            && (ReleaseScript(s.db, s.clock, s.acqs[i].token).1 == 1 <==> Holds(s, i))
            && (ExtendScript(s.db, s.clock, s.acqs[i].token, ms).1 == 1 <==> Holds(s, i))
            && (!Holds(s, i) ==> r == s && e == s)
            && (Holds(s, i) ==>
                  && !Holds(r, i) && Live(r.db, r.clock) == None
                  && (Holds(e, i) <==> ms >= 1)
                  && (ms >= 1 ==> Live(e.db, e.clock) == Some(s.acqs[i].token) && e.acqs[i].end == s.clock + ms))
            && forall j | 0 <= j < |s.acqs| && j != i :: r.acqs[j] == s.acqs[j] == e.acqs[j]
  {
    LeasesNeverOverlap(start, steps);
  }

  predicate CanAcquire(s: System) {
    SetNX(s.db, s.clock, 0, 1).1
  }

  /** A crashed holder cannot wedge the system: the lock can be acquired exactly when
      nobody holds it, and, if nothing else happens, exactly from the end of the
      latest lease on. */
  lemma LockIsFreeExactlyWhen(start: int, steps: seq<Step>, wait: nat)
    requires Valid(Init(start), steps)
    ensures var s := After(Init(start), steps);
            && (CanAcquire(s) <==> forall i :: !Holds(s, i))
            && (CanAcquire(Apply(s, Tick(wait))) <==> s.acqs == [] || s.acqs[|s.acqs| - 1].end <= s.clock + wait)
            && forall token: nat, ttl: int :: SetNX(s.db, s.clock, token, ttl).1 == CanAcquire(s)
  {
    RunInv(Init(start), steps);
    var s := After(Init(start), steps);
    var t := Apply(s, Tick(wait));
    TickInv(s, wait);
    FreeExactlyWhen(s);
    FreeExactlyWhen(t);
    if s.acqs != [] {
      assert Holds(t, |s.acqs| - 1) <==> s.clock + wait < s.acqs[|s.acqs| - 1].end;
    }
    if i: nat :| Holds(t, i) {
      HolderIsLive(t, i);
    }
  }

  lemma FreeExactlyWhen(s: System)
    requires Inv(s)
    ensures CanAcquire(s) <==> forall i :: !Holds(s, i)
  {
    if !CanAcquire(s) {
      assert Holds(s, |s.acqs| - 1);
    }
  }

  // --------------------------------------------------------------- renewal

  /** Client `i` keeps extending by `ttl`, never letting a full `ttl` pass since the
      last time (`last`), and does not release; the others do as they like. */
  ghost predicate RenewsInTime(s: System, i: nat, ttl: int, last: int, steps: seq<Step>): (r: bool)
    ensures r ==> Valid(s, steps)
    decreases |steps|
  {
    steps == [] ||
    (var st := steps[0];
     && Enabled(s, st)
     && (st.Tick? ==> s.clock + st.duration < last + ttl)
     && (st.Release? ==> st.i != i)
     && (st.Extend? && st.i == i ==> st.ms == ttl)
     && RenewsInTime(Apply(s, st), i, ttl, if st == Extend(i, ttl) then s.clock else last, steps[1..]))
  }

  /** A holder that renews in time keeps the lock for any number of renewals: it
      still holds it at the end and nobody else acquired it in between. */
  lemma {:induction false} RenewedLockIsNeverLost(s: System, i: nat, ttl: int, last: int, steps: seq<Step>)
    requires Inv(s) && Holds(s, i) && ttl >= 1 && s.acqs[i].end == last + ttl
    requires RenewsInTime(s, i, ttl, last, steps)
    ensures var t := After(s, steps);
            && |t.acqs| == |s.acqs| && Holds(t, i) && t.acqs[i].token == s.acqs[i].token
            && Live(t.db, t.clock) == Some(s.acqs[i].token)
    decreases |steps|
  {
    if steps == [] {
      HolderIsLive(s, i);
    } else {
      HolderIsLive(s, i);
      StepInv(s, steps[0]);
      var t := Apply(s, steps[0]);
      RenewedLockIsNeverLost(t, i, ttl, if steps[0] == Extend(i, ttl) then s.clock else last, steps[1..]);
    }
  }

  /** The renewal loop is such a run: slices of work shorter than the TTL, each followed
      by an extension, can go on for any number of slices. */
  lemma {:induction false} RenewalGoesOn(s: System, i: nat, ttl: int, slice: nat, slices: nat)
    returns (steps: seq<Step>)
    requires Inv(s) && Holds(s, i) && s.acqs[i].fence.Some?
    requires slice < ttl && s.acqs[i].end == s.clock + ttl
    ensures RenewsInTime(s, i, ttl, s.clock, steps)
    ensures After(s, steps).clock == s.clock + slices * slice && |After(s, steps).acqs| == |s.acqs|
    ensures After(s, steps).acqs[i].end == After(s, steps).clock + ttl
    decreases slices
  {
    steps := [];
    if slices > 0 {
      var worked := Apply(s, Tick(slice));
      TickInv(s, slice);
      HolderIsLive(worked, i);
      var renewed := Apply(worked, Extend(i, ttl));
      ScriptInv(worked, Extend(i, ttl));
      var rest := RenewalGoesOn(renewed, i, ttl, slice, slices - 1);
      var tail := [Extend(i, ttl)] + rest;
      assert tail[1..] == rest && RenewsInTime(worked, i, ttl, s.clock, tail);
      Prepend(worked, Extend(i, ttl), rest);
      Prepend(s, Tick(slice), tail);
      steps := [Tick(slice)] + tail;
      assert steps[1..] == tail;
      assert slices * slice == slice + (slices - 1) * slice;
    }
  }

  lemma HolderIsLive(s: System, i: nat)
    requires Inv(s) && Holds(s, i)
    ensures i == |s.acqs| - 1 && Live(s.db, s.clock) == Some(s.acqs[i].token)
  {
  }

  // --------------------------------------------------------------- fencing

  /** The numbers handed out so far grow with the order of the SETNXs. */
  ghost predicate FencesOrdered(s: System) {
    forall i, j | 0 <= i < j < |s.acqs| && s.acqs[i].fence.Some? && s.acqs[j].fence.Some? ::
      s.acqs[i].fence.value < s.acqs[j].fence.value
  }

  /** Nobody who acquired after `i` has its number yet. */
  ghost predicate FirstToAsk(s: System, i: nat) {
    forall j | i < j < |s.acqs| :: s.acqs[j].fence.None?
  }

  ghost predicate IncrsInOrder(s: System, steps: seq<Step>)
    requires Valid(s, steps)
    decreases |steps|
  {
    steps == [] ||
    ((steps[0].TakeFence? ==> FirstToAsk(s, steps[0].i)) && IncrsInOrder(Apply(s, steps[0]), steps[1..]))
  }

  /** Every client's INCR takes effect while its own lease is still running. */
  ghost predicate IncrsInTime(s: System, steps: seq<Step>)
    requires Valid(s, steps)
    decreases |steps|
  {
    steps == [] ||
    ((steps[0].TakeFence? ==> Holds(s, steps[0].i)) && IncrsInTime(Apply(s, steps[0]), steps[1..]))
  }

  ghost predicate FencesIssued(s: System) {
    forall i | 0 <= i < |s.acqs| && s.acqs[i].fence.Some? :: 1 <= s.acqs[i].fence.value <= s.db.fence
  }

  lemma TakeFenceOrder(s: System, i: nat)
    requires Enabled(s, TakeFence(i)) && FencesIssued(s)
    ensures FencesOrdered(Apply(s, TakeFence(i))) <==> FencesOrdered(s) && FirstToAsk(s, i)
  {
    var t := Apply(s, TakeFence(i));
    if FencesOrdered(t) {
      forall j | i < j < |s.acqs| ensures s.acqs[j].fence.None? {
        assert t.acqs[i].fence.Some? && t.acqs[j] == s.acqs[j];
      }
      forall j, k | 0 <= j < k < |s.acqs| && s.acqs[j].fence.Some? && s.acqs[k].fence.Some?
        ensures s.acqs[j].fence.value < s.acqs[k].fence.value
      {
        assert t.acqs[j].fence.value < t.acqs[k].fence.value;
      }
    }
  }

  lemma StepFences(s: System, st: Step)
    requires Enabled(s, st) && FencesIssued(s)
    ensures var t := Apply(s, st);
            && FencesIssued(t)
            && |s.acqs| <= |t.acqs|
            && (forall i | 0 <= i < |s.acqs| && s.acqs[i].fence.Some? :: t.acqs[i].fence == s.acqs[i].fence)
            && (FencesOrdered(t) <==> FencesOrdered(s) && (st.TakeFence? ==> FirstToAsk(s, st.i)))
  {
    var t := Apply(s, st);
    if st.TakeFence? {
      TakeFenceOrder(s, st.i);
    } else {
      assert forall i | 0 <= i < |s.acqs| :: t.acqs[i].fence == s.acqs[i].fence;
      assert forall i | |s.acqs| <= i < |t.acqs| :: t.acqs[i].fence.None?;
      if FencesOrdered(t) {
        forall j, k | 0 <= j < k < |s.acqs| && s.acqs[j].fence.Some? && s.acqs[k].fence.Some?
          ensures s.acqs[j].fence.value < s.acqs[k].fence.value
        {
          assert t.acqs[j].fence.value < t.acqs[k].fence.value;
        }
      }
    }
  }

  lemma {:induction false} RunFences(s: System, steps: seq<Step>)
    requires Valid(s, steps) && FencesIssued(s)
    ensures FencesIssued(After(s, steps))
    ensures FencesOrdered(After(s, steps)) <==> FencesOrdered(s) && IncrsInOrder(s, steps)
    decreases |steps|
  {
    if steps != [] {
      StepFences(s, steps[0]);
      RunFences(Apply(s, steps[0]), steps[1..]);
    }
  }

  /** The numbers of a run are in SETNX order exactly if its INCRs were. What a client
      can do about that is said by `IncrIsInOrderExactlyWhen` below. */
  lemma FencesOrderedExactlyWhen(start: int, steps: seq<Step>)
    requires Valid(Init(start), steps)
    ensures FencesOrdered(After(Init(start), steps)) <==> IncrsInOrder(Init(start), steps)
  {
    RunFences(Init(start), steps);
  }

  /** An INCR made before the client's own lease ends is in order: a running lease is
      always the latest one. */
  lemma {:induction false} InTimeIsInOrder(s: System, steps: seq<Step>)
    requires Valid(s, steps) && Inv(s) && IncrsInTime(s, steps)
    ensures IncrsInOrder(s, steps)
    decreases |steps|
  {
    if steps != [] {
      if steps[0].TakeFence? {
        HolderIsLive(s, steps[0].i);
      }
      StepInv(s, steps[0]);
      InTimeIsInOrder(Apply(s, steps[0]), steps[1..]);
    }
  }

  // ------------------------------------- until when a client may still INCR

  lemma {:induction false} FreshToken(tokens: set<nat>) returns (unused: nat)
    ensures forall t | t in tokens :: t < unused
  {
    unused := 0;
    if tokens != {} {
      var t :| t in tokens;
      var rest := FreshToken(tokens - {t});
      unused := if rest <= t then t + 1 else rest;
      assert forall x | x in tokens :: x == t || x in tokens - {t};
    }
  }

  /** The client of acquisition `i` takes no step, and at the end it is `time`. */
  ghost predicate PausesUntil(s: System, i: nat, time: int, steps: seq<Step>) {
    Valid(s, steps) && TakeFence(i) !in steps && After(s, steps).clock == time
  }

  lemma {:induction false} ClockOnlyAdvances(s: System, steps: seq<Step>)
    requires Valid(s, steps)
    ensures s.clock <= After(s, steps).clock
    decreases |steps|
  {
    if steps != [] {
      ClockOnlyAdvances(Apply(s, steps[0]), steps[1..]);
    }
  }

  /** While its lease runs, a client that has not asked for its number stays the latest. */
  lemma {:induction false} PausedInTime(s: System, i: nat, time: int, steps: seq<Step>)
    requires Inv(s) && i < |s.acqs| && s.acqs[i].fence.None? && time < s.acqs[i].end
    requires PausesUntil(s, i, time, steps)
    ensures FirstToAsk(After(s, steps), i)
    decreases |steps|
  {
    ClockOnlyAdvances(s, steps);
    HolderIsLive(s, i);
    if steps != [] {
      var t := Apply(s, steps[0]);
      assert steps == [steps[0]] + steps[1..];
      StepInv(s, steps[0]);
      assert t.acqs[i] == s.acqs[i];
      PausedInTime(t, i, time, steps[1..]);
    }
  }

  /** After its lease, another client can acquire and have its number at once. */
  lemma PausedTooLong(s: System, i: nat, time: int) returns (steps: seq<Step>)
    requires Inv(s) && i < |s.acqs| && s.acqs[i].fence.None? && s.clock <= time && s.acqs[i].end <= time
    ensures PausesUntil(s, i, time, steps) && !FirstToAsk(After(s, steps), i)
  {
    var wait := time - s.clock;
    var t := Apply(s, Tick(wait));
    TickInv(s, wait);
    var rest;
    if Live(t.db, t.clock).Some? {
      var j: nat := |t.acqs| - 1;
      assert t.clock < t.acqs[j].end && i < j;
      if t.acqs[j].fence.Some? {
        rest := [];
        assert !FirstToAsk(t, i);
      } else {
        rest := [TakeFence(j)];
        Prepend(t, TakeFence(j), []);
        assert Apply(t, TakeFence(j)).acqs[j].fence.Some?;
      }
    } else {
      var token := FreshToken(t.tokens);
      var j := |t.acqs|;
      var u := Apply(t, TryAcquire(token, 1));
      rest := [TryAcquire(token, 1)] + ([TakeFence(j)] + []);
      Prepend(u, TakeFence(j), []);
      Prepend(t, TryAcquire(token, 1), [TakeFence(j)] + []);
      assert Apply(u, TakeFence(j)).acqs[j].fence.Some?;
    }
    Prepend(s, Tick(wait), rest);
    steps := [Tick(wait)] + rest;
  }

  /** Until when a client may send its INCR. Whatever the others do in the meantime, an
      INCR at a given time is in order, no later acquisition having its number yet,
      if and only if the client's own lease is still running then. The client knows
      that time: it cannot extend or release before it has its number. */
  lemma IncrIsInOrderExactlyWhen(start: int, before: seq<Step>, i: nat, time: int)
    requires Valid(Init(start), before)
    requires Enabled(After(Init(start), before), TakeFence(i)) && After(Init(start), before).clock <= time
    ensures var s := After(Init(start), before);
            (forall steps | PausesUntil(s, i, time, steps) :: FirstToAsk(After(s, steps), i))
            <==> time < s.acqs[i].end
  {
    RunInv(Init(start), before);
    var s := After(Init(start), before);
    if time < s.acqs[i].end {
      forall steps | PausesUntil(s, i, time, steps) ensures FirstToAsk(After(s, steps), i) {
        PausedInTime(s, i, time, steps);
      }
    } else {
      var steps := PausedTooLong(s, i, time);
    }
  }

  /** Every client's INCR takes effect before its lease has been over for `slack`. */
  ghost predicate IncrsWithin(s: System, slack: int, steps: seq<Step>)
    requires Valid(s, steps)
    decreases |steps|
  {
    steps == [] ||
    ((steps[0].TakeFence? ==> steps[0].i < |s.acqs| && s.clock < s.acqs[steps[0].i].end + slack)
     && IncrsWithin(Apply(s, steps[0]), slack, steps[1..]))
  }

  lemma {:induction false} NoSlackIsInTime(s: System, slack: int, steps: seq<Step>)
    requires Valid(s, steps) && IncrsWithin(s, slack, steps) && slack <= 0
    ensures IncrsInTime(s, steps)
    decreases |steps|
  {
    if steps != [] {
      NoSlackIsInTime(Apply(s, steps[0]), slack, steps[1..]);
    }
  }

  /** One client asks in the very millisecond its lease ended, after its successor. */
  const JUST_LATE := [TryAcquire(0, 1), Tick(1), TryAcquire(1, 1), TakeFence(1), TakeFence(0)]

  lemma JustLate(slack: int)
    requires slack >= 1
    ensures Valid(Init(0), JUST_LATE) && IncrsWithin(Init(0), slack, JUST_LATE)
    ensures !FencesOrdered(After(Init(0), JUST_LATE))
  {
    var s1 := Apply(Init(0), TryAcquire(0, 1));
    var s2 := Apply(s1, Tick(1));
    var s3 := Apply(s2, TryAcquire(1, 1));
    var s4 := Apply(s3, TakeFence(1));
    var s5 := Apply(s4, TakeFence(0));
    assert s3.acqs == [Acquisition(0, 0, 1, None), Acquisition(1, 1, 2, None)];
    assert s5.acqs[1].fence.value < s5.acqs[0].fence.value;
    PrependWithin(s4, TakeFence(0), [], slack);
    PrependWithin(s3, TakeFence(1), [TakeFence(0)], slack);
    PrependWithin(s2, TryAcquire(1, 1), [TakeFence(1), TakeFence(0)], slack);
    PrependWithin(s1, Tick(1), [TryAcquire(1, 1), TakeFence(1), TakeFence(0)], slack);
    PrependWithin(Init(0), TryAcquire(0, 1), [Tick(1), TryAcquire(1, 1), TakeFence(1), TakeFence(0)], slack);
  }

  lemma PrependWithin(s: System, st: Step, steps: seq<Step>, slack: int)
    requires Enabled(s, st) && Valid(Apply(s, st), steps) && IncrsWithin(Apply(s, st), slack, steps)
    requires st.TakeFence? ==> s.clock < s.acqs[st.i].end + slack
    ensures Valid(s, [st] + steps) && After(s, [st] + steps) == After(Apply(s, st), steps)
    ensures IncrsWithin(s, slack, [st] + steps)
  {
    assert ([st] + steps)[1..] == steps;
  }

  /** How late clients may be. If all of them send their INCR less than `slack` after
      the end of their leases, "a later holder always carries a larger number" holds
      of every run if and only if `slack` is not positive. */
  lemma LargerNumbersExactlyWhen(slack: int)
    ensures (forall start: int, steps: seq<Step> |
               Valid(Init(start), steps) && IncrsWithin(Init(start), slack, steps) ::
               FencesOrdered(After(Init(start), steps)))
            <==> slack <= 0
  {
    if slack <= 0 {
      forall start: int, steps: seq<Step> | Valid(Init(start), steps) && IncrsWithin(Init(start), slack, steps)
        ensures FencesOrdered(After(Init(start), steps))
      {
        NoSlackIsInTime(Init(start), slack, steps);
        InTimeIsInOrder(Init(start), steps);
        FencesOrderedExactlyWhen(start, steps);
      }
    } else {
      JustLate(slack);
    }
  }

  ghost predicate StoreOk(s: System) {
    && (forall k | 0 <= k < |s.accepted| ::
          s.accepted[k] < |s.acqs| && s.acqs[s.accepted[k]].fence.Some?
          && s.acqs[s.accepted[k]].fence.value <= s.highest)
    && (s.accepted == [] ==> s.highest == 0)
    && (s.accepted != [] ==> s.acqs[s.accepted[|s.accepted| - 1]].fence == Some(s.highest))
  }

  /** The acquisitions whose writes were accepted never go back in SETNX order. */
  ghost predicate WritesOrdered(s: System) {
    forall k, l | 0 <= k < l < |s.accepted| :: s.accepted[k] <= s.accepted[l]
  }

  lemma NextWrite(s: System, i: nat)
    requires FencesIssued(s) && FencesOrdered(s) && StoreOk(s) && WritesOrdered(s) && Enabled(s, Write(i))
    ensures WriteTo(s.highest, s.acqs[i].fence.value).1 <==> forall k | 0 <= k < |s.accepted| :: s.accepted[k] <= i
  {
    if s.accepted != [] {
      var last := s.accepted[|s.accepted| - 1];
      assert forall k | 0 <= k < |s.accepted| :: s.accepted[k] <= last;
      assert i < last ==> s.acqs[i].fence.value < s.acqs[last].fence.value;
      assert last < i ==> s.acqs[last].fence.value < s.acqs[i].fence.value;
    }
  }

  lemma WriteStore(s: System, i: nat)
    requires Enabled(s, Write(i)) && FencesIssued(s) && FencesOrdered(s) && StoreOk(s) && WritesOrdered(s)
    ensures StoreOk(Apply(s, Write(i))) && WritesOrdered(Apply(s, Write(i)))
  {
    NextWrite(s, i);
    var t := Apply(s, Write(i));
    assert t.acqs == s.acqs;
  }

  lemma StoreKept(s: System, t: System)
    requires StoreOk(s) && WritesOrdered(s) && t.accepted == s.accepted && t.highest == s.highest
    requires |s.acqs| <= |t.acqs|
    requires forall i | 0 <= i < |s.acqs| && s.acqs[i].fence.Some? :: t.acqs[i].fence == s.acqs[i].fence
    ensures StoreOk(t) && WritesOrdered(t)
  {
  }

  lemma StepStore(s: System, st: Step)
    requires Enabled(s, st) && FencesIssued(s) && FencesOrdered(s) && StoreOk(s) && WritesOrdered(s)
    ensures StoreOk(Apply(s, st)) && WritesOrdered(Apply(s, st))
  {
    if st.Write? {
      WriteStore(s, st.i);
    } else {
      StepFences(s, st);
      StoreKept(s, Apply(s, st));
    }
  }

  lemma {:induction false} RunStore(s: System, steps: seq<Step>)
    requires Valid(s, steps) && FencesIssued(s) && FencesOrdered(s) && IncrsInOrder(s, steps)
    requires StoreOk(s) && WritesOrdered(s)
    ensures StoreOk(After(s, steps)) && WritesOrdered(After(s, steps))
    decreases |steps|
  {
    if steps != [] {
      StepFences(s, steps[0]);
      StepStore(s, steps[0]);
      RunStore(Apply(s, steps[0]), steps[1..]);
    }
  }

  /** End-to-end fencing, for any number of clients, expiries, extensions and pauses:
      if every INCR is made before the client's own lease ends, fences grow in SETNX
      order, accepted writes never go back to an earlier holder, and a client's next
      write is accepted exactly if no later holder's write has been. */
  lemma FencingProtectsStore(start: int, steps: seq<Step>, i: nat)
    requires Valid(Init(start), steps) && IncrsInTime(Init(start), steps)
    ensures var s := After(Init(start), steps);
            && FencesOrdered(s) && WritesOrdered(s)
            && (Enabled(s, Write(i)) ==>
                  (WriteTo(s.highest, s.acqs[i].fence.value).1 <==>
                   forall k | 0 <= k < |s.accepted| :: s.accepted[k] <= i))
  {
    InTimeIsInOrder(Init(start), steps);
    RunFences(Init(start), steps);
    RunStore(Init(start), steps);
    if Enabled(After(Init(start), steps), Write(i)) {
      NextWrite(After(Init(start), steps), i);
    }
  }

  /** The first client paused between its SETNX and its INCR until its lease was over;
      the second acquired, got number 1 and wrote. */
  const OVERTAKEN := System(
    Db(Some(Entry(8, 1250)), 1), 250,
    [Acquisition(7, 0, 100, None), Acquisition(8, 250, 1250, Some(1))],
    {7, 8}, 1, [1])

  const OVERTAKING := [TryAcquire(7, 100), Tick(250), TryAcquire(8, 1000), TakeFence(1), Write(1)]

  lemma OvertakenIsReached()
    ensures Valid(Init(0), OVERTAKING) && After(Init(0), OVERTAKING) == OVERTAKEN
  {
    var s1 := Apply(Init(0), TryAcquire(7, 100));
    var s2 := Apply(s1, Tick(250));
    var s3 := Apply(s2, TryAcquire(8, 1000));
    var s4 := Apply(s3, TakeFence(1));
    assert Apply(s4, Write(1)) == OVERTAKEN;
    Prepend(s4, Write(1), []);
    Prepend(s3, TakeFence(1), [Write(1)]);
    Prepend(s2, TryAcquire(8, 1000), [TakeFence(1), Write(1)]);
    Prepend(s1, Tick(250), [TryAcquire(8, 1000), TakeFence(1), Write(1)]);
    Prepend(Init(0), TryAcquire(7, 100), [Tick(250), TryAcquire(8, 1000), TakeFence(1), Write(1)]);
  }

  lemma LateIncrAndWrite(steps: seq<Step>)
    requires steps == [TakeFence(0), Write(0)]
    ensures Valid(OVERTAKEN, steps) && !IncrsInTime(OVERTAKEN, steps) && !WritesOrdered(After(OVERTAKEN, steps))
  {
    var s := Apply(OVERTAKEN, TakeFence(0));
    var t := Apply(s, Write(0));
    assert t.accepted[0] > t.accepted[1];
    Prepend(s, Write(0), []);
    Prepend(OVERTAKEN, TakeFence(0), [Write(0)]);
  }

  lemma {:induction false} RunThenRun(s: System, first: seq<Step>, second: seq<Step>)
    requires Valid(s, first) && Valid(After(s, first), second)
    ensures Valid(s, first + second) && After(s, first + second) == After(After(s, first), second)
    ensures IncrsInTime(s, first + second) ==> IncrsInTime(After(s, first), second)
    decreases |first|
  {
    if first == [] {
      assert first + second == second;
    } else {
      RunThenRun(Apply(s, first[0]), first[1..], second);
      assert first + second == [first[0]] + (first[1..] + second);
      Prepend(s, first[0], first[1..] + second);
    }
  }

  /** Without that hypothesis the fence does not protect: the client that was
      overtaken between its SETNX and its INCR gets number 2, and its stale write is
      accepted. */
  lemma LateIncrBreaksFencing()
    ensures exists steps ::
              && Valid(Init(0), steps)
              && !IncrsInTime(Init(0), steps)
              && !WritesOrdered(After(Init(0), steps))
  {
    OvertakenIsReached();
    LateIncrAndWrite([TakeFence(0), Write(0)]);
    RunThenRun(Init(0), OVERTAKING, [TakeFence(0), Write(0)]);
  }

  lemma Prepend(s: System, st: Step, steps: seq<Step>)
    requires Enabled(s, st) && Valid(Apply(s, st), steps)
    ensures Valid(s, [st] + steps) && After(s, [st] + steps) == After(Apply(s, st), steps)
    ensures IncrsInTime(s, [st] + steps) <==>
              (st.TakeFence? ==> Holds(s, st.i)) && IncrsInTime(Apply(s, st), steps)
  {
    assert ([st] + steps)[1..] == steps;
  }
}
