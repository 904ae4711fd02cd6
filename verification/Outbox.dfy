/** The transactional outbox: orders and their events commit together, relays
    publish pending events and then mark them, the broker ignores repeats. */
module Outbox {

  /** The payload names the order the event announces. */
  datatype Payload = Payload(orderId: nat, item: string)

  datatype Event = Event(id: nat, payload: Payload)

  datatype Order = Order(id: nat, item: string)

  datatype Row = Row(event: Event, dispatched: bool)

  /** The two tables. Ids count up from 1; a rolled-back transaction uses none. */
  datatype Db = Db(orders: seq<Order>, rows: seq<Row>)

  datatype BrokerState = BrokerState(seen: set<nat>, delivered: seq<Payload>, dupes: nat)

  datatype Result = Placed(orderId: nat) | RolledBack

  // ------------------------------------------------ statements and messages

  /** One committed transaction: the order and its event. */
  function Commit(db: Db, item: string): Db {
    var orderId := |db.orders| + 1;
    Db(db.orders + [Order(orderId, item)],
       db.rows + [Row(Event(|db.rows| + 1, Payload(orderId, item)), false)])
  }

  /** SELECT ... WHERE dispatched = 0 ORDER BY id. */
  function Pending(rows: seq<Row>): seq<Event> {
    if rows == [] then []
    else
      var last := rows[|rows| - 1];
      Pending(rows[..|rows| - 1]) + if last.dispatched then [] else [last.event]
  }

  /** UPDATE ... SET dispatched = 1 WHERE id = ?. */
  function Mark(rows: seq<Row>, id: nat): (marked: seq<Row>)
    ensures |marked| == |rows|
    ensures forall k | 0 <= k < |rows| ::
              marked[k].event == rows[k].event
              && (marked[k].dispatched <==> rows[k].dispatched || rows[k].event.id == id)
  {
    seq(|rows|, k requires 0 <= k < |rows| => if rows[k].event.id == id then rows[k].(dispatched := true) else rows[k])
  }

  function Without(events: seq<Event>, id: nat): seq<Event> {
    if events == [] then []
    else
      var last := events[|events| - 1];
      Without(events[..|events| - 1], id) + if last.id == id then [] else [last]
  }

  lemma {:induction false} WithoutAppend(events: seq<Event>, more: seq<Event>, id: nat)
    ensures Without(events + more, id) == Without(events, id) + Without(more, id)
  {
    if more == [] {
      assert events + more == events;
    } else {
      WithoutAppend(events, more[..|more| - 1], id);
      assert (events + more)[..|events + more| - 1] == events + more[..|more| - 1];
    }
  }

  /** Marking an event takes exactly that event off the list of pending ones. */
  lemma {:induction false} PendingAfterMark(rows: seq<Row>, id: nat)
    ensures Pending(Mark(rows, id)) == Without(Pending(rows), id)
  {
    if rows != [] {
      var front, last := rows[..|rows| - 1], rows[|rows| - 1];
      PendingAfterMark(front, id);
      assert Mark(rows, id)[..|rows| - 1] == Mark(front, id);
      var more := if last.dispatched then [] else [last.event];
      WithoutAppend(Pending(front), more, id);
      assert last.dispatched || more[..0] == [];
    }
  }

  ghost predicate IdsGrow(rows: seq<Row>) {
    forall j, k | 0 <= j < k < |rows| :: rows[j].event.id < rows[k].event.id
  }

  ghost predicate IsUndispatched(rows: seq<Row>, e: Event) {
    exists k :: 0 <= k < |rows| && rows[k] == Row(e, false)
  }

  /** The undispatched events of the rows, and no others, in id order. */
  ghost predicate ArePending(rows: seq<Row>, events: seq<Event>) {
    && (forall e :: e in events <==> IsUndispatched(rows, e))
    && (forall j, k | 0 <= j < k < |events| :: events[j].id < events[k].id)
  }

  lemma PendingGrows(front: seq<Row>, last: Row, events: seq<Event>)
    requires ArePending(front, events) && IdsGrow(front + [last])
    ensures ArePending(front + [last], if last.dispatched then events else events + [last.event])
  {
    var rows := front + [last];
    forall e ensures IsUndispatched(rows, e) <==> IsUndispatched(front, e) || last == Row(e, false) {
      if k :| 0 <= k < |front| && front[k] == Row(e, false) {
        assert rows[k] == Row(e, false);
      }
      if last == Row(e, false) {
        assert rows[|front|] == Row(e, false);
      }
    }
    forall j | 0 <= j < |events| ensures events[j].id < last.event.id {
      assert events[j] in events;
      var k :| 0 <= k < |front| && front[k] == Row(events[j], false);
      assert rows[k].event.id < rows[|front|].event.id;
    }
  }

  /** In a table whose ids grow, the query gives exactly the undispatched events. */
  lemma {:induction false} PendingIs(rows: seq<Row>)
    requires IdsGrow(rows)
    ensures ArePending(rows, Pending(rows))
  {
    if rows != [] {
      var front, last := rows[..|rows| - 1], rows[|rows| - 1];
      assert rows == front + [last];
      assert forall k | 0 <= k < |front| :: front[k] == rows[k];
      PendingIs(front);
      PendingGrows(front, last, Pending(front));
    }
  }

  function Deliver(b: BrokerState, e: Event): BrokerState {
    if e.id in b.seen then b.(dupes := b.dupes + 1)
    else b.(seen := b.seen + {e.id}, delivered := b.delivered + [e.payload])
  }

  function DeliverAll(b: BrokerState, events: seq<Event>): BrokerState {
    if events == [] then b else Deliver(DeliverAll(b, events[..|events| - 1]), events[|events| - 1])
  }

  function MarkAll(rows: seq<Row>, events: seq<Event>): seq<Row> {
    if events == [] then rows else Mark(MarkAll(rows, events[..|events| - 1]), events[|events| - 1].id)
  }

  /** One more event handled. */
  lemma HandleNext(b: BrokerState, rows: seq<Row>, events: seq<Event>, k: nat)
    requires k < |events|
    ensures DeliverAll(b, events[..k + 1]) == Deliver(DeliverAll(b, events[..k]), events[k])
    ensures MarkAll(rows, events[..k + 1]) == Mark(MarkAll(rows, events[..k]), events[k].id)
  {
    assert events[..k + 1][..k] == events[..k];
  }

  class Store {
    var orders: seq<Order>
    var rows: seq<Row>

    ghost function View(): Db
      reads this
    {
      Db(orders, rows)
    }

    constructor ()
      ensures View() == Db([], [])
    {
      orders, rows := [], [];
    }

    /** Either statement or the commit may fail, and then neither row exists. */
    method PlaceOrder(item: string, orderFails: bool, eventFails: bool, commitFails: bool) returns (r: Result)
      modifies this
      ensures orderFails || eventFails || commitFails ==> r == RolledBack && View() == old(View())
      ensures !(orderFails || eventFails || commitFails) ==>
                && r == Placed(|old(orders)| + 1) && View() == Commit(old(View()), item)
                && orders == old(orders) + [Order(r.orderId, item)]
                && rows == old(rows) + [Row(Event(|old(rows)| + 1, Payload(r.orderId, item)), false)]
    {
      if orderFails {
        return RolledBack;
      }
      var orderId := |orders| + 1;
      var newOrders := orders + [Order(orderId, item)];
      if eventFails {
        return RolledBack;
      }
      var newRows := rows + [Row(Event(|rows| + 1, Payload(orderId, item)), false)];
      if commitFails {
        return RolledBack;
      }
      orders, rows := newOrders, newRows;
      r := Placed(orderId);
    }

    method PendingEvents() returns (events: seq<Event>)
      ensures events == Pending(rows)
    {
      events := [];
      for k := 0 to |rows|
        invariant events == Pending(rows[..k])
      {
        assert rows[..k + 1][..k] == rows[..k];
        if !rows[k].dispatched {
          events := events + [rows[k].event];
        }
      }
      assert rows[..|rows|] == rows;
    }

    method MarkDispatched(id: nat)
      modifies this
      ensures View() == Db(old(orders), Mark(old(rows), id))
      ensures Pending(rows) == Without(old(Pending(rows)), id)
    {
      PendingAfterMark(rows, id);
      rows := Mark(rows, id);
    }
  }

  class Broker {
    var seen: set<nat>
    var delivered: seq<Payload>
    var dupes: nat

    ghost function View(): BrokerState
      reads this
    {
      BrokerState(seen, delivered, dupes)
    }

    constructor ()
      ensures View() == BrokerState({}, [], 0)
    {
      seen, delivered, dupes := {}, [], 0;
    }

    method Publish(e: Event)
      modifies this
      ensures View() == Deliver(old(View()), e)
    {
      if e.id in seen {
        dupes := dupes + 1;
        return;
      }
      seen := seen + {e.id};
      delivered := delivered + [e.payload];
    }
  }

  /** What the database does to a relay run: nothing, refuse the query, or refuse to
      mark the pending event number `k`, counted from 0. */
  datatype Fault = Healthy | QueryFails | MarkFails(k: nat)

  /** How many of `n` pending events a run publishes, and how many it also marks. */
  function PublishCount(n: nat, crash: bool, fault: Fault): (p: nat)
    ensures p <= n
  {
    if fault.QueryFails? || n == 0 then 0
    else if crash then 1
    else if fault.MarkFails? && fault.k < n then fault.k + 1
    else n
  }

  function MarkCount(n: nat, crash: bool, fault: Fault): (m: nat)
    ensures m <= PublishCount(n, crash, fault)
    ensures PublishCount(n, crash, fault) <= m + 1
  {
    if fault.QueryFails? || crash then 0
    else if fault.MarkFails? && fault.k < n then fault.k
    else n
  }

  function Published(rows: seq<Row>, crash: bool, fault: Fault): seq<Event> {
    Pending(rows)[..PublishCount(|Pending(rows)|, crash, fault)]
  }

  function Marked(rows: seq<Row>, crash: bool, fault: Fault): seq<Event> {
    Pending(rows)[..MarkCount(|Pending(rows)|, crash, fault)]
  }

  /** A simulated crash is not an error, but a failing query or mark is. A run that
      crashes has published the oldest pending event and marked nothing; one whose
      mark of event number `k` fails has published the events up to `k` and marked
      those before it; any other run has done both for all. */
  method Relay(store: Store, broker: Broker, crashBeforeMark: bool, fault: Fault) returns (ok: bool)
    modifies store, broker
    ensures broker.View() == DeliverAll(old(broker.View()), Published(old(store.rows), crashBeforeMark, fault))
    ensures store.View()
            == Db(old(store.orders), MarkAll(old(store.rows), Marked(old(store.rows), crashBeforeMark, fault)))
    ensures !ok <==> fault.QueryFails?
                     || (fault.MarkFails? && !crashBeforeMark && fault.k < |Pending(old(store.rows))|)
    ensures fault.QueryFails? || Pending(old(store.rows)) == [] ==>
              broker.View() == old(broker.View()) && store.View() == old(store.View())
    ensures !fault.QueryFails? && crashBeforeMark && Pending(old(store.rows)) != [] ==>
              && broker.View() == Deliver(old(broker.View()), Pending(old(store.rows))[0])
              && store.View() == old(store.View())
    ensures !fault.QueryFails? && !crashBeforeMark ==>
              var events := Pending(old(store.rows));
              var stopsAt := if fault.MarkFails? && fault.k < |events| then fault.k else |events|;
              && broker.View() == DeliverAll(old(broker.View()), events[..if ok then |events| else stopsAt + 1])
              && store.View() == Db(old(store.orders), MarkAll(old(store.rows), events[..stopsAt]))
  {
    if fault.QueryFails? {
      return false;
    }
    var events := store.PendingEvents();
    for k := 0 to |events|
      invariant crashBeforeMark ==> k == 0
      invariant fault.MarkFails? ==> k <= fault.k
      invariant broker.View() == DeliverAll(old(broker.View()), events[..k])
      invariant store.View() == Db(old(store.orders), MarkAll(old(store.rows), events[..k]))
    {
      HandleNext(old(broker.View()), old(store.rows), events, k);
      broker.Publish(events[k]);
      if crashBeforeMark {
        assert events[..1][..0] == [] && events[..0] == [];
        return true;
      }
      if fault == MarkFails(k) {
        return false;
      }
      store.MarkDispatched(events[k].id);
    }
    assert events[..|events|] == events;
    ok := true;
  }

  // ------------------------------------------------- many relays, crashing

  /** A running relay: the events it has still to handle, and whether it has
      published the first of them already. */
  datatype Worker = Worker(rest: seq<Event>, published: bool)

  datatype System = System(db: Db, broker: BrokerState, relays: map<nat, Worker>, publishes: nat)

  datatype Step =
    | Place(item: string)      // a committed PlaceOrder
    | Start(relay: nat)        // a relay reads the pending events
    | Publish(relay: nat)
    | MarkFirst(relay: nat)
    | Stop(relay: nat)         // the relay is done, fails, or crashes

  function Init(): System {
    System(Db([], []), BrokerState({}, [], 0), map[], 0)
  }

  predicate Enabled(s: System, st: Step) {
    match st
    case Place(_) => true
    case Start(r) => r !in s.relays
    case Publish(r) => r in s.relays && s.relays[r].rest != [] && !s.relays[r].published
    case MarkFirst(r) => r in s.relays && s.relays[r].rest != [] && s.relays[r].published
    case Stop(r) => r in s.relays
  }

  function Apply(s: System, st: Step): System
    requires Enabled(s, st)
  {
    match st
    case Place(item) => s.(db := Commit(s.db, item))
    case Start(r) => s.(relays := s.relays[r := Worker(Pending(s.db.rows), false)])
    case Publish(r) =>
      s.(broker := Deliver(s.broker, s.relays[r].rest[0]),
         relays := s.relays[r := s.relays[r].(published := true)],
         publishes := s.publishes + 1)
    case MarkFirst(r) =>
      s.(db := s.db.(rows := Mark(s.db.rows, s.relays[r].rest[0].id)),
         relays := s.relays[r := Worker(s.relays[r].rest[1..], false)])
    case Stop(r) => s.(relays := s.relays - {r})
  }

  ghost predicate Valid(s: System, steps: seq<Step>)
    decreases |steps|
  {
    steps == [] || (Enabled(s, steps[0]) && Valid(Apply(s, steps[0]), steps[1..]))
  }

  ghost function After(s: System, steps: seq<Step>): System
    requires Valid(s, steps)
    decreases |steps|
  {
    if steps == [] then s else After(Apply(s, steps[0]), steps[1..])
  }

  /** Orders and outbox rows correspond one to one, in order. */
  ghost predicate TablesOk(db: Db) {
    && |db.orders| == |db.rows|
    && forall k | 0 <= k < |db.rows| ::
         && db.orders[k].id == k + 1
         && db.rows[k].event == Event(k + 1, Payload(db.orders[k].id, db.orders[k].item))
  }

  /** The broker delivered exactly the first events, and these only were marked. */
  ghost predicate PrefixDelivered(rows: seq<Row>, b: BrokerState) {
    var n := |b.delivered|;
    && n <= |rows|
    && (forall k | 0 <= k < n :: b.delivered[k] == rows[k].event.payload)
    && (forall id :: id in b.seen <==> 1 <= id <= n)
    && (forall k | 0 <= k < |rows| && rows[k].dispatched :: k < n)
  }

  /** The events are rows of the table, in id order, with jumps only over events among
      the first `n`, the ones already delivered. */
  ghost predicate RestOk(rows: seq<Row>, n: nat, rest: seq<Event>) {
    && (forall j | 0 <= j < |rest| :: 1 <= rest[j].id <= |rows| && rest[j] == rows[rest[j].id - 1].event)
    && (forall j | 0 < j < |rest| :: rest[j].id <= n + 1 || rest[j].id == rest[j - 1].id + 1)
    && (rest != [] ==> rest[0].id <= n + 1)
  }

  /** So the event a relay publishes next is a repeat or exactly the next one. */
  ghost predicate WorkerOk(rows: seq<Row>, n: nat, w: Worker) {
    RestOk(rows, n, w.rest) && (w.published ==> w.rest != [] && w.rest[0].id <= n)
  }

  ghost predicate Inv(s: System) {
    && TablesOk(s.db)
    && PrefixDelivered(s.db.rows, s.broker)
    && (forall r | r in s.relays :: WorkerOk(s.db.rows, |s.broker.delivered|, s.relays[r]))
    && s.publishes == |s.broker.delivered| + s.broker.dupes
  }

  lemma RestAppend(rows: seq<Row>, n: nat, rest: seq<Event>, e: Event)
    requires RestOk(rows, n, rest) && 1 <= e.id <= |rows| && e == rows[e.id - 1].event
    requires e.id <= n + 1 || (rest != [] && e.id == rest[|rest| - 1].id + 1)
    ensures RestOk(rows, n, rest + [e])
  {
  }

  lemma PendingStep(rows: seq<Row>, m: nat)
    requires 0 < m <= |rows|
    ensures Pending(rows[..m]) == Pending(rows[..m - 1]) + if rows[m - 1].dispatched then [] else [rows[m - 1].event]
  {
    assert rows[..m][..m - 1] == rows[..m - 1];
  }

  /** The last of the events is number `m`, unless the relay has nothing left that
      was not delivered before. */
  ghost predicate ReachesUpTo(n: nat, m: nat, rest: seq<Event>) {
    if rest == [] then m <= n else rest[|rest| - 1].id <= m && (m <= n || rest[|rest| - 1].id == m)
  }

  lemma NextRowIsOk(rows: seq<Row>, n: nat, m: nat, rest: seq<Event>)
    requires 0 < m <= |rows| && rows[m - 1].event.id == m && (rows[m - 1].dispatched ==> m <= n)
    requires RestOk(rows, n, rest) && ReachesUpTo(n, m - 1, rest)
    ensures var more := rest + if rows[m - 1].dispatched then [] else [rows[m - 1].event];
            RestOk(rows, n, more) && ReachesUpTo(n, m, more)
  {
    if !rows[m - 1].dispatched {
      RestAppend(rows, n, rest, rows[m - 1].event);
    }
  }

  lemma {:induction false} PendingIsOk(rows: seq<Row>, n: nat, m: nat)
    requires m <= |rows|
    requires forall k | 0 <= k < |rows| :: rows[k].event.id == k + 1
    requires forall k | 0 <= k < |rows| && rows[k].dispatched :: k < n
    ensures RestOk(rows, n, Pending(rows[..m])) && ReachesUpTo(n, m, Pending(rows[..m]))
  {
    if m > 0 {
      PendingIsOk(rows, n, m - 1);
      PendingStep(rows, m);
      NextRowIsOk(rows, n, m, Pending(rows[..m - 1]));
    }
  }

  lemma RestLater(rows: seq<Row>, more: seq<Row>, n: nat, m: nat, rest: seq<Event>)
    requires RestOk(rows, n, rest) && n <= m && |rows| <= |more|
    requires forall k | 0 <= k < |rows| :: more[k].event == rows[k].event
    ensures RestOk(more, m, rest)
  {
  }

  lemma DeliverKeepsPrefix(rows: seq<Row>, b: BrokerState, id: nat)
    requires PrefixDelivered(rows, b) && 1 <= id <= |b.delivered| + 1 && id <= |rows|
    requires rows[id - 1].event.id == id
    ensures var c := Deliver(b, rows[id - 1].event);
            && PrefixDelivered(rows, c)
            && (id <= |b.delivered| ==> c.delivered == b.delivered && c.dupes == b.dupes + 1)
            && (id == |b.delivered| + 1 ==> |c.delivered| == id && c.dupes == b.dupes)
  {
  }

  lemma PublishInv(s: System, r: nat)
    requires Enabled(s, Publish(r)) && Inv(s)
    ensures Inv(Apply(s, Publish(r)))
  {
    var t := Apply(s, Publish(r));
    var rows, n := s.db.rows, |s.broker.delivered|;
    var e := s.relays[r].rest[0];
    assert WorkerOk(rows, n, s.relays[r]);
    assert e == rows[e.id - 1].event;
    DeliverKeepsPrefix(rows, s.broker, e.id);
    forall q | q in t.relays ensures WorkerOk(rows, |t.broker.delivered|, t.relays[q]) {
      assert WorkerOk(rows, n, s.relays[q]);
      RestLater(rows, rows, n, |t.broker.delivered|, s.relays[q].rest);
    }
  }

  lemma PlaceInv(s: System, item: string)
    requires Inv(s)
    ensures Inv(Apply(s, Place(item)))
  {
    var t := Apply(s, Place(item));
    var n := |s.broker.delivered|;
    forall q | q in t.relays ensures WorkerOk(t.db.rows, n, t.relays[q]) {
      assert WorkerOk(s.db.rows, n, s.relays[q]);
      RestLater(s.db.rows, t.db.rows, n, n, s.relays[q].rest);
    }
  }

  lemma MarkKeepsPrefix(rows: seq<Row>, id: nat, b: BrokerState)
    requires PrefixDelivered(rows, b) && id <= |b.delivered|
    requires forall k | 0 <= k < |rows| :: rows[k].event.id == k + 1
    ensures PrefixDelivered(Mark(rows, id), b)
  {
  }

  lemma RestTail(rows: seq<Row>, n: nat, w: Worker)
    requires WorkerOk(rows, n, w) && w.published
    ensures RestOk(rows, n, w.rest[1..])
  {
  }

  lemma MarkInv(s: System, r: nat)
    requires Enabled(s, MarkFirst(r)) && Inv(s)
    ensures Inv(Apply(s, MarkFirst(r)))
  {
    var t := Apply(s, MarkFirst(r));
    var rows, n := s.db.rows, |s.broker.delivered|;
    assert WorkerOk(rows, n, s.relays[r]);
    RestTail(rows, n, s.relays[r]);
    MarkKeepsPrefix(rows, s.relays[r].rest[0].id, s.broker);
    forall q | q in t.relays ensures WorkerOk(t.db.rows, n, t.relays[q]) {
      if q != r { assert WorkerOk(rows, n, s.relays[q]); }
      RestLater(rows, t.db.rows, n, n, t.relays[q].rest);
    }
  }

  lemma StepInv(s: System, st: Step)
    requires Enabled(s, st) && Inv(s)
    ensures Inv(Apply(s, st))
  {
    match st {
      case Place(item) => PlaceInv(s, item);
      case Publish(r) => PublishInv(s, r);
      case MarkFirst(r) => MarkInv(s, r);
      case Start(r) =>
        assert s.db.rows[..|s.db.rows|] == s.db.rows;
        PendingIsOk(s.db.rows, |s.broker.delivered|, |s.db.rows|);
      case Stop(r) =>
    }
  }

  lemma {:induction false} RunInv(s: System, steps: seq<Step>)
    requires Valid(s, steps) && Inv(s)
    ensures Inv(After(s, steps))
    decreases |steps|
  {
    if steps != [] {
      StepInv(s, steps[0]);
      RunInv(Apply(s, steps[0]), steps[1..]);
    }
  }

  function Payloads(rows: seq<Row>): seq<Payload> {
    seq(|rows|, k requires 0 <= k < |rows| => rows[k].event.payload)
  }

  /** The items of the orders placed in a run. */
  function PlacedItems(steps: seq<Step>): seq<string> {
    if steps == [] then []
    else (if steps[0].Place? then [steps[0].item] else []) + PlacedItems(steps[1..])
  }

  function Publishes(steps: seq<Step>): nat {
    if steps == [] then 0 else (if steps[0].Publish? then 1 else 0) + Publishes(steps[1..])
  }

  function Items(orders: seq<Order>): (items: seq<string>)
    ensures |items| == |orders|
  {
    seq(|orders|, k requires 0 <= k < |orders| => orders[k].item)
  }

  lemma {:induction false} RunRecords(s: System, steps: seq<Step>)
    requires Valid(s, steps)
    ensures Items(After(s, steps).db.orders) == Items(s.db.orders) + PlacedItems(steps)
    ensures After(s, steps).publishes == s.publishes + Publishes(steps)
    decreases |steps|
  {
    if steps != [] {
      var t := Apply(s, steps[0]);
      RunRecords(t, steps[1..]);
      var x := if steps[0].Place? then [steps[0].item] else [];
      assert Items(t.db.orders) == Items(s.db.orders) + x;
      assert Items(s.db.orders) + x + PlacedItems(steps[1..]) == Items(s.db.orders) + (x + PlacedItems(steps[1..]));
    }
  }

  /** However many relays run at once and wherever they crash: what the broker
      delivered is exactly the first outbox events in id order, without gaps or
      repeats; every dispatched event was delivered; the orders are those placed, each
      with exactly one event, which names it; and every publish of the run was a
      delivery or an absorbed repeat. */
  lemma DeliveredIsPrefix(steps: seq<Step>)
    requires Valid(Init(), steps)
    ensures var s := After(Init(), steps);
            && s.broker.delivered <= Payloads(s.db.rows)
            && (forall k | 0 <= k < |s.db.rows| && s.db.rows[k].dispatched :: k < |s.broker.delivered|)
            && TablesOk(s.db)
            && Items(s.db.orders) == PlacedItems(steps)
            && Publishes(steps) == |s.broker.delivered| + s.broker.dupes
  {
    RunInv(Init(), steps);
    RunRecords(Init(), steps);
  }

  /** A relay that is running can be brought to the end of its events from any state. */
  lemma {:induction false} RelayCanFinish(s: System, r: nat) returns (steps: seq<Step>)
    requires Inv(s) && r in s.relays
    ensures Valid(s, steps) && Stop(r) !in steps
    ensures r in After(s, steps).relays && After(s, steps).relays[r].rest == []
    decreases if r in s.relays then |s.relays[r].rest| else 0, if r in s.relays && s.relays[r].published then 0 else 1
  {
    steps := [];
    if s.relays[r].rest != [] {
      var st := if s.relays[r].published then MarkFirst(r) else Publish(r);
      StepInv(s, st);
      var rest := RelayCanFinish(Apply(s, st), r);
      steps := [st] + rest;
    }
  }

  // ------------------------------------------------- a relay that finishes

  /** The event is dispatched or the relay still has it to do. */
  ghost predicate TakenCareOf(s: System, r: nat, e: Event) {
    && 1 <= e.id <= |s.db.rows|
    && (s.db.rows[e.id - 1].dispatched || (r in s.relays && e in s.relays[r].rest))
  }

  lemma StepTakesCare(s: System, st: Step, r: nat, e: Event)
    requires Inv(s) && Enabled(s, st) && st != Stop(r) && r in s.relays && TakenCareOf(s, r, e)
    ensures r in Apply(s, st).relays && TakenCareOf(Apply(s, st), r, e)
  {
    if st == MarkFirst(r) {
      var rest := s.relays[r].rest;
      assert rest == [rest[0]] + rest[1..];
    }
  }

  lemma {:induction false} RunTakesCare(s: System, steps: seq<Step>, r: nat, e: Event)
    requires Inv(s) && Valid(s, steps) && Stop(r) !in steps && r in s.relays && TakenCareOf(s, r, e)
    ensures Inv(After(s, steps)) && r in After(s, steps).relays && TakenCareOf(After(s, steps), r, e)
    decreases |steps|
  {
    if steps != [] {
      assert steps == [steps[0]] + steps[1..];
      StepInv(s, steps[0]);
      StepTakesCare(s, steps[0], r, e);
      RunTakesCare(Apply(s, steps[0]), steps[1..], r, e);
    }
  }

  lemma {:induction false} PendingHas(rows: seq<Row>, k: nat)
    requires k < |rows| && !rows[k].dispatched
    ensures rows[k].event in Pending(rows)
  {
    if k < |rows| - 1 {
      PendingHas(rows[..|rows| - 1], k);
    }
  }

  lemma {:induction false} RowsStay(s: System, steps: seq<Step>, k: nat)
    requires Valid(s, steps) && k < |s.db.rows|
    ensures var t := After(s, steps);
            && k < |t.db.rows| && t.db.rows[k].event == s.db.rows[k].event
            && (s.db.rows[k].dispatched ==> t.db.rows[k].dispatched)
    decreases |steps|
  {
    if steps != [] {
      RowsStay(Apply(s, steps[0]), steps[1..], k);
    }
  }

  /** A relay that starts in any reachable state and finishes its events leaves every
      event that existed when it started dispatched and delivered, whatever other
      relays, crashes and orders were in between. */
  lemma FinishedRelayDrains(before: seq<Step>, r: nat, steps: seq<Step>)
    requires Valid(Init(), before) && Enabled(After(Init(), before), Start(r))
    requires Valid(Apply(After(Init(), before), Start(r)), steps) && Stop(r) !in steps
    requires var t := After(Apply(After(Init(), before), Start(r)), steps);
             r in t.relays && t.relays[r].rest == []
    ensures var s := After(Init(), before);
            var t := After(Apply(s, Start(r)), steps);
            && |s.db.rows| <= |t.db.rows| && |s.db.rows| <= |t.broker.delivered|
            && forall k | 0 <= k < |s.db.rows| ::
                 && t.db.rows[k].dispatched && t.db.rows[k].event == s.db.rows[k].event
                 && t.broker.delivered[k] == s.db.rows[k].event.payload
  {
    RunInv(Init(), before);
    var s := After(Init(), before);
    var u := Apply(s, Start(r));
    StepInv(s, Start(r));
    RunInv(u, steps);
    var t := After(u, steps);
    forall k | 0 <= k < |s.db.rows|
      ensures k < |t.db.rows| && t.db.rows[k].dispatched && t.db.rows[k].event == s.db.rows[k].event
    {
      StartedRelayFinishes(s, r, steps, k);
    }
    if s.db.rows != [] {
      assert t.db.rows[|s.db.rows| - 1].dispatched;
    }
  }

  lemma StartedRelayFinishes(s: System, r: nat, steps: seq<Step>, k: nat)
    requires Inv(s) && Enabled(s, Start(r)) && k < |s.db.rows|
    requires Valid(Apply(s, Start(r)), steps) && Stop(r) !in steps
    requires var t := After(Apply(s, Start(r)), steps); r in t.relays && t.relays[r].rest == []
    ensures var t := After(Apply(s, Start(r)), steps);
            k < |t.db.rows| && t.db.rows[k].dispatched && t.db.rows[k].event == s.db.rows[k].event
  {
    var u := Apply(s, Start(r));
    StepInv(s, Start(r));
    RowsStay(u, steps, k);
    if !s.db.rows[k].dispatched {
      PendingHas(s.db.rows, k);
      RunTakesCare(u, steps, r, s.db.rows[k].event);
    }
  }

  // ------------------------------------------------- crash accounting

  /** Orders are placed and relays run, one after the other; `crash` is the flag of
      the run and `fault` what the database does to it. */
  datatype Op = PlaceOne(item: string) | RunRelay(crash: bool, fault: Fault)

  /** The tables, the broker, the number of runs that stopped between a publish and
      its mark, and the number of publishes. */
  datatype Ledger = Ledger(db: Db, broker: BrokerState, stopped: nat, publishes: nat)

  function Perform(l: Ledger, op: Op): Ledger {
    match op
    case PlaceOne(item) => l.(db := Commit(l.db, item))
    case RunRelay(crash, fault) =>
      var n := |Pending(l.db.rows)|;
      Ledger(l.db.(rows := MarkAll(l.db.rows, Marked(l.db.rows, crash, fault))),
             DeliverAll(l.broker, Published(l.db.rows, crash, fault)),
             l.stopped + PublishCount(n, crash, fault) - MarkCount(n, crash, fault),
             l.publishes + PublishCount(n, crash, fault))
  }

  function PerformAll(ops: seq<Op>): Ledger {
    if ops == [] then Ledger(Db([], []), BrokerState({}, [], 0), 0, 0)
    else Perform(PerformAll(ops[..|ops| - 1]), ops[|ops| - 1])
  }

  /** Rows `0..d` are dispatched and no other. */
  ghost predicate DispatchedPrefix(rows: seq<Row>, d: nat) {
    d <= |rows| && forall k | 0 <= k < |rows| :: rows[k].dispatched <==> k < d
  }

  /** The events are those of the rows from `d` on. */
  ghost predicate IsSuffix(rows: seq<Row>, d: nat, events: seq<Event>) {
    && d <= |rows| && |events| == |rows| - d
    && forall j | 0 <= j < |events| :: events[j] == rows[d + j].event
  }

  lemma SuffixGrows(front: seq<Row>, last: Row, d: nat, events: seq<Event>)
    requires IsSuffix(front, d, events)
    ensures IsSuffix(front + [last], d, events + [last.event])
  {
  }

  lemma {:induction false} PendingIsSuffix(rows: seq<Row>, d: nat)
    requires DispatchedPrefix(rows, d)
    ensures IsSuffix(rows, d, Pending(rows))
  {
    if rows != [] {
      var front, last := rows[..|rows| - 1], rows[|rows| - 1];
      assert rows == front + [last];
      if d < |rows| {
        PendingIsSuffix(front, d);
        SuffixGrows(front, last, d, Pending(front));
      } else {
        PendingIsSuffix(front, d - 1);
      }
    }
  }

  /** Publishing the first `m` pending events, of which the first may have been
      published before, delivers the others and counts at most one repeat. */
  lemma {:induction false} DeliverSuffix(rows: seq<Row>, b: BrokerState, d: nat, events: seq<Event>)
    requires PrefixDelivered(rows, b) && d <= |b.delivered| <= d + 1 && d + |events| <= |rows|
    requires forall k | 0 <= k < |rows| :: rows[k].event.id == k + 1
    requires forall j | 0 <= j < |events| :: events[j] == rows[d + j].event
    ensures var c := DeliverAll(b, events);
            && PrefixDelivered(rows, c)
            && (events == [] ==> c == b)
            && (events != [] ==> |c.delivered| == d + |events| && c.dupes == b.dupes + (|b.delivered| - d))
  {
    if events != [] {
      var front := events[..|events| - 1];
      DeliverSuffix(rows, b, d, front);
      DeliverKeepsPrefix(rows, DeliverAll(b, front), d + |events|);
    }
  }

  lemma {:induction false} MarkSuffix(rows: seq<Row>, d: nat, events: seq<Event>)
    requires DispatchedPrefix(rows, d) && d + |events| <= |rows|
    requires forall k | 0 <= k < |rows| :: rows[k].event.id == k + 1
    requires forall j | 0 <= j < |events| :: events[j] == rows[d + j].event
    ensures var marked := MarkAll(rows, events);
            && |marked| == |rows| && DispatchedPrefix(marked, d + |events|)
            && forall k | 0 <= k < |rows| :: marked[k].event == rows[k].event
  {
    if events != [] {
      MarkSuffix(rows, d, events[..|events| - 1]);
    }
  }

  ghost predicate Balanced(l: Ledger, d: nat) {
    && TablesOk(l.db) && PrefixDelivered(l.db.rows, l.broker) && DispatchedPrefix(l.db.rows, d)
    && d <= |l.broker.delivered| <= d + 1
    && l.broker.dupes + (|l.broker.delivered| - d) == l.stopped
    && l.publishes == |l.broker.delivered| + l.broker.dupes
  }

  lemma MarkedPrefixDelivered(rows: seq<Row>, marked: seq<Row>, b: BrokerState, e: nat)
    requires PrefixDelivered(rows, b) && |marked| == |rows| && e <= |b.delivered|
    requires DispatchedPrefix(marked, e) && forall k | 0 <= k < |rows| :: marked[k].event == rows[k].event
    ensures PrefixDelivered(marked, b)
  {
  }

  lemma SameEventsTables(orders: seq<Order>, rows: seq<Row>, marked: seq<Row>)
    requires TablesOk(Db(orders, rows)) && |marked| == |rows|
    requires forall k | 0 <= k < |rows| :: marked[k].event == rows[k].event
    ensures TablesOk(Db(orders, marked))
  {
  }

  /** A run publishes some pending events and marks all of them but the last, or all. */
  lemma RunSuffix(l: Ledger, d: nat, published: seq<Event>, marked: seq<Event>)
    requires Balanced(l, d) && d + |published| <= |l.db.rows| && marked <= published
    requires |published| - 1 <= |marked|
    requires forall j | 0 <= j < |published| :: published[j] == l.db.rows[d + j].event
    ensures Balanced(
              Ledger(Db(l.db.orders, MarkAll(l.db.rows, marked)), DeliverAll(l.broker, published),
                     l.stopped + |published| - |marked|, l.publishes + |published|),
              d + |marked|)
  {
    var rows := l.db.rows;
    var b := DeliverAll(l.broker, published);
    DeliverSuffix(rows, l.broker, d, published);
    MarkSuffix(rows, d, marked);
    SameEventsTables(l.db.orders, rows, MarkAll(rows, marked));
    MarkedPrefixDelivered(rows, MarkAll(rows, marked), b, d + |marked|);
  }

  lemma RunBalanced(l: Ledger, d: nat, crash: bool, fault: Fault) returns (e: nat)
    requires Balanced(l, d)
    ensures Balanced(Perform(l, RunRelay(crash, fault)), e)
    ensures e == d + MarkCount(|l.db.rows| - d, crash, fault)
  {
    var pending := Pending(l.db.rows);
    PendingIsSuffix(l.db.rows, d);
    var marked := Marked(l.db.rows, crash, fault);
    e := d + |marked|;
    RunSuffix(l, d, Published(l.db.rows, crash, fault), marked);
  }

  lemma PlaceBalanced(l: Ledger, d: nat, item: string)
    requires Balanced(l, d)
    ensures Balanced(Perform(l, PlaceOne(item)), d)
  {
  }

  /** How many events an operation leaves pending if there were `n` before. */
  function BacklogAfter(n: nat, op: Op): nat {
    match op
    case PlaceOne(_) => n + 1
    case RunRelay(crash, fault) =>
      if fault.QueryFails? || crash then n
      else if fault.MarkFails? && fault.k < n then n - fault.k
      else 0
  }

  /** A run stops between a publish and its mark if it crashes with something pending or
      its UPDATE fails for one of the pending events. */
  predicate StopsBetween(n: nat, op: Op) {
    match op
    case PlaceOne(_) => false
    case RunRelay(crash, fault) =>
      !fault.QueryFails? && if crash then n > 0 else fault.MarkFails? && fault.k < n
  }

  function PublishesIn(n: nat, op: Op): nat {
    match op
    case PlaceOne(_) => 0
    case RunRelay(crash, fault) => PublishCount(n, crash, fault)
  }

  function Backlog(ops: seq<Op>): nat {
    if ops == [] then 0 else BacklogAfter(Backlog(ops[..|ops| - 1]), ops[|ops| - 1])
  }

  function StoppedRuns(ops: seq<Op>): nat {
    if ops == [] then 0
    else
      var front := ops[..|ops| - 1];
      StoppedRuns(front) + if StopsBetween(Backlog(front), ops[|ops| - 1]) then 1 else 0
  }

  function PublishesOf(ops: seq<Op>): nat {
    if ops == [] then 0
    else
      var front := ops[..|ops| - 1];
      PublishesOf(front) + PublishesIn(Backlog(front), ops[|ops| - 1])
  }

  lemma RunCounts(l: Ledger, d: nat, crash: bool, fault: Fault) returns (e: nat)
    requires Balanced(l, d)
    ensures var n: nat := |l.db.rows| - d;
            var op := RunRelay(crash, fault);
            var m := Perform(l, op);
            && Balanced(m, e) && |m.db.rows| - e == BacklogAfter(n, op)
            && m.stopped == l.stopped + (if StopsBetween(n, op) then 1 else 0)
            && m.publishes == l.publishes + PublishesIn(n, op)
  {
    PendingIsSuffix(l.db.rows, d);
    var n: nat := |l.db.rows| - d;
    assert |Pending(l.db.rows)| == n;
    e := RunBalanced(l, d, crash, fault);
    MarkSuffixLength(l.db.rows, Marked(l.db.rows, crash, fault));
    var m := Perform(l, RunRelay(crash, fault));
    assert |m.db.rows| == |l.db.rows|;
    assert m.publishes == l.publishes + PublishCount(n, crash, fault);
    assert m.stopped == l.stopped + PublishCount(n, crash, fault) - MarkCount(n, crash, fault);
    CountsAgree(n, crash, fault);
  }

  lemma CountsAgree(n: nat, crash: bool, fault: Fault)
    ensures var op := RunRelay(crash, fault);
            && PublishCount(n, crash, fault) == PublishesIn(n, op)
            && n - MarkCount(n, crash, fault) == BacklogAfter(n, op)
            && PublishCount(n, crash, fault) - MarkCount(n, crash, fault) == if StopsBetween(n, op) then 1 else 0
  {
  }

  lemma OpCounts(l: Ledger, d: nat, op: Op) returns (e: nat)
    requires Balanced(l, d)
    ensures var n: nat := |l.db.rows| - d;
            var m := Perform(l, op);
            && Balanced(m, e) && |m.db.rows| - e == BacklogAfter(n, op)
            && m.stopped == l.stopped + (if StopsBetween(n, op) then 1 else 0)
            && m.publishes == l.publishes + PublishesIn(n, op)
  {
    match op {
      case PlaceOne(item) => e := d; PlaceBalanced(l, d, item);
      case RunRelay(crash, fault) => e := RunCounts(l, d, crash, fault);
    }
  }

  lemma {:induction false} MarkSuffixLength(rows: seq<Row>, events: seq<Event>)
    ensures |MarkAll(rows, events)| == |rows|
  {
    if events != [] {
      MarkSuffixLength(rows, events[..|events| - 1]);
    }
  }

  lemma {:induction false} LedgerFollowsOps(ops: seq<Op>) returns (d: nat)
    ensures Balanced(PerformAll(ops), d)
    ensures var l := PerformAll(ops);
            |l.db.rows| - d == Backlog(ops) && l.stopped == StoppedRuns(ops) && l.publishes == PublishesOf(ops)
  {
    if ops == [] {
      d := 0;
    } else {
      d := LedgerFollowsOps(ops[..|ops| - 1]);
      d := OpCounts(PerformAll(ops[..|ops| - 1]), d, ops[|ops| - 1]);
    }
  }

  function OpItems(ops: seq<Op>): seq<string> {
    if ops == [] then []
    else
      var op := ops[|ops| - 1];
      OpItems(ops[..|ops| - 1]) + if op.PlaceOne? then [op.item] else []
  }

  lemma {:induction false} LedgerKeepsItems(ops: seq<Op>)
    ensures Items(PerformAll(ops).db.orders) == OpItems(ops)
  {
    if ops != [] {
      LedgerKeepsItems(ops[..|ops| - 1]);
    }
  }

  /** At-least-once, to the message, for any sequence of orders and relay runs. The
      repeats absorbed so far, plus one if the oldest pending event was published
      already, are exactly the runs that stopped between a publish and its mark,
      whether by a crash or a failing UPDATE; every publish was a delivery or a
      repeat; what is delivered is a prefix of the placed orders' events, and all of
      them when the last run met no crash and no fault. */
  lemma CrashesAreAccountedFor(ops: seq<Op>)
    ensures var l := PerformAll(ops);
            var pending := Pending(l.db.rows);
            && |pending| == Backlog(ops)
            && l.broker.dupes + (if pending != [] && pending[0].id in l.broker.seen then 1 else 0) == StoppedRuns(ops)
            && |l.broker.delivered| + l.broker.dupes == PublishesOf(ops)
            && l.broker.delivered <= Payloads(l.db.rows)
            && TablesOk(l.db) && Items(l.db.orders) == OpItems(ops)
            && (ops != [] && ops[|ops| - 1] == RunRelay(false, Healthy) ==>
                  pending == [] && l.broker.delivered == Payloads(l.db.rows))
  {
    var d := LedgerFollowsOps(ops);
    LedgerKeepsItems(ops);
    PendingIsSuffix(PerformAll(ops).db.rows, d);
  }
}
