/** Handlers as serial transactions: no double booking, and exactly-once effect of inbound
    events under repeated delivery, failures and retries. */
module BookingRuns {
  import opened Prelude
  import opened Booking

  const MAX_PENDING_PER_COMPANION := 10

  /** The tables a transaction changes. Sagas are in order of creation. */
  datatype Tables = Tables(bookings: map<Id, Row>, sagas: seq<Saga>, outbox: seq<Out>)

  /** The tables and the ids in the processed-events table. */
  datatype Db = Db(tables: Tables, processed: set<Id>)

  const EMPTY := Db(Tables(map[], [], []), {})

  // ----- Queries

  /** `FindByBookingID`: the newest saga of the booking. */
  function LatestSaga(sagas: seq<Saga>, id: Id): (i: Option<nat>)
    ensures i.Some? ==> i.value < |sagas| && sagas[i.value].booking == id
    ensures i.Some? ==> forall j :: i.value < j < |sagas| ==> sagas[j].booking != id
    ensures i.None? ==> forall j :: 0 <= j < |sagas| ==> sagas[j].booking != id
  {
    if sagas == [] then None
    else if sagas[|sagas| - 1].booking == id then Some(|sagas| - 1)
    else LatestSaga(sagas[..|sagas| - 1], id)
  }

  /** The SQL test of `HasOverlappingBooking`. */
  predicate SqlOverlap(stored: TimeRange, asked: TimeRange) {
    stored.start < asked.end && stored.end > asked.start
  }

  predicate HasOverlappingBooking(bookings: map<Id, Row>, actor: Id, isCompanion: bool,
                                  statuses: set<Status>, asked: TimeRange)
  {
    exists id :: id in bookings
      && (if isCompanion then bookings[id].companion else bookings[id].client) == actor
      && bookings[id].status in statuses && SqlOverlap(bookings[id].range, asked)
  }

  predicate Meet(a: TimeRange, b: TimeRange, t: Time) {
    a.Contains(t) && b.Contains(t)
  }

  ghost predicate Disjoint(a: TimeRange, b: TimeRange) {
    forall t :: !Meet(a, b, t)
  }

  /** On valid ranges the SQL test is exactly intersection of half-open intervals. */
  lemma SqlTestIsIntersection(a: TimeRange, b: TimeRange)
    requires a.start < a.end && b.start < b.end
    ensures SqlOverlap(a, b) <==> !Disjoint(a, b)
  {
    if SqlOverlap(a, b) {
      var t := if a.start < b.start then b.start else a.start;
      assert Meet(a, b, t);
    }
  }

  /** Some booking of the companion is accepted and shares a moment with the range. */
  ghost predicate CompanionIsBusy(bookings: map<Id, Row>, companion: Id, range: TimeRange) {
    exists k :: k in bookings && bookings[k].companion == companion && bookings[k].status == Accepted
      && !Disjoint(bookings[k].range, range)
  }

  /** Some booking of the client is pending or accepted and shares a moment with the range. */
  ghost predicate ClientIsBusy(bookings: map<Id, Row>, client: Id, range: TimeRange) {
    exists k :: k in bookings && bookings[k].client == client && (bookings[k].status == Pending || bookings[k].status == Accepted)
      && !Disjoint(bookings[k].range, range)
  }

  ghost predicate ValidRanges(bookings: map<Id, Row>) {
    forall k :: k in bookings ==> bookings[k].range.start < bookings[k].range.end
  }

  /** The overlap query for a companion answers exactly whether the companion is busy. */
  lemma CompanionQueryIff(bookings: map<Id, Row>, companion: Id, range: TimeRange)
    requires ValidRanges(bookings) && range.start < range.end
    ensures HasOverlappingBooking(bookings, companion, true, {Accepted}, range) <==> CompanionIsBusy(bookings, companion, range)
  {
    forall k | k in bookings ensures SqlOverlap(bookings[k].range, range) <==> !Disjoint(bookings[k].range, range) {
      SqlTestIsIntersection(bookings[k].range, range);
    }
  }

  /** The same for a client, whose pending bookings count too. */
  lemma ClientQueryIff(bookings: map<Id, Row>, client: Id, range: TimeRange)
    requires ValidRanges(bookings) && range.start < range.end
    ensures HasOverlappingBooking(bookings, client, false, {Pending, Accepted}, range) <==> ClientIsBusy(bookings, client, range)
  {
    forall k | k in bookings ensures SqlOverlap(bookings[k].range, range) <==> !Disjoint(bookings[k].range, range) {
      SqlTestIsIntersection(bookings[k].range, range);
    }
  }

  // ----- Transactions

  /** `RequestBookingHandler`: the end follows from the scenario's duration. */
  function Request(t: Tables, id: Id, client: Id, companion: Id, price: nat, minutes: int, start: Time, now: Time): Option<Tables> {
    var range := TimeRange(start, start + minutes * MINUTE);
    var pending := set i | i in t.bookings && t.bookings[i].companion == companion && t.bookings[i].status == Pending;
    if || |pending| >= MAX_PENDING_PER_COMPANION
       || range.end <= range.start
       || HasOverlappingBooking(t.bookings, client, false, {Pending, Accepted}, range)
       || HasOverlappingBooking(t.bookings, companion, true, {Accepted}, range)
       || start < now + 2 * HOUR
    then None
    else
      var row := Row(id, client, companion, price, range, PendingReserving, NoRole, false, 1);
      Some(t.(bookings := t.bookings[id := row], outbox := t.outbox + [BookingRequested(id, price)]))
  }

  /** Load the booking and its newest saga, decide, write. `None` rolls back. */
  function Serve(t: Tables, a: Action, id: Id, now: Time): Option<Tables> {
    if id !in t.bookings then None
    else
      var b, saga := t.bookings[id], LatestSaga(t.sagas, id);
      match Decide(a, b, saga.Some?, CompanionIsTaken(t.bookings, b), now)
      case None => None
      case Some(e) => Some(Committed(t, id, saga, e))
  }

  predicate CompanionIsTaken(bookings: map<Id, Row>, b: Row) {
    HasOverlappingBooking(bookings, b.companion, true, {Accepted}, b.range)
  }

  function Committed(t: Tables, id: Id, saga: Option<nat>, e: Effect): Tables
    requires saga.Some? ==> saga.value < |t.sagas|
  {
    var sagas := if e.saga.Some? && saga.Some?
                 then t.sagas[saga.value := t.sagas[saga.value].(state := e.saga.value)] else t.sagas;
    Tables(if e.write.Some? then t.bookings[id := e.write.value] else t.bookings,
           if e.opens then sagas + [Saga(id, WaitingForEscrow)] else sagas,
           t.outbox + e.outs)
  }

  /** A transaction and whether the infrastructure lets it commit. */
  datatype Input =
    | NewRequest(id: Id, client: Id, companion: Id, price: nat, minutes: int, start: Time, now: Time, commits: bool)
    | Command(action: Action, id: Id, now: Time, commits: bool)
    | Event(event: Id, action: Action, id: Id, now: Time, commits: bool)

  /** New bookings get fresh ids. */
  predicate Enabled(db: Db, x: Input) {
    x.NewRequest? ==> x.id !in db.tables.bookings
  }

  /** The effect of an input on the tables alone. */
  function Bare(t: Tables, x: Input): Option<Tables> {
    if !x.commits then None
    else match x
      case NewRequest(id, client, companion, price, minutes, start, now, _) =>
        Request(t, id, client, companion, price, minutes, start, now)
      case Command(a, id, now, _) => Serve(t, a, id, now)
      case Event(_, a, id, now, _) => Serve(t, a, id, now)
  }

  /** An event id that is already recorded is skipped; recording commits with the effect. */
  function Process(db: Db, x: Input): Db {
    if x.Event? && x.event in db.processed then db
    else match Bare(db.tables, x)
      case None => db
      case Some(t) => Db(t, if x.Event? then db.processed + {x.event} else db.processed)
  }

  predicate IsRun(db: Db, xs: seq<Input>)
    decreases |xs|, 0
  {
    xs == [] || (IsRun(db, xs[..|xs| - 1]) && Enabled(Run(db, xs[..|xs| - 1]), xs[|xs| - 1]))
  }

  function Run(db: Db, xs: seq<Input>): Db
    requires IsRun(db, xs)
    decreases |xs|, 1
  {
    if xs == [] then db else Process(Run(db, xs[..|xs| - 1]), xs[|xs| - 1])
  }

  // ----- No double booking

  ghost predicate Valid(t: Tables) {
    forall id :: id in t.bookings ==> t.bookings[id].id == id && t.bookings[id].range.start < t.bookings[id].range.end
  }

  ghost predicate Separate(a: Row, b: Row) {
    a.status == Accepted && b.status == Accepted && a.companion == b.companion ==> Disjoint(a.range, b.range)
  }

  ghost predicate NoDoubleBooking(t: Tables) {
    forall i, j :: i in t.bookings && j in t.bookings && i != j ==> Separate(t.bookings[i], t.bookings[j])
  }

  /** Only a confirmed chat room accepts a booking, and only when the companion is free. */
  lemma AcceptNeedsFreeCompanion(a: Action, b: Row, hasSaga: bool, overlap: bool, now: Time, e: Effect)
    requires Decide(a, b, hasSaga, overlap, now) == Some(e) && e.write.Some?
    ensures SameBooking(b, e.write.value)
    ensures e.write.value.status == Accepted ==> a == ChatRoomCreated && !overlap && b.status == Pending
  {
  }

  lemma SeparateFromAccepted(t: Tables, b: Row, c: Row, j: Id)
    requires Valid(t) && j in t.bookings && SameBooking(b, c) && b.range.start < b.range.end
    requires !CompanionIsTaken(t.bookings, b)
    ensures Separate(c, t.bookings[j]) && Separate(t.bookings[j], c)
  {
    var d := t.bookings[j];
    if d.status == Accepted && d.companion == c.companion {
      assert !SqlOverlap(d.range, b.range);
      SqlTestIsIntersection(d.range, b.range);
      forall m ensures !Meet(c.range, d.range, m) {
        assert !Meet(d.range, b.range, m);
      }
    }
  }

  lemma WriteKeepsSeparate(t: Tables, id: Id, c: Row)
    requires Valid(t) && NoDoubleBooking(t) && id in t.bookings && SameBooking(t.bookings[id], c)
    requires c.status == Accepted ==> !CompanionIsTaken(t.bookings, t.bookings[id])
    ensures Valid(t.(bookings := t.bookings[id := c])) && NoDoubleBooking(t.(bookings := t.bookings[id := c]))
  {
    var v := t.(bookings := t.bookings[id := c]);
    forall i, j | i in v.bookings && j in v.bookings && i != j ensures Separate(v.bookings[i], v.bookings[j]) {
      assert i != id && j != id ==> Separate(t.bookings[i], t.bookings[j]);
      if c.status == Accepted && i == id {
        SeparateFromAccepted(t, t.bookings[id], c, j);
      } else if c.status == Accepted && j == id {
        SeparateFromAccepted(t, t.bookings[id], c, i);
      }
    }
  }

  lemma ServeKeepsSeparate(t: Tables, a: Action, id: Id, now: Time)
    requires Valid(t) && NoDoubleBooking(t) && Serve(t, a, id, now).Some?
    ensures Valid(Serve(t, a, id, now).value) && NoDoubleBooking(Serve(t, a, id, now).value)
  {
    var b, saga := t.bookings[id], LatestSaga(t.sagas, id);
    var overlap := CompanionIsTaken(t.bookings, b);
    var e := Decide(a, b, saga.Some?, overlap, now).value;
    if e.write.Some? {
      AcceptNeedsFreeCompanion(a, b, saga.Some?, overlap, now, e);
      WriteKeepsSeparate(t, id, e.write.value);
    }
  }

  lemma RequestKeepsSeparate(t: Tables, x: Input)
    requires Valid(t) && NoDoubleBooking(t) && x.NewRequest? && x.id !in t.bookings && Bare(t, x).Some?
    ensures Valid(Bare(t, x).value) && NoDoubleBooking(Bare(t, x).value)
  {
    var v := Bare(t, x).value;
    forall i, j | i in v.bookings && j in v.bookings && i != j ensures Separate(v.bookings[i], v.bookings[j]) {
      assert i != x.id && j != x.id ==> Separate(t.bookings[i], t.bookings[j]);
    }
  }

  /** No double booking: in every reachable state, two distinct accepted bookings of one
      companion have disjoint time ranges. */
  lemma {:induction false} NeverDoubleBooked(xs: seq<Input>)
    requires IsRun(EMPTY, xs)
    ensures Valid(Run(EMPTY, xs).tables) && NoDoubleBooking(Run(EMPTY, xs).tables)
    decreases |xs|
  {
    if xs != [] {
      var front, x := xs[..|xs| - 1], xs[|xs| - 1];
      NeverDoubleBooked(front);
      var t := Run(EMPTY, front).tables;
      if Bare(t, x).Some? {
        if x.NewRequest? {
          RequestKeepsSeparate(t, x);
        } else {
          ServeKeepsSeparate(t, x.action, x.id, x.now);
        }
      }
    }
  }

  // ----- Chat-room events

  /** The tables after a transaction that may roll back. */
  function After(t: Tables, a: Action, id: Id, now: Time): Tables {
    match Serve(t, a, id, now) case Some(v) => v case None => t
  }

  /** The booking is cancelled and the last thing written asks for its refund. */
  predicate Reverted(t: Tables, id: Id, v: Tables)
    requires id in t.bookings
  {
    && id in v.bookings && v.bookings[id].status == Cancelled
    && |v.outbox| > |t.outbox| && v.outbox[|v.outbox| - 1] == Refund(t.bookings[id])
  }

  lemma TakenReverts(t: Tables, id: Id, now: Time)
    requires id in t.bookings && LatestSaga(t.sagas, id).Some? && CompanionIsTaken(t.bookings, t.bookings[id])
    ensures Serve(t, ChatRoomCreated, id, now).Some? && Reverted(t, id, After(t, ChatRoomCreated, id, now))
  {
    var b := t.bookings[id];
    var e := Decide(ChatRoomCreated, b, true, true, now).value;
    assert e.write.value.status == Cancelled && |e.outs| > 0 && e.outs[|e.outs| - 1] == Refund(b);
    assert (t.outbox + e.outs)[|t.outbox + e.outs| - 1] == Refund(b);
  }

  lemma FreeAccepts(t: Tables, id: Id, now: Time)
    requires id in t.bookings && LatestSaga(t.sagas, id).Some? && !CompanionIsTaken(t.bookings, t.bookings[id])
    ensures var b, v := t.bookings[id], After(t, ChatRoomCreated, id, now);
      && (b.status == Pending ==> id in v.bookings && v.bookings[id].status == Accepted)
      && (b.status != Pending ==> v == t)
      && !Reverted(t, id, v)
  {
    var b := t.bookings[id];
    var d := Decide(ChatRoomCreated, b, true, false, now);
    assert d == Wrote(Accept(b.companion), b, Some(SagaCompleted), []);
    if b.status == Pending {
      assert d.value.write.value.status == Accepted;
    }
  }

  /** With a saga present, a chat-room event leaves the booking accepted exactly when it was
      pending and the companion is not busy then, and reverts it with a refund exactly when the
      companion is busy with an accepted booking, this one included. */
  lemma ChatRoomAcceptsIff(t: Tables, id: Id, now: Time)
    requires Valid(t) && id in t.bookings && LatestSaga(t.sagas, id).Some?
    ensures var b, v := t.bookings[id], After(t, ChatRoomCreated, id, now);
      && id in v.bookings
      && (v.bookings[id].status == Accepted <==> b.status == Pending && !CompanionIsBusy(t.bookings, b.companion, b.range))
      && (Reverted(t, id, v) <==> CompanionIsBusy(t.bookings, b.companion, b.range))
  {
    var b := t.bookings[id];
    CompanionQueryIff(t.bookings, b.companion, b.range);
    assert b.status == Accepted ==> SqlOverlap(b.range, b.range);
    if CompanionIsTaken(t.bookings, b) {
      TakenReverts(t, id, now);
    } else {
      FreeAccepts(t, id, now);
    }
  }

  /** An accept starts a saga exactly when the booking's own companion asks, the booking is
      pending and the companion is not busy then; it asks for the transfer of the price. */
  lemma AcceptStartsIff(t: Tables, id: Id, who: Id, now: Time)
    requires Valid(t) && id in t.bookings
    ensures var b, v := t.bookings[id], Serve(t, AcceptBooking(who), id, now);
      && (v.Some? <==> who == b.companion && b.status == Pending && !CompanionIsBusy(t.bookings, b.companion, b.range))
      && (v.Some? ==> v.value == Tables(t.bookings, t.sagas + [Saga(id, WaitingForEscrow)],
                                        t.outbox + [TransferToEscrow(id, b.client, b.price)]))
  {
    CompanionQueryIff(t.bookings, t.bookings[id].companion, t.bookings[id].range);
  }

  /** A booking can be requested exactly when the companion has fewer than ten pending ones,
      it has a duration, neither the client nor the companion is busy then, and it starts at
      least two hours from now. It then waits for its coins, and its request is announced. */
  lemma RequestIff(t: Tables, id: Id, client: Id, companion: Id, price: nat, minutes: int, start: Time, now: Time)
    requires Valid(t)
    ensures var range, v := TimeRange(start, start + minutes * 60_000_000_000), Request(t, id, client, companion, price, minutes, start, now);
      && (v.Some? <==>
            && |set i | i in t.bookings && t.bookings[i].companion == companion && t.bookings[i].status == Pending| < 10
            && minutes > 0 && start - now >= 7_200_000_000_000
            && !ClientIsBusy(t.bookings, client, range) && !CompanionIsBusy(t.bookings, companion, range))
      && (v.Some? ==>
            v.value == Tables(t.bookings[id := Row(id, client, companion, price, range, PendingReserving, NoRole, false, 1)],
                              t.sagas, t.outbox + [BookingRequested(id, price)]))
  {
    var range := TimeRange(start, start + minutes * MINUTE);
    if minutes > 0 {
      ClientQueryIff(t.bookings, client, range);
      CompanionQueryIff(t.bookings, companion, range);
    }
  }

  /** The overlap query does not leave out the booking itself: a second chat-room event for
      an accepted booking finds that booking, cancels it and asks for a refund. */
  lemma SecondChatRoomCancels(t: Tables, id: Id, now: Time)
    requires Valid(t) && id in t.bookings && t.bookings[id].status == Accepted && LatestSaga(t.sagas, id).Some?
    ensures Serve(t, ChatRoomCreated, id, now).Some? && Reverted(t, id, After(t, ChatRoomCreated, id, now))
  {
    assert SqlOverlap(t.bookings[id].range, t.bookings[id].range);
    TakenReverts(t, id, now);
  }

  ghost predicate HasSaga(sagas: seq<Saga>, id: Id) {
    exists i :: 0 <= i < |sagas| && sagas[i].booking == id
  }

  ghost predicate AcceptedHasSaga(t: Tables) {
    forall id :: id in t.bookings && t.bookings[id].status == Accepted ==> HasSaga(t.sagas, id)
  }

  lemma SagasStay(t: Tables, id: Id, saga: Option<nat>, e: Effect, k: Id)
    requires (saga.Some? ==> saga.value < |t.sagas|) && HasSaga(t.sagas, k)
    ensures HasSaga(Committed(t, id, saga, e).sagas, k)
  {
    var i :| 0 <= i < |t.sagas| && t.sagas[i].booking == k;
    assert Committed(t, id, saga, e).sagas[i].booking == k;
  }

  lemma ServeKeepsSagas(t: Tables, a: Action, id: Id, now: Time)
    requires AcceptedHasSaga(t) && Serve(t, a, id, now).Some?
    ensures AcceptedHasSaga(Serve(t, a, id, now).value)
  {
    var b, saga := t.bookings[id], LatestSaga(t.sagas, id);
    var overlap := CompanionIsTaken(t.bookings, b);
    var e := Decide(a, b, saga.Some?, overlap, now).value;
    var v := Committed(t, id, saga, e);
    if e.write.Some? {
      AcceptNeedsFreeCompanion(a, b, saga.Some?, overlap, now, e);
    }
    forall k | k in v.bookings && v.bookings[k].status == Accepted ensures HasSaga(v.sagas, k) {
      if k == id && e.write.Some? {
        assert saga.Some? && t.sagas[saga.value].booking == id;
      }
      SagasStay(t, id, saga, e, k);
    }
  }

  /** In every reachable state an accepted booking has a saga, so that a second chat-room
      event cancels it. */
  lemma {:induction false} AcceptedHasSagaRun(xs: seq<Input>)
    requires IsRun(EMPTY, xs)
    ensures AcceptedHasSaga(Run(EMPTY, xs).tables)
    decreases |xs|
  {
    if xs != [] {
      var front, x := xs[..|xs| - 1], xs[|xs| - 1];
      AcceptedHasSagaRun(front);
      var t := Run(EMPTY, front).tables;
      if Bare(t, x).Some? && !x.NewRequest? {
        ServeKeepsSagas(t, x.action, x.id, x.now);
      }
    }
  }

  /** So on every run a chat-room event with a new id reverts every accepted booking. */
  lemma NextChatRoomCancels(xs: seq<Input>, event: Id, id: Id, now: Time)
    requires IsRun(EMPTY, xs) && event !in Run(EMPTY, xs).processed
    requires var t := Run(EMPTY, xs).tables; id in t.bookings && t.bookings[id].status == Accepted
    ensures Reverted(Run(EMPTY, xs).tables, id, Process(Run(EMPTY, xs), Event(event, ChatRoomCreated, id, now, true)).tables)
  {
    NeverDoubleBooked(xs);
    AcceptedHasSagaRun(xs);
    SecondChatRoomCancels(Run(EMPTY, xs).tables, id, now);
  }

  // ----- Such a run: requested, coins frozen, accepted, chat room created, twice

  lemma RunSnoc(db: Db, xs: seq<Input>, x: Input)
    requires IsRun(db, xs) && Enabled(Run(db, xs), x)
    ensures IsRun(db, xs + [x]) && Run(db, xs + [x]) == Process(Run(db, xs), x)
  {
    assert (xs + [x])[..|xs|] == xs;
  }

  const ASK := NewRequest("b", "c", "p", 10, 60, 100 * HOUR, 0, true)
  const FROZEN := Event("e1", CoinsFrozen, "b", 0, true)
  const ACCEPT := Command(AcceptBooking("p"), "b", 0, true)
  const ROOM := Event("e2", ChatRoomCreated, "b", 0, true)
  const ROOM_AGAIN := Event("e3", ChatRoomCreated, "b", 99 * HOUR, true)
  const ASKED := Row("b", "c", "p", 10, TimeRange(100 * HOUR, 101 * HOUR), PendingReserving, NoRole, false, 1)
  const WAITING := ASKED.(status := Pending, version := 2)

  ghost predicate Only(db: Db, b: Row, sagas: seq<Saga>, processed: set<Id>) {
    db.tables.bookings == map["b" := b] && db.tables.sagas == sagas && db.processed == processed
  }

  lemma Asking()
    ensures Only(Process(EMPTY, ASK), ASKED, [], {})
  {
    var t := EMPTY.tables;
    assert (set i | i in t.bookings && t.bookings[i].companion == "p" && t.bookings[i].status == Pending) == {};
    assert t.bookings["b" := ASKED] == map["b" := ASKED];
  }

  lemma Freezing(db: Db)
    requires Only(db, ASKED, [], {})
    ensures Only(Process(db, FROZEN), WAITING, [], {"e1"})
  {
    assert Decide(CoinsFrozen, ASKED, false, CompanionIsTaken(db.tables.bookings, ASKED), 0).value.write == Some(WAITING);
  }

  lemma Accepting(db: Db)
    requires Only(db, WAITING, [], {"e1"})
    ensures Only(Process(db, ACCEPT), WAITING, [Saga("b", WaitingForEscrow)], {"e1"})
  {
    assert !CompanionIsTaken(db.tables.bookings, WAITING);
  }

  lemma Opening(db: Db)
    requires Only(db, WAITING, [Saga("b", WaitingForEscrow)], {"e1"})
    ensures var v := Process(db, ROOM);
      "b" in v.tables.bookings && v.tables.bookings["b"].status == Accepted && v.processed == {"e1", "e2"}
  {
    assert !CompanionIsTaken(db.tables.bookings, WAITING);
    FreeAccepts(db.tables, "b", 0);
  }

  lemma AcceptingRun()
    ensures var xs := [] + [ASK] + [FROZEN] + [ACCEPT] + [ROOM];
      && IsRun(EMPTY, xs)
      && var v := Run(EMPTY, xs);
         "b" in v.tables.bookings && v.tables.bookings["b"].status == Accepted && v.processed == {"e1", "e2"}
  {
    Asking();
    RunSnoc(EMPTY, [], ASK);
    var d1 := Process(EMPTY, ASK);
    Freezing(d1);
    RunSnoc(EMPTY, [] + [ASK], FROZEN);
    var d2 := Process(d1, FROZEN);
    Accepting(d2);
    RunSnoc(EMPTY, [] + [ASK] + [FROZEN], ACCEPT);
    Opening(Process(d2, ACCEPT));
    RunSnoc(EMPTY, [] + [ASK] + [FROZEN] + [ACCEPT], ROOM);
  }

  /** The accepted booking ends cancelled. */
  lemma SecondChatRoomRun()
    ensures var xs := [] + [ASK] + [FROZEN] + [ACCEPT] + [ROOM];
      && IsRun(EMPTY, xs + [ROOM_AGAIN])
      && "b" in Run(EMPTY, xs).tables.bookings && Run(EMPTY, xs).tables.bookings["b"].status == Accepted
      && Reverted(Run(EMPTY, xs).tables, "b", Run(EMPTY, xs + [ROOM_AGAIN]).tables)
  {
    var xs := [] + [ASK] + [FROZEN] + [ACCEPT] + [ROOM];
    AcceptingRun();
    RunSnoc(EMPTY, xs, ROOM_AGAIN);
    NextChatRoomCancels(xs, "e3", "b", 99 * HOUR);
  }

  // ----- Exactly-once effect

  /** The transaction of the input at `i` would commit in the state it arrives in, whatever
      has been recorded. */
  predicate Succeeds(db: Db, xs: seq<Input>, i: nat)
    requires IsRun(db, xs) && i < |xs|
    decreases |xs|
  {
    if i == |xs| - 1 then Bare(Run(db, xs[..i]).tables, xs[i]).Some?
    else Succeeds(db, xs[..|xs| - 1], i)
  }

  predicate IsEvent(x: Input, e: Id) {
    x.Event? && x.event == e
  }

  /** Some delivery of the event among the inputs succeeds. */
  ghost predicate SomeSucceeds(db: Db, xs: seq<Input>, e: Id)
    requires IsRun(db, xs)
  {
    exists i :: 0 <= i < |xs| && IsEvent(xs[i], e) && Succeeds(db, xs, i)
  }

  /** The successful commands and, of each event id, the first successful delivery. */
  ghost function Firsts(db: Db, xs: seq<Input>): seq<Input>
    requires IsRun(db, xs)
    decreases |xs|
  {
    if xs == [] then []
    else
      var front, x := xs[..|xs| - 1], xs[|xs| - 1];
      Firsts(db, front)
      + if Succeeds(db, xs, |xs| - 1) && !(x.Event? && SomeSucceeds(db, front, x.event)) then [x] else []
  }

  /** A fold without a processed-events table. */
  function Fold(t: Tables, xs: seq<Input>): Tables {
    if xs == [] then t
    else
      var s := Fold(t, xs[..|xs| - 1]);
      match Bare(s, xs[|xs| - 1]) case Some(v) => v case None => s
  }

  lemma FoldSnoc(t: Tables, xs: seq<Input>, x: Input)
    ensures var s := Fold(t, xs);
      Fold(t, xs + [x]) == match Bare(s, x) case Some(v) => v case None => s
  {
    assert (xs + [x])[..|xs|] == xs;
  }

  lemma SomeSucceedsSnoc(db: Db, xs: seq<Input>, e: Id)
    requires IsRun(db, xs) && xs != []
    ensures var n := |xs| - 1;
      SomeSucceeds(db, xs, e) <==> SomeSucceeds(db, xs[..n], e) || (IsEvent(xs[n], e) && Succeeds(db, xs, n))
  {
    var n := |xs| - 1;
    if SomeSucceeds(db, xs[..n], e) {
      var i :| 0 <= i < n && IsEvent(xs[..n][i], e) && Succeeds(db, xs[..n], i);
      assert IsEvent(xs[i], e) && Succeeds(db, xs, i);
    }
    if SomeSucceeds(db, xs, e) {
      var i :| 0 <= i < |xs| && IsEvent(xs[i], e) && Succeeds(db, xs, i);
      assert i < n ==> IsEvent(xs[..n][i], e) && Succeeds(db, xs[..n], i);
    }
  }

  /** An event id is recorded exactly when some delivery of it succeeded. */
  lemma {:induction false} RecordedIff(db: Db, xs: seq<Input>, e: Id)
    requires IsRun(db, xs)
    ensures e in Run(db, xs).processed <==> e in db.processed || SomeSucceeds(db, xs, e)
    decreases |xs|
  {
    if xs != [] {
      RecordedIff(db, xs[..|xs| - 1], e);
      SomeSucceedsSnoc(db, xs, e);
    }
  }

  /** After a successful delivery, every further delivery of the same event id leaves the
      tables and the record as they are. */
  lemma AtMostOnce(db: Db, xs: seq<Input>, x: Input)
    requires IsRun(db, xs) && x.Event? && SomeSucceeds(db, xs, x.event)
    ensures Process(Run(db, xs), x) == Run(db, xs)
  {
    RecordedIff(db, xs, x.event);
  }

  /** Exactly-once effect: after any sequence of deliveries with repeats, failures and
      retries, the tables are those of a plain fold over the successful commands and the
      first successful delivery of each event id. */
  lemma {:induction false} ExactlyOnce(db: Db, xs: seq<Input>)
    requires db.processed == {} && IsRun(db, xs)
    ensures Run(db, xs).tables == Fold(db.tables, Firsts(db, xs))
    decreases |xs|
  {
    if xs != [] {
      var front, x := xs[..|xs| - 1], xs[|xs| - 1];
      ExactlyOnce(db, front);
      if x.Event? {
        RecordedIff(db, front, x.event);
      }
      if Succeeds(db, xs, |xs| - 1) && !(x.Event? && SomeSucceeds(db, front, x.event)) {
        FoldSnoc(db.tables, Firsts(db, front), x);
      } else {
        assert Firsts(db, front) + [] == Firsts(db, front);
      }
    }
  }
}
