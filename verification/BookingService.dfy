/** The booking service's handlers as the source writes them: load the aggregate, call its
    methods, update the row under its version, write saga and outbox rows, all inside a
    transaction; and the consumer loop that retries an inbound event. Each is proved against
    the transactions of `BookingRuns`. */
module BookingService {
  import opened Booking
  import opened BookingRuns

  const MAX_RETRIES := 3

  class BookingService {
    var bookings: map<Id, Row>
    var sagas: seq<Saga>
    var outbox: seq<Out>
    var processed: set<Id>

    constructor ()
      ensures State() == EMPTY
    {
      bookings, sagas, outbox, processed := map[], [], [], {};
    }

    function Rows(): Tables
      reads this
    {
      Tables(bookings, sagas, outbox)
    }

    function State(): Db
      reads this
    {
      Db(Rows(), processed)
    }

    /** `update`: one row under the version that was read, then an outbox row per event. */
    method Update(booking: BookingAggregate) returns (ok: bool)
      modifies this`bookings, this`outbox, booking`events
      ensures ok <==> booking.id in old(bookings) && old(bookings)[booking.id].version == booking.version
      ensures !ok ==> bookings == old(bookings) && outbox == old(outbox)
      ensures ok ==>
        && bookings == old(bookings)[booking.id := old(bookings)[booking.id].(
             status := booking.status, cancelledBy := booking.cancelledByRole, late := booking.isLateCancel,
             version := booking.version + 1)]
        && outbox == old(outbox) + old(booking.events) && booking.events == []
    {
      if booking.id !in bookings || bookings[booking.id].version != booking.version {
        return false;
      }
      var written := bookings[booking.id].(
        status := booking.status, cancelledBy := booking.cancelledByRole, late := booking.isLateCancel,
        version := booking.version + 1);
      bookings := bookings[booking.id := written];
      var events := booking.events;
      booking.events := [];
      for i := 0 to |events|
        invariant booking.events == [] && outbox == old(outbox) + events[..i] && bookings == old(bookings)[booking.id := written]
      {
        outbox := outbox + [events[i]];
      }
      assert events[..|events|] == events;
      ok := true;
    }

    method SetSaga(i: nat, state: SagaState)
      requires i < |sagas|
      modifies this`sagas
      ensures sagas == old(sagas)[i := old(sagas)[i].(state := state)]
    {
      sagas := sagas[i := sagas[i].(state := state)];
    }

    method Publish(o: Out)
      modifies this`outbox
      ensures outbox == old(outbox) + [o]
    {
      outbox := outbox + [o];
    }

    /** Load a booking, call one of its methods and update the row. */
    method Change(id: Id, op: Op) returns (ok: bool)
      requires id in bookings && bookings[id].id == id
      modifies this`bookings, this`outbox
      ensures ok <==> Do(op, old(bookings)[id]).Some?
      ensures !ok ==> bookings == old(bookings) && outbox == old(outbox)
      ensures ok ==>
        var c := Do(op, old(bookings)[id]).value;
        && bookings == old(bookings)[id := c.(version := c.version + 1)]
        && outbox == old(outbox) + Collected(op, c)
    {
      var booking := new BookingAggregate(bookings[id]);
      ok := Perform(booking, op);
      if ok {
        OpRaisesRank(op, bookings[id]);
        ok := Update(booking);
      }
    }

    /** A handler did what the transaction `Serve` says; on `!ok` the caller rolls back. */
    twostate predicate Served(a: Action, id: Id, now: Time, ok: bool)
      reads this
    {
      && processed == old(processed)
      && (ok <==> Serve(old(Rows()), a, id, now).Some?)
      && (ok ==> Rows() == Serve(old(Rows()), a, id, now).value)
    }

    ghost predicate Keyed()
      reads this
    {
      forall i :: i in bookings ==> bookings[i].id == i
    }

    method HandleEscrowSuccess(id: Id, now: Time) returns (ok: bool)
      requires Keyed()
      modifies this
      ensures Served(EscrowSuccess, id, now, ok)
    {
      var saga := LatestSaga(sagas, id);
      if id !in bookings || saga.None? {
        return false;
      }
      SetSaga(saga.value, WaitingForChat);
      Publish(CreateChatRoom(id));
      ok := true;
    }

    /** `HandleEscrowFailed`, `HandleRefundSuccess` and `HandleRefundFailed` differ in the
        saga state they write. */
    method HandleFailure(a: Action, id: Id, now: Time) returns (ok: bool)
      requires Keyed() && (a.EscrowFailed? || a.RefundSuccess? || a.RefundFailed?)
      modifies this
      ensures Served(a, id, now, ok)
    {
      var saga := LatestSaga(sagas, id);
      if id !in bookings || saga.None? {
        return false;
      }
      SetSaga(saga.value, if a.RefundFailed? then FailedRequiresAdmin else FailedTechnical);
      ok := Change(id, FailTechnical);
    }

    method HandleChatRoomFailed(id: Id, now: Time) returns (ok: bool)
      requires Keyed()
      modifies this
      ensures Served(ChatRoomFailed, id, now, ok)
    {
      var saga := LatestSaga(sagas, id);
      if id !in bookings || saga.None? {
        return false;
      }
      SetSaga(saga.value, RevertingEscrow);
      Publish(RefundEscrow(id, bookings[id].client, bookings[id].price));
      ok := true;
    }

    method HandleChatRoomCreated(id: Id, now: Time) returns (ok: bool)
      requires Keyed()
      modifies this
      ensures Served(ChatRoomCreated, id, now, ok)
    {
      var saga := LatestSaga(sagas, id);
      if id !in bookings || saga.None? {
        return false;
      }
      var b := bookings[id];
      if HasOverlappingBooking(bookings, b.companion, true, {Accepted}, b.range) {
        SetSaga(saga.value, RevertingEscrow);
        ok := Change(id, Cancel(System, now));
        if !ok {
          ok := Change(id, FailTechnical);
        }
        Publish(RefundEscrow(id, b.client, b.price));
      } else {
        ok := Change(id, Accept(b.companion));
        if ok {
          SetSaga(saga.value, SagaCompleted);
        }
      }
    }

    method HandleCoinsFrozen(id: Id, now: Time) returns (ok: bool)
      requires Keyed()
      modifies this
      ensures Served(CoinsFrozen, id, now, ok)
    {
      if id !in bookings {
        return false;
      }
      var b := bookings[id];
      if b.status != PendingReserving {
        if b.status == Cancelled || b.status == Rejected {
          Publish(UnfreezeCoin(id, b.client, b.price, FrozenHandler));
        }
        return true;
      }
      ok := Change(id, ConfirmReserved);
    }

    method AcceptBooking(id: Id, who: Id, now: Time) returns (ok: bool)
      requires Keyed()
      modifies this
      ensures Served(Action.AcceptBooking(who), id, now, ok)
    {
      if id !in bookings || bookings[id].companion != who || bookings[id].status != Pending {
        return false;
      }
      if HasOverlappingBooking(bookings, who, true, {Accepted}, bookings[id].range) {
        return false;
      }
      sagas := sagas + [Saga(id, WaitingForEscrow)];
      Publish(TransferToEscrow(id, bookings[id].client, bookings[id].price));
      ok := true;
    }

    /** `RejectBookingHandler` and `SystemRejectBookingHandler`. */
    method Release(a: Action, id: Id, now: Time) returns (ok: bool)
      requires Keyed() && (a.RejectBooking? || a.TimeoutBooking?)
      modifies this
      ensures Served(a, id, now, ok)
    {
      if id !in bookings {
        return false;
      }
      var b := bookings[id];
      ok := Change(id, if a.RejectBooking? then Reject(a.who) else SystemTimeout);
      if ok {
        Publish(UnfreezeCoin(id, b.client, b.price, if a.RejectBooking? then RejectHandler else TimeoutHandler));
      }
    }

    method CancelBooking(role: Role, who: Id, id: Id, now: Time) returns (ok: bool)
      requires Keyed()
      modifies this
      ensures Served(Action.CancelBooking(role, who), id, now, ok)
    {
      if id !in bookings {
        return false;
      }
      var b := bookings[id];
      if !((role == Client && who == b.client) || (role == Companion && who == b.companion)) {
        return false;
      }
      ok := Change(id, Cancel(role, now));
    }

    method CompleteBooking(who: Id, id: Id, now: Time) returns (ok: bool)
      requires Keyed()
      modifies this
      ensures Served(Action.CompleteBooking(who), id, now, ok)
    {
      if id !in bookings {
        return false;
      }
      ok := Change(id, Complete(who));
    }

    method AutoComplete(id: Id, now: Time) returns (ok: bool)
      requires Keyed()
      modifies this
      ensures Served(Action.AutoComplete, id, now, ok)
    {
      if id !in bookings {
        return false;
      }
      ok := Change(id, SystemComplete);
    }

    method HandleCoinsFreezeFailed(id: Id, now: Time) returns (ok: bool)
      requires Keyed()
      modifies this
      ensures Served(CoinsFreezeFailed, id, now, ok)
    {
      if id !in bookings {
        return false;
      }
      ok := Change(id, CancelReserving);
    }

    method HandleDisputeCreated(id: Id, now: Time) returns (ok: bool)
      requires Keyed()
      modifies this
      ensures Served(DisputeCreated, id, now, ok)
    {
      if id !in bookings {
        return false;
      }
      ok := Change(id, Dispute);
    }

    method HandleDisputeResolved(id: Id, now: Time) returns (ok: bool)
      requires Keyed()
      modifies this
      ensures Served(DisputeResolved, id, now, ok)
    {
      if id !in bookings {
        return false;
      }
      ok := Change(id, Resolve);
    }

    method Dispatch(a: Action, id: Id, now: Time) returns (ok: bool)
      requires Keyed()
      modifies this
      ensures Served(a, id, now, ok)
    {
      match a {
        case EscrowSuccess => ok := HandleEscrowSuccess(id, now);
        case EscrowFailed => ok := HandleFailure(a, id, now);
        case RefundSuccess => ok := HandleFailure(a, id, now);
        case RefundFailed => ok := HandleFailure(a, id, now);
        case ChatRoomCreated => ok := HandleChatRoomCreated(id, now);
        case ChatRoomFailed => ok := HandleChatRoomFailed(id, now);
        case CoinsFrozen => ok := HandleCoinsFrozen(id, now);
        case AcceptBooking(who) => ok := AcceptBooking(id, who, now);
        case RejectBooking(_) => ok := Release(a, id, now);
        case TimeoutBooking => ok := Release(a, id, now);
        case CancelBooking(role, who) => ok := CancelBooking(role, who, id, now);
        case CompleteBooking(who) => ok := CompleteBooking(who, id, now);
        case AutoComplete => ok := AutoComplete(id, now);
        case CoinsFreezeFailed => ok := HandleCoinsFreezeFailed(id, now);
        case DisputeCreated => ok := HandleDisputeCreated(id, now);
        case DisputeResolved => ok := HandleDisputeResolved(id, now);
      }
    }

    /** `withTx` around the idempotency check and a handler. `ok` is false when the handler
        returns an error or the commit fails; then nothing is left behind. */
    method Deliver(event: Id, a: Action, id: Id, now: Time, commits: bool) returns (ok: bool)
      requires Keyed()
      modifies this
      ensures Keyed()
      ensures State() == Process(old(State()), Event(event, a, id, now, commits))
      ensures ok <==> event in old(processed) || Bare(old(Rows()), Event(event, a, id, now, commits)).Some?
    {
      if event in processed {
        return true;
      }
      var before := (bookings, sagas, outbox, processed);
      processed := processed + {event};
      ok := Dispatch(a, id, now);
      if ok {
        ServeKeepsKeys(before.0, before.1, before.2, a, id, now);
      }
      if !ok || !commits {
        bookings, sagas, outbox, processed := before.0, before.1, before.2, before.3;
        ok := false;
      }
    }
  }

  /** What an attempt to process an event comes to: an error, or the tables it leaves. */
  datatype Outcome = Errs | Leaves(db: Db)

  function OutcomeOf(db: Db, event: Id, a: Action, id: Id, attempt: (Time, bool)): Outcome {
    var x := Event(event, a, id, attempt.0, attempt.1);
    if event !in db.processed && Bare(db.tables, x).None? then Errs else Leaves(Process(db, x))
  }

  /** What each of the attempts would come to in the same state. */
  function Outcomes(db: Db, event: Id, a: Action, id: Id, tries: seq<(Time, bool)>): (os: seq<Outcome>)
    ensures |os| == |tries|
  {
    if tries == [] then [] else [OutcomeOf(db, event, a, id, tries[0])] + Outcomes(db, event, a, id, tries[1..])
  }

  lemma {:induction false} OutcomeAt(db: Db, event: Id, a: Action, id: Id, tries: seq<(Time, bool)>, i: nat)
    requires i < |tries|
    ensures Outcomes(db, event, a, id, tries)[i] == OutcomeOf(db, event, a, id, tries[i])
  {
    if i > 0 {
      OutcomeAt(db, event, a, id, tries[1..], i - 1);
    }
  }

  /** One attempt of `consume`. */
  method Attempt(service: BookingService, event: Id, a: Action, id: Id, tries: seq<(Time, bool)>, i: nat, ghost os: seq<Outcome>)
    returns (ok: bool)
    requires i < |tries| && service.Keyed() && os == Outcomes(service.State(), event, a, id, tries)
    modifies service
    ensures service.Keyed() && (ok <==> os[i].Leaves?)
    ensures if ok then os[i] == Leaves(service.State()) && event in service.processed else service.State() == old(service.State())
  {
    OutcomeAt(service.State(), event, a, id, tries, i);
    ok := service.Deliver(event, a, id, tries[i].0, tries[i].1);
  }

  /** `consume` for one message: dispatch until it succeeds, at most `MAX_RETRIES` times; the
      attempts happen at the given times and their commits succeed or fail as given. After
      `patience` failed attempts the context is cancelled during the backoff, if there is one.
      The offset is committed exactly when the last attempt succeeded, and then the event had
      that attempt's effect; otherwise nothing changed. */
  method Consume(service: BookingService, event: Id, a: Action, id: Id, tries: seq<(Time, bool)>, patience: nat)
    returns (committed: bool, used: nat)
    requires |tries| == MAX_RETRIES && patience > 0 && service.Keyed()
    modifies service
    ensures service.Keyed() && used <= 3
    ensures var os := Outcomes(old(service.State()), event, a, id, tries);
      && (committed ==> used > 0 && os[used - 1] == Leaves(service.State()) && event in service.processed)
      && (forall j :: 0 <= j < (if committed then used - 1 else used) ==> os[j] == Errs)
    ensures !committed ==>
      (used == MAX_RETRIES || used == patience < MAX_RETRIES) && service.State() == old(service.State())
  {
    committed, used := false, 0;
    ghost var os := Outcomes(service.State(), event, a, id, tries);
    var cancelled := false;
    while used < MAX_RETRIES && !committed && !cancelled
      invariant used <= MAX_RETRIES && service.Keyed()
      invariant cancelled ==> !committed && used == patience < MAX_RETRIES
      invariant committed ==> used > 0 && os[used - 1] == Leaves(service.State()) && event in service.processed
      invariant !committed ==> service.State() == old(service.State())
      invariant forall j :: 0 <= j < (if committed then used - 1 else used) ==> os[j] == Errs
    {
      committed := Attempt(service, event, a, id, tries, used, os);
      used := used + 1;
      cancelled := !committed && used < MAX_RETRIES && used == patience;
    }
  }

  lemma ServeKeepsKeys(bookings: map<Id, Row>, sagas: seq<Saga>, outbox: seq<Out>, a: Action, id: Id, now: Time)
    requires forall i :: i in bookings ==> bookings[i].id == i
    requires Serve(Tables(bookings, sagas, outbox), a, id, now).Some?
    ensures var t := Serve(Tables(bookings, sagas, outbox), a, id, now).value;
      forall i :: i in t.bookings ==> t.bookings[i].id == i
  {
    var b, saga := bookings[id], LatestSaga(sagas, id);
    var overlap := CompanionIsTaken(bookings, b);
    var e := Decide(a, b, saga.Some?, overlap, now).value;
    if e.write.Some? {
      AcceptNeedsFreeCompanion(a, b, saga.Some?, overlap, now, e);
    }
  }
}
