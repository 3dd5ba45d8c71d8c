/** Where the handlers lead, for every booking: the paths of the accept saga and its failures,
    and of reserving, releasing, cancelling and finishing, with everything that is written on
    the way. */
module BookingPaths {
  import opened Prelude
  import opened Booking
  import opened BookingRuns

  // ----- One transaction

  /** The transaction commits, changes the booking to `c` and nothing else about bookings and
      sagas, and writes `outs`. */
  ghost predicate Leads(t: Tables, a: Action, id: Id, now: Time, c: Row, outs: seq<Out>) {
    Serve(t, a, id, now) == Some(Tables(t.bookings[id := c], t.sagas, t.outbox + outs))
  }

  lemma PlainWrite(op: Op, b: Row, saga: Option<SagaState>)
    ensures Do(op, b).None? ==> Wrote(op, b, saga, []) == None
    ensures Do(op, b).Some? ==>
      var c := Do(op, b).value;
      Wrote(op, b, saga, []) == Some(Effect(Some(c.(version := b.version + 1)), saga, false, Collected(op, c)))
  {
    if Do(op, b).Some? {
      var c := Do(op, b).value;
      assert Collected(op, c) + [] == Collected(op, c);
    }
  }

  /** A handler that calls one method of the aggregate and updates the row. */
  lemma OneMethod(t: Tables, a: Action, id: Id, now: Time, op: Op)
    requires id in t.bookings && !NeedsSaga(a)
    requires Decide(a, t.bookings[id], LatestSaga(t.sagas, id).Some?, CompanionIsTaken(t.bookings, t.bookings[id]), now)
          == Wrote(op, t.bookings[id], None, [])
    ensures var b := t.bookings[id];
      && (Serve(t, a, id, now).Some? <==> Do(op, b).Some?)
      && (Do(op, b).Some? ==>
            var c := Do(op, b).value;
            Leads(t, a, id, now, c.(version := b.version + 1), Collected(op, c)))
  {
    PlainWrite(op, t.bookings[id], None);
  }

  function Moved(b: Row, s: Status): Row {
    b.(status := s, version := b.version + 1)
  }

  /** Cancelled by the system, not late. */
  function Dropped(b: Row): Row {
    Moved(b, Cancelled).(cancelledBy := System, late := false)
  }

  /** A reserving booking becomes pending when its coins are frozen, which is announced, and is
      cancelled when they cannot be. */
  lemma ReservePath(t: Tables, id: Id, now: Time)
    requires id in t.bookings && t.bookings[id].status == PendingReserving && t.bookings[id].id == id
    ensures Leads(t, CoinsFrozen, id, now, Moved(t.bookings[id], Pending), [BookingReserved(id)])
    ensures Leads(t, CoinsFreezeFailed, id, now, Dropped(t.bookings[id]), [])
  {
    OneMethod(t, CoinsFrozen, id, now, ConfirmReserved);
    OneMethod(t, CoinsFreezeFailed, id, now, CancelReserving);
  }

  /** Coins that are frozen for a booking that was closed meanwhile go back to its client; for
      any other booking the event changes nothing. */
  lemma LateFreeze(t: Tables, id: Id, now: Time)
    requires id in t.bookings && t.bookings[id].status != PendingReserving && t.bookings[id].id == id
    ensures var b := t.bookings[id];
      Serve(t, CoinsFrozen, id, now) ==
      Some(if b.status == Cancelled || b.status == Rejected
           then t.(outbox := t.outbox + [UnfreezeCoin(id, b.client, b.price, FrozenHandler)]) else t)
  {
    assert t.outbox + [] == t.outbox;
  }

  /** The companion or the clock rejects a pending booking, and its coins are released to its
      client; anybody else, or at any other time, changes nothing. */
  lemma ReleasePath(t: Tables, id: Id, who: Id, now: Time)
    requires id in t.bookings && t.bookings[id].id == id
    ensures var b := t.bookings[id];
      && (Serve(t, RejectBooking(who), id, now).Some? <==> b.status == Pending && who == b.companion)
      && (Serve(t, TimeoutBooking, id, now).Some? <==> b.status == Pending)
      && (b.status == Pending && who == b.companion ==>
            Leads(t, RejectBooking(who), id, now, Moved(b, Rejected),
                  [BookingRejected(id), UnfreezeCoin(id, b.client, b.price, RejectHandler)]))
      && (b.status == Pending ==>
            Leads(t, TimeoutBooking, id, now, Moved(b, Rejected),
                  [BookingTimedOut(id), UnfreezeCoin(id, b.client, b.price, TimeoutHandler)]))
  {
    var b := t.bookings[id];
    assert [BookingRejected(id)] + [Unfreeze(b, RejectHandler)] == [BookingRejected(id), UnfreezeCoin(id, b.client, b.price, RejectHandler)];
    assert [BookingTimedOut(id)] + [Unfreeze(b, TimeoutHandler)] == [BookingTimedOut(id), UnfreezeCoin(id, b.client, b.price, TimeoutHandler)];
  }

  predicate IsParty(b: Row, role: Role, who: Id) {
    (role == Client && who == b.client) || (role == Companion && who == b.companion)
  }

  /** A booking is cancelled exactly by its own client or companion while it is pending or
      accepted; the one event tells who and whether it was late. */
  lemma CancelPath(t: Tables, id: Id, role: Role, who: Id, now: Time)
    requires id in t.bookings && t.bookings[id].id == id
    ensures var b := t.bookings[id];
      var late := b.status == Accepted && b.range.start - now < 24 * HOUR;
      && (Serve(t, CancelBooking(role, who), id, now).Some? <==>
            IsParty(b, role, who) && (b.status == Pending || b.status == Accepted))
      && (IsParty(b, role, who) && (b.status == Pending || b.status == Accepted) ==>
            Leads(t, CancelBooking(role, who), id, now, Moved(b, Cancelled).(cancelledBy := role, late := late),
                  [if late then BookingCancelledLate(id, role) else BookingCancelledEarly(id, role)]))
  {
    LateIff(t.bookings[id], role, now);
    if IsParty(t.bookings[id], role, who) {
      OneMethod(t, CancelBooking(role, who), id, now, Cancel(role, now));
    }
  }

  /** An accepted booking is completed by its own client or by the clock, with the price
      announced; anybody else, or at any other time, changes nothing. */
  lemma CompletePath(t: Tables, id: Id, who: Id, now: Time)
    requires id in t.bookings && t.bookings[id].id == id
    ensures var b := t.bookings[id];
      && (Serve(t, CompleteBooking(who), id, now).Some? <==> b.status == Accepted && who == b.client)
      && (Serve(t, AutoComplete, id, now).Some? <==> b.status == Accepted)
      && (b.status == Accepted ==>
            && (who == b.client ==> Leads(t, CompleteBooking(who), id, now, Moved(b, Completed), [BookingCompleted(id, b.price)]))
            && Leads(t, AutoComplete, id, now, Moved(b, Completed), [BookingCompleted(id, b.price)]))
  {
    OneMethod(t, CompleteBooking(who), id, now, Complete(who));
    OneMethod(t, AutoComplete, id, now, SystemComplete);
  }

  /** An accepted booking can be disputed, and a disputed one resolved, without a message. */
  lemma DisputePath(t: Tables, id: Id, now: Time)
    requires id in t.bookings && t.bookings[id].id == id
    ensures var b := t.bookings[id];
      && (Serve(t, DisputeCreated, id, now).Some? <==> b.status == Accepted)
      && (Serve(t, DisputeResolved, id, now).Some? <==> b.status == Disputed)
      && (b.status == Accepted ==> Leads(t, DisputeCreated, id, now, Moved(b, Disputed), []))
      && (b.status == Disputed ==> Leads(t, DisputeResolved, id, now, Moved(b, Resolved), []))
  {
    OneMethod(t, DisputeCreated, id, now, Dispute);
    OneMethod(t, DisputeResolved, id, now, Resolve);
  }

  /** No transaction touches an unknown booking, and an answer of another service about a
      booking without a saga is an error that leaves nothing. */
  lemma OnlyKnown(t: Tables, a: Action, id: Id, now: Time)
    requires Serve(t, a, id, now).Some?
    ensures id in t.bookings
    ensures a in {EscrowSuccess, EscrowFailed, ChatRoomCreated, ChatRoomFailed, RefundSuccess, RefundFailed} ==> HasSaga(t.sagas, id)
  {
  }

  // ----- The accept saga

  lemma LatestIs(sagas: seq<Saga>, id: Id, state: SagaState)
    ensures LatestSaga(sagas + [Saga(id, state)], id) == Some(|sagas|)
  {
  }

  /** A transaction of the saga that was opened last. */
  lemma {:induction false} SagaStep(t: Tables, sagas: seq<Saga>, state: SagaState, a: Action, id: Id, now: Time, e: Effect)
    requires id in t.bookings && t.sagas == sagas + [Saga(id, state)]
    requires Decide(a, t.bookings[id], true, CompanionIsTaken(t.bookings, t.bookings[id]), now) == Some(e)
    requires e.saga.Some? && !e.opens
    ensures Serve(t, a, id, now) ==
      Some(Tables(if e.write.Some? then t.bookings[id := e.write.value] else t.bookings,
                  sagas + [Saga(id, e.saga.value)], t.outbox + e.outs))
  {
    LatestIs(sagas, id, state);
    assert t.sagas[|sagas| := Saga(id, e.saga.value)] == sagas + [Saga(id, e.saga.value)];
  }

  /** The tables while a saga that was just opened is in `state`: the booking is `b`, and
      `outs` were written since. */
  function Under(t: Tables, id: Id, b: Row, state: SagaState, outs: seq<Out>): Tables {
    Tables(t.bookings[id := b], t.sagas + [Saga(id, state)], t.outbox + outs)
  }

  ghost predicate Step(t: Tables, a: Action, id: Id, now: Time, v: Tables) {
    Serve(t, a, id, now) == Some(v)
  }

  /** The escrow answers: the chat room is asked for, or the booking is cancelled. */
  lemma {:induction false} EscrowAnswers(t: Tables, id: Id, b: Row, outs: seq<Out>, now: Time)
    requires b.id == id
    ensures var u := Under(t, id, b, WaitingForEscrow, outs);
      && Step(u, EscrowSuccess, id, now, Under(t, id, b, WaitingForChat, outs + [CreateChatRoom(id)]))
      && Step(u, EscrowFailed, id, now, Under(t, id, Dropped(b), FailedTechnical, outs))
  {
    var u := Under(t, id, b, WaitingForEscrow, outs);
    SagaStep(u, t.sagas, WaitingForEscrow, EscrowSuccess, id, now, Effect(None, Some(WaitingForChat), false, [CreateChatRoom(id)]));
    PlainWrite(FailTechnical, b, Some(FailedTechnical));
    SagaStep(u, t.sagas, WaitingForEscrow, EscrowFailed, id, now, Effect(Some(Dropped(b)), Some(FailedTechnical), false, []));
    assert t.outbox + outs + [CreateChatRoom(id)] == t.outbox + (outs + [CreateChatRoom(id)]);
    assert t.outbox + outs + [] == t.outbox + outs;
    assert t.bookings[id := b][id := Dropped(b)] == t.bookings[id := Dropped(b)];
  }

  /** The chat room fails: the refund of the price is asked for and the booking waits. */
  lemma {:induction false} ChatRoomFails(t: Tables, id: Id, b: Row, outs: seq<Out>, now: Time)
    requires b.id == id
    ensures Step(Under(t, id, b, WaitingForChat, outs), ChatRoomFailed, id, now,
                 Under(t, id, b, RevertingEscrow, outs + [RefundEscrow(id, b.client, b.price)]))
  {
    var u := Under(t, id, b, WaitingForChat, outs);
    SagaStep(u, t.sagas, WaitingForChat, ChatRoomFailed, id, now, Effect(None, Some(RevertingEscrow), false, [Refund(b)]));
    assert t.outbox + outs + [Refund(b)] == t.outbox + (outs + [Refund(b)]);
  }

  /** The refund answers: the booking is cancelled either way; a failed one needs an admin. */
  lemma {:induction false} RefundAnswers(t: Tables, id: Id, b: Row, outs: seq<Out>, now: Time)
    requires b.id == id
    ensures var u := Under(t, id, b, RevertingEscrow, outs);
      && Step(u, RefundSuccess, id, now, Under(t, id, Dropped(b), FailedTechnical, outs))
      && Step(u, RefundFailed, id, now, Under(t, id, Dropped(b), FailedRequiresAdmin, outs))
  {
    var u := Under(t, id, b, RevertingEscrow, outs);
    PlainWrite(FailTechnical, b, Some(FailedTechnical));
    PlainWrite(FailTechnical, b, Some(FailedRequiresAdmin));
    SagaStep(u, t.sagas, RevertingEscrow, RefundSuccess, id, now, Effect(Some(Dropped(b)), Some(FailedTechnical), false, []));
    SagaStep(u, t.sagas, RevertingEscrow, RefundFailed, id, now, Effect(Some(Dropped(b)), Some(FailedRequiresAdmin), false, []));
    assert t.outbox + outs + [] == t.outbox + outs;
    assert t.bookings[id := b][id := Dropped(b)] == t.bookings[id := Dropped(b)];
  }

  /** The chat room is there and the companion still free: the booking is accepted. */
  lemma {:induction false} ChatRoomOpens(t: Tables, id: Id, b: Row, outs: seq<Out>, now: Time)
    requires b.id == id && b.status == Pending && !CompanionIsTaken(t.bookings[id := b], b)
    ensures Step(Under(t, id, b, WaitingForChat, outs), ChatRoomCreated, id, now,
                 Under(t, id, Moved(b, Accepted), SagaCompleted, outs + [BookingAccepted(id)]))
  {
    var u := Under(t, id, b, WaitingForChat, outs);
    SagaStep(u, t.sagas, WaitingForChat, ChatRoomCreated, id, now,
             Effect(Some(Moved(b, Accepted)), Some(SagaCompleted), false, [BookingAccepted(id)] + []));
    assert [BookingAccepted(id)] + [] == [BookingAccepted(id)];
    assert t.outbox + outs + [BookingAccepted(id)] == t.outbox + (outs + [BookingAccepted(id)]);
    assert t.bookings[id := b][id := Moved(b, Accepted)] == t.bookings[id := Moved(b, Accepted)];
  }

  /** What an accepted request writes on the way. */
  function Asked(b: Row): seq<Out> {
    [TransferToEscrow(b.id, b.client, b.price)]
  }

  /** The accept saga, from a pending booking whose companion asks and is not busy then. Every
      answer of the other services leads somewhere: to an accepted booking with the saga
      completed, or to a cancelled one with the saga failed and, once the coins were in
      escrow, with their refund asked for. */
  lemma {:induction false} AcceptSagaPaths(t: Tables, id: Id, n1: Time, n2: Time, n3: Time, n4: Time)
    requires Valid(t) && id in t.bookings && t.bookings[id].status == Pending
    requires !CompanionIsBusy(t.bookings, t.bookings[id].companion, t.bookings[id].range)
    ensures var b := t.bookings[id];
      var chat := Asked(b) + [CreateChatRoom(id)];
      var reverting := Under(t, id, b, RevertingEscrow, chat + [RefundEscrow(id, b.client, b.price)]);
      && Step(t, AcceptBooking(b.companion), id, n1, Under(t, id, b, WaitingForEscrow, Asked(b)))
      && Step(Under(t, id, b, WaitingForEscrow, Asked(b)), EscrowFailed, id, n2, Under(t, id, Dropped(b), FailedTechnical, Asked(b)))
      && Step(Under(t, id, b, WaitingForEscrow, Asked(b)), EscrowSuccess, id, n2, Under(t, id, b, WaitingForChat, chat))
      && Step(Under(t, id, b, WaitingForChat, chat), ChatRoomCreated, id, n3,
              Under(t, id, Moved(b, Accepted), SagaCompleted, chat + [BookingAccepted(id)]))
      && Step(Under(t, id, b, WaitingForChat, chat), ChatRoomFailed, id, n3, reverting)
      && Step(reverting, RefundSuccess, id, n4, Under(t, id, Dropped(b), FailedTechnical, reverting.outbox[|t.outbox|..]))
      && Step(reverting, RefundFailed, id, n4, Under(t, id, Dropped(b), FailedRequiresAdmin, reverting.outbox[|t.outbox|..]))
  {
    var b := t.bookings[id];
    var chat := Asked(b) + [CreateChatRoom(id)];
    var back := chat + [RefundEscrow(id, b.client, b.price)];
    AcceptStartsIff(t, id, b.companion, n1);
    assert t.bookings[id := b] == t.bookings;
    EscrowAnswers(t, id, b, Asked(b), n2);
    CompanionQueryIff(t.bookings, b.companion, b.range);
    ChatRoomOpens(t, id, b, chat, n3);
    ChatRoomFails(t, id, b, chat, n3);
    RefundAnswers(t, id, b, back, n4);
    assert (t.outbox + back)[|t.outbox|..] == back;
  }
}
