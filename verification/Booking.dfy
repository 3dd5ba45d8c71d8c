/** The booking aggregate: its status machine, the rows that persist it, and the effect of
    every command and event handler on a booking, its accept saga and the outbox. */
module Booking {
  import opened Prelude

  type Id = string
  type Time = int  // nanoseconds

  const MINUTE: Time := 60_000_000_000
  const HOUR: Time := 60 * MINUTE
  const LATE: Time := 24 * HOUR

  datatype Status =
    | PendingReserving | Pending | Accepted | Rejected | Completed | Cancelled | Disputed | Resolved

  datatype Role = NoRole | Client | Companion | System

  datatype TimeRange = TimeRange(start: Time, end: Time) {
    /** The half-open interval contains a moment. */
    predicate Contains(t: Time) {
      start <= t < end
    }
  }

  /** A row of the bookings table, which is also the state of a loaded aggregate. */
  datatype Row = Row(
    id: Id, client: Id, companion: Id, price: nat, range: TimeRange,
    status: Status, cancelledBy: Role, late: bool, version: nat)

  /** A row of the outbox. `UnfreezeCoin` says which handler wrote it. */
  datatype Out =
    | BookingRequested(booking: Id, price: nat)
    | BookingReserved(booking: Id)
    | BookingAccepted(booking: Id)
    | BookingRejected(booking: Id)
    | BookingTimedOut(booking: Id)
    | BookingCancelledEarly(booking: Id, actor: Role)
    | BookingCancelledLate(booking: Id, actor: Role)
    | BookingCompleted(booking: Id, price: nat)
    | TransferToEscrow(booking: Id, user: Id, amount: nat)
    | CreateChatRoom(booking: Id)
    | RefundEscrow(booking: Id, user: Id, amount: nat)
    | UnfreezeCoin(booking: Id, user: Id, amount: nat, writer: Writer)

  datatype Writer = RejectHandler | TimeoutHandler | FrozenHandler

  // ----- The aggregate's methods as functions on rows

  datatype Op =
    | Accept(who: Id) | Reject(who: Id) | Cancel(role: Role, now: Time) | Complete(who: Id)
    | SystemComplete | SystemTimeout | Dispute | Resolve | FailTechnical | ConfirmReserved | CancelReserving

  predicate IsLateCancel(range: TimeRange, now: Time) {
    now + LATE > range.start
  }

  function CancelEvent(b: Row): Out {
    if b.late then BookingCancelledLate(b.id, b.cancelledBy) else BookingCancelledEarly(b.id, b.cancelledBy)
  }

  /** `None` where the method returns an error. */
  function Do(op: Op, b: Row): Option<Row> {
    match op
    case Accept(who) => if who == b.companion && b.status == Pending then Some(b.(status := Accepted)) else None
    case Reject(who) => if who == b.companion && b.status == Pending then Some(b.(status := Rejected)) else None
    case Cancel(role, now) =>
      if b.status == Pending || b.status == Accepted then
        Some(b.(status := Cancelled, cancelledBy := role, late := b.status != Pending && IsLateCancel(b.range, now)))
      else None
    case Complete(who) => if who == b.client && b.status == Accepted then Some(b.(status := Completed)) else None
    case SystemComplete => if b.status == Accepted then Some(b.(status := Completed)) else None
    case SystemTimeout => if b.status == Pending then Some(b.(status := Rejected)) else None
    case Dispute => if b.status == Accepted then Some(b.(status := Disputed)) else None
    case Resolve => if b.status == Disputed then Some(b.(status := Resolved)) else None
    case FailTechnical => Some(b.(status := Cancelled, cancelledBy := System, late := false))
    case ConfirmReserved => if b.status == PendingReserving then Some(b.(status := Pending)) else None
    case CancelReserving =>
      if b.status == PendingReserving then Some(b.(status := Cancelled, cancelledBy := System, late := false)) else None
  }

  /** The domain events the method collects, given the new state. */
  function Collected(op: Op, b: Row): seq<Out> {
    match op
    case Accept(_) => [BookingAccepted(b.id)]
    case Reject(_) => [BookingRejected(b.id)]
    case Cancel(_, _) => [CancelEvent(b)]
    case Complete(_) => [BookingCompleted(b.id, b.price)]
    case SystemComplete => [BookingCompleted(b.id, b.price)]
    case SystemTimeout => [BookingTimedOut(b.id)]
    case ConfirmReserved => [BookingReserved(b.id)]
    case _ => []
  }

  /** How far a booking has come; no transition leads back. */
  function Rank(s: Status): nat {
    match s
    case PendingReserving => 0
    case Pending => 1
    case Accepted => 2
    case Rejected => 2
    case Completed => 3
    case Disputed => 3
    case Resolved => 4
    case Cancelled => 5
  }

  predicate SameBooking(a: Row, b: Row) {
    a.id == b.id && a.client == b.client && a.companion == b.companion && a.price == b.price && a.range == b.range
  }

  /** Every method raises the rank, except that a cancelled booking can be cancelled again. */
  lemma OpRaisesRank(op: Op, b: Row)
    requires Do(op, b).Some?
    ensures var c := Do(op, b).value;
      && SameBooking(b, c) && c.version == b.version
      && (Rank(b.status) < Rank(c.status) || (b.status == Cancelled && c.status == Cancelled))
  {
  }

  /** The status machine as a graph. Only a technical failure cancels from anywhere. */
  predicate Edge(a: Status, b: Status) {
    match b
    case PendingReserving => false
    case Pending => a == PendingReserving
    case Accepted => a == Pending
    case Rejected => a == Pending
    case Completed => a == Accepted
    case Disputed => a == Accepted
    case Resolved => a == Disputed
    case Cancelled => true
  }

  ghost predicate Reaches(b: Row, s: Status) {
    exists op :: Do(op, b).Some? && Do(op, b).value.status == s
  }

  /** The methods realise exactly the edges of the graph. */
  lemma EdgesIff(b: Row, s: Status)
    ensures Reaches(b, s) <==> Edge(b.status, s)
  {
    if Edge(b.status, s) {
      var op := match s
        case Pending => ConfirmReserved
        case Accepted => Accept(b.companion)
        case Rejected => SystemTimeout
        case Completed => SystemComplete
        case Disputed => Dispute
        case Resolved => Resolve
        case _ => FailTechnical;
      assert Do(op, b).Some? && Do(op, b).value.status == s;
    }
  }

  /** Accepting and rejecting are the companion's, completing is the client's, and each leads
      to its own status; nobody else's attempt does anything. */
  lemma OwnersAct(b: Row, who: Id)
    ensures Do(Accept(who), b).Some? <==> who == b.companion && b.status == Pending
    ensures Do(Accept(who), b).Some? ==> Do(Accept(who), b).value.status == Accepted
    ensures Do(Reject(who), b).Some? <==> who == b.companion && b.status == Pending
    ensures Do(Reject(who), b).Some? ==> Do(Reject(who), b).value.status == Rejected
    ensures Do(Complete(who), b).Some? <==> who == b.client && b.status == Accepted
    ensures Do(Complete(who), b).Some? ==> Do(Complete(who), b).value.status == Completed
  {
  }

  /** A cancellation is late exactly when the booking was accepted and starts less than 24
      hours from now; it names who cancelled, and so does the event. */
  lemma LateIff(b: Row, role: Role, now: Time)
    ensures Do(Cancel(role, now), b).Some? <==> b.status == Pending || b.status == Accepted
    ensures Do(Cancel(role, now), b).Some? ==>
      var c := Do(Cancel(role, now), b).value;
      && c.status == Cancelled && c.cancelledBy == role
      && (c.late <==> b.status == Accepted && b.range.start - now < 86_400_000_000_000)
      && Collected(Cancel(role, now), c) == [if c.late then BookingCancelledLate(b.id, role) else BookingCancelledEarly(b.id, role)]
  {
  }

  /** The aggregate itself, with its uncommitted events. */
  class BookingAggregate {
    const id: Id
    const client: Id
    const companion: Id
    const price: nat
    const range: TimeRange
    const version: nat
    var status: Status
    var cancelledByRole: Role
    var isLateCancel: bool
    var events: seq<Out>

    /** `Reconstitute`. */
    constructor (row: Row)
      ensures State() == row && events == []
    {
      id, client, companion, price, range, version := row.id, row.client, row.companion, row.price, row.range, row.version;
      status, cancelledByRole, isLateCancel, events := row.status, row.cancelledBy, row.late, [];
    }

    function State(): Row
      reads this
    {
      Row(id, client, companion, price, range, status, cancelledByRole, isLateCancel, version)
    }

    /** What a method does when it succeeds, and that an error changes nothing. */
    twostate predicate Did(op: Op, ok: bool)
      reads this
    {
      && ok == Do(op, old(State())).Some?
      && State() == (if ok then Do(op, old(State())).value else old(State()))
      && events == old(events) + (if ok then Collected(op, State()) else [])
    }

    method Accept(who: Id) returns (ok: bool)
      modifies this
      ensures Did(Op.Accept(who), ok)
    {
      if companion != who || status != Pending {
        return false;
      }
      status := Accepted;
      events := events + [BookingAccepted(id)];
      ok := true;
    }

    method Reject(who: Id) returns (ok: bool)
      modifies this
      ensures Did(Op.Reject(who), ok)
    {
      if companion != who || status != Pending {
        return false;
      }
      status := Rejected;
      events := events + [BookingRejected(id)];
      ok := true;
    }

    method Cancel(role: Role, now: Time) returns (ok: bool)
      modifies this
      ensures Did(Op.Cancel(role, now), ok)
    {
      if !(status == Pending || status == Accepted) {
        return false;
      }
      var originalStatus := status;
      status := Cancelled;
      cancelledByRole := role;
      if originalStatus == Pending {
        isLateCancel := false;
      } else {
        isLateCancel := now + LATE > range.start;
      }
      if isLateCancel {
        events := events + [BookingCancelledLate(id, role)];
      } else {
        events := events + [BookingCancelledEarly(id, role)];
      }
      ok := true;
    }

    method Complete(who: Id) returns (ok: bool)
      modifies this
      ensures Did(Op.Complete(who), ok)
    {
      if client != who || status != Accepted {
        return false;
      }
      status := Completed;
      events := events + [BookingCompleted(id, price)];
      ok := true;
    }

    method SystemComplete() returns (ok: bool)
      modifies this
      ensures Did(Op.SystemComplete, ok)
    {
      if status != Accepted {
        return false;
      }
      status := Completed;
      events := events + [BookingCompleted(id, price)];
      ok := true;
    }

    method SystemTimeout() returns (ok: bool)
      modifies this
      ensures Did(Op.SystemTimeout, ok)
    {
      if status != Pending {
        return false;
      }
      status := Rejected;
      events := events + [BookingTimedOut(id)];
      ok := true;
    }

    method Dispute() returns (ok: bool)
      modifies this
      ensures Did(Op.Dispute, ok)
    {
      if status != Accepted {
        return false;
      }
      status := Disputed;
      ok := true;
    }

    method Resolve() returns (ok: bool)
      modifies this
      ensures Did(Op.Resolve, ok)
    {
      if status != Disputed {
        return false;
      }
      status := Resolved;
      ok := true;
    }

    method FailTechnical()
      modifies this
      ensures Did(Op.FailTechnical, true)
    {
      status := Cancelled;
      cancelledByRole := System;
      isLateCancel := false;
    }

    method ConfirmReserved() returns (ok: bool)
      modifies this
      ensures Did(Op.ConfirmReserved, ok)
    {
      if status != PendingReserving {
        return false;
      }
      status := Pending;
      events := events + [BookingReserved(id)];
      ok := true;
    }

    method CancelReserving() returns (ok: bool)
      modifies this
      ensures Did(Op.CancelReserving, ok)
    {
      if status != PendingReserving {
        return false;
      }
      status := Cancelled;
      cancelledByRole := System;
      isLateCancel := false;
      ok := true;
    }
  }

  /** The method that an operation names. */
  method Perform(booking: BookingAggregate, op: Op) returns (ok: bool)
    modifies booking
    ensures booking.Did(op, ok)
  {
    ok := true;
    match op {
      case Accept(who) => ok := booking.Accept(who);
      case Reject(who) => ok := booking.Reject(who);
      case Cancel(role, now) => ok := booking.Cancel(role, now);
      case Complete(who) => ok := booking.Complete(who);
      case SystemComplete => ok := booking.SystemComplete();
      case SystemTimeout => ok := booking.SystemTimeout();
      case Dispute => ok := booking.Dispute();
      case Resolve => ok := booking.Resolve();
      case FailTechnical => booking.FailTechnical();
      case ConfirmReserved => ok := booking.ConfirmReserved();
      case CancelReserving => ok := booking.CancelReserving();
    }
  }

  // ----- The handlers: what each decides from the booking it loaded

  datatype SagaState =
    | WaitingForEscrow | WaitingForChat | SagaCompleted | RevertingEscrow | FailedTechnical | FailedRequiresAdmin

  datatype Saga = Saga(booking: Id, state: SagaState)

  datatype Action =
    // commands
    | AcceptBooking(who: Id) | RejectBooking(who: Id) | TimeoutBooking | CancelBooking(role: Role, who: Id)
    | CompleteBooking(who: Id) | AutoComplete
    // inbound events
    | EscrowSuccess | EscrowFailed | ChatRoomCreated | ChatRoomFailed | RefundSuccess | RefundFailed
    | CoinsFrozen | CoinsFreezeFailed | DisputeCreated | DisputeResolved

  /** What a committed transaction writes: the booking (guarded by its version), the state
      of the loaded saga, a new saga, and outbox rows. */
  datatype Effect = Effect(write: Option<Row>, saga: Option<SagaState>, opens: bool, outs: seq<Out>)

  function Wrote(op: Op, b: Row, saga: Option<SagaState>, more: seq<Out>): Option<Effect> {
    match Do(op, b)
    case Some(c) => Some(Effect(Some(c.(version := b.version + 1)), saga, false, Collected(op, c) + more))
    case None => None
  }

  /** The client of the booking gets the frozen coins back. */
  function Unfreeze(b: Row, writer: Writer): Out {
    UnfreezeCoin(b.id, b.client, b.price, writer)
  }

  function Refund(b: Row): Out {
    RefundEscrow(b.id, b.client, b.price)
  }

  predicate NeedsSaga(a: Action) {
    a.EscrowSuccess? || a.EscrowFailed? || a.ChatRoomCreated? || a.ChatRoomFailed? || a.RefundSuccess? || a.RefundFailed?
  }

  /** `overlap` is the answer of the overlap query for the companion's accepted bookings.
      `None` is an error, which rolls everything back. */
  function Decide(a: Action, b: Row, hasSaga: bool, overlap: bool, now: Time): Option<Effect> {
    if NeedsSaga(a) && !hasSaga then None
    else match a
      case AcceptBooking(who) =>
        if who == b.companion && b.status == Pending && !overlap then
          Some(Effect(None, None, true, [TransferToEscrow(b.id, b.client, b.price)]))
        else None
      case RejectBooking(who) => Wrote(Reject(who), b, None, [Unfreeze(b, RejectHandler)])
      case TimeoutBooking => Wrote(SystemTimeout, b, None, [Unfreeze(b, TimeoutHandler)])
      case CancelBooking(role, who) =>
        if (role == Client && who == b.client) || (role == Companion && who == b.companion) then
          Wrote(Cancel(role, now), b, None, [])
        else None
      case CompleteBooking(who) => Wrote(Complete(who), b, None, [])
      case AutoComplete => Wrote(SystemComplete, b, None, [])
      case EscrowSuccess => Some(Effect(None, Some(WaitingForChat), false, [CreateChatRoom(b.id)]))
      case EscrowFailed => Wrote(FailTechnical, b, Some(FailedTechnical), [])
      case ChatRoomCreated =>
        if overlap then
          var op := if Do(Cancel(System, now), b).Some? then Cancel(System, now) else FailTechnical;
          Wrote(op, b, Some(RevertingEscrow), [Refund(b)])
        else Wrote(Accept(b.companion), b, Some(SagaCompleted), [])
      case ChatRoomFailed => Some(Effect(None, Some(RevertingEscrow), false, [Refund(b)]))
      case RefundSuccess => Wrote(FailTechnical, b, Some(FailedTechnical), [])
      case RefundFailed => Wrote(FailTechnical, b, Some(FailedRequiresAdmin), [])
      case CoinsFrozen =>
        if b.status == PendingReserving then Wrote(ConfirmReserved, b, None, [])
        else if b.status == Cancelled || b.status == Rejected then Some(Effect(None, None, false, [Unfreeze(b, FrozenHandler)]))
        else Some(Effect(None, None, false, []))
      case CoinsFreezeFailed => Wrote(CancelReserving, b, None, [])
      case DisputeCreated => Wrote(Dispute, b, None, [])
      case DisputeResolved => Wrote(Resolve, b, None, [])
  }

  /** The aggregate method behind a committed write. */
  function OpOf(a: Action, b: Row, overlap: bool, now: Time): Op {
    match a
    case RejectBooking(who) => Reject(who)
    case TimeoutBooking => SystemTimeout
    case CancelBooking(role, _) => Cancel(role, now)
    case CompleteBooking(who) => Complete(who)
    case AutoComplete => SystemComplete
    case ChatRoomCreated =>
      if !overlap then Accept(b.companion)
      else if Do(Cancel(System, now), b).Some? then Cancel(System, now)
      else FailTechnical
    case CoinsFrozen => ConfirmReserved
    case CoinsFreezeFailed => CancelReserving
    case DisputeCreated => Dispute
    case DisputeResolved => Resolve
    case _ => FailTechnical
  }

  /** A row follows another by one aggregate method and the next version number. */
  ghost predicate Follows(b: Row, c: Row) {
    exists op: Op :: Do(op, b) == Some(c.(version := b.version)) && c.version == b.version + 1
  }

  /** Every write of every handler follows the row it was computed from. */
  lemma WriteFollows(a: Action, b: Row, hasSaga: bool, overlap: bool, now: Time)
    requires Decide(a, b, hasSaga, overlap, now).Some? && Decide(a, b, hasSaga, overlap, now).value.write.Some?
    ensures var c := Decide(a, b, hasSaga, overlap, now).value.write.value;
      Follows(b, c) && Do(OpOf(a, b, overlap, now), b) == Some(c.(version := b.version))
  {
    var c := Decide(a, b, hasSaga, overlap, now).value.write.value;
    assert Do(OpOf(a, b, overlap, now), b) == Some(c.(version := b.version));
  }
}
