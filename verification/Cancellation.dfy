/** The booking listener of the finance service: how a cancellation event turns into a
    ledger command, and why a cancelled booking is paid back exactly once. */
module Cancellation {
  import opened Prelude
  import opened Commission
  import opened Ledger

  datatype Role = Companion | Client | Other

  datatype CancelEvent =
    | Early(booking: Id, client: Id)
    | Late(booking: Id, client: Id, companion: Id, role: Role)

  /** All required fields are present. */
  predicate Complete(e: CancelEvent) {
    e.booking != "" && e.client != "" && (e.Late? ==> e.companion != "")
  }

  predicate IsHeld(s: Ledger, booking: Id) {
    booking in s.escrows && s.escrows[booking].status == Held
  }

  /** Pay the client back: from a HELD escrow, otherwise from the frozen coins. */
  function PayBack(s: Ledger, booking: Id, client: Id, txn: Id, row: Option<Id>): Option<Command>
    requires IsAnswer(s, booking, BookingReservation, row)
  {
    if IsHeld(s, booking) then Some(RefundTo(booking, client, s.escrows[booking].amount, txn, row))
    else if row.Some? then Some(Unfreeze(client, s.txns[row.value].amount, booking, txn))
    else None
  }

  /** The command that an event leads to, if any. */
  function Reaction(s: Ledger, e: CancelEvent, txn: Id, row: Option<Id>): Option<Command>
    requires IsAnswer(s, e.booking, BookingReservation, row)
  {
    if !Complete(e) || Logged(s, e.booking, Refund) then None
    else match e
      case Early(booking, client) => PayBack(s, booking, client, txn, row)
      case Late(booking, client, companion, role) =>
        if Logged(s, booking, EscrowRelease) then None
        else match role
          case Companion => PayBack(s, booking, client, txn, row)
          case Client => if IsHeld(s, booking) then Some(Payout(booking, companion, 0.0, txn)) else None
          case Other => None
  }

  /** What a refund command leads to: the listener skips one without booking, client or
      amount, and an amount of 0 is not written into the message. */
  function RefundRequest(booking: Id, client: Id, amount: int, txn: Id, row: Option<Id>): Option<Command> {
    if booking == "" || client == "" || amount == 0 then None else Some(RefundTo(booking, client, amount, txn, row))
  }

  /** A delivery of the event, or of a refund command for the booking. */
  datatype Delivery =
    | Cancelled(txn: Id, row: Option<Id>)
    | RefundCommand(client: Id, amount: int, txn: Id, row: Option<Id>)

  predicate Deliverable(s: Ledger, e: CancelEvent, d: Delivery) {
    && d.txn !in s.txns && d.txn != e.booking && IsAnswer(s, e.booking, BookingReservation, d.row)
    && (d.RefundCommand? ==> e.booking in s.escrows && d.amount == s.escrows[e.booking].amount)
  }

  function CommandOf(s: Ledger, e: CancelEvent, d: Delivery): (c: Option<Command>)
    requires Deliverable(s, e, d)
    ensures c.Some? ==> Allowed(s, c.value)
  {
    match d
    case Cancelled(txn, row) => Reaction(s, e, txn, row)
    case RefundCommand(client, amount, txn, row) => RefundRequest(e.booking, client, amount, txn, row)
  }

  function Deliver(s: Ledger, e: CancelEvent, d: Delivery): Ledger
    requires Deliverable(s, e, d)
  {
    match CommandOf(s, e, d) case Some(c) => Apply(s, c) case None => s
  }

  predicate IsDelivery(s: Ledger, e: CancelEvent, ds: seq<Delivery>)
    decreases |ds|
  {
    ds == [] || (Deliverable(s, e, ds[0]) && IsDelivery(Deliver(s, e, ds[0]), e, ds[1..]))
  }

  function DeliverAll(s: Ledger, e: CancelEvent, ds: seq<Delivery>): Ledger
    requires IsDelivery(s, e, ds)
    decreases |ds|
  {
    if ds == [] then s else DeliverAll(Deliver(s, e, ds[0]), e, ds[1..])
  }

  predicate SameTables(s: Ledger, t: Ledger) {
    s.wallets == t.wallets && s.escrows == t.escrows && s.txns == t.txns
  }

  // ----- Once settled, nothing moves

  /** No escrow is HELD and the settlement is where the event looks for it. */
  predicate Settled(s: Ledger, e: CancelEvent) {
    !IsHeld(s, e.booking) && (Logged(s, e.booking, Refund) || (e.Late? && Logged(s, e.booking, EscrowRelease)))
  }

  lemma SettledIsQuiet(s: Ledger, e: CancelEvent, d: Delivery)
    requires Deliverable(s, e, d) && Settled(s, e)
    ensures SameTables(s, Deliver(s, e, d)) && Settled(Deliver(s, e, d), e)
  {
  }

  lemma {:induction false} SettledStaysQuiet(s: Ledger, e: CancelEvent, ds: seq<Delivery>)
    requires IsDelivery(s, e, ds) && Settled(s, e)
    ensures SameTables(s, DeliverAll(s, e, ds))
    decreases |ds|
  {
    if ds != [] {
      SettledIsQuiet(s, e, ds[0]);
      SettledStaysQuiet(Deliver(s, e, ds[0]), e, ds[1..]);
    }
  }

  // ----- The first delivery that is heeded settles

  /** The listener does something about the delivery: nothing it needs is missing, and a late
      cancellation says whether the client or the companion cancelled. */
  predicate Heeds(e: CancelEvent, d: Delivery) {
    match d
    case Cancelled(_, _) => Complete(e) && (e.Late? ==> e.role != Other)
    case RefundCommand(client, amount, _, _) => e.booking != "" && client != "" && amount != 0
  }

  lemma UnheededIsQuiet(s: Ledger, e: CancelEvent, d: Delivery)
    requires Deliverable(s, e, d) && !Heeds(e, d)
    ensures Deliver(s, e, d) == s
  {
  }

  /** The position of the first delivery that is heeded. */
  function FirstHeeded(e: CancelEvent, ds: seq<Delivery>): (f: Option<nat>)
    ensures f.None? ==> forall i :: 0 <= i < |ds| ==> !Heeds(e, ds[i])
    ensures f.Some? ==> f.value < |ds| && Heeds(e, ds[f.value]) && forall i :: 0 <= i < f.value ==> !Heeds(e, ds[i])
  {
    if ds == [] then None
    else if Heeds(e, ds[0]) then Some(0)
    else match FirstHeeded(e, ds[1..])
      case Some(f) => Some(f + 1)
      case None => None
  }

  /** Who is paid by the first delivery that is heeded. */
  function Payee(e: CancelEvent, d: Delivery): Id {
    match d
    case RefundCommand(client, _, _, _) => client
    case Cancelled(_, _) => if e.Late? && e.role == Client then e.companion else e.client
  }

  predicate PaysCompanion(e: CancelEvent, d: Delivery) {
    d.Cancelled? && e.Late? && e.role == Client
  }

  /** The tables after `amount` coins went from the booking's escrow to `user`. */
  ghost predicate PaidFrom(s: Ledger, t: Ledger, e: CancelEvent, d: Delivery, user: Id, amount: nat)
    requires e.booking in s.escrows
  {
    var w := WalletOf(s.wallets, user);
    var paidOut := PaysCompanion(e, d);
    && t.wallets == s.wallets[user := w.(available := w.available + amount)]
    && t.escrows == s.escrows[e.booking := s.escrows[e.booking].(status := if paidOut then PaidOut else Refunded)]
    && t.txns == s.txns[d.txn := Txn(user, amount, if paidOut then EscrowRelease else Refund, Success, e.booking)]
  }

  /** A HELD escrow with no settlement logged. */
  predicate Open(s: Ledger, booking: Id) {
    IsHeld(s, booking) && !Logged(s, booking, Refund) && !Logged(s, booking, EscrowRelease)
  }

  /** A refund whose amount is 0 takes the amount of the reservation row instead. */
  predicate PaysEscrowAmount(s: Ledger, e: CancelEvent, d: Delivery)
    requires Open(s, e.booking) && Deliverable(s, e, d)
  {
    PaysCompanion(e, d) || s.escrows[e.booking].amount > 0 || d.row.None? || s.txns[d.row.value].amount == 0
  }

  lemma FirstPays(s: Ledger, e: CancelEvent, d: Delivery)
    requires Deliverable(s, e, d) && Open(s, e.booking) && Heeds(e, d) && PaysEscrowAmount(s, e, d)
    ensures PaidFrom(s, Deliver(s, e, d), e, d, Payee(e, d), s.escrows[e.booking].amount)
  {
    ZeroRatePaysAll(s.escrows[e.booking].amount);
  }

  lemma FirstSettles(s: Ledger, e: CancelEvent, d: Delivery)
    requires Deliverable(s, e, d) && Open(s, e.booking) && Heeds(e, d)
    ensures Settled(Deliver(s, e, d), e)
  {
    ZeroRatePaysAll(s.escrows[e.booking].amount);
    var t := Deliver(s, e, d);
    assert d.txn in t.txns;
    assert Matches(t.txns[d.txn], e.booking, if PaysCompanion(e, d) then EscrowRelease else Refund);
  }

  /** The first delivery pays exactly the escrow's amount if and only if the listener heeds it
      and that amount is positive, or no reservation row would override it. */
  lemma FirstPaysIff(s: Ledger, e: CancelEvent, d: Delivery)
    requires Deliverable(s, e, d) && Open(s, e.booking)
    ensures PaidFrom(s, Deliver(s, e, d), e, d, Payee(e, d), s.escrows[e.booking].amount)
       <==> Heeds(e, d) && PaysEscrowAmount(s, e, d)
  {
    if !Heeds(e, d) {
      UnheededIsQuiet(s, e, d);
    } else if PaysEscrowAmount(s, e, d) {
      FirstPays(s, e, d);
    } else {
      assert Deliver(s, e, d).txns[d.txn].amount == s.txns[d.row.value].amount;
    }
  }

  /** Cancellation idempotence: from an open escrow, any interleaving of one cancellation
      event, repeated at will, with refund commands for the escrow's amount changes nothing as
      long as no delivery is heeded, and then has the effect of the first that is, alone: one
      wallet is paid that amount, once. */
  lemma {:induction false} CancelledOnce(s: Ledger, e: CancelEvent, ds: seq<Delivery>)
    requires IsDelivery(s, e, ds) && Open(s, e.booking)
    ensures var f, t := FirstHeeded(e, ds), DeliverAll(s, e, ds);
      && (f.None? ==> t == s)
      && (f.Some? ==>
            var d := ds[f.value];
            && Deliverable(s, e, d) && SameTables(Deliver(s, e, d), t)
            && (PaysEscrowAmount(s, e, d) ==> PaidFrom(s, t, e, d, Payee(e, d), s.escrows[e.booking].amount)))
    decreases |ds|
  {
    if ds != [] {
      if Heeds(e, ds[0]) {
        HeededOnce(s, e, ds);
      } else {
        UnheededIsQuiet(s, e, ds[0]);
        CancelledOnce(s, e, ds[1..]);
      }
    }
  }

  lemma HeededOnce(s: Ledger, e: CancelEvent, ds: seq<Delivery>)
    requires IsDelivery(s, e, ds) && ds != [] && Open(s, e.booking) && Heeds(e, ds[0])
    ensures var t := DeliverAll(s, e, ds);
      && SameTables(Deliver(s, e, ds[0]), t)
      && (PaysEscrowAmount(s, e, ds[0]) ==> PaidFrom(s, t, e, ds[0], Payee(e, ds[0]), s.escrows[e.booking].amount))
  {
    FirstSettles(s, e, ds[0]);
    SettledStaysQuiet(Deliver(s, e, ds[0]), e, ds[1..]);
    if PaysEscrowAmount(s, e, ds[0]) {
      FirstPays(s, e, ds[0]);
    }
  }

  // ----- A booking whose coins are only reserved

  /** No escrow is HELD and the event finds nothing settled. */
  predicate Unsettled(s: Ledger, e: CancelEvent) {
    !IsHeld(s, e.booking) && !Logged(s, e.booking, Refund) && (e.Late? ==> !Logged(s, e.booking, EscrowRelease))
  }

  /** The event gives the client back what is reserved, and enough of it is frozen. */
  predicate Thaws(s: Ledger, e: CancelEvent, d: Delivery)
    requires Deliverable(s, e, d)
  {
    && d.Cancelled? && Complete(e) && (e.Late? ==> e.role == Companion)
    && d.row.Some? && e.client in s.wallets && s.txns[d.row.value].amount <= s.wallets[e.client].frozen
  }

  /** Exactly the reserved amount went from frozen to available of the client, with a refund
      logged for the booking. */
  ghost predicate Thawed(s: Ledger, t: Ledger, e: CancelEvent, d: Delivery, amount: nat) {
    && e.client in s.wallets && amount <= s.wallets[e.client].frozen
    && t.wallets == s.wallets[e.client := Wallet(s.wallets[e.client].available + amount, s.wallets[e.client].frozen - amount)]
    && t.escrows == s.escrows
    && t.txns == s.txns[d.txn := Txn(e.client, amount, Refund, Success, e.booking)]
  }

  /** A delivery for a booking without a HELD escrow gives the reserved coins back if and only
      if the event asks for it and they are there; otherwise it changes no table. */
  lemma ThawsIff(s: Ledger, e: CancelEvent, d: Delivery)
    requires Deliverable(s, e, d) && Unsettled(s, e)
    ensures Thaws(s, e, d) ==>
      Thawed(s, Deliver(s, e, d), e, d, s.txns[d.row.value].amount) && Settled(Deliver(s, e, d), e)
    ensures !Thaws(s, e, d) ==> SameTables(s, Deliver(s, e, d))
  {
    if Thaws(s, e, d) {
      var t := Deliver(s, e, d);
      assert d.txn in t.txns && Matches(t.txns[d.txn], e.booking, Refund);
    }
  }

  /** The tables decide everything about a delivery but the events. */
  lemma {:induction false} TablesDecide(s: Ledger, t: Ledger, e: CancelEvent, d: Delivery)
    requires SameTables(s, t) && Deliverable(t, e, d)
    ensures Deliverable(s, e, d) && (Thaws(s, e, d) <==> Thaws(t, e, d)) && (Unsettled(s, e) <==> Unsettled(t, e))
  {
    assert forall ty :: Logged(s, e.booking, ty) <==> Logged(t, e.booking, ty);
  }

  /** All deliveries together did what the one at `f` does alone, and none before it could. */
  ghost predicate ThawedOnce(s: Ledger, t: Ledger, e: CancelEvent, ds: seq<Delivery>, f: nat) {
    && f < |ds| && Deliverable(s, e, ds[f]) && Thaws(s, e, ds[f])
    && Thawed(s, t, e, ds[f], s.txns[ds[f].row.value].amount)
    && forall i :: 0 <= i < f ==> Deliverable(s, e, ds[i]) && !Thaws(s, e, ds[i])
  }

  ghost predicate NoneThaws(s: Ledger, e: CancelEvent, ds: seq<Delivery>) {
    forall i :: 0 <= i < |ds| ==> Deliverable(s, e, ds[i]) && !Thaws(s, e, ds[i])
  }

  ghost predicate ThawedAtMostOnce(s: Ledger, t: Ledger, e: CancelEvent, ds: seq<Delivery>) {
    (NoneThaws(s, e, ds) && SameTables(s, t)) || exists f: nat :: ThawedOnce(s, t, e, ds, f)
  }

  /** Cancelling a booking whose coins are only reserved: any interleaving of the cancellation
      event, repeated, with refund commands gives the reserved amount back with the first
      delivery that can and changes no table before or after; if none can, no table changes. */
  lemma {:induction false} ReservedOnce(s: Ledger, e: CancelEvent, ds: seq<Delivery>)
    requires IsDelivery(s, e, ds) && Unsettled(s, e)
    ensures ThawedAtMostOnce(s, DeliverAll(s, e, ds), e, ds)
    decreases |ds|
  {
    if ds != [] {
      var u, t := Deliver(s, e, ds[0]), DeliverAll(s, e, ds);
      ThawsIff(s, e, ds[0]);
      if Thaws(s, e, ds[0]) {
        SettledStaysQuiet(u, e, ds[1..]);
        ThawedFirst(s, u, t, e, ds);
      } else {
        TablesDecideUnsettled(s, u, e);
        ReservedOnce(u, e, ds[1..]);
        if NoneThaws(u, e, ds[1..]) && SameTables(u, t) {
          NoneThawsCons(s, u, e, ds);
        } else {
          var f: nat :| ThawedOnce(u, t, e, ds[1..], f);
          ThawedCons(s, u, t, e, ds, f);
        }
      }
    }
  }

  lemma {:induction false} ThawedFirst(s: Ledger, u: Ledger, t: Ledger, e: CancelEvent, ds: seq<Delivery>)
    requires ds != [] && Deliverable(s, e, ds[0]) && Thaws(s, e, ds[0]) && SameTables(u, t)
    requires Thawed(s, u, e, ds[0], s.txns[ds[0].row.value].amount)
    ensures ThawedAtMostOnce(s, t, e, ds)
  {
    var f: nat := 0;
    assert ThawedOnce(s, t, e, ds, f);
  }

  lemma TablesDecideUnsettled(s: Ledger, t: Ledger, e: CancelEvent)
    requires SameTables(s, t) && Unsettled(s, e)
    ensures Unsettled(t, e)
  {
  }

  lemma {:induction false} NoneThawsCons(s: Ledger, u: Ledger, e: CancelEvent, ds: seq<Delivery>)
    requires ds != [] && SameTables(s, u) && NoneThaws(u, e, ds[1..]) && Deliverable(s, e, ds[0]) && !Thaws(s, e, ds[0])
    ensures NoneThaws(s, e, ds)
  {
    forall i | 0 <= i < |ds| ensures Deliverable(s, e, ds[i]) && !Thaws(s, e, ds[i]) {
      if i > 0 {
        assert ds[i] == ds[1..][i - 1];
        TablesDecide(s, u, e, ds[i]);
      }
    }
  }

  lemma {:induction false} ThawedCons(s: Ledger, u: Ledger, t: Ledger, e: CancelEvent, ds: seq<Delivery>, f: nat)
    requires ds != [] && SameTables(s, u) && ThawedOnce(u, t, e, ds[1..], f) && Deliverable(s, e, ds[0]) && !Thaws(s, e, ds[0])
    ensures ThawedAtMostOnce(s, t, e, ds)
  {
    assert ds[f + 1] == ds[1..][f];
    TablesDecide(s, u, e, ds[f + 1]);
    forall i | 0 <= i < f + 1 ensures Deliverable(s, e, ds[i]) && !Thaws(s, e, ds[i]) {
      if i > 0 {
        assert ds[i] == ds[1..][i - 1];
        TablesDecide(s, u, e, ds[i]);
      }
    }
    assert ThawedOnce(s, t, e, ds, f + 1);
  }

  // ----- An escrow of 0 coins

  const RESERVE := Freeze("u", 5, "b", BookingReservation, "r")
  const RESERVED := FUNDED.(
    wallets := map["u" := Wallet(0, 5)],
    txns := FUNDED.txns["r" := Txn("u", 5, BookingReservation, Pending, "b")],
    events := FUNDED.events + [CoinsFrozen("u", 5, "b")])
  const MOVE_NOTHING := Transfer("u", 0, "b", "x", Some("r"))
  const EMPTY_ESCROW := RESERVED.(
    escrows := map["b" := Escrow(0, Held)],
    txns := RESERVED.txns["r" := Txn("u", 5, BookingReservation, Success, "b")],
    events := RESERVED.events + [EscrowCreated("b", 0)])

  lemma Reserving()
    ensures Allowed(FUNDED, RESERVE) && Apply(FUNDED, RESERVE) == RESERVED
  {
    assert FUNDED.wallets["u" := Wallet(0, 5)] == RESERVED.wallets;
  }

  lemma MovingNothing()
    ensures Allowed(RESERVED, MOVE_NOTHING) && Apply(RESERVED, MOVE_NOTHING) == EMPTY_ESCROW
  {
    assert Matches(RESERVED.txns["r"], "b", BookingReservation);
    assert RESERVED.wallets["u" := Wallet(0, 5)] == EMPTY_ESCROW.wallets;
  }

  lemma EmptyEscrowRun()
    ensures var cs := [ORDER, PAYMENT] + [RESERVE] + [MOVE_NOTHING];
      IsRun(EMPTY, cs) && Run(EMPTY, cs) == EMPTY_ESCROW
  {
    FundingRun();
    Reserving();
    RunSnoc(EMPTY, [ORDER, PAYMENT], RESERVE);
    MovingNothing();
    RunSnoc(EMPTY, [ORDER, PAYMENT] + [RESERVE], MOVE_NOTHING);
  }

  /** After 5 coins were topped up and reserved and 0 of them moved to escrow, the
      cancellation pays the client 5, while the other 5 are still frozen. */
  lemma ZeroEscrowCounterexample()
    ensures var cs := [ORDER, PAYMENT] + [RESERVE] + [MOVE_NOTHING];
      IsRun(EMPTY, cs) &&
      var s := Run(EMPTY, cs);
      var e, d := Early("b", "u"), Cancelled("n", Some("r"));
      && Deliverable(s, e, d) && Open(s, "b") && Heeds(e, d) && !PaysEscrowAmount(s, e, d)
      && WalletOf(s.wallets, "u") == Wallet(0, 5) && WalletOf(Deliver(s, e, d).wallets, "u") == Wallet(5, 5)
  {
    EmptyEscrowRun();
    assert Matches(EMPTY_ESCROW.txns["r"], "b", BookingReservation);
    assert !Logged(EMPTY_ESCROW, "b", Refund) && !Logged(EMPTY_ESCROW, "b", EscrowRelease);
  }
}
