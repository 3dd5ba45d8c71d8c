/** Laws of the coin ledger over every run: coins are conserved, the transaction table
    explains every available balance, top-ups are credited once, and every booking is
    settled at most once. */
module LedgerLaws {
  import opened Prelude
  import opened Ledger

  // ----- Sums over the tables and the event log

  function Worth(w: Wallet): int {
    w.available + w.frozen
  }

  function HeldAmount(e: Escrow): int {
    if e.status == Held then e.amount else 0
  }

  function ConfirmedTopup(t: Txn): int {
    if t.ty == Topup && t.status == Success then t.amount else 0
  }

  function Commissions(events: seq<Event>): int {
    if events == [] then 0
    else
      var e := events[|events| - 1];
      Commissions(events[..|events| - 1]) + if e.PayoutProcessed? then e.commission else 0
  }

  /** How much the refunds gave back beyond the amounts of their escrows. */
  function RefundExcess(events: seq<Event>, escrows: map<Id, Escrow>): int {
    if events == [] then 0
    else
      var e := events[|events| - 1];
      RefundExcess(events[..|events| - 1], escrows)
      + if e.EscrowRefunded? && e.booking in escrows then e.refund - escrows[e.booking].amount else 0
  }

  function Creations(events: seq<Event>, booking: Id): nat {
    if events == [] then 0
    else
      var e := events[|events| - 1];
      Creations(events[..|events| - 1], booking) + if e.EscrowCreated? && e.booking == booking then 1 else 0
  }

  predicate Settles(e: Event, booking: Id) {
    (e.PayoutProcessed? || e.EscrowRefunded?) && e.booking == booking
  }

  function Settlements(events: seq<Event>, booking: Id): nat {
    if events == [] then 0
    else Settlements(events[..|events| - 1], booking) + if Settles(events[|events| - 1], booking) then 1 else 0
  }

  // ----- The invariants

  ghost predicate Conserved(s: Ledger) {
    Sum(s.wallets, Worth) + Sum(s.escrows, HeldAmount) + Commissions(s.events)
    == Sum(s.txns, ConfirmedTopup) + RefundExcess(s.events, s.escrows)
  }

  predicate SettledOnce(s: Ledger, booking: Id) {
    && Creations(s.events, booking) == (if booking in s.escrows then 1 else 0)
    && Settlements(s.events, booking) == (if booking in s.escrows && s.escrows[booking].status != Held then 1 else 0)
  }

  ghost predicate Inv(s: Ledger) {
    Conserved(s) && forall b :: SettledOnce(s, b)
  }

  lemma EmptyInv()
    ensures Inv(EMPTY)
  {
  }

  // ----- Settlement

  /** No command removes an escrow, changes its amount or moves it out of a final status. */
  predicate EscrowsGrow(s: Ledger, t: Ledger) {
    forall b :: b in s.escrows ==>
      && b in t.escrows && t.escrows[b].amount == s.escrows[b].amount
      && (s.escrows[b].status != Held ==> t.escrows[b] == s.escrows[b])
  }

  lemma EscrowsStep(s: Ledger, c: Command)
    requires Allowed(s, c)
    ensures EscrowsGrow(s, Apply(s, c))
  {
  }

  lemma {:induction false} EscrowsRun(s: Ledger, cs: seq<Command>)
    requires IsRun(s, cs)
    ensures EscrowsGrow(s, Run(s, cs))
    decreases |cs|
  {
    if cs != [] {
      var front := cs[..|cs| - 1];
      EscrowsRun(s, front);
      EscrowsStep(Run(s, front), cs[|cs| - 1]);
    }
  }

  lemma EventSnoc(events: seq<Event>, e: Event, b: Id)
    ensures Creations(events + [e], b) == Creations(events, b) + if e.EscrowCreated? && e.booking == b then 1 else 0
    ensures Settlements(events + [e], b) == Settlements(events, b) + if Settles(e, b) then 1 else 0
  {
    assert (events + [e])[..|events|] == events;
  }

  /** How an event accounts for a change of the escrow table. */
  ghost predicate Explains(s: Ledger, t: Ledger, e: Event, b: Id) {
    && t.events == s.events + [e]
    && (b in t.escrows <==> b in s.escrows || (e.EscrowCreated? && e.booking == b))
    && (e.EscrowCreated? && e.booking == b ==> b !in s.escrows && t.escrows[b].status == Held)
    && (Settles(e, b) ==> b in s.escrows && s.escrows[b].status == Held && t.escrows[b].status != Held)
    && (b in s.escrows && !Settles(e, b) ==> t.escrows[b] == s.escrows[b])
  }

  /** Every command appends at most one event, and that event explains every escrow. */
  lemma EventStep(s: Ledger, c: Command, b: Id)
    requires Allowed(s, c)
    ensures var t := Apply(s, c);
      (t.events == s.events && t.escrows == s.escrows)
      || (|t.events| == |s.events| + 1 && Explains(s, t, t.events[|s.events|], b))
  {
  }

  lemma SettledByEvent(s: Ledger, t: Ledger, e: Event, b: Id)
    requires SettledOnce(s, b) && Explains(s, t, e, b)
    ensures SettledOnce(t, b)
  {
    EventSnoc(s.events, e, b);
  }

  lemma SettlementStep(s: Ledger, c: Command, b: Id)
    requires Allowed(s, c) && SettledOnce(s, b)
    ensures SettledOnce(Apply(s, c), b)
  {
    var t := Apply(s, c);
    EventStep(s, c, b);
    if t.events != s.events {
      SettledByEvent(s, t, t.events[|s.events|], b);
    }
  }

  /** One settlement per booking: a booking has at most one escrow ever, and payouts and
      refunds of it together number at most one, exactly one once it is no longer HELD. */
  lemma {:induction false} OneSettlementPerBooking(cs: seq<Command>, b: Id)
    requires IsRun(EMPTY, cs)
    ensures var s := Run(EMPTY, cs);
      && SettledOnce(s, b)
      && Creations(s.events, b) <= 1 && Settlements(s.events, b) <= 1
      && (Settlements(s.events, b) == 1 <==> b in s.escrows && s.escrows[b].status != Held)
    decreases |cs|
  {
    if cs != [] {
      var front := cs[..|cs| - 1];
      OneSettlementPerBooking(front, b);
      SettlementStep(Run(EMPTY, front), cs[|cs| - 1], b);
    }
  }

  // ----- Conservation

  /** Refunds already made keep their excess when escrows only grow. */
  lemma {:induction false} ExcessStable(events: seq<Event>, escrows: map<Id, Escrow>, escrows': map<Id, Escrow>)
    requires forall b :: b in escrows ==> b in escrows' && escrows'[b].amount == escrows[b].amount
    requires forall b :: Settlements(events, b) > 0 ==> b in escrows
    ensures RefundExcess(events, escrows') == RefundExcess(events, escrows)
    decreases |events|
  {
    if events != [] {
      var front, e := events[..|events| - 1], events[|events| - 1];
      assert e.EscrowRefunded? ==> Settlements(events, e.booking) > 0;
      forall b | Settlements(front, b) > 0 ensures b in escrows {
        assert Settlements(events, b) > 0;
      }
      ExcessStable(front, escrows, escrows');
    }
  }

  /** The value side and the source side of the conservation law. */
  ghost function Coins(s: Ledger): int {
    Sum(s.wallets, Worth) + Sum(s.escrows, HeldAmount)
  }

  lemma WalletStep(s: Ledger, t: Ledger, u: Id)
    requires u in t.wallets && t.wallets == s.wallets[u := t.wallets[u]] && t.escrows == s.escrows
    ensures Coins(t) == Coins(s) - Worth(WalletOf(s.wallets, u)) + Worth(t.wallets[u])
  {
    SumUpdate(s.wallets, Worth, u, t.wallets[u]);
  }

  lemma EscrowStep(s: Ledger, t: Ledger, u: Id, b: Id)
    requires u in t.wallets && t.wallets == s.wallets[u := t.wallets[u]]
    requires b in t.escrows && t.escrows == s.escrows[b := t.escrows[b]]
    ensures Coins(t) == Coins(s) - Worth(WalletOf(s.wallets, u)) + Worth(t.wallets[u])
      - (if b in s.escrows then HeldAmount(s.escrows[b]) else 0) + HeldAmount(t.escrows[b])
  {
    SumUpdate(s.wallets, Worth, u, t.wallets[u]);
    SumUpdate(s.escrows, HeldAmount, b, t.escrows[b]);
  }

  /** The refunds and commissions in the log, as one number. */
  ghost function LogBalance(s: Ledger): int {
    RefundExcess(s.events, s.escrows) - Commissions(s.events)
  }

  function Carries(e: Event, escrows: map<Id, Escrow>): int {
    if e.PayoutProcessed? then -e.commission
    else if e.EscrowRefunded? && e.booking in escrows then e.refund - escrows[e.booking].amount
    else 0
  }

  lemma CarriesSnoc(events: seq<Event>, e: Event, escrows: map<Id, Escrow>)
    ensures e.PayoutProcessed? ==>
      && Commissions(events + [e]) == Commissions(events) - Carries(e, escrows)
      && RefundExcess(events + [e], escrows) == RefundExcess(events, escrows)
    ensures !e.PayoutProcessed? ==>
      && Commissions(events + [e]) == Commissions(events)
      && RefundExcess(events + [e], escrows) == RefundExcess(events, escrows) + Carries(e, escrows)
  {
    assert (events + [e])[..|events|] == events;
  }

  lemma LogKept(s: Ledger, t: Ledger)
    requires EscrowsGrow(s, t) && forall b :: SettledOnce(s, b)
    ensures RefundExcess(s.events, t.escrows) == RefundExcess(s.events, s.escrows)
  {
    forall b | Settlements(s.events, b) > 0 ensures b in s.escrows {
      assert SettledOnce(s, b);
    }
    ExcessStable(s.events, s.escrows, t.escrows);
  }

  lemma LogGrows(s: Ledger, t: Ledger, e: Event)
    requires EscrowsGrow(s, t) && forall b :: SettledOnce(s, b)
    requires t.events == s.events + [e]
    ensures LogBalance(t) == LogBalance(s) + Carries(e, t.escrows)
  {
    LogKept(s, t);
    CarriesSnoc(s.events, e, t.escrows);
  }

  lemma TopupsKept(s: Ledger, t: Ledger, id: Id)
    requires id in t.txns && t.txns == s.txns[id := t.txns[id]]
    requires ConfirmedTopup(t.txns[id]) == 0 && (id in s.txns ==> ConfirmedTopup(s.txns[id]) == 0)
    ensures Sum(t.txns, ConfirmedTopup) == Sum(s.txns, ConfirmedTopup)
  {
    SumUpdate(s.txns, ConfirmedTopup, id, t.txns[id]);
  }

  /** Freezing and unfreezing move coins within a wallet. */
  lemma ConservedWithinWallet(s: Ledger, c: Command, t: Ledger)
    requires Allowed(s, c) && Inv(s) && Effect(s, c) == Some(t)
    requires c.Freeze? || c.Unfreeze?
    ensures Conserved(t)
  {
    WalletStep(s, t, c.user);
    LogGrows(s, t, t.events[|s.events|]);
    TopupsKept(s, t, c.txn);
  }

  /** A transfer moves frozen coins into a new HELD escrow. */
  lemma ConservedTransfer(s: Ledger, c: Command, t: Ledger)
    requires Allowed(s, c) && Inv(s) && Effect(s, c) == Some(t) && c.Transfer?
    ensures Conserved(t)
  {
    EscrowStep(s, t, c.user, c.booking);
    LogGrows(s, t, t.events[|s.events|]);
    TopupsKept(s, t, if c.row.Some? then c.row.value else c.txn);
  }

  /** A settlement in terms of what it moves: the escrow's coins and what the event carries. */
  ghost predicate Moves(s: Ledger, t: Ledger, u: Id, b: Id, txn: Id, e: Event) {
    && b in s.escrows && s.escrows[b].status == Held
    && b in t.escrows && t.escrows == s.escrows[b := t.escrows[b]]
    && t.escrows[b].amount == s.escrows[b].amount && t.escrows[b].status != Held
    && u in t.wallets && t.wallets == s.wallets[u := t.wallets[u]]
    && t.events == s.events + [e]
    && Worth(t.wallets[u]) == Worth(WalletOf(s.wallets, u)) + s.escrows[b].amount + Carries(e, t.escrows)
    && txn !in s.txns && txn in t.txns && t.txns == s.txns[txn := t.txns[txn]] && t.txns[txn].ty != Topup
  }

  lemma ConservedMove(s: Ledger, t: Ledger, u: Id, b: Id, txn: Id, e: Event)
    requires Inv(s) && Moves(s, t, u, b, txn, e)
    ensures Conserved(t)
  {
    EscrowStep(s, t, u, b);
    LogGrows(s, t, e);
    TopupsKept(s, t, txn);
  }

  /** A payout turns a HELD escrow into available coins and commission. */
  lemma PayoutMoves(s: Ledger, c: Command, t: Ledger)
    requires Allowed(s, c) && Effect(s, c) == Some(t) && c.Payout?
    ensures |t.events| == |s.events| + 1 && Moves(s, t, c.companion, c.booking, c.txn, t.events[|s.events|])
  {
  }

  /** A refund turns a HELD escrow into available coins, with the excess on record. */
  lemma RefundMoves(s: Ledger, b: Id, client: Id, amount: int, txn: Id, row: Option<Id>, t: Ledger)
    requires txn !in s.txns && IsAnswer(s, b, BookingReservation, row)
    requires RefundEscrow(s, b, client, amount, txn, row) == Some(t)
    ensures |t.events| == |s.events| + 1
      && Moves(s, t, RefundTarget(s, client, row), b, txn, t.events[|s.events|])
  {
    var u, refund := RefundTarget(s, client, row), RefundAmount(s, amount, row);
    assert t.wallets[u].available == WalletOf(s.wallets, u).available + refund;
    assert Carries(t.events[|s.events|], t.escrows) == refund - s.escrows[b].amount;
  }

  /** A confirmed payment brings new coins and a confirmed top-up of the same amount. */
  ghost predicate Credits(s: Ledger, t: Ledger, id: Id, e: Event) {
    && id in s.txns && s.txns[id].ty == Topup && s.txns[id].status != Success
    && t.txns == s.txns[id := s.txns[id].(status := Success)]
    && s.txns[id].user in t.wallets && t.wallets == s.wallets[s.txns[id].user := t.wallets[s.txns[id].user]]
    && Worth(t.wallets[s.txns[id].user]) == Worth(WalletOf(s.wallets, s.txns[id].user)) + s.txns[id].amount
    && t.escrows == s.escrows && t.events == s.events + [e] && e.WalletToppedUp?
  }

  lemma PaymentCredits(s: Ledger, c: Command, t: Ledger)
    requires Allowed(s, c) && Effect(s, c) == Some(t) && c.Ipn? && c.paid
    requires IpnReplyTo(s, c.signed, c.txn, c.cents) == ConfirmSuccess
    ensures |t.events| == |s.events| + 1 && Credits(s, t, c.txn, t.events[|s.events|])
  {
  }

  lemma ConservedCredit(s: Ledger, t: Ledger, id: Id, e: Event)
    requires Inv(s) && Credits(s, t, id, e)
    ensures Conserved(t)
  {
    LogGrows(s, t, e);
    WalletStep(s, t, s.txns[id].user);
    SumUpdate(s.txns, ConfirmedTopup, id, t.txns[id]);
  }

  /** Opening a wallet, starting a top-up and a failed payment move no coins. */
  lemma ConservedQuiet(s: Ledger, c: Command, t: Ledger)
    requires Allowed(s, c) && Inv(s) && Effect(s, c) == Some(t)
    requires c.OpenWallet? || c.StartTopup? || (c.Ipn? && !c.paid)
    ensures Conserved(t)
  {
    if c.OpenWallet? {
      WalletStep(s, t, c.user);
    } else if t.txns != s.txns {
      TopupsKept(s, t, c.txn);
    }
  }

  lemma ConservedFailure(s: Ledger, c: Command)
    requires Allowed(s, c) && Inv(s) && Effect(s, c).None?
    ensures Conserved(Apply(s, c))
  {
    var t := Apply(s, c);
    if t.events != s.events {
      LogGrows(s, t, t.events[|s.events|]);
    }
  }

  lemma ConservedStep(s: Ledger, c: Command)
    requires Allowed(s, c) && Inv(s)
    ensures Conserved(Apply(s, c))
  {
    match Effect(s, c)
    case None =>
      ConservedFailure(s, c);
    case Some(t) =>
      if c.Freeze? || c.Unfreeze? {
        ConservedWithinWallet(s, c, t);
      } else if c.Transfer? {
        ConservedTransfer(s, c, t);
      } else if c.Payout? {
        PayoutMoves(s, c, t);
        ConservedMove(s, t, c.companion, c.booking, c.txn, t.events[|s.events|]);
      } else if c.RefundTo? {
        RefundMoves(s, c.booking, c.client, c.amount, c.txn, c.row, t);
        ConservedMove(s, t, RefundTarget(s, c.client, c.row), c.booking, c.txn, t.events[|s.events|]);
      } else if c.Ipn? && c.paid && t != s {
        PaymentCredits(s, c, t);
        ConservedCredit(s, t, c.txn, t.events[|s.events|]);
      } else if !c.Ipn? || !c.paid {
        ConservedQuiet(s, c, t);
      }
  }

  /** Conservation: in every reachable state, available, frozen and escrowed coins and the
      commissions taken add up to the confirmed top-ups and the excess of the refunds. */
  lemma {:induction false} Conservation(cs: seq<Command>)
    requires IsRun(EMPTY, cs)
    ensures Inv(Run(EMPTY, cs))
    decreases |cs|
  {
    if cs == [] {
      EmptyInv();
    } else {
      var front, c := cs[..|cs| - 1], cs[|cs| - 1];
      Conservation(front);
      ConservedStep(Run(EMPTY, front), c);
      forall b ensures SettledOnce(Run(EMPTY, cs), b) {
        SettlementStep(Run(EMPTY, front), c, b);
      }
    }
  }

  /** The excess vanishes when every refund uses the amount of its escrow. */
  lemma {:induction false} NoExcess(events: seq<Event>, escrows: map<Id, Escrow>)
    requires forall i :: 0 <= i < |events| && events[i].EscrowRefunded? && events[i].booking in escrows ==>
               events[i].refund == escrows[events[i].booking].amount
    ensures RefundExcess(events, escrows) == 0
    decreases |events|
  {
    if events != [] {
      NoExcess(events[..|events| - 1], escrows);
    }
  }

  /** No refund in the log differs from its escrow. */
  predicate ExactRefunds(s: Ledger) {
    forall i :: 0 <= i < |s.events| && s.events[i].EscrowRefunded? && s.events[i].booking in s.escrows ==>
      s.events[i].refund == s.escrows[s.events[i].booking].amount
  }

  /** With exact refunds, coins only enter by confirmed top-ups and only leave as commission. */
  lemma ExactConservation(cs: seq<Command>)
    requires IsRun(EMPTY, cs) && ExactRefunds(Run(EMPTY, cs))
    ensures var s := Run(EMPTY, cs);
      Sum(s.wallets, Worth) + Sum(s.escrows, HeldAmount) + Commissions(s.events) == Sum(s.txns, ConfirmedTopup)
  {
    Conservation(cs);
    NoExcess(Run(EMPTY, cs).events, Run(EMPTY, cs).escrows);
  }

  // ----- The audit log

  /** What a row of the transaction table says about the available balance of a user. */
  function Entry(t: Txn, user: Id): int {
    if t.user != user then 0
    else match t.ty
      case BookingReservation => -(t.amount as int)
      case Topup => if t.status == Success then t.amount else 0
      case EscrowRelease => if t.status == Success then t.amount else 0
      case Refund => if t.status == Success then t.amount else 0
      case _ => 0
  }

  ghost function EntryOf(user: Id): Txn -> int {
    (t: Txn) => Entry(t, user)
  }

  ghost function Audit(s: Ledger, user: Id): int {
    Sum(s.txns, EntryOf(user))
  }

  function Available(s: Ledger, user: Id): int {
    WalletOf(s.wallets, user).available
  }

  /** How far one command moves a balance away from the log: a freeze logged as something
      other than a reservation is missing from it, and a transfer that finds no reservation
      row writes a second one. */
  function DriftOf(s: Ledger, c: Command, user: Id): int
    requires Allowed(s, c)
  {
    if Effect(s, c).None? then 0
    else match c
      case Freeze(u, amount, _, ty, _) => if u == user && ty != BookingReservation then -amount else 0
      case Transfer(u, amount, _, _, row) => if u == user && row.None? then amount else 0
      case _ => 0
  }

  function Drift(s: Ledger, cs: seq<Command>, user: Id): int
    requires IsRun(s, cs)
    decreases |cs|
  {
    if cs == [] then 0
    else
      var front := cs[..|cs| - 1];
      Drift(s, front, user) + DriftOf(Run(s, front), cs[|cs| - 1], user)
  }

  lemma AuditRow(s: Ledger, t: Ledger, id: Id, user: Id)
    requires id in t.txns && t.txns == s.txns[id := t.txns[id]]
    ensures Audit(t, user)
         == Audit(s, user) - (if id in s.txns then Entry(s.txns[id], user) else 0) + Entry(t.txns[id], user)
  {
    SumUpdate(s.txns, EntryOf(user), id, t.txns[id]);
  }

  /** The row of the transaction table that a successful command writes. */
  function RowOf(s: Ledger, c: Command): Option<Id> {
    match c
    case OpenWallet(_) => None
    case Transfer(_, _, _, txn, row) => if row.Some? then row else Some(txn)
    case Ipn(signed, txn, cents, _) =>
      if IpnReplyTo(s, signed, txn, cents) == ConfirmSuccess then Some(txn) else None
    case _ => Some(c.txn)
  }

  lemma RowStep(s: Ledger, c: Command, user: Id)
    requires Allowed(s, c) && Effect(s, c).Some?
    ensures var t, id := Effect(s, c).value, RowOf(s, c);
      && (id.None? ==> t.txns == s.txns && Available(t, user) == Available(s, user) && DriftOf(s, c, user) == 0)
      && (id.Some? ==>
            && id.value in t.txns && t.txns == s.txns[id.value := t.txns[id.value]]
            && Available(t, user) - Available(s, user) - DriftOf(s, c, user)
               == Entry(t.txns[id.value], user) - if id.value in s.txns then Entry(s.txns[id.value], user) else 0)
  {
  }

  lemma AuditStep(s: Ledger, c: Command, user: Id)
    requires Allowed(s, c)
    ensures var t := Apply(s, c);
      Available(t, user) - Audit(t, user) == Available(s, user) - Audit(s, user) + DriftOf(s, c, user)
  {
    if Effect(s, c).Some? {
      RowStep(s, c, user);
      if RowOf(s, c).Some? {
        AuditRow(s, Effect(s, c).value, RowOf(s, c).value, user);
      }
    }
  }

  /** The audit log explains every available balance up to the drift of the run. */
  lemma {:induction false} AuditLog(cs: seq<Command>, user: Id)
    requires IsRun(EMPTY, cs)
    ensures var s := Run(EMPTY, cs);
      Available(s, user) == Audit(s, user) + Drift(EMPTY, cs, user)
    decreases |cs|
  {
    if cs != [] {
      var front := cs[..|cs| - 1];
      AuditLog(front, user);
      AuditStep(Run(EMPTY, front), cs[|cs| - 1], user);
    }
  }

  /** A command that keeps the log in step with the balances: no freeze of available coins
      under another type, no transfer of frozen coins to a first escrow without its
      reservation row. */
  predicate InStep(s: Ledger, c: Command) {
    match c
    case Freeze(user, amount, _, ty, _) =>
      ty == BookingReservation || amount <= 0 || WalletOf(s.wallets, user).available < amount
    case Transfer(user, amount, booking, _, row) =>
      row.Some? || amount <= 0 || booking in s.escrows || WalletOf(s.wallets, user).frozen < amount
    case _ => true
  }

  /** From a state that agrees with its log, exactly the in-step commands keep agreeing. */
  lemma AuditAgreesIff(s: Ledger, c: Command)
    requires Allowed(s, c)
    requires forall u :: Available(s, u) == Audit(s, u)
    ensures (forall u :: Available(Apply(s, c), u) == Audit(Apply(s, c), u)) <==> InStep(s, c)
  {
    forall u ensures Available(Apply(s, c), u) - Audit(Apply(s, c), u) == DriftOf(s, c, u) {
      AuditStep(s, c, u);
    }
    if !InStep(s, c) {
      assert DriftOf(s, c, c.user) != 0;
    }
  }

  const PENALTY := Freeze("u", 5, "b", PenaltyDeduction, "p")

  /** A run that ends in disagreement: the coins frozen as a penalty are gone from the
      balance and not from the log. */
  lemma PenaltyDisagrees()
    ensures var cs := [ORDER, PAYMENT] + [PENALTY];
      && IsRun(EMPTY, cs)
      && Available(Run(EMPTY, cs), "u") == 0 && Audit(Run(EMPTY, cs), "u") == 5
  {
    FundingRun();
    RunSnoc(EMPTY, [ORDER, PAYMENT], PENALTY);
    AuditStep(FUNDED, PENALTY, "u");
    var one: map<Id, Txn> := map[];
    assert FUNDED.txns == one["t" := FUNDED.txns["t"]];
    SumUpdate(one, EntryOf("u"), "t", FUNDED.txns["t"]);
  }

  predicate AllInStep(s: Ledger, cs: seq<Command>)
    requires IsRun(s, cs)
    decreases |cs|
  {
    cs == [] || (AllInStep(s, cs[..|cs| - 1]) && InStep(Run(s, cs[..|cs| - 1]), cs[|cs| - 1]))
  }

  /** With reservations logged as such and always found, balances and log always agree. */
  lemma {:induction false} AuditAgrees(cs: seq<Command>, user: Id)
    requires IsRun(EMPTY, cs) && AllInStep(EMPTY, cs)
    ensures Available(Run(EMPTY, cs), user) == Audit(Run(EMPTY, cs), user)
    decreases |cs|
  {
    if cs != [] {
      var front := cs[..|cs| - 1];
      AuditAgrees(front, user);
      AuditStep(Run(EMPTY, front), cs[|cs| - 1], user);
    }
  }

  // ----- Repeated payment notifications

  /** A decided top-up order stays decided, whatever else happens. */
  lemma {:induction false} OrderIsFinal(s: Ledger, cs: seq<Command>, id: Id)
    requires IsRun(s, cs) && id in s.txns && s.txns[id].status != Pending && IsTopupOrder(s, id)
    ensures id in Run(s, cs).txns && Run(s, cs).txns[id] == s.txns[id]
    decreases |cs|
  {
    if cs != [] {
      OrderIsFinal(s, cs[..|cs| - 1], id);
    }
  }

  /** Repeated notifications: after the first confirmed one, any later notification of the
      same order, in any later state, changes nothing. */
  lemma TopupOnce(s: Ledger, id: Id, cents: Option<int>, paid: bool, cs: seq<Command>, signed: bool, cents': Option<int>, paid': bool)
    requires Allowed(s, Ipn(true, id, cents, paid)) && IpnReplyTo(s, true, id, cents) == ConfirmSuccess
    requires IsRun(Apply(s, Ipn(true, id, cents, paid)), cs)
    ensures var t := Run(Apply(s, Ipn(true, id, cents, paid)), cs);
      ProcessIpn(t, signed, id, cents', paid') == t
  {
    OrderIsFinal(Apply(s, Ipn(true, id, cents, paid)), cs, id);
  }
}
