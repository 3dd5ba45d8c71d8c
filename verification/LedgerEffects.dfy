/** What each command of the coin ledger does to whom: exactly when it succeeds, whose coins
    move and where, what is logged, and that whoever asked is answered truthfully. */
module LedgerEffects {
  import opened Prelude
  import opened Commission
  import opened Ledger

  /** Only this user's wallet changes, by these amounts. */
  ghost predicate Shifts(s: Ledger, t: Ledger, user: Id, available: int, frozen: int) {
    forall u :: ShiftsOne(s, t, user, available, frozen, u)
  }

  predicate ShiftsOne(s: Ledger, t: Ledger, user: Id, available: int, frozen: int, u: Id) {
    var w, v := WalletOf(s.wallets, u), WalletOf(t.wallets, u);
    if u == user then v.available == w.available + available && v.frozen == w.frozen + frozen else v == w
  }

  /** The only new or changed row. */
  ghost predicate Logs(s: Ledger, t: Ledger, id: Id, row: Txn) {
    t.txns == s.txns[id := row]
  }

  /** The only new or changed escrow. */
  ghost predicate Keeps(s: Ledger, t: Ledger, booking: Id, escrow: Escrow) {
    t.escrows == s.escrows[booking := escrow]
  }

  ghost predicate Answers(s: Ledger, t: Ledger, e: Event) {
    t.events == s.events + [e]
  }

  /** The command raised: nothing changed, and the one who asked is told so. */
  ghost predicate Refused(s: Ledger, t: Ledger, e: Event) {
    t.wallets == s.wallets && t.escrows == s.escrows && t.txns == s.txns && Answers(s, t, e)
  }

  /** A freeze succeeds exactly when that much is available; it moves it to frozen, with a
      pending row for the booking. */
  lemma FreezeMeans(s: Ledger, c: Command, t: Ledger)
    requires c.Freeze? && Allowed(s, c) && t == Apply(s, c)
    ensures if 0 <= c.amount <= WalletOf(s.wallets, c.user).available
      then Shifts(s, t, c.user, -c.amount, c.amount) && t.escrows == s.escrows
           && Logs(s, t, c.txn, Txn(c.user, c.amount, c.ty, Pending, c.booking))
           && Answers(s, t, CoinsFrozen(c.user, c.amount, c.booking))
      else Refused(s, t, CoinsFreezeFailed(c.booking, OrNil(c.user), c.amount))
  {
  }

  /** An unfreeze succeeds exactly when the user has that much frozen; it moves it back, with a
      refund row for the booking. */
  lemma UnfreezeMeans(s: Ledger, c: Command, t: Ledger)
    requires c.Unfreeze? && Allowed(s, c) && t == Apply(s, c)
    ensures if c.user in s.wallets && 0 <= c.amount <= s.wallets[c.user].frozen
      then Shifts(s, t, c.user, c.amount, -c.amount) && t.escrows == s.escrows
           && Logs(s, t, c.txn, Txn(c.user, c.amount, Refund, Success, c.booking))
           && Answers(s, t, CoinsUnfrozen(c.user, c.amount, c.booking))
      else Refused(s, t, RefundFailed(c.booking, OrNil(c.user)))
  {
  }

  /** A transfer succeeds exactly when that much is frozen and the booking never had an escrow;
      the coins leave the wallet for a HELD escrow, and the reservation is confirmed. */
  lemma TransferMeans(s: Ledger, c: Command, t: Ledger)
    requires c.Transfer? && Allowed(s, c) && t == Apply(s, c)
    ensures if c.user in s.wallets && 0 <= c.amount <= s.wallets[c.user].frozen && c.booking !in s.escrows
      then Shifts(s, t, c.user, 0, -c.amount) && Keeps(s, t, c.booking, Escrow(c.amount, Held))
           && Answers(s, t, EscrowCreated(c.booking, c.amount))
           && (c.row.Some? ==> Logs(s, t, c.row.value, s.txns[c.row.value].(status := Success)))
           && (c.row.None? ==> Logs(s, t, c.txn, Txn(c.user, c.amount, BookingReservation, Success, c.booking)))
      else Refused(s, t, EscrowFailed(c.booking, OrNil(c.user)))
  {
  }

  /** The commission is the share of the amount to within half a coin. */
  lemma CommissionIsShare(amount: nat, rate: real)
    ensures -0.5 <= CommissionOf(amount, rate) as real - amount as real * rate <= 0.5
  {
    RoundIsNearest(amount as real * rate, 0);
  }

  /** A payout succeeds exactly for a HELD escrow that its commission does not exceed; the
      companion gets what the commission leaves. */
  lemma PayoutMeans(s: Ledger, c: Command, t: Ledger, commission: int)
    requires c.Payout? && Allowed(s, c) && t == Apply(s, c)
    requires c.booking in s.escrows ==> commission == CommissionOf(s.escrows[c.booking].amount, c.rate)
    ensures if c.booking in s.escrows && s.escrows[c.booking].status == Held && commission <= s.escrows[c.booking].amount
      then var amount := s.escrows[c.booking].amount;
           Shifts(s, t, c.companion, amount - commission, 0) && Keeps(s, t, c.booking, Escrow(amount, PaidOut))
           && Logs(s, t, c.txn, Txn(c.companion, amount - commission, EscrowRelease, Success, c.booking))
           && Answers(s, t, PayoutProcessed(c.booking, c.companion, amount, commission, amount - commission))
      else t == s
  {
  }

  /** Who a refund is for: the client named, or else the user of the reservation. */
  predicate IsPayee(s: Ledger, c: Command, user: Id)
    requires c.RefundTo? && Allowed(s, c)
  {
    if c.client != "" || c.row.None? then user == c.client else user == s.txns[c.row.value].user
  }

  /** What it pays: the amount named if it is positive, or else the amount of the reservation. */
  predicate IsDue(s: Ledger, c: Command, amount: int)
    requires c.RefundTo? && Allowed(s, c)
  {
    if c.amount > 0 || c.row.None? then amount == c.amount else amount == s.txns[c.row.value].amount
  }

  /** A refund succeeds exactly for a HELD escrow and an amount that is not negative. */
  lemma RefundMeans(s: Ledger, c: Command, t: Ledger, user: Id, amount: int)
    requires c.RefundTo? && Allowed(s, c) && t == Apply(s, c) && IsPayee(s, c, user) && IsDue(s, c, amount)
    ensures if c.booking in s.escrows && s.escrows[c.booking].status == Held && amount >= 0
      then Shifts(s, t, user, amount, 0) && Keeps(s, t, c.booking, s.escrows[c.booking].(status := Refunded))
           && Logs(s, t, c.txn, Txn(user, amount, Refund, Success, c.booking))
           && Answers(s, t, EscrowRefunded(c.booking, user, amount))
      else Refused(s, t, RefundFailed(c.booking, OrNil(user)))
  {
  }

  /** A notification credits coins exactly when it is signed, names a pending order, reports it
      paid and names its price in VND cents: 100 times 1000 for each coin. Then the order's own
      user gets the order's amount and the order is closed. Paid or not, an order is decided by
      the first notification with the right price, and by no other. */
  lemma IpnMeans(s: Ledger, c: Command, t: Ledger)
    requires c.Ipn? && Allowed(s, c) && t == Apply(s, c)
    ensures var right := c.signed && c.txn != "" && c.txn in s.txns && s.txns[c.txn].status == Pending
        && c.cents == Some(100_000 * s.txns[c.txn].amount);
      && (right && c.paid ==>
            var order := s.txns[c.txn];
            Shifts(s, t, order.user, order.amount, 0) && Logs(s, t, c.txn, order.(status := Success)) && t.escrows == s.escrows
            && Answers(s, t, WalletToppedUp(order.user, order.amount, 1000 * order.amount)))
      && (right && !c.paid ==> t == s.(txns := s.txns[c.txn := s.txns[c.txn].(status := Failed)]))
      && (!right ==> t == s)
      && (right <==> IpnReplyTo(s, c.signed, c.txn, c.cents) == ConfirmSuccess)
  {
  }

  /** A top-up from order to payment: the one who ordered gets what was ordered. */
  lemma TopupMeans(s: Ledger, user: Id, amount: nat, txn: Id)
    requires txn !in s.txns && txn != ""
    ensures var u := Apply(s, StartTopup(user, amount, txn));
      && u.wallets == s.wallets && u.escrows == s.escrows && u.events == s.events
      && Allowed(u, Ipn(true, txn, Some(100_000 * amount), true))
      && Shifts(s, Apply(u, Ipn(true, txn, Some(100_000 * amount), true)), user, amount, 0)
  {
    var u := Apply(s, StartTopup(user, amount, txn));
    IpnMeans(u, Ipn(true, txn, Some(100_000 * amount), true), Apply(u, Ipn(true, txn, Some(100_000 * amount), true)));
  }

  /** A new user gets an empty wallet; nobody's coins change. */
  lemma OpenMeans(s: Ledger, user: Id)
    ensures var t := Apply(s, OpenWallet(user));
      user in t.wallets && Shifts(s, t, user, 0, 0) && t == s.(wallets := t.wallets)
  {
  }

  // ----- Reservations are confirmed

  predicate Confirms(t: Txn, booking: Id) {
    t.reference == booking && t.ty == BookingReservation && t.status == Success
  }

  ghost predicate IsConfirmed(s: Ledger, booking: Id) {
    exists id :: id in s.txns && Confirms(s.txns[id], booking)
  }

  /** Every booking with an escrow has a reservation that says SUCCESS. */
  ghost predicate Confirmed(s: Ledger) {
    forall b :: b in s.escrows ==> IsConfirmed(s, b)
  }

  /** A confirmed reservation stays: only a top-up order is ever changed after that. */
  lemma ConfirmedStays(s: Ledger, c: Command, b: Id)
    requires Allowed(s, c) && IsConfirmed(s, b)
    ensures IsConfirmed(Apply(s, c), b)
  {
    var id :| id in s.txns && Confirms(s.txns[id], b);
    assert id in Apply(s, c).txns && Confirms(Apply(s, c).txns[id], b);
  }

  lemma NewEscrowIsConfirmed(s: Ledger, c: Command, b: Id)
    requires Allowed(s, c) && b !in s.escrows && b in Apply(s, c).escrows
    ensures IsConfirmed(Apply(s, c), b)
  {
    var t := Apply(s, c);
    assert c.Transfer? && c.booking == b;
    var id := if c.row.Some? then c.row.value else c.txn;
    assert id in t.txns && Confirms(t.txns[id], b);
  }

  lemma {:induction false} ConfirmedRun(cs: seq<Command>)
    requires IsRun(EMPTY, cs)
    ensures Confirmed(Run(EMPTY, cs))
    decreases |cs|
  {
    if cs != [] {
      var front, c := cs[..|cs| - 1], cs[|cs| - 1];
      ConfirmedRun(front);
      var s := Run(EMPTY, front);
      forall b | b in Apply(s, c).escrows ensures IsConfirmed(Apply(s, c), b) {
        if b in s.escrows {
          ConfirmedStays(s, c, b);
        } else {
          NewEscrowIsConfirmed(s, c, b);
        }
      }
    }
  }
}
