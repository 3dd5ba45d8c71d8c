/** The finance command service as the source writes it: aggregates are loaded, changed by
    their own methods and saved; an exception leaves the tables as they were. Every method
    is proved against the corresponding ledger command. */
module FinanceService {
  import opened Prelude
  import opened Commission
  import opened Ledger
  import opened Cancellation

  /** The wallet aggregate; `false` is a raised exception. Amounts are `Money`, never negative. */
  class WalletAggregate {
    const user: Id
    var available: nat
    var frozen: nat
    var events: seq<Event>

    constructor (user: Id, row: Wallet)
      ensures this.user == user && Row() == row && events == []
    {
      this.user := user;
      available := row.available;
      frozen := row.frozen;
      events := [];
    }

    function Row(): Wallet
      reads this
    {
      Wallet(available, frozen)
    }

    method FreezeCoin(amount: nat, booking: Id) returns (ok: bool)
      modifies this
      ensures ok <==> old(available) >= amount
      ensures available + frozen == old(available + frozen)
      ensures frozen == old(frozen) + (if ok then amount else 0)
      ensures events == old(events) + if ok then [CoinsFrozen(user, amount, booking)] else []
    {
      if available < amount {
        return false;
      }
      available := available - amount;
      frozen := frozen + amount;
      events := events + [CoinsFrozen(user, amount, booking)];
      ok := true;
    }

    method UnfreezeCoin(amount: nat, booking: Id) returns (ok: bool)
      modifies this
      ensures ok <==> old(frozen) >= amount
      ensures available + frozen == old(available + frozen)
      ensures available == old(available) + (if ok then amount else 0)
      ensures events == old(events) + if ok then [CoinsUnfrozen(user, amount, booking)] else []
    {
      if frozen < amount {
        return false;
      }
      frozen := frozen - amount;
      available := available + amount;
      events := events + [CoinsUnfrozen(user, amount, booking)];
      ok := true;
    }

    method DeductFrozen(amount: nat) returns (ok: bool)
      modifies this
      ensures ok <==> old(frozen) >= amount
      ensures available == old(available) && frozen == old(frozen) - (if ok then amount else 0)
      ensures events == old(events)
    {
      if frozen < amount {
        return false;
      }
      frozen := frozen - amount;
      ok := true;
    }

    method Topup(amount: nat, vnd: int)
      modifies this
      ensures available == old(available) + amount && frozen == old(frozen)
      ensures events == old(events) + [WalletToppedUp(user, amount, vnd)]
    {
      available := available + amount;
      events := events + [WalletToppedUp(user, amount, vnd)];
    }

    method Deposit(amount: nat)
      modifies this
      ensures available == old(available) + amount && frozen == old(frozen) && events == old(events)
    {
      available := available + amount;
    }
  }

  /** The escrow aggregate. */
  class EscrowAggregate {
    const booking: Id
    const amount: nat
    var status: EscrowStatus
    var events: seq<Event>

    constructor (booking: Id, row: Escrow)
      ensures this.booking == booking && Row() == row && events == []
    {
      this.booking := booking;
      amount := row.amount;
      status := row.status;
      events := [];
    }

    /** `create`: a new HELD escrow with its event. */
    constructor Create(booking: Id, amount: nat)
      ensures this.booking == booking && Row() == Escrow(amount, Held) && events == [EscrowCreated(booking, amount)]
    {
      this.booking := booking;
      this.amount := amount;
      status := Held;
      events := [EscrowCreated(booking, amount)];
    }

    function Row(): Escrow
      reads this
    {
      Escrow(amount, status)
    }

    method PayOut(companion: Id, rate: real) returns (ok: bool, commission: int, net: int)
      modifies this
      ensures ok <==> old(status) == Held
      ensures status == if ok then PaidOut else old(status)
      ensures ok ==> commission + net == amount && commission == CommissionOf(amount, rate)
      ensures events == old(events) + if ok then [PayoutProcessed(booking, companion, amount, commission, net)] else []
    {
      if status != Held {
        return false, 0, 0;
      }
      commission := RoundHalfEven(amount as real * rate);
      net := amount - commission;
      status := PaidOut;
      events := events + [PayoutProcessed(booking, companion, amount, commission, net)];
      ok := true;
    }

    method Refund(client: Id, refund: nat) returns (ok: bool)
      modifies this
      ensures ok <==> old(status) == Held
      ensures status == if ok then Refunded else old(status)
      ensures events == old(events) + if ok then [EscrowRefunded(booking, client, refund)] else []
    {
      if status != Held {
        return false;
      }
      status := Refunded;
      events := events + [EscrowRefunded(booking, client, refund)];
      ok := true;
    }
  }

  class FinanceCommandService {
    var wallets: map<Id, Wallet>
    var escrows: map<Id, Escrow>
    var txns: map<Id, Txn>
    var events: seq<Event>

    constructor ()
      ensures State() == EMPTY
    {
      wallets, escrows, txns, events := map[], map[], map[], [];
    }

    function State(): Ledger
      reads this
    {
      Ledger(wallets, escrows, txns, events)
    }

    /** `create_wallet_onboard`: an existing wallet is left alone. */
    method Onboard(user: Id)
      modifies this
      ensures State() == Apply(old(State()), OpenWallet(user))
    {
      if user in wallets {
        return;
      }
      var wallet := new WalletAggregate(user, NO_COINS);
      wallets := wallets[user := wallet.Row()];
    }

    method Freeze(user: Id, amount: int, booking: Id, ty: TxnType, txn: Id) returns (ok: bool)
      requires Allowed(State(), Command.Freeze(user, amount, booking, ty, txn))
      modifies this
      ensures State() == Apply(old(State()), Command.Freeze(user, amount, booking, ty, txn))
      ensures ok <==> amount >= 0 && WalletOf(old(wallets), user).available >= amount
    {
      var wallet := new WalletAggregate(user, WalletOf(wallets, user));
      ok := amount >= 0;
      if ok {
        ok := wallet.FreezeCoin(amount, booking);
      }
      if ok {
        wallets := wallets[user := wallet.Row()];
        txns := txns[txn := Txn(user, amount, ty, Pending, booking)];
        events := events + wallet.events;
      } else {
        events := events + [CoinsFreezeFailed(booking, OrNil(user), amount)];
      }
    }

    method Unfreeze(user: Id, amount: int, booking: Id, txn: Id) returns (ok: bool)
      requires Allowed(State(), Command.Unfreeze(user, amount, booking, txn))
      modifies this
      ensures State() == Apply(old(State()), Command.Unfreeze(user, amount, booking, txn))
      ensures ok <==> user in old(wallets) && 0 <= amount <= old(wallets)[user].frozen
    {
      ok := user in wallets && amount >= 0;
      if ok {
        var wallet := new WalletAggregate(user, wallets[user]);
        ok := wallet.UnfreezeCoin(amount, booking);
        if ok {
          wallets := wallets[user := wallet.Row()];
          txns := txns[txn := Txn(user, amount, TxnType.Refund, Success, booking)];
          events := events + wallet.events;
          return;
        }
      }
      events := events + [RefundFailed(booking, OrNil(user))];
    }

    method Transfer(user: Id, amount: int, booking: Id, txn: Id, row: Option<Id>) returns (ok: bool)
      requires Allowed(State(), Command.Transfer(user, amount, booking, txn, row))
      modifies this
      ensures State() == Apply(old(State()), Command.Transfer(user, amount, booking, txn, row))
      ensures ok <==> user in old(wallets) && 0 <= amount <= old(wallets)[user].frozen && booking !in old(escrows)
    {
      ok := user in wallets && amount >= 0;
      if ok && booking in escrows && escrows[booking].status == Held {
        ok := false;
      }
      if ok {
        var wallet := new WalletAggregate(user, wallets[user]);
        ok := wallet.DeductFrozen(amount);
        if ok && booking in escrows {
          ok := false;  // the unique booking column rejects the new row
        }
        if ok {
          wallets := wallets[user := wallet.Row()];
          var escrow := new EscrowAggregate.Create(booking, amount);
          escrows := escrows[booking := escrow.Row()];
          if row.None? {
            txns := txns[txn := Txn(user, amount, BookingReservation, Success, booking)];
          } else {
            txns := txns[row.value := txns[row.value].(status := Success)];
          }
          events := events + escrow.events;
          return;
        }
      }
      events := events + [EscrowFailed(booking, OrNil(user))];
    }

    method Payout(booking: Id, companion: Id, rate: real, txn: Id) returns (ok: bool)
      requires Allowed(State(), Command.Payout(booking, companion, rate, txn))
      modifies this
      ensures State() == Apply(old(State()), Command.Payout(booking, companion, rate, txn))
      ensures ok <==> IsHeld(old(State()), booking) && NetOf(old(escrows)[booking].amount, rate) >= 0
    {
      if booking !in escrows {
        return false;
      }
      var escrow := new EscrowAggregate(booking, escrows[booking]);
      var commission, net;
      ok, commission, net := escrow.PayOut(companion, rate);
      if !ok || net < 0 {
        return false;
      }
      var wallet := new WalletAggregate(companion, WalletOf(wallets, companion));
      wallet.Deposit(net);
      escrows := escrows[booking := escrow.Row()];
      wallets := wallets[companion := wallet.Row()];
      txns := txns[txn := Txn(companion, net, EscrowRelease, Success, booking)];
      events := events + escrow.events;
    }

    method Refund(booking: Id, client: Id, amount: int, txn: Id, row: Option<Id>) returns (ok: bool)
      requires Allowed(State(), RefundTo(booking, client, amount, txn, row))
      modifies this
      ensures State() == Apply(old(State()), RefundTo(booking, client, amount, txn, row))
      ensures ok <==> IsHeld(old(State()), booking) && RefundAmount(old(State()), amount, row) >= 0
    {
      var target, refund := client, amount;
      if (target == "" || refund <= 0) && row.Some? {
        if target == "" {
          target := txns[row.value].user;
        }
        if refund <= 0 {
          refund := txns[row.value].amount;
        }
      }
      ok := refund >= 0;
      if ok {
        ok := PayBackFrom(booking, target, refund, txn);
      }
      if !ok {
        events := events + [RefundFailed(booking, OrNil(target))];
      }
    }

    /** The transaction of a refund once its target and amount are known. */
    method PayBackFrom(booking: Id, target: Id, refund: nat, txn: Id) returns (ok: bool)
      modifies this
      ensures ok <==> IsHeld(old(State()), booking)
      ensures !ok ==> State() == old(State())
      ensures ok ==>
        var w := WalletOf(old(wallets), target);
        && wallets == old(wallets)[target := w.(available := w.available + refund)]
        && escrows == old(escrows)[booking := old(escrows)[booking].(status := Refunded)]
        && txns == old(txns)[txn := Txn(target, refund, TxnType.Refund, Success, booking)]
        && events == old(events) + [EscrowRefunded(booking, target, refund)]
    {
      if booking !in escrows {
        return false;
      }
      var escrow := new EscrowAggregate(booking, escrows[booking]);
      ok := escrow.Refund(target, refund);
      if !ok {
        return;
      }
      var wallet := new WalletAggregate(target, WalletOf(wallets, target));
      wallet.Deposit(refund);
      escrows := escrows[booking := escrow.Row()];
      wallets := wallets[target := wallet.Row()];
      txns := txns[txn := Txn(target, refund, TxnType.Refund, Success, booking)];
      events := events + escrow.events;
    }

    method StartTopup(user: Id, amount: int, txn: Id) returns (ok: bool)
      requires Allowed(State(), Command.StartTopup(user, amount, txn))
      modifies this
      ensures State() == Apply(old(State()), Command.StartTopup(user, amount, txn))
      ensures ok <==> amount >= 0
    {
      ok := amount >= 0;
      if ok {
        txns := txns[txn := Txn(user, amount, Topup, Pending, txn)];
      }
    }

    method Ipn(signed: bool, txn: Id, cents: Option<int>, paid: bool) returns (reply: IpnReply)
      requires Allowed(State(), Command.Ipn(signed, txn, cents, paid))
      modifies this
      ensures State() == Apply(old(State()), Command.Ipn(signed, txn, cents, paid))
      ensures reply == IpnReplyTo(old(State()), signed, txn, cents)
    {
      if !signed {
        return InvalidSignature;
      }
      if txn == "" || txn !in txns {
        return OrderNotFound;
      }
      var t := txns[txn];
      if t.status != Pending {
        return AlreadyConfirmed;
      }
      if cents.None? {
        return Raised;
      }
      if cents.value != RATE_COIN_TO_VND * t.amount * 100 {
        return InvalidAmount;
      }
      if paid {
        var wallet := new WalletAggregate(t.user, WalletOf(wallets, t.user));
        wallet.Topup(t.amount, cents.value / 100);
        wallets := wallets[t.user := wallet.Row()];
        txns := txns[txn := t.(status := Success)];
        events := events + wallet.events;
      } else {
        txns := txns[txn := t.(status := Failed)];
      }
      reply := ConfirmSuccess;
    }

    /** The listener's branch for refund commands. */
    method OnRefundCommand(booking: Id, client: Id, amount: int, txn: Id, row: Option<Id>)
      requires Allowed(State(), RefundTo(booking, client, amount, txn, row))
      modifies this
      ensures var c := RefundRequest(booking, client, amount, txn, row);
        State() == if c.Some? then Apply(old(State()), c.value) else old(State())
    {
      if booking != "" && client != "" && amount != 0 {
        var _ := Refund(booking, client, amount, txn, row);
      }
    }

    /** The listener's two cancellation branches. */
    method OnCancelled(e: CancelEvent, txn: Id, row: Option<Id>)
      requires Deliverable(State(), e, Cancelled(txn, row))
      modifies this
      ensures State() == Deliver(old(State()), e, Cancelled(txn, row))
    {
      if !Complete(e) || Logged(State(), e.booking, TxnType.Refund) {
        return;
      }
      if e.Late? && Logged(State(), e.booking, EscrowRelease) {
        return;
      }
      if e.Early? || e.role == Companion {
        if IsHeld(State(), e.booking) {
          var _ := Refund(e.booking, e.client, escrows[e.booking].amount, txn, row);
        } else if row.Some? {
          var _ := Unfreeze(e.client, txns[row.value].amount, e.booking, txn);
        }
      } else if e.role == Client {
        if IsHeld(State(), e.booking) {
          var _ := Payout(e.booking, e.companion, 0.0, txn);
        }
      }
    }
  }
}
