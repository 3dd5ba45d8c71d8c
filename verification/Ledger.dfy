/** The coin ledger of the finance service as a state machine: wallets, escrows, the
    transaction table and the published events. Each command is one transaction. A raised
    exception rolls the tables back; most commands then publish a failure event.

    Ids that the database or the runtime chooses (fresh transaction ids, the row an
    unordered query returns) are arguments; `Allowed` says which choices are possible. */
module Ledger {
  import opened Prelude
  import opened Commission

  type Id = string

  const NIL_ID: Id := "00000000-0000-0000-0000-000000000000"
  const RATE_COIN_TO_VND := 1000

  datatype Wallet = Wallet(available: nat, frozen: nat)

  const NO_COINS := Wallet(0, 0)

  datatype EscrowStatus = Held | PaidOut | Refunded
  datatype Escrow = Escrow(amount: nat, status: EscrowStatus)

  datatype TxnType = Unspecified | Topup | BookingReservation | EscrowRelease | PenaltyDeduction | Refund
  datatype TxnStatus = Pending | Success | Failed
  datatype Txn = Txn(user: Id, amount: nat, ty: TxnType, status: TxnStatus, reference: Id)

  datatype Event =
    | CoinsFrozen(user: Id, amount: nat, booking: Id)
    | CoinsUnfrozen(user: Id, amount: nat, booking: Id)
    | EscrowCreated(booking: Id, amount: nat)
    | PayoutProcessed(booking: Id, companion: Id, amount: nat, commission: int, net: int)
    | EscrowRefunded(booking: Id, client: Id, refund: nat)
    | WalletToppedUp(user: Id, amount: nat, vnd: int)
    | CoinsFreezeFailed(booking: Id, user: Id, asked: int)
    | EscrowFailed(booking: Id, client: Id)
    | RefundFailed(booking: Id, client: Id)

  datatype Ledger = Ledger(wallets: map<Id, Wallet>, escrows: map<Id, Escrow>, txns: map<Id, Txn>, events: seq<Event>)

  const EMPTY := Ledger(map[], map[], map[], [])

  /** `get_or_create_wallet`: a missing wallet is an empty one. */
  function WalletOf(wallets: map<Id, Wallet>, user: Id): Wallet {
    if user in wallets then wallets[user] else NO_COINS
  }

  function OrNil(user: Id): Id {
    if user == "" then NIL_ID else user
  }

  predicate Matches(t: Txn, reference: Id, ty: TxnType) {
    t.reference == reference && t.ty == ty
  }

  predicate Logged(s: Ledger, reference: Id, ty: TxnType) {
    exists id :: id in s.txns && Matches(s.txns[id], reference, ty)
  }

  /** `find_by_reference_id` returns some matching row, or nothing when there is none. */
  predicate IsAnswer(s: Ledger, reference: Id, ty: TxnType, row: Option<Id>) {
    match row
    case Some(id) => id in s.txns && Matches(s.txns[id], reference, ty)
    case None => !Logged(s, reference, ty)
  }

  // ----- The commands; `None` is a raised exception

  function FreezeCoin(s: Ledger, user: Id, amount: int, booking: Id, ty: TxnType, txn: Id): Option<Ledger> {
    var w := WalletOf(s.wallets, user);
    if amount < 0 || w.available < amount then None
    else Some(s.(
      wallets := s.wallets[user := Wallet(w.available - amount, w.frozen + amount)],
      txns := s.txns[txn := Txn(user, amount, ty, Pending, booking)],
      events := s.events + [CoinsFrozen(user, amount, booking)]))
  }

  function UnfreezeCoin(s: Ledger, user: Id, amount: int, booking: Id, txn: Id): Option<Ledger> {
    if user !in s.wallets || amount < 0 || s.wallets[user].frozen < amount then None
    else
      var w := s.wallets[user];
      Some(s.(
        wallets := s.wallets[user := Wallet(w.available + amount, w.frozen - amount)],
        txns := s.txns[txn := Txn(user, amount, Refund, Success, booking)],
        events := s.events + [CoinsUnfrozen(user, amount, booking)]))
  }

  /** A HELD escrow of the booking is refused by the command; any other one by the unique
      booking column. `row` is the booking's reservation row. */
  function TransferToEscrow(s: Ledger, user: Id, amount: int, booking: Id, txn: Id, row: Option<Id>): Option<Ledger>
    requires IsAnswer(s, booking, BookingReservation, row)
  {
    if user !in s.wallets || amount < 0 || booking in s.escrows || s.wallets[user].frozen < amount then None
    else
      var w := s.wallets[user];
      Some(s.(
        wallets := s.wallets[user := w.(frozen := w.frozen - amount)],
        escrows := s.escrows[booking := Escrow(amount, Held)],
        txns := match row
                case None => s.txns[txn := Txn(user, amount, BookingReservation, Success, booking)]
                case Some(id) => s.txns[id := s.txns[id].(status := Success)],
        events := s.events + [EscrowCreated(booking, amount)]))
  }

  function ProcessPayout(s: Ledger, booking: Id, companion: Id, rate: real, txn: Id): Option<Ledger> {
    if booking !in s.escrows || s.escrows[booking].status != Held then None
    else
      var amount := s.escrows[booking].amount;
      var net := NetOf(amount, rate);
      var w := WalletOf(s.wallets, companion);
      if net < 0 then None
      else Some(s.(
        wallets := s.wallets[companion := w.(available := w.available + net)],
        escrows := s.escrows[booking := Escrow(amount, PaidOut)],
        txns := s.txns[txn := Txn(companion, net, EscrowRelease, Success, booking)],
        events := s.events + [PayoutProcessed(booking, companion, amount, CommissionOf(amount, rate), net)]))
  }

  /** A missing client or amount is taken from the booking's reservation row. */
  function RefundTarget(s: Ledger, client: Id, row: Option<Id>): Id
    requires row.Some? ==> row.value in s.txns
  {
    if client == "" && row.Some? then s.txns[row.value].user else client
  }

  function RefundAmount(s: Ledger, amount: int, row: Option<Id>): int
    requires row.Some? ==> row.value in s.txns
  {
    if amount <= 0 && row.Some? then s.txns[row.value].amount else amount
  }

  function RefundEscrow(s: Ledger, booking: Id, client: Id, amount: int, txn: Id, row: Option<Id>): Option<Ledger>
    requires IsAnswer(s, booking, BookingReservation, row)
  {
    var target, refund := RefundTarget(s, client, row), RefundAmount(s, amount, row);
    if booking !in s.escrows || refund < 0 || s.escrows[booking].status != Held then None
    else
      var w := WalletOf(s.wallets, target);
      Some(s.(
        wallets := s.wallets[target := w.(available := w.available + refund)],
        escrows := s.escrows[booking := s.escrows[booking].(status := Refunded)],
        txns := s.txns[txn := Txn(target, refund, Refund, Success, booking)],
        events := s.events + [EscrowRefunded(booking, target, refund)]))
  }

  function InitiateTopup(s: Ledger, user: Id, amount: int, txn: Id): Option<Ledger> {
    if amount < 0 then None
    else Some(s.(txns := s.txns[txn := Txn(user, amount, Topup, Pending, txn)]))
  }

  datatype IpnReply = ConfirmSuccess | OrderNotFound | AlreadyConfirmed | InvalidAmount | InvalidSignature | Raised

  /** `process_vnpay_ipn`: `paid` says that the gateway reports response code 00. A missing
      reference is the empty id, a missing amount is 0; `cents` is `None` if the amount does
      not parse, which raises. */
  function IpnReplyTo(s: Ledger, signed: bool, txn: Id, cents: Option<int>): IpnReply {
    if !signed then InvalidSignature
    else if txn == "" || txn !in s.txns then OrderNotFound
    else if s.txns[txn].status != Pending then AlreadyConfirmed
    else if cents.None? then Raised
    else if cents.value != RATE_COIN_TO_VND * s.txns[txn].amount * 100 then InvalidAmount
    else ConfirmSuccess
  }

  function ProcessIpn(s: Ledger, signed: bool, txn: Id, cents: Option<int>, paid: bool): Ledger {
    if IpnReplyTo(s, signed, txn, cents) != ConfirmSuccess then s
    else
      var t := s.txns[txn];
      var w := WalletOf(s.wallets, t.user);
      if paid then s.(
        wallets := s.wallets[t.user := w.(available := w.available + t.amount)],
        txns := s.txns[txn := t.(status := Success)],
        events := s.events + [WalletToppedUp(t.user, t.amount, cents.value / 100)])
      else s.(txns := s.txns[txn := t.(status := Failed)])
  }

  // ----- Runs

  datatype Command =
    | OpenWallet(user: Id)
    | Freeze(user: Id, amount: int, booking: Id, ty: TxnType, txn: Id)
    | Unfreeze(user: Id, amount: int, booking: Id, txn: Id)
    | Transfer(user: Id, amount: int, booking: Id, txn: Id, row: Option<Id>)
    | Payout(booking: Id, companion: Id, rate: real, txn: Id)
    | RefundTo(booking: Id, client: Id, amount: int, txn: Id, row: Option<Id>)
    | StartTopup(user: Id, amount: int, txn: Id)
    | Ipn(signed: bool, txn: Id, cents: Option<int>, paid: bool)

  /** The row is one made by `initiate_topup`: it refers to itself. */
  predicate IsTopupOrder(s: Ledger, id: Id)
    requires id in s.txns
  {
    s.txns[id].ty == Topup && s.txns[id].reference == id
  }

  /** Fresh ids are fresh, queries are answered from the table, and a signed payment
      notification names a top-up order if it names a row at all. */
  predicate Allowed(s: Ledger, c: Command) {
    match c
    case OpenWallet(_) => true
    case Freeze(_, _, booking, _, txn) => txn !in s.txns && txn != booking
    case Unfreeze(_, _, booking, txn) => txn !in s.txns && txn != booking
    case Transfer(_, _, booking, txn, row) =>
      txn !in s.txns && txn != booking && IsAnswer(s, booking, BookingReservation, row)
    case Payout(booking, _, _, txn) => txn !in s.txns && txn != booking
    case RefundTo(booking, _, _, txn, row) =>
      txn !in s.txns && txn != booking && IsAnswer(s, booking, BookingReservation, row)
    case StartTopup(_, _, txn) => txn !in s.txns
    case Ipn(signed, txn, _, _) => signed && txn in s.txns ==> IsTopupOrder(s, txn)
  }

  /** The state after the transaction, or `None` when the command raises. */
  function Effect(s: Ledger, c: Command): Option<Ledger>
    requires Allowed(s, c)
  {
    match c
    case OpenWallet(user) => Some(s.(wallets := s.wallets[user := WalletOf(s.wallets, user)]))
    case Freeze(user, amount, booking, ty, txn) => FreezeCoin(s, user, amount, booking, ty, txn)
    case Unfreeze(user, amount, booking, txn) => UnfreezeCoin(s, user, amount, booking, txn)
    case Transfer(user, amount, booking, txn, row) => TransferToEscrow(s, user, amount, booking, txn, row)
    case Payout(booking, companion, rate, txn) => ProcessPayout(s, booking, companion, rate, txn)
    case RefundTo(booking, client, amount, txn, row) => RefundEscrow(s, booking, client, amount, txn, row)
    case StartTopup(user, amount, txn) => InitiateTopup(s, user, amount, txn)
    case Ipn(signed, txn, cents, paid) => Some(ProcessIpn(s, signed, txn, cents, paid))
  }

  /** What is published after the rollback. */
  function FailureEvents(s: Ledger, c: Command): seq<Event>
    requires Allowed(s, c)
  {
    match c
    case Freeze(user, amount, booking, _, _) => [CoinsFreezeFailed(booking, OrNil(user), amount)]
    case Unfreeze(user, _, booking, _) => [RefundFailed(booking, OrNil(user))]
    case Transfer(user, _, booking, _, _) => [EscrowFailed(booking, OrNil(user))]
    case RefundTo(booking, client, _, _, row) => [RefundFailed(booking, OrNil(RefundTarget(s, client, row)))]
    case _ => []
  }

  function Apply(s: Ledger, c: Command): Ledger
    requires Allowed(s, c)
  {
    match Effect(s, c)
    case Some(t) => t
    case None => s.(events := s.events + FailureEvents(s, c))
  }

  predicate IsRun(s: Ledger, cs: seq<Command>)
    decreases |cs|, 0
  {
    cs == [] || (IsRun(s, cs[..|cs| - 1]) && Allowed(Run(s, cs[..|cs| - 1]), cs[|cs| - 1]))
  }

  function Run(s: Ledger, cs: seq<Command>): Ledger
    requires IsRun(s, cs)
    decreases |cs|, 1
  {
    if cs == [] then s else Apply(Run(s, cs[..|cs| - 1]), cs[|cs| - 1])
  }

  lemma RunSnoc(s: Ledger, cs: seq<Command>, c: Command)
    requires IsRun(s, cs) && Allowed(Run(s, cs), c)
    ensures IsRun(s, cs + [c]) && Run(s, cs + [c]) == Apply(Run(s, cs), c)
  {
    assert (cs + [c])[..|cs|] == cs;
  }

  // ----- A first run, for examples: a user tops up 5 coins

  const ORDER := StartTopup("u", 5, "t")
  const PAYMENT := Ipn(true, "t", Some(500000), true)
  const ORDERED := Ledger(map[], map[], map["t" := Txn("u", 5, Topup, Pending, "t")], [])
  const FUNDED := Ledger(map["u" := Wallet(5, 0)], map[], map["t" := Txn("u", 5, Topup, Success, "t")],
                         [WalletToppedUp("u", 5, 5000)])

  lemma Ordering()
    ensures Allowed(EMPTY, ORDER) && Apply(EMPTY, ORDER) == ORDERED
  {
  }

  lemma Paying()
    ensures Allowed(ORDERED, PAYMENT) && Apply(ORDERED, PAYMENT) == FUNDED
  {
    var t := ORDERED.txns["t"];
    assert IpnReplyTo(ORDERED, true, "t", Some(500000)) == ConfirmSuccess;
    assert ORDERED.txns["t" := t.(status := Success)] == FUNDED.txns;
    assert ORDERED.wallets["u" := Wallet(5, 0)] == FUNDED.wallets;
  }

  lemma FundingRun()
    ensures IsRun(EMPTY, [ORDER, PAYMENT]) && Run(EMPTY, [ORDER, PAYMENT]) == FUNDED
  {
    Ordering();
    RunSnoc(EMPTY, [], ORDER);
    assert [] + [ORDER] == [ORDER];
    Paying();
    RunSnoc(EMPTY, [ORDER], PAYMENT);
    assert [ORDER] + [PAYMENT] == [ORDER, PAYMENT];
  }
}
