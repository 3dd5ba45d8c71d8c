/** Two services together: whatever interleaving of handlers ran in the booking service, what
    its outbox says about a booking's cancellation and refund has, however often and in
    whatever order the broker delivers it to the finance service, the effect of the first
    message the listener heeds: the price goes to one wallet, once. The listener does not heed
    a late cancellation by the system; the refund command written with it pays instead. */
module EndToEnd {
  import opened Prelude
  import Booking
  import BookingRaces
  import BookingNews
  import Ledger
  import Cancellation

  type Id = string
  type World = BookingRaces.World

  // ----- What the outbox says about a booking

  /** The messages of a booking that move settled coins: its cancellation and refund commands. */
  predicate Speaks(o: Booking.Out, id: Id) {
    BookingRaces.IsCancellation(o, id) || (o.RefundEscrow? && o.booking == id)
  }

  /** A count of one leaves room for one index. */
  lemma {:induction false} CancellationIsUnique(outbox: seq<Booking.Out>, id: Id, i: nat, j: nat)
    requires BookingRaces.Cancellations(outbox, id) <= 1 && i < |outbox| && j < |outbox|
    requires BookingRaces.IsCancellation(outbox[i], id) && BookingRaces.IsCancellation(outbox[j], id)
    ensures i == j
    decreases |outbox|
  {
    var front := outbox[..|outbox| - 1];
    if i < |front| && j < |front| {
      CancellationIsUnique(front, id, i, j);
    } else if i < |front| {
      Counted(front, id, i);
    } else if j < |front| {
      Counted(front, id, j);
    }
  }

  lemma {:induction false} Counted(outbox: seq<Booking.Out>, id: Id, i: nat)
    requires i < |outbox| && BookingRaces.IsCancellation(outbox[i], id)
    ensures BookingRaces.Cancellations(outbox, id) >= 1
    decreases |outbox|
  {
    if i < |outbox| - 1 {
      Counted(outbox[..|outbox| - 1], id, i);
    }
  }

  // ----- What the finance service makes of it

  function RoleOf(r: Booking.Role): Cancellation.Role {
    match r
    case Client => Cancellation.Role.Client
    case Companion => Cancellation.Role.Companion
    case _ => Cancellation.Role.Other
  }

  /** The cancellation event as the listener reads it. */
  function Notice(o: Booking.Out, row: Booking.Row): Cancellation.CancelEvent {
    if o.BookingCancelledLate? then Cancellation.Late(row.id, row.client, row.companion, RoleOf(o.actor))
    else Cancellation.Early(row.id, row.client)
  }

  /** One delivery: which outbox row, the transaction id the service draws, and the answer of
      its reservation query. */
  datatype Message = Message(index: nat, txn: Id, row: Option<Id>)

  /** The service can handle the message: its drawn id is new and its query is answered. */
  predicate Arrives(s: Ledger.Ledger, id: Id, m: Message) {
    m.txn !in s.txns && m.txn != id && Ledger.IsAnswer(s, id, Ledger.BookingReservation, m.row)
  }

  /** The listener on one message: a cancellation leads to its reaction, a refund command to
      the refund of the named amount to the named client. */
  function Handle(s: Ledger.Ledger, o: Booking.Out, row: Booking.Row, m: Message): Ledger.Ledger
    requires Arrives(s, row.id, m)
  {
    var command :=
      if o.RefundEscrow? then Cancellation.RefundRequest(row.id, o.user, o.amount, m.txn, m.row)
      else Cancellation.Reaction(s, Notice(o, row), m.txn, m.row);
    match command
    case Some(c) => Ledger.Apply(s, c)
    case None => s
  }

  predicate IsReceived(s: Ledger.Ledger, outbox: seq<Booking.Out>, row: Booking.Row, ms: seq<Message>)
    decreases |ms|
  {
    ms == [] ||
    (&& ms[0].index < |outbox| && Speaks(outbox[ms[0].index], row.id) && Arrives(s, row.id, ms[0])
     && IsReceived(Handle(s, outbox[ms[0].index], row, ms[0]), outbox, row, ms[1..]))
  }

  function Received(s: Ledger.Ledger, outbox: seq<Booking.Out>, row: Booking.Row, ms: seq<Message>): Ledger.Ledger
    requires IsReceived(s, outbox, row, ms)
    decreases |ms|
  {
    if ms == [] then s else Received(Handle(s, outbox[ms[0].index], row, ms[0]), outbox, row, ms[1..])
  }

  /** Every message is a row of the outbox that speaks of the booking. */
  predicate AreRows(outbox: seq<Booking.Out>, id: Id, ms: seq<Message>) {
    forall i :: 0 <= i < |ms| ==> ms[i].index < |outbox| && Speaks(outbox[ms[i].index], id)
  }

  lemma {:induction false} ReceivedAreRows(s: Ledger.Ledger, outbox: seq<Booking.Out>, row: Booking.Row, ms: seq<Message>)
    requires IsReceived(s, outbox, row, ms)
    ensures AreRows(outbox, row.id, ms)
    decreases |ms|
  {
    if ms != [] {
      ReceivedAreRows(Handle(s, outbox[ms[0].index], row, ms[0]), outbox, row, ms[1..]);
      forall i | 0 <= i < |ms| ensures ms[i].index < |outbox| && Speaks(outbox[ms[i].index], row.id) {
        assert i > 0 ==> ms[i] == ms[1..][i - 1];
      }
    }
  }

  // ----- Messages as deliveries of one cancellation

  function DeliveryOf(o: Booking.Out, m: Message): Cancellation.Delivery {
    if o.RefundEscrow? then Cancellation.RefundCommand(o.user, o.amount, m.txn, m.row)
    else Cancellation.Cancelled(m.txn, m.row)
  }

  function Deliveries(outbox: seq<Booking.Out>, ms: seq<Message>): (ds: seq<Cancellation.Delivery>)
    requires forall i :: 0 <= i < |ms| ==> ms[i].index < |outbox|
    ensures |ds| == |ms|
    ensures forall i :: 0 <= i < |ms| ==> ds[i] == DeliveryOf(outbox[ms[i].index], ms[i])
  {
    if ms == [] then [] else [DeliveryOf(outbox[ms[0].index], ms[0])] + Deliveries(outbox, ms[1..])
  }

  /** The outbox has no cancellation event of the booking other than `e`, and its refund
      commands name the booking's client and price. */
  ghost predicate Agrees(outbox: seq<Booking.Out>, row: Booking.Row, e: Cancellation.CancelEvent) {
    && e.booking == row.id
    && forall i :: 0 <= i < |outbox| && Speaks(outbox[i], row.id) ==>
         BookingNews.Names(outbox[i], row) && (BookingRaces.IsCancellation(outbox[i], row.id) ==> Notice(outbox[i], row) == e)
  }

  /** The booking's cancellation event; without one, any event will do. */
  ghost function EventOf(outbox: seq<Booking.Out>, row: Booking.Row): Cancellation.CancelEvent {
    if i: nat :| i < |outbox| && BookingRaces.IsCancellation(outbox[i], row.id) then Notice(outbox[i], row)
    else Cancellation.Early(row.id, row.client)
  }

  predicate Holds(s: Ledger.Ledger, row: Booking.Row) {
    row.id in s.escrows && s.escrows[row.id].amount == row.price
  }

  lemma HandleIsDelivery(s: Ledger.Ledger, outbox: seq<Booking.Out>, row: Booking.Row, e: Cancellation.CancelEvent, m: Message)
    requires Agrees(outbox, row, e) && Holds(s, row)
    requires m.index < |outbox| && Speaks(outbox[m.index], row.id) && Arrives(s, row.id, m)
    ensures var o := outbox[m.index];
      && Cancellation.Deliverable(s, e, DeliveryOf(o, m))
      && Handle(s, o, row, m) == Cancellation.Deliver(s, e, DeliveryOf(o, m))
  {
  }

  lemma HandleHolds(s: Ledger.Ledger, o: Booking.Out, row: Booking.Row, m: Message)
    requires Arrives(s, row.id, m) && Holds(s, row)
    ensures Holds(Handle(s, o, row, m), row)
  {
  }

  lemma {:induction false} ReceivedIsDelivery(
    s: Ledger.Ledger, outbox: seq<Booking.Out>, row: Booking.Row, e: Cancellation.CancelEvent, ms: seq<Message>)
    requires Agrees(outbox, row, e) && Holds(s, row) && IsReceived(s, outbox, row, ms) && AreRows(outbox, row.id, ms)
    ensures Cancellation.IsDelivery(s, e, Deliveries(outbox, ms))
    ensures Cancellation.DeliverAll(s, e, Deliveries(outbox, ms)) == Received(s, outbox, row, ms)
    decreases |ms|
  {
    if ms != [] {
      var o := outbox[ms[0].index];
      HandleIsDelivery(s, outbox, row, e, ms[0]);
      HandleHolds(s, o, row, ms[0]);
      assert AreRows(outbox, row.id, ms[1..]);
      ReceivedIsDelivery(Handle(s, o, row, ms[0]), outbox, row, e, ms[1..]);
      assert Deliveries(outbox, ms)[1..] == Deliveries(outbox, ms[1..]);
    }
  }

  lemma {:induction false} EventIsUnique(outbox: seq<Booking.Out>, row: Booking.Row, i: nat)
    requires BookingRaces.Cancellations(outbox, row.id) <= 1 && i < |outbox| && BookingRaces.IsCancellation(outbox[i], row.id)
    ensures EventOf(outbox, row) == Notice(outbox[i], row)
  {
    forall k: nat | k < |outbox| && BookingRaces.IsCancellation(outbox[k], row.id) ensures k == i {
      CancellationIsUnique(outbox, row.id, i, k);
    }
  }

  lemma {:induction false} AgreesIfUnique(w: World, row: Booking.Row)
    requires BookingNews.OrdersName(w) && row.id in w.history && w.history[row.id] != [] && w.history[row.id][0] == row
    requires BookingRaces.Cancellations(w.outbox, row.id) <= 1
    ensures Agrees(w.outbox, row, EventOf(w.outbox, row))
  {
    forall i | 0 <= i < |w.outbox| && BookingRaces.IsCancellation(w.outbox[i], row.id)
      ensures Notice(w.outbox[i], row) == EventOf(w.outbox, row)
    {
      EventIsUnique(w.outbox, row, i);
    }
  }

  /** The outbox of any run agrees with itself about every booking. */
  lemma {:induction false} OutboxAgrees(steps: seq<BookingRaces.Step>, id: Id)
    requires BookingRaces.IsRun(BookingRaces.START, steps)
    requires BookingRaces.Stored(BookingRaces.Run(BookingRaces.START, steps), id)
    ensures var w := BookingRaces.Run(BookingRaces.START, steps);
      var row := w.history[id][0];
      row.id == id && Agrees(w.outbox, row, EventOf(w.outbox, row))
  {
    var w := BookingRaces.Run(BookingRaces.START, steps);
    BookingRaces.InvRun(steps);
    assert BookingRaces.Legal(id, w.history[id]);
    BookingRaces.RacesAreSafe(steps, id);
    BookingNews.OrdersNameRun(steps);
    AgreesIfUnique(w, w.history[id][0]);
  }

  // ----- The theorem

  /** All messages together did what the first heeded one does alone; without one, nothing. */
  ghost predicate PaysOnce(s: Ledger.Ledger, t: Ledger.Ledger, e: Cancellation.CancelEvent, ds: seq<Cancellation.Delivery>, price: nat)
    requires Cancellation.Open(s, e.booking)
  {
    match Cancellation.FirstHeeded(e, ds)
    case None => t == s
    case Some(f) =>
      && Cancellation.Deliverable(s, e, ds[f])
      && Cancellation.SameTables(Cancellation.Deliver(s, e, ds[f]), t)
      && (Cancellation.PaysEscrowAmount(s, e, ds[f]) ==>
            Cancellation.PaidFrom(s, t, e, ds[f], Cancellation.Payee(e, ds[f]), price))
  }

  /** From a HELD escrow of the booking's price with nothing settled yet, any sequence of
      deliveries of what any run of the booking service wrote about the booking, cancellation
      event and refund commands, repeated and in any order, changes nothing until one is
      heeded and has the effect of that one alone: the price goes to one wallet, once. */
  lemma CancellationPaysOnce(steps: seq<BookingRaces.Step>, id: Id, s: Ledger.Ledger, ms: seq<Message>)
    requires BookingRaces.IsRun(BookingRaces.START, steps)
    requires var w := BookingRaces.Run(BookingRaces.START, steps);
      && BookingRaces.Stored(w, id)
      && Holds(s, w.history[id][0]) && IsReceived(s, w.outbox, w.history[id][0], ms)
    requires Cancellation.Open(s, id)
    ensures var w := BookingRaces.Run(BookingRaces.START, steps);
      var row := w.history[id][0];
      && row.id == id && AreRows(w.outbox, id, ms)
      && PaysOnce(s, Received(s, w.outbox, row, ms), EventOf(w.outbox, row), Deliveries(w.outbox, ms), row.price)
  {
    var w := BookingRaces.Run(BookingRaces.START, steps);
    var row := w.history[id][0];
    OutboxAgrees(steps, id);
    ReceivedAreRows(s, w.outbox, row, ms);
    var e := EventOf(w.outbox, row);
    ReceivedIsDelivery(s, w.outbox, row, e, ms);
    Cancellation.CancelledOnce(s, e, Deliveries(w.outbox, ms));
  }

  // ----- Which messages are heeded

  /** A booking the listener can read: no id is missing, and there is something to pay. */
  predicate Readable(row: Booking.Row) {
    row.id != "" && row.client != "" && row.companion != "" && row.price > 0
  }

  /** A late cancellation whose actor is neither the client nor the companion. */
  predicate IsIgnored(o: Booking.Out) {
    o.BookingCancelledLate? && RoleOf(o.actor) == Cancellation.Role.Other
  }

  lemma HeededIff(outbox: seq<Booking.Out>, row: Booking.Row, e: Cancellation.CancelEvent, m: Message)
    requires Agrees(outbox, row, e) && Readable(row) && m.index < |outbox| && Speaks(outbox[m.index], row.id)
    ensures Cancellation.Heeds(e, DeliveryOf(outbox[m.index], m)) <==> !IsIgnored(outbox[m.index])
  {
  }

  /** Exactly the price went to one wallet. */
  ghost predicate PaidTo(s: Ledger.Ledger, t: Ledger.Ledger, user: Id, price: nat) {
    var w := Ledger.WalletOf(s.wallets, user);
    t.wallets == s.wallets[user := w.(available := w.available + price)]
  }

  /** A late cancellation by the client pays the companion; everything else pays the client. */
  function PayeeOf(o: Booking.Out, row: Booking.Row): Id {
    if o.BookingCancelledLate? && o.actor == Booking.Client then row.companion else row.client
  }

  /** The message at `f` is the first that is not ignored. */
  predicate IsFirst(outbox: seq<Booking.Out>, ms: seq<Message>, f: nat)
    requires forall i :: 0 <= i < |ms| ==> ms[i].index < |outbox|
  {
    f < |ms| && !IsIgnored(outbox[ms[f].index]) && forall i :: 0 <= i < f ==> IsIgnored(outbox[ms[i].index])
  }

  lemma {:induction false} HeededPays(
    s: Ledger.Ledger, t: Ledger.Ledger, outbox: seq<Booking.Out>, row: Booking.Row, e: Cancellation.CancelEvent, ms: seq<Message>)
    requires Agrees(outbox, row, e) && Readable(row) && Holds(s, row) && AreRows(outbox, row.id, ms)
    requires Cancellation.Open(s, row.id) && PaysOnce(s, t, e, Deliveries(outbox, ms), row.price)
    ensures forall f: nat :: IsFirst(outbox, ms, f) ==> PaidTo(s, t, PayeeOf(outbox[ms[f].index], row), row.price)
    ensures (forall i :: 0 <= i < |ms| ==> IsIgnored(outbox[ms[i].index])) ==> t == s
  {
    var ds := Deliveries(outbox, ms);
    forall i | 0 <= i < |ms| ensures Cancellation.Heeds(e, ds[i]) <==> !IsIgnored(outbox[ms[i].index]) {
      HeededIff(outbox, row, e, ms[i]);
    }
    forall f: nat | IsFirst(outbox, ms, f) ensures PaidTo(s, t, PayeeOf(outbox[ms[f].index], row), row.price) {
      assert Cancellation.FirstHeeded(e, ds) == Some(f);
      var o := outbox[ms[f].index];
      assert Speaks(o, row.id) && BookingNews.Names(o, row);
      assert Cancellation.Payee(e, ds[f]) == PayeeOf(o, row);
    }
  }

  /** Someone is paid if and only if some delivered message is not a late cancellation by the
      system: the first such message decides, for the companion if the client cancelled late
      and for the client otherwise, once. Without one nothing changes. */
  lemma PaidIffHeeded(steps: seq<BookingRaces.Step>, id: Id, s: Ledger.Ledger, ms: seq<Message>)
    requires BookingRaces.IsRun(BookingRaces.START, steps)
    requires var w := BookingRaces.Run(BookingRaces.START, steps);
      && BookingRaces.Stored(w, id) && Readable(w.history[id][0])
      && Holds(s, w.history[id][0]) && IsReceived(s, w.outbox, w.history[id][0], ms)
    requires Cancellation.Open(s, id)
    ensures var w := BookingRaces.Run(BookingRaces.START, steps);
      var row := w.history[id][0];
      var t := Received(s, w.outbox, row, ms);
      && AreRows(w.outbox, id, ms)
      && (forall f: nat :: IsFirst(w.outbox, ms, f) ==> PaidTo(s, t, PayeeOf(w.outbox[ms[f].index], row), row.price))
      && ((forall i :: 0 <= i < |ms| ==> IsIgnored(w.outbox[ms[i].index])) ==> t == s)
  {
    var w := BookingRaces.Run(BookingRaces.START, steps);
    var row := w.history[id][0];
    OutboxAgrees(steps, id);
    CancellationPaysOnce(steps, id, s, ms);
    HeededPays(s, Received(s, w.outbox, row, ms), w.outbox, row, EventOf(w.outbox, row), ms);
  }

  lemma PaidIsChange(s: Ledger.Ledger, t: Ledger.Ledger, user: Id, price: nat)
    requires PaidTo(s, t, user, price) && price > 0
    ensures t != s
  {
    assert Ledger.WalletOf(t.wallets, user) != Ledger.WalletOf(s.wallets, user);
  }

  lemma {:induction false} OnlyRefundsPay(
    s: Ledger.Ledger, t: Ledger.Ledger, outbox: seq<Booking.Out>, row: Booking.Row, e: Cancellation.CancelEvent, ms: seq<Message>)
    requires Agrees(outbox, row, e) && Readable(row) && Holds(s, row) && AreRows(outbox, row.id, ms)
    requires Cancellation.Open(s, row.id) && PaysOnce(s, t, e, Deliveries(outbox, ms), row.price)
    requires e.Late? && e.role == Cancellation.Role.Other
    ensures (exists i :: 0 <= i < |ms| && outbox[ms[i].index].RefundEscrow?) <==> t != s
    ensures t != s ==> PaidTo(s, t, row.client, row.price)
  {
    var ds := Deliveries(outbox, ms);
    assert forall i :: 0 <= i < |ms| && outbox[ms[i].index].RefundEscrow? ==> BookingNews.Names(outbox[ms[i].index], row);
    assert forall i :: 0 <= i < |ms| ==> (Cancellation.Heeds(e, ds[i]) <==> outbox[ms[i].index].RefundEscrow?);
    var f := Cancellation.FirstHeeded(e, ds);
    if f.Some? {
      assert Cancellation.Payee(e, ds[f.value]) == row.client;
      PaidIsChange(s, t, row.client, row.price);
    }
  }

  /** When the booking was cancelled late by the system, the client gets the price back, once,
      if and only if some delivered message is a refund command; otherwise nothing changes. */
  lemma SystemCancellationPaysIff(steps: seq<BookingRaces.Step>, id: Id, s: Ledger.Ledger, ms: seq<Message>, k: nat)
    requires BookingRaces.IsRun(BookingRaces.START, steps)
    requires var w := BookingRaces.Run(BookingRaces.START, steps);
      && BookingRaces.Stored(w, id) && Readable(w.history[id][0])
      && Holds(s, w.history[id][0]) && IsReceived(s, w.outbox, w.history[id][0], ms)
      && k < |w.outbox| && BookingRaces.IsCancellation(w.outbox[k], id) && IsIgnored(w.outbox[k])
    requires Cancellation.Open(s, id)
    ensures var w := BookingRaces.Run(BookingRaces.START, steps);
      var row := w.history[id][0];
      var t := Received(s, w.outbox, row, ms);
      && AreRows(w.outbox, id, ms)
      && ((exists i :: 0 <= i < |ms| && w.outbox[ms[i].index].RefundEscrow?) <==> t != s)
      && (t != s ==> PaidTo(s, t, row.client, row.price))
  {
    var w := BookingRaces.Run(BookingRaces.START, steps);
    var row := w.history[id][0];
    var e := EventOf(w.outbox, row);
    OutboxAgrees(steps, id);
    CancellationPaysOnce(steps, id, s, ms);
    assert Speaks(w.outbox[k], id) && Notice(w.outbox[k], row) == e;
    OnlyRefundsPay(s, Received(s, w.outbox, row, ms), w.outbox, row, e, ms);
  }

  // ----- A late cancellation by the system never comes alone

  ghost predicate HasRefund(outbox: seq<Booking.Out>, id: Id) {
    exists j :: 0 <= j < |outbox| && outbox[j].RefundEscrow? && outbox[j].booking == id
  }

  ghost predicate IgnoredHaveRefunds(outbox: seq<Booking.Out>) {
    forall i :: 0 <= i < |outbox| && IsIgnored(outbox[i]) ==> HasRefund(outbox, outbox[i].booking)
  }

  lemma EffectPairs(a: Booking.Action, b: Booking.Row, hasSaga: bool, overlap: bool, now: Booking.Time, e: Booking.Effect, i: nat)
    requires Booking.Decide(a, b, hasSaga, overlap, now) == Some(e) && i < |e.outs| && IsIgnored(e.outs[i])
    ensures i + 1 < |e.outs| && e.outs[i + 1] == Booking.Refund(b) && e.outs[i].booking == b.id
  {
  }

  lemma PairsConcat(outbox: seq<Booking.Out>, outs: seq<Booking.Out>)
    requires IgnoredHaveRefunds(outbox) && IgnoredHaveRefunds(outs)
    ensures IgnoredHaveRefunds(outbox + outs)
  {
    var all := outbox + outs;
    forall i | 0 <= i < |all| && IsIgnored(all[i]) ensures HasRefund(all, all[i].booking) {
      if i < |outbox| {
        var j :| 0 <= j < |outbox| && outbox[j].RefundEscrow? && outbox[j].booking == outbox[i].booking;
        assert all[j] == outbox[j];
      } else {
        var j :| 0 <= j < |outs| && outs[j].RefundEscrow? && outs[j].booking == outs[i - |outbox|].booking;
        assert all[|outbox| + j] == outs[j];
      }
    }
  }

  lemma {:induction false} IgnoredHaveRefundsRun(steps: seq<BookingRaces.Step>)
    requires BookingRaces.IsRun(BookingRaces.START, steps)
    ensures IgnoredHaveRefunds(BookingRaces.Run(BookingRaces.START, steps).outbox)
    decreases |steps|
  {
    if steps != [] {
      var front, st := steps[..|steps| - 1], steps[|steps| - 1];
      var w := BookingRaces.Run(BookingRaces.START, front);
      IgnoredHaveRefundsRun(front);
      match st
      case Request(row) => PairsConcat(w.outbox, [Booking.BookingRequested(row.id, row.price)]);
      case Read(_, _, _) =>
      case Commit(agent, action, overlap, now) =>
        var snap := w.held[agent];
        var decision := Booking.Decide(action, snap.row, snap.saga.Some?, overlap, now);
        if decision.Some? {
          var e := decision.value;
          forall i | 0 <= i < |e.outs| && IsIgnored(e.outs[i]) ensures HasRefund(e.outs, e.outs[i].booking) {
            EffectPairs(action, snap.row, snap.saga.Some?, overlap, now, e, i);
          }
          PairsConcat(w.outbox, e.outs);
        }
    }
  }

  /** Once everything that the booking service wrote about a booking's cancellation and refund
      has been delivered, whatever the order and the repetitions, the price has gone to one
      wallet, once. */
  lemma AllDeliveredPays(steps: seq<BookingRaces.Step>, id: Id, s: Ledger.Ledger, ms: seq<Message>)
    requires BookingRaces.IsRun(BookingRaces.START, steps)
    requires var w := BookingRaces.Run(BookingRaces.START, steps);
      && BookingRaces.Stored(w, id) && Readable(w.history[id][0])
      && Holds(s, w.history[id][0]) && IsReceived(s, w.outbox, w.history[id][0], ms)
      && (forall k :: 0 <= k < |w.outbox| && Speaks(w.outbox[k], id) ==> IsDelivered(ms, k))
    requires Cancellation.Open(s, id) && ms != []
    ensures var w := BookingRaces.Run(BookingRaces.START, steps);
      var row := w.history[id][0];
      var t := Received(s, w.outbox, row, ms);
      && AreRows(w.outbox, id, ms)
      && exists f: nat :: IsFirst(w.outbox, ms, f) && PaidTo(s, t, PayeeOf(w.outbox[ms[f].index], row), row.price)
  {
    var w := BookingRaces.Run(BookingRaces.START, steps);
    PaidIffHeeded(steps, id, s, ms);
    var o := w.outbox[ms[0].index];
    if IsIgnored(o) {
      IgnoredHaveRefundsRun(steps);
      assert HasRefund(w.outbox, o.booking);
      var j :| 0 <= j < |w.outbox| && w.outbox[j].RefundEscrow? && w.outbox[j].booking == o.booking;
      assert Speaks(o, id) && Speaks(w.outbox[j], id);
      assert IsDelivered(ms, j);
      var i :| 0 <= i < |ms| && ms[i].index == j;
      var f := FirstOf(w.outbox, ms, i);
    } else {
      var f := FirstOf(w.outbox, ms, 0);
    }
  }

  ghost function FirstOf(outbox: seq<Booking.Out>, ms: seq<Message>, n: nat): (f: nat)
    requires (forall i :: 0 <= i < |ms| ==> ms[i].index < |outbox|) && n < |ms| && !IsIgnored(outbox[ms[n].index])
    ensures IsFirst(outbox, ms, f)
    decreases n
  {
    if k: nat :| k < n && !IsIgnored(outbox[ms[k].index]) then FirstOf(outbox, ms, k) else n
  }

  predicate IsDelivered(ms: seq<Message>, k: int) {
    exists i :: 0 <= i < |ms| && ms[i].index == k
  }

  // ----- A run with a late cancellation by the system

  const ASKED := Booking.Row("b", "c", "p", 10, Booking.TimeRange(100 * Booking.HOUR, 101 * Booking.HOUR),
                             Booking.PendingReserving, Booking.NoRole, false, 1)
  const WAITING := ASKED.(status := Booking.Pending, version := 2)
  const ACCEPTED := ASKED.(status := Booking.Accepted, version := 3)

  /** The run: the booking is requested, its coins are frozen, it is accepted, and its chat
      room is reported, at once and again one hour before it starts. */
  function Prefix(n: nat): seq<BookingRaces.Step> {
    if n == 0 then [BookingRaces.Request(ASKED)]
    else if n == 1 then Prefix(0) + BookingRaces.Transaction("b", None, Booking.CoinsFrozen, false, 0)
    else if n == 2 then Prefix(1) + BookingRaces.Transaction("b", None, Booking.AcceptBooking("p"), false, 0)
    else if n == 3 then Prefix(2) + BookingRaces.Transaction("b", Some(0), Booking.ChatRoomCreated, false, 0)
    else Prefix(3) + BookingRaces.Transaction("b", Some(0), Booking.ChatRoomCreated, true, 99 * Booking.HOUR)
  }

  /** The history of the booking and the number of sagas after the prefix. */
  ghost predicate Reached(n: nat, h: seq<Booking.Row>, sagas: nat) {
    && BookingRaces.IsRun(BookingRaces.START, Prefix(n))
    && var w := BookingRaces.Run(BookingRaces.START, Prefix(n));
       && "b" in w.history && w.history["b"] == h && |w.sagas| == sagas
       && forall i :: 0 <= i < sagas ==> w.sagas[i].booking == "b"
  }

  lemma {:induction false} Reach(
    n: nat, h: seq<Booking.Row>, sagas: nat, saga: Option<nat>, a: Booking.Action, overlap: bool, now: Booking.Time, e: Booking.Effect)
    requires Reached(n, h, sagas) && h != [] && BookingRaces.Last(h).id == "b" && (saga.Some? ==> saga.value < sagas)
    requires Prefix(n + 1) == Prefix(n) + BookingRaces.Transaction("b", saga, a, overlap, now)
    requires Booking.Decide(a, BookingRaces.Last(h), saga.Some?, overlap, now) == Some(e) && (e.opens ==> e.saga.None?)
    ensures Reached(n + 1, if e.write.Some? then h + [e.write.value] else h, if e.opens then sagas + 1 else sagas)
    ensures BookingRaces.Run(BookingRaces.START, Prefix(n + 1)).outbox == BookingRaces.Run(BookingRaces.START, Prefix(n)).outbox + e.outs
  {
    BookingRaces.Transact(Prefix(n), "b", saga, a, overlap, now, e);
  }

  lemma {:induction false} ReachedRequest()
    ensures Reached(0, [ASKED], 0)
  {
    BookingRaces.RunSnoc([], BookingRaces.Request(ASKED));
    assert [] + [BookingRaces.Request(ASKED)] == Prefix(0);
  }

  lemma Frozen(e: Booking.Effect)
    requires Booking.Decide(Booking.CoinsFrozen, ASKED, false, false, 0) == Some(e)
    ensures e.write == Some(WAITING) && !e.opens
  {
  }

  lemma {:induction false} ReachedFrozen()
    ensures Reached(1, [ASKED] + [WAITING], 0)
  {
    var e := Booking.Decide(Booking.CoinsFrozen, ASKED, false, false, 0).value;
    ReachedRequest();
    Frozen(e);
    Reach(0, [ASKED], 0, None, Booking.CoinsFrozen, false, 0, e);
  }

  lemma Accepting(e: Booking.Effect)
    requires Booking.Decide(Booking.AcceptBooking("p"), WAITING, false, false, 0) == Some(e)
    ensures e.write == None && e.saga == None && e.opens
  {
  }

  lemma {:induction false} ReachedAccept()
    ensures Reached(2, [ASKED] + [WAITING], 1)
  {
    var e := Booking.Decide(Booking.AcceptBooking("p"), WAITING, false, false, 0).value;
    ReachedFrozen();
    Accepting(e);
    Reach(1, [ASKED] + [WAITING], 0, None, Booking.AcceptBooking("p"), false, 0, e);
  }

  lemma Room(e: Booking.Effect)
    requires Booking.Decide(Booking.ChatRoomCreated, WAITING, true, false, 0) == Some(e)
    ensures e.write == Some(ACCEPTED) && !e.opens
  {
  }

  lemma {:induction false} ReachedRoom()
    ensures Reached(3, [ASKED] + [WAITING] + [ACCEPTED], 1)
  {
    var e := Booking.Decide(Booking.ChatRoomCreated, WAITING, true, false, 0).value;
    ReachedAccept();
    Room(e);
    Reach(2, [ASKED] + [WAITING], 1, Some(0), Booking.ChatRoomCreated, false, 0, e);
  }

  /** A chat room reported for an accepted booking within a day of its start. */
  lemma LateDecision(b: Booking.Row, now: Booking.Time, e: Booking.Effect)
    requires b.status == Booking.Accepted && Booking.IsLateCancel(b.range, now)
    requires Booking.Decide(Booking.ChatRoomCreated, b, true, true, now) == Some(e)
    ensures e.write.Some? && !e.opens && |e.outs| > 0 && e.outs[0] == Booking.BookingCancelledLate(b.id, Booking.System)
  {
  }

  lemma LateWrite(outbox: seq<Booking.Out>, outs: seq<Booking.Out>, id: Id)
    requires |outs| > 0 && outs[0] == Booking.BookingCancelledLate(id, Booking.System)
    ensures HasIgnored(outbox + outs, id)
  {
    assert (outbox + outs)[|outbox|] == outs[0];
  }

  ghost predicate HasIgnored(outbox: seq<Booking.Out>, id: Id) {
    exists k :: 0 <= k < |outbox| && BookingRaces.IsCancellation(outbox[k], id) && IsIgnored(outbox[k])
  }

  /** A reachable outbox with a late cancellation by the system. */
  lemma {:induction false} SystemCancelsLate()
    ensures BookingRaces.IsRun(BookingRaces.START, Prefix(4))
    ensures var w := BookingRaces.Run(BookingRaces.START, Prefix(4));
      && BookingRaces.Stored(w, "b") && w.history["b"][0] == ASKED && Readable(ASKED) && HasIgnored(w.outbox, "b")
  {
    ReachedRoom();
    var e := Booking.Decide(Booking.ChatRoomCreated, ACCEPTED, true, true, 99 * Booking.HOUR).value;
    LateDecision(ACCEPTED, 99 * Booking.HOUR, e);
    Reach(3, [ASKED] + [WAITING] + [ACCEPTED], 1, Some(0), Booking.ChatRoomCreated, true, 99 * Booking.HOUR, e);
    LateWrite(BookingRaces.Run(BookingRaces.START, Prefix(3)).outbox, e.outs, "b");
  }
}
