/** What the outbox says is what happened: over every interleaving, the events of a booking
    tell its committed history, the commands about its coins name its client and price, and a
    saga is only ever in a state whose message was written. And the serial transactions are
    interleavings too, so all of this holds of them. */
module BookingNews {
  import opened Prelude
  import opened Booking
  import opened BookingRaces
  import BookingRuns

  // ----- Events tell the history

  /** An event of the booking, as opposed to a command to another service. */
  predicate IsNews(o: Out, id: Id) {
    && o.booking == id
    && (o.BookingRequested? || o.BookingReserved? || o.BookingAccepted? || o.BookingRejected? || o.BookingTimedOut?
        || o.BookingCancelledEarly? || o.BookingCancelledLate? || o.BookingCompleted?)
  }

  function News(outbox: seq<Out>, id: Id): seq<Out> {
    if outbox == [] then []
    else
      var front := News(outbox[..|outbox| - 1], id);
      if IsNews(outbox[|outbox| - 1], id) then front + [outbox[|outbox| - 1]] else front
  }

  /** What a committed change of a booking announces. A rejection tells who rejected; a
      cancellation by a method tells by whom and whether late, and a technical one is silent. */
  predicate Announces(b: Row, c: Row, news: seq<Out>) {
    match c.status
    case PendingReserving => false
    case Pending => news == [BookingReserved(c.id)]
    case Accepted => news == [BookingAccepted(c.id)]
    case Rejected => news == [BookingRejected(c.id)] || news == [BookingTimedOut(c.id)]
    case Completed => news == [BookingCompleted(c.id, c.price)]
    case Disputed => news == []
    case Resolved => news == []
    case Cancelled =>
      || (news == [] && c.cancelledBy == System && !c.late)
      || ((b.status == Pending || b.status == Accepted) && news == [CancelEvent(c)])
  }

  /** The events are those of the request and of each change, in order. */
  ghost predicate Tells(h: seq<Row>, news: seq<Out>)
    decreases |h|
  {
    && h != []
    && if |h| == 1 then news == [BookingRequested(h[0].id, h[0].price)]
       else exists k :: 0 <= k <= |news| && Tells(h[..|h| - 1], news[..k]) && Announces(h[|h| - 2], h[|h| - 1], news[k..])
  }

  lemma {:induction false} TellsSnoc(h: seq<Row>, news: seq<Out>, c: Row, more: seq<Out>)
    requires Tells(h, news) && Announces(Last(h), c, more)
    ensures Tells(h + [c], news + more)
  {
    var all, k := news + more, |news|;
    assert (h + [c])[..|h|] == h && all[..k] == news && all[k..] == more;
  }

  lemma {:induction false} NewsConcat(a: seq<Out>, b: seq<Out>, id: Id)
    ensures News(a + b, id) == News(a, id) + News(b, id)
    decreases |b|
  {
    if b == [] {
      assert a + b == a;
    } else {
      assert (a + b)[..|a + b| - 1] == a + b[..|b| - 1];
      NewsConcat(a, b[..|b| - 1], id);
    }
  }

  lemma NewsOne(o: Out, id: Id)
    ensures News([o], id) == if IsNews(o, id) then [o] else []
  {
    assert [o][..0] == [];
  }

  /** A handler writes at most two rows, and only the first can be an event. */
  lemma {:induction false} NewsShort(outs: seq<Out>, id: Id)
    requires |outs| <= 2 && (|outs| == 2 ==> !IsNews(outs[1], id))
    ensures News(outs, id) == if |outs| > 0 && IsNews(outs[0], id) then [outs[0]] else []
  {
    if |outs| == 1 {
      NewsOne(outs[0], id);
      assert outs == [outs[0]];
    } else if |outs| == 2 {
      assert outs == [outs[0]] + [outs[1]];
      NewsConcat([outs[0]], [outs[1]], id);
      NewsOne(outs[0], id);
      NewsOne(outs[1], id);
    }
  }

  lemma EffectNewsIsShort(a: Action, b: Row, hasSaga: bool, overlap: bool, now: Time, e: Effect, id: Id)
    requires Decide(a, b, hasSaga, overlap, now) == Some(e)
    ensures |e.outs| <= 2 && (|e.outs| == 2 ==> !IsNews(e.outs[1], id))
    ensures |e.outs| > 0 && IsNews(e.outs[0], id) ==> id == b.id && e.write.Some?
  {
  }

  lemma EffectAnnounces(a: Action, b: Row, hasSaga: bool, overlap: bool, now: Time, e: Effect)
    requires Decide(a, b, hasSaga, overlap, now) == Some(e) && e.write.Some?
    ensures Announces(b, e.write.value, if |e.outs| > 0 && IsNews(e.outs[0], b.id) then [e.outs[0]] else [])
  {
  }

  ghost predicate AllTold(w: World) {
    forall id :: Told(w, id)
  }

  ghost predicate Told(w: World, id: Id) {
    if Stored(w, id) then Tells(w.history[id], News(w.outbox, id)) else News(w.outbox, id) == []
  }

  /** The booking that is written gets one more announcement. */
  lemma {:induction false} WriteTells(w: World, snap: Snapshot, a: Action, overlap: bool, now: Time, e: Effect)
    requires Inv(w) && IsPast(w, snap) && Decide(a, snap.row, snap.saga.Some?, overlap, now) == Some(e)
    requires e.write.Some? && Last(w.history[snap.row.id]).version == snap.row.version && Told(w, snap.row.id)
    ensures Tells(w.history[snap.row.id] + [e.write.value], News(w.outbox, snap.row.id) + News(e.outs, snap.row.id))
  {
    var id := snap.row.id;
    GuardIsFresh(w, snap);
    EffectNewsIsShort(a, snap.row, snap.saga.Some?, overlap, now, e, id);
    NewsShort(e.outs, id);
    EffectAnnounces(a, snap.row, snap.saga.Some?, overlap, now, e);
    TellsSnoc(w.history[id], News(w.outbox, id), e.write.value, News(e.outs, id));
  }

  lemma {:induction false} NoNews(a: Action, b: Row, hasSaga: bool, overlap: bool, now: Time, e: Effect, id: Id)
    requires Decide(a, b, hasSaga, overlap, now) == Some(e) && (id != b.id || e.write.None?)
    ensures News(e.outs, id) == []
  {
    EffectNewsIsShort(a, b, hasSaga, overlap, now, e, id);
    NewsShort(e.outs, id);
  }

  lemma {:induction false} CommitTells(w: World, snap: Snapshot, a: Action, overlap: bool, now: Time, e: Effect)
    requires Inv(w) && AllTold(w) && IsPast(w, snap) && Decide(a, snap.row, snap.saga.Some?, overlap, now) == Some(e)
    requires e.write.Some? ==> Last(w.history[snap.row.id]).version == snap.row.version
    ensures AllTold(Write(w, snap, e))
  {
    var v, id := Write(w, snap, e), snap.row.id;
    assert v.outbox == w.outbox + e.outs;
    forall i ensures Told(v, i) {
      assert Told(w, i);
      NewsConcat(w.outbox, e.outs, i);
      if i == id && e.write.Some? {
        WriteTells(w, snap, a, overlap, now, e);
      } else {
        NoNews(a, snap.row, snap.saga.Some?, overlap, now, e, i);
        assert News(w.outbox, i) + [] == News(w.outbox, i);
      }
    }
  }

  lemma {:induction false} RequestTells(w: World, row: Row)
    requires AllTold(w) && Enabled(w, Request(row))
    ensures AllTold(Next(w, Request(row)))
  {
    var v, o := Next(w, Request(row)), BookingRequested(row.id, row.price);
    forall i ensures Told(v, i) {
      assert Told(w, i);
      NewsConcat(w.outbox, [o], i);
      NewsOne(o, i);
      assert News(w.outbox, i) + [] == News(w.outbox, i);
    }
  }

  lemma {:induction false} AllToldRun(steps: seq<Step>)
    requires IsRun(START, steps)
    ensures AllTold(Run(START, steps))
    decreases |steps|
  {
    if steps != [] {
      var w, st := Run(START, steps[..|steps| - 1]), steps[|steps| - 1];
      AllToldRun(steps[..|steps| - 1]);
      InvRun(steps[..|steps| - 1]);
      match st
      case Request(row) => RequestTells(w, row);
      case Read(_, _, _) =>
        forall i ensures Told(Next(w, st), i) {
          assert Told(w, i);
        }
      case Commit(agent, a, overlap, now) =>
        var snap := w.held[agent];
        assert IsPast(w, snap);
        match Decide(a, snap.row, snap.saga.Some?, overlap, now)
        case None =>
        case Some(e) =>
          if e.write.None? || Last(w.history[snap.row.id]).version == snap.row.version {
            CommitTells(w, snap, a, overlap, now, e);
          }
    }
  }

  /** Over every interleaving, the events in the outbox tell the history of each booking:
      nothing that happened is missing, nothing else is said, in the order it happened. */
  lemma OutboxTellsHistory(steps: seq<Step>, id: Id)
    requires IsRun(START, steps) && id in Run(START, steps).history
    ensures Tells(Run(START, steps).history[id], News(Run(START, steps).outbox, id))
  {
    AllToldRun(steps);
    InvRun(steps);
    assert Legal(id, Run(START, steps).history[id]) && Told(Run(START, steps), id);
  }

  // ----- Commands name the client and the price

  /** A command to the finance service about the booking's coins. */
  predicate IsOrder(o: Out) {
    o.TransferToEscrow? || o.RefundEscrow? || o.UnfreezeCoin?
  }

  predicate Names(o: Out, row: Row) {
    IsOrder(o) && o.booking == row.id ==> o.user == row.client && o.amount == row.price
  }

  ghost predicate OrdersName(w: World) {
    forall i :: 0 <= i < |w.outbox| && IsOrder(w.outbox[i]) ==>
      Stored(w, w.outbox[i].booking) && Names(w.outbox[i], w.history[w.outbox[i].booking][0])
  }

  lemma {:induction false} SameThroughout(id: Id, h: seq<Row>, n: nat)
    requires Legal(id, h) && n < |h|
    ensures SameBooking(h[0], h[n])
  {
    if n > 0 {
      SameThroughout(id, h, n - 1);
      assert Linked(h, n);
      FollowsFacts(h[n - 1], h[n]);
    }
  }

  lemma EffectNames(a: Action, b: Row, hasSaga: bool, overlap: bool, now: Time, e: Effect, i: nat)
    requires Decide(a, b, hasSaga, overlap, now) == Some(e) && i < |e.outs| && IsOrder(e.outs[i])
    ensures e.outs[i].booking == b.id && e.outs[i].user == b.client && e.outs[i].amount == b.price
  {
  }

  lemma CommitNames(w: World, snap: Snapshot, e: Effect)
    requires Inv(w) && OrdersName(w) && IsPast(w, snap)
    requires forall i :: 0 <= i < |e.outs| && IsOrder(e.outs[i]) ==> e.outs[i].booking == snap.row.id && Names(e.outs[i], snap.row)
    ensures OrdersName(Write(w, snap, e))
  {
    var v, id := Write(w, snap, e), snap.row.id;
    assert Legal(id, w.history[id]);
    SameThroughout(id, w.history[id], snap.row.version - 1);
    if v != w {
      assert v.outbox == w.outbox + e.outs;
    }
  }

  /** Over every interleaving, every transfer, refund and release in the outbox names the
      client and the price of its booking. */
  lemma {:induction false} OrdersNameRun(steps: seq<Step>)
    requires IsRun(START, steps)
    ensures OrdersName(Run(START, steps))
    decreases |steps|
  {
    if steps != [] {
      var front, st := steps[..|steps| - 1], steps[|steps| - 1];
      var w := Run(START, front);
      OrdersNameRun(front);
      InvRun(front);
      if st.Commit? {
        var snap := w.held[st.agent];
        assert IsPast(w, snap);
        var decision := Decide(st.action, snap.row, snap.saga.Some?, st.overlap, st.now);
        if decision.Some? {
          var e := decision.value;
          forall i | 0 <= i < |e.outs| && IsOrder(e.outs[i]) ensures e.outs[i].booking == snap.row.id && Names(e.outs[i], snap.row) {
            EffectNames(st.action, snap.row, snap.saga.Some?, st.overlap, st.now, e, i);
          }
          CommitNames(w, snap, e);
        }
      }
    }
  }

  // ----- A saga's state has its message

  predicate Explains(o: Out, state: SagaState, id: Id) {
    && o.booking == id
    && match state
       case WaitingForEscrow => o.TransferToEscrow?
       case WaitingForChat => o.CreateChatRoom?
       case RevertingEscrow => o.RefundEscrow?
       case SagaCompleted => o.BookingAccepted?
       case _ => false
  }

  predicate IsSilent(state: SagaState) {
    state == FailedTechnical || state == FailedRequiresAdmin
  }

  ghost predicate IsExplained(outbox: seq<Out>, saga: Saga) {
    IsSilent(saga.state) || exists i :: 0 <= i < |outbox| && Explains(outbox[i], saga.state, saga.booking)
  }

  ghost predicate SagasExplained(w: World) {
    forall i :: 0 <= i < |w.sagas| ==> IsExplained(w.outbox, w.sagas[i])
  }

  lemma EffectExplains(a: Action, b: Row, hasSaga: bool, overlap: bool, now: Time, e: Effect)
    requires Decide(a, b, hasSaga, overlap, now) == Some(e)
    ensures e.saga.Some? && !IsSilent(e.saga.value) ==>
      |e.outs| > 0 && Explains(if |e.outs| == 1 then e.outs[0] else e.outs[1], e.saga.value, b.id) && |e.outs| <= 2
    ensures e.opens ==> e.outs == [TransferToEscrow(b.id, b.client, b.price)]
  {
  }

  lemma OutsExplain(e: Effect, id: Id)
    requires e.saga.Some? && !IsSilent(e.saga.value) ==>
      0 < |e.outs| <= 2 && Explains(if |e.outs| == 1 then e.outs[0] else e.outs[1], e.saga.value, id)
    requires e.opens ==> |e.outs| == 1 && e.outs[0].TransferToEscrow? && e.outs[0].booking == id
    ensures e.saga.Some? ==> IsExplained(e.outs, Saga(id, e.saga.value))
    ensures e.opens ==> IsExplained(e.outs, Saga(id, WaitingForEscrow))
  {
    if e.opens {
      assert Explains(e.outs[0], WaitingForEscrow, id);
    }
  }

  lemma StillExplained(outbox: seq<Out>, outs: seq<Out>, saga: Saga)
    requires IsExplained(outbox, saga) || IsExplained(outs, saga)
    ensures IsExplained(outbox + outs, saga)
  {
    var all := outbox + outs;
    if !IsSilent(saga.state) {
      if IsExplained(outbox, saga) {
        var i :| 0 <= i < |outbox| && Explains(outbox[i], saga.state, saga.booking);
        assert all[i] == outbox[i];
      } else {
        var i :| 0 <= i < |outs| && Explains(outs[i], saga.state, saga.booking);
        assert all[|outbox| + i] == outs[i];
      }
    }
  }

  lemma {:induction false} CommitExplains(w: World, snap: Snapshot, a: Action, overlap: bool, now: Time, e: Effect)
    requires SagasExplained(w) && IsPast(w, snap) && Decide(a, snap.row, snap.saga.Some?, overlap, now) == Some(e)
    ensures SagasExplained(Write(w, snap, e))
  {
    var v := Write(w, snap, e);
    EffectExplains(a, snap.row, snap.saga.Some?, overlap, now, e);
    OutsExplain(e, snap.row.id);
    if v != w {
      forall i | 0 <= i < |v.sagas| ensures IsExplained(v.outbox, v.sagas[i]) {
        if i < |w.sagas| && v.sagas[i] == w.sagas[i] {
          assert IsExplained(w.outbox, w.sagas[i]);
        } else {
          assert v.sagas[i] == Saga(snap.row.id, if i < |w.sagas| then e.saga.value else WaitingForEscrow);
        }
        StillExplained(w.outbox, e.outs, v.sagas[i]);
      }
    }
  }

  /** Over every interleaving, a saga that waits for the escrow, for the chat room or for the
      refund has had that asked for, and a completed one has had the acceptance announced. */
  lemma {:induction false} SagasExplainedRun(steps: seq<Step>)
    requires IsRun(START, steps)
    ensures SagasExplained(Run(START, steps))
    decreases |steps|
  {
    if steps != [] {
      var w, st := Run(START, steps[..|steps| - 1]), steps[|steps| - 1];
      SagasExplainedRun(steps[..|steps| - 1]);
      InvRun(steps[..|steps| - 1]);
      match st
      case Request(row) =>
        forall i | 0 <= i < |w.sagas| ensures IsExplained(Next(w, st).outbox, w.sagas[i]) {
          StillExplained(w.outbox, [BookingRequested(row.id, row.price)], w.sagas[i]);
        }
      case Read(_, _, _) =>
      case Commit(agent, a, overlap, now) =>
        var snap := w.held[agent];
        assert IsPast(w, snap);
        match Decide(a, snap.row, snap.saga.Some?, overlap, now)
        case None =>
        case Some(e) => CommitExplains(w, snap, a, overlap, now, e);
    }
  }

  // ----- Serial transactions are interleavings

  /** The interleaving model's last rows, sagas and outbox are the serial model's tables. */
  ghost predicate Same(t: BookingRuns.Tables, w: World) {
    && t.sagas == w.sagas && t.outbox == w.outbox && t.bookings.Keys == w.history.Keys
    && forall id :: id in t.bookings ==> w.history[id] != [] && Last(w.history[id]) == t.bookings[id]
  }

  ghost predicate Mirrors(t: BookingRuns.Tables, steps: seq<Step>) {
    IsRun(START, steps) && Same(t, Run(START, steps))
  }

  lemma {:induction false} RequestIsRace(t: BookingRuns.Tables, steps: seq<Step>, x: BookingRuns.Input)
    requires Mirrors(t, steps) && x.NewRequest? && x.id !in t.bookings && BookingRuns.Bare(t, x).Some?
    ensures exists more :: Mirrors(BookingRuns.Bare(t, x).value, more)
  {
    var v := BookingRuns.Bare(t, x).value;
    var row := v.bookings[x.id];
    RunSnoc(steps, Request(row));
    assert Mirrors(v, steps + [Request(row)]);
  }

  lemma WritesMirror(t: BookingRuns.Tables, w: World, v: World, id: Id, saga: Option<nat>, e: Effect)
    requires Same(t, w) && Stored(w, id) && (saga.Some? ==> saga.value < |w.sagas|) && Writes(w, v, id, saga, e)
    ensures Same(BookingRuns.Committed(t, id, saga, e), v)
  {
    assert v.sagas + [] == v.sagas;
  }

  lemma {:induction false} ServeIsRace(t: BookingRuns.Tables, steps: seq<Step>, a: Action, id: Id, now: Time)
    requires Mirrors(t, steps) && BookingRuns.Valid(t) && BookingRuns.Serve(t, a, id, now).Some?
    ensures exists more :: Mirrors(BookingRuns.Serve(t, a, id, now).value, more)
  {
    var b, saga := t.bookings[id], BookingRuns.LatestSaga(t.sagas, id);
    var overlap := BookingRuns.CompanionIsTaken(t.bookings, b);
    var e := Decide(a, b, saga.Some?, overlap, now).value;
    Transact(steps, id, saga, a, overlap, now, e);
    WritesMirror(t, Run(START, steps), Run(START, steps + Transaction(id, saga, a, overlap, now)), id, saga, e);
    assert Mirrors(BookingRuns.Serve(t, a, id, now).value, steps + Transaction(id, saga, a, overlap, now));
  }

  /** Every serial run of the service is an interleaving, with the same stored bookings, sagas
      and outbox, so that what holds of every interleaving holds of the service. */
  lemma {:induction false} SerialRunsAreRaces(xs: seq<BookingRuns.Input>)
    requires BookingRuns.IsRun(BookingRuns.EMPTY, xs)
    ensures exists steps :: Mirrors(BookingRuns.Run(BookingRuns.EMPTY, xs).tables, steps)
    decreases |xs|
  {
    if xs == [] {
      var none: seq<Step> := [];
      assert Mirrors(BookingRuns.Run(BookingRuns.EMPTY, xs).tables, none);
    } else {
      var front, x := xs[..|xs| - 1], xs[|xs| - 1];
      SerialRunsAreRaces(front);
      BookingRuns.NeverDoubleBooked(front);
      var t := BookingRuns.Run(BookingRuns.EMPTY, front).tables;
      var steps :| Mirrors(t, steps);
      var u := BookingRuns.Run(BookingRuns.EMPTY, xs).tables;
      if u == t {
        assert Mirrors(u, steps);
      } else if x.NewRequest? {
        RequestIsRace(t, steps, x);
      } else {
        ServeIsRace(t, steps, x.action, x.id, x.now);
      }
    }
  }
}
