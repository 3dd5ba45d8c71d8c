/** Handlers and workers racing on bookings. Every agent reads a snapshot at one moment and
    commits at a later one; in between, anything may have been committed. A write of a
    booking goes through only if the version column still has the value that was read.
    Saga rows and outbox rows carry no such guard. */
module BookingRaces {
  import opened Prelude
  import opened Booking

  /** What an agent has read: a booking and, for saga handlers, one of its sagas. */
  datatype Snapshot = Snapshot(row: Row, saga: Option<nat>)

  /** `history` holds every committed row of each booking; the last one is the stored row. */
  datatype World = World(
    history: map<Id, seq<Row>>, sagas: seq<Saga>, outbox: seq<Out>, held: map<Id, Snapshot>)

  const START := World(map[], [], [], map[])

  datatype Step =
    | Request(row: Row)
    | Read(agent: Id, booking: Id, saga: Option<nat>)
    | Commit(agent: Id, action: Action, overlap: bool, now: Time)

  function Last(h: seq<Row>): Row
    requires h != []
  {
    h[|h| - 1]
  }

  /** A new booking as `NewBooking` makes it. */
  predicate IsNew(row: Row) {
    row.status == PendingReserving && row.version == 1
  }

  predicate Stored(w: World, id: Id) {
    id in w.history && w.history[id] != []
  }

  predicate Enabled(w: World, st: Step) {
    match st
    case Request(row) => row.id !in w.history && IsNew(row)
    case Read(_, booking, saga) =>
      Stored(w, booking) && (saga.Some? ==> saga.value < |w.sagas| && w.sagas[saga.value].booking == booking)
    case Commit(agent, _, _, _) =>
      agent in w.held && Stored(w, w.held[agent].row.id)
      && (w.held[agent].saga.Some? ==> w.held[agent].saga.value < |w.sagas|)
  }

  /** Write an effect, unless the booking's version has moved on. */
  function Write(w: World, snap: Snapshot, e: Effect): World
    requires Stored(w, snap.row.id) && (snap.saga.Some? ==> snap.saga.value < |w.sagas|)
  {
    var id, h := snap.row.id, w.history[snap.row.id];
    if e.write.Some? && Last(h).version != snap.row.version then w
    else
      var sagas := if e.saga.Some? && snap.saga.Some?
                   then w.sagas[snap.saga.value := w.sagas[snap.saga.value].(state := e.saga.value)] else w.sagas;
      w.(history := if e.write.Some? then w.history[id := h + [e.write.value]] else w.history,
         sagas := if e.opens then sagas + [Saga(id, WaitingForEscrow)] else sagas,
         outbox := w.outbox + e.outs)
  }

  function Next(w: World, st: Step): World
    requires Enabled(w, st)
  {
    match st
    case Request(row) =>
      w.(history := w.history[row.id := [row]], outbox := w.outbox + [BookingRequested(row.id, row.price)])
    case Read(agent, booking, saga) => w.(held := w.held[agent := Snapshot(Last(w.history[booking]), saga)])
    case Commit(agent, action, overlap, now) =>
      var snap := w.held[agent];
      match Decide(action, snap.row, snap.saga.Some?, overlap, now)
      case Some(e) => Write(w, snap, e)
      case None => w
  }

  predicate IsRun(w: World, steps: seq<Step>)
    decreases |steps|, 0
  {
    steps == [] || (IsRun(w, steps[..|steps| - 1]) && Enabled(Run(w, steps[..|steps| - 1]), steps[|steps| - 1]))
  }

  function Run(w: World, steps: seq<Step>): World
    requires IsRun(w, steps)
    decreases |steps|, 1
  {
    if steps == [] then w else Next(Run(w, steps[..|steps| - 1]), steps[|steps| - 1])
  }

  lemma RunSnoc(steps: seq<Step>, st: Step)
    requires IsRun(START, steps) && Enabled(Run(START, steps), st)
    ensures IsRun(START, steps + [st]) && Run(START, steps + [st]) == Next(Run(START, steps), st)
  {
    assert (steps + [st])[..|steps|] == steps;
  }

  /** A handler that reads and commits with nothing in between. */
  function Transaction(id: Id, saga: Option<nat>, a: Action, overlap: bool, now: Time): seq<Step> {
    [Read("agent", id, saga)] + [Commit("agent", a, overlap, now)]
  }

  /** What an effect that is written changes. */
  ghost predicate Writes(w: World, v: World, id: Id, saga: Option<nat>, e: Effect)
    requires Stored(w, id) && (saga.Some? ==> saga.value < |w.sagas|)
  {
    && v.history == (if e.write.Some? then w.history[id := w.history[id] + [e.write.value]] else w.history)
    && v.sagas == (if e.saga.Some? && saga.Some? then w.sagas[saga.value := w.sagas[saga.value].(state := e.saga.value)] else w.sagas)
                  + (if e.opens then [Saga(id, WaitingForEscrow)] else [])
    && v.outbox == w.outbox + e.outs
  }

  lemma FreshWrites(w: World, snap: Snapshot, e: Effect)
    requires Stored(w, snap.row.id) && (snap.saga.Some? ==> snap.saga.value < |w.sagas|)
    requires Last(w.history[snap.row.id]) == snap.row
    ensures Writes(w, Write(w, snap, e), snap.row.id, snap.saga, e)
  {
    var v := Write(w, snap, e);
    assert !e.opens ==> v.sagas + [] == v.sagas;
  }

  lemma {:induction false} Transact(steps: seq<Step>, id: Id, saga: Option<nat>, a: Action, overlap: bool, now: Time, e: Effect)
    requires IsRun(START, steps)
    requires var w := Run(START, steps);
      && Stored(w, id) && Last(w.history[id]).id == id
      && (saga.Some? ==> saga.value < |w.sagas| && w.sagas[saga.value].booking == id)
      && Decide(a, Last(w.history[id]), saga.Some?, overlap, now) == Some(e)
    ensures IsRun(START, steps + Transaction(id, saga, a, overlap, now))
    ensures Writes(Run(START, steps), Run(START, steps + Transaction(id, saga, a, overlap, now)), id, saga, e)
  {
    var read, commit := Read("agent", id, saga), Commit("agent", a, overlap, now);
    var w := Run(START, steps);
    RunSnoc(steps, read);
    var v := w.(held := w.held["agent" := Snapshot(Last(w.history[id]), saga)]);
    RunSnoc(steps + [read], commit);
    FreshWrites(v, Snapshot(Last(w.history[id]), saga), e);
    assert steps + Transaction(id, saga, a, overlap, now) == steps + [read] + [commit];
  }

  // ----- What holds of one booking's history

  ghost predicate Legal(id: Id, h: seq<Row>) {
    && h != [] && h[0].status == PendingReserving
    && (forall i :: 0 <= i < |h| ==> h[i].id == id && h[i].version == i + 1)
    && (forall i :: 0 < i < |h| ==> Linked(h, i))
  }

  ghost predicate Linked(h: seq<Row>, i: nat)
    requires 0 < i < |h|
  {
    Follows(h[i - 1], h[i])
  }

  function EverAccepted(h: seq<Row>): bool {
    h != [] && (Last(h).status == Accepted || EverAccepted(h[..|h| - 1]))
  }

  /** The statuses of a booking that was accepted once. */
  predicate AfterAccept(s: Status) {
    s == Accepted || s == Completed || s == Disputed || s == Resolved || s == Cancelled
  }

  predicate Coupled(saga: SagaState, s: Status) {
    && (saga == SagaCompleted ==> AfterAccept(s))
    && (saga == FailedTechnical || saga == FailedRequiresAdmin ==> s == Cancelled)
  }

  /** Unfreeze rows written by the reject and timeout handlers. */
  predicate IsRelease(o: Out, id: Id) {
    o.UnfreezeCoin? && o.booking == id && o.writer != FrozenHandler
  }

  predicate IsCancellation(o: Out, id: Id) {
    (o.BookingCancelledEarly? || o.BookingCancelledLate?) && o.booking == id
  }

  function Releases(outbox: seq<Out>, id: Id): nat {
    if outbox == [] then 0
    else Releases(outbox[..|outbox| - 1], id) + if IsRelease(outbox[|outbox| - 1], id) then 1 else 0
  }

  function Cancellations(outbox: seq<Out>, id: Id): nat {
    if outbox == [] then 0
    else Cancellations(outbox[..|outbox| - 1], id) + if IsCancellation(outbox[|outbox| - 1], id) then 1 else 0
  }

  /** The outbox of one booking, against its history. */
  ghost predicate Raced(h: seq<Row>, releases: nat, cancellations: nat)
    requires h != []
  {
    && releases <= 1 && cancellations <= 1
    && (Last(h).status == Rejected ==> releases == 1)
    && (releases == 1 ==> Last(h).status == Rejected || Last(h).status == Cancelled)
    && (EverAccepted(h) ==> releases == 0 && AfterAccept(Last(h).status))
    && (cancellations == 1 ==> Last(h).status == Cancelled)
  }

  ghost predicate HistoriesOk(w: World) {
    forall id :: id in w.history ==> Legal(id, w.history[id])
  }

  ghost predicate SnapshotsOk(w: World) {
    forall a :: a in w.held ==> IsPast(w, w.held[a])
  }

  /** A snapshot is some committed row of its booking, and its saga belongs to it. */
  ghost predicate IsPast(w: World, snap: Snapshot) {
    var row := snap.row;
    && row.id in w.history && 1 <= row.version <= |w.history[row.id]|
    && w.history[row.id][row.version - 1] == row
    && (snap.saga.Some? ==> snap.saga.value < |w.sagas| && w.sagas[snap.saga.value].booking == row.id)
  }

  ghost predicate SagasOk(w: World) {
    forall i :: 0 <= i < |w.sagas| ==>
      Stored(w, w.sagas[i].booking) && Coupled(w.sagas[i].state, Last(w.history[w.sagas[i].booking]).status)
  }

  ghost predicate OutboxOkFor(w: World, id: Id) {
    if Stored(w, id) then Raced(w.history[id], Releases(w.outbox, id), Cancellations(w.outbox, id))
    else Releases(w.outbox, id) == 0 && Cancellations(w.outbox, id) == 0
  }

  ghost predicate OutboxOk(w: World) {
    forall id :: OutboxOkFor(w, id)
  }

  ghost predicate Inv(w: World) {
    HistoriesOk(w) && SnapshotsOk(w) && SagasOk(w) && OutboxOk(w)
  }

  // ----- Lemmas about one transition

  lemma FollowsFacts(b: Row, c: Row)
    requires Follows(b, c)
    ensures SameBooking(b, c) && c.version == b.version + 1
    ensures Rank(b.status) < Rank(c.status) || (b.status == Cancelled && c.status == Cancelled)
    ensures AfterAccept(b.status) ==> AfterAccept(c.status)
    ensures b.status == Cancelled ==> c.status == Cancelled
    ensures b.status == Rejected ==> c.status == Cancelled
    ensures c.status == Accepted ==> b.status == Pending
  {
    var op: Op :| Do(op, b) == Some(c.(version := b.version)) && c.version == b.version + 1;
    OpRaisesRank(op, b);
  }

  lemma {:induction false} CountConcat(a: seq<Out>, b: seq<Out>, id: Id)
    ensures Releases(a + b, id) == Releases(a, id) + Releases(b, id)
    ensures Cancellations(a + b, id) == Cancellations(a, id) + Cancellations(b, id)
    decreases |b|
  {
    if b == [] {
      assert a + b == a;
    } else {
      assert (a + b)[..|a + b| - 1] == a + b[..|b| - 1];
      CountConcat(a, b[..|b| - 1], id);
    }
  }

  lemma CountOne(o: Out, id: Id)
    ensures Releases([o], id) == if IsRelease(o, id) then 1 else 0
    ensures Cancellations([o], id) == if IsCancellation(o, id) then 1 else 0
  {
    assert [o][..0] == [];
    assert Releases([o][..0], id) == 0 && Cancellations([o][..0], id) == 0;
  }

  /** Handlers write at most two rows: a domain event, then a command. Only the event can be
      a cancellation and only the command a release. */
  predicate IsShort(outs: seq<Out>, id: Id) {
    |outs| <= 2 && (|outs| > 0 ==> !IsRelease(outs[0], id)) && (|outs| > 1 ==> !IsCancellation(outs[1], id))
  }

  predicate Cancels(outs: seq<Out>, id: Id) {
    |outs| > 0 && IsCancellation(outs[0], id)
  }

  predicate Releasing(outs: seq<Out>, id: Id) {
    |outs| > 1 && IsRelease(outs[1], id)
  }

  lemma CountShort(outs: seq<Out>, id: Id)
    requires IsShort(outs, id)
    ensures Releases(outs, id) == if Releasing(outs, id) then 1 else 0
    ensures Cancellations(outs, id) == if Cancels(outs, id) then 1 else 0
  {
    if |outs| == 1 {
      assert outs == [outs[0]];
      CountOne(outs[0], id);
    } else if |outs| == 2 {
      assert outs == [outs[0]] + [outs[1]];
      CountConcat([outs[0]], [outs[1]], id);
      CountOne(outs[0], id);
      CountOne(outs[1], id);
    }
  }

  lemma EffectIsShort(a: Action, b: Row, hasSaga: bool, overlap: bool, now: Time, id: Id, e: Effect)
    requires Decide(a, b, hasSaga, overlap, now) == Some(e)
    ensures IsShort(e.outs, id)
    ensures e.write.None? ==> !Releasing(e.outs, id) && !Cancels(e.outs, id)
  {
  }

  /** A release comes with a rejection of a pending booking. */
  lemma EffectReleases(a: Action, b: Row, hasSaga: bool, overlap: bool, now: Time, id: Id, e: Effect)
    requires Decide(a, b, hasSaga, overlap, now) == Some(e)
    ensures id != b.id ==> !Releasing(e.outs, id)
    ensures id == b.id && e.write.Some? ==> (Releasing(e.outs, id) <==> e.write.value.status == Rejected)
    ensures Releasing(e.outs, id) ==> b.status == Pending
  {
  }

  /** A cancellation event comes with a cancellation of a booking that was not cancelled yet. */
  lemma EffectCancels(a: Action, b: Row, hasSaga: bool, overlap: bool, now: Time, id: Id, e: Effect)
    requires Decide(a, b, hasSaga, overlap, now) == Some(e) && Cancels(e.outs, id)
    ensures id == b.id && b.status != Cancelled && e.write.Some? && e.write.value.status == Cancelled
  {
  }

  /** The saga state written by an effect fits the booking written with it. */
  lemma EffectCouples(a: Action, b: Row, hasSaga: bool, overlap: bool, now: Time, e: Effect)
    requires Decide(a, b, hasSaga, overlap, now) == Some(e) && e.saga.Some?
    ensures e.write.Some? ==> Coupled(e.saga.value, e.write.value.status)
    ensures e.write.None? ==> e.saga.value == WaitingForChat || e.saga.value == RevertingEscrow
  {
  }

  ghost predicate SoundCounts(e: Effect, b: Row, id: Id) {
    var r, c := Releases(e.outs, id), Cancellations(e.outs, id);
    && r <= 1 && c <= 1
    && (id != b.id || e.write.None? ==> r == 0 && c == 0)
    && (id == b.id && e.write.Some? ==> (r == 1 <==> e.write.value.status == Rejected))
    && (r == 1 ==> b.status == Pending)
    && (c == 1 ==> b.status != Cancelled && e.write.Some? && e.write.value.status == Cancelled)
  }

  /** All that the invariant needs to know about a handler. */
  ghost predicate Sound(e: Effect, b: Row) {
    && (e.write.Some? ==> Follows(b, e.write.value) && !e.opens)
    && (e.saga.Some? && e.write.Some? ==> Coupled(e.saga.value, e.write.value.status))
    && (e.saga.Some? && e.write.None? ==> e.saga.value == WaitingForChat || e.saga.value == RevertingEscrow)
    && (forall id :: SoundCounts(e, b, id))
  }

  lemma HandlersAreSound(a: Action, b: Row, hasSaga: bool, overlap: bool, now: Time, e: Effect)
    requires Decide(a, b, hasSaga, overlap, now) == Some(e)
    ensures Sound(e, b)
  {
    if e.write.Some? {
      WriteFollows(a, b, hasSaga, overlap, now);
    }
    if e.saga.Some? {
      EffectCouples(a, b, hasSaga, overlap, now, e);
    }
    forall id ensures SoundCounts(e, b, id) {
      EffectIsShort(a, b, hasSaga, overlap, now, id, e);
      EffectReleases(a, b, hasSaga, overlap, now, id, e);
      if Cancels(e.outs, id) {
        EffectCancels(a, b, hasSaga, overlap, now, id, e);
      }
      CountShort(e.outs, id);
    }
  }

  // ----- The invariant is kept

  /** A write that passes the version check was computed from the stored row. */
  lemma GuardIsFresh(w: World, snap: Snapshot)
    requires Inv(w) && IsPast(w, snap) && Last(w.history[snap.row.id]).version == snap.row.version
    ensures Last(w.history[snap.row.id]) == snap.row
  {
    assert Legal(snap.row.id, w.history[snap.row.id]);
  }

  lemma LegalSnoc(id: Id, h: seq<Row>, c: Row)
    requires Legal(id, h) && Follows(Last(h), c)
    ensures Legal(id, h + [c])
  {
    FollowsFacts(Last(h), c);
    var g := h + [c];
    forall i | 0 < i < |g| ensures Linked(g, i) {
      if i < |h| {
        assert Linked(h, i);
      }
    }
  }

  lemma RacedSnoc(h: seq<Row>, c: Row, r: nat, k: nat, r': nat, k': nat)
    requires h != [] && Raced(h, r, k) && Follows(Last(h), c)
    requires r' <= 1 && k' <= 1
    requires r' == 1 <==> c.status == Rejected
    requires r' == 1 ==> Last(h).status == Pending
    requires k' == 1 ==> Last(h).status != Cancelled && c.status == Cancelled
    ensures Raced(h + [c], r + r', k + k')
  {
    FollowsFacts(Last(h), c);
    assert (h + [c])[..|h|] == h;
  }

  /** Growing a booking's history keeps snapshots and every saga other than the written one. */
  lemma GrownHistory(w: World, v: World, snap: Snapshot, c: Row, state: Option<SagaState>)
    requires HistoriesOk(w) && SnapshotsOk(w) && SagasOk(w) && IsPast(w, snap)
    requires v.held == w.held && Follows(Last(w.history[snap.row.id]), c)
    requires v.history == w.history[snap.row.id := w.history[snap.row.id] + [c]]
    requires v.sagas == if state.Some? && snap.saga.Some?
                        then w.sagas[snap.saga.value := w.sagas[snap.saga.value].(state := state.value)] else w.sagas
    requires state.Some? ==> Coupled(state.value, c.status)
    ensures HistoriesOk(v) && SnapshotsOk(v) && SagasOk(v)
  {
    var id, h := snap.row.id, w.history[snap.row.id];
    assert Legal(id, h);
    LegalSnoc(id, h, c);
    FollowsFacts(Last(h), c);
    forall a | a in v.held ensures IsPast(v, v.held[a]) {
      assert IsPast(w, w.held[a]);
    }
    forall i | 0 <= i < |v.sagas|
      ensures Stored(v, v.sagas[i].booking) && Coupled(v.sagas[i].state, Last(v.history[v.sagas[i].booking]).status)
    {
      assert Stored(w, w.sagas[i].booking);
    }
  }

  /** A committed write of a booking. */
  lemma WriteStep(w: World, snap: Snapshot, e: Effect)
    requires Inv(w) && IsPast(w, snap) && Sound(e, snap.row) && e.write.Some?
    requires Last(w.history[snap.row.id]).version == snap.row.version
    ensures Inv(Write(w, snap, e))
  {
    var id, h, c, v := snap.row.id, w.history[snap.row.id], e.write.value, Write(w, snap, e);
    GuardIsFresh(w, snap);
    GrownHistory(w, v, snap, c, e.saga);
    forall i ensures OutboxOkFor(v, i) {
      assert OutboxOkFor(w, i) && SoundCounts(e, snap.row, i);
      CountConcat(w.outbox, e.outs, i);
      if i == id {
        RacedSnoc(h, c, Releases(w.outbox, id), Cancellations(w.outbox, id), Releases(e.outs, id), Cancellations(e.outs, id));
      }
    }
  }

  /** A commit that writes no booking. */
  lemma NoteStep(w: World, snap: Snapshot, e: Effect)
    requires Inv(w) && IsPast(w, snap) && Sound(e, snap.row) && e.write.None?
    ensures Inv(Write(w, snap, e))
  {
    var v := Write(w, snap, e);
    assert Legal(snap.row.id, w.history[snap.row.id]);
    assert SagasOk(v);
    forall a | a in v.held ensures IsPast(v, v.held[a]) {
      assert IsPast(w, w.held[a]);
    }
    forall i ensures OutboxOkFor(v, i) {
      assert OutboxOkFor(w, i) && SoundCounts(e, snap.row, i);
      CountConcat(w.outbox, e.outs, i);
    }
  }

  lemma RequestStep(w: World, row: Row)
    requires Inv(w) && Enabled(w, Request(row))
    ensures Inv(Next(w, Request(row)))
  {
    var v := Next(w, Request(row));
    var o := BookingRequested(row.id, row.price);
    forall i ensures OutboxOkFor(v, i) {
      assert OutboxOkFor(w, i);
      CountConcat(w.outbox, [o], i);
      CountOne(o, i);
      if i == row.id {
        assert [row][..0] == [] && !EverAccepted([row]);
      }
    }
    forall a | a in v.held ensures IsPast(v, v.held[a]) {
      assert IsPast(w, w.held[a]);
    }
  }

  lemma InvStep(w: World, st: Step)
    requires Inv(w) && Enabled(w, st)
    ensures Inv(Next(w, st))
  {
    match st
    case Request(row) => RequestStep(w, row);
    case Read(agent, booking, saga) =>
      var v := Next(w, st);
      assert Legal(booking, w.history[booking]);
      forall i ensures OutboxOkFor(v, i) {
        assert OutboxOkFor(w, i);
      }
    case Commit(agent, a, overlap, now) =>
      var snap := w.held[agent];
      assert IsPast(w, snap);
      match Decide(a, snap.row, snap.saga.Some?, overlap, now)
      case None =>
      case Some(e) =>
        HandlersAreSound(a, snap.row, snap.saga.Some?, overlap, now, e);
        if e.write.None? {
          NoteStep(w, snap, e);
        } else if Last(w.history[snap.row.id]).version == snap.row.version {
          WriteStep(w, snap, e);
        }
  }

  lemma {:induction false} InvRun(steps: seq<Step>)
    requires IsRun(START, steps)
    ensures Inv(Run(START, steps))
    decreases |steps|
  {
    if steps != [] {
      InvRun(steps[..|steps| - 1]);
      InvStep(Run(START, steps[..|steps| - 1]), steps[|steps| - 1]);
    }
  }

  // ----- The theorems

  function StatusChanges(h: seq<Row>): nat {
    if |h| < 2 then 0
    else StatusChanges(h[..|h| - 1]) + if h[|h| - 2].status != h[|h| - 1].status then 1 else 0
  }

  lemma {:induction false} ChangesBound(id: Id, h: seq<Row>)
    requires Legal(id, h)
    ensures StatusChanges(h) <= Rank(Last(h).status)
    decreases |h|
  {
    if |h| > 1 {
      var front := h[..|h| - 1];
      forall i | 0 < i < |front| ensures Linked(front, i) {
        assert Linked(h, i);
      }
      ChangesBound(id, front);
      assert Linked(h, |h| - 1);
      FollowsFacts(h[|h| - 2], h[|h| - 1]);
    }
  }

  /** Optimistic locking gives legal histories: under any interleaving of stale snapshots
      the committed versions are consecutive, each row follows the one before by one
      aggregate method, the rank of the status strictly rises except from CANCELLED to
      CANCELLED, and the status changes at most five times. */
  lemma LegalHistories(steps: seq<Step>, id: Id)
    requires IsRun(START, steps) && id in Run(START, steps).history
    ensures var h := Run(START, steps).history[id];
      Legal(id, h) && (forall i :: 0 < i < |h| ==> Rises(h, i)) && StatusChanges(h) <= 5
  {
    InvRun(steps);
    var h := Run(START, steps).history[id];
    ChangesBound(id, h);
    forall i | 0 < i < |h| ensures Rises(h, i) {
      assert Linked(h, i);
      FollowsFacts(h[i - 1], h[i]);
    }
  }

  predicate Rises(h: seq<Row>, i: nat)
    requires 0 < i < |h|
  {
    Rank(h[i - 1].status) < Rank(h[i].status) || (h[i - 1].status == Cancelled && h[i].status == Cancelled)
  }

  /** Sagas and bookings stay coupled, in any event order and with any number of accepts. */
  lemma SagasStayCoupled(steps: seq<Step>, i: nat)
    requires IsRun(START, steps) && i < |Run(START, steps).sagas|
    ensures var w := Run(START, steps);
      var saga := w.sagas[i];
      && Stored(w, saga.booking)
      && (saga.state == SagaCompleted ==>
            var s := Last(w.history[saga.booking]).status;
            s != PendingReserving && s != Pending && s != Rejected)
      && (saga.state == FailedTechnical || saga.state == FailedRequiresAdmin ==>
            Last(w.history[saga.booking]).status == Cancelled)
  {
    InvRun(steps);
  }

  /** Racing accept, reject, timeout and cancel: the reject and timeout handlers together
      release the coins of a booking at most once, exactly once if it is rejected, never if
      it was accepted; and at most one cancellation event is ever written. */
  lemma RacesAreSafe(steps: seq<Step>, id: Id)
    requires IsRun(START, steps) && id in Run(START, steps).history
    ensures var w := Run(START, steps);
      var r := Releases(w.outbox, id);
      && w.history[id] != []
      && r <= 1 && (Last(w.history[id]).status == Rejected ==> r == 1) && (EverAccepted(w.history[id]) ==> r == 0)
      && Cancellations(w.outbox, id) <= 1
  {
    InvRun(steps);
    var w := Run(START, steps);
    assert Legal(id, w.history[id]) && OutboxOkFor(w, id);
  }
}
