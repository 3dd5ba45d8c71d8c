/** The leased outbox: workers fetch batches of unpublished rows under a one-minute lease,
    publish them, mark or release them; workers crash, updates fail, the clock advances and
    a cleanup worker deletes old published rows. */
module Outbox {
  import opened Prelude

  type Id = string
  type Time = int  // seconds

  const LEASE: Time := 60

  datatype Row = Row(published: bool, publishedAt: Time, lockedUntil: Option<Time>)

  const FRESH := Row(false, 0, None)

  /** What a worker still has to publish, and whether the first of it was already sent. */
  datatype Batch = Batch(ids: seq<Id>, fetchedAt: Time, sent: bool)

  /** `sent` holds the ids handed to the broker; `inserted` all ids ever written;
      `fetched` when each row was last fetched. */
  datatype World = World(
    now: Time, rows: map<Id, Row>, batches: map<Id, Batch>, sent: set<Id>, inserted: set<Id>, fetched: map<Id, Time>)

  const START := World(0, map[], map[], {}, {}, map[])

  datatype Step =
    | Insert(id: Id)
    | Tick(seconds: nat)
    | Fetch(worker: Id, ids: seq<Id>)          // the transaction that selects and leases
    | Send(worker: Id)                         // the broker accepts the first event
    | Mark(worker: Id, written: bool)          // after a send: mark published, or lose the update
    | Release(worker: Id, written: bool)       // after a failed send: drop the lease, or lose the update
    | Crash(worker: Id)
    | Cleanup(cutoff: Time)

  predicate Eligible(r: Row, now: Time) {
    !r.published && (r.lockedUntil.None? || r.lockedUntil.value < now)
  }

  ghost predicate Distinct(ids: seq<Id>) {
    forall i, j :: 0 <= i < j < |ids| ==> ids[i] != ids[j]
  }

  predicate Busy(w: World, worker: Id) {
    worker in w.batches && w.batches[worker].ids != []
  }

  ghost predicate Enabled(w: World, st: Step) {
    match st
    case Insert(id) => id !in w.inserted
    case Tick(_) => true
    case Fetch(worker, ids) =>
      && worker !in w.batches && Distinct(ids)
      && forall i :: 0 <= i < |ids| ==> ids[i] in w.rows && Eligible(w.rows[ids[i]], w.now)
    case Send(worker) => Busy(w, worker) && !w.batches[worker].sent
    case Mark(worker, _) => Busy(w, worker) && w.batches[worker].sent
    case Release(worker, _) => Busy(w, worker) && !w.batches[worker].sent
    case Crash(worker) => worker in w.batches
    case Cleanup(cutoff) => cutoff <= w.now
  }

  /** An update of a row that may have been deleted affects no row then. */
  function SetRow(rows: map<Id, Row>, id: Id, r: Row): map<Id, Row> {
    if id in rows then rows[id := r] else rows
  }

  /** Lease the selected rows until one minute from now. */
  function Lease(rows: map<Id, Row>, ids: seq<Id>, until: Time): map<Id, Row> {
    map id | id in rows :: if id in ids then rows[id].(lockedUntil := Some(until)) else rows[id]
  }

  /** The first event of the batch is done with. */
  function Advance(batches: map<Id, Batch>, worker: Id): map<Id, Batch>
    requires worker in batches && batches[worker].ids != []
  {
    var b := batches[worker];
    if |b.ids| == 1 then batches - {worker} else batches[worker := Batch(b.ids[1..], b.fetchedAt, false)]
  }

  function Next(w: World, st: Step): World
    requires Enabled(w, st)
  {
    match st
    case Insert(id) => w.(rows := w.rows[id := FRESH], inserted := w.inserted + {id})
    case Tick(seconds) => w.(now := w.now + seconds)
    case Fetch(worker, ids) =>
      if ids == [] then w
      else w.(rows := Lease(w.rows, ids, w.now + LEASE),
              batches := w.batches[worker := Batch(ids, w.now, false)],
              fetched := w.fetched + map id | id in ids :: w.now)
    case Send(worker) =>
      var b := w.batches[worker];
      w.(sent := w.sent + {b.ids[0]}, batches := w.batches[worker := b.(sent := true)])
    case Mark(worker, written) =>
      var id := w.batches[worker].ids[0];
      w.(rows := if written then SetRow(w.rows, id, Row(true, w.now, None)) else w.rows,
         batches := Advance(w.batches, worker))
    case Release(worker, written) =>
      var id := w.batches[worker].ids[0];
      w.(rows := if written && id in w.rows then w.rows[id := w.rows[id].(lockedUntil := None)] else w.rows,
         batches := Advance(w.batches, worker))
    case Crash(worker) => w.(batches := w.batches - {worker})
    case Cleanup(cutoff) =>
      w.(rows := map id | id in w.rows && !(w.rows[id].published && w.rows[id].publishedAt < cutoff) :: w.rows[id])
  }

  ghost predicate IsRun(w: World, steps: seq<Step>)
    decreases |steps|, 0
  {
    steps == [] || (IsRun(w, steps[..|steps| - 1]) && Enabled(Run(w, steps[..|steps| - 1]), steps[|steps| - 1]))
  }

  ghost function Run(w: World, steps: seq<Step>): World
    requires IsRun(w, steps)
    decreases |steps|, 1
  {
    if steps == [] then w else Next(Run(w, steps[..|steps| - 1]), steps[|steps| - 1])
  }

  // ----- No event is lost

  ghost predicate RowOk(w: World, id: Id) {
    && (id in w.rows ==> id in w.inserted)
    // published or deleted only after it was sent
    && (id in w.rows && w.rows[id].published ==> id in w.sent)
    && (id in w.inserted && id !in w.rows ==> id in w.sent)
    // a lease ends one minute after the fetch that set it
    && (id in w.rows && w.rows[id].lockedUntil.Some? ==>
          id in w.fetched && w.fetched[id] <= w.now && w.rows[id].lockedUntil.value == w.fetched[id] + LEASE)
  }

  ghost predicate BatchOk(w: World, worker: Id)
    requires worker in w.batches
  {
    var b := w.batches[worker];
    && b.ids != [] && b.fetchedAt <= w.now
    && (b.sent ==> b.ids[0] in w.sent)
    && (forall i :: 0 <= i < |b.ids| ==> b.ids[i] in w.inserted)
  }

  ghost predicate Inv(w: World) {
    (forall id :: RowOk(w, id)) && (forall k :: k in w.batches ==> BatchOk(w, k))
  }

  lemma RowStep(w: World, st: Step, id: Id)
    requires Inv(w) && Enabled(w, st)
    ensures RowOk(Next(w, st), id)
  {
    assert RowOk(w, id);
    if st.Mark? {
      assert BatchOk(w, st.worker);
    }
  }

  lemma BatchStep(w: World, st: Step, k: Id)
    requires Inv(w) && Enabled(w, st) && k in Next(w, st).batches
    ensures BatchOk(Next(w, st), k)
  {
    if k in w.batches {
      assert BatchOk(w, k);
    } else if st.Fetch? {
      forall i | 0 <= i < |st.ids| ensures st.ids[i] in w.inserted {
        assert RowOk(w, st.ids[i]);
      }
    }
  }

  lemma {:induction false} InvRun(steps: seq<Step>)
    requires IsRun(START, steps)
    ensures Inv(Run(START, steps))
    decreases |steps|
  {
    if steps != [] {
      var w, st := Run(START, steps[..|steps| - 1]), steps[|steps| - 1];
      InvRun(steps[..|steps| - 1]);
      forall id ensures RowOk(Next(w, st), id) {
        RowStep(w, st, id);
      }
      forall k | k in Next(w, st).batches ensures BatchOk(Next(w, st), k) {
        BatchStep(w, st, k);
      }
    }
  }

  /** The outbox never loses an event: a row that is marked published or gone was sent, and
      an unsent row is still there, unpublished, with a lease that ends at most one minute
      after the fetch that set it, so that it can be fetched again at the latest then. */
  lemma NothingIsLost(steps: seq<Step>, id: Id)
    requires IsRun(START, steps) && id in Run(START, steps).inserted
    ensures var w := Run(START, steps);
      && (id !in w.rows || w.rows[id].published ==> id in w.sent)
      && (id !in w.sent ==>
            && id in w.rows && !w.rows[id].published
            && (w.rows[id].lockedUntil.Some? ==>
                  id in w.fetched && w.rows[id].lockedUntil.value == w.fetched[id] + 60 <= w.now + 60)
            && forall later :: later > w.now + 60 ==> Eligible(w.rows[id], later))
  {
    InvRun(steps);
    assert RowOk(Run(START, steps), id);
  }

  // ----- A marked row is done with

  /** A row that is still there when its update is written is published now and free of its
      lease; one whose sending failed can be fetched again at once. */
  lemma MarkOrRelease(w: World, k: Id)
    requires Busy(w, k) && w.batches[k].ids[0] in w.rows
    ensures var id := w.batches[k].ids[0];
      && (w.batches[k].sent ==> id in Next(w, Mark(k, true)).rows && Next(w, Mark(k, true)).rows[id] == Row(true, w.now, None))
      && (!w.batches[k].sent && !w.rows[id].published ==>
            id in Next(w, Release(k, true)).rows && Eligible(Next(w, Release(k, true)).rows[id], w.now))
  {
  }

  /** The row is not waiting to be sent: it is marked, or deleted after it was. */
  predicate IsDone(w: World, id: Id) {
    id in w.inserted && (id in w.rows ==> w.rows[id].published)
  }

  lemma DoneStep(w: World, st: Step, id: Id)
    requires Enabled(w, st) && IsDone(w, id)
    ensures IsDone(Next(w, st), id)
  {
  }

  /** Once marked, a row is never unmarked, whatever other workers, crashes and late batches do:
      in every later state no fetch can take it, so it is not sent over and over. */
  lemma {:induction false} DoneStaysDone(w: World, steps: seq<Step>, id: Id, worker: Id, ids: seq<Id>)
    requires IsRun(w, steps) && IsDone(w, id)
    ensures IsDone(Run(w, steps), id)
    ensures id in ids ==> !Enabled(Run(w, steps), Fetch(worker, ids))
    decreases |steps|
  {
    if steps != [] {
      var front := steps[..|steps| - 1];
      DoneStaysDone(w, front, id, worker, ids);
      DoneStep(Run(w, front), steps[|steps| - 1], id);
    }
    if id in ids {
      var i :| 0 <= i < |ids| && ids[i] == id;
      assert Enabled(Run(w, steps), Fetch(worker, ids)) ==> ids[i] in Run(w, steps).rows && Eligible(Run(w, steps).rows[ids[i]], Run(w, steps).now);
    }
  }

  // ----- No event is in two batches at once, if batches finish within their lease

  /** Every batch in flight is still within its lease. */
  ghost predicate Timely(w: World) {
    forall k :: k in w.batches ==> w.now <= w.batches[k].fetchedAt + LEASE
  }

  ghost predicate IsTimelyRun(steps: seq<Step>)
    decreases |steps|
  {
    && IsRun(START, steps) && Timely(Run(START, steps))
    && (steps == [] || IsTimelyRun(steps[..|steps| - 1]))
  }

  /** Everything a worker still has to publish is leased to it. */
  ghost predicate Leased(w: World, k: Id)
    requires k in w.batches
  {
    var b := w.batches[k];
    && Distinct(b.ids)
    && forall i :: 0 <= i < |b.ids| ==>
         b.ids[i] in w.rows && !w.rows[b.ids[i]].published && w.rows[b.ids[i]].lockedUntil == Some(b.fetchedAt + LEASE)
  }

  ghost predicate Apart(w: World, k: Id, l: Id)
    requires k in w.batches && l in w.batches
  {
    k != l ==> forall i, j :: 0 <= i < |w.batches[k].ids| && 0 <= j < |w.batches[l].ids| ==>
                 w.batches[k].ids[i] != w.batches[l].ids[j]
  }

  ghost predicate Exclusive(w: World) {
    && (forall k :: k in w.batches ==> Leased(w, k))
    && (forall k, l :: k in w.batches && l in w.batches ==> Apart(w, k, l))
  }

  /** A worker fetches a row that is in another worker's batch. */
  ghost predicate Steals(w: World, st: Step) {
    st.Fetch? && exists k, id :: k in w.batches && id in w.batches[k].ids && id in st.ids
  }

  /** While every row is in one batch, a row in flight can be fetched if and only if its batch
      has outlived its lease. */
  lemma SharedIffLate(w: World, k: Id, id: Id, l: Id)
    requires Exclusive(w) && k in w.batches && l !in w.batches && id in w.batches[k].ids
    ensures Enabled(w, Fetch(l, [id])) <==> w.now > w.batches[k].fetchedAt + LEASE
  {
    assert Leased(w, k);
    assert [id][0] == id;
    assert Enabled(w, Fetch(l, [id])) ==> Eligible(w.rows[[id][0]], w.now);
  }

  lemma TimelyNeverSteals(w: World, st: Step)
    requires Exclusive(w) && Timely(w) && Enabled(w, st)
    ensures !Steals(w, st)
  {
    if st.Fetch? {
      forall k, id | k in w.batches && id in w.batches[k].ids ensures id !in st.ids {
        SharedIffLate(w, k, id, st.worker);
      }
    }
  }

  /** Another worker's step does not touch a leased row. */
  lemma LeasedByOther(w: World, st: Step, k: Id)
    requires Inv(w) && Exclusive(w) && Enabled(w, st) && !Steals(w, st) && k in w.batches && k in Next(w, st).batches
    requires (st.Mark? || st.Release?) && st.worker != k
    ensures Leased(Next(w, st), k)
  {
    assert Leased(w, k) && Apart(w, k, st.worker);
  }

  lemma LeasedByOwn(w: World, st: Step, k: Id)
    requires Inv(w) && Exclusive(w) && Enabled(w, st) && !Steals(w, st) && k in w.batches && k in Next(w, st).batches
    requires (st.Mark? || st.Release?) && st.worker == k
    ensures Leased(Next(w, st), k)
  {
    assert Leased(w, k);
  }

  lemma LeasedStep(w: World, st: Step, k: Id)
    requires Inv(w) && Exclusive(w) && Enabled(w, st) && !Steals(w, st) && k in Next(w, st).batches
    ensures Leased(Next(w, st), k)
  {
    if st.Mark? || st.Release? {
      if st.worker == k {
        LeasedByOwn(w, st, k);
      } else {
        LeasedByOther(w, st, k);
      }
    } else if k in w.batches {
      assert Leased(w, k);
      if st.Insert? {
        assert RowOk(w, st.id);
      }
    }
  }

  lemma ApartStep(w: World, st: Step, k: Id, l: Id)
    requires Inv(w) && Exclusive(w) && Enabled(w, st) && !Steals(w, st) && k in Next(w, st).batches && l in Next(w, st).batches
    ensures Apart(Next(w, st), k, l)
  {
    var v := Next(w, st);
    if k in w.batches && l in w.batches {
      assert Apart(w, k, l);
    } else if k != l {
      assert st.Fetch? && (k == st.worker || l == st.worker);
      forall i, j | 0 <= i < |v.batches[k].ids| && 0 <= j < |v.batches[l].ids|
        ensures v.batches[k].ids[i] != v.batches[l].ids[j]
      {
        assert v.batches[k].ids[i] in v.batches[k].ids && v.batches[l].ids[j] in v.batches[l].ids;
      }
    }
  }

  /** From a state with every row in one batch, exactly the fetches of rows in flight break that. */
  lemma ExclusiveStepIff(w: World, st: Step)
    requires Inv(w) && Exclusive(w) && Enabled(w, st)
    ensures Exclusive(Next(w, st)) <==> !Steals(w, st)
  {
    var v := Next(w, st);
    if Steals(w, st) {
      var k, id :| k in w.batches && id in w.batches[k].ids && id in st.ids;
      assert k in v.batches && st.worker in v.batches && v.batches[st.worker].ids == st.ids && v.batches[k] == w.batches[k];
      assert !Apart(v, k, st.worker);
    } else {
      forall k | k in v.batches ensures Leased(v, k) {
        LeasedStep(w, st, k);
      }
      forall k, l | k in v.batches && l in v.batches ensures Apart(v, k, l) {
        ApartStep(w, st, k, l);
      }
    }
  }

  lemma {:induction false} ExclusiveRun(steps: seq<Step>)
    requires IsTimelyRun(steps)
    ensures Exclusive(Run(START, steps))
    decreases |steps|
  {
    if steps != [] {
      var w, st := Run(START, steps[..|steps| - 1]), steps[|steps| - 1];
      InvRun(steps[..|steps| - 1]);
      ExclusiveRun(steps[..|steps| - 1]);
      TimelyNeverSteals(w, st);
      ExclusiveStepIff(w, st);
    }
  }

  /** In a run where batches finish within their lease, no row is in two batches at once. */
  lemma NoRowInTwoBatches(steps: seq<Step>, k: Id, l: Id, id: Id)
    requires IsTimelyRun(steps)
    requires k in Run(START, steps).batches && l in Run(START, steps).batches && k != l
    ensures !(id in Run(START, steps).batches[k].ids && id in Run(START, steps).batches[l].ids)
  {
    ExclusiveRun(steps);
    assert Apart(Run(START, steps), k, l);
  }

  lemma RunSnoc(w: World, steps: seq<Step>, st: Step)
    requires IsRun(w, steps) && Enabled(Run(w, steps), st)
    ensures IsRun(w, steps + [st]) && Run(w, steps + [st]) == Next(Run(w, steps), st)
  {
    assert (steps + [st])[..|steps|] == steps;
  }

  /** A batch that outlives its lease shares its row: `a` fetches it, waits, and `b` fetches it. */
  function Share(id: Id, a: Id, b: Id, seconds: nat): seq<Step> {
    [Fetch(a, [id])] + [Tick(seconds)] + [Fetch(b, [id])]
  }

  /** Then the release of `a`, which does not ask whose lease it drops, frees the row for `c`. */
  function Spread(id: Id, a: Id, b: Id, c: Id, seconds: nat): seq<Step> {
    Share(id, a, b, seconds) + [Release(a, true)] + [Fetch(c, [id])]
  }

  lemma LateShares(steps: seq<Step>, id: Id, a: Id, b: Id, seconds: nat)
    requires IsRun(START, steps) && seconds > LEASE && a != b
    requires var w := Run(START, steps);
      id in w.rows && Eligible(w.rows[id], w.now) && a !in w.batches && b !in w.batches
    ensures IsRun(START, steps + Share(id, a, b, seconds))
    ensures var w, v := Run(START, steps), Run(START, steps + Share(id, a, b, seconds));
      && id in v.rows && !v.rows[id].published
      && v.batches == w.batches[a := Batch([id], w.now, false)][b := Batch([id], v.now, false)]
  {
    var w1 := Fetched(START, steps, a, id);
    RunSnoc(START, steps + [Fetch(a, [id])], Tick(seconds));
    var w2 := Next(w1, Tick(seconds));
    assert Eligible(w2.rows[id], w2.now);
    var w3 := Fetched(START, steps + [Fetch(a, [id])] + [Tick(seconds)], b, id);
    assert steps + Share(id, a, b, seconds) == steps + [Fetch(a, [id])] + [Tick(seconds)] + [Fetch(b, [id])];
  }

  lemma ReleaseFrees(w: World, a: Id, id: Id)
    requires a in w.batches && w.batches[a].ids == [id] && !w.batches[a].sent && id in w.rows && !w.rows[id].published
    ensures Enabled(w, Release(a, true))
    ensures var v := Next(w, Release(a, true));
      v.now == w.now && v.batches == w.batches - {a} && id in v.rows && Eligible(v.rows[id], v.now)
  {
  }

  /** So one late batch can make a punctual batch share its rows: after such a run from any
      reachable state, `b` and `c` have the row, both within their lease. */
  lemma LateReleaseSpreads(steps: seq<Step>, id: Id, a: Id, b: Id, c: Id, seconds: nat)
    requires IsRun(START, steps) && seconds > LEASE && a != b && b != c && a != c
    requires var w := Run(START, steps);
      id in w.rows && Eligible(w.rows[id], w.now) && a !in w.batches && b !in w.batches && c !in w.batches
    ensures IsRun(START, steps + Spread(id, a, b, c, seconds))
    ensures var w := Run(START, steps + Spread(id, a, b, c, seconds));
      && b in w.batches && id in w.batches[b].ids && w.now <= w.batches[b].fetchedAt + LEASE
      && c in w.batches && id in w.batches[c].ids && w.now <= w.batches[c].fetchedAt + LEASE
  {
    LateShares(steps, id, a, b, seconds);
    var shared := steps + Share(id, a, b, seconds);
    var w := Run(START, shared);
    RunSnoc(START, shared, Release(a, true));
    ReleaseFrees(w, a, id);
    var u := Fetched(START, shared + [Release(a, true)], c, id);
    assert u.batches[b] == w.batches[b];
    assert steps + Spread(id, a, b, c, seconds) == shared + [Release(a, true)] + [Fetch(c, [id])];
  }

  /** The world after one row is fetched. */
  ghost function Fetched(w0: World, steps: seq<Step>, k: Id, id: Id): (v: World)
    requires IsRun(w0, steps)
    requires var w := Run(w0, steps); id in w.rows && Eligible(w.rows[id], w.now) && k !in w.batches
    ensures IsRun(w0, steps + [Fetch(k, [id])]) && Run(w0, steps + [Fetch(k, [id])]) == v
    ensures var w := Run(w0, steps);
      && v.now == w.now && id in v.rows && v.rows[id] == w.rows[id].(lockedUntil := Some(w.now + LEASE))
      && v.batches == w.batches[k := Batch([id], w.now, false)]
  {
    RunSnoc(w0, steps, Fetch(k, [id]));
    Next(Run(w0, steps), Fetch(k, [id]))
  }

  /** Such a state is one step away: a new row. */
  lemma InsertedIsEligible()
    ensures IsRun(START, [Insert("r")])
    ensures var w := Run(START, [Insert("r")]);
      "r" in w.rows && Eligible(w.rows["r"], w.now) && w.batches == map[]
  {
    RunSnoc(START, [], Insert("r"));
    assert [] + [Insert("r")] == [Insert("r")];
  }

  // ----- The worker

  /** How publishing one event turns out: whether the broker takes it, how long that takes,
      and whether the update of the row afterwards is written. */
  datatype Outcome = Outcome(taken: bool, seconds: nat, written: bool)

  /** `processBatch` over the shared table. Only `rows`, `sent` and the clock are real. */
  class OutboxWorker {
    var now: Time
    var rows: map<Id, Row>
    var sent: set<Id>
    ghost var batches: map<Id, Batch>
    ghost var inserted: set<Id>
    ghost var fetched: map<Id, Time>

    constructor ()
      ensures State() == START
    {
      now, rows, sent, batches, inserted, fetched := 0, map[], {}, map[], {}, map[];
    }

    ghost function State(): World
      reads this
    {
      World(now, rows, batches, sent, inserted, fetched)
    }

    /** `runCleanup`: published rows older than the retention go. */
    method RunCleanup(retentionDays: nat)
      modifies this`rows
      ensures Enabled(old(State()), Cleanup(now - retentionDays * 86400))
      ensures State() == Next(old(State()), Cleanup(now - retentionDays * 86400))
      ensures forall id :: id in rows <==>
        id in old(rows) && (!old(rows)[id].published || now - old(rows)[id].publishedAt <= retentionDays * 86400)
      ensures forall id :: id in rows ==> rows[id] == old(rows)[id]
    {
      var cutoff := now - retentionDays * 86400;
      rows := map id | id in rows && !(rows[id].published && rows[id].publishedAt < cutoff) :: rows[id];
    }

    /** The selected rows get their lease in one transaction. */
    method LeaseRows(ids: seq<Id>)
      requires forall i :: 0 <= i < |ids| ==> ids[i] in rows
      modifies this`rows
      ensures rows == Lease(old(rows), ids, now + LEASE)
    {
      for i := 0 to |ids|
        invariant rows == Lease(old(rows), ids[..i], now + LEASE)
      {
        assert ids[..i + 1] == ids[..i] + [ids[i]];
        rows := rows[ids[i] := rows[ids[i]].(lockedUntil := Some(now + LEASE))];
      }
      assert ids[..|ids|] == ids;
    }

    method Elapse(seconds: nat, ghost w0: World, ghost before: seq<Step>) returns (ghost steps: seq<Step>)
      requires IsRun(w0, before) && State() == Run(w0, before)
      modifies this`now
      ensures IsRun(w0, steps) && State() == Run(w0, steps)
    {
      RunSnoc(w0, before, Tick(seconds));
      steps := before + [Tick(seconds)];
      now := now + seconds;
    }

    /** The broker takes the event. */
    method SendOne(worker: Id, id: Id, ghost w0: World, ghost before: seq<Step>) returns (ghost steps: seq<Step>)
      requires IsRun(w0, before) && State() == Run(w0, before)
      requires Busy(State(), worker) && batches[worker].ids[0] == id && !batches[worker].sent
      modifies this`sent, this`batches
      ensures IsRun(w0, steps) && State() == Run(w0, steps)
      ensures batches == old(batches)[worker := old(batches)[worker].(sent := true)] && sent == old(sent) + {id}
    {
      RunSnoc(w0, before, Send(worker));
      steps := before + [Send(worker)];
      sent := sent + {id};
      batches := batches[worker := batches[worker].(sent := true)];
    }

    /** The row of a sent event is marked published, if that update is written. */
    method MarkOne(worker: Id, id: Id, written: bool, ghost w0: World, ghost before: seq<Step>)
      returns (ghost steps: seq<Step>)
      requires IsRun(w0, before) && State() == Run(w0, before)
      requires Busy(State(), worker) && batches[worker].ids[0] == id && batches[worker].sent
      modifies this`rows, this`batches
      ensures IsRun(w0, steps) && State() == Run(w0, steps)
      ensures batches == Advance(old(batches), worker)
      ensures rows == if written && id in old(rows) then old(rows)[id := Row(true, now, None)] else old(rows)
    {
      RunSnoc(w0, before, Mark(worker, written));
      steps := before + [Mark(worker, written)];
      if written && id in rows {
        rows := rows[id := Row(true, now, None)];
      }
      batches := Advance(batches, worker);
    }

    /** The row of an event that was not sent loses its lease, if that update is written. */
    method ReleaseOne(worker: Id, id: Id, written: bool, ghost w0: World, ghost before: seq<Step>)
      returns (ghost steps: seq<Step>)
      requires IsRun(w0, before) && State() == Run(w0, before)
      requires Busy(State(), worker) && batches[worker].ids[0] == id && !batches[worker].sent
      modifies this`rows, this`batches
      ensures IsRun(w0, steps) && State() == Run(w0, steps)
      ensures batches == Advance(old(batches), worker)
      ensures rows == if written && id in old(rows) then old(rows)[id := old(rows)[id].(lockedUntil := None)] else old(rows)
    {
      RunSnoc(w0, before, Release(worker, written));
      steps := before + [Release(worker, written)];
      if written && id in rows {
        rows := rows[id := rows[id].(lockedUntil := None)];
      }
      batches := Advance(batches, worker);
    }

    /** Publish one event and mark it, or release it. */
    method PublishOne(worker: Id, id: Id, o: Outcome, ghost w0: World, ghost before: seq<Step>)
      returns (ghost steps: seq<Step>)
      requires IsRun(w0, before) && State() == Run(w0, before)
      requires Busy(State(), worker) && batches[worker].ids[0] == id && !batches[worker].sent
      modifies this
      ensures IsRun(w0, steps) && State() == Run(w0, steps)
      ensures batches == Advance(old(batches), worker) && old(sent) <= sent && (o.taken ==> id in sent)
      ensures rows.Keys == old(rows).Keys && forall k :: k in rows && k != id ==> rows[k] == old(rows)[k]
      ensures id in rows && o.written ==> if o.taken then rows[id] == Row(true, now, None) else rows[id].lockedUntil == None
      ensures id in rows && old(rows)[id].published ==> rows[id].published
    {
      steps := Elapse(o.seconds, w0, before);
      if o.taken {
        steps := SendOne(worker, id, w0, steps);
        steps := MarkOne(worker, id, o.written, w0, steps);
      } else {
        steps := ReleaseOne(worker, id, o.written, w0, steps);
      }
    }

    /** The loop over a fetched batch. */
    method PublishAll(worker: Id, ids: seq<Id>, outcomes: seq<Outcome>, ghost w0: World, ghost before: seq<Step>)
      returns (ghost steps: seq<Step>)
      requires IsRun(w0, before) && State() == Run(w0, before) && ids != [] && |outcomes| == |ids| && Distinct(ids)
      requires worker in batches && batches[worker].ids == ids && !batches[worker].sent
      requires forall j :: 0 <= j < |ids| ==> ids[j] in rows
      modifies this
      ensures IsRun(w0, steps) && State() == Run(w0, steps)
      ensures worker !in batches && rows.Keys == old(rows).Keys
      ensures Handled(rows, sent, ids, outcomes, |ids|)
    {
      steps := before;
      assert ids[0..] == ids;
      for i := 0 to |ids|
        invariant IsRun(w0, steps) && State() == Run(w0, steps)
        invariant i < |ids| ==> worker in batches && batches[worker].ids == ids[i..] && !batches[worker].sent
        invariant i == |ids| ==> worker !in batches
        invariant rows.Keys == old(rows).Keys && Handled(rows, sent, ids, outcomes, i)
      {
        ghost var was, gone := rows, sent;
        steps := PublishOne(worker, ids[i], outcomes[i], w0, steps);
        HandledNext(was, rows, gone, sent, ids, outcomes, i);
      }
    }

    /** A whole batch is a run of the state machine that ends with the batch done: every event
        the broker took was sent and is marked published if that update was written, and every
        other one is free again if its update was. */
    method ProcessBatch(worker: Id, ids: seq<Id>, outcomes: seq<Outcome>) returns (ghost steps: seq<Step>)
      requires Enabled(State(), Fetch(worker, ids)) && |outcomes| == |ids|
      modifies this
      ensures IsRun(old(State()), steps) && State() == Run(old(State()), steps)
      ensures worker !in batches && rows.Keys == old(rows).Keys
      ensures Handled(rows, sent, ids, outcomes, |ids|)
    {
      ghost var w0 := State();
      steps := [];
      if ids == [] {
        return;
      }
      RunSnoc(w0, [], Fetch(worker, ids));
      steps := [] + [Fetch(worker, ids)];
      LeaseRows(ids);
      batches := batches[worker := Batch(ids, now, false)];
      fetched := fetched + map id | id in ids :: now;
      steps := PublishAll(worker, ids, outcomes, w0, steps);
    }
  }

  /** The first `n` events of a batch were handled: sent and marked, or released, as far as the
      broker took them and the updates were written. */
  predicate Handled(rows: map<Id, Row>, sent: set<Id>, ids: seq<Id>, outcomes: seq<Outcome>, n: nat)
    requires n <= |ids| == |outcomes|
  {
    forall i :: 0 <= i < n ==>
      && (outcomes[i].taken ==> ids[i] in sent)
      && ids[i] in rows
      && (outcomes[i].written ==> if outcomes[i].taken then rows[ids[i]].published else rows[ids[i]].lockedUntil == None)
  }

  lemma HandledNext(was: map<Id, Row>, rows: map<Id, Row>, gone: set<Id>, sent: set<Id>, ids: seq<Id>, outcomes: seq<Outcome>, n: nat)
    requires n < |ids| == |outcomes| && Distinct(ids) && Handled(was, gone, ids, outcomes, n) && ids[n] in rows
    requires gone <= sent && rows.Keys == was.Keys && forall k :: k in rows && k != ids[n] ==> rows[k] == was[k]
    requires outcomes[n].taken ==> ids[n] in sent
    requires outcomes[n].written ==> if outcomes[n].taken then rows[ids[n]].published else rows[ids[n]].lockedUntil == None
    ensures Handled(rows, sent, ids, outcomes, n + 1)
  {
  }
}
