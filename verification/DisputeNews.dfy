/** What the dispute service publishes is what happened: every saga's events tell its port
    calls, every dispute's notices tell its decisions, and each command does what it says. */
module DisputeNews {
  import opened Prelude
  import opened DisputeSagas
  import opened Disputes
  import opened DisputeLaws

  // ----- Saga events tell the port calls

  /** An error text is kept, and is never empty unless an exception had none. */
  lemma ErrorsAreKept(kind: Kind, error: string)
    ensures error != "" ==> FinanceError(kind, Fails(error)) == error
    ensures FinanceError(kind, Fails(error)) != "" && InteractionError(kind, Fails(error)) != ""
    ensures FinanceError(kind, Throws(error)) == error && InteractionError(kind, Throws(error)) == error
  {
  }

  function ErrorOf(kind: Kind, call: Call): string
    requires !call.result.Succeeds?
  {
    if call.Finance? then FinanceError(kind, call.result) else InteractionError(kind, call.result)
  }

  /** What the `n`-th call of a saga is announced as: the steps that succeed, the error of one
      that fails and how often the interaction failed so far, and the end. */
  function Announced(kind: Kind, n: nat, call: Call): Event {
    match call
    case Finance(id, result) =>
      if result.Succeeds? then StepCompleted(id, Paying) else StepFailed(id, Paying, ErrorOf(kind, call), 0)
    case Interaction(id, result) =>
      if result.Succeeds? then Completed(id, kind) else StepFailed(id, Closing, ErrorOf(kind, call), n)
  }

  function AnnouncedFrom(kind: Kind, n: nat, calls: seq<Call>): seq<Event>
    decreases |calls|
  {
    if calls == [] then [] else [Announced(kind, n, calls[0])] + AnnouncedFrom(kind, n + 1, calls[1..])
  }

  lemma {:induction false} AnnouncedConcat(kind: Kind, n: nat, a: seq<Call>, b: seq<Call>)
    ensures AnnouncedFrom(kind, n, a + b) == AnnouncedFrom(kind, n, a) + AnnouncedFrom(kind, n + |a|, b)
    decreases |a|
  {
    if a == [] {
      assert a + b == b;
      assert [] + AnnouncedFrom(kind, n, b) == AnnouncedFrom(kind, n, b);
    } else {
      assert (a + b)[1..] == a[1..] + b;
      AnnouncedConcat(kind, n + 1, a[1..], b);
    }
  }

  function EventsOf(published: seq<Event>, id: Id): seq<Event> {
    if published == [] then []
    else
      var front := EventsOf(published[..|published| - 1], id);
      if published[|published| - 1].saga == id then front + [published[|published| - 1]] else front
  }

  lemma {:induction false} EventsConcat(a: seq<Event>, b: seq<Event>, id: Id)
    ensures EventsOf(a + b, id) == EventsOf(a, id) + EventsOf(b, id)
    decreases |b|
  {
    if b == [] {
      assert a + b == a;
    } else {
      assert (a + b)[..|a + b| - 1] == a + b[..|b| - 1];
      EventsConcat(a, b[..|b| - 1], id);
    }
  }

  lemma {:induction false} EventsOwn(events: seq<Event>, own: Id, id: Id)
    requires forall i :: 0 <= i < |events| ==> events[i].saga == own
    ensures EventsOf(events, id) == if id == own then events else []
    decreases |events|
  {
    if events != [] {
      EventsOwn(events[..|events| - 1], own, id);
    }
  }

  /** The saga's events are its calls' announcements, and the error on record is the last one's. */
  ghost predicate TellsCalls(s: Saga, calls: seq<Call>, events: seq<Event>) {
    && events == AnnouncedFrom(s.kind, 0, calls)
    && (s.lastError.Some? ==>
          calls != [] && !calls[|calls| - 1].result.Succeeds? && s.lastError.value == ErrorOf(s.kind, calls[|calls| - 1]))
  }

  ghost predicate SagaTold(db: Db, id: Id) {
    if id in db.sagas then TellsCalls(db.sagas[id], CallsOf(db.calls, id), EventsOf(db.published, id))
    else EventsOf(db.published, id) == []
  }

  ghost predicate SagasTold(db: Db) {
    forall id :: SagaTold(db, id)
  }

  lemma {:induction false} TwoAnnounced(kind: Kind, n: nat, a: Call, b: Call)
    ensures AnnouncedFrom(kind, n, [a]) == [Announced(kind, n, a)]
    ensures AnnouncedFrom(kind, n, [a, b]) == [Announced(kind, n, a), Announced(kind, n + 1, b)]
  {
    assert [a][1..] == [] && [b][1..] == [] && [a, b][1..] == [b];
    assert AnnouncedFrom(kind, n + 1, [b]) == [Announced(kind, n + 1, b)] + AnnouncedFrom(kind, n + 2, []);
    assert AnnouncedFrom(kind, n, [a]) == [Announced(kind, n, a)] + AnnouncedFrom(kind, n + 1, []);
    assert AnnouncedFrom(kind, n, [a, b]) == [Announced(kind, n, a)] + AnnouncedFrom(kind, n + 1, [b]);
  }

  /** A first pass announces its one or two calls. */
  lemma {:induction false} FirstTold(s: Saga, finance: Outcome, interaction: Outcome)
    requires s.state == Paying && s.retryCount == 0
    ensures var p := Process(s, finance, interaction);
      && TellsCalls(p.saga, p.calls, p.published)
      && forall i :: 0 <= i < |p.published| ==> p.published[i].saga == s.id
  {
    var f, i := Finance(s.id, finance), Interaction(s.id, interaction);
    TwoAnnounced(s.kind, 0, f, i);
    if finance.Succeeds? {
      var next := Process(s.(state := Closing, lastError := None), finance, interaction);
      assert next.calls == [i] && next.published == [Announced(s.kind, 1, i)];
      assert [f] + [i] == [f, i];
      assert [Announced(s.kind, 0, f)] + [Announced(s.kind, 1, i)] == [Announced(s.kind, 0, f), Announced(s.kind, 1, i)];
    }
  }

  /** A retry announces its one call, with the number of failures so far. */
  lemma {:induction false} RetryTold(s: Saga, calls: seq<Call>, events: seq<Event>, finance: Outcome, interaction: Outcome)
    requires Story(s, calls) && TellsCalls(s, calls, events)
    ensures var p := Process(s, finance, interaction);
      && TellsCalls(p.saga, calls + p.calls, events + p.published)
      && forall i :: 0 <= i < |p.published| ==> p.published[i].saga == s.id
  {
    var p := Process(s, finance, interaction);
    if s.state == Closing {
      var i := Interaction(s.id, interaction);
      AnnouncedConcat(s.kind, 0, calls, [i]);
      TwoAnnounced(s.kind, |calls|, i, i);
    } else {
      assert calls + [] == calls && events + [] == events;
    }
  }

  lemma {:induction false} SaveTold(db: Db, p: Processed)
    requires SagasTold(db)
    requires forall i :: 0 <= i < |p.calls| ==> p.calls[i].saga == p.saga.id
    requires forall i :: 0 <= i < |p.published| ==> p.published[i].saga == p.saga.id
    requires TellsCalls(p.saga, CallsOf(db.calls, p.saga.id) + p.calls, EventsOf(db.published, p.saga.id) + p.published)
    ensures SagasTold(Save(db, p))
  {
    forall id ensures SagaTold(Save(db, p), id) {
      assert SagaTold(db, id);
      CallsOfConcat(db.calls, p.calls, id);
      CallsOfOwn(p.calls, p.saga.id, id);
      EventsConcat(db.published, p.published, id);
      EventsOwn(p.published, p.saga.id, id);
      assert CallsOf(db.calls, id) + [] == CallsOf(db.calls, id);
      assert EventsOf(db.published, id) + [] == EventsOf(db.published, id);
    }
  }

  lemma {:induction false} NewTold(db: Db, p: Processed)
    requires Inv(db) && SagasTold(db) && p.saga.id !in db.sagas && TellsCalls(p.saga, p.calls, p.published)
    requires forall i :: 0 <= i < |p.calls| ==> p.calls[i].saga == p.saga.id
    requires forall i :: 0 <= i < |p.published| ==> p.published[i].saga == p.saga.id
    ensures SagasTold(Save(db, p))
  {
    assert StoryOf(db, p.saga.id) && SagaTold(db, p.saga.id);
    assert [] + p.calls == p.calls && [] + p.published == p.published;
    SaveTold(db, p);
  }

  lemma {:induction false} BeginTold(db: Db, s: Saga, finance: Outcome, interaction: Outcome)
    requires Inv(db) && SagasTold(db) && s.id !in db.sagas && s.state == Paying && s.retryCount == 0
    ensures SagasTold(Begin(db, s, finance, interaction))
  {
    FirstStory(s, finance, interaction);
    FirstTold(s, finance, interaction);
    ProcessKeepsIdentity(s, finance, interaction);
    NewTold(db, Process(s, finance, interaction));
  }

  lemma {:induction false} RetryKeepsTold(db: Db, task: Task)
    requires Inv(db) && SagasTold(db)
    ensures SagasTold(Retry(db, task))
  {
    if task.id in db.sagas {
      var s := db.sagas[task.id];
      assert StoryOf(db, task.id) && SagaTold(db, task.id);
      LongerStory(s, CallsOf(db.calls, task.id), task.finance, task.interaction);
      RetryTold(s, CallsOf(db.calls, task.id), EventsOf(db.published, task.id), task.finance, task.interaction);
      ProcessKeepsIdentity(s, task.finance, task.interaction);
      SaveTold(db, Process(s, task.finance, task.interaction));
    }
  }

  lemma {:induction false} RetryAllKeepsTold(db: Db, tasks: seq<Task>)
    requires Inv(db) && SagasTold(db)
    ensures SagasTold(RetryAll(db, tasks))
    decreases |tasks|
  {
    if tasks != [] {
      var front := tasks[..|tasks| - 1];
      RetryAllKeepsTold(db, front);
      RetryAllStep(db, front);
      RetryKeepsTold(RetryAll(db, front), tasks[|tasks| - 1]);
    }
  }

  // ----- Notices tell the decisions

  function NoticesOf(notices: seq<Notice>, id: Id): seq<Notice> {
    if notices == [] then []
    else
      var front := NoticesOf(notices[..|notices| - 1], id);
      if notices[|notices| - 1].dispute == id then front + [notices[|notices| - 1]] else front
  }

  lemma NoticesSnoc(notices: seq<Notice>, n: Notice, id: Id)
    ensures NoticesOf(notices + [n], id) == NoticesOf(notices, id) + if n.dispute == id then [n] else []
  {
    assert (notices + [n])[..|notices|] == notices;
    assert NoticesOf(notices, id) + [] == NoticesOf(notices, id);
  }

  /** The resolution that a status comes from. */
  function ResolutionFor(s: Status): Option<string> {
    match s
    case Refunded => Some("REFUND_CLIENT")
    case PaidOut => Some("PAYOUT_COMPANION")
    case Rejected => Some("REJECT")
    case _ => None
  }

  /** A dispute's row and its notices agree: reported for a valid reason, assigned once it is
      being resolved, and decided exactly once, by the admin and with the outcome on record. */
  ghost predicate TellsDispute(d: Dispute, ns: seq<Notice>) {
    && d.reason in {"NO_SHOW", "MISCONDUCT", "FRAUD", "OTHER"} && d.resolution == ResolutionFor(d.status)
    && |ns| == (match d.status case Open => 1 case Resolving => 2 case _ => 3)
    && ns[0] == ReportCreated(d.id, d.booking, d.reporter, d.accused, d.reason)
    && (d.admin.None? <==> d.status == Open)
    && (|ns| > 1 ==> ns[1].Assigned?)
    && (d.status == Resolving ==> ns[1] == Assigned(d.id, d.admin.value))
    && (IsFinal(d.status) ==> ns[2] == Decided(d.id, d.booking, d.status, d.admin.value, d.reporter, d.accused))
  }

  ghost predicate DisputeTold(s: State, id: Id) {
    if id in s.disputes then s.disputes[id].id == id && TellsDispute(s.disputes[id], NoticesOf(s.notices, id))
    else NoticesOf(s.notices, id) == []
  }

  lemma {:induction false} NoticeStep(s: State, t: State, id: Id, d: Dispute, n: Notice)
    requires forall k :: DisputeTold(s, k)
    requires t.disputes == s.disputes[id := d] && t.notices == s.notices + [n] && n.dispute == id && d.id == id
    requires TellsDispute(d, NoticesOf(s.notices, id) + [n])
    ensures forall k :: DisputeTold(t, k)
  {
    forall k ensures DisputeTold(t, k) {
      assert DisputeTold(s, k);
      NoticesSnoc(s.notices, n, k);
      assert NoticesOf(s.notices, k) + [] == NoticesOf(s.notices, k);
    }
  }

  lemma {:induction false} DisputesToldStep(s: State, c: Command)
    requires (forall k :: DisputeTold(s, k)) && Fresh(s, c)
    ensures forall k :: DisputeTold(Apply(s, c), k)
  {
    var t := Apply(s, c);
    if Commits(s, c) && !c.RetryPass? {
      assert DisputeTold(s, c.id);
      NoticeStep(s, t, c.id, t.disputes[c.id], t.notices[|s.notices|]);
    } else {
      forall k ensures DisputeTold(t, k) {
        assert DisputeTold(s, k);
      }
    }
  }

  lemma {:induction false} SagasToldStep(s: State, c: Command)
    requires Sound(s) && SagasTold(s.sagas) && Fresh(s, c)
    ensures SagasTold(Apply(s, c).sagas)
  {
    if Commits(s, c) && c.Resolve? {
      var d, verdict := s.disputes[c.id], Verdict(c.resolution).value;
      if SagaFor(verdict).Some? {
        BeginTold(s.sagas, NewSaga(c.saga, SagaFor(verdict).value, d.id, d.booking), c.finance, c.interaction);
      }
    } else if c.RetryPass? {
      RetryAllKeepsTold(s.sagas, c.tasks);
    }
  }

  ghost predicate AllTold(s: State) {
    Sound(s) && SagasTold(s.sagas) && forall k :: DisputeTold(s, k)
  }

  lemma {:induction false} ToldRun(s: State, cs: seq<Command>)
    requires AllTold(s) && IsRun(s, cs)
    ensures AllTold(Run(s, cs))
    decreases |cs|
  {
    if cs != [] {
      SoundStep(s, cs[0]);
      SagasToldStep(s, cs[0]);
      DisputesToldStep(s, cs[0]);
      ToldRun(Apply(s, cs[0]), cs[1..]);
    }
  }

  /** Over every run of commands and retry passes: the published events of a saga are exactly
      the announcements of its port calls, in order, each failure with its error and number;
      the error on record is that of its last call. */
  lemma {:induction false} EventsTellCalls(cs: seq<Command>, g: Id)
    requires IsRun(START, cs) && g in Run(START, cs).sagas.sagas
    ensures var db := Run(START, cs).sagas;
      TellsCalls(db.sagas[g], CallsOf(db.calls, g), EventsOf(db.published, g))
  {
    ToldRun(START, cs);
    assert SagaTold(Run(START, cs).sagas, g);
  }

  /** Over every run: a dispute's notices are one report, one assignment once it is being
      resolved, and one decision once it is decided, as its row says. */
  lemma {:induction false} NoticesTellDispute(cs: seq<Command>, id: Id)
    requires IsRun(START, cs) && id in Run(START, cs).disputes
    ensures TellsDispute(Run(START, cs).disputes[id], NoticesOf(Run(START, cs).notices, id))
  {
    ToldRun(START, cs);
    assert DisputeTold(Run(START, cs), id);
  }

  // ----- What each command does

  /** A report opens a dispute exactly for a known reason and a booking without any dispute. */
  lemma ReportMeans(s: State, c: Command)
    requires c.Report?
    ensures var t := Apply(s, c);
      if c.reason in {"NO_SHOW", "MISCONDUCT", "FRAUD", "OTHER"} && !BookingTaken(s, c.booking)
      then && t.disputes == s.disputes[c.id := Dispute(c.id, c.booking, c.reporter, c.accused, c.reason, Open, None, None, None)]
           && t.sagas == s.sagas
      else t == s
  {
  }

  /** An assignment takes an open dispute to an admin, and nothing else. */
  lemma AssignMeans(s: State, c: Command)
    requires c.Assign?
    ensures var t := Apply(s, c);
      if c.id in s.disputes && s.disputes[c.id].status == Open
      then && t.disputes == s.disputes[c.id := s.disputes[c.id].(status := Resolving, admin := Some(c.admin))]
           && t.sagas == s.sagas
      else t == s
  {
  }

  /** The verdict of a known resolution. */
  function VerdictOf(resolution: string): Option<Status> {
    match resolution
    case "REFUND_CLIENT" => Some(Refunded)
    case "PAYOUT_COMPANION" => Some(PaidOut)
    case "REJECT" => Some(Rejected)
    case _ => None
  }

  /** A resolution decides a dispute that is being resolved, exactly for a known verdict and,
      for a payout, if the snapshot could be taken; a rejection starts no saga. */
  lemma ResolveMeans(s: State, c: Command)
    requires c.Resolve?
    ensures var t, verdict := Apply(s, c), VerdictOf(c.resolution);
      if c.id in s.disputes && s.disputes[c.id].status == Resolving && verdict.Some? && (verdict.value == PaidOut ==> c.snapshot)
      then && t.disputes == s.disputes[c.id := s.disputes[c.id].(status := verdict.value, admin := Some(c.admin),
                                                               resolution := Some(c.resolution), notes := Some(c.notes))]
           && (verdict.value == Rejected ==> t.sagas == s.sagas)
           && (verdict.value != Rejected ==>
                 && c.saga in t.sagas.sagas && t.sagas.sagas[c.saga].dispute == s.disputes[c.id].id
                 && t.sagas.sagas[c.saga].booking == s.disputes[c.id].booking
                 && t.sagas.sagas[c.saga].kind == if verdict.value == Refunded then RefundSaga else PayoutSaga)
      else t == s
  {
    if c.id in s.disputes && Verdict(c.resolution).Some? && SagaFor(Verdict(c.resolution).value).Some? {
      var d := s.disputes[c.id];
      ProcessKeepsIdentity(NewSaga(c.saga, SagaFor(Verdict(c.resolution).value).value, d.id, d.booking), c.finance, c.interaction);
    }
  }

  // ----- A retry pass reaches every pending saga

  /** A pending saga makes one more interaction call; it is resolved if that succeeds, and
      otherwise pending with one more failure on record. */
  lemma RetryMeans(db: Db, task: Task)
    requires task.id in db.sagas && IsPending(db.sagas[task.id]) && db.sagas[task.id].id == task.id
    ensures var s, t := db.sagas[task.id], Retry(db, task);
      && t.calls == db.calls + [Interaction(task.id, task.interaction)]
      && Touches(db, t, task.id)
      && if task.interaction.Succeeds? then t.sagas[task.id] == s.(state := Resolved, lastError := None)
         else IsPending(t.sagas[task.id]) && t.sagas[task.id].retryCount == s.retryCount + 1
  {
  }

  ghost predicate Batch(db: Db, tasks: seq<Task>) {
    && (forall i :: 0 <= i < |tasks| ==> tasks[i].id in db.sagas && IsPending(db.sagas[tasks[i].id]) && db.sagas[tasks[i].id].id == tasks[i].id)
    && forall i, j :: 0 <= i < j < |tasks| ==> tasks[i].id != tasks[j].id
  }

  function CallsFor(tasks: seq<Task>): seq<Call> {
    if tasks == [] then [] else CallsFor(tasks[..|tasks| - 1]) + [Interaction(tasks[|tasks| - 1].id, tasks[|tasks| - 1].interaction)]
  }

  predicate IsTask(tasks: seq<Task>, g: Id) {
    exists i :: 0 <= i < |tasks| && tasks[i].id == g
  }

  predicate WasTried(t: Db, task: Task) {
    task.id in t.sagas && if task.interaction.Succeeds? then t.sagas[task.id].state == Resolved else IsPending(t.sagas[task.id])
  }

  /** One call for each task, in order; each saga resolved or pending as its call went; no
      other saga changed. */
  ghost predicate Tried(db: Db, t: Db, tasks: seq<Task>) {
    && t.calls == db.calls + CallsFor(tasks) && t.sagas.Keys == db.sagas.Keys
    && (forall g :: g in db.sagas && !IsTask(tasks, g) ==> t.sagas[g] == db.sagas[g])
    && (forall i :: 0 <= i < |tasks| ==> WasTried(t, tasks[i]))
  }

  /** Only this saga changes. */
  ghost predicate Touches(u: Db, t: Db, id: Id) {
    t.sagas.Keys == u.sagas.Keys && forall g :: g in u.sagas && g != id ==> t.sagas[g] == u.sagas[g]
  }

  lemma {:induction false} TriedSnoc(db: Db, u: Db, t: Db, tasks: seq<Task>)
    requires tasks != [] && Batch(db, tasks) && Tried(db, u, tasks[..|tasks| - 1])
    requires var last := tasks[|tasks| - 1];
      Touches(u, t, last.id) && WasTried(t, last) && t.calls == u.calls + [Interaction(last.id, last.interaction)]
    ensures Tried(db, t, tasks)
  {
    var front, last := tasks[..|tasks| - 1], tasks[|tasks| - 1];
    assert t.calls == db.calls + CallsFor(tasks);
    forall g | g in db.sagas && !IsTask(tasks, g) ensures t.sagas[g] == db.sagas[g] {
      assert forall i :: 0 <= i < |front| ==> front[i].id == tasks[i].id;
      assert tasks[|tasks| - 1].id == last.id;
    }
    forall i | 0 <= i < |tasks| ensures WasTried(t, tasks[i]) {
      if i < |front| {
        assert WasTried(u, front[i]) && front[i] == tasks[i];
      }
    }
  }

  lemma {:induction false} NotYetTried(db: Db, u: Db, tasks: seq<Task>)
    requires tasks != [] && Batch(db, tasks) && Tried(db, u, tasks[..|tasks| - 1])
    ensures var last := tasks[|tasks| - 1];
      last.id in u.sagas && u.sagas[last.id] == db.sagas[last.id]
  {
    var front, last := tasks[..|tasks| - 1], tasks[|tasks| - 1];
    forall i | 0 <= i < |front| ensures front[i].id != last.id {
      assert front[i] == tasks[i];
    }
  }

  /** A pass over the sagas that the retry query found makes exactly one interaction call for
      each, in order, and leaves every one of them resolved or pending, as its call went; no
      other saga changes. */
  lemma {:induction false} RetryPassReachesAll(db: Db, tasks: seq<Task>)
    requires Batch(db, tasks)
    ensures Tried(db, RetryAll(db, tasks), tasks)
    decreases |tasks|
  {
    if tasks == [] {
      assert db.calls + [] == db.calls;
    } else {
      var front, last := tasks[..|tasks| - 1], tasks[|tasks| - 1];
      RetryPassReachesAll(db, front);
      NotYetTried(db, RetryAll(db, front), tasks);
      RetryMeans(RetryAll(db, front), last);
      TriedSnoc(db, RetryAll(db, front), RetryAll(db, tasks), tasks);
    }
  }
}
