/** The dispute sagas: an orchestrator calls the finance port and then the interaction port,
    recursively; a retry worker calls the interaction step again until it succeeds. The
    refund and the payout saga have the same shape and differ in names and ports. */
module DisputeSagas {
  import opened Prelude

  type Id = string

  datatype Kind = RefundSaga | PayoutSaga

  /** REFUNDING or PAYING_OUT, HIDING_REVIEW or LOCKING_CHAT, DISPUTE_RESOLVED_REFUNDED or
      DISPUTE_RESOLVED_PAID_OUT, DISPUTE_FAILED. */
  datatype SagaState = Paying | Closing | Resolved | Failed

  datatype Event =
    | StepCompleted(saga: Id, step: SagaState)
    | StepFailed(saga: Id, step: SagaState, error: string, retryCount: nat)
    | Completed(saga: Id, kind: Kind)

  datatype Saga = Saga(id: Id, kind: Kind, dispute: Id, booking: Id, state: SagaState, retryCount: nat, lastError: Option<string>)

  /** A port call succeeds, reports a failure, or throws. A finance failure may come
      without an error text; an interaction failure has none. */
  datatype Outcome = Succeeds | Fails(error: string) | Throws(message: string)

  datatype Call = Finance(saga: Id, result: Outcome) | Interaction(saga: Id, result: Outcome)

  function FinanceError(kind: Kind, o: Outcome): string
    requires !o.Succeeds?
  {
    match o
    case Fails(error) =>
      if error != "" then error else if kind == RefundSaga then "Refund failed" else "Payout failed"
    case Throws(message) => message
  }

  function InteractionError(kind: Kind, o: Outcome): string
    requires !o.Succeeds?
  {
    match o
    case Fails(_) =>
      if kind == RefundSaga then "Interaction service failed to lock/hide"
      else "Interaction service failed to lock chat room"
    case Throws(message) => message
  }

  function NewSaga(id: Id, kind: Kind, dispute: Id, booking: Id): Saga {
    Saga(id, kind, dispute, booking, Paying, 0, None)
  }

  // ----- The saga aggregate and the orchestrator

  /** The saga aggregate; `false` is `InvalidSagaTransitionError`. */
  class SagaAggregate {
    const id: Id
    const kind: Kind
    const dispute: Id
    const booking: Id
    var state: SagaState
    var retryCount: nat
    var lastError: Option<string>
    var events: seq<Event>

    constructor (saga: Saga)
      ensures Row() == saga && events == []
    {
      id, kind, dispute, booking := saga.id, saga.kind, saga.dispute, saga.booking;
      state, retryCount, lastError, events := saga.state, saga.retryCount, saga.lastError, [];
    }

    function Row(): Saga
      reads this
    {
      Saga(id, kind, dispute, booking, state, retryCount, lastError)
    }

    method OnFinanceSuccess() returns (ok: bool)
      modifies this
      ensures ok <==> old(state) == Paying
      ensures Row() == if ok then old(Row()).(state := Closing, lastError := None) else old(Row())
      ensures events == old(events) + if ok then [StepCompleted(id, Paying)] else []
    {
      if state != Paying {
        return false;
      }
      state := Closing;
      lastError := None;
      events := events + [StepCompleted(id, Paying)];
      ok := true;
    }

    method OnFinanceFailed(error: string) returns (ok: bool)
      modifies this
      ensures ok <==> old(state) == Paying
      ensures Row() == if ok then old(Row()).(state := Failed, lastError := Some(error)) else old(Row())
      ensures events == old(events) + if ok then [StepFailed(id, Paying, error, retryCount)] else []
    {
      if state != Paying {
        return false;
      }
      state := Failed;
      lastError := Some(error);
      events := events + [StepFailed(id, Paying, error, retryCount)];
      ok := true;
    }

    method OnInteractionSuccess() returns (ok: bool)
      modifies this
      ensures ok <==> old(state) == Closing
      ensures Row() == if ok then old(Row()).(state := Resolved, lastError := None) else old(Row())
      ensures events == old(events) + if ok then [Completed(id, kind)] else []
    {
      if state != Closing {
        return false;
      }
      state := Resolved;
      lastError := None;
      events := events + [Completed(id, kind)];
      ok := true;
    }

    method OnInteractionFailed(error: string) returns (ok: bool)
      modifies this
      ensures ok <==> old(state) == Closing
      ensures Row() == if ok then old(Row()).(retryCount := old(retryCount) + 1, lastError := Some(error)) else old(Row())
      ensures events == old(events) + if ok then [StepFailed(id, Closing, error, old(retryCount) + 1)] else []
    {
      if state != Closing {
        return false;
      }
      retryCount := retryCount + 1;
      lastError := Some(error);
      events := events + [StepFailed(id, Closing, error, retryCount)];
      ok := true;
    }
  }

  /** What `process_saga` leaves behind. */
  datatype Processed = Processed(saga: Saga, calls: seq<Call>, published: seq<Event>)

  /** `process_saga`, given how its port calls would turn out. */
  function Process(s: Saga, finance: Outcome, interaction: Outcome): Processed
    decreases if s.state == Paying then 1 else 0
  {
    match s.state
    case Paying =>
      if finance.Succeeds? then
        var rest := Process(s.(state := Closing, lastError := None), finance, interaction);
        Processed(rest.saga, [Finance(s.id, finance)] + rest.calls, [StepCompleted(s.id, Paying)] + rest.published)
      else
        var error := FinanceError(s.kind, finance);
        Processed(s.(state := Failed, lastError := Some(error)), [Finance(s.id, finance)],
                  [StepFailed(s.id, Paying, error, s.retryCount)])
    case Closing =>
      if interaction.Succeeds? then
        Processed(s.(state := Resolved, lastError := None), [Interaction(s.id, interaction)], [Completed(s.id, s.kind)])
      else
        var error := InteractionError(s.kind, interaction);
        Processed(s.(retryCount := s.retryCount + 1, lastError := Some(error)), [Interaction(s.id, interaction)],
                  [StepFailed(s.id, Closing, error, s.retryCount + 1)])
    case _ => Processed(s, [], [])
  }

  /** The table of sagas, the port calls made and the events published. */
  datatype Db = Db(sagas: map<Id, Saga>, calls: seq<Call>, published: seq<Event>)

  const EMPTY := Db(map[], [], [])

  function Save(db: Db, p: Processed): Db {
    Db(db.sagas[p.saga.id := p.saga], db.calls + p.calls, db.published + p.published)
  }

  class Orchestrator {
    var sagas: map<Id, Saga>
    var calls: seq<Call>
    var published: seq<Event>

    constructor ()
      ensures State() == EMPTY
    {
      sagas, calls, published := map[], [], [];
    }

    function State(): Db
      reads this
    {
      Db(sagas, calls, published)
    }

    method PublishAll(saga: SagaAggregate)
      requires saga as object != this
      modifies this`published, saga`events
      ensures published == old(published) + old(saga.events) && saga.events == []
    {
      var events := saga.events;
      saga.events := [];
      for i := 0 to |events|
        invariant published == old(published) + events[..i] && saga.events == []
      {
        published := published + [events[i]];
      }
      assert events[..|events|] == events;
    }

    /** The second branch of `process_saga`: one interaction call, recorded and saved. */
    method InteractionStep(saga: SagaAggregate, interaction: Outcome)
      requires saga as object != this && saga.state == Closing
      modifies this`sagas, this`calls, saga
      ensures var p := Process(old(saga.Row()), interaction, interaction);
        && saga.Row() == p.saga && saga.events == old(saga.events) + p.published
        && sagas == old(sagas)[p.saga.id := p.saga] && calls == old(calls) + p.calls
    {
      calls := calls + [Interaction(saga.id, interaction)];
      if interaction.Succeeds? {
        var _ := saga.OnInteractionSuccess();
      } else {
        var _ := saga.OnInteractionFailed(InteractionError(saga.kind, interaction));
      }
      sagas := sagas[saga.id := saga.Row()];
    }

    /** The first branch up to the recursive call: one finance call, recorded and saved. */
    method FinanceStep(saga: SagaAggregate, finance: Outcome)
      requires saga as object != this && saga.state == Paying
      modifies this`sagas, this`calls, saga
      ensures var s := old(saga.Row());
        && saga.Row() == (if finance.Succeeds? then s.(state := Closing, lastError := None)
                          else s.(state := Failed, lastError := Some(FinanceError(s.kind, finance))))
        && saga.events == old(saga.events) + [if finance.Succeeds? then StepCompleted(s.id, Paying)
                                              else StepFailed(s.id, Paying, FinanceError(s.kind, finance), s.retryCount)]
      ensures sagas == old(sagas)[saga.id := saga.Row()] && calls == old(calls) + [Finance(saga.id, finance)]
    {
      calls := calls + [Finance(saga.id, finance)];
      if finance.Succeeds? {
        var _ := saga.OnFinanceSuccess();
      } else {
        var _ := saga.OnFinanceFailed(FinanceError(saga.kind, finance));
      }
      sagas := sagas[saga.id := saga.Row()];
    }

    /** `process_saga`. The collected events are published once, by the innermost call. */
    method ProcessSaga(saga: SagaAggregate, finance: Outcome, interaction: Outcome)
      requires saga as object != this && saga.id in sagas && sagas[saga.id] == saga.Row()
      modifies this, saga
      ensures saga.events == []
      ensures var p := Process(old(saga.Row()), finance, interaction);
        && saga.Row() == p.saga
        && State() == Db(old(sagas)[p.saga.id := p.saga], old(calls) + p.calls,
                         old(published) + old(saga.events) + p.published)
      decreases if saga.state == Paying then 1 else 0
    {
      if saga.state == Paying {
        FinanceStep(saga, finance);
        if finance.Succeeds? {
          ProcessSaga(saga, finance, interaction);
        }
      } else if saga.state == Closing {
        InteractionStep(saga, interaction);
      }
      PublishAll(saga);
    }

    /** `start`. For a payout saga `snapshot` says whether the snapshot call succeeds; if it
        throws, nothing has been written yet. */
    method Start(id: Id, kind: Kind, dispute: Id, booking: Id, snapshot: bool, finance: Outcome, interaction: Outcome)
      returns (ok: bool)
      requires id !in sagas
      modifies this
      ensures ok <==> kind == RefundSaga || snapshot
      ensures State() == if ok then Begin(old(State()), NewSaga(id, kind, dispute, booking), finance, interaction)
                         else old(State())
    {
      if kind == PayoutSaga && !snapshot {
        return false;
      }
      var saga := new SagaAggregate(NewSaga(id, kind, dispute, booking));
      sagas := sagas[id := saga.Row()];
      ProcessSaga(saga, finance, interaction);
      assert old(sagas)[id := NewSaga(id, kind, dispute, booking)][id := saga.Row()] == old(sagas)[id := saga.Row()];
      assert old(published) + [] == old(published);
      ok := true;
    }

    /** One isolated session of a retry pass. */
    method RetryOne(task: Task)
      requires task.id in sagas && sagas[task.id].id == task.id
      modifies this
      ensures State() == Retry(old(State()), task)
    {
      var saga := new SagaAggregate(sagas[task.id]);
      ProcessSaga(saga, task.finance, task.interaction);
      assert old(published) + [] == old(published);
    }

    /** `_retry_pending_sagas`: the pending ids are fixed first, then each saga is loaded
        again and processed. */
    method RetryPending(tasks: seq<Task>)
      requires forall i :: 0 <= i < |tasks| ==> tasks[i].id in sagas && IsPending(sagas[tasks[i].id])
      requires forall k :: k in sagas ==> sagas[k].id == k
      modifies this
      ensures State() == RetryAll(old(State()), tasks)
    {
      for i := 0 to |tasks|
        invariant State() == RetryAll(old(State()), tasks[..i])
        invariant forall k :: k in sagas ==> sagas[k].id == k
        invariant forall k :: k in old(sagas) ==> k in sagas
      {
        assert tasks[..i + 1][..i] == tasks[..i];
        ProcessKeepsIdentity(sagas[tasks[i].id], tasks[i].finance, tasks[i].interaction);
        RetryOne(tasks[i]);
      }
      assert tasks[..|tasks|] == tasks;
    }
  }

  // ----- Runs

  /** `find_pending_retries`: a retriable state with an error on record. */
  predicate IsPending(s: Saga) {
    s.state == Closing && s.lastError.Some?
  }

  predicate IsTerminal(s: Saga) {
    s.state == Resolved || s.state == Failed
  }

  /** One saga of a retry pass, with the outcomes its port calls would have. */
  datatype Task = Task(id: Id, finance: Outcome, interaction: Outcome)

  function Begin(db: Db, saga: Saga, finance: Outcome, interaction: Outcome): Db {
    Save(db, Process(saga, finance, interaction))
  }

  function Retry(db: Db, task: Task): Db {
    if task.id in db.sagas then Save(db, Process(db.sagas[task.id], task.finance, task.interaction)) else db
  }

  function RetryAll(db: Db, tasks: seq<Task>): Db {
    if tasks == [] then db else Retry(RetryAll(db, tasks[..|tasks| - 1]), tasks[|tasks| - 1])
  }

  lemma ProcessKeepsIdentity(s: Saga, finance: Outcome, interaction: Outcome)
    ensures var t := Process(s, finance, interaction).saga;
      t.id == s.id && t.kind == s.kind && t.dispute == s.dispute && t.booking == s.booking
  {
  }

  // ----- The story of one saga

  function CallsOf(calls: seq<Call>, id: Id): seq<Call> {
    if calls == [] then []
    else
      var front := CallsOf(calls[..|calls| - 1], id);
      if calls[|calls| - 1].saga == id then front + [calls[|calls| - 1]] else front
  }

  lemma {:induction false} CallsOfConcat(a: seq<Call>, b: seq<Call>, id: Id)
    ensures CallsOf(a + b, id) == CallsOf(a, id) + CallsOf(b, id)
    decreases |b|
  {
    if b == [] {
      assert a + b == a;
      assert CallsOf(a, id) + [] == CallsOf(a, id);
    } else {
      assert (a + b)[..|a + b| - 1] == a + b[..|b| - 1];
      CallsOfConcat(a, b[..|b| - 1], id);
    }
  }

  lemma {:induction false} CallsOfOwn(calls: seq<Call>, own: Id, id: Id)
    requires forall i :: 0 <= i < |calls| ==> calls[i].saga == own
    ensures CallsOf(calls, id) == if id == own then calls else []
    decreases |calls|
  {
    if calls != [] {
      CallsOfOwn(calls[..|calls| - 1], own, id);
    }
  }

  /** Failed interaction calls. */
  ghost predicate AllFailed(calls: seq<Call>) {
    forall i :: 0 <= i < |calls| ==> calls[i].Interaction? && !calls[i].result.Succeeds?
  }

  /** Everything a saga did: one finance call, first; interaction calls only after it
      succeeded, all failed but possibly the last; the state, the error and the retry count
      say exactly how it went. */
  ghost predicate Story(s: Saga, calls: seq<Call>) {
    && calls != [] && calls[0].Finance?
    && match s.state
       case Paying => false
       case Failed => !calls[0].result.Succeeds? && |calls| == 1 && s.retryCount == 0 && s.lastError.Some?
       case Closing =>
         && calls[0].result.Succeeds? && |calls| >= 2 && AllFailed(calls[1..])
         && s.retryCount == |calls| - 1 && s.lastError.Some?
       case Resolved =>
         && calls[0].result.Succeeds? && |calls| >= 2 && AllFailed(calls[1..|calls| - 1])
         && calls[|calls| - 1].Interaction? && calls[|calls| - 1].result.Succeeds?
         && s.retryCount == |calls| - 2 && s.lastError.None?
  }

  ghost predicate StoryOf(db: Db, id: Id) {
    if id in db.sagas then db.sagas[id].id == id && Story(db.sagas[id], CallsOf(db.calls, id))
    else CallsOf(db.calls, id) == []
  }

  ghost predicate Inv(db: Db) {
    forall id :: StoryOf(db, id)
  }

  /** A new saga's first pass. */
  lemma FirstStory(s: Saga, finance: Outcome, interaction: Outcome)
    requires s.state == Paying && s.retryCount == 0
    ensures var p := Process(s, finance, interaction);
      Story(p.saga, p.calls) && forall i :: 0 <= i < |p.calls| ==> p.calls[i].saga == s.id
  {
    if finance.Succeeds? {
      var next := Process(s.(state := Closing, lastError := None), finance, interaction);
      assert Process(s, finance, interaction).calls == [Finance(s.id, finance), Interaction(s.id, interaction)];
    }
  }

  /** A retry appends one interaction call to an unfinished saga and nothing to a finished one. */
  lemma LongerStory(s: Saga, calls: seq<Call>, finance: Outcome, interaction: Outcome)
    requires Story(s, calls)
    ensures var p := Process(s, finance, interaction);
      Story(p.saga, calls + p.calls) && forall i :: 0 <= i < |p.calls| ==> p.calls[i].saga == s.id
  {
    var p := Process(s, finance, interaction);
    if s.state == Closing {
      var all := calls + p.calls;
      assert all[0] == calls[0] && all[|all| - 1] == Interaction(s.id, interaction);
      assert all[1..|all| - 1] == calls[1..];
      assert !interaction.Succeeds? ==> all[1..] == calls[1..] + [Interaction(s.id, interaction)];
    } else {
      assert calls + p.calls == calls;
    }
  }

  /** Saving a saga whose own calls continue its story touches no other saga's story. */
  lemma SaveStep(db: Db, p: Processed)
    requires Inv(db)
    requires forall i :: 0 <= i < |p.calls| ==> p.calls[i].saga == p.saga.id
    requires Story(p.saga, CallsOf(db.calls, p.saga.id) + p.calls)
    ensures Inv(Save(db, p))
  {
    forall id ensures StoryOf(Save(db, p), id) {
      assert StoryOf(db, id);
      CallsOfConcat(db.calls, p.calls, id);
      CallsOfOwn(p.calls, p.saga.id, id);
      assert CallsOf(db.calls, id) + [] == CallsOf(db.calls, id);
    }
  }

  lemma BeginStep(db: Db, s: Saga, finance: Outcome, interaction: Outcome)
    requires Inv(db) && s.id !in db.sagas && s.state == Paying && s.retryCount == 0
    ensures Inv(Begin(db, s, finance, interaction))
  {
    var p := Process(s, finance, interaction);
    FirstStory(s, finance, interaction);
    ProcessKeepsIdentity(s, finance, interaction);
    assert StoryOf(db, s.id);
    assert [] + p.calls == p.calls;
    SaveStep(db, p);
  }

  lemma RetryStep(db: Db, task: Task)
    requires Inv(db)
    ensures Inv(Retry(db, task))
  {
    if task.id in db.sagas {
      var s := db.sagas[task.id];
      assert StoryOf(db, task.id);
      LongerStory(s, CallsOf(db.calls, task.id), task.finance, task.interaction);
      ProcessKeepsIdentity(s, task.finance, task.interaction);
      SaveStep(db, Process(s, task.finance, task.interaction));
    }
  }

  lemma {:induction false} RetryAllStep(db: Db, tasks: seq<Task>)
    requires Inv(db)
    ensures Inv(RetryAll(db, tasks))
    decreases |tasks|
  {
    if tasks != [] {
      RetryAllStep(db, tasks[..|tasks| - 1]);
      RetryStep(RetryAll(db, tasks[..|tasks| - 1]), tasks[|tasks| - 1]);
    }
  }

  /** What the invariant says of any saga, in the words of the design: the finance call
      happens once; an interaction call only follows its success; a saga fails only if it
      failed; the retry count is the number of failed interaction calls; and a saga left
      behind is finished or will be found by the retry query. */
  lemma StoryMeans(db: Db, id: Id)
    requires Inv(db) && id in db.sagas
    ensures var s, calls := db.sagas[id], CallsOf(db.calls, id);
      && calls != [] && calls[0].Finance? && (forall i :: 0 < i < |calls| ==> calls[i].Interaction?)
      && (|calls| > 1 ==> calls[0].result.Succeeds?)
      && (s.state == Failed <==> !calls[0].result.Succeeds?)
      && s.retryCount == Failures(calls[1..])
      && (IsTerminal(s) || IsPending(s))
  {
    assert StoryOf(db, id);
    var s, calls := db.sagas[id], CallsOf(db.calls, id);
    if s.state == Closing {
      forall i | 0 < i < |calls| ensures calls[i].Interaction? {
        assert calls[i] == calls[1..][i - 1];
      }
      FailuresOfFailed(calls[1..]);
    } else if s.state == Resolved {
      forall i | 0 < i < |calls| - 1 ensures calls[i].Interaction? {
        assert calls[i] == calls[1..|calls| - 1][i - 1];
      }
      FailuresOfFailed(calls[1..|calls| - 1]);
      assert calls[1..][..|calls| - 2] == calls[1..|calls| - 1];
    }
  }

  function Failures(calls: seq<Call>): nat {
    if calls == [] then 0
    else Failures(calls[..|calls| - 1]) + if calls[|calls| - 1].result.Succeeds? then 0 else 1
  }

  lemma {:induction false} FailuresOfFailed(calls: seq<Call>)
    requires AllFailed(calls)
    ensures Failures(calls) == |calls|
    decreases |calls|
  {
    if calls != [] {
      FailuresOfFailed(calls[..|calls| - 1]);
    }
  }
}
