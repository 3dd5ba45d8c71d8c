/** What every run of dispute commands and retry passes keeps: one dispute per booking, one
    saga per decision, one call for the money. */
module DisputeLaws {
  import opened Prelude
  import opened DisputeSagas
  import opened Disputes

  // ----- The invariant

  /** Stronger than [INV-D01]: never a second dispute for a booking, open or closed. */
  ghost predicate OneDispute(s: State) {
    && (forall id :: id in s.disputes ==> s.disputes[id].id == id)
    && forall a, b :: a in s.disputes && b in s.disputes && s.disputes[a].booking == s.disputes[b].booking ==> a == b
  }

  /** A saga belongs to a dispute that was decided its way. */
  ghost predicate Grounded(s: State, g: Id)
    requires g in s.sagas.sagas
  {
    var x := s.sagas.sagas[g];
    && x.dispute in s.disputes && s.disputes[x.dispute].booking == x.booking
    && s.disputes[x.dispute].status == (if x.kind == RefundSaga then Refunded else PaidOut)
  }

  ghost predicate OneSaga(s: State) {
    && (forall g :: g in s.sagas.sagas ==> Grounded(s, g))
    && forall g, h :: g in s.sagas.sagas && h in s.sagas.sagas && s.sagas.sagas[g].dispute == s.sagas.sagas[h].dispute ==> g == h
  }

  ghost predicate HasSaga(db: Db, id: Id) {
    exists g :: g in db.sagas && db.sagas[g].dispute == id
  }

  ghost predicate Acted(s: State) {
    forall id :: id in s.disputes && SagaFor(s.disputes[id].status).Some? ==> HasSaga(s.sagas, id)
  }

  ghost predicate Sound(s: State) {
    OneDispute(s) && OneSaga(s) && Acted(s) && Inv(s.sagas)
  }

  // ----- Retry passes

  /** The sagas that were there still are, for the same dispute; finished ones are untouched. */
  ghost predicate Continues(a: Db, b: Db) {
    && (forall g :: g in a.sagas ==> g in b.sagas && SameJob(a.sagas[g], b.sagas[g]))
    && |a.calls| <= |b.calls| && b.calls[..|a.calls|] == a.calls
  }

  predicate SameJob(x: Saga, y: Saga) {
    && x.id == y.id && x.kind == y.kind && x.dispute == y.dispute && x.booking == y.booking
    && (IsTerminal(x) ==> x == y)
    && (x.state == Closing ==> y.state == Closing || y.state == Resolved)
  }

  lemma ProcessIsSameJob(x: Saga, finance: Outcome, interaction: Outcome)
    ensures SameJob(x, Process(x, finance, interaction).saga)
  {
    ProcessKeepsIdentity(x, finance, interaction);
  }

  lemma ContinuesTransitive(a: Db, b: Db, c: Db)
    requires Continues(a, b) && Continues(b, c)
    ensures Continues(a, c)
  {
    assert c.calls[..|a.calls|] == c.calls[..|b.calls|][..|a.calls|];
    forall g | g in a.sagas ensures g in c.sagas && SameJob(a.sagas[g], c.sagas[g]) {
      assert SameJob(a.sagas[g], b.sagas[g]) && SameJob(b.sagas[g], c.sagas[g]);
    }
  }

  lemma RetryContinues(db: Db, task: Task)
    requires Inv(db)
    ensures Continues(db, Retry(db, task)) && Retry(db, task).sagas.Keys == db.sagas.Keys
  {
    if task.id in db.sagas {
      assert StoryOf(db, task.id);
      ProcessIsSameJob(db.sagas[task.id], task.finance, task.interaction);
    }
  }

  lemma {:induction false} RetryAllContinues(db: Db, tasks: seq<Task>)
    requires Inv(db)
    ensures Continues(db, RetryAll(db, tasks)) && RetryAll(db, tasks).sagas.Keys == db.sagas.Keys
    decreases |tasks|
  {
    if tasks != [] {
      var front := tasks[..|tasks| - 1];
      RetryAllContinues(db, front);
      RetryAllStep(db, front);
      RetryContinues(RetryAll(db, front), tasks[|tasks| - 1]);
      ContinuesTransitive(db, RetryAll(db, front), RetryAll(db, tasks));
    }
  }

  lemma BeginContinues(db: Db, x: Saga, finance: Outcome, interaction: Outcome)
    requires x.id !in db.sagas
    ensures var t := Begin(db, x, finance, interaction);
      && Continues(db, t) && t.sagas.Keys == db.sagas.Keys + {x.id} && SameJob(x, t.sagas[x.id])
      && forall g :: g in db.sagas ==> t.sagas[g] == db.sagas[g]
  {
    ProcessIsSameJob(x, finance, interaction);
  }

  // ----- Steps

  lemma ReportStep(s: State, id: Id, d: Dispute, notices: seq<Notice>)
    requires Sound(s) && id !in s.disputes && d.id == id && d.status == Open && !BookingTaken(s, d.booking)
    ensures Sound(s.(disputes := s.disputes[id := d], notices := notices))
  {
    var t := s.(disputes := s.disputes[id := d], notices := notices);
    forall g | g in t.sagas.sagas ensures Grounded(t, g) {
      assert Grounded(s, g);
    }
  }

  /** A dispute moves between states that have no saga. */
  lemma PlainStep(s: State, id: Id, d: Dispute, notices: seq<Notice>)
    requires Sound(s) && id in s.disputes && SagaFor(s.disputes[id].status).None?
    requires d.id == id && d.booking == s.disputes[id].booking && SagaFor(d.status).None?
    ensures Sound(s.(disputes := s.disputes[id := d], notices := notices))
  {
    var t := s.(disputes := s.disputes[id := d], notices := notices);
    forall g | g in t.sagas.sagas ensures Grounded(t, g) {
      assert Grounded(s, g);
    }
  }

  /** A dispute that is still being resolved has no saga yet. */
  lemma NoSagaYet(s: State, id: Id)
    requires Sound(s) && id in s.disputes && SagaFor(s.disputes[id].status).None?
    ensures !HasSaga(s.sagas, id)
  {
    assert forall g :: g in s.sagas.sagas ==> Grounded(s, g);
  }

  /** The sagas of `b` are those of `a` and the new one. */
  ghost predicate Adds(a: Db, b: Db, x: Saga) {
    && x.id !in a.sagas && b.sagas.Keys == a.sagas.Keys + {x.id} && SameJob(x, b.sagas[x.id])
    && forall g :: g in a.sagas ==> b.sagas[g] == a.sagas[g]
  }

  lemma AddedIsOne(s: State, t: State, id: Id, x: Saga)
    requires Sound(s) && id in s.disputes && SagaFor(s.disputes[id].status).None?
    requires id in t.disputes && t.disputes == s.disputes[id := t.disputes[id]]
    requires t.disputes[id].booking == s.disputes[id].booking && SagaFor(t.disputes[id].status) == Some(x.kind)
    requires Adds(s.sagas, t.sagas, x) && x.dispute == id && x.booking == s.disputes[id].booking
    ensures OneSaga(t)
  {
    NoSagaYet(s, id);
    forall g | g in t.sagas.sagas ensures Grounded(t, g) {
      if g != x.id {
        assert Grounded(s, g) && s.sagas.sagas[g].dispute != id;
      }
    }
  }

  lemma AddedIsActed(s: State, t: State, id: Id, x: Saga)
    requires Acted(s) && id in s.disputes && id in t.disputes && t.disputes == s.disputes[id := t.disputes[id]]
    requires Adds(s.sagas, t.sagas, x) && x.dispute == id
    ensures Acted(t)
  {
    forall k | k in t.disputes && SagaFor(t.disputes[k].status).Some? ensures HasSaga(t.sagas, k) {
      if k == id {
        assert t.sagas.sagas[x.id].dispute == id;
      } else {
        assert HasSaga(s.sagas, k);
        var g :| g in s.sagas.sagas && s.sagas.sagas[g].dispute == k;
        assert t.sagas.sagas[g].dispute == k;
      }
    }
  }

  lemma ResolveStep(s: State, id: Id, d: Dispute, notices: seq<Notice>, x: Saga, finance: Outcome, interaction: Outcome)
    requires Sound(s) && id in s.disputes && s.disputes[id].status == Resolving
    requires d.id == id && d.booking == s.disputes[id].booking && SagaFor(d.status) == Some(x.kind)
    requires x.id !in s.sagas.sagas && x.state == Paying && x.retryCount == 0 && x.dispute == id && x.booking == d.booking
    ensures Sound(State(s.disputes[id := d], notices, Begin(s.sagas, x, finance, interaction)))
  {
    var t := State(s.disputes[id := d], notices, Begin(s.sagas, x, finance, interaction));
    BeginStep(s.sagas, x, finance, interaction);
    BeginContinues(s.sagas, x, finance, interaction);
    AddedIsOne(s, t, id, x);
    AddedIsActed(s, t, id, x);
  }

  lemma RetryPassStep(s: State, tasks: seq<Task>)
    requires Sound(s)
    ensures Sound(s.(sagas := RetryAll(s.sagas, tasks)))
  {
    var db := RetryAll(s.sagas, tasks);
    var t := s.(sagas := db);
    RetryAllStep(s.sagas, tasks);
    RetryAllContinues(s.sagas, tasks);
    forall g | g in db.sagas ensures Grounded(t, g) {
      assert Grounded(s, g) && SameJob(s.sagas.sagas[g], db.sagas[g]);
    }
    forall g, h | g in db.sagas && h in db.sagas && db.sagas[g].dispute == db.sagas[h].dispute ensures g == h {
      assert SameJob(s.sagas.sagas[g], db.sagas[g]) && SameJob(s.sagas.sagas[h], db.sagas[h]);
    }
    forall k | k in t.disputes && SagaFor(t.disputes[k].status).Some? ensures HasSaga(db, k) {
      assert HasSaga(s.sagas, k);
      var g :| g in s.sagas.sagas && s.sagas.sagas[g].dispute == k;
      assert g in db.sagas && SameJob(s.sagas.sagas[g], db.sagas[g]);
    }
  }

  lemma SoundStep(s: State, c: Command)
    requires Sound(s) && Fresh(s, c)
    ensures Sound(Apply(s, c))
  {
    if Commits(s, c) {
      var t := Apply(s, c);
      match c
      case Report(id, _, _, _, _) => ReportStep(s, id, t.disputes[id], t.notices);
      case Assign(id, _) => PlainStep(s, id, t.disputes[id], t.notices);
      case Resolve(id, _, resolution, _, saga, _, finance, interaction) =>
        var d, verdict := s.disputes[id], Verdict(resolution).value;
        if verdict == Rejected {
          PlainStep(s, id, t.disputes[id], t.notices);
        } else {
          var x := NewSaga(saga, SagaFor(verdict).value, d.id, d.booking);
          ResolveStep(s, id, t.disputes[id], t.notices, x, finance, interaction);
        }
      case RetryPass(tasks) => RetryPassStep(s, tasks);
    }
  }

  lemma {:induction false} SoundRun(s: State, cs: seq<Command>)
    requires Sound(s) && IsRun(s, cs)
    ensures Sound(Run(s, cs))
    decreases |cs|
  {
    if cs != [] {
      SoundStep(s, cs[0]);
      SoundRun(Apply(s, cs[0]), cs[1..]);
    }
  }

  // ----- One call for the money

  lemma {:induction false} CallIsInStory(calls: seq<Call>, j: nat)
    requires j < |calls|
    ensures var own := CallsOf(calls, calls[j].saga);
      var k := |CallsOf(calls[..j], calls[j].saga)|;
      k < |own| && own[k] == calls[j]
  {
    var id := calls[j].saga;
    assert calls == calls[..j] + calls[j..];
    assert calls[j..] == [calls[j]] + calls[j + 1..];
    CallsOfConcat(calls[..j], calls[j..], id);
    CallsOfConcat([calls[j]], calls[j + 1..], id);
    assert CallsOf([calls[j]], id) == [calls[j]];
  }

  /** Of two calls of one saga the later one is not the finance call. */
  lemma LaterIsInteraction(db: Db, i: nat, j: nat)
    requires Inv(db) && i < j < |db.calls| && db.calls[i].saga == db.calls[j].saga
    ensures db.calls[j].Interaction?
  {
    var id := db.calls[j].saga;
    assert StoryOf(db, id);
    CallIsInStory(db.calls, j);
    CallIsInStory(db.calls[..j], i);
    assert CallsOf(db.calls[..j], id) != [];
    StoryMeans(db, id);
  }

  lemma CallHasSaga(db: Db, i: nat)
    requires Inv(db) && i < |db.calls|
    ensures db.calls[i].saga in db.sagas
  {
    assert StoryOf(db, db.calls[i].saga);
    CallIsInStory(db.calls, i);
  }

  /** The booking a call is made for. */
  ghost function BookingOf(db: Db, i: nat): Id
    requires Inv(db) && i < |db.calls|
  {
    CallHasSaga(db, i);
    db.sagas[db.calls[i].saga].booking
  }

  lemma OneMoneyCall(s: State, i: nat, j: nat)
    requires Sound(s) && i < |s.sagas.calls| && j < |s.sagas.calls|
    requires s.sagas.calls[i].Finance? && s.sagas.calls[j].Finance? && BookingOf(s.sagas, i) == BookingOf(s.sagas, j)
    ensures i == j
  {
    CallHasSaga(s.sagas, i);
    CallHasSaga(s.sagas, j);
    assert Grounded(s, s.sagas.calls[i].saga) && Grounded(s, s.sagas.calls[j].saga);
    if i < j {
      LaterIsInteraction(s.sagas, i, j);
    } else if j < i {
      LaterIsInteraction(s.sagas, j, i);
    }
  }

  /** In every run, whatever the ports answer and however often sagas are retried: at most
      one finance call is ever made for a booking, and it is made for a dispute that was
      decided that way; and every dispute decided with money has a saga that made its call. */
  lemma MoneyMovesOnce(cs: seq<Command>)
    requires IsRun(START, cs)
    ensures var s := Run(START, cs);
      && Inv(s.sagas)
      && (forall i: nat, j: nat | i < |s.sagas.calls| && j < |s.sagas.calls| && BookingOf(s.sagas, i) == BookingOf(s.sagas, j) ::
            s.sagas.calls[i].Finance? && s.sagas.calls[j].Finance? ==> i == j)
      && (forall g :: g in s.sagas.sagas ==> Grounded(s, g))
      && (forall id :: id in s.disputes && SagaFor(s.disputes[id].status).Some? ==> HasSaga(s.sagas, id))
  {
    SoundRun(START, cs);
    var s := Run(START, cs);
    forall i: nat, j: nat | i < |s.sagas.calls| && j < |s.sagas.calls|
      && s.sagas.calls[i].Finance? && s.sagas.calls[j].Finance?
      && BookingOf(s.sagas, i) == BookingOf(s.sagas, j)
      ensures i == j
    {
      OneMoneyCall(s, i, j);
    }
  }

  // ----- Decisions are final

  /** [INV-D02] and the order of states: a decided dispute never changes in any field, and
      no dispute ever loses its booking or goes back. */
  predicate Later(a: Dispute, b: Dispute) {
    && a.id == b.id && a.booking == b.booking && a.reporter == b.reporter && a.accused == b.accused && a.reason == b.reason
    && (IsFinal(a.status) ==> a == b)
    && (a.status == Resolving ==> b.status != Open)
  }

  lemma LaterStep(s: State, c: Command, id: Id)
    requires Fresh(s, c) && id in s.disputes
    ensures id in Apply(s, c).disputes && Later(s.disputes[id], Apply(s, c).disputes[id])
  {
  }

  lemma {:induction false} VerdictIsFinal(s: State, cs: seq<Command>, id: Id)
    requires IsRun(s, cs) && id in s.disputes
    ensures id in Run(s, cs).disputes && Later(s.disputes[id], Run(s, cs).disputes[id])
    decreases |cs|
  {
    if cs != [] {
      LaterStep(s, cs[0], id);
      VerdictIsFinal(Apply(s, cs[0]), cs[1..], id);
    }
  }

  lemma ContinuesStep(s: State, c: Command)
    requires Sound(s) && Fresh(s, c)
    ensures Continues(s.sagas, Apply(s, c).sagas)
  {
    if Commits(s, c) && c.Resolve? {
      var d, verdict := s.disputes[c.id], Verdict(c.resolution).value;
      if SagaFor(verdict).Some? {
        BeginContinues(s.sagas, NewSaga(c.saga, SagaFor(verdict).value, d.id, d.booking), c.finance, c.interaction);
      }
    } else if c.RetryPass? {
      RetryAllContinues(s.sagas, c.tasks);
    }
  }

  lemma {:induction false} ContinuesRun(s: State, cs: seq<Command>)
    requires Sound(s) && IsRun(s, cs)
    ensures Continues(s.sagas, Run(s, cs).sagas)
    decreases |cs|
  {
    if cs != [] {
      var t := Apply(s, cs[0]);
      ContinuesStep(s, cs[0]);
      SoundStep(s, cs[0]);
      ContinuesRun(t, cs[1..]);
      ContinuesTransitive(s.sagas, t.sagas, Run(s, cs).sagas);
    }
  }

  /** Once a saga's finance call failed, no run ever calls finance for that booking again:
      the dispute stays decided and its money stays where it is. */
  lemma FailedMoneyIsFinal(s: State, cs: seq<Command>, g: Id, i: nat)
    requires Sound(s) && IsRun(s, cs) && g in s.sagas.sagas && s.sagas.sagas[g].state == Failed
    ensures var t := Run(s, cs);
      && Inv(t.sagas) && g in t.sagas.sagas && t.sagas.sagas[g] == s.sagas.sagas[g]
      && (|s.sagas.calls| <= i < |t.sagas.calls| && t.sagas.calls[i].Finance?
          ==> BookingOf(t.sagas, i) != s.sagas.sagas[g].booking)
  {
    var t := Run(s, cs);
    SoundRun(s, cs);
    ContinuesRun(s, cs);
    assert SameJob(s.sagas.sagas[g], t.sagas.sagas[g]);
    if |s.sagas.calls| <= i < |t.sagas.calls| && t.sagas.calls[i].Finance? && BookingOf(t.sagas, i) == s.sagas.sagas[g].booking {
      assert StoryOf(s.sagas, g);
      var j := FirstCall(s.sagas.calls, g);
      assert t.sagas.calls[j] == t.sagas.calls[..|s.sagas.calls|][j];
      OneMoneyCall(t, i, j);
    }
  }

  /** Where a saga's first call sits among all calls. */
  ghost function FirstCall(calls: seq<Call>, id: Id): (j: nat)
    requires CallsOf(calls, id) != []
    ensures j < |calls| && calls[j].saga == id && calls[j] == CallsOf(calls, id)[0]
    decreases |calls|
  {
    var front := calls[..|calls| - 1];
    if CallsOf(front, id) != [] then FirstCall(front, id) else |calls| - 1
  }

  // ----- When a verdict moves money

  /** The finance call at `i` succeeded and was made for the booking. */
  ghost predicate IsPaid(db: Db, i: nat, booking: Id) {
    && i < |db.calls| && db.calls[i].Finance? && db.calls[i].result.Succeeds?
    && db.calls[i].saga in db.sagas && db.sagas[db.calls[i].saga].booking == booking
  }

  ghost predicate MoneyMoved(db: Db, booking: Id) {
    exists i: nat :: IsPaid(db, i, booking)
  }

  lemma MovedIffNotFailed(s: State, g: Id)
    requires Sound(s) && g in s.sagas.sagas
    ensures MoneyMoved(s.sagas, s.sagas.sagas[g].booking) <==> s.sagas.sagas[g].state != Failed
  {
    var db, booking := s.sagas, s.sagas.sagas[g].booking;
    StoryMeans(db, g);
    var j := FirstCall(db.calls, g);
    if MoneyMoved(db, booking) {
      var i: nat :| IsPaid(db, i, booking);
      OneMoneyCall(s, i, j);
    }
    if db.sagas[g].state != Failed {
      assert IsPaid(db, j, booking);
    }
  }

  lemma {:induction false} RunSplit(s: State, cs: seq<Command>, n: nat)
    requires IsRun(s, cs) && n <= |cs|
    ensures IsRun(s, cs[..n]) && IsRun(Run(s, cs[..n]), cs[n..]) && Run(Run(s, cs[..n]), cs[n..]) == Run(s, cs)
    decreases n
  {
    if n == 0 {
      assert cs[0..] == cs;
    } else {
      RunSplit(Apply(s, cs[0]), cs[1..], n - 1);
      assert cs[..n][1..] == cs[1..][..n - 1] && cs[1..][n - 1..] == cs[n..];
    }
  }

  /** The command at `n` of the run decides the dispute. */
  ghost predicate Decides(s: State, cs: seq<Command>, n: nat, id: Id) {
    n < |cs| && cs[n].Resolve? && cs[n].id == id && Commits(Run(s, cs[..n]), cs[n])
  }

  lemma {:induction false} DecidedBySome(s: State, cs: seq<Command>, id: Id)
    requires IsRun(s, cs) && !(id in s.disputes && IsFinal(s.disputes[id].status))
    requires id in Run(s, cs).disputes && IsFinal(Run(s, cs).disputes[id].status)
    ensures exists n: nat :: Decides(s, cs, n, id)
    decreases |cs|
  {
    var t := Apply(s, cs[0]);
    if id in t.disputes && IsFinal(t.disputes[id].status) {
      assert cs[..0] == [];
      assert Decides(s, cs, 0, id);
    } else {
      DecidedBySome(t, cs[1..], id);
      var n: nat :| Decides(t, cs[1..], n, id);
      assert cs[..n + 1][1..] == cs[1..][..n];
      assert Decides(s, cs, n + 1, id);
    }
  }

  /** A verdict about money leaves its saga failed exactly if its finance call failed. */
  lemma ResolveStarts(s: State, c: Command)
    requires Sound(s) && Fresh(s, c) && c.Resolve? && Commits(s, c) && SagaFor(Verdict(c.resolution).value).Some?
    ensures var t := Apply(s, c);
      && c.id in t.disputes && t.disputes[c.id].status == Verdict(c.resolution).value
      && c.saga in t.sagas.sagas && t.sagas.sagas[c.saga].booking == t.disputes[c.id].booking
      && t.sagas.sagas[c.saga].state != Paying
      && (t.sagas.sagas[c.saga].state == Failed <==> !c.finance.Succeeds?)
  {
    var d := s.disputes[c.id];
    var x := NewSaga(c.saga, SagaFor(Verdict(c.resolution).value).value, d.id, d.booking);
    ProcessKeepsIdentity(x, c.finance, c.interaction);
    assert Process(x, c.finance, c.interaction).saga.state == Failed <==> !c.finance.Succeeds?;
  }

  lemma VerdictMovesMoneyIff(cs: seq<Command>, n: nat, id: Id)
    requires IsRun(START, cs) && Decides(START, cs, n, id) && SagaFor(Verdict(cs[n].resolution).value).Some?
    ensures var s := Run(START, cs);
      && id in s.disputes && s.disputes[id].status == Verdict(cs[n].resolution).value
      && (MoneyMoved(s.sagas, s.disputes[id].booking) <==> cs[n].finance.Succeeds?)
  {
    var s1, c, rest := Run(START, cs[..n]), cs[n], cs[n + 1..];
    RunSplit(START, cs, n);
    SoundRun(START, cs[..n]);
    assert cs[n..][0] == c && cs[n..][1..] == rest;
    SoundStep(s1, c);
    ResolveStarts(s1, c);
    StartedStays(Apply(s1, c), rest, id, c.saga);
  }

  /** What a decided dispute and its started saga come to. */
  lemma {:induction false} StartedStays(t: State, rest: seq<Command>, id: Id, g: Id)
    requires Sound(t) && IsRun(t, rest) && id in t.disputes && IsFinal(t.disputes[id].status)
    requires g in t.sagas.sagas && t.sagas.sagas[g].booking == t.disputes[id].booking && t.sagas.sagas[g].state != Paying
    ensures var s := Run(t, rest);
      && id in s.disputes && s.disputes[id] == t.disputes[id]
      && (MoneyMoved(s.sagas, s.disputes[id].booking) <==> t.sagas.sagas[g].state != Failed)
  {
    VerdictIsFinal(t, rest, id);
    ContinuesRun(t, rest);
    SoundRun(t, rest);
    assert SameJob(t.sagas.sagas[g], Run(t, rest).sagas.sagas[g]);
    MovedIffNotFailed(Run(t, rest), g);
  }

  /** When a dispute says the truth about its money: in every run, a dispute that was decided
      with money was decided by some command, and a finance call succeeded for its booking if
      and only if that command's finance call did, which is when its saga did not fail. */
  lemma VerdictIsTrueIff(cs: seq<Command>, id: Id)
    requires IsRun(START, cs)
    requires id in Run(START, cs).disputes && SagaFor(Run(START, cs).disputes[id].status).Some?
    ensures var s := Run(START, cs);
      var moved := MoneyMoved(s.sagas, s.disputes[id].booking);
      && (exists n: nat :: Decides(START, cs, n, id))
      && (forall n: nat :: Decides(START, cs, n, id) ==> (moved <==> cs[n].finance.Succeeds?))
      && (forall g :: g in s.sagas.sagas && s.sagas.sagas[g].dispute == id ==> (moved <==> s.sagas.sagas[g].state != Failed))
  {
    var s := Run(START, cs);
    SoundRun(START, cs);
    DecidedBySome(START, cs, id);
    forall n: nat | Decides(START, cs, n, id)
      ensures MoneyMoved(s.sagas, s.disputes[id].booking) <==> cs[n].finance.Succeeds?
    {
      DecisionSticks(cs, n, id);
      VerdictMovesMoneyIff(cs, n, id);
    }
    forall g | g in s.sagas.sagas && s.sagas.sagas[g].dispute == id
      ensures MoneyMoved(s.sagas, s.disputes[id].booking) <==> s.sagas.sagas[g].state != Failed
    {
      assert Grounded(s, g);
      MovedIffNotFailed(s, g);
    }
  }

  lemma DecisionSticks(cs: seq<Command>, n: nat, id: Id)
    requires IsRun(START, cs) && Decides(START, cs, n, id)
    ensures id in Run(START, cs).disputes && Run(START, cs).disputes[id].status == Verdict(cs[n].resolution).value
  {
    var s1, c, rest := Run(START, cs[..n]), cs[n], cs[n + 1..];
    RunSplit(START, cs, n);
    assert cs[n..][0] == c && cs[n..][1..] == rest;
    VerdictIsFinal(Apply(s1, c), rest, id);
  }

  /** What every run keeps of every saga, whatever its ports answer and however often it is
      retried: the finance call happens once and first; an interaction call only follows its
      success; a saga fails only if it failed; the retry count is the number of failed
      interaction calls; and a saga left behind is finished or will be found by the retry query. */
  lemma SagaStories(cs: seq<Command>, g: Id)
    requires IsRun(START, cs) && g in Run(START, cs).sagas.sagas
    ensures var db := Run(START, cs).sagas;
      var s, calls := db.sagas[g], CallsOf(db.calls, g);
      && calls != [] && calls[0].Finance? && (forall i :: 0 < i < |calls| ==> calls[i].Interaction?)
      && (|calls| > 1 ==> calls[0].result.Succeeds?)
      && (s.state == Failed <==> !calls[0].result.Succeeds?)
      && s.retryCount == Failures(calls[1..])
      && (IsTerminal(s) || IsPending(s))
  {
    SoundRun(START, cs);
    StoryMeans(Run(START, cs).sagas, g);
  }

  /** A dispute can say REFUNDED although nothing was refunded: the verdict is recorded before
      its saga asks finance, and a failed finance call does not take it back. */
  lemma RefundedWithoutRefund()
    ensures var cs := [Report("d", "b", "client", "companion", "FRAUD"), Assign("d", "admin"),
                       Resolve("d", "admin", REFUND_CLIENT, "", "g", true, Fails(""), Succeeds)];
      var s := Run(START, cs);
      && IsRun(START, cs)
      && "d" in s.disputes && s.disputes["d"].status == Refunded
      && "g" in s.sagas.sagas && s.sagas.sagas["g"].state == Failed
      && forall i :: 0 <= i < |s.sagas.calls| ==> !s.sagas.calls[i].result.Succeeds?
  {
    var a := Report("d", "b", "client", "companion", "FRAUD");
    var b := Assign("d", "admin");
    var c := Resolve("d", "admin", REFUND_CLIENT, "", "g", true, Fails(""), Succeeds);
    var s1 := Apply(START, a);
    assert "d" in s1.disputes && s1.disputes["d"].status == Open;
    var s2 := Apply(s1, b);
    assert s2.disputes["d"].status == Resolving && s2.sagas == EMPTY;
    var s3 := Apply(s2, c);
    var x := NewSaga("g", RefundSaga, "d", "b");
    var p := Process(x, Fails(""), Succeeds);
    assert p.saga.id == "g" && p.saga.state == Failed && p.calls == [Finance("g", Fails(""))];
    assert Verdict(REFUND_CLIENT) == Some(Refunded) && Commits(s2, c);
    assert s3.sagas == Save(EMPTY, p);
    assert EMPTY.calls + p.calls == p.calls;
    assert IsRun(s3, []);
    assert IsRun(s2, [c]);
    assert IsRun(s1, [b, c]);
    assert Fresh(START, a);
    assert IsRun(START, [a, b, c]);
    assert [a, b, c][1..] == [b, c] && [b, c][1..] == [c] && [c][1..] == [];
    assert Run(s2, [c]) == s3;
    assert Run(s1, [b, c]) == s3;
    assert Run(START, [a, b, c]) == s3;
  }
}
