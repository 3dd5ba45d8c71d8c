/** Disputes on top of their sagas: an admin decides a dispute once, and the decision starts
    the one saga that may move the booking's money. */
module Disputes {
  import opened Prelude
  import opened DisputeSagas

  datatype Status = Open | Resolving | Refunded | PaidOut | Rejected

  /** Resolution is any text the caller sends; only three are known. */
  const REFUND_CLIENT := "REFUND_CLIENT"
  const PAYOUT_COMPANION := "PAYOUT_COMPANION"
  const REJECT := "REJECT"

  const VALID_REASONS: set<string> := {"NO_SHOW", "MISCONDUCT", "FRAUD", "OTHER"}

  datatype Dispute = Dispute(
    id: Id, booking: Id, reporter: Id, accused: Id, reason: string, status: Status,
    admin: Option<Id>, resolution: Option<string>, notes: Option<string>)

  datatype Notice =
    | ReportCreated(dispute: Id, booking: Id, reporter: Id, accused: Id, reason: string)
    | Assigned(dispute: Id, admin: Id)
    | Decided(dispute: Id, booking: Id, outcome: Status, admin: Id, reporter: Id, accused: Id)

  predicate IsFinal(s: Status) {
    s == Refunded || s == PaidOut || s == Rejected
  }

  /** The transition map of the aggregate. */
  predicate CanMove(source: Status, target: Status) {
    match source
    case Open => target == Resolving
    case Resolving => IsFinal(target)
    case _ => false
  }

  function Verdict(resolution: string): Option<Status> {
    if resolution == REFUND_CLIENT then Some(Refunded)
    else if resolution == PAYOUT_COMPANION then Some(PaidOut)
    else if resolution == REJECT then Some(Rejected)
    else None
  }

  /** The kind of saga a verdict starts, if any. */
  function SagaFor(verdict: Status): Option<Kind> {
    match verdict
    case Refunded => Some(RefundSaga)
    case PaidOut => Some(PayoutSaga)
    case _ => None
  }

  // ----- The state machine

  datatype State = State(disputes: map<Id, Dispute>, notices: seq<Notice>, sagas: Db)

  const START := State(map[], [], EMPTY)

  /** Commands carry the ids drawn for new rows and the outcomes their port calls would have. */
  datatype Command =
    | Report(id: Id, booking: Id, reporter: Id, accused: Id, reason: string)
    | Assign(id: Id, admin: Id)
    | Resolve(id: Id, admin: Id, resolution: string, notes: string, saga: Id, snapshot: bool,
              finance: Outcome, interaction: Outcome)
    | RetryPass(tasks: seq<Task>)

  /** Drawn ids are new. */
  predicate Fresh(s: State, c: Command) {
    match c
    case Report(id, _, _, _, _) => id !in s.disputes
    case Resolve(_, _, _, _, saga, _, _, _) => saga !in s.sagas.sagas
    case _ => true
  }

  ghost predicate BookingTaken(s: State, booking: Id) {
    exists id :: id in s.disputes && s.disputes[id].booking == booking
  }

  function NewDispute(id: Id, booking: Id, reporter: Id, accused: Id, reason: string): Dispute {
    Dispute(id, booking, reporter, accused, reason, Open, None, None, None)
  }

  function Decide(d: Dispute, verdict: Status, admin: Id, resolution: string, notes: string): Dispute {
    d.(status := verdict, admin := Some(admin), resolution := Some(resolution), notes := Some(notes))
  }

  function DecidedNotice(d: Dispute, verdict: Status, admin: Id): Notice {
    Decided(d.id, d.booking, verdict, admin, d.reporter, d.accused)
  }

  /** A command commits a new state or changes nothing. */
  ghost predicate Commits(s: State, c: Command) {
    match c
    case Report(_, booking, _, _, reason) => !BookingTaken(s, booking) && reason in VALID_REASONS
    case Assign(id, _) => id in s.disputes && CanMove(s.disputes[id].status, Resolving)
    case Resolve(id, _, resolution, _, _, snapshot, _, _) =>
      && id in s.disputes && Verdict(resolution).Some? && CanMove(s.disputes[id].status, Verdict(resolution).value)
      && (resolution == PAYOUT_COMPANION ==> snapshot)
    case RetryPass(_) => true
  }

  function StartSaga(db: Db, verdict: Status, saga: Id, d: Dispute, finance: Outcome, interaction: Outcome): Db {
    match SagaFor(verdict)
    case Some(kind) => Begin(db, NewSaga(saga, kind, d.id, d.booking), finance, interaction)
    case None => db
  }

  ghost function Apply(s: State, c: Command): State {
    if !Commits(s, c) then s
    else
      match c
      case Report(id, booking, reporter, accused, reason) =>
        s.(disputes := s.disputes[id := NewDispute(id, booking, reporter, accused, reason)],
           notices := s.notices + [ReportCreated(id, booking, reporter, accused, reason)])
      case Assign(id, admin) =>
        s.(disputes := s.disputes[id := s.disputes[id].(status := Resolving, admin := Some(admin))],
           notices := s.notices + [Assigned(id, admin)])
      case Resolve(id, admin, resolution, notes, saga, _, finance, interaction) =>
        var d, verdict := s.disputes[id], Verdict(resolution).value;
        State(s.disputes[id := Decide(d, verdict, admin, resolution, notes)],
              s.notices + [DecidedNotice(d, verdict, admin)],
              StartSaga(s.sagas, verdict, saga, d, finance, interaction))
      case RetryPass(tasks) => s.(sagas := RetryAll(s.sagas, tasks))
  }

  ghost predicate IsRun(s: State, cs: seq<Command>)
    decreases |cs|
  {
    cs == [] || (Fresh(s, cs[0]) && IsRun(Apply(s, cs[0]), cs[1..]))
  }

  ghost function Run(s: State, cs: seq<Command>): State
    decreases |cs|
  {
    if cs == [] then s else Run(Apply(s, cs[0]), cs[1..])
  }

  // ----- The service

  /** The dispute aggregate; `false` is one of its transition errors. */
  class DisputeAggregate {
    const id: Id
    const booking: Id
    const reporter: Id
    const accused: Id
    const reason: string
    var status: Status
    var admin: Option<Id>
    var resolution: Option<string>
    var notes: Option<string>
    var events: seq<Notice>

    constructor (d: Dispute)
      ensures Row() == d && events == []
    {
      id, booking, reporter, accused, reason := d.id, d.booking, d.reporter, d.accused, d.reason;
      status, admin, resolution, notes, events := d.status, d.admin, d.resolution, d.notes, [];
    }

    function Row(): Dispute
      reads this
    {
      Dispute(id, booking, reporter, accused, reason, status, admin, resolution, notes)
    }

    method AssignAdmin(adminId: Id) returns (ok: bool)
      modifies this
      ensures ok <==> CanMove(old(status), Resolving)
      ensures Row() == if ok then old(Row()).(status := Resolving, admin := Some(adminId)) else old(Row())
      ensures events == old(events) + if ok then [Assigned(id, adminId)] else []
    {
      if !CanMove(status, Resolving) {
        return false;
      }
      status, admin := Resolving, Some(adminId);
      events := events + [Assigned(id, adminId)];
      ok := true;
    }

    /** `resolve_refund`, `resolve_payout` and `reject`, which differ in the verdict. */
    method Settle(verdict: Status, adminId: Id, text: string, note: string) returns (ok: bool)
      modifies this
      ensures ok <==> CanMove(old(status), verdict)
      ensures Row() == if ok then Decide(old(Row()), verdict, adminId, text, note) else old(Row())
      ensures events == old(events) + if ok then [DecidedNotice(Row(), verdict, adminId)] else []
    {
      if !CanMove(status, verdict) {
        return false;
      }
      status, admin, resolution, notes := verdict, Some(adminId), Some(text), Some(note);
      events := events + [Decided(id, booking, verdict, adminId, reporter, accused)];
      ok := true;
    }
  }

  class DisputeCommandService {
    var disputes: map<Id, Dispute>
    var notices: seq<Notice>
    const orchestrator: Orchestrator

    constructor ()
      ensures fresh(orchestrator) && Abs() == START
    {
      disputes, notices := map[], [];
      orchestrator := new Orchestrator();
    }

    ghost function Abs(): State
      reads this, orchestrator
    {
      State(disputes, notices, orchestrator.State())
    }

    /** `find_open_by_booking_id`, a query over the rows. */
    method HasOpen(booking: Id) returns (found: bool)
      ensures found <==> exists id :: id in disputes && disputes[id].booking == booking && !IsFinal(disputes[id].status)
    {
      found := exists id :: id in disputes && disputes[id].booking == booking && !IsFinal(disputes[id].status);
    }

    /** `create_report`. The unique booking column refuses the row if a closed dispute is in
        the way; the open check has refused it before if an open one is. */
    method CreateReport(id: Id, booking: Id, reporter: Id, accused: Id, reason: string) returns (ok: bool)
      requires id !in disputes
      modifies this
      ensures var c := Report(id, booking, reporter, accused, reason);
        (ok <==> Commits(old(Abs()), c)) && Abs() == Apply(old(Abs()), c)
    {
      var open := HasOpen(booking);
      if open || reason !in VALID_REASONS {
        return false;
      }
      if exists other :: other in disputes && disputes[other].booking == booking {
        return false;
      }
      var dispute := new DisputeAggregate(NewDispute(id, booking, reporter, accused, reason));
      disputes := disputes[id := dispute.Row()];
      notices := notices + [ReportCreated(id, booking, reporter, accused, reason)];
      ok := true;
    }

    method AssignAdmin(id: Id, admin: Id) returns (ok: bool)
      requires id in disputes ==> disputes[id].id == id
      modifies this
      ensures var c := Assign(id, admin);
        (ok <==> Commits(old(Abs()), c)) && Abs() == Apply(old(Abs()), c)
    {
      if id !in disputes {
        return false;
      }
      var dispute := new DisputeAggregate(disputes[id]);
      ok := dispute.AssignAdmin(admin);
      if ok {
        disputes := disputes[id := dispute.Row()];
        notices := notices + dispute.events;
      }
    }

    /** `resolve_dispute`. The dispute is saved before its saga starts; a snapshot call that
        throws takes the saved row back with the rest of the transaction. */
    method ResolveDispute(id: Id, admin: Id, resolution: string, notes: string, saga: Id, snapshot: bool,
                          finance: Outcome, interaction: Outcome) returns (ok: bool)
      requires id in disputes ==> disputes[id].id == id
      requires saga !in orchestrator.sagas
      modifies this, orchestrator
      ensures var c := Resolve(id, admin, resolution, notes, saga, snapshot, finance, interaction);
        (ok <==> Commits(old(Abs()), c)) && Abs() == Apply(old(Abs()), c)
    {
      if id !in disputes || Verdict(resolution).None? {
        return false;
      }
      var verdict := Verdict(resolution).value;
      var dispute := new DisputeAggregate(disputes[id]);
      ok := dispute.Settle(verdict, admin, resolution, notes);
      if !ok {
        return;
      }
      var before := disputes;
      disputes := disputes[id := dispute.Row()];
      var kind := SagaFor(verdict);
      if kind.Some? {
        ok := orchestrator.Start(saga, kind.value, id, dispute.booking, snapshot, finance, interaction);
        if !ok {
          disputes := before;
          return;
        }
      }
      this.notices := this.notices + dispute.events;
    }
  }
}
