/**
 One call of the handoff service over the repository, with the executor as a function from the
 request to its result.  Without interference the call is the machine's begin and finish steps.
 */
module ApprovalHandoff {
  import opened Common
  import opened ApprovalTables
  import opened Approval

  datatype HandoffCode = NotFound | AlreadyConsumed | PolicyRejected | HandedOff | Refused | Later | ContractError

  function CodeFor(execution: Execution): HandoffCode {
    match execution
    case Succeeded => HandedOff
    case ExecutionRejected => Refused
    case RetryLater => Later
    case ContractViolated => ContractError
  }

  /** The machine with these tables, nobody at work and nothing sent yet. */
  function Quiet(db: Db): System {
    System(db, map[], map[], map[], [])
  }

  ghost function HandoffSteps(db: Db, outboxId: Id, now: int, execution: Execution): System {
    Apply(Apply(Quiet(db), BeginHandoff(0, outboxId, now)), FinishHandoff(0, execution))
  }

  /** What one undisturbed handoff does, read off the tables. */
  ghost predicate HandsOff(db: Db, outboxId: Id, now: int, execution: Execution, db': Db, request: Option<Request>) {
    if outboxId !in db.outbox || db.outbox[outboxId].status == OutboxConsumed then db' == db && request.None?
    else if HandoffRejection(db, db.outbox[outboxId], now).Some? then
      ConsumeOutbox(db, outboxId) == Some(db') && request.None?
    else
      && db.outbox[outboxId].eventId in db.events
      && request == Some(RequestFor(db.outbox[outboxId], db.events[db.outbox[outboxId].eventId].payload))
      && if execution.Succeeded? || execution.ExecutionRejected?
         then ConsumeOutbox(db, outboxId) == Some(db')
         else db' == db
  }

  lemma MachineDispatches(db: Db, outboxId: Id, now: int, execution: Execution, db': Db, request: Request)
    requires HandsOff(db, outboxId, now, execution, db', Some(request))
    ensures var done, sent := HandoffSteps(db, outboxId, now, execution), Dispatched(outboxId, request, now);
      && done.db == db'
      && (done.trace == [sent] || done.trace == [sent] + [RowConsumed(outboxId)])
  {
    var begun := Apply(Quiet(db), BeginHandoff(0, outboxId, now));
    assert begun.trace == [Dispatched(outboxId, request, now)];
  }

  lemma MachineRefuses(db: Db, outboxId: Id, now: int, execution: Execution, db': Db)
    requires HandsOff(db, outboxId, now, execution, db', None)
    ensures var done := HandoffSteps(db, outboxId, now, execution);
      done.db == db' && (done.trace == [] || done.trace == [RowConsumed(outboxId)])
  {
  }

  /** One undisturbed call leaves the tables, and makes the dispatches, of the machine's two steps. */
  lemma MachineHandsOff(db: Db, outboxId: Id, now: int, execution: Execution, db': Db, request: Option<Request>)
    requires HandsOff(db, outboxId, now, execution, db', request)
    ensures HandoffSteps(db, outboxId, now, execution).db == db'
    ensures Dispatches(HandoffSteps(db, outboxId, now, execution).trace)
         == if request.Some? then [Dispatched(outboxId, request.value, now)] else []
  {
    if request.Some? {
      MachineDispatches(db, outboxId, now, execution, db', request.value);
      DispatchesOne(Dispatched(outboxId, request.value, now), outboxId);
    } else {
      MachineRefuses(db, outboxId, now, execution, db');
      assert [RowConsumed(outboxId)][..0] == [];
    }
  }

  lemma DispatchesOne(sent: External, outboxId: Id)
    requires sent.Dispatched?
    ensures Dispatches([sent]) == [sent] && Dispatches([sent] + [RowConsumed(outboxId)]) == [sent]
  {
    assert [sent][..0] == [] && ([sent] + [RowConsumed(outboxId)])[..1] == [sent];
  }

  function Dispatches(trace: seq<External>): seq<External> {
    if trace == [] then []
    else Dispatches(trace[..|trace| - 1]) + if trace[|trace| - 1].Dispatched? then [trace[|trace| - 1]] else []
  }

  class ApprovalHandoffService {
    const store: ApprovalStore
    const dispatch: Request -> Execution

    constructor (store: ApprovalStore, dispatch: Request -> Execution)
      ensures this.store == store && this.dispatch == dispatch
    {
      this.store, this.dispatch := store, dispatch;
    }

    method Reject(outboxId: Id) returns (code: HandoffCode)
      modifies store
      ensures match ConsumeOutbox(old(store.View()), outboxId)
              case Some(db) => code == PolicyRejected && store.View() == db
              case None => code == AlreadyConsumed && store.View() == old(store.View())
    {
      var won := store.ConsumeOutboxOnce(outboxId);
      return if won then PolicyRejected else AlreadyConsumed;
    }

    method Consume(outboxId: Id, now: int) returns (code: HandoffCode, request: Option<Request>)
      modifies store
      ensures var execution := if request.Some? then dispatch(request.value) else RetryLater;
        HandsOff(old(store.View()), outboxId, now, execution, store.View(), request)
      ensures code.NotFound? <==> outboxId !in old(store.outbox)
      ensures code.AlreadyConsumed? <==>
        outboxId in old(store.outbox) && old(store.outbox)[outboxId].status == OutboxConsumed
      ensures code.PolicyRejected? <==>
        request.None? && outboxId in old(store.outbox) && old(store.outbox)[outboxId].status == OutboxPending
      ensures code.HandedOff? <==> request.Some? && dispatch(request.value).Succeeded?
      ensures code.Refused? <==> request.Some? && dispatch(request.value).ExecutionRejected?
      ensures code.Later? <==> request.Some? && dispatch(request.value).RetryLater?
      ensures code.ContractError? <==> request.Some? && dispatch(request.value).ContractViolated?
      ensures code.HandedOff? || code.Refused? || code.PolicyRejected? ==>
        outboxId in store.outbox && store.outbox[outboxId] == old(store.outbox)[outboxId].(status := OutboxConsumed)
      ensures code.Later? || code.ContractError? ==>
        outboxId in store.outbox && store.outbox[outboxId].status == OutboxPending && store.View() == old(store.View())
    {
      request := None;
      if outboxId !in store.outbox { return NotFound, None; }
      var row := store.outbox[outboxId];
      if row.status == OutboxConsumed { return AlreadyConsumed, None; }
      if HandoffRejection(store.View(), row, now).Some? {
        code := Reject(outboxId);
        return;
      }
      request := Some(RequestFor(row, store.events[row.eventId].payload));
      var execution := dispatch(request.value);
      code := CodeFor(execution);
      if execution.Succeeded? || execution.ExecutionRejected? {
        var won := store.ConsumeOutboxOnce(outboxId);
      }
    }
  }
}
