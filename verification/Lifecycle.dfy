/** Order and cancel-command lifecycles: compare-and-set transitions along fixed edges, persisted with
  * event-id idempotency. */
module Lifecycle {
  import opened Common

  datatype State =
    // order states
    | SignalCreated | RiskRejected | ProposalCreated | ApprovalPending | ApprovalRejected | ApprovalExpired
    | Approved | PreTradeRejected | Submitting | Submitted | SubmitUnknown | PartiallyFilled | Filled
    | Cancelled | Rejected | Reconciling | ManualReview
    // cancel-command states
    | CancelRequested | CancelConfirmed | CancelRejected | CancelUnknown | CancelReconciling
    | CancelNotApplied | CancelManualReview

  datatype Machine = OrderMachine | CancelMachine

  predicate OrderEdge(a: State, b: State) {
    match a
    case SignalCreated => b.RiskRejected? || b.ProposalCreated?
    case ProposalCreated => b.ApprovalPending?
    case ApprovalPending => b.ApprovalRejected? || b.ApprovalExpired? || b.Approved?
    case Approved => b.PreTradeRejected? || b.Submitting?
    case Submitting => b.Submitted? || b.SubmitUnknown?
    case Submitted => b.PartiallyFilled? || b.Filled? || b.Cancelled? || b.Rejected?
    case PartiallyFilled => b.Filled? || b.Cancelled?
    case SubmitUnknown => b.Reconciling?
    case Reconciling => b.Submitted? || b.ManualReview?
    case _ => false
  }

  predicate CancelEdge(a: State, b: State) {
    match a
    case CancelRequested => b.CancelConfirmed? || b.CancelRejected? || b.CancelUnknown?
    case CancelUnknown => b.CancelReconciling?
    case CancelReconciling => b.CancelConfirmed? || b.CancelNotApplied? || b.CancelManualReview?
    case _ => false
  }

  predicate OrderTerminal(s: State) {
    s.RiskRejected? || s.ApprovalRejected? || s.ApprovalExpired? || s.PreTradeRejected? || s.Filled? || s.Cancelled?
    || s.Rejected? || s.ManualReview?
  }

  predicate CancelTerminal(s: State) {
    s.CancelConfirmed? || s.CancelRejected? || s.CancelNotApplied? || s.CancelManualReview?
  }

  predicate OrderAllowed(current: State, target: State) {
    && !OrderTerminal(current)
    && (current == SubmitUnknown ==> target == Reconciling)
    && OrderEdge(current, target)
  }

  predicate CancelAllowed(current: State, target: State) {
    && !CancelTerminal(current)
    && (current == CancelUnknown ==> target == CancelReconciling)
    && CancelEdge(current, target)
  }

  predicate Allowed(machine: Machine, current: State, target: State) {
    if machine.OrderMachine? then OrderAllowed(current, target) else CancelAllowed(current, target)
  }

  function StartOf(machine: Machine): State {
    if machine.OrderMachine? then SignalCreated else CancelRequested
  }

  // ----- Persistence -----

  datatype Subject = Subject(machine: Machine, id: int)

  datatype Record = Record(subject: Subject, before: State, after: State, event: int)

  datatype Store = Store(records: seq<Record>, events: set<int>, failNext: bool)

  datatype TransitionError = Stale | Illegal | PersistenceFailed

  datatype Outcome = Outcome(before: State, after: State, idempotent: bool)

  /** One call: the state the caller presents as live, the one it expects, and the one it wants. */
  datatype Call = Call(subject: Subject, current: State, expected: State, target: State, event: int)

  function Persist(store: Store, record: Record): (Store, bool) {
    if store.failNext then (store.(failNext := false), false)
    else if record.event in store.events then (store, true)
    else (store.(records := store.records + [record], events := store.events + {record.event}), true)
  }

  function Transition(store: Store, c: Call): (Store, Result<Outcome, TransitionError>) {
    if c.event in store.events then (store, Ok(Outcome(c.current, c.current, true)))
    else if c.current != c.expected then (store, Err(Stale))
    else if c.current != c.target && !Allowed(c.subject.machine, c.current, c.target) then (store, Err(Illegal))
    else
      var (next, saved) := Persist(store, Record(c.subject, c.current, c.target, c.event));
      (next, if saved then Ok(Outcome(c.current, c.target, c.current == c.target)) else Err(PersistenceFailed))
  }

  /** A call, or the storage failing the next write. */
  datatype Step = Invoke(call: Call) | Arm

  function Apply(store: Store, step: Step): Store {
    match step
    case Invoke(c) => Transition(store, c).0
    case Arm => store.(failNext := true)
  }

  const EMPTY_STORE: Store := Store([], {}, false)

  function Run(steps: seq<Step>): Store {
    if steps == [] then EMPTY_STORE else Apply(Run(steps[..|steps| - 1]), steps[|steps| - 1])
  }

  class InMemoryStatePersistence {
    var records: seq<Record>
    var events: set<int>
    var failNext: bool

    function View(): Store
      reads this
    {
      Store(records, events, failNext)
    }

    constructor ()
      ensures View() == EMPTY_STORE
    {
      records, events, failNext := [], {}, false;
    }

    method PersistTransition(record: Record) returns (saved: bool)
      modifies this
      ensures (View(), saved) == Persist(old(View()), record)
    {
      if failNext {
        failNext := false;
        return false;
      }
      if record.event in events { return true; }
      events := events + {record.event};
      records := records + [record];
      return true;
    }
  }

  method TransitionSubject(persistence: InMemoryStatePersistence, c: Call) returns (r: Result<Outcome, TransitionError>)
    modifies persistence
    ensures (persistence.View(), r) == Transition(old(persistence.View()), c)
  {
    if c.event in persistence.events { return Ok(Outcome(c.current, c.current, true)); }
    if c.current != c.expected { return Err(Stale); }
    if c.current == c.target {
      var bound := persistence.PersistTransition(Record(c.subject, c.current, c.current, c.event));
      return if bound then Ok(Outcome(c.current, c.current, true)) else Err(PersistenceFailed);
    }
    if !Allowed(c.subject.machine, c.current, c.target) { return Err(Illegal); }
    var saved := persistence.PersistTransition(Record(c.subject, c.current, c.target, c.event));
    return if saved then Ok(Outcome(c.current, c.target, false)) else Err(PersistenceFailed);
  }
}
