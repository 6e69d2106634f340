/** What every run of transition calls leaves in the log. */
module LifecycleTheorems {
  import opened Common
  import opened Lifecycle

  // ----- Without any assumption on the callers -----

  predicate RecordOk(r: Record) {
    r.before == r.after || Allowed(r.subject.machine, r.before, r.after)
  }

  /** Every record is a legal edge or a self-loop, and no event id is recorded twice. */
  predicate LogOk(store: Store) {
    && (forall k :: 0 <= k < |store.records| ==> RecordOk(store.records[k]) && store.records[k].event in store.events)
    && (forall j, k :: 0 <= j < k < |store.records| ==> store.records[j].event != store.records[k].event)
  }

  /** Whatever callers present, expect, retry or lose: the log holds legal edges and self-loops, each under its
    * own event id. */
  lemma {:induction false} LogsAreLegal(steps: seq<Step>)
    ensures LogOk(Run(steps))
  {
    if steps != [] { LogsAreLegal(steps[..|steps| - 1]); }
  }

  /** Event ids are bound exactly by the records: a call that fails binds nothing. */
  lemma {:induction false} EventsAreRecorded(steps: seq<Step>, event: int)
    ensures event in Run(steps).events <==> Bound(Run(steps).records, event)
  {
    if steps != [] {
      var before := Run(steps[..|steps| - 1]);
      EventsAreRecorded(steps[..|steps| - 1], event);
      StepEvents(before, steps[|steps| - 1], event);
    }
  }

  predicate Bound(records: seq<Record>, event: int) {
    exists k :: 0 <= k < |records| && records[k].event == event
  }

  lemma StepEvents(store: Store, step: Step, event: int)
    requires event in store.events <==> Bound(store.records, event)
    ensures event in Apply(store, step).events <==> Bound(Apply(store, step).records, event)
  {
    var next := Apply(store, step);
    if Bound(store.records, event) {
      var k :| 0 <= k < |store.records| && store.records[k].event == event;
      assert next.records[k].event == event;
    }
    if next.records != store.records {
      assert next.records[|store.records|].event in next.events;
    }
  }

  lemma {:induction false} EventsStayBound(steps: seq<Step>, more: seq<Step>, event: int)
    requires event in Run(steps).events
    ensures event in Run(steps + more).events
    decreases |more|
  {
    if more == [] {
      assert steps + more == steps;
    } else {
      var n := |more| - 1;
      EventsStayBound(steps, more[..n], event);
      assert (steps + more)[..|steps + more| - 1] == steps + more[..n];
    }
  }

  /** After an event has succeeded, every later call with its id, whatever happened in between and whatever
    * state it presents, succeeds without changing anything. */
  lemma RetryIsIdempotent(steps: seq<Step>, c: Call, more: seq<Step>, again: Call)
    requires Transition(Run(steps), c).1.Ok? && again.event == c.event
    ensures var later := Run(steps + [Invoke(c)] + more);
      Transition(later, again) == (later, Ok(Outcome(again.current, again.current, true)))
  {
    var done := steps + [Invoke(c)];
    assert done[..|done| - 1] == steps;
    EventsStayBound(done, more, c.event);
  }

  // ----- When callers present the live state -----

  function LogOf(records: seq<Record>, subject: Subject): seq<Record> {
    if records == [] then []
    else
      var before, last := LogOf(records[..|records| - 1], subject), records[|records| - 1];
      if last.subject == subject then before + [last] else before
  }

  function Live(records: seq<Record>, subject: Subject): State {
    var log := LogOf(records, subject);
    if log == [] then StartOf(subject.machine) else log[|log| - 1].after
  }

  /** What a caller can see before the call: the event id is free, the presented state is the expected one,
    * the move is a self-loop or an edge, and the storage is not about to fail. */
  predicate WillRecord(store: Store, c: Call) {
    && c.event !in store.events
    && c.current == c.expected
    && (c.current == c.target || Allowed(c.subject.machine, c.current, c.target))
    && !store.failNext
  }

  /** A call is recorded, and binds its event id, if and only if its guard holds; one that fails never is. */
  lemma RecordedIff(store: Store, c: Call)
    ensures Apply(store, Invoke(c)).records
         == store.records + if WillRecord(store, c) then [Record(c.subject, c.current, c.target, c.event)] else []
    ensures Apply(store, Invoke(c)).events == store.events + if WillRecord(store, c) then {c.event} else {}
    ensures Transition(store, c).1.Err? ==> !WillRecord(store, c)
  {
  }

  /** The step is not a recordable call for the subject, or it presents the state last recorded for it. */
  predicate Faithful(store: Store, step: Step, subject: Subject) {
    (step.Invoke? && step.call.subject == subject && WillRecord(store, step.call))
    ==> step.call.current == Live(store.records, subject)
  }

  /** Each call for the subject that its guard lets through presents the live state. */
  ghost predicate PresentsLive(steps: seq<Step>, subject: Subject) {
    forall k :: 0 <= k < |steps| ==> Faithful(Run(steps[..k]), steps[k], subject)
  }

  predicate IsPath(log: seq<Record>, start: State) {
    && (forall k :: 0 <= k < |log| ==> RecordOk(log[k]))
    && (log != [] ==> log[0].before == start)
    && (forall k :: 0 < k < |log| ==> log[k].before == log[k - 1].after)
  }

  /** What one step adds to a subject's log. */
  lemma StepLog(store: Store, step: Step, subject: Subject)
    ensures var before, after := LogOf(store.records, subject), LogOf(Apply(store, step).records, subject);
      if step.Invoke? && step.call.subject == subject && WillRecord(store, step.call)
      then
        && after == before + [Record(subject, step.call.current, step.call.target, step.call.event)]
        && RecordOk(after[|before|])
      else after == before
  {
    var next := Apply(store, step);
    if step.Invoke? { RecordedIff(store, step.call); }
    if next.records != store.records {
      assert next.records[..|next.records| - 1] == store.records;
    }
  }

  lemma PathExtends(log: seq<Record>, start: State, r: Record)
    requires RecordOk(r)
    ensures IsPath(log + [r], start) <==> IsPath(log, start) && r.before == EndOf(log, start)
  {
    var longer := log + [r];
    assert longer[|log|] == r;
    if IsPath(longer, start) {
      assert longer[..|log|] == log;
      PathPrefix(longer, start, |log|);
      if log != [] { assert longer[|log|].before == longer[|log| - 1].after; }
    }
  }

  lemma PresentsLiveSplits(steps: seq<Step>, subject: Subject)
    requires steps != []
    ensures var n := |steps| - 1;
      PresentsLive(steps, subject) <==>
        PresentsLive(steps[..n], subject) && Faithful(Run(steps[..n]), steps[n], subject)
  {
    var n := |steps| - 1;
    var before := steps[..n];
    assert forall k :: 0 <= k < n ==> before[k] == steps[k] && before[..k] == steps[..k];
  }

  /** A subject's log is a path of legal edges and self-loops from its initial state if and only if each call
    * that its guard lets through presents the live state. */
  lemma {:induction false} LogIsPathIff(steps: seq<Step>, subject: Subject)
    ensures IsPath(LogOf(Run(steps).records, subject), StartOf(subject.machine)) <==> PresentsLive(steps, subject)
  {
    if steps != [] {
      var n := |steps| - 1;
      var store, step := Run(steps[..n]), steps[n];
      LogIsPathIff(steps[..n], subject);
      PresentsLiveSplits(steps, subject);
      StepLog(store, step, subject);
      if step.Invoke? && step.call.subject == subject && WillRecord(store, step.call) {
        var c := step.call;
        var r := Record(subject, c.current, c.target, c.event);
        PathExtends(LogOf(store.records, subject), StartOf(subject.machine), r);
      }
    }
  }

  // ----- Ranks -----

  /** The longest legal walk left from a state. */
  function Rank(s: State): nat {
    match s
    case SignalCreated => 9
    case ProposalCreated => 8
    case ApprovalPending => 7
    case Approved => 6
    case Submitting => 5
    case SubmitUnknown => 4
    case Reconciling => 3
    case Submitted => 2
    case PartiallyFilled => 1
    case CancelRequested => 3
    case CancelUnknown => 2
    case CancelReconciling => 1
    case _ => 0
  }

  lemma OrderEdgesDescend(a: State, b: State)
    requires OrderEdge(a, b)
    ensures Rank(b) < Rank(a)
  {
  }

  lemma CancelEdgesDescend(a: State, b: State)
    requires CancelEdge(a, b)
    ensures Rank(b) < Rank(a)
  {
  }

  lemma EdgesDescend(machine: Machine, a: State, b: State)
    requires Allowed(machine, a, b)
    ensures Rank(b) < Rank(a)
  {
    if machine.OrderMachine? { OrderEdgesDescend(a, b); } else { CancelEdgesDescend(a, b); }
  }

  function Changes(log: seq<Record>): nat {
    if log == [] then 0
    else Changes(log[..|log| - 1]) + if log[|log| - 1].before != log[|log| - 1].after then 1 else 0
  }

  function EndOf(log: seq<Record>, start: State): State {
    if log == [] then start else log[|log| - 1].after
  }

  lemma PathPrefix(log: seq<Record>, start: State, k: nat)
    requires IsPath(log, start) && k <= |log|
    ensures IsPath(log[..k], start)
  {
  }

  lemma {:induction false} ChangesUseRank(log: seq<Record>, start: State)
    requires IsPath(log, start)
    ensures Changes(log) + Rank(EndOf(log, start)) <= Rank(start)
  {
    if log != [] {
      var n := |log| - 1;
      PathPrefix(log, start, n);
      ChangesUseRank(log[..n], start);
      assert RecordOk(log[n]);
      if log[n].before != log[n].after { EdgesDescend(log[n].subject.machine, log[n].before, log[n].after); }
    }
  }

  /** Along a path ranks never rise, and fall at each change. */
  lemma {:induction false} RanksFall(log: seq<Record>, start: State, j: nat, k: nat)
    requires IsPath(log, start) && j < k < |log|
    ensures Rank(log[k].before) <= Rank(log[j].after) && Rank(log[k].after) <= Rank(log[k].before)
    ensures log[k].before != log[k].after ==> Rank(log[k].after) < Rank(log[k].before)
    decreases k
  {
    assert RecordOk(log[k]);
    if log[k].before != log[k].after { EdgesDescend(log[k].subject.machine, log[k].before, log[k].after); }
    if j + 1 < k { RanksFall(log, start, j, k - 1); }
  }

  /** Record `k` moves the subject into state `s`. */
  predicate Enters(log: seq<Record>, k: int, s: State) {
    0 <= k < |log| && log[k].after == s && log[k].before != s
  }

  /** For callers that present the live state: each subject's log is a path from its initial state; it changes
    * state at most nine times (an order) or three times (a cancel); and it enters no state twice, so an order is
    * submitted at most once. */
  lemma LifecycleRuns(steps: seq<Step>, subject: Subject)
    requires PresentsLive(steps, subject)
    ensures var log := LogOf(Run(steps).records, subject);
      && IsPath(log, StartOf(subject.machine))
      && Changes(log) <= (if subject.machine.OrderMachine? then 9 else 3)
      && (forall j, k, s :: Enters(log, j, s) && Enters(log, k, s) ==> j == k)
  {
    var log, start := LogOf(Run(steps).records, subject), StartOf(subject.machine);
    LogIsPathIff(steps, subject);
    ChangesUseRank(log, start);
    forall j, k, s | Enters(log, j, s) && Enters(log, k, s) ensures j == k {
      if j < k { RanksFall(log, start, j, k); }
      if k < j { RanksFall(log, start, k, j); }
    }
  }

  /** Once the outcome of a submission is unknown the order is never submitting again. */
  lemma NoSubmissionAfterUnknown(steps: seq<Step>, subject: Subject, j: nat, k: nat)
    requires PresentsLive(steps, subject) && subject.machine.OrderMachine?
    requires j < k < |LogOf(Run(steps).records, subject)|
    requires LogOf(Run(steps).records, subject)[j].after == SubmitUnknown
    ensures LogOf(Run(steps).records, subject)[k].after != Submitting
  {
    LogIsPathIff(steps, subject);
    RanksFall(LogOf(Run(steps).records, subject), StartOf(subject.machine), j, k);
  }

  // ----- Both bounds are exact -----

  function Walk(states: seq<State>): seq<Step>
    requires |states| > 0
  {
    seq(|states| - 1, i requires 0 <= i < |states| - 1 =>
      Invoke(Call(Subject(OrderMachine, 1), states[i], states[i], states[i + 1], i)))
  }

  function WalkLog(states: seq<State>): seq<Record>
    requires |states| > 0
  {
    seq(|states| - 1, i requires 0 <= i < |states| - 1 => Record(Subject(OrderMachine, 1), states[i], states[i + 1], i))
  }

  /** A fresh event along an allowed edge is recorded. */
  lemma WalkStep(store: Store, c: Call)
    requires !store.failNext && c.event !in store.events && c.current == c.expected && OrderAllowed(c.current, c.target)
    requires c.subject.machine.OrderMachine?
    ensures Apply(store, Invoke(c))
         == Store(store.records + [Record(c.subject, c.current, c.target, c.event)], store.events + {c.event}, false)
  {
  }

  lemma {:induction false} WalkRuns(states: seq<State>)
    requires |states| > 0 && forall i :: 0 <= i < |states| - 1 ==> OrderAllowed(states[i], states[i + 1])
    ensures Run(Walk(states)).records == WalkLog(states) && !Run(Walk(states)).failNext
    ensures forall e :: e in Run(Walk(states)).events ==> e < |states| - 1
    decreases |states|
  {
    if |states| > 1 {
      var n := |states| - 1;
      var shorter := states[..n];
      WalkRuns(shorter);
      var c := Call(Subject(OrderMachine, 1), states[n - 1], states[n - 1], states[n], n - 1);
      assert Walk(states)[..n - 1] == Walk(shorter) && Walk(states)[n - 1] == Invoke(c);
      assert OrderAllowed(states[n - 1], states[n - 1 + 1]);
      WalkStep(Run(Walk(shorter)), c);
      assert WalkLog(states) == WalkLog(shorter) + [Record(c.subject, c.current, c.target, c.event)];
    }
  }

  lemma {:induction false} OwnLog(records: seq<Record>, subject: Subject)
    requires forall k :: 0 <= k < |records| ==> records[k].subject == subject
    ensures LogOf(records, subject) == records
  {
    if records != [] { OwnLog(records[..|records| - 1], subject); }
  }

  const LONGEST_WALK: seq<State> :=
    [SignalCreated, ProposalCreated, ApprovalPending, Approved, Submitting, SubmitUnknown, Reconciling, Submitted,
     PartiallyFilled, Filled]

  lemma {:induction false} AllChange(log: seq<Record>)
    requires forall k :: 0 <= k < |log| ==> log[k].before != log[k].after
    ensures Changes(log) == |log|
  {
    if log != [] { AllChange(log[..|log| - 1]); }
  }

  /** Nine changes do happen. */
  lemma NineChangesHappen()
    ensures Changes(LogOf(Run(Walk(LONGEST_WALK)).records, Subject(OrderMachine, 1))) == 9
  {
    WalkRuns(LONGEST_WALK);
    OwnLog(WalkLog(LONGEST_WALK), Subject(OrderMachine, 1));
    AllChange(WalkLog(LONGEST_WALK));
  }

  const TO_SUBMITTING: seq<State> := [SignalCreated, ProposalCreated, ApprovalPending, Approved, Submitting]

  lemma WalkPresentsLive(states: seq<State>)
    requires |states| > 0 && states[0] == SignalCreated
    requires forall i :: 0 <= i < |states| - 1 ==> OrderAllowed(states[i], states[i + 1])
    ensures PresentsLive(Walk(states), Subject(OrderMachine, 1))
  {
    WalkRuns(states);
    OwnLog(WalkLog(states), Subject(OrderMachine, 1));
    WalkIsPath(states);
    LogIsPathIff(Walk(states), Subject(OrderMachine, 1));
  }

  lemma WalkIsPath(states: seq<State>)
    requires |states| > 0 && forall i :: 0 <= i < |states| - 1 ==> OrderAllowed(states[i], states[i + 1])
    ensures IsPath(WalkLog(states), states[0])
  {
    var log := WalkLog(states);
    forall k | 0 <= k < |log| ensures RecordOk(log[k]) {
      assert OrderAllowed(states[k], states[k + 1]);
    }
  }

  /** The compare-and-set compares two values of the caller's. An order is walked to submission by callers
    * that all present its live state; then one more caller, still holding the approved state that has since
    * moved on, records a second submission under an event id of its own. */
  lemma StaleCallersSubmitTwice() returns (walked: seq<Step>, stale: Call)
    ensures PresentsLive(walked, stale.subject) && stale.current == stale.expected == Approved
    ensures var log := LogOf(Run(walked).records, stale.subject);
      && |log| == 4 && Live(Run(walked).records, stale.subject) == Submitting
      && log[2].after == Approved && Enters(log, 3, Submitting)
    ensures Transition(Run(walked), stale).1 == Ok(Outcome(Approved, Submitting, false))
    ensures var log := LogOf(Run(walked + [Invoke(stale)]).records, stale.subject);
      |log| == 5 && Enters(log, 3, Submitting) && Enters(log, 4, Submitting)
  {
    var s := Subject(OrderMachine, 1);
    walked, stale := Walk(TO_SUBMITTING), Call(s, Approved, Approved, Submitting, 4);
    WalkRuns(TO_SUBMITTING);
    WalkPresentsLive(TO_SUBMITTING);
    OwnLog(WalkLog(TO_SUBMITTING), s);
    var all := walked + [Invoke(stale)];
    assert all[..|all| - 1] == walked;
    WalkStep(Run(walked), stale);
    StepLog(Run(walked), Invoke(stale), s);
  }

  // ----- What a call answers -----

  /** The edges of the two machines, spelled out. */
  predicate IsEdge(machine: Machine, a: State, b: State) {
    if machine.OrderMachine? then
      || (a.SignalCreated? && (b.RiskRejected? || b.ProposalCreated?))
      || (b.ApprovalPending? && a.ProposalCreated?)
      || (a.ApprovalPending? && (b.ApprovalRejected? || b.ApprovalExpired? || b.Approved?))
      || (a.Approved? && (b.PreTradeRejected? || b.Submitting?))
      || (b.SubmitUnknown? && a.Submitting?)
      || (b.Submitted? && (a.Submitting? || a.Reconciling?))
      || ((b.Filled? || b.Cancelled?) && (a.Submitted? || a.PartiallyFilled?))
      || ((b.PartiallyFilled? || b.Rejected?) && a.Submitted?)
      || (b.Reconciling? && a.SubmitUnknown?)
      || (b.ManualReview? && a.Reconciling?)
    else
      || (a.CancelRequested? && (b.CancelConfirmed? || b.CancelRejected? || b.CancelUnknown?))
      || (b.CancelReconciling? && a.CancelUnknown?)
      || (a.CancelReconciling? && (b.CancelConfirmed? || b.CancelNotApplied? || b.CancelManualReview?))
  }

  /** The changes a machine allows are its edges, all of them: the guards on final and unknown states forbid nothing
    * that the edges do not forbid already. */
  lemma AllowedIff(machine: Machine, a: State, b: State)
    ensures Allowed(machine, a, b) <==> IsEdge(machine, a, b)
  {
    if machine.OrderMachine? { OrderEdgeIff(a, b); } else { CancelEdgeIff(a, b); }
  }

  lemma OrderEdgeIff(a: State, b: State)
    ensures OrderEdge(a, b) <==> IsEdge(OrderMachine, a, b)
  {
  }

  lemma CancelEdgeIff(a: State, b: State)
    ensures CancelEdge(a, b) <==> IsEdge(CancelMachine, a, b)
  {
  }

  predicate Final(machine: Machine, s: State) {
    if machine.OrderMachine? then OrderTerminal(s) else CancelTerminal(s)
  }

  /** The final states are those an edge enters and none leaves. */
  lemma FinalIff(machine: Machine, s: State)
    ensures Final(machine, s) <==> (exists a :: IsEdge(machine, a, s)) && forall b :: !IsEdge(machine, s, b)
  {
    assert Final(machine, s) ==> IsEdge(machine, Before(s), s) && forall b :: !IsEdge(machine, s, b);
    if a :| IsEdge(machine, a, s) && !Final(machine, s) { assert IsEdge(machine, s, After(s)); }
  }

  /** A state before a final one. */
  function Before(s: State): State {
    if s.RiskRejected? then SignalCreated
    else if s.ApprovalRejected? || s.ApprovalExpired? then ApprovalPending
    else if s.PreTradeRejected? then Approved
    else if s.ManualReview? then Reconciling
    else if s.Filled? || s.Cancelled? || s.Rejected? then Submitted
    else if s.CancelConfirmed? || s.CancelRejected? then CancelRequested
    else CancelReconciling
  }

  /** A state after one that is not final. */
  function After(s: State): State {
    if s.SignalCreated? then ProposalCreated
    else if s.ProposalCreated? then ApprovalPending
    else if s.ApprovalPending? then Approved
    else if s.Approved? then Submitting
    else if s.Submitting? then Submitted
    else if s.SubmitUnknown? then Reconciling
    else if s.Reconciling? then Submitted
    else if s.CancelUnknown? then CancelReconciling
    else if s.CancelReconciling? then CancelConfirmed
    else Filled
  }

  /** Why a call with a free event id may fail, in the order of the checks. */
  function CallChecks(store: Store, c: Call): seq<Check<TransitionError>> {
    [ Check(c.current != c.expected, Stale),
      Check(c.current != c.target && !IsEdge(c.subject.machine, c.current, c.target), Illegal),
      Check(store.failNext, PersistenceFailed)]
  }

  /** What a call answers: a bound event id is a success that changes nothing; otherwise the first check that fails
    * gives the error, only a failed write uses up the storage's failure, and a success appends one record. */
  lemma CallAnswers(store: Store, c: Call)
    ensures var (next, r) := Transition(store, c);
      if c.event in store.events then next == store && r == Ok(Outcome(c.current, c.current, true))
      else
        && AnswersFirst(CallChecks(store, c), if r.Err? then Some(r.error) else None)
        && (r.Err? ==> next == store.(failNext := store.failNext && r.error != PersistenceFailed))
        && (r.Ok? ==>
              && r.value == Outcome(c.current, c.target, c.current == c.target)
              && next.records == store.records + [Record(c.subject, c.current, c.target, c.event)]
              && next.events == store.events + {c.event} && !next.failNext)
  {
    AllowedIff(c.subject.machine, c.current, c.target);
    var checks := CallChecks(store, c);
    assert checks[0].fails <==> c.current != c.expected;
    assert checks[2].fails <==> store.failNext;
    assert FirstFailure(checks, 0) <==> checks[0].fails;
    assert FirstFailure(checks, 1) <==> !checks[0].fails && checks[1].fails;
    assert FirstFailure(checks, 2) <==> !checks[0].fails && !checks[1].fails && checks[2].fails;
  }

  /** A failure of the storage hits the next write, and only that one: a call that would have been recorded fails, and
    * made again it succeeds. */
  lemma ArmedFailsOnce(steps: seq<Step>, c: Call)
    requires WillRecord(Run(steps), c)
    ensures var armed := Run(steps + [Arm]);
      && Transition(armed, c) == (Run(steps), Err(PersistenceFailed))
      && Transition(Run(steps), c).1.Ok?
  {
    var all := steps + [Arm];
    assert all[..|all| - 1] == steps;
  }
}
