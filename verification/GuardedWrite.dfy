/**
 One guarded live write: a single-use, thread-bound delegate around the raw broker call, handed
 to an arbitrary guard, closed when the guard exits, and its outcome classified.
 */
module GuardedWrite {
  import opened Common

  type Thread = nat
  type Value = int      // identity of a broker result object

  datatype Error = BrokerError(reason: string) | StartupError(code: string) | OtherError(text: string)

  datatype Delegate = Delegate(
    owner: Thread, active: bool, started: bool, completed: bool, misused: bool,
    result: Option<Value>, error: Option<Error>)

  datatype Snapshot = Snapshot(
    started: bool, completed: bool, misused: bool, result: Option<Value>, error: Option<Error>)

  function Fresh(owner: Thread): Delegate {
    Delegate(owner, true, false, false, false, None, None)
  }

  predicate Admits(d: Delegate, thread: Thread) {
    thread == d.owner && d.active && !d.started
  }

  function SnapshotOf(d: Delegate): Snapshot {
    Snapshot(d.started, d.completed, d.misused, d.result, d.error)
  }

  /** The delegate object: each method is one critical section under its lock. */
  class SingleUseLiveDelegate {
    var owner: Thread
    var active: bool
    var started: bool
    var completed: bool
    var misused: bool
    var result: Option<Value>
    var error: Option<Error>

    constructor (thread: Thread)
      ensures View() == Fresh(thread)
    {
      owner := thread;
      active, started, completed, misused := true, false, false, false;
      result, error := None, None;
    }

    function View(): Delegate
      reads this
    {
      Delegate(owner, active, started, completed, misused, result, error)
    }

    method Enter(thread: Thread) returns (admitted: bool)
      modifies this`started, this`misused
      ensures admitted == Admits(old(View()), thread)
      ensures View() == if admitted then old(View()).(started := true) else old(View()).(misused := true)
    {
      if thread != owner || !active || started {
        misused := true;
        return false;
      }
      started := true;
      return true;
    }

    method RecordReturn(value: Value)
      modifies this`completed, this`result
      ensures View() == old(View()).(completed := true, result := Some(value))
    {
      completed := true;
      result := Some(value);
    }

    method RecordError(raised: Error)
      modifies this`error
      ensures View() == old(View()).(error := Some(raised))
    {
      error := Some(raised);
    }

    method Close() returns (snapshot: Snapshot)
      modifies this`active
      ensures View() == old(View()).(active := false) && snapshot == SnapshotOf(View())
    {
      active := false;
      snapshot := Snapshot(started, completed, misused, result, error);
    }
  }

  // ---- Classification ---------------------------------------------------------------------

  datatype Outcome =
    | Returned(value: Value)
    | RaisedBroker(error: Error)
    | RaisedStartup(error: Error)     // the guard's own startup error, re-raised
    | RaisedGuardRejected
    | RaisedUnknownOutcome

  function Resolve(s: Snapshot, guardResult: Option<Value>, guardError: Option<Error>): Outcome {
    if s.error.Some? && s.error.value.BrokerError? then RaisedBroker(s.error.value)
    else if !s.started then
      if guardError.Some? && guardError.value.StartupError? then RaisedStartup(guardError.value)
      else RaisedGuardRejected
    else if !s.completed || s.misused || s.error.Some? || guardError.Some? || s.result.None?
         || guardResult != s.result then RaisedUnknownOutcome
    else Returned(s.result.value)
  }

  // ---- Runs -------------------------------------------------------------------------------

  /** `Call` is any thread invoking the delegate, before or after the guard has exited. */
  datatype Step =
    | Call(thread: Thread)
    | RawReturns(value: Value)
    | RawRaises(error: Error)
    | RawEscapes                // a BaseException leaves the raw call unrecorded
    | CloseDelegate

  /** `entered` lists the threads that reached the raw broker; `inside` while one is there. */
  datatype System = System(
    delegate: Delegate, inside: bool, entered: seq<Thread>, returned: seq<Value>, raised: seq<Error>,
    snapshot: Option<Snapshot>)

  function Apply(s: System, step: Step): System {
    match step
    case Call(thread) =>
      if Admits(s.delegate, thread) then
        s.(delegate := s.delegate.(started := true), inside := true, entered := s.entered + [thread])
      else s.(delegate := s.delegate.(misused := true))
    case RawReturns(value) =>
      if !s.inside then s
      else s.(delegate := s.delegate.(completed := true, result := Some(value)), inside := false,
              returned := s.returned + [value])
    case RawRaises(error) =>
      if !s.inside then s
      else s.(delegate := s.delegate.(error := Some(error)), inside := false, raised := s.raised + [error])
    case RawEscapes => s.(inside := false)
    case CloseDelegate =>
      // The guard may have returned with its raw call still pending.
      if s.snapshot.Some? then s
      else s.(delegate := s.delegate.(active := false), snapshot := Some(SnapshotOf(s.delegate)))
  }

  function Run(owner: Thread, steps: seq<Step>): System {
    if steps == [] then System(Fresh(owner), false, [], [], [], None)
    else Apply(Run(owner, steps[..|steps|-1]), steps[|steps|-1])
  }

  predicate Inv(owner: Thread, s: System) {
    && s.delegate.owner == owner
    && (s.delegate.active <==> s.snapshot.None?)
    && s.entered == (if s.delegate.started then [owner] else [])
    && |s.returned| + |s.raised| <= |s.entered|
    && (s.inside ==> s.delegate.started && s.returned == [] && s.raised == [])
    && s.returned == (if s.delegate.result.Some? then [s.delegate.result.value] else [])
    && s.raised == (if s.delegate.error.Some? then [s.delegate.error.value] else [])
    && (s.delegate.completed <==> s.delegate.result.Some?)
    && (s.snapshot.Some? ==> Captures(s.snapshot.value, s.delegate))
  }

  /** The snapshot of a finished delegate, or of one whose call was still pending. */
  predicate Captures(p: Snapshot, d: Delegate) {
    && p.started == d.started
    && (p == SnapshotOf(d).(misused := p.misused)
        || (p.started && !p.completed && p.result.None? && p.error.None?))
  }

  lemma {:induction false} RunInvariant(owner: Thread, steps: seq<Step>)
    ensures Inv(owner, Run(owner, steps))
  {
    if steps != [] {
      RunInvariant(owner, steps[..|steps|-1]);
    }
  }

  /** In every interleaving the broker is entered at most once, by the owner, before the close. */
  lemma EnteredAtMostOnce(owner: Thread, steps: seq<Step>, more: seq<Step>)
    ensures Run(owner, steps).entered == [] || Run(owner, steps).entered == [owner]
    ensures Run(owner, steps).snapshot.Some? ==> Run(owner, steps + more).entered == Run(owner, steps).entered
  {
    RunInvariant(owner, steps);
    if Run(owner, steps).snapshot.Some? {
      ClosedIsFinal(owner, steps, more);
    }
  }

  /**
   After the close nobody enters and the snapshot stands.  A call that was still pending may yet
   return or raise once; otherwise results and errors are final too.
   */
  lemma {:induction false} ClosedIsFinal(owner: Thread, steps: seq<Step>, more: seq<Step>)
    requires Run(owner, steps).snapshot.Some?
    ensures var s, t := Run(owner, steps), Run(owner, steps + more);
      Settles(s, t)
  {
    if more == [] {
      assert steps + more == steps;
    } else {
      var all := steps + more;
      assert all[..|all|-1] == steps + more[..|more|-1];
      ClosedIsFinal(owner, steps, more[..|more|-1]);
      RunInvariant(owner, steps + more[..|more|-1]);
      StepSettles(owner, Run(owner, steps + more[..|more|-1]), more[|more|-1]);
    }
  }

  /** No entry and no new snapshot; results and errors grow only while a call is pending. */
  predicate Settles(s: System, t: System) {
    && t.entered == s.entered && t.snapshot == s.snapshot
    && s.returned <= t.returned && s.raised <= t.raised
    && (!s.inside ==> !t.inside && t.returned == s.returned && t.raised == s.raised)
  }

  lemma StepSettles(owner: Thread, s: System, step: Step)
    requires Inv(owner, s) && s.snapshot.Some?
    ensures Settles(s, Apply(s, step))
  {
  }

  /**
   What the classified outcome tells about the broker, for any guard and any interleaving of
   delegate calls, those after the close included.
   */
  lemma OutcomeIsTruthful(
    owner: Thread, steps: seq<Step>, more: seq<Step>, guardResult: Option<Value>, guardError: Option<Error>)
    requires Run(owner, steps).snapshot.Some?
    ensures var s := Run(owner, steps + more);
      && s.snapshot.Some?
      && match Resolve(s.snapshot.value, guardResult, guardError)
         case Returned(v) =>
           s.entered == [owner] && s.returned == [v] && s.raised == [] && guardResult == Some(v) && guardError.None?
         case RaisedBroker(e) => s.entered == [owner] && s.raised == [e] && e.BrokerError? && s.returned == []
         case RaisedStartup(e) => s.entered == [] && guardError == Some(e)
         case RaisedGuardRejected => s.entered == []
         case RaisedUnknownOutcome => s.entered == [owner]
  {
    ClosedIsFinal(owner, steps, more);
    RunInvariant(owner, steps);
    RunInvariant(owner, steps + more);
  }

  /** The write returns exactly when one undisturbed call completed before the close and the guard passed its
   result on. */
  lemma ReturnsIff(owner: Thread, steps: seq<Step>, guardResult: Option<Value>, guardError: Option<Error>)
    requires Run(owner, steps).snapshot.None?
    ensures var s, closed := Run(owner, steps), Run(owner, steps + [CloseDelegate]);
      && closed.snapshot.Some?
      && (Resolve(closed.snapshot.value, guardResult, guardError).Returned? <==>
            s.returned != [] && guardResult == Some(s.returned[0]) && guardError.None? && !s.delegate.misused)
  {
    RunInvariant(owner, steps);
    var all := steps + [CloseDelegate];
    assert all[..|all|-1] == steps;
  }

  // ---- What happened, read off the steps ----------------------------------------------------

  /** The owner's first call, made before any close. */
  predicate EntersAt(owner: Thread, steps: seq<Step>, k: int) {
    && 0 <= k < |steps| && steps[k] == Call(owner)
    && forall j :: 0 <= j < k ==> steps[j] != Call(owner) && !steps[j].CloseDelegate?
  }

  predicate IsRaw(step: Step) { step.RawReturns? || step.RawRaises? || step.RawEscapes? }

  /** The raw call entered at `k` ends at `m`. */
  predicate EndsAt(owner: Thread, steps: seq<Step>, k: int, m: int) {
    && EntersAt(owner, steps, k) && k < m < |steps| && IsRaw(steps[m])
    && forall j :: k < j < m ==> !IsRaw(steps[j])
  }

  ghost predicate Ends(owner: Thread, steps: seq<Step>, end: Step) {
    exists k, m :: EndsAt(owner, steps, k, m) && steps[m] == end
  }

  ghost predicate Pending(owner: Thread, steps: seq<Step>) {
    exists k :: EntersAt(owner, steps, k) && forall j :: k < j < |steps| ==> !IsRaw(steps[j])
  }

  /** A call that is not the owner's first before the close. */
  predicate MisusedAt(owner: Thread, steps: seq<Step>, k: int) {
    0 <= k < |steps| && steps[k].Call? && !EntersAt(owner, steps, k)
  }

  predicate Closes(steps: seq<Step>) {
    exists k :: 0 <= k < |steps| && steps[k].CloseDelegate?
  }

  ghost predicate Enters(owner: Thread, steps: seq<Step>) {
    exists k :: EntersAt(owner, steps, k)
  }

  ghost predicate Misuses(owner: Thread, steps: seq<Step>) {
    exists k :: MisusedAt(owner, steps, k)
  }

  /** One more step, and what it adds to each reading. */
  lemma EntersGrows(owner: Thread, steps: seq<Step>, step: Step)
    ensures var all := steps + [step];
      && (Enters(owner, all) <==> Enters(owner, steps) || (step == Call(owner) && !Closes(steps)))
      && (Closes(all) <==> Closes(steps) || step.CloseDelegate?)
      && (forall k :: EntersAt(owner, steps, k) <==> k < |steps| && EntersAt(owner, all, k))
  {
    var all := steps + [step];
    assert forall j :: 0 <= j < |steps| ==> all[j] == steps[j];
    assert all[|steps|] == step;
    if step == Call(owner) && !Closes(steps) && !Enters(owner, steps) {
      NoEntry(owner, steps, |steps|);
      assert EntersAt(owner, all, |steps|);
    }
    if k :| EntersAt(owner, steps, k) { assert EntersAt(owner, all, k); }
    if k :| EntersAt(owner, all, k) {
      if k < |steps| { assert EntersAt(owner, steps, k); }
    }
    if k :| 0 <= k < |steps| && steps[k].CloseDelegate? { assert all[k].CloseDelegate?; }
    if step.CloseDelegate? { assert all[|steps|].CloseDelegate?; }
  }

  lemma {:induction false} NoEntry(owner: Thread, steps: seq<Step>, n: nat)
    requires n <= |steps| && !Closes(steps) && !Enters(owner, steps)
    ensures forall j :: 0 <= j < n ==> steps[j] != Call(owner)
  {
    if n > 0 {
      NoEntry(owner, steps, n - 1);
      assert !EntersAt(owner, steps, n - 1);
    }
  }

  lemma PendingGrows(owner: Thread, steps: seq<Step>, step: Step)
    ensures var all := steps + [step];
      Pending(owner, all)
      <==> (Pending(owner, steps) && !IsRaw(step)) || (!Enters(owner, steps) && step == Call(owner) && !Closes(steps))
  {
    var all := steps + [step];
    EntersGrows(owner, steps, step);
    assert forall j :: 0 <= j < |steps| ==> all[j] == steps[j];
    if k :| EntersAt(owner, all, k) && forall j :: k < j < |all| ==> !IsRaw(all[j]) {
      if k < |steps| {
        assert EntersAt(owner, steps, k);
        assert !IsRaw(all[|steps|]);
        assert Pending(owner, steps);
      }
    }
    if Pending(owner, steps) && !IsRaw(step) {
      var k :| EntersAt(owner, steps, k) && forall j :: k < j < |steps| ==> !IsRaw(steps[j]);
      assert EntersAt(owner, all, k);
    }
    if !Enters(owner, steps) && step == Call(owner) && !Closes(steps) {
      NoEntry(owner, steps, |steps|);
      assert EntersAt(owner, all, |steps|);
    }
  }

  lemma EndsGrows(owner: Thread, steps: seq<Step>, step: Step, end: Step)
    ensures var all := steps + [step];
      Ends(owner, all, end) <==> Ends(owner, steps, end) || (Pending(owner, steps) && IsRaw(step) && end == step)
  {
    var all := steps + [step];
    EntersGrows(owner, steps, step);
    assert forall j :: 0 <= j < |steps| ==> all[j] == steps[j];
    if k, m :| EndsAt(owner, all, k, m) && all[m] == end {
      assert EntersAt(owner, steps, k);
      if m < |steps| { assert EndsAt(owner, steps, k, m); } else { assert Pending(owner, steps); }
    }
    if k, m :| EndsAt(owner, steps, k, m) && steps[m] == end { assert EndsAt(owner, all, k, m); }
    if Pending(owner, steps) && IsRaw(step) && end == step {
      var k :| EntersAt(owner, steps, k) && forall j :: k < j < |steps| ==> !IsRaw(steps[j]);
      assert EndsAt(owner, all, k, |steps|);
    }
  }

  lemma MisusesGrows(owner: Thread, steps: seq<Step>, step: Step)
    ensures var all := steps + [step];
      Misuses(owner, all) <==>
        Misuses(owner, steps) || (step.Call? && (step.thread != owner || Enters(owner, steps) || Closes(steps)))
  {
    var all := steps + [step];
    EntersGrows(owner, steps, step);
    assert forall j :: 0 <= j < |steps| ==> all[j] == steps[j];
    if k :| MisusedAt(owner, steps, k) { assert MisusedAt(owner, all, k); }
    if k :| MisusedAt(owner, all, k) {
      if k < |steps| { assert MisusedAt(owner, steps, k); }
      else if step == Call(owner) && !Closes(steps) && !Enters(owner, steps) { NoEntry(owner, steps, |steps|); }
    }
    if step.Call? && (step.thread != owner || Enters(owner, steps) || Closes(steps)) {
      assert MisusedAt(owner, all, |steps|);
    }
  }

  /** In every interleaving the delegate's flags and the broker's answers are what the steps say: the broker is
    * entered by the owner's first call unless a close came before it, its answer is the first end after that, and
    * every other call is misuse. */
  ghost predicate Reads(owner: Thread, steps: seq<Step>, s: System) {
    && (s.delegate.started <==> Enters(owner, steps))
    && (s.inside <==> Pending(owner, steps))
    && (s.delegate.misused <==> Misuses(owner, steps))
    && (s.snapshot.Some? <==> Closes(steps))
    && (forall v :: s.delegate.result == Some(v) <==> Ends(owner, steps, RawReturns(v)))
    && (forall e :: s.delegate.error == Some(e) <==> Ends(owner, steps, RawRaises(e)))
  }

  lemma {:induction false} RunReads(owner: Thread, steps: seq<Step>)
    ensures Reads(owner, steps, Run(owner, steps))
  {
    if steps != [] {
      var before, step := steps[..|steps|-1], steps[|steps|-1];
      assert steps == before + [step];
      RunReads(owner, before);
      RunInvariant(owner, before);
      EntersGrows(owner, before, step);
      PendingGrows(owner, before, step);
      MisusesGrows(owner, before, step);
      forall end ensures Ends(owner, steps, end)
        <==> Ends(owner, before, end) || (Pending(owner, before) && IsRaw(step) && end == step) {
        EndsGrows(owner, before, step, end);
      }
    }
  }

  predicate IsStartup(error: Option<Error>) { error.Some? && error.value.StartupError? }

  /** Each outcome of a write whose delegate is closed after `steps`, by what happened: a broker error is raised as
    * itself whatever the guard did; with no call made, the guard's startup error or a rejection; the value if one
    * undisturbed call gave it and the guard passed it on; and everything else is an unknown outcome. */
  lemma OutcomeIff(owner: Thread, steps: seq<Step>, guardResult: Option<Value>, guardError: Option<Error>)
    requires !Closes(steps)
    ensures var closed := Run(owner, steps + [CloseDelegate]).snapshot;
      closed.Some? &&
      var outcome := Resolve(closed.value, guardResult, guardError);
      && (forall e :: outcome == RaisedBroker(e) <==> Ends(owner, steps, RawRaises(e)) && e.BrokerError?)
      && (forall e :: outcome == RaisedStartup(e) <==>
            !Enters(owner, steps) && IsStartup(guardError) && guardError == Some(e))
      && (outcome == RaisedGuardRejected <==> !Enters(owner, steps) && !IsStartup(guardError))
      && (forall v :: outcome == Returned(v) <==>
            && Ends(owner, steps, RawReturns(v)) && !Misuses(owner, steps)
            && guardResult == Some(v) && guardError.None?)
      && (outcome == RaisedUnknownOutcome ==> Enters(owner, steps))
  {
    RunReads(owner, steps);
    RunInvariant(owner, steps);
    var all := steps + [CloseDelegate];
    assert all[..|all|-1] == steps;
  }
}
