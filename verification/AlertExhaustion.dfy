/**
 The journal version is bounded when read and when an event is handled, but not when the dispatch
 path writes it: a run that handles events up to the bound and then attempts one delivery reaches
 a journal that no restart accepts.
 */
module AlertExhaustion {
  import opened Common
  import opened Alerts
  import opened AlertTheorems

  const SMALL_POLICY := Policy(SafetyOperator, IncidentCommander, 1, 1, 1)
  const SMALL := Config(SMALL_POLICY, [Independent])
  const ALARM := Event(Production, KillSwitch, "book", 1, 0, Active, None)
  const REFUSAL := Fate(Returns, ReceiptRefused, Returns)

  /** One open delivery of the current notice, due at `at`. */
  predicate OneOpen(w: World, version: nat, at: int) {
    && w.journal.Some? && w.service == Some(Service(w.journal.value, false))
    && w.journal.value.version == version && w.journal.value.policy == SMALL_POLICY
    && |w.journal.value.deliveries| == 1
    && Due(w.journal.value.deliveries[0], at)
  }

  lemma RefusedReceiptBumpsVersion(w: World, version: nat, at: int)
    requires OneOpen(w, version, at)
    ensures OneOpen(Apply(SMALL, w, Dispatching(1, [REFUSAL], at)), version + 1, at + 3600)
  {
    var cp := w.service.value.checkpoint;
    var d := cp.deliveries[0];
    assert DueOf(cp.deliveries, at) == [d] by {
      assert cp.deliveries == [d];
      assert cp.deliveries[1..] == [];
    }
    var attempted := Attempted(cp.policy, d, at);
    var next := Replace(cp, d, attempted);
    assert next.deliveries[0] == attempted;
    assert Delay(cp.policy, d.attempts) <= 3600;
    assert [d][1..] == [];
    var told := World(Some(next), Some(Service(next, false)), w.sent + [Sent(d.notice, at, d.attempts)]);
    assert DispatchFrom(w, [d], [REFUSAL], at) == DispatchFrom(told, [], [], at);
  }

  /** The k-th report of one alarm. */
  function Report(k: nat): Event {
    ALARM.(sequence := k)
  }

  /** After k reports of the alarm, all at clock 0: version k, one incident, and its first delivery still due. */
  ghost predicate Reported(w: World, k: nat) {
    && OneOpen(w, k, 0) && Good(SMALL, w.journal.value)
    && w.journal.value.channels == [Independent]
    && |w.journal.value.incidents| == 1
    && w.journal.value.incidents[0].lastEvent == Report(k) && w.journal.value.incidents[0].state == Active
    && w.journal.value.incidents[0].ref == ALARM.Ref()
  }

  lemma FirstReport()
    ensures Reported(Run(SMALL, [Restarting, Handling(Report(1), 0, Returns)]), 1)
  {
    var steps := [Restarting, Handling(Report(1), 0, Returns)];
    assert steps[..1] == [Restarting] && [Restarting][..0] == [];
    var start := Checkpoint(0, SMALL_POLICY, [Independent], [], []);
    var w := Run(SMALL, [Restarting]);
    assert w == World(None, Some(Service(start, false)), []);
    var next := Reduced(start, Report(1), 0);
    assert Good(SMALL, start);
    assert |next.incidents| == 1 && |next.deliveries| == 1;
    HandleValidationFailsIffExhausted(SMALL, start, Report(1), 0);
    assert HandlePlan(start, Report(1), 0).Propose?;
  }

  /** A further report of the same state only bumps the version. */
  lemma NextReport(w: World, k: nat)
    requires Reported(w, k) && 1 <= k < MAX_COUNTER
    ensures Reported(Apply(SMALL, w, Handling(Report(k + 1), 0, Returns)), k + 1)
  {
    var cp := w.journal.value;
    var event := Report(k + 1);
    var next := Reduced(cp, event, 0);
    assert cp.incidents == [cp.incidents[0]] && cp.incidents[1..] == [];
    assert Find(cp.incidents, event.Ref()) == Some(cp.incidents[0]);
    assert Without(cp.incidents, event.Ref()) == [];
    assert next.incidents == [NextIncident(cp.policy, Some(cp.incidents[0]), event)];
    assert next.deliveries == cp.deliveries;
    assert SMALL.Valid() by { assert SMALL.channels[0] == Independent; }
    HandleValidationFailsIffExhausted(SMALL, cp, event, 0);
    assert HandlePlan(cp, event, 0).Propose?;
  }

  /** Restarts, successful commits and refused receipts, all with the clock at 0. */
  predicate Plain(steps: seq<Step>) {
    forall step :: step in steps ==>
      match step
      case Restarting => true
      case Handling(_, now, fate) => now == 0 && fate.Returns?
      case Dispatching(_, fates, now) => now == 0 && fates == [REFUSAL]
      case _ => false
  }

  lemma OneMorePlain(steps: seq<Step>, step: Step)
    requires Plain(steps) && Plain([step])
    ensures Plain(steps + [step])
  {
    assert step in [step];
  }

  lemma {:induction false} Reports(k: nat) returns (steps: seq<Step>)
    requires 1 <= k <= MAX_COUNTER
    ensures Reported(Run(SMALL, steps), k)
    ensures Plain(steps)
  {
    if k == 1 {
      steps := [Restarting, Handling(Report(1), 0, Returns)];
      FirstReport();
    } else {
      var before := Reports(k - 1);
      steps := before + [Handling(Report(k), 0, Returns)];
      MoreReports(before, k);
    }
  }

  lemma MoreReports(before: seq<Step>, k: nat)
    requires 1 < k <= MAX_COUNTER && Plain(before) && Reported(Run(SMALL, before), k - 1)
    ensures var steps := before + [Handling(Report(k), 0, Returns)];
      Plain(steps) && Reported(Run(SMALL, steps), k)
  {
    var step := Handling(Report(k), 0, Returns);
    var steps := before + [step];
    assert steps[..|steps| - 1] == before;
    NextReport(Run(SMALL, before), k - 1);
    OneMorePlain(before, step);
  }

  /** There is a run, without crashes or failed commits and all at one clock reading, whose journal a restart
   refuses. */
  lemma SomeJournalIsRefused() returns (steps: seq<Step>)
    ensures SMALL.Valid() && Run(SMALL, steps).journal.Some? && Ready(Run(SMALL, steps))
    ensures Plain(steps)
    ensures Apply(SMALL, Run(SMALL, steps), Restarting).service.None?
  {
    assert SMALL.Valid() by { assert SMALL.channels[0] == Independent; }
    var reports := Reports(MAX_COUNTER);
    RefusedReceiptBumpsVersion(Run(SMALL, reports), MAX_COUNTER, 0);
    var dispatch := Dispatching(1, [REFUSAL], 0);
    steps := reports + [dispatch];
    assert steps[..|steps| - 1] == reports;
    OneMorePlain(reports, dispatch);
    ReloadAcceptedIff(SMALL, steps);
  }
}
