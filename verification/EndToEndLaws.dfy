/** What a callback leads to when poller and handler are left to finish it, and what others may do meanwhile. */
module EndToEndLaws {
  import opened Common
  import opened ApprovalTables
  import P = Polling
  import K = PollTables
  import A = Approval
  import AL = ApprovalLaws
  import opened EndToEnd

  lemma PollOneMore(setup: P.Setup, polled: seq<P.Step>, step: P.Step)
    ensures P.Run(setup, polled + [step]) == P.Apply(setup, P.Run(setup, polled), step)
  {
    assert (polled + [step])[..|polled + [step]| - 1] == polled;
  }

  predicate OnHandler(action: A.Step) {
    action.ReceiveCallback? || action.ReceiveDirect? || action.CommitTransaction? || action.HandlerCrash?
  }

  /** Every step that is not on a poller's handler slot is free at any time, in both machines. */
  lemma OthersAreFree(world: World, j: Joint, action: A.Step, other: P.Step)
    requires OnHandler(action) ==> forall w: nat :: action.h != 2 * w
    requires !other.OfPoller?
    ensures Apply(world, j, ApprovalStep(action)) == j.(approved := j.approved + [action])
    ensures Apply(world, j, PollStep(other)) == j.(polled := j.polled + [other])
  {
    if OnHandler(action) { assert action.h != 2 * (action.h / 2); }
  }

  /** The poller finished its handler call and is about to record the update as handled. */
  predicate Finished(before: P.Pc, after: P.Pc) {
    && HandlingCallback(before)
    && after == P.VerdictReached(before.lease, before.job,
                                 P.Verdict(before.kind, K.Handled, before.unseen))
  }

  lemma TerminalFinishes(world: World, polled: seq<P.Step>, w: nat)
    requires HandlingCallback(P.Run(world.setup, polled).PcOf(w))
    ensures var s, after := P.Run(world.setup, polled), P.Run(world.setup, polled + [Terminal(w)]);
      Finished(s.PcOf(w), after.PcOf(w)) && after.db == s.db
  {
    PollOneMore(world.setup, polled, Terminal(w));
  }

  ghost function Joined(world: World, j: Joint, w: nat, now: int, eventId: Id, outboxId: Id): Joint {
    Apply(world, Apply(world, j, StartHandler(w, now)), EndHandler(w, eventId, outboxId, false))
  }

  /** The update in the poller's hands, as the handler gets it. */
  ghost function Given(world: World, j: Joint, w: nat): A.Callback
    requires HandlingCallback(world.Poll(j).PcOf(w))
  {
    CallbackOf(world.environment, world.Poll(j).PcOf(w).job.Here())
  }

  lemma StartReads(world: World, j: Joint, w: nat, now: int)
    requires HandlingCallback(world.Poll(j).PcOf(w)) && Tables(j).Handler(Slot(w)).Resting?
    requires A.ReadCallback(Tables(j).db, Given(world, j, w), now).Decide?
    ensures var read := A.ReceiveCallback(Slot(w), Given(world, j, w), now);
      Apply(world, j, StartHandler(w, now)) == j.(approved := j.approved + [read])
  {
  }

  lemma EndCommits(world: World, j: Joint, w: nat, d: Decision, eventId: Id, outboxId: Id)
    requires HandlingCallback(world.Poll(j).PcOf(w)) && Tables(j).Handler(Slot(w)) == A.Deciding(d)
    requires CommitDecision(Tables(j).db, d, eventId, outboxId).Some?
    ensures var u := world.Poll(j).PcOf(w).job.Here();
      Apply(world, j, EndHandler(w, eventId, outboxId, false))
      == Joint(j.polled + [Terminal(w)], j.approved + [A.CommitTransaction(Slot(w), eventId, outboxId)],
               j.answers + [Answer(u, Some(d.stored.columns.challengeId), |j.approved|)])
  {
  }

  /** From any joint state: a poller whose callback names a pending challenge, left to finish its handler call, has the
   decision committed as an approval or an expiry by the clock, an answer that names the challenge, and the update
   about to be recorded as handled. */
  lemma CallbackIsAnswered(world: World, j: Joint, w: nat, now: int, c: Id, eventId: Id, outboxId: Id)
    requires HandlingCallback(world.Poll(j).PcOf(w)) && Tables(j).Handler(Slot(w)).Resting?
    requires AL.Names(Tables(j).db, Given(world, j, w), c) && Tables(j).db.challenges[c].columns.status == Pending
    requires eventId !in Tables(j).db.events && outboxId !in Tables(j).db.outbox
    ensures var done := Joined(world, j, w, now, eventId, outboxId);
      var db, before := Tables(done).db, Tables(j).db;
      && Finished(world.Poll(j).PcOf(w), world.Poll(done).PcOf(w))
      && |done.answers| == |j.answers| + 1 && done.answers[|j.answers|].bound == Some(c)
      && done.answers[|j.answers|].update == world.Poll(j).PcOf(w).job.Here()
      && eventId in db.events && c in db.challenges && db.events[eventId].payload.challengeId == c
      && (if now < before.challenges[c].columns.expiresAt
          then db.events[eventId].payload.outcome.OutcomeApproved? && outboxId in db.outbox
               && db.outbox[outboxId].eventId == eventId && db.challenges[c].columns.status == Approved
          else db.events[eventId].payload.outcome.OutcomeExpired? && db.outbox == before.outbox
               && db.challenges[c].columns.status == Expired)
  {
    var cb, s := Given(world, j, w), Tables(j);
    var read := A.ReceiveCallback(Slot(w), cb, now);
    AL.CallbackDecisionIsRecorded(j.approved, c, cb, now, eventId, outboxId);
    AL.CallbackAnswers(j.approved, cb, now);
    AL.HandlerDecides(j.approved, Slot(w), read, eventId, outboxId);
    StartReads(world, j, w, now);
    var started := j.(approved := j.approved + [read]);
    var d := A.ReadCallback(s.db, cb, now).decision;
    EndCommits(world, started, w, d, eventId, outboxId);
    TerminalFinishes(world, j.polled, w);
  }

  /** A callback that names no challenge, or a decided one, is answered at once, without touching a table. */
  lemma CallbackIsDismissed(world: World, j: Joint, w: nat, now: int)
    requires HandlingCallback(world.Poll(j).PcOf(w)) && Tables(j).Handler(Slot(w)).Resting?
    requires forall c :: AL.Names(Tables(j).db, Given(world, j, w), c) ==>
      Tables(j).db.challenges[c].columns.status != Pending
    ensures var done := Apply(world, j, StartHandler(w, now));
      && done.approved == j.approved && Finished(world.Poll(j).PcOf(w), world.Poll(done).PcOf(w))
      && |done.answers| == |j.answers| + 1
      && done.answers[|j.answers|].update == world.Poll(j).PcOf(w).job.Here()
  {
    var cb := Given(world, j, w);
    AL.CallbackAnswers(j.approved, cb, now);
    TerminalFinishes(world, j.polled, w);
  }

  function GivingUp(crash: bool): P.PollerEvent { if crash then P.Crash else P.HandlerReturns(false) }

  lemma PollerGivesUp(world: World, polled: seq<P.Step>, w: nat, crash: bool)
    requires HandlingCallback(P.Run(world.setup, polled).PcOf(w))
    ensures P.Run(world.setup, polled + [P.OfPoller(w, GivingUp(crash))]).PcOf(w)
         == if crash then P.Idle else P.Releasing(P.Run(world.setup, polled).PcOf(w).lease)
  {
    PollOneMore(world.setup, polled, P.OfPoller(w, GivingUp(crash)));
  }

  lemma AbortIsJoint(world: World, j: Joint, w: nat, crash: bool)
    requires HandlingCallback(world.Poll(j).PcOf(w))
    ensures Apply(world, j, PollStep(P.OfPoller(w, GivingUp(crash))))
         == j.(polled := j.polled + [P.OfPoller(w, GivingUp(crash))],
               approved := j.approved + [A.HandlerCrash(Slot(w))])
  {
  }

  /** A poller that crashes or gives up inside the handler call takes its undecided answer with it. */
  lemma AbortRollsBack(world: World, j: Joint, w: nat, crash: bool)
    requires HandlingCallback(world.Poll(j).PcOf(w))
    ensures var done := Apply(world, j, PollStep(P.OfPoller(w, GivingUp(crash))));
      && Tables(done).Handler(Slot(w)).Resting? && Tables(done).db == Tables(j).db && done.answers == j.answers
      && world.Poll(done).PcOf(w) == if crash then P.Idle else P.Releasing(world.Poll(j).PcOf(w).lease)
  {
    AbortIsJoint(world, j, w, crash);
    PollerGivesUp(world, j.polled, w, crash);
    AL.RunOneMore(j.approved, A.HandlerCrash(Slot(w)));
  }
}
