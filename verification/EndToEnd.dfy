/**
 The two protocols composed: pollers deliver callbacks to the approval handler, and a poller
 may record a callback only after the handler's transaction for it has ended.

 A joint state keeps the steps each protocol has taken, so every theorem about their runs
 applies to it unchanged.
 */
module EndToEnd {
  import opened Common
  import opened ApprovalTables
  import P = Polling
  import PD = PollingDelivery
  import U = TelegramUpdates
  import K = PollTables
  import A = Approval
  import AT = ApprovalTheorems

  /** A handler call that returned; `bound` is the challenge whose binding it matched when read, and
   `readAt` the number of approval steps taken before it answered. */
  datatype Answer = Answer(update: U.Update, bound: Option<Id>, readAt: nat)

  datatype Joint = Joint(polled: seq<P.Step>, approved: seq<A.Step>, answers: seq<Answer>)

  datatype World = World(setup: P.Setup, environment: string) {
    ghost function Poll(j: Joint): P.System { P.Run(setup, j.polled) }
  }

  ghost function Tables(j: Joint): A.System { A.Run(j.approved) }

  /** Handler slots of the pollers; every other handler uses an odd slot. */
  function Slot(w: nat): nat { 2 * w }

  function CallbackOf(environment: string, u: U.Update): A.Callback {
    A.Callback(environment, if u.sender.Some? then u.sender.value else 0, if u.chat.Some? then u.chat.value else 0,
               if u.message.Some? then u.message.value else 0,
               if u.callbackData.Some? then u.callbackData.value else "")
  }

  ghost predicate Matched(db: Db, cb: A.Callback, c: Id) {
    && A.DecodeToken(cb.data).Some?
    && IsChallengeWithNonce(db, c, NonceHash(A.DecodeToken(cb.data).value))
    && c in db.bindings && A.BindingMatches(db.bindings[c], db.challenges[c].columns, cb)
    && db.challenges[c].columns.via == Telegram && db.challenges[c].columns.scope == PaperScope
  }

  ghost function BoundTo(db: Db, cb: A.Callback): Option<Id> {
    if c :| Matched(db, cb, c) then Some(c) else None
  }

  datatype Step =
    | PollStep(step: P.Step)
    | ApprovalStep(action: A.Step)
    | StartHandler(w: nat, now: int)
    | EndHandler(w: nat, eventId: Id, outboxId: Id, late: bool)

  /** The poller is inside the handler call of a callback. */
  predicate HandlingCallback(pc: P.Pc) {
    pc.InHandler? && pc.kind.CallbackKind? && pc.job.i < |pc.job.batch|
  }

  /** Steps of other handlers: not on a slot that belongs to a poller. */
  predicate Foreign(step: A.Step) {
    match step
    case ReceiveCallback(h, _, _) => h % 2 == 1
    case ReceiveDirect(h, _, _, _, _) => h % 2 == 1
    case CommitTransaction(h, _, _) => h % 2 == 1
    case HandlerCrash(h) => h % 2 == 1
    case _ => true
  }

  function Terminal(w: nat): P.Step { P.OfPoller(w, P.HandlerReturns(true)) }
  function Retry(w: nat): P.Step { P.OfPoller(w, P.HandlerReturns(false)) }

  ghost function Apply(world: World, j: Joint, step: Step): Joint {
    match step
    case PollStep(OfPoller(w, ev)) =>
      if HandlingCallback(world.Poll(j).PcOf(w)) then
        // A crash or an error before the commit also rolls the handler's transaction back.
        if ev.Crash? || (ev.HandlerReturns? && !ev.terminal) then
          j.(polled := j.polled + [P.OfPoller(w, ev)], approved := j.approved + [A.HandlerCrash(Slot(w))])
        else j
      else j.(polled := j.polled + [P.OfPoller(w, ev)])
    case PollStep(other) => j.(polled := j.polled + [other])
    case ApprovalStep(action) => if Foreign(action) then j.(approved := j.approved + [action]) else j
    case StartHandler(w, now) =>
      var pc := world.Poll(j).PcOf(w);
      if !HandlingCallback(pc) || Tables(j).Handler(Slot(w)).Deciding? then j
      else
        var cb := CallbackOf(world.environment, pc.job.Here());
        var read := A.ReadCallback(Tables(j).db, cb, now);
        if read.Decide? then j.(approved := j.approved + [A.ReceiveCallback(Slot(w), cb, now)])
        else if read.Raises? then j.(polled := j.polled + [Retry(w)])
        else j.(polled := j.polled + [Terminal(w)],
                answers := j.answers + [Answer(pc.job.Here(), BoundTo(Tables(j).db, cb), |j.approved|)])
    case EndHandler(w, eventId, outboxId, late) =>
      var pc := world.Poll(j).PcOf(w);
      if !HandlingCallback(pc) || !Tables(j).Handler(Slot(w)).Deciding? then j
      else
        var d := Tables(j).Handler(Slot(w)).decision;
        var c := d.stored.columns.challengeId;
        var committed := CommitDecision(Tables(j).db, d, eventId, outboxId).Some?;
        var lost := !ChallengeUnchanged(Tables(j).db, c, d.stored.version);
        var j' := j.(approved := j.approved + [A.CommitTransaction(Slot(w), eventId, outboxId)]);
        // Past its deadline while answering, the handler has committed but the poller retries the update.
        if (committed || lost) && !late then
          j'.(polled := j.polled + [Terminal(w)], answers := j.answers + [Answer(pc.job.Here(), Some(c), |j.approved|)])
        else j'.(polled := j.polled + [Retry(w)])      // a key collision raises and rolls back
  }

  ghost function Run(world: World, steps: seq<Step>): Joint {
    if steps == [] then Joint([], [], []) else Apply(world, Run(world, steps[..|steps|-1]), steps[|steps|-1])
  }

  // ---- Invariant --------------------------------------------------------------------------

  ghost predicate Answered(answers: seq<Answer>, u: U.Update) {
    exists i | 0 <= i < |answers| :: answers[i].update == u
  }

  ghost predicate Settled(db: Db, a: Answer) {
    a.bound.Some? ==> a.bound.value in db.challenges && db.challenges[a.bound.value].columns.status != Pending
  }

  ghost predicate Inv(world: World, j: Joint) {
    && (forall u | u in world.Poll(j).calls :: u.kind.CallbackUpdate? ==> Answered(j.answers, u))
    && (forall i | 0 <= i < |j.answers| :: Settled(Tables(j).db, j.answers[i]))
  }

  lemma {:induction false} Growth(steps: seq<A.Step>, step: A.Step)
    ensures AT.Extends(A.Run(steps).db, A.Run(steps + [step]).db)
  {
    AT.RunInvariant(steps);
    var all := steps + [step];
    assert all[..|all|-1] == steps;
    AT.StepExtends(A.Run(steps), step);
  }

  lemma AnswersStay(j: Joint, step: A.Step)
    requires forall i | 0 <= i < |j.answers| :: Settled(Tables(j).db, j.answers[i])
    ensures var db' := A.Run(j.approved + [step]).db; forall i | 0 <= i < |j.answers| :: Settled(db', j.answers[i])
  {
    Growth(j.approved, step);
    var db, db' := Tables(j).db, A.Run(j.approved + [step]).db;
    forall i | 0 <= i < |j.answers| && j.answers[i].bound.Some? ensures Settled(db', j.answers[i]) {
      var c := j.answers[i].bound.value;
      assert Settled(db, j.answers[i]);
      assert AT.ChallengeMoves(db.challenges[c], db'.challenges[c]);
    }
  }

  /** Only a handler that returns a terminal result completes a call, and only its own update's. */
  lemma StepCalls(setup: P.Setup, w: nat, pc: P.Pc, db: K.Tables, ev: P.PollerEvent)
    ensures var calls := P.PollerStep(setup, w, pc, db, ev).calls;
      calls != [] ==>
        && pc.InHandler? && ev == P.HandlerReturns(true)
        && pc.job.i < |pc.job.batch| && calls == [pc.job.Here()]
  {
  }

  /** A poller step adds at most the update it is handling to the completed calls. */
  lemma PollCalls(world: World, polled: seq<P.Step>, step: P.Step)
    ensures var s, s' := P.Run(world.setup, polled), P.Run(world.setup, polled + [step]);
      forall u | u in s'.calls && u !in s.calls ::
        && step.OfPoller? && s.PcOf(step.w).InHandler? && step.event == P.HandlerReturns(true)
        && s.PcOf(step.w).job.i < |s.PcOf(step.w).job.batch| && u == s.PcOf(step.w).job.Here()
  {
    var all := polled + [step];
    assert all[..|all|-1] == polled;
    var s := P.Run(world.setup, polled);
    if step.OfPoller? {
      StepCalls(world.setup, step.w, s.PcOf(step.w), s.db, step.event);
    }
  }

  lemma PlainPollStepKeeps(world: World, j: Joint, step: P.Step)
    requires Inv(world, j)
    requires step.OfPoller? && HandlingCallback(world.Poll(j).PcOf(step.w)) ==> step.event != P.HandlerReturns(true)
    ensures var j' := j.(polled := j.polled + [step]);
      forall u | u in world.Poll(j').calls :: u.kind.CallbackUpdate? ==> Answered(j'.answers, u)
  {
    PollCalls(world, j.polled, step);
    PD.HandlingRun(world.setup, j.polled);
    var s := world.Poll(j);
    if step.OfPoller? {
      assert step.w in s.pollers ==> PD.PcVouched(s.calls, s.pollers[step.w]);
    }
  }

  lemma AnsweredStepKeeps(world: World, j: Joint, w: nat, a: Answer)
    requires Inv(world, j) && HandlingCallback(world.Poll(j).PcOf(w)) && a.update == world.Poll(j).PcOf(w).job.Here()
    ensures var j' := j.(polled := j.polled + [Terminal(w)], answers := j.answers + [a]);
      forall u | u in world.Poll(j').calls :: u.kind.CallbackUpdate? ==> Answered(j'.answers, u)
  {
    PollCalls(world, j.polled, Terminal(w));
    var answers' := j.answers + [a];
    assert answers'[|j.answers|] == a;
    forall u | Answered(j.answers, u) ensures Answered(answers', u) {
      var i :| 0 <= i < |j.answers| && j.answers[i].update == u;
      assert answers'[i].update == u;
    }
  }

  /** A matched callback is either decided now or was decided before. */
  lemma MatchedIsDecidable(db: Db, cb: A.Callback, now: int, c: Id)
    requires AT.DbOk(db) && Matched(db, cb, c)
    ensures var r := A.ReadCallback(db, cb, now);
      if db.challenges[c].columns.status == Pending then r.Decide? && r.decision.stored == db.challenges[c]
      else r == A.AnswerAlreadyUsed
  {
    var nonce := NonceHash(A.DecodeToken(cb.data).value);
    assert IsChallengeWithNonce(db, c, nonce);
    forall x | IsChallengeWithNonce(db, x, nonce) ensures x == c {
    }
    assert AT.ChallengeOk(db, c);
    assert AT.ProposalOk(db, db.challenges[c].columns.proposalId);
  }

  lemma StartKeeps(world: World, j: Joint, w: nat, now: int)
    requires Inv(world, j)
    ensures Inv(world, Apply(world, j, StartHandler(w, now)))
  {
    var pc := world.Poll(j).PcOf(w);
    if HandlingCallback(pc) && !Tables(j).Handler(Slot(w)).Deciding? {
      AT.RunInvariant(j.approved);
      var db := Tables(j).db;
      var cb := CallbackOf(world.environment, pc.job.Here());
      var read := A.ReadCallback(db, cb, now);
      if read.Decide? {
        AnswersStay(j, A.ReceiveCallback(Slot(w), cb, now));
      } else if read.Raises? {
        PlainPollStepKeeps(world, j, Retry(w));
      } else {
        AnsweredStepKeeps(world, j, w, Answer(pc.job.Here(), BoundTo(db, cb), |j.approved|));
        UnreadIsSettled(db, cb, now, Answer(pc.job.Here(), BoundTo(db, cb), |j.approved|));
      }
    }
  }

  /** A callback that is answered without a decision was bound to nothing or to a decided challenge. */
  lemma UnreadIsSettled(db: Db, cb: A.Callback, now: int, a: Answer)
    requires AT.DbOk(db) && !A.ReadCallback(db, cb, now).Decide? && a.bound == BoundTo(db, cb)
    ensures Settled(db, a)
  {
    if a.bound.Some? {
      MatchedIsDecidable(db, cb, now, a.bound.value);
    }
  }

  /** Once a decision has been committed, or lost to another one, its challenge is settled. */
  lemma DecidedIsSettled(approved: seq<A.Step>, h: nat, eventId: Id, outboxId: Id)
    requires A.Run(approved).Handler(h).Deciding?
    ensures var db, d := A.Run(approved).db, A.Run(approved).Handler(h).decision;
      var c := d.stored.columns.challengeId;
      var db' := A.Run(approved + [A.CommitTransaction(h, eventId, outboxId)]).db;
      (CommitDecision(db, d, eventId, outboxId).Some? || !ChallengeUnchanged(db, c, d.stored.version))
      ==> c in db'.challenges && db'.challenges[c].columns.status != Pending
  {
    AT.RunInvariant(approved);
    var step := A.CommitTransaction(h, eventId, outboxId);
    var all := approved + [step];
    assert all[..|all|-1] == approved;
    Growth(approved, step);
    var d := A.Run(approved).Handler(h).decision;
    var c, db, db' := d.stored.columns.challengeId, A.Run(approved).db, A.Run(all).db;
    assert AT.DecisionOk(db, d);
    assert AT.ChallengeMoves(db.challenges[c], db'.challenges[c]);
  }

  lemma EndKeeps(world: World, j: Joint, w: nat, eventId: Id, outboxId: Id, late: bool)
    requires Inv(world, j)
    ensures Inv(world, Apply(world, j, EndHandler(w, eventId, outboxId, late)))
  {
    var pc := world.Poll(j).PcOf(w);
    if HandlingCallback(pc) && Tables(j).Handler(Slot(w)).Deciding? {
      var d := Tables(j).Handler(Slot(w)).decision;
      var c := d.stored.columns.challengeId;
      AnswersStay(j, A.CommitTransaction(Slot(w), eventId, outboxId));
      if !late && (CommitDecision(Tables(j).db, d, eventId, outboxId).Some?
                   || !ChallengeUnchanged(Tables(j).db, c, d.stored.version)) {
        DecidedIsSettled(j.approved, Slot(w), eventId, outboxId);
        AnsweredStepKeeps(world, j, w, Answer(pc.job.Here(), Some(c), |j.approved|));
      } else {
        PlainPollStepKeeps(world, j, Retry(w));
      }
    }
  }

  lemma StepKeeps(world: World, j: Joint, step: Step)
    requires Inv(world, j)
    ensures Inv(world, Apply(world, j, step))
  {
    match step {
      case PollStep(OfPoller(w, ev)) =>
        PlainOrAborted(world, j, w, ev);
      case PollStep(other) => PlainPollStepKeeps(world, j, other);
      case ApprovalStep(action) => AnswersStay(j, action);
      case StartHandler(w, now) => StartKeeps(world, j, w, now);
      case EndHandler(w, eventId, outboxId, late) => EndKeeps(world, j, w, eventId, outboxId, late);
    }
  }

  lemma PlainOrAborted(world: World, j: Joint, w: nat, ev: P.PollerEvent)
    requires Inv(world, j)
    ensures Inv(world, Apply(world, j, PollStep(P.OfPoller(w, ev))))
  {
    if HandlingCallback(world.Poll(j).PcOf(w)) && ev == P.HandlerReturns(true) {
    } else {
      PlainPollStepKeeps(world, j, P.OfPoller(w, ev));
      AnswersStay(j, A.HandlerCrash(Slot(w)));
    }
  }

  lemma {:induction false} RunInvariant(world: World, steps: seq<Step>)
    ensures Inv(world, Run(world, steps))
  {
    if steps != [] {
      RunInvariant(world, steps[..|steps|-1]);
      StepKeeps(world, Run(world, steps[..|steps|-1]), steps[|steps|-1]);
    }
  }

  // ---- Answers name the challenge of their callback ---------------------------------------

  lemma MatchedStays(db: Db, db': Db, cb: A.Callback, c: Id)
    requires AT.Extends(db, db') && Matched(db, cb, c)
    ensures Matched(db', cb, c)
  {
    assert AT.ChallengeMoves(db.challenges[c], db'.challenges[c]);
  }

  /** A decision is read only from the challenge that the callback matches. */
  lemma ReadIsMatched(db: Db, cb: A.Callback, now: int)
    requires AT.DbOk(db) && A.ReadCallback(db, cb, now).Decide?
    ensures Matched(db, cb, A.ReadCallback(db, cb, now).decision.stored.columns.challengeId)
  {
    var nonce := NonceHash(A.DecodeToken(cb.data).value);
    var c :| IsChallengeWithNonce(db, c, nonce);
    forall x | IsChallengeWithNonce(db, x, nonce) ensures x == c {
    }
    assert AT.ChallengeOk(db, c);
  }

  predicate OnHandler(step: A.Step, h: nat) {
    match step
    case ReceiveCallback(x, _, _) => x == h
    case ReceiveDirect(x, _, _, _, _) => x == h
    case CommitTransaction(x, _, _) => x == h
    case HandlerCrash(x) => x == h
    case _ => false
  }

  lemma HandlerFrame(approved: seq<A.Step>, step: A.Step, h: nat)
    requires !OnHandler(step, h)
    ensures A.Run(approved + [step]).Handler(h) == A.Run(approved).Handler(h)
  {
    var all := approved + [step];
    assert all[..|all|-1] == approved;
  }

  lemma PollerFrame(setup: P.Setup, polled: seq<P.Step>, step: P.Step, w: nat)
    requires !(step.OfPoller? && step.w == w)
    ensures P.Run(setup, polled + [step]).PcOf(w) == P.Run(setup, polled).PcOf(w)
  {
    var all := polled + [step];
    assert all[..|all|-1] == polled;
  }

  ghost function CallbackAt(world: World, j: Joint, w: nat): A.Callback
    requires HandlingCallback(world.Poll(j).PcOf(w))
  {
    CallbackOf(world.environment, world.Poll(j).PcOf(w).job.Here())
  }

  /** A decision pending in a poller's handler is about the challenge its callback matches. */
  ghost predicate LinkedAt(world: World, j: Joint, w: nat) {
    Tables(j).Handler(Slot(w)).Deciding? ==>
      && HandlingCallback(world.Poll(j).PcOf(w))
      && Matched(Tables(j).db, CallbackAt(world, j, w), Tables(j).Handler(Slot(w)).decision.stored.columns.challengeId)
  }

  ghost predicate Linked(world: World, j: Joint) {
    forall w: nat {:trigger LinkedAt(world, j, w)} :: LinkedAt(world, j, w)
  }

  /** Steps that are neither the poller's nor its handler's keep the link. */
  lemma LinkStays(world: World, j: Joint, polled: seq<P.Step>, approved: seq<A.Step>, j': Joint, w: nat)
    requires LinkedAt(world, j, w) && |polled| <= 1 && |approved| <= 1
    requires j'.polled == j.polled + polled && j'.approved == j.approved + approved
    requires polled != [] ==> !(polled[0].OfPoller? && polled[0].w == w)
    requires approved != [] ==> !OnHandler(approved[0], Slot(w))
    ensures LinkedAt(world, j', w)
  {
    if polled == [] {
      assert j'.polled == j.polled;
    } else {
      assert polled == [polled[0]];
      PollerFrame(world.setup, j.polled, polled[0], w);
    }
    if approved == [] {
      assert j'.approved == j.approved;
    } else {
      assert approved == [approved[0]];
      HandlerFrame(j.approved, approved[0], Slot(w));
      Growth(j.approved, approved[0]);
      if Tables(j).Handler(Slot(w)).Deciding? {
        var c := Tables(j).Handler(Slot(w)).decision.stored.columns.challengeId;
        MatchedStays(Tables(j).db, Tables(j').db, CallbackAt(world, j, w), c);
      }
    }
  }

  lemma Rests(approved: seq<A.Step>, step: A.Step, h: nat)
    requires || step == A.HandlerCrash(h)
             || (step.CommitTransaction? && step.h == h && A.Run(approved).Handler(h).Deciding?)
    ensures A.Run(approved + [step]).Handler(h) == A.Resting
  {
    var all := approved + [step];
    assert all[..|all|-1] == approved;
  }

  lemma ReceiveLinks(world: World, j: Joint, w: nat, now: int)
    requires HandlingCallback(world.Poll(j).PcOf(w)) && !Tables(j).Handler(Slot(w)).Deciding?
    requires A.ReadCallback(Tables(j).db, CallbackAt(world, j, w), now).Decide?
    ensures LinkedAt(world, Apply(world, j, StartHandler(w, now)), w)
  {
    var cb := CallbackAt(world, j, w);
    AT.RunInvariant(j.approved);
    ReadIsMatched(Tables(j).db, cb, now);
    Receives(j.approved, Slot(w), cb, now);
  }

  lemma Receives(approved: seq<A.Step>, h: nat, cb: A.Callback, now: int)
    requires A.Run(approved).Handler(h).Resting? && A.ReadCallback(A.Run(approved).db, cb, now).Decide?
    ensures var s, t := A.Run(approved), A.Run(approved + [A.ReceiveCallback(h, cb, now)]);
      t.db == s.db && t.Handler(h) == A.Deciding(A.ReadCallback(s.db, cb, now).decision)
  {
    var all := approved + [A.ReceiveCallback(h, cb, now)];
    assert all[..|all|-1] == approved;
  }

  /** The agent's own step: its handler rests, or has just read its own callback. */
  lemma OwnStepLinks(world: World, j: Joint, step: Step, w: nat)
    requires LinkedAt(world, j, w)
    requires match step
      case PollStep(OfPoller(x, _)) => x == w
      case StartHandler(x, _) => x == w
      case EndHandler(x, _, _, _) => x == w
      case _ => false
    ensures LinkedAt(world, Apply(world, j, step), w)
  {
    var pc := world.Poll(j).PcOf(w);
    match step {
      case PollStep(OfPoller(_, ev)) =>
        if HandlingCallback(pc) { Rests(j.approved, A.HandlerCrash(Slot(w)), Slot(w)); }
      case StartHandler(_, now) =>
        if HandlingCallback(pc) && !Tables(j).Handler(Slot(w)).Deciding?
           && A.ReadCallback(Tables(j).db, CallbackAt(world, j, w), now).Decide? {
          ReceiveLinks(world, j, w, now);
        }
      case EndHandler(_, eventId, outboxId, _) =>
        if Tables(j).Handler(Slot(w)).Deciding? {
          Rests(j.approved, A.CommitTransaction(Slot(w), eventId, outboxId), Slot(w));
        }
    }
  }

  /** The steps the two machines take in one joint step. */
  lemma StepParts(world: World, j: Joint, step: Step) returns (polled: seq<P.Step>, approved: seq<A.Step>)
    ensures var j' := Apply(world, j, step);
      j'.polled == j.polled + polled && j'.approved == j.approved + approved && |polled| <= 1 && |approved| <= 1
    ensures match step
      case PollStep(s) =>
        && (polled == [] || polled == [s])
        && (approved == [] || (s.OfPoller? && approved == [A.HandlerCrash(Slot(s.w))]))
      case ApprovalStep(a) => polled == [] && (approved == [] || (Foreign(a) && approved == [a]))
      case StartHandler(w, _) =>
        && (polled == [] || (polled[0].OfPoller? && polled[0].w == w))
        && (approved == [] || (approved[0].ReceiveCallback? && approved[0].h == Slot(w)))
      case EndHandler(w, _, _, _) =>
        && (polled == [] || (polled[0].OfPoller? && polled[0].w == w))
        && (approved == [] || (approved[0].CommitTransaction? && approved[0].h == Slot(w)))
  {
    var j' := Apply(world, j, step);
    polled, approved := j'.polled[|j.polled|..], j'.approved[|j.approved|..];
  }

  lemma StepLinks(world: World, j: Joint, step: Step, w: nat)
    requires LinkedAt(world, j, w)
    ensures LinkedAt(world, Apply(world, j, step), w)
  {
    var own := match step
      case PollStep(OfPoller(x, _)) => x == w
      case StartHandler(x, _) => x == w
      case EndHandler(x, _, _, _) => x == w
      case _ => false;
    if own {
      OwnStepLinks(world, j, step, w);
    } else {
      var polled, approved := StepParts(world, j, step);
      LinkStays(world, j, polled, approved, Apply(world, j, step), w);
    }
  }

  /** An answer names the challenge its callback matches, or none matched when it was given. */
  ghost predicate AnswerTrue(world: World, j: Joint, a: Answer) {
    var cb := CallbackOf(world.environment, a.update);
    && a.readAt <= |j.approved|
    && match a.bound
       case Some(c) => Matched(Tables(j).db, cb, c)
       case None => forall c :: !Matched(A.Run(j.approved[..a.readAt]).db, cb, c)
  }

  lemma AnswerStaysTrue(world: World, j: Joint, approved: seq<A.Step>, j': Joint, a: Answer)
    requires AnswerTrue(world, j, a) && |approved| <= 1 && j'.approved == j.approved + approved
    ensures AnswerTrue(world, j', a)
  {
    assert j'.approved[..a.readAt] == j.approved[..a.readAt];
    if approved == [] {
      assert j'.approved == j.approved;
    } else {
      assert approved == [approved[0]];
      Growth(j.approved, approved[0]);
      if a.bound.Some? {
        MatchedStays(Tables(j).db, Tables(j').db, CallbackOf(world.environment, a.update), a.bound.value);
      }
    }
  }

  /** A step adds at most one answer, and that one is true. */
  lemma NewAnswerTrue(world: World, j: Joint, step: Step)
    requires Linked(world, j)
    ensures var j' := Apply(world, j, step);
      || j'.answers == j.answers
      || (|j'.answers| == |j.answers| + 1 && j'.answers[..|j.answers|] == j.answers
          && AnswerTrue(world, j', j'.answers[|j.answers|]))
  {
    var j' := Apply(world, j, step);
    if step.StartHandler? {
      assert j.approved[..|j.approved|] == j.approved;
    } else if step.EndHandler? && j'.answers != j.answers {
      assert LinkedAt(world, j, step.w);
      var commit := A.CommitTransaction(Slot(step.w), step.eventId, step.outboxId);
      var c := Tables(j).Handler(Slot(step.w)).decision.stored.columns.challengeId;
      Growth(j.approved, commit);
      MatchedStays(Tables(j).db, A.Run(j.approved + [commit]).db, CallbackAt(world, j, step.w), c);
    }
  }

  lemma {:induction false} AnswersAreTrue(world: World, steps: seq<Step>)
    ensures var j := Run(world, steps);
      Linked(world, j) && forall i | 0 <= i < |j.answers| :: AnswerTrue(world, j, j.answers[i])
  {
    if steps != [] {
      var j, step := Run(world, steps[..|steps|-1]), steps[|steps|-1];
      var j' := Apply(world, j, step);
      AnswersAreTrue(world, steps[..|steps|-1]);
      forall w: nat ensures LinkedAt(world, j', w) {
        StepLinks(world, j, step, w);
      }
      NewAnswerTrue(world, j, step);
      var polled, approved := StepParts(world, j, step);
      forall i | 0 <= i < |j'.answers| ensures AnswerTrue(world, j', j'.answers[i]) {
        if i < |j.answers| {
          assert j'.answers[i] == j.answers[i];
          AnswerStaysTrue(world, j, approved, j', j.answers[i]);
        }
      }
    } else {
      forall w: nat ensures LinkedAt(world, Run(world, steps), w) {
      }
    }
  }

  // ---- Theorem ----------------------------------------------------------------------------

  /**
   Some delivery of the callback query was answered.  If it matched a challenge, that challenge is
   decided, has its event, and an approval has its outbox row; if it did not, no challenge matched
   the callback when it was read.
   */
  ghost predicate SettledDelivery(world: World, j: Joint, a: Answer, query: Option<string>) {
    var db, cb := Tables(j).db, CallbackOf(world.environment, a.update);
    && a.update.kind.CallbackUpdate? && a.update.callbackQueryId == query
    && a.readAt <= |j.approved|
    && match a.bound
       case None => forall c :: !Matched(A.Run(j.approved[..a.readAt]).db, cb, c)
       case Some(c) =>
         && Matched(db, cb, c) && db.challenges[c].columns.status != Pending && AT.HasEvent(db, c)
         && (forall e | e in db.events && db.events[e].columns.challengeId == c ::
               db.events[e].columns.outcome.OutcomeApproved? && db.events[e].columns.approver.TelegramUser? ==>
                 AT.HasOutbox(db, e))
  }

  lemma AnswerSettles(world: World, j: Joint, a: Answer, query: Option<string>)
    requires AnswerTrue(world, j, a) && Settled(Tables(j).db, a)
    requires a.update.kind.CallbackUpdate? && a.update.callbackQueryId == query
    ensures SettledDelivery(world, j, a, query)
  {
    if a.bound.Some? {
      var db := Tables(j).db;
      forall e | e in db.events && db.events[e].columns.challengeId == a.bound.value
                 && db.events[e].columns.outcome.OutcomeApproved? && db.events[e].columns.approver.TelegramUser?
        ensures AT.HasOutbox(db, e) {
        AT.DecisionIsDurable(j.approved, a.bound.value, e);
      }
      AT.DecisionIsDurable(j.approved, a.bound.value, a.bound.value);
    }
  }

  /**
   Delivery meets decision: whenever any poller has durably recorded a callback update, a
   delivery of that callback was answered by a handler whose transaction had ended, and the
   challenge it matched carries its one durable event and, if approved, its outbox row.
   */
  lemma RecordedCallbackIsSettled(world: World, steps: seq<Step>, k: nat)
    requires k < |world.Poll(Run(world, steps)).log|
    requires world.Poll(Run(world, steps)).log[k].op.RecordOp?
    requires world.Poll(Run(world, steps)).log[k].op.verdict.kind.CallbackKind?
    ensures var j := Run(world, steps);
      exists i :: 0 <= i < |j.answers|
        && SettledDelivery(world, j, j.answers[i], world.Poll(j).log[k].op.update.callbackQueryId)
  {
    var j := Run(world, steps);
    var s := world.Poll(j);
    RunInvariant(world, steps);
    AnswersAreTrue(world, steps);
    PD.RecordedCallbacksWereHandled(world.setup, j.polled, k);
    var query := s.log[k].op.update.callbackQueryId;
    var n :| 0 <= n < |s.calls| && s.calls[n].kind.CallbackUpdate? && s.calls[n].callbackQueryId == query;
    assert s.calls[n] in s.calls;
    var i :| 0 <= i < |j.answers| && j.answers[i].update == s.calls[n];
    AnswerSettles(world, j, j.answers[i], query);
  }
}
