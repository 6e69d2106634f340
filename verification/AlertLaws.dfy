/** What handling, acknowledging and dispatching answer and write, said over incidents, clocks and policy. */
module AlertLaws {
  import opened Common
  import opened Alerts
  import opened AlertTheorems

  // ---- Handling an event: refusals --------------------------------------------------------

  /** The incident an event is about, if the checkpoint has it. */
  predicate IsPrevious(cp: Checkpoint, event: Event, previous: Option<Incident>) {
    match previous
    case Some(item) => item in cp.incidents && item.ref == IncidentRef(event.environment, event.kind, event.subject)
    case None =>
      forall item | item in cp.incidents :: item.ref != IncidentRef(event.environment, event.kind, event.subject)
  }

  /** The event repeats or precedes what is known, and changes nothing. */
  predicate OldNews(event: Event, previous: Option<Incident>) {
    previous.Some? && (event.sequence < previous.value.lastEvent.sequence || event == previous.value.lastEvent)
  }

  /** The state the incident takes: an escalation lasts until a recovery. */
  predicate StateAfter(event: Event, previous: Option<Incident>, state: State) {
    if previous.Some? && previous.value.state.Escalated? && !event.state.Recovered? then state.Escalated?
    else state == event.state
  }

  /** Whether the checkpoint has room for the incident and its notices. */
  predicate HasRoom(cp: Checkpoint, previous: Option<Incident>, state: State) {
    && |cp.incidents| + (if previous.None? then 1 else 0) <= cp.policy.capacity
    && |cp.deliveries| + (if previous.None? || previous.value.state != state then |cp.channels| else 0)
       <= cp.policy.capacity
  }

  /** The checks of `handle` on an event that is not old news, in their order. */
  function HandleChecks(cp: Checkpoint, event: Event, previous: Option<Incident>, state: State, now: int)
    : seq<Check<AlertError>>
  {
    [Check(event.observedAt > now, EventFromFuture),
     Check(previous.Some? && event.sequence == previous.value.lastEvent.sequence, SequenceConflict),
     Check(previous.Some? && event.observedAt < previous.value.lastEvent.observedAt, EventTimeRegressed),
     Check(event.state.Recovered? && previous.None?, RecoveryWithoutIncident),
     Check(event.state.Recovered? && now - event.observedAt > cp.policy.recoveryMaxAge, RecoveryEvidenceStale),
     Check(!HasRoom(cp, previous, state), CapacityExceeded),
     Check(cp.version >= 0x7FFF_FFFF_FFFF_FFFF, ValidationFailed)]
  }

  function ErrorIn(plan: Plan): Option<AlertError> {
    if plan.Refuse? then Some(plan.error) else None
  }

  lemma PreviousIsFound(cp: Checkpoint, event: Event, previous: Option<Incident>)
    requires IsPrevious(cp, event, previous) && DistinctIncidents(cp.incidents)
    ensures Find(cp.incidents, event.Ref()) == previous
  {
    if previous.Some? {
      FindIsTheIncident(cp.incidents, previous.value);
    } else {
      var found := Find(cp.incidents, event.Ref());
    }
  }

  lemma {:induction false} WithoutCounts(incidents: seq<Incident>, ref: IncidentRef)
    requires DistinctIncidents(incidents)
    ensures |Without(incidents, ref)| == |incidents| - (if Find(incidents, ref).Some? then 1 else 0)
  {
    if incidents != [] {
      WithoutCounts(incidents[1..], ref);
      assert forall k | 0 < k < |incidents| :: incidents[k] == incidents[1..][k - 1];
    }
  }

  lemma RoomIsCapacity(config: Config, cp: Checkpoint, event: Event, previous: Option<Incident>, state: State, now: int)
    requires Good(config, cp) && event.Valid() && IsPrevious(cp, event, previous) && StateAfter(event, previous, state)
    ensures var next := Reduced(cp, event, now);
      HasRoom(cp, previous, state)
      <==> |next.incidents| <= cp.policy.capacity && |next.deliveries| <= cp.policy.capacity
  {
    PreviousIsFound(cp, event, previous);
    WithoutCounts(cp.incidents, event.Ref());
    ReducedDeliveries(cp, event, now);
  }

  /** For every good checkpoint, `handle` keeps the known incident exactly on old news that is not from the future;
   every other event is refused by the first check that fails, and accepted if none does. */
  lemma HandleAnswers(config: Config, cp: Checkpoint, event: Event, previous: Option<Incident>, state: State, now: int)
    requires config.Valid() && Good(config, cp) && event.Valid()
    requires IsPrevious(cp, event, previous) && StateAfter(event, previous, state)
    ensures var plan := HandlePlan(cp, event, now);
      && (plan.Keep? <==> event.observedAt <= now && OldNews(event, previous))
      && (plan.Keep? ==> plan.incident == previous.value)
      && (!plan.Keep? ==> AnswersFirst(HandleChecks(cp, event, previous, state, now), ErrorIn(plan)))
  {
    PreviousIsFound(cp, event, previous);
    RoomIsCapacity(config, cp, event, previous, state, now);
    HandleValidationFailsIffExhausted(config, cp, event, now);
    var checks := HandleChecks(cp, event, previous, state, now);
    assert |checks| == 7;
    assert checks[0].fails || checks[1].fails || checks[2].fails || checks[3].fails || checks[4].fails
        || checks[5].fails || checks[6].fails || NoFailure(checks);
  }

  // ---- Handling an event: what is written -------------------------------------------------

  /** The incident an accepted event leads to. */
  predicate Succeeds(policy: Policy, event: Event, previous: Option<Incident>, item: Incident) {
    && item.ref == IncidentRef(event.environment, event.kind, event.subject) && item.lastEvent == event
    && StateAfter(event, previous, item.state)
    && (item.state.Active? ==> item.owner == policy.owner)
    && (item.state.Escalated? ==> item.owner == policy.escalationOwner)
    && (item.state.Recovered? && previous.Some? ==> item.owner == previous.value.owner)
    && (previous.None? ==> item.revision == 1 && item.ack.None?)
    && (previous.Some? && previous.value.state == item.state ==>
          item.revision == previous.value.revision && item.ack == previous.value.ack)
    && (previous.Some? && previous.value.state != item.state ==>
          item.revision == previous.value.revision + 1 && item.ack.None?)
  }

  /** The notice of one channel about the incident as it now is. */
  predicate Announces(n: Notice, item: Incident, previous: Option<Incident>, channel: Channel) {
    && n.ref == NoticeRef(item.ref, item.revision, channel) && n.incident == item.ref && n.revision == item.revision
    && n.channel == channel && n.state == item.state && n.owner == item.owner
    && n.environment == item.lastEvent.environment && n.kind == item.lastEvent.kind
    && n.subject == item.lastEvent.subject && n.observedAt == item.lastEvent.observedAt
    && n.evidence == item.lastEvent.evidence
    && n.previous == if previous.Some? then Some(previous.value.state) else None
  }

  /** What an accepted event does to the outbox: nothing while the state stands; on a change it supersedes what is
   undelivered of the incident and adds one due notice for each route. */
  predicate Outbox(cp: Checkpoint, next: Checkpoint, item: Incident, previous: Option<Incident>, now: int) {
    var n := |cp.deliveries|;
    if previous.Some? && previous.value.state == item.state then next.deliveries == cp.deliveries
    else
      && |next.deliveries| == n + |cp.channels|
      && (forall i | 0 <= i < n ::
            next.deliveries[i]
            == if cp.deliveries[i].notice.incident == item.ref && !cp.deliveries[i].delivered
               then cp.deliveries[i].(superseded := true) else cp.deliveries[i])
      && (forall c | 0 <= c < |cp.channels| ::
            && Announces(next.deliveries[n + c].notice, item, previous, cp.channels[c])
            && next.deliveries[n + c]
               == Delivery(next.deliveries[n + c].notice, 0, now, false, false))
  }

  lemma OutboxWritten(cp: Checkpoint, event: Event, previous: Option<Incident>, now: int)
    requires Find(cp.incidents, event.Ref()) == previous
    ensures Outbox(cp, Reduced(cp, event, now), NextIncident(cp.policy, previous, event), previous, now)
  {
    var item := NextIncident(cp.policy, previous, event);
    var next, n := Reduced(cp, event, now), |cp.deliveries|;
    ReducedDeliveries(cp, event, now);
    if !(previous.Some? && previous.value.state == item.state) {
      assert next.deliveries[..n] == Supersede(cp.deliveries, item.ref);
      forall i | 0 <= i < n ensures next.deliveries[i] == Supersede(cp.deliveries, item.ref)[i] {
        assert next.deliveries[..n][i] == next.deliveries[i];
      }
    }
  }

  /** The checkpoint after an accepted event: the version bumped, the incident replaced, the outbox updated. */
  predicate Written(cp: Checkpoint, next: Checkpoint, item: Incident, previous: Option<Incident>, now: int) {
    && next.version == cp.version + 1 && next.policy == cp.policy && next.channels == cp.channels
    && next.incidents != [] && next.incidents[|next.incidents| - 1] == item
    && (forall x | x in next.incidents :: x == item || (x in cp.incidents && x.ref != item.ref))
    && (forall x | x in cp.incidents :: x.ref != item.ref ==> x in next.incidents)
    && Outbox(cp, next, item, previous, now)
  }

  /** An accepted event leads to its incident and writes the checkpoint with it. */
  lemma HandleWrites(cp: Checkpoint, event: Event, previous: Option<Incident>, now: int)
    requires IsPrevious(cp, event, previous) && DistinctIncidents(cp.incidents) && HandlePlan(cp, event, now).Propose?
    ensures var plan := HandlePlan(cp, event, now);
      Succeeds(cp.policy, event, previous, plan.incident) && Written(cp, plan.next, plan.incident, previous, now)
  {
    PreviousIsFound(cp, event, previous);
    WithoutFacts(cp.incidents, event.Ref());
    OutboxWritten(cp, event, previous, now);
    var plan := HandlePlan(cp, event, now);
    assert plan.next == Reduced(cp, event, now) && plan.incident == NextIncident(cp.policy, previous, event);
    assert plan.next.incidents == Without(cp.incidents, event.Ref()) + [plan.incident];
  }

  // ---- Acknowledging ----------------------------------------------------------------------

  function AcknowledgeChecks(item: Incident, request: AckRequest, authorized: bool): seq<Check<AlertError>> {
    [Check(request.revision != item.revision, RevisionConflict),
     Check(item.state.Recovered?, IncidentRecovered),
     Check(!authorized, AcknowledgementDenied),
     Check(item.ack.Some? && item.ack.value.request != request, AcknowledgementConflict)]
  }

  /** A request about no incident is refused as missing; otherwise the first failing check refuses it, a repeat of
   the recorded request is kept, and a first one is recorded on its incident and nowhere else. */
  lemma AcknowledgeAnswers(cp: Checkpoint, request: AckRequest, authorized: bool, now: int, item: Option<Incident>)
    requires DistinctIncidents(cp.incidents)
    requires match item
      case Some(x) => x in cp.incidents && x.ref == request.incident
      case None => forall x | x in cp.incidents :: x.ref != request.incident
    ensures var plan := AcknowledgePlan(cp, request, authorized, now);
      match item
      case None => plan == Refuse(IncidentMissing)
      case Some(x) =>
        && AnswersFirst(AcknowledgeChecks(x, request, authorized), ErrorIn(plan))
        && (plan.Keep? ==> plan.incident == x && x.ack.Some? && x.ack.value.request == request)
        && (plan.Propose? ==>
              && x.ack.None? && plan.incident == x.(ack := Some(Ack(request, now)))
              && plan.next.version == cp.version + 1 && plan.next.policy == cp.policy
              && plan.next.channels == cp.channels && plan.next.deliveries == cp.deliveries
              && |plan.next.incidents| == |cp.incidents|
              && forall i | 0 <= i < |cp.incidents| ::
                   plan.next.incidents[i]
                   == if cp.incidents[i].ref == request.incident then plan.incident else cp.incidents[i])
  {
    if item.Some? {
      FindIsTheIncident(cp.incidents, item.value);
      var checks := AcknowledgeChecks(item.value, request, authorized);
      assert |checks| == 4;
      assert checks[0].fails || checks[1].fails || checks[2].fails || checks[3].fails || NoFailure(checks);
      var k :| 0 <= k < |cp.incidents| && cp.incidents[k] == item.value;
      assert forall i | 0 <= i < |cp.incidents| :: cp.incidents[i].ref == request.incident ==> i == k;
    } else {
      var found := Find(cp.incidents, request.incident);
    }
  }

  // ---- Due deliveries and their backoff ---------------------------------------------------

  /** Due are exactly the deliveries neither delivered nor superseded whose time has come. */
  lemma {:induction false} DueAreExactly(deliveries: seq<Delivery>, now: int, d: Delivery)
    ensures multiset(DueOf(deliveries, now))[d]
         == if !d.delivered && !d.superseded && d.dueAt <= now then multiset(deliveries)[d] else 0
  {
    if deliveries != [] {
      DueAreExactly(deliveries[1..], now, d);
      assert deliveries == [deliveries[0]] + deliveries[1..];
    }
  }

  /** The backoff starts at the retry time, doubles with each of the first ten attempts, and is capped at an hour. */
  lemma {:induction false} BackoffDoubles(policy: Policy, attempts: nat)
    ensures attempts == 0 ==>
      Delay(policy, attempts) == if policy.retrySeconds < 3600 then policy.retrySeconds else 3600
    ensures attempts < 10 ==>
      Delay(policy, attempts + 1) == if 2 * Delay(policy, attempts) < 3600 then 2 * Delay(policy, attempts) else 3600
    ensures attempts >= 10 ==> Delay(policy, attempts) == Delay(policy, 10)
  {
    var a := if attempts < 10 then attempts else 10;
    assert Pow2(a + 1) == 2 * Pow2(a);
    assert policy.retrySeconds * Pow2(a + 1) == 2 * (policy.retrySeconds * Pow2(a));
  }

  // ---- States over runs -------------------------------------------------------------------

  /** The incident is in this state in the checkpoint. */
  predicate InState(cp: Checkpoint, ref: IncidentRef, state: State) {
    exists i | 0 <= i < |cp.incidents| :: cp.incidents[i].ref == ref && cp.incidents[i].state == state
  }

  /** The event, handled at `now`, is a recovery whose evidence is there and no older than the policy allows. */
  predicate FreshRecovery(config: Config, event: Event, now: int) {
    event.state.Recovered? && event.evidence.Some? && 0 <= now - event.observedAt <= config.policy.recoveryMaxAge
  }

  /** What one step may do to the state of one incident. */
  predicate StatesStep(config: Config, cp: Checkpoint, cp': Checkpoint, step: Step, ref: IncidentRef) {
    var mine := step.Handling? && step.event.Ref() == ref;
    && (InState(cp', ref, Recovered) && !InState(cp, ref, Recovered) ==>
          mine && FreshRecovery(config, step.event, step.now))
    && (InState(cp, ref, Escalated) && !InState(cp', ref, Escalated) ==>
          mine && FreshRecovery(config, step.event, step.now) && InState(cp', ref, Recovered))
    && (InState(cp, ref, Recovered) && !InState(cp', ref, Recovered) ==> mine && !step.event.state.Recovered?)
  }

  lemma SameStates(config: Config, cp: Checkpoint, cp': Checkpoint, step: Step, ref: IncidentRef)
    requires |cp'.incidents| == |cp.incidents|
    requires forall i | 0 <= i < |cp.incidents| ::
      cp'.incidents[i].ref == cp.incidents[i].ref && cp'.incidents[i].state == cp.incidents[i].state
    ensures StatesStep(config, cp, cp', step, ref)
  {
    forall state ensures InState(cp, ref, state) <==> InState(cp', ref, state) {
      if InState(cp, ref, state) {
        var i :| 0 <= i < |cp.incidents| && cp.incidents[i].ref == ref && cp.incidents[i].state == state;
        assert cp'.incidents[i].ref == ref && cp'.incidents[i].state == state;
      }
      if InState(cp', ref, state) {
        var i :| 0 <= i < |cp'.incidents| && cp'.incidents[i].ref == ref && cp'.incidents[i].state == state;
        assert cp.incidents[i].ref == ref && cp.incidents[i].state == state;
      }
    }
  }

  lemma OtherStates(cp: Checkpoint, next: Checkpoint, item: Incident, ref: IncidentRef, state: State)
    requires forall x | x in next.incidents :: x == item || (x in cp.incidents && x.ref != item.ref)
    requires forall x | x in cp.incidents :: x.ref != item.ref ==> x in next.incidents
    requires ref != item.ref
    ensures InState(cp, ref, state) <==> InState(next, ref, state)
  {
    if InState(cp, ref, state) {
      var i :| 0 <= i < |cp.incidents| && cp.incidents[i].ref == ref && cp.incidents[i].state == state;
      assert cp.incidents[i] in next.incidents;
    }
    if InState(next, ref, state) {
      var i :| 0 <= i < |next.incidents| && next.incidents[i].ref == ref && next.incidents[i].state == state;
      assert next.incidents[i] in cp.incidents;
    }
  }

  lemma OwnState(cp: Checkpoint, next: Checkpoint, item: Incident, state: State)
    requires next.incidents != [] && next.incidents[|next.incidents| - 1] == item
    requires forall x | x in next.incidents :: x == item || (x in cp.incidents && x.ref != item.ref)
    ensures InState(next, item.ref, state) <==> item.state == state
  {
    assert next.incidents[|next.incidents| - 1] == item;
    if InState(next, item.ref, state) {
      var i :| 0 <= i < |next.incidents| && next.incidents[i].ref == item.ref && next.incidents[i].state == state;
      assert next.incidents[i] in next.incidents;
    }
  }

  lemma PreviousState(cp: Checkpoint, event: Event, previous: Option<Incident>, state: State)
    requires IsPrevious(cp, event, previous) && DistinctIncidents(cp.incidents)
    ensures InState(cp, event.Ref(), state) <==> previous.Some? && previous.value.state == state
  {
    if previous.Some? {
      var k :| 0 <= k < |cp.incidents| && cp.incidents[k] == previous.value;
    }
    if InState(cp, event.Ref(), state) {
      var i :| 0 <= i < |cp.incidents| && cp.incidents[i].ref == event.Ref() && cp.incidents[i].state == state;
      assert cp.incidents[i] in cp.incidents;
    }
  }

  lemma HandleStates(config: Config, cp: Checkpoint, event: Event, now: int, fate: CommitFate, ref: IncidentRef)
    requires config.Valid() && Good(config, cp) && event.Valid() && HandlePlan(cp, event, now).Propose?
    ensures StatesStep(config, cp, HandlePlan(cp, event, now).next, Handling(event, now, fate), ref)
  {
    var previous := Find(cp.incidents, event.Ref());
    assert IsPrevious(cp, event, previous);
    var plan := HandlePlan(cp, event, now);
    HandleWrites(cp, event, previous, now);
    HandleAnswers(config, cp, event, previous, plan.incident.state, now);
    var checks := HandleChecks(cp, event, previous, plan.incident.state, now);
    assert NoFailure(checks) && !checks[0].fails && !checks[3].fails && !checks[4].fails;
    if ref == event.Ref() {
      forall state: State
        ensures InState(plan.next, ref, state) <==> plan.incident.state == state
        ensures InState(cp, ref, state) <==> previous.Some? && previous.value.state == state {
        OwnState(cp, plan.next, plan.incident, state);
        PreviousState(cp, event, previous, state);
      }
    } else {
      forall state: State ensures InState(cp, ref, state) <==> InState(plan.next, ref, state) {
        OtherStates(cp, plan.next, plan.incident, ref, state);
      }
    }
  }

  lemma {:induction false} DispatchKeepsIncidents(w: World, due: seq<Delivery>, fates: seq<Fate>, now: int)
    requires w.journal.Some? && (w.service.Some? ==> w.service.value.checkpoint.incidents == w.journal.value.incidents)
    ensures DispatchFrom(w, due, fates, now).journal.Some?
    ensures DispatchFrom(w, due, fates, now).journal.value.incidents == w.journal.value.incidents
    decreases |due|
  {
    if due != [] && w.service.Some? && fates != [] {
      var cp := w.service.value.checkpoint;
      var attempted := Attempted(cp.policy, due[0], now);
      var (tried, ok) := CommitTo(w, Replace(cp, due[0], attempted), fates[0].attempt);
      if ok && !fates[0].send.CrashBeforeSend? && !fates[0].send.CrashAfterSend? {
        var told := tried.(sent := tried.sent + [Sent(due[0].notice, now, due[0].attempts)]);
        if fates[0].send.ReceiptRefused? {
          DispatchKeepsIncidents(told, due[1..], fates[1..], now);
        } else {
          var received := Replace(told.service.value.checkpoint, attempted, attempted.(delivered := true));
          var (done, kept) := CommitTo(told, received, fates[0].receipt);
          if kept { DispatchKeepsIncidents(done, due[1..], fates[1..], now); }
        }
      }
    }
  }

  lemma HandlingStates(config: Config, w: World, event: Event, now: int, fate: CommitFate, ref: IncidentRef)
    requires config.Valid() && Inv(config, w)
    ensures var step := Handling(event, now, fate);
      StatesStep(config, Durable(config, w), Durable(config, Apply(config, w, step)), step, ref)
  {
    var cp := Durable(config, w);
    SameStates(config, cp, cp, Handling(event, now, fate), ref);
    if w.service.Some? && event.Valid() && Ready(w) && HandlePlan(cp, event, now).Propose? {
      HandleStates(config, cp, event, now, fate, ref);
    }
  }

  lemma AcknowledgingStates(
    config: Config, w: World, request: AckRequest, authorized: bool, now: int, fate: CommitFate, ref: IncidentRef)
    requires config.Valid() && Inv(config, w)
    ensures var step := Acknowledging(request, authorized, now, fate);
      StatesStep(config, Durable(config, w), Durable(config, Apply(config, w, step)), step, ref)
  {
    var cp, step := Durable(config, w), Acknowledging(request, authorized, now, fate);
    SameStates(config, cp, cp, step, ref);
    if w.service.Some? && Ready(w) && AcknowledgePlan(cp, request, authorized, now).Propose? {
      SameStates(config, cp, AcknowledgePlan(cp, request, authorized, now).next, step, ref);
    }
  }

  /** Over every run: an incident becomes recovered only by handling a recovery of its own whose evidence is no older
   than the policy allows; an escalated one leaves that state only so; and a recovered one only by a later report of
   its own. */
  lemma StatesChangeLawfully(config: Config, steps: seq<Step>, step: Step, ref: IncidentRef)
    requires config.Valid()
    ensures var w := Run(config, steps);
      StatesStep(config, Durable(config, w), Durable(config, Apply(config, w, step)), step, ref)
  {
    RunInvariant(config, steps);
    StepStates(config, Run(config, steps), step, ref);
  }

  lemma StepStates(config: Config, w: World, step: Step, ref: IncidentRef)
    requires config.Valid() && Inv(config, w)
    ensures StatesStep(config, Durable(config, w), Durable(config, Apply(config, w, step)), step, ref)
  {
    var cp := Durable(config, w);
    match step {
      case Handling(event, now, fate) => HandlingStates(config, w, event, now, fate, ref);
      case Acknowledging(request, authorized, now, fate) =>
        AcknowledgingStates(config, w, request, authorized, now, fate, ref);
      case Dispatching(batch, fates, now) =>
        SameStates(config, cp, cp, step, ref);
        if Ready(w) && 1 <= batch <= 100 {
          DispatchStates(config, w, Take(DueOf(cp.deliveries, now), batch), fates, now, step, ref);
        }
      case _ => SameStates(config, cp, cp, step, ref);
    }
  }

  lemma DispatchStates(
    config: Config, w: World, due: seq<Delivery>, fates: seq<Fate>, now: int, step: Step, ref: IncidentRef)
    requires Inv(config, w) && Ready(w) && (w.journal.None? ==> due == [])
    ensures StatesStep(config, Durable(config, w), Durable(config, DispatchFrom(w, due, fates, now)), step, ref)
  {
    var cp := Durable(config, w);
    if w.journal.Some? {
      DispatchKeepsIncidents(w, due, fates, now);
    }
    SameStates(config, cp, Durable(config, DispatchFrom(w, due, fates, now)), step, ref);
  }

  // ---- Which checkpoints a restart accepts ------------------------------------------------

  /** An incident of another event, in a state its event does not lead to, or acknowledged for another revision or
   after its recovery. */
  predicate IncidentBad(item: Incident) {
    var e := item.lastEvent;
    || item.ref != IncidentRef(e.environment, e.kind, e.subject)
    || (item.state != e.state && !(item.state.Escalated? && e.state.Active?))
    || (item.ack.Some? && item.ack.value.request.incident != item.ref)
    || (item.ack.Some? && item.ack.value.request.revision != item.revision)
    || (item.ack.Some? && item.state.Recovered?)
  }

  /** A notice of a later revision, of no route, under another reference, left open after a change, about another
   subject, of a recovery without evidence, or of another state than the current one. */
  predicate NoticeBad(channels: seq<Channel>, d: Delivery, item: Incident) {
    var n, e := d.notice, item.lastEvent;
    || n.revision > item.revision || n.channel !in channels
    || n.ref != NoticeRef(n.incident, n.revision, n.channel)
    || (n.revision < item.revision && !d.delivered && !d.superseded)
    || n.environment != e.environment || n.kind != e.kind || n.subject != e.subject
    || (n.state.Recovered? && n.evidence.None?)
    || (n.revision == item.revision && n.state != item.state)
  }

  lemma FitsIff(channels: seq<Channel>, d: Delivery, item: Incident)
    ensures DeliveryFits(channels, d, item) <==> d.notice.incident == item.ref && !NoticeBad(channels, d, item)
  {
  }

  /** A delivery is sound if it has an incident and is a good notice of it. */
  predicate DeliverySound(cp: Checkpoint, d: Delivery) {
    && (exists item :: item in cp.incidents && item.ref == d.notice.incident)
    && forall item | item in cp.incidents && item.ref == d.notice.incident :: !NoticeBad(cp.channels, d, item)
  }

  lemma DeliverySoundIff(cp: Checkpoint, d: Delivery)
    requires DistinctIncidents(cp.incidents)
    ensures DeliveryOk(cp.channels, cp.incidents, d) <==> DeliverySound(cp, d)
  {
    if DeliveryOk(cp.channels, cp.incidents, d) {
      var k :| 0 <= k < |cp.incidents| && DeliveryFits(cp.channels, d, cp.incidents[k]);
      FitsIff(cp.channels, d, cp.incidents[k]);
      assert cp.incidents[k] in cp.incidents;
    }
    if DeliverySound(cp, d) {
      var item :| item in cp.incidents && item.ref == d.notice.incident;
      var k :| 0 <= k < |cp.incidents| && cp.incidents[k] == item;
      FitsIff(cp.channels, d, item);
    }
  }

  /** The current revision of the incident has a notice on every route. */
  predicate AllAnnounced(cp: Checkpoint, item: Incident) {
    forall channel | channel in cp.channels ::
      exists d :: d in cp.deliveries && d.notice.ref == NoticeRef(item.ref, item.revision, channel)
  }

  lemma AllAnnouncedIff(cp: Checkpoint, item: Incident)
    ensures CurrentAnnounced(cp.channels, cp.deliveries, item) <==> AllAnnounced(cp, item)
  {
    if CurrentAnnounced(cp.channels, cp.deliveries, item) {
      forall channel | channel in cp.channels
        ensures exists d :: d in cp.deliveries && d.notice.ref == NoticeRef(item.ref, item.revision, channel) {
        var k :| 0 <= k < |cp.channels| && cp.channels[k] == channel;
        assert Announced(cp.deliveries, NoticeRef(item.ref, item.revision, cp.channels[k]));
        var i :| 0 <= i < |cp.deliveries|
          && cp.deliveries[i].notice.ref == NoticeRef(item.ref, item.revision, cp.channels[k]);
        assert cp.deliveries[i] in cp.deliveries;
      }
    }
    if AllAnnounced(cp, item) {
      forall k | 0 <= k < |cp.channels|
        ensures Announced(cp.deliveries, NoticeRef(item.ref, item.revision, cp.channels[k])) {
        assert cp.channels[k] in cp.channels;
        var d :| d in cp.deliveries && d.notice.ref == NoticeRef(item.ref, item.revision, cp.channels[k]);
        var i :| 0 <= i < |cp.deliveries| && cp.deliveries[i] == d;
      }
    }
  }

  /** The validator accepts a checkpoint if and only if its routes differ and include the independent one, its
   incidents and notices have references of their own and are sound, every current state is announced on every
   route, and everything is within capacity. */
  lemma IntegrityIff(cp: Checkpoint)
    ensures Integrity(cp) <==>
      && Independent in cp.channels
      && (forall i, j | 0 <= i < j < |cp.channels| :: cp.channels[i] != cp.channels[j])
      && (forall i, j | 0 <= i < j < |cp.incidents| :: cp.incidents[i].ref != cp.incidents[j].ref)
      && (forall i, j | 0 <= i < j < |cp.deliveries| :: cp.deliveries[i].notice.ref != cp.deliveries[j].notice.ref)
      && (forall item | item in cp.incidents :: !IncidentBad(item) && AllAnnounced(cp, item))
      && (forall d | d in cp.deliveries :: DeliverySound(cp, d))
      && |cp.incidents| <= cp.policy.capacity && |cp.deliveries| <= cp.policy.capacity
  {
    if DistinctIncidents(cp.incidents) {
      forall item ensures IncidentOk(item) <==> !IncidentBad(item) { }
      forall item ensures CurrentAnnounced(cp.channels, cp.deliveries, item) <==> AllAnnounced(cp, item) {
        AllAnnouncedIff(cp, item);
      }
      forall d ensures DeliveryOk(cp.channels, cp.incidents, d) <==> DeliverySound(cp, d) {
        DeliverySoundIff(cp, d);
      }
    }
  }

  predicate Counted(x: int) { 1 <= x <= 0x7FFF_FFFF_FFFF_FFFF }

  /** Revisions and sequences are counted from one, versions and attempts from nothing, all in 63 bits; a recovery has
   its evidence; and a policy waits for at most an hour and keeps at most ten thousand. */
  lemma FieldsIff(cp: Checkpoint)
    ensures CountersOk(cp) <==>
      && cp.version <= 0x7FFF_FFFF_FFFF_FFFF
      && (forall item | item in cp.incidents ::
            && Counted(item.revision) && Counted(item.lastEvent.sequence)
            && (item.lastEvent.state.Recovered? ==> item.lastEvent.evidence.Some?))
      && (forall d | d in cp.deliveries :: Counted(d.notice.revision) && d.attempts <= 0x7FFF_FFFF_FFFF_FFFF)
    ensures cp.policy.Valid() <==>
      0 < cp.policy.retrySeconds < 3601 && 0 < cp.policy.recoveryMaxAge < 3601 && 0 < cp.policy.capacity < 10001
  {
    if CountersOk(cp) {
      forall item | item in cp.incidents
        ensures Counted(item.revision) && item.lastEvent.Valid() {
        var i :| 0 <= i < |cp.incidents| && cp.incidents[i] == item;
      }
      forall d | d in cp.deliveries ensures Counted(d.notice.revision) && d.attempts <= 0x7FFF_FFFF_FFFF_FFFF {
        var i :| 0 <= i < |cp.deliveries| && cp.deliveries[i] == d;
      }
    }
  }
}
