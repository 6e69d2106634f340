/**
 The funds-safety incident reducer: an immutable checkpoint of incidents and their notification
 outbox, committed to a journal before anything is sent.  Keyed references are injective.
 */
module Alerts {
  import opened Common

  datatype Environment = TestEnv | Staging | Production
  datatype Kind =
    | SubmitUnknown | CancelUnknown | OrderHashMismatch | DuplicateOrder
    | AccountMismatch | PositionMismatch | KillSwitch | UnexpectedLiveStart
  datatype State = Active | Escalated | Recovered
  datatype Channel = Independent | TelegramChannel
  datatype Role = SafetyOperator | IncidentCommander

  const MAX_COUNTER := 0x7FFF_FFFF_FFFF_FFFF

  datatype IncidentRef = IncidentRef(environment: Environment, kind: Kind, subject: string)
  datatype NoticeRef = NoticeRef(incident: IncidentRef, revision: nat, channel: Channel)

  datatype Event = Event(
    environment: Environment, kind: Kind, subject: string, sequence: nat, observedAt: int,
    state: State, evidence: Option<string>)
  {
    function Ref(): IncidentRef { IncidentRef(environment, kind, subject) }

    /** Field constraints of a trusted event, recovery evidence included. */
    predicate Valid() {
      1 <= sequence <= MAX_COUNTER && (state.Recovered? ==> evidence.Some?)
    }
  }

  datatype Policy = Policy(
    owner: Role, escalationOwner: Role, retrySeconds: nat, recoveryMaxAge: nat, capacity: nat)
  {
    predicate Valid() {
      1 <= retrySeconds <= 3600 && 1 <= recoveryMaxAge <= 3600 && 1 <= capacity <= 10000
    }
  }

  datatype AckRequest = AckRequest(incident: IncidentRef, revision: nat, operator: string)
  datatype Ack = Ack(request: AckRequest, at: int)

  datatype Incident = Incident(
    ref: IncidentRef, revision: nat, lastEvent: Event, state: State, owner: Role, ack: Option<Ack>)

  datatype Notice = Notice(
    ref: NoticeRef, incident: IncidentRef, revision: nat, environment: Environment, channel: Channel, kind: Kind,
    subject: string, state: State, previous: Option<State>, owner: Role, observedAt: int, evidence: Option<string>)

  datatype Delivery = Delivery(notice: Notice, attempts: nat, dueAt: int, delivered: bool, superseded: bool)

  datatype Checkpoint = Checkpoint(
    version: nat, policy: Policy, channels: seq<Channel>, incidents: seq<Incident>, deliveries: seq<Delivery>)

  // ---- Checkpoint integrity ---------------------------------------------------------------

  predicate DistinctIncidents(incidents: seq<Incident>) {
    forall i, j | 0 <= i < j < |incidents| :: incidents[i].ref != incidents[j].ref
  }

  predicate DistinctNotices(deliveries: seq<Delivery>) {
    forall i, j | 0 <= i < j < |deliveries| :: deliveries[i].notice.ref != deliveries[j].notice.ref
  }

  predicate RoutesOk(channels: seq<Channel>) {
    && (forall i, j | 0 <= i < j < |channels| :: channels[i] != channels[j])
    && Independent in channels
  }

  predicate IncidentOk(item: Incident) {
    && item.ref == item.lastEvent.Ref()
    && (item.state == item.lastEvent.state || (item.state.Escalated? && item.lastEvent.state.Active?))
    && (item.ack.Some? ==>
          item.ack.value.request.incident == item.ref && item.ack.value.request.revision == item.revision
          && !item.state.Recovered?)
  }

  predicate DeliveryFits(channels: seq<Channel>, d: Delivery, incident: Incident) {
    var n := d.notice;
    && n.incident == incident.ref
    && n.revision <= incident.revision
    && n.channel in channels
    && n.ref == NoticeRef(n.incident, n.revision, n.channel)
    && (n.revision < incident.revision ==> d.delivered || d.superseded)
    && n.environment == incident.lastEvent.environment
    && n.kind == incident.lastEvent.kind
    && n.subject == incident.lastEvent.subject
    && (n.state.Recovered? ==> n.evidence.Some?)
    && (n.revision == incident.revision ==> n.state == incident.state)
  }

  predicate DeliveryOk(channels: seq<Channel>, incidents: seq<Incident>, d: Delivery) {
    exists k | 0 <= k < |incidents| :: DeliveryFits(channels, d, incidents[k])
  }

  predicate Announced(deliveries: seq<Delivery>, ref: NoticeRef) {
    exists i | 0 <= i < |deliveries| :: deliveries[i].notice.ref == ref
  }

  predicate CurrentAnnounced(channels: seq<Channel>, deliveries: seq<Delivery>, item: Incident) {
    forall k | 0 <= k < |channels| :: Announced(deliveries, NoticeRef(item.ref, item.revision, channels[k]))
  }

  /** The checkpoint validator. */
  predicate Integrity(cp: Checkpoint) {
    && RoutesOk(cp.channels)
    && DistinctIncidents(cp.incidents)
    && (forall i {:trigger IncidentOk(cp.incidents[i])} | 0 <= i < |cp.incidents| :: IncidentOk(cp.incidents[i]))
    && DistinctNotices(cp.deliveries)
    && (forall i {:trigger DeliveryOk(cp.channels, cp.incidents, cp.deliveries[i])} | 0 <= i < |cp.deliveries| ::
          DeliveryOk(cp.channels, cp.incidents, cp.deliveries[i]))
    && (forall i {:trigger CurrentAnnounced(cp.channels, cp.deliveries, cp.incidents[i])} | 0 <= i < |cp.incidents| ::
          CurrentAnnounced(cp.channels, cp.deliveries, cp.incidents[i]))
    && |cp.incidents| <= cp.policy.capacity
    && |cp.deliveries| <= cp.policy.capacity
  }

  /** The bounded counters that a reload also validates. */
  predicate CountersOk(cp: Checkpoint) {
    && cp.version <= MAX_COUNTER
    && (forall i | 0 <= i < |cp.incidents| ::
          1 <= cp.incidents[i].revision <= MAX_COUNTER && cp.incidents[i].lastEvent.Valid())
    && (forall i | 0 <= i < |cp.deliveries| ::
          1 <= cp.deliveries[i].notice.revision <= MAX_COUNTER && cp.deliveries[i].attempts <= MAX_COUNTER)
  }

  // ---- Reducer ----------------------------------------------------------------------------

  datatype AlertError =
    | ReloadRequired | EventFromFuture | SequenceConflict | EventTimeRegressed | RecoveryWithoutIncident
    | RecoveryEvidenceStale | CapacityExceeded | ValidationFailed | IncidentMissing | RevisionConflict
    | IncidentRecovered | AcknowledgementDenied | AcknowledgementConflict | JournalFailed

  /** What an operation decides before it commits anything. */
  datatype Plan = Refuse(error: AlertError) | Keep(incident: Incident) | Propose(next: Checkpoint, incident: Incident)

  function Find(incidents: seq<Incident>, ref: IncidentRef): (r: Option<Incident>)
    ensures r.Some? ==> r.value in incidents && r.value.ref == ref
    ensures r.None? ==> forall i | 0 <= i < |incidents| :: incidents[i].ref != ref
  {
    if incidents == [] then None
    else if incidents[0].ref == ref then Some(incidents[0])
    else Find(incidents[1..], ref)
  }

  function Without(incidents: seq<Incident>, ref: IncidentRef): seq<Incident> {
    if incidents == [] then []
    else (if incidents[0].ref == ref then [] else [incidents[0]]) + Without(incidents[1..], ref)
  }

  function Supersede(deliveries: seq<Delivery>, ref: IncidentRef): seq<Delivery> {
    seq(|deliveries|, i requires 0 <= i < |deliveries| =>
      if deliveries[i].notice.incident == ref && !deliveries[i].delivered
      then deliveries[i].(superseded := true) else deliveries[i])
  }

  function NoticeFor(item: Incident, previous: Option<State>, channel: Channel): Notice {
    Notice(NoticeRef(item.ref, item.revision, channel), item.ref, item.revision, item.lastEvent.environment, channel,
           item.lastEvent.kind, item.lastEvent.subject, item.state, previous, item.owner,
           item.lastEvent.observedAt, item.lastEvent.evidence)
  }

  function Announce(item: Incident, previous: Option<State>, channels: seq<Channel>, now: int): seq<Delivery> {
    seq(|channels|, i requires 0 <= i < |channels| =>
      Delivery(NoticeFor(item, previous, channels[i]), 0, now, false, false))
  }

  function NextState(previous: Option<Incident>, state: State): State {
    if previous.Some? && previous.value.state.Escalated? && state.Active? then Escalated else state
  }

  function NextIncident(policy: Policy, previous: Option<Incident>, event: Event): Incident {
    var state := NextState(previous, event.state);
    var changed := previous.None? || previous.value.state != state;
    var owner :=
      if state.Escalated? then policy.escalationOwner
      else if state.Recovered? && previous.Some? then previous.value.owner
      else policy.owner;
    Incident(event.Ref(), if previous.Some? then previous.value.revision + (if changed then 1 else 0) else 1,
             event, state, owner, if previous.Some? && !changed then previous.value.ack else None)
  }

  /** The checkpoint an accepted event leads to: a change of state supersedes and announces. */
  function Reduced(cp: Checkpoint, event: Event, now: int): Checkpoint {
    var previous := Find(cp.incidents, event.Ref());
    var item := NextIncident(cp.policy, previous, event);
    Checkpoint(
      cp.version + 1, cp.policy, cp.channels,
      Without(cp.incidents, item.ref) + [item],
      if previous.Some? && previous.value.state == item.state then cp.deliveries
      else
        Supersede(cp.deliveries, item.ref)
        + Announce(item, if previous.Some? then Some(previous.value.state) else None, cp.channels, now))
  }

  function HandlePlan(cp: Checkpoint, event: Event, now: int): Plan {
    var previous := Find(cp.incidents, event.Ref());
    if event.observedAt > now then Refuse(EventFromFuture)
    else if previous.Some? && event.sequence < previous.value.lastEvent.sequence then Keep(previous.value)
    else if previous.Some? && event.sequence == previous.value.lastEvent.sequence then
      if event != previous.value.lastEvent then Refuse(SequenceConflict) else Keep(previous.value)
    else if previous.Some? && event.observedAt < previous.value.lastEvent.observedAt then Refuse(EventTimeRegressed)
    else if event.state.Recovered? && previous.None? then Refuse(RecoveryWithoutIncident)
    else if event.state.Recovered? && now - event.observedAt > cp.policy.recoveryMaxAge then
      Refuse(RecoveryEvidenceStale)
    else
      var next := Reduced(cp, event, now);
      if |next.incidents| > cp.policy.capacity || |next.deliveries| > cp.policy.capacity then
        Refuse(CapacityExceeded)
      else if Integrity(next) && CountersOk(next) then
        Propose(next, NextIncident(cp.policy, previous, event))
      else Refuse(ValidationFailed)
  }

  /** `authorized` is the verdict of the injected operator authorizer. */
  function AcknowledgePlan(cp: Checkpoint, request: AckRequest, authorized: bool, now: int): Plan {
    var found := Find(cp.incidents, request.incident);
    if found.None? then Refuse(IncidentMissing)
    else
      var item := found.value;
      if request.revision != item.revision then Refuse(RevisionConflict)
      else if item.state.Recovered? then Refuse(IncidentRecovered)
      else if !authorized then Refuse(AcknowledgementDenied)
      else if item.ack.Some? then
        if item.ack.value.request != request then Refuse(AcknowledgementConflict) else Keep(item)
      else
        var updated := item.(ack := Some(Ack(request, now)));
        Propose(cp.(version := cp.version + 1,
                    incidents := seq(|cp.incidents|, i requires 0 <= i < |cp.incidents| =>
                      if cp.incidents[i] == item then updated else cp.incidents[i])), updated)
  }

  /** The copy that `_replace_delivery` commits, without re-validating. */
  function Replace(cp: Checkpoint, before: Delivery, after: Delivery): Checkpoint {
    cp.(version := cp.version + 1,
        deliveries := seq(|cp.deliveries|, i requires 0 <= i < |cp.deliveries| =>
          if cp.deliveries[i] == before then after else cp.deliveries[i]))
  }

  function Pow2(n: nat): nat {
    if n == 0 then 1 else 2 * Pow2(n - 1)
  }

  function Delay(policy: Policy, attempts: nat): nat {
    var raw := policy.retrySeconds * Pow2(if attempts < 10 then attempts else 10);
    if raw < 3600 then raw else 3600
  }

  predicate Due(d: Delivery, now: int) {
    !d.delivered && !d.superseded && d.dueAt <= now
  }

  function DueOf(deliveries: seq<Delivery>, now: int): seq<Delivery> {
    if deliveries == [] then []
    else (if Due(deliveries[0], now) then [deliveries[0]] else []) + DueOf(deliveries[1..], now)
  }

  function Take(deliveries: seq<Delivery>, n: nat): seq<Delivery> {
    if |deliveries| <= n then deliveries else deliveries[..n]
  }

  function Attempted(policy: Policy, d: Delivery, now: int): Delivery {
    d.(attempts := d.attempts + 1, dueAt := now + Delay(policy, d.attempts))
  }

  // ---- Journal, service and provider ------------------------------------------------------

  datatype Service = Service(checkpoint: Checkpoint, poisoned: bool)

  /** One provider call: the notice, the clock reading and the attempts recorded before it. */
  datatype Sent = Sent(notice: Notice, at: int, attempts: nat)

  /** `service` is None while no process runs. */
  datatype World = World(journal: Option<Checkpoint>, service: Option<Service>, sent: seq<Sent>)

  /** A commit may succeed, or raise with or without having become durable. */
  datatype CommitFate = Returns | RaisesDurable | RaisesLost

  datatype SendFate = ReceiptAccepted | ReceiptRefused | CrashBeforeSend | CrashAfterSend

  datatype Fate = Fate(attempt: CommitFate, send: SendFate, receipt: CommitFate)

  function JournalVersion(journal: Option<Checkpoint>): nat {
    if journal.Some? then journal.value.version else 0
  }

  /** `_commit`: compare-and-swap on the journal; anything but True poisons the service. */
  function CommitTo(w: World, candidate: Checkpoint, fate: CommitFate): (World, bool)
    requires w.service.Some?
  {
    var dead := w.(service := Some(w.service.value.(poisoned := true)));
    match fate
    case RaisesLost => (dead, false)
    case RaisesDurable => (dead.(journal := Some(candidate)), false)
    case Returns =>
      if JournalVersion(w.journal) == w.service.value.checkpoint.version then
        (w.(journal := Some(candidate), service := Some(Service(candidate, false))), true)
      else (dead, false)
  }

  predicate Ready(w: World) {
    w.service.Some? && !w.service.value.poisoned
  }

  function HandleIn(w: World, event: Event, now: int, fate: CommitFate): (World, Result<Incident, AlertError>)
    requires w.service.Some?
  {
    if w.service.value.poisoned then (w, Err(ReloadRequired))
    else
      match HandlePlan(w.service.value.checkpoint, event, now)
      case Refuse(error) => (w, Err(error))
      case Keep(item) => (w, Ok(item))
      case Propose(next, item) =>
        var (w', ok) := CommitTo(w, next, fate);
        (w', if ok then Ok(item) else Err(JournalFailed))
  }

  function AcknowledgeIn(w: World, request: AckRequest, authorized: bool, now: int, fate: CommitFate)
    : (World, Result<Incident, AlertError>)
    requires w.service.Some?
  {
    if w.service.value.poisoned then (w, Err(ReloadRequired))
    else
      match AcknowledgePlan(w.service.value.checkpoint, request, authorized, now)
      case Refuse(error) => (w, Err(error))
      case Keep(item) => (w, Ok(item))
      case Propose(next, item) =>
        var (w', ok) := CommitTo(w, next, fate);
        (w', if ok then Ok(item) else Err(JournalFailed))
  }

  /** The delivery loop of `dispatch_due`; running out of fates is a crash. */
  function DispatchFrom(w: World, due: seq<Delivery>, fates: seq<Fate>, now: int): World
    decreases |due|
  {
    if due == [] || w.service.None? then w
    else if fates == [] then w.(service := None)
    else
      var cp := w.service.value.checkpoint;
      var attempted := Attempted(cp.policy, due[0], now);
      var (tried, ok) := CommitTo(w, Replace(cp, due[0], attempted), fates[0].attempt);
      if !ok then tried
      else if fates[0].send.CrashBeforeSend? then tried.(service := None)
      else
        var told := tried.(sent := tried.sent + [Sent(due[0].notice, now, due[0].attempts)]);
        if fates[0].send.CrashAfterSend? then told.(service := None)
        else if fates[0].send.ReceiptRefused? then DispatchFrom(told, due[1..], fates[1..], now)
        else
          var received := Replace(told.service.value.checkpoint, attempted, attempted.(delivered := true));
          var (done, kept) := CommitTo(told, received, fates[0].receipt);
          if kept then DispatchFrom(done, due[1..], fates[1..], now) else done
  }

  function DispatchIn(w: World, batch: nat, fates: seq<Fate>, now: int): World {
    if !Ready(w) || !(1 <= batch <= 100) then w
    else DispatchFrom(w, Take(DueOf(w.service.value.checkpoint.deliveries, now), batch), fates, now)
  }

  /** A restarted process validates what the journal holds and the configuration it was made for. */
  function Restart(w: World, policy: Policy, channels: seq<Channel>): World {
    if w.journal.None? then w.(service := Some(Service(Checkpoint(0, policy, channels, [], []), false)))
    else if Integrity(w.journal.value) && CountersOk(w.journal.value)
         && w.journal.value.policy == policy && w.journal.value.channels == channels then
      w.(service := Some(Service(w.journal.value, false)))
    else w.(service := None)
  }

  datatype Step =
    | Handling(event: Event, now: int, fate: CommitFate)
    | Acknowledging(request: AckRequest, authorized: bool, now: int, fate: CommitFate)
    | Dispatching(batch: nat, fates: seq<Fate>, now: int)
    | Crashing
    | Restarting

  datatype Config = Config(policy: Policy, channels: seq<Channel>) {
    predicate Valid() { policy.Valid() && RoutesOk(channels) }
  }

  function Apply(config: Config, w: World, step: Step): World {
    match step
    case Handling(event, now, fate) =>
      if w.service.Some? && event.Valid() then HandleIn(w, event, now, fate).0 else w
    case Acknowledging(request, authorized, now, fate) =>
      if w.service.Some? then AcknowledgeIn(w, request, authorized, now, fate).0 else w
    case Dispatching(batch, fates, now) => DispatchIn(w, batch, fates, now)
    case Crashing => w.(service := None)
    case Restarting => Restart(w, config.policy, config.channels)
  }

  function Run(config: Config, steps: seq<Step>): World {
    if steps == [] then World(None, None, []) else Apply(config, Run(config, steps[..|steps|-1]), steps[|steps|-1])
  }
}
