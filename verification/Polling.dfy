/**
 Competing Telegram pollers and a maintenance tool over the shared poll tables.

 Every poller runs the source's `run`/`_process_batch` program; one transition is one
 transaction, one provider call or one handler call, so a lease snapshot held across
 transitions may be stale.  Clocks are arbitrary and any agent may crash between transitions.
 */
module Polling {
  import opened Common
  import opened PollTables
  import opened TelegramUpdates

  const LEASE_SECONDS := 75

  datatype Agent = Poller(id: nat) | Keeper(id: nat)

  /** Owner strings need not be distinct: only the epoch and the version fence. */
  datatype Setup = Setup(owner: Agent -> string, allowed: set<(int, int)>)

  datatype Verdict = Verdict(kind: MarkerKind, disposition: Disposition, digest: Option<Digest>)

  /** A batch fetched at cursor `origin`, with the loop at position `i`. */
  datatype Job = Job(origin: nat, batch: seq<Update>, i: nat) {
    function Here(): Update
      requires i < |batch|
    {
      batch[i]
    }
  }

  datatype Pc =
    | Idle
    | Acquired(lease: PollState)
    | Fetching(lease: PollState)
    | Fetched(lease: PollState, job: Job)
    | AtUpdate(lease: PollState, job: Job)
    | CursorPassed(lease: PollState, job: Job)
    | DigestPending(lease: PollState, job: Job, query: string)
    | HandlerPending(lease: PollState, job: Job, kind: MarkerKind, unseen: Option<Digest>)
    | InHandler(lease: PollState, job: Job, kind: MarkerKind, unseen: Option<Digest>)
    | VerdictReached(lease: PollState, job: Job, verdict: Verdict)
    | ReadyToRecord(lease: PollState, job: Job, verdict: Verdict)
    | Releasing(lease: PollState)
  {
    predicate HasJob() {
      !Idle? && !Acquired? && !Fetching? && !Releasing?
    }

    /** Past the cursor check of the update at position `job.i`. */
    predicate Committed() {
      HasJob() && !Fetched? && !AtUpdate?
    }

    /** The callback digest this program point has found unseen and intends to insert. */
    function FreshDigest(): Option<Digest> {
      if HandlerPending? || InHandler? then unseen
      else if VerdictReached? || ReadyToRecord? then verdict.digest
      else None
    }
  }

  datatype PollerEvent =
    | TryAcquire(now: int)
    | Renew(now: int)
    | FetchReturns(received: seq<Update>, batch: seq<Update>)
    | FetchFails
    | ReadCursor(stop: bool)
    | CheckProcessed
    | CheckDigest
    | HandlerReturns(terminal: bool)
    | Record(now: int)
    | Release
    | Crash

  datatype Op = AcquireOp | RenewOp | ReleaseOp | RecordOp(update: Update, verdict: Verdict)

  /** One committed change of the poll-state row. */
  datatype Write = Write(agent: Agent, op: Op, after: PollState)

  /** What one transition of one poller leaves behind; `calls` are completed handler calls. */
  datatype Outcome = Outcome(pc: Pc, db: Tables, writes: seq<Write>, calls: seq<Update>)

  // ---- The poller program -----------------------------------------------------------------

  ghost function PollerStep(setup: Setup, w: nat, pc: Pc, db: Tables, ev: PollerEvent): Outcome {
    var me := Poller(w);
    match (pc, ev)
    case (_, Crash) => Outcome(Idle, db, [], [])
    case (Idle, TryAcquire(now)) =>
      var (db', got) := AcquireLease(db, setup.owner(me), now, now + LEASE_SECONDS);
      if got.None? then Outcome(Idle, db', [], [])
      else Outcome(Acquired(got.value), db', [Write(me, AcquireOp, got.value)], [])
    case (Acquired(lease), Renew(now)) => RenewThen(setup, w, lease, db, now, l => Fetching(l))
    case (Fetching(lease), FetchFails) => Outcome(Releasing(lease), db, [], [])
    case (Fetching(lease), FetchReturns(received, batch)) =>
      if |received| <= POLL_LIMIT && Normalizes(received, batch)
         && (forall u | u in received :: u.updateId <= MAX_UPDATE_ID) then
        Outcome(Fetched(lease, Job(lease.nextOffset, batch, 0)), db, [], [])
      else Outcome(pc, db, [], [])
    case (Fetched(lease, job), Renew(now)) => RenewThen(setup, w, lease, db, now, l => AtUpdate(l, job))
    case (AtUpdate(lease, job), ReadCursor(stop)) =>
      if stop || job.i >= |job.batch| || db.row.None? then Outcome(Releasing(lease), db, [], [])
      else if job.Here().updateId < db.row.value.nextOffset then
        Outcome(AtUpdate(lease, job.(i := job.i + 1)), db, [], [])
      else Outcome(CursorPassed(lease, job), db, [], [])
    case (CursorPassed(lease, job), CheckProcessed) =>
      if job.i >= |job.batch| then Outcome(pc, db, [], [])
      else if IsProcessed(db, job.Here().updateId) then
        Outcome(AtUpdate(lease, job.(i := job.i + 1)), db, [], [])
      else
        (match Classify(job.Here(), setup.allowed)
         case AuthorizedCallback(_, _, _, _, query, _) => Outcome(DigestPending(lease, job, query), db, [], [])
         case AuthorizedText(_, _, _, _, _) => Outcome(HandlerPending(lease, job, TextKind, None), db, [], [])
         case IgnoredUpdate(_, _) =>
           Outcome(VerdictReached(lease, job, Verdict(IgnoredKind, Ignored, None)), db, [], []))
    case (DigestPending(lease, job, query), CheckDigest) =>
      if DigestSeen(db, Digest(query)) then
        Outcome(VerdictReached(lease, job, Verdict(CallbackKind, DuplicateCallback, None)), db, [], [])
      else Outcome(HandlerPending(lease, job, CallbackKind, Some(Digest(query))), db, [], [])
    case (HandlerPending(lease, job, kind, unseen), Renew(now)) =>
      RenewThen(setup, w, lease, db, now, l => InHandler(l, job, kind, unseen))
    case (InHandler(lease, job, kind, unseen), HandlerReturns(terminal)) =>
      if terminal && job.i < |job.batch| then
        Outcome(VerdictReached(lease, job, Verdict(kind, Handled, unseen)), db, [], [job.Here()])
      else Outcome(Releasing(lease), db, [], [])
    case (VerdictReached(lease, job, verdict), Renew(now)) =>
      RenewThen(setup, w, lease, db, now, l => ReadyToRecord(l, job, verdict))
    case (ReadyToRecord(lease, job, verdict), Record(now)) =>
      if job.i >= |job.batch| then Outcome(pc, db, [], [])
      else
        var (db', result) := RecordTerminal(db, setup.owner(me), lease.epoch, lease.version, now,
                                            MarkerOf(job.Here(), verdict, now));
        if result.Recorded? then
          Outcome(AtUpdate(result.state, job.(i := job.i + 1)), db',
                  [Write(me, RecordOp(job.Here(), verdict), result.state)], [])
        else Outcome(Releasing(lease), db', [], [])
    case (Releasing(lease), Release) =>
      if db.row.Some? then
        var (db', released) := ReleaseLease(db, setup.owner(me), lease.epoch, db.row.value.version);
        Outcome(Idle, db', if released then [Write(me, ReleaseOp, db'.row.value)] else [], [])
      else Outcome(Idle, db, [], [])
    case _ => Outcome(pc, db, [], [])
  }

  function MarkerOf(u: Update, v: Verdict, now: int): Marker {
    Marker(u.updateId, v.kind, v.disposition, now, v.digest)
  }

  /** `_renew`: continue with the renewed lease, or give the lease up. */
  ghost function RenewThen(setup: Setup, w: nat, lease: PollState, db: Tables, now: int, next: PollState -> Pc)
    : Outcome
  {
    var me := Poller(w);
    var (db', got) := RenewLease(db, setup.owner(me), lease.epoch, lease.version, now, now + LEASE_SECONDS);
    if got.None? then Outcome(Releasing(lease), db, [], [])
    else Outcome(next(got.value), db', [Write(me, RenewOp, got.value)], [])
  }

  // ---- The maintenance lease --------------------------------------------------------------

  /** `since` is the row version of the acquisition, kept for the theorems only. */
  datatype KeeperState =
    | Waiting(initial: Option<nat>)
    | Keeping(state: PollState, offset: nat, since: nat, failed: bool)
    | Left

  datatype KeeperEvent = KeeperAcquire(now: int) | KeeperRenew(now: int) | KeeperExit | KeeperCrash

  datatype KeeperOutcome = KeeperOutcome(keeper: KeeperState, db: Tables, writes: seq<Write>)

  ghost function KeeperStep(setup: Setup, k: nat, keeper: KeeperState, db: Tables, ev: KeeperEvent): KeeperOutcome {
    var me := Keeper(k);
    match (keeper, ev)
    case (_, KeeperCrash) => KeeperOutcome(Left, db, [])
    case (Waiting(initial), KeeperAcquire(now)) =>
      var first := if initial.None? && db.row.Some? then Some(db.row.value.nextOffset) else initial;
      var (db', got) := AcquireLease(db, setup.owner(me), now, now + LEASE_SECONDS);
      if got.None? then KeeperOutcome(Waiting(first), db', [])
      else
        var offset := if first.Some? then first.value else 0;
        // `poll_offset_changed` is raised inside the transaction and rolls the acquisition back.
        if got.value.nextOffset != offset then KeeperOutcome(Left, db, [])
        else KeeperOutcome(Keeping(got.value, offset, got.value.version, false), db',
                           [Write(me, AcquireOp, got.value)])
    case (Keeping(state, offset, since, failed), KeeperRenew(now)) =>
      if failed then KeeperOutcome(keeper, db, [])
      else
        var (db', got) := RenewLease(db, setup.owner(me), state.epoch, state.version, now, now + LEASE_SECONDS);
        if got.None? || got.value.nextOffset != offset then
          KeeperOutcome(keeper.(failed := true), db, [])
        else
          KeeperOutcome(Keeping(got.value, offset, since, false), db', [Write(me, RenewOp, got.value)])
    case (Keeping(state, offset, since, failed), KeeperExit) =>
      if db.row.Some? && db.row.value.nextOffset == offset && db.row.value.lease.Held?
         && db.row.value.lease.owner == setup.owner(me) && db.row.value.epoch == state.epoch then
        var (db', released) := ReleaseLease(db, setup.owner(me), state.epoch, db.row.value.version);
        KeeperOutcome(Left, db', if released then [Write(me, ReleaseOp, db'.row.value)] else [])
      else KeeperOutcome(Left, db, [])
    case _ => KeeperOutcome(keeper, db, [])
  }

  // ---- The system -------------------------------------------------------------------------

  datatype System = System(
    db: Tables, pollers: map<nat, Pc>, keepers: map<nat, KeeperState>,
    log: seq<Write>, calls: seq<Update>, issued: set<nat>)
  {
    function PcOf(w: nat): Pc {
      if w in pollers then pollers[w] else Idle
    }
    function KeeperOf(k: nat): KeeperState {
      if k in keepers then keepers[k] else Waiting(None)
    }
  }

  datatype Step =
    | OfPoller(w: nat, event: PollerEvent)
    | OfKeeper(k: nat, action: KeeperEvent)
    | Issue(id: nat)    // the provider assigns an id to a new update

  const INITIAL := System(EMPTY_TABLES, map[], map[], [], [], {})

  ghost function Apply(setup: Setup, s: System, step: Step): System {
    match step
    case OfPoller(w, ev) =>
      var o := PollerStep(setup, w, s.PcOf(w), s.db, ev);
      s.(db := o.db, pollers := s.pollers[w := o.pc], log := s.log + o.writes, calls := s.calls + o.calls)
    case OfKeeper(k, ev) =>
      var o := KeeperStep(setup, k, s.KeeperOf(k), s.db, ev);
      s.(db := o.db, keepers := s.keepers[k := o.keeper], log := s.log + o.writes)
    case Issue(id) => s.(issued := s.issued + {id})
  }

  ghost function Run(setup: Setup, steps: seq<Step>): System {
    if steps == [] then INITIAL
    else Apply(setup, Run(setup, steps[..|steps|-1]), steps[|steps|-1])
  }
}
