/** Fencing, cursor and delivery theorems for every run of the polling system. */
module PollingTheorems {
  import opened Common
  import opened PollTables
  import opened TelegramUpdates
  import opened Polling

  // ---- Invariants -------------------------------------------------------------------------

  /** Consecutive row writes: epochs count acquisitions, and only an acquisition changes hands. */
  predicate LinkAt(log: seq<Write>, k: nat)
    requires 0 < k < |log|
  {
    var a, b := log[k-1], log[k];
    && b.after.epoch == a.after.epoch + (if b.op.AcquireOp? then 1 else 0)
    && (!b.op.AcquireOp? ==> b.agent == a.agent)
    && a.after.nextOffset <= b.after.nextOffset
    && (!b.op.RecordOp? ==> a.after.nextOffset == b.after.nextOffset)
  }

  ghost predicate LogOk(db: Tables, log: seq<Write>) {
    && (db.row.None? <==> log == [])
    && (log == [] ==> db.markers == [])
    && (log != [] ==> log[0].op.AcquireOp? && log[0].after.epoch == 1)
    && (log != [] ==> db.row == Some(log[|log|-1].after))
    && (forall k | 0 <= k < |log| :: log[k].after.version == k + 2)
    && (forall k {:trigger LinkAt(log, k)} | 0 < k < |log| :: LinkAt(log, k))
  }

  /** Markers lie below the cursor, in recording order, with distinct digests. */
  ghost predicate MarkersOk(db: Tables) {
    && (forall i | 0 <= i < |db.markers| :: db.row.Some? && db.markers[i].updateId < db.row.value.nextOffset)
    && (forall i, j | 0 <= i < j < |db.markers| :: db.markers[i].updateId < db.markers[j].updateId)
    && (forall i, j | 0 <= i < j < |db.markers| ::
          db.markers[i].digest.Some? ==> db.markers[i].digest != db.markers[j].digest)
  }

  /** The snapshot is the row as this agent itself last wrote it. */
  predicate LeaseOk(log: seq<Write>, agent: Agent, lease: PollState) {
    && 2 <= lease.version <= |log| + 1
    && log[lease.version - 2].after == lease
    && log[lease.version - 2].agent == agent
  }

  predicate Current(db: Tables, lease: PollState) {
    db.row.Some? && db.row.value.version == lease.version
  }

  /** Every update of the batch before the loop position, at or above its origin, has a marker. */
  ghost predicate DoneMarked(db: Tables, job: Job)
    requires job.i <= |job.batch|
  {
    forall j | 0 <= j < job.i :: job.batch[j].updateId >= job.origin ==> IsProcessed(db, job.batch[j].updateId)
  }

  /** Every update still to come, at or above the origin, is at or above the cursor. */
  ghost predicate RestAhead(db: Tables, job: Job)
    requires db.row.Some?
  {
    forall j | job.i <= j < |job.batch| ::
      job.batch[j].updateId >= job.origin ==> job.batch[j].updateId >= db.row.value.nextOffset
  }

  ghost predicate JobOk(db: Tables, pc: Pc)
    requires pc.HasJob()
  {
    && StrictlyOrdered(pc.job.batch)
    && (forall u | u in pc.job.batch :: u.updateId <= MAX_UPDATE_ID)
    && pc.job.i <= |pc.job.batch|
    && (pc.Committed() ==> pc.job.i < |pc.job.batch|)
    && (Current(db, pc.lease) ==>
          && pc.job.origin <= db.row.value.nextOffset
          && DoneMarked(db, pc.job)
          && RestAhead(db, pc.job)
          && (pc.Committed() ==> pc.job.Here().updateId >= db.row.value.nextOffset)
          && (pc.FreshDigest().Some? ==> !DigestSeen(db, pc.FreshDigest().value)))
  }

  ghost predicate PcOk(db: Tables, log: seq<Write>, w: nat, pc: Pc) {
    pc.Idle? || (LeaseOk(log, Poller(w), pc.lease) && (pc.HasJob() ==> JobOk(db, pc)))
  }

  /** Every row write since the acquisition is the keeper's own, so the cursor is still `offset`. */
  ghost predicate KeeperOk(log: seq<Write>, k: nat, keeper: KeeperState) {
    keeper.Keeping? ==>
      && LeaseOk(log, Keeper(k), keeper.state)
      && 2 <= keeper.since <= keeper.state.version
      && keeper.state.nextOffset == keeper.offset
      && (forall i | keeper.since - 2 <= i <= keeper.state.version - 2 ::
            log[i].agent == Keeper(k) && log[i].after.nextOffset == keeper.offset
            && log[i].after.epoch == keeper.state.epoch)
  }

  ghost predicate Inv(s: System) {
    && LogOk(s.db, s.log)
    && MarkersOk(s.db)
    && (forall w | w in s.pollers :: PcOk(s.db, s.log, w, s.pollers[w]))
    && (forall k | k in s.keepers :: KeeperOk(s.log, k, s.keepers[k]))
  }

  // ---- Facts about the log ----------------------------------------------------------------

  lemma {:induction false} EpochsGrow(db: Tables, log: seq<Write>, i: nat, j: nat)
    requires LogOk(db, log) && i <= j < |log|
    ensures log[i].after.epoch <= log[j].after.epoch
    ensures log[i].after.nextOffset <= log[j].after.nextOffset
    ensures log[i].after.epoch == log[j].after.epoch ==> log[i].agent == log[j].agent
    ensures i < j && log[j].op.AcquireOp? ==> log[i].after.epoch < log[j].after.epoch
    decreases j
  {
    if i < j {
      EpochsGrow(db, log, i, j - 1);
      assert LinkAt(log, j);
    }
  }

  /** A transition either leaves tables and log alone or commits exactly one row write. */
  ghost predicate Committing(db: Tables, log: seq<Write>, db': Tables, log': seq<Write>) {
    || (db' == db && log' == log)
    || (|log'| == |log| + 1 && log == log'[..|log|] && db'.row.Some? && db'.row.value.version == |log| + 2
        && db.markers <= db'.markers)
  }

  lemma PcFrame(db: Tables, log: seq<Write>, db': Tables, log': seq<Write>, w: nat, pc: Pc)
    requires LogOk(db, log) && PcOk(db, log, w, pc) && Committing(db, log, db', log')
    ensures PcOk(db', log', w, pc)
  {
    if !pc.Idle? && log' != log {
      assert log'[pc.lease.version - 2] == log[pc.lease.version - 2];
    }
  }

  lemma KeeperFrame(log: seq<Write>, log': seq<Write>, k: nat, keeper: KeeperState)
    requires KeeperOk(log, k, keeper) && log <= log'
    ensures KeeperOk(log', k, keeper)
  {
  }

  lemma AppendLink(log: seq<Write>, entry: Write)
    requires forall k {:trigger LinkAt(log, k)} | 0 < k < |log| :: LinkAt(log, k)
    requires log != [] ==> LinkAt(log + [entry], |log|)
    ensures var log' := log + [entry]; forall k {:trigger LinkAt(log', k)} | 0 < k < |log'| :: LinkAt(log', k)
  {
    var log' := log + [entry];
    forall k | 0 < k < |log'| ensures LinkAt(log', k) {
      if k < |log| {
        assert LinkAt(log, k);
      }
    }
  }

  // ---- One transition keeps the invariants ------------------------------------------------

  /** An acquisition is logged as a link; a failed one changes nothing. */
  lemma AcquisitionCommits(setup: Setup, agent: Agent, db: Tables, log: seq<Write>, now: int)
    requires LogOk(db, log) && MarkersOk(db)
    ensures var (db', got) := AcquireLease(db, setup.owner(agent), now, now + LEASE_SECONDS);
      && (got.None? ==> db' == db)
      && (got.Some? ==>
            var log' := log + [Write(agent, AcquireOp, got.value)];
            LogOk(db', log') && MarkersOk(db') && Committing(db, log, db', log'))
  {
    var (db', got) := AcquireLease(db, setup.owner(agent), now, now + LEASE_SECONDS);
    if got.Some? {
      AppendLink(log, Write(agent, AcquireOp, got.value));
    }
  }

  lemma PollerAcquires(setup: Setup, w: nat, db: Tables, log: seq<Write>, now: int)
    requires LogOk(db, log) && MarkersOk(db)
    ensures var o := PollerStep(setup, w, Idle, db, TryAcquire(now));
      && LogOk(o.db, log + o.writes) && MarkersOk(o.db)
      && PcOk(o.db, log + o.writes, w, o.pc) && Committing(db, log, o.db, log + o.writes)
  {
    var o := PollerStep(setup, w, Idle, db, TryAcquire(now));
    AcquisitionCommits(setup, Poller(w), db, log, now);
    var (db', got) := AcquireLease(db, setup.owner(Poller(w)), now, now + LEASE_SECONDS);
    if o.writes == [] {
      assert o.db == db && log + o.writes == log;
    } else {
      var log' := log + [Write(Poller(w), AcquireOp, got.value)];
      assert o.db == db' && log + o.writes == log';
      assert log'[got.value.version - 2].after == got.value;
    }
  }

  /** A successful renewal proves the snapshot was current, and moves only expiry and version. */
  lemma RenewalIsCurrent(
    setup: Setup, agent: Agent, lease: PollState, db: Tables, log: seq<Write>, now: int)
    requires LogOk(db, log) && MarkersOk(db) && LeaseOk(log, agent, lease)
    ensures var (db', got) :=
        RenewLease(db, setup.owner(agent), lease.epoch, lease.version, now, now + LEASE_SECONDS);
      && (got.None? ==> db' == db)
      && (got.Some? ==>
            var log' := log + [Write(agent, RenewOp, got.value)];
            && db.row == Some(lease) && db'.markers == db.markers
            && got.value.nextOffset == lease.nextOffset && got.value.epoch == lease.epoch
            && db'.row == got && got.value.version == lease.version + 1
            && LogOk(db', log') && MarkersOk(db') && LeaseOk(log', agent, got.value)
            && Committing(db, log, db', log'))
  {
    var (db', got) := RenewLease(db, setup.owner(agent), lease.epoch, lease.version, now, now + LEASE_SECONDS);
    if got.Some? {
      AppendLink(log, Write(agent, RenewOp, got.value));
    }
  }

  /** `_release` re-reads the version, yet only the acquirer of the epoch can pass its checks. */
  lemma ReleaseKeeps(setup: Setup, agent: Agent, lease: PollState, db: Tables, log: seq<Write>)
    requires LogOk(db, log) && MarkersOk(db) && LeaseOk(log, agent, lease) && db.row.Some?
    ensures var (db', released) := ReleaseLease(db, setup.owner(agent), lease.epoch, db.row.value.version);
      var log' := log + (if released then [Write(agent, ReleaseOp, db'.row.value)] else []);
      && LogOk(db', log') && MarkersOk(db') && Committing(db, log, db', log')
      && (released ==> log[|log|-1].agent == agent)
  {
    var (db', released) := ReleaseLease(db, setup.owner(agent), lease.epoch, db.row.value.version);
    if released {
      EpochsGrow(db, log, lease.version - 2, |log| - 1);
      AppendLink(log, Write(agent, ReleaseOp, db'.row.value));
    } else {
      assert log + [] == log;
    }
  }

  /** The marker insert that the pre-checks of the poller prepared. */
  lemma RecordKeeps(setup: Setup, w: nat, pc: Pc, db: Tables, log: seq<Write>, now: int)
    requires LogOk(db, log) && MarkersOk(db) && PcOk(db, log, w, pc) && pc.ReadyToRecord?
    ensures var o := PollerStep(setup, w, pc, db, Record(now));
      && LogOk(o.db, log + o.writes) && MarkersOk(o.db)
      && PcOk(o.db, log + o.writes, w, o.pc) && Committing(db, log, o.db, log + o.writes)
  {
    var o := PollerStep(setup, w, pc, db, Record(now));
    if o.writes != [] {
      AppendLink(log, o.writes[0]);
      var m := MarkerOf(pc.job.Here(), pc.verdict, now);
      assert o.db.markers == db.markers + [m];
      assert o.db.markers[|db.markers|] == m;
      assert forall id | IsProcessed(db, id) :: IsProcessed(o.db, id) by {
        forall id | IsProcessed(db, id) ensures IsProcessed(o.db, id) {
          var i :| 0 <= i < |db.markers| && db.markers[i].updateId == id;
          assert o.db.markers[i].updateId == id;
        }
      }
      assert db.row == Some(pc.lease);
    } else {
      assert log + o.writes == log;
    }
  }

  lemma RenewKeeps(setup: Setup, w: nat, pc: Pc, db: Tables, log: seq<Write>, now: int)
    requires LogOk(db, log) && MarkersOk(db) && PcOk(db, log, w, pc) && !pc.Idle?
    ensures var o := PollerStep(setup, w, pc, db, Renew(now));
      && LogOk(o.db, log + o.writes) && MarkersOk(o.db)
      && PcOk(o.db, log + o.writes, w, o.pc) && Committing(db, log, o.db, log + o.writes)
  {
    assert log + [] == log;
    RenewalIsCurrent(setup, Poller(w), pc.lease, db, log, now);
    var o := PollerStep(setup, w, pc, db, Renew(now));
    if o.writes != [] {
      assert Current(db, pc.lease);
      assert o.pc.HasJob() ==> JobOk(o.db, o.pc);
    }
  }

  lemma FetchKeeps(setup: Setup, w: nat, pc: Pc, db: Tables, log: seq<Write>, received: seq<Update>, batch: seq<Update>)
    requires LogOk(db, log) && MarkersOk(db) && PcOk(db, log, w, pc)
    ensures var o := PollerStep(setup, w, pc, db, FetchReturns(received, batch));
      o.db == db && o.writes == [] && PcOk(db, log, w, o.pc)
  {
    var o := PollerStep(setup, w, pc, db, FetchReturns(received, batch));
    if pc.Fetching? && o.pc.Fetched? {
      assert forall u | u in batch :: u in received;
    }
  }

  lemma CursorReadKeeps(setup: Setup, w: nat, pc: Pc, db: Tables, log: seq<Write>, stop: bool)
    requires LogOk(db, log) && MarkersOk(db) && PcOk(db, log, w, pc) && pc.AtUpdate?
    ensures var o := PollerStep(setup, w, pc, db, ReadCursor(stop));
      o.db == db && o.writes == [] && PcOk(db, log, w, o.pc)
  {
  }

  lemma ProcessedCheckKeeps(setup: Setup, w: nat, pc: Pc, db: Tables, log: seq<Write>)
    requires LogOk(db, log) && MarkersOk(db) && PcOk(db, log, w, pc) && pc.CursorPassed?
    ensures var o := PollerStep(setup, w, pc, db, CheckProcessed);
      o.db == db && o.writes == [] && PcOk(db, log, w, o.pc)
  {
  }

  /** Reads, provider calls and handler calls change nothing but the poller's own position. */
  lemma LocalStepKeeps(setup: Setup, w: nat, pc: Pc, db: Tables, log: seq<Write>, ev: PollerEvent)
    requires LogOk(db, log) && MarkersOk(db) && PcOk(db, log, w, pc)
    requires !ev.TryAcquire? && !ev.Renew? && !ev.Record? && !ev.Release?
    ensures var o := PollerStep(setup, w, pc, db, ev);
      o.db == db && o.writes == [] && PcOk(db, log, w, o.pc)
  {
    if ev.FetchReturns? {
      FetchKeeps(setup, w, pc, db, log, ev.received, ev.batch);
    } else if ev.ReadCursor? && pc.AtUpdate? {
      CursorReadKeeps(setup, w, pc, db, log, ev.stop);
    } else if ev.CheckProcessed? && pc.CursorPassed? {
      ProcessedCheckKeeps(setup, w, pc, db, log);
    }
  }

  /** A write event at a position that has none to make changes nothing. */
  lemma MisplacedWriteKeeps(setup: Setup, w: nat, pc: Pc, db: Tables, ev: PollerEvent)
    requires (ev.TryAcquire? && !pc.Idle?) || (ev.Renew? && pc.Idle?) || (ev.Record? && !pc.ReadyToRecord?)
             || (ev.Release? && !pc.Releasing?)
    ensures PollerStep(setup, w, pc, db, ev) == Outcome(pc, db, [], [])
  {
  }

  lemma WritingStepKeeps(setup: Setup, w: nat, pc: Pc, db: Tables, log: seq<Write>, ev: PollerEvent)
    requires LogOk(db, log) && MarkersOk(db) && PcOk(db, log, w, pc)
    requires (ev.TryAcquire? && pc.Idle?) || (ev.Renew? && !pc.Idle?) || (ev.Record? && pc.ReadyToRecord?)
             || (ev.Release? && pc.Releasing?)
    ensures var o := PollerStep(setup, w, pc, db, ev);
      && LogOk(o.db, log + o.writes) && MarkersOk(o.db)
      && PcOk(o.db, log + o.writes, w, o.pc) && Committing(db, log, o.db, log + o.writes)
  {
    match ev {
      case TryAcquire(now) => PollerAcquires(setup, w, db, log, now);
      case Renew(now) => RenewKeeps(setup, w, pc, db, log, now);
      case Record(now) => RecordKeeps(setup, w, pc, db, log, now);
      case Release =>
        assert log + [] == log;
        if db.row.Some? {
          ReleaseKeeps(setup, Poller(w), pc.lease, db, log);
        }
    }
  }

  lemma PollerKeeps(setup: Setup, w: nat, pc: Pc, db: Tables, log: seq<Write>, ev: PollerEvent)
    requires LogOk(db, log) && MarkersOk(db) && PcOk(db, log, w, pc)
    ensures var o := PollerStep(setup, w, pc, db, ev);
      && LogOk(o.db, log + o.writes) && MarkersOk(o.db)
      && PcOk(o.db, log + o.writes, w, o.pc) && Committing(db, log, o.db, log + o.writes)
  {
    assert log + [] == log;
    if (ev.TryAcquire? && pc.Idle?) || (ev.Renew? && !pc.Idle?) || (ev.Record? && pc.ReadyToRecord?)
       || (ev.Release? && pc.Releasing?) {
      WritingStepKeeps(setup, w, pc, db, log, ev);
    } else if ev.TryAcquire? || ev.Renew? || ev.Record? || ev.Release? {
      MisplacedWriteKeeps(setup, w, pc, db, ev);
    } else {
      LocalStepKeeps(setup, w, pc, db, log, ev);
    }
  }

  /** The keeper's acquisition changes nothing, or is one logged write at its own offset. */
  lemma KeeperAcquisition(setup: Setup, k: nat, keeper: KeeperState, db: Tables, now: int)
    requires keeper.Waiting?
    ensures var o := KeeperStep(setup, k, keeper, db, KeeperAcquire(now));
      var (db', got) := AcquireLease(db, setup.owner(Keeper(k)), now, now + LEASE_SECONDS);
      || (o.writes == [] && o.db == db && !o.keeper.Keeping?)
      || (o.writes == [] && got.None? && o.db == db' && !o.keeper.Keeping?)
      || (got.Some? && o.db == db' && o.writes == [Write(Keeper(k), AcquireOp, got.value)]
          && o.keeper == Keeping(got.value, got.value.nextOffset, got.value.version, false))
  {
  }

  lemma KeeperAcquires(setup: Setup, k: nat, keeper: KeeperState, db: Tables, log: seq<Write>, now: int)
    requires LogOk(db, log) && MarkersOk(db) && keeper.Waiting?
    ensures var o := KeeperStep(setup, k, keeper, db, KeeperAcquire(now));
      && LogOk(o.db, log + o.writes) && MarkersOk(o.db)
      && KeeperOk(log + o.writes, k, o.keeper) && Committing(db, log, o.db, log + o.writes)
  {
    assert log + [] == log;
    KeeperAcquisition(setup, k, keeper, db, now);
    AcquisitionCommits(setup, Keeper(k), db, log, now);
    var (db', got) := AcquireLease(db, setup.owner(Keeper(k)), now, now + LEASE_SECONDS);
    if got.Some? { FreshKeeper(db', log, k, got.value); }
  }

  lemma FreshKeeper(db: Tables, log: seq<Write>, k: nat, state: PollState)
    requires var log' := log + [Write(Keeper(k), AcquireOp, state)]; LogOk(db, log')
    ensures var log' := log + [Write(Keeper(k), AcquireOp, state)];
      KeeperOk(log', k, Keeping(state, state.nextOffset, state.version, false))
  {
    var log' := log + [Write(Keeper(k), AcquireOp, state)];
    assert log'[|log|].after.version == |log| + 2;
  }

  lemma KeeperRenews(setup: Setup, k: nat, keeper: KeeperState, db: Tables, log: seq<Write>, now: int)
    requires LogOk(db, log) && MarkersOk(db) && KeeperOk(log, k, keeper) && keeper.Keeping?
    ensures var o := KeeperStep(setup, k, keeper, db, KeeperRenew(now));
      && LogOk(o.db, log + o.writes) && MarkersOk(o.db)
      && KeeperOk(log + o.writes, k, o.keeper) && Committing(db, log, o.db, log + o.writes)
      && (o.writes != [] ==> o.db.row == Some(o.keeper.state))
  {
    assert log + [] == log;
    if !keeper.failed {
      RenewalIsCurrent(setup, Keeper(k), keeper.state, db, log, now);
    }
  }

  lemma KeeperKeeps(setup: Setup, k: nat, keeper: KeeperState, db: Tables, log: seq<Write>, ev: KeeperEvent)
    requires LogOk(db, log) && MarkersOk(db) && KeeperOk(log, k, keeper)
    ensures var o := KeeperStep(setup, k, keeper, db, ev);
      && LogOk(o.db, log + o.writes) && MarkersOk(o.db)
      && KeeperOk(log + o.writes, k, o.keeper) && Committing(db, log, o.db, log + o.writes)
  {
    assert log + [] == log;
    if ev.KeeperAcquire? && keeper.Waiting? {
      KeeperAcquires(setup, k, keeper, db, log, ev.now);
    } else if ev.KeeperRenew? && keeper.Keeping? {
      KeeperRenews(setup, k, keeper, db, log, ev.now);
    } else if ev.KeeperExit? && keeper.Keeping? && db.row.Some? {
      ReleaseKeeps(setup, Keeper(k), keeper.state, db, log);
    }
  }

  /** A step keeps the tables in order, and the position of the agent that takes it. */
  lemma AgentStepKeeps(setup: Setup, s: System, step: Step)
    requires Inv(s)
    ensures var s' := Apply(setup, s, step);
      && LogOk(s'.db, s'.log) && MarkersOk(s'.db) && Committing(s.db, s.log, s'.db, s'.log)
      && (step.OfPoller? ==> PcOk(s'.db, s'.log, step.w, s'.PcOf(step.w)))
      && (step.OfKeeper? ==> KeeperOk(s'.log, step.k, s'.KeeperOf(step.k)))
  {
    match step {
      case OfPoller(w, ev) =>
        assert PcOk(s.db, s.log, w, s.PcOf(w));
        PollerKeeps(setup, w, s.PcOf(w), s.db, s.log, ev);
      case OfKeeper(k, ev) =>
        assert KeeperOk(s.log, k, s.KeeperOf(k));
        KeeperKeeps(setup, k, s.KeeperOf(k), s.db, s.log, ev);
      case Issue(_) =>
    }
  }

  lemma StepKeeps(setup: Setup, s: System, step: Step)
    requires Inv(s)
    ensures Inv(Apply(setup, s, step))
    ensures Committing(s.db, s.log, Apply(setup, s, step).db, Apply(setup, s, step).log)
  {
    var s' := Apply(setup, s, step);
    AgentStepKeeps(setup, s, step);
    forall w | w in s'.pollers ensures PcOk(s'.db, s'.log, w, s'.pollers[w]) {
      if !(step.OfPoller? && step.w == w) {
        PcFrame(s.db, s.log, s'.db, s'.log, w, s.pollers[w]);
      }
    }
    forall k | k in s'.keepers ensures KeeperOk(s'.log, k, s'.keepers[k]) {
      if !(step.OfKeeper? && step.k == k) {
        KeeperFrame(s.log, s'.log, k, s.keepers[k]);
      }
    }
  }

  lemma {:induction false} RunInvariant(setup: Setup, steps: seq<Step>)
    ensures Inv(Run(setup, steps))
  {
    if steps != [] {
      RunInvariant(setup, steps[..|steps|-1]);
      StepKeeps(setup, Run(setup, steps[..|steps|-1]), steps[|steps|-1]);
    }
  }

  // ---- Cursor theorems --------------------------------------------------------------------

  /**
   The poller's pre-checks suffice: although they ran in earlier transactions, when its final
   transaction commits the id is at or above the cursor and above every recorded id, and the
   unique keys on update id and callback digest cannot fail.
   */
  lemma PreChecksSuffice(setup: Setup, steps: seq<Step>, w: nat, now: int)
    requires Run(setup, steps).PcOf(w).ReadyToRecord?
    ensures var s := Run(setup, steps);
      var pc := s.PcOf(w);
      && pc.job.i < |pc.job.batch|
      && var u := pc.job.Here();
         var result := RecordTerminal(s.db, setup.owner(Poller(w)), pc.lease.epoch, pc.lease.version, now,
                                      MarkerOf(u, pc.verdict, now)).1;
         && !result.Conflict?
         && (result.Recorded? ==>
               && s.db.row.value.nextOffset <= u.updateId
               && result.state.nextOffset == u.updateId + 1
               && forall i | 0 <= i < |s.db.markers| :: s.db.markers[i].updateId < u.updateId)
  {
    RunInvariant(setup, steps);
    var s := Run(setup, steps);
    assert PcOk(s.db, s.log, w, s.PcOf(w));
  }

  /** In every reachable state recorded ids increase in recording order and lie below the cursor. */
  lemma RecordedIdsIncrease(setup: Setup, steps: seq<Step>, i: nat, j: nat)
    requires i < j < |Run(setup, steps).db.markers|
    ensures var db := Run(setup, steps).db;
      && db.row.Some?
      && db.markers[i].updateId < db.markers[j].updateId < db.row.value.nextOffset
      && (db.markers[i].digest.Some? ==> db.markers[i].digest != db.markers[j].digest)
  {
    RunInvariant(setup, steps);
  }

  /**
   No delivered update is skipped: when a poller records an update of the batch it fetched at
   cursor `origin`, every smaller id of that batch from `origin` on already has its marker.
   */
  lemma NoDeliveredUpdateSkipped(setup: Setup, steps: seq<Step>, w: nat, now: int, u: Update)
    requires Run(setup, steps).PcOf(w).ReadyToRecord?
    requires PollerStep(setup, w, Run(setup, steps).PcOf(w), Run(setup, steps).db, Record(now)).writes != []
    requires u in Run(setup, steps).PcOf(w).job.batch
    ensures var s := Run(setup, steps);
      var job := s.PcOf(w).job;
      job.i < |job.batch| && (job.origin <= u.updateId < job.Here().updateId ==> IsProcessed(s.db, u.updateId))
  {
    RunInvariant(setup, steps);
    RecordedInOrder(setup, Run(setup, steps), w, now, u);
  }

  lemma RecordedInOrder(setup: Setup, s: System, w: nat, now: int, u: Update)
    requires Inv(s) && s.PcOf(w).ReadyToRecord? && u in s.PcOf(w).job.batch
    requires PollerStep(setup, w, s.PcOf(w), s.db, Record(now)).writes != []
    ensures var job := s.PcOf(w).job;
      job.i < |job.batch| && (job.origin <= u.updateId < job.Here().updateId ==> IsProcessed(s.db, u.updateId))
  {
    assert PcOk(s.db, s.log, w, s.PcOf(w));
    var job := s.PcOf(w).job;
    var j :| 0 <= j < |job.batch| && job.batch[j] == u;
    assert Current(s.db, s.PcOf(w).lease);
    assert u.updateId < job.Here().updateId ==> j < job.i;
  }

  // ---- Fencing theorems -------------------------------------------------------------------

  lemma {:induction false} LogGrows(setup: Setup, steps: seq<Step>, more: seq<Step>)
    ensures Run(setup, steps).log <= Run(setup, steps + more).log
  {
    if more == [] {
      assert steps + more == steps;
    } else {
      LogGrows(setup, steps, more[..|more|-1]);
      LastStep(setup, steps, more);
      StepLogs(setup, Run(setup, steps), Run(setup, steps + more[..|more|-1]), more[|more|-1]);
    }
  }

  lemma RunUnfolds(setup: Setup, steps: seq<Step>)
    requires steps != []
    ensures Run(setup, steps) == Apply(setup, Run(setup, steps[..|steps|-1]), steps[|steps|-1])
  {
  }

  lemma LastStep(setup: Setup, steps: seq<Step>, more: seq<Step>)
    requires more != []
    ensures Run(setup, steps + more) == Apply(setup, Run(setup, steps + more[..|more|-1]), more[|more|-1])
  {
    var all := steps + more;
    assert all[..|all|-1] == steps + more[..|more|-1] && all[|all|-1] == more[|more|-1];
    RunUnfolds(setup, all);
  }

  lemma StepLogs(setup: Setup, first: System, s: System, step: Step)
    requires first.log <= s.log
    ensures first.log <= Apply(setup, s, step).log
  {
  }

  /** Each epoch has one acquisition, and every write made in an epoch is its acquirer's. */
  lemma EpochHasOneAcquirer(setup: Setup, steps: seq<Step>, i: nat, j: nat)
    requires i < |Run(setup, steps).log| && j < |Run(setup, steps).log|
    requires Run(setup, steps).log[i].after.epoch == Run(setup, steps).log[j].after.epoch
    ensures var log := Run(setup, steps).log;
      && log[i].agent == log[j].agent
      && (log[i].op.AcquireOp? && log[j].op.AcquireOp? ==> i == j)
  {
    RunInvariant(setup, steps);
    var s := Run(setup, steps);
    if i <= j {
      EpochsGrow(s.db, s.log, i, j);
    } else {
      EpochsGrow(s.db, s.log, j, i);
    }
  }

  /** Version, epoch and cursor of the row never decrease along a run. */
  lemma RowOnlyGrows(setup: Setup, steps: seq<Step>, more: seq<Step>)
    requires Run(setup, steps).db.row.Some?
    ensures var now, later := Run(setup, steps).db.row, Run(setup, steps + more).db.row;
      && later.Some?
      && now.value.version <= later.value.version
      && now.value.epoch <= later.value.epoch
      && now.value.nextOffset <= later.value.nextOffset
  {
    RunInvariant(setup, steps);
    RunInvariant(setup, steps + more);
    LogGrows(setup, steps, more);
    var s, t := Run(setup, steps), Run(setup, steps + more);
    LaterRow(s.db, s.log, t.db, t.log);
  }

  lemma LaterRow(db: Tables, log: seq<Write>, db': Tables, log': seq<Write>)
    requires LogOk(db, log) && LogOk(db', log') && log <= log' && db.row.Some?
    ensures db'.row.Some? && db.row.value.version <= db'.row.value.version
    ensures db.row.value.epoch <= db'.row.value.epoch && db.row.value.nextOffset <= db'.row.value.nextOffset
  {
    assert log[|log|-1] == log'[|log|-1];
    EpochsGrow(db', log', |log| - 1, |log'| - 1);
  }

  /** Once the row has moved past a snapshot, nothing its holder does with it ever writes again. */
  lemma OvertakenNeverWrites(setup: Setup, steps: seq<Step>, more: seq<Step>, lease: PollState,
                             owner: string, now: int, marker: Marker)
    requires Run(setup, steps).db.row.Some?
    requires Run(setup, steps).db.row.value.version > lease.version
    ensures var later := Run(setup, steps + more).db;
      && RenewLease(later, owner, lease.epoch, lease.version, now, now + LEASE_SECONDS) == (later, None)
      && RecordTerminal(later, owner, lease.epoch, lease.version, now, marker) == (later, Stale)
      && (Run(setup, steps).db.row.value.epoch > lease.epoch ==>
            forall version :: ReleaseLease(later, owner, lease.epoch, version) == (later, false))
  {
    RowOnlyGrows(setup, steps, more);
  }

  /**
   A successful `verify_before_write` proves that every change of the row since the
   maintenance acquisition was the maintenance tool's own, so the cursor never moved.
   */
  lemma VerifyBeforeWriteFreezesCursor(setup: Setup, steps: seq<Step>, k: nat, now: int)
    requires var s := Run(setup, steps);
      KeeperStep(setup, k, s.KeeperOf(k), s.db, KeeperRenew(now)).writes != []
    ensures var s := Run(setup, steps + [OfKeeper(k, KeeperRenew(now))]);
      var keeper := s.KeeperOf(k);
      && keeper.Keeping? && !keeper.failed
      && s.db.row == Some(keeper.state) && s.db.row.value.nextOffset == keeper.offset
      && 2 <= keeper.since <= |s.log|
      && s.log[keeper.since - 2].op.AcquireOp?
      && (forall i | keeper.since - 2 <= i < |s.log| ::
            s.log[i].agent == Keeper(k) && s.log[i].after.nextOffset == keeper.offset)
  {
    var before := Run(setup, steps);
    var all := steps + [OfKeeper(k, KeeperRenew(now))];
    assert all[..|all|-1] == steps;
    RunInvariant(setup, steps);
    RunInvariant(setup, all);
    KeeperRenews(setup, k, before.KeeperOf(k), before.db, before.log, now);
    KeeperAnchored(setup, all, k);
    assert KeeperOk(Run(setup, all).log, k, Run(setup, all).KeeperOf(k));
  }

  /** `since` names the log entry of the keeper's own acquisition. */
  predicate Anchored(log: seq<Write>, keeper: KeeperState) {
    keeper.Keeping? ==> 2 <= keeper.since <= |log| + 1 && log[keeper.since - 2].op.AcquireOp?
  }

  lemma AnchorStays(log: seq<Write>, writes: seq<Write>, keeper: KeeperState)
    requires Anchored(log, keeper)
    ensures Anchored(log + writes, keeper)
  {
  }

  lemma KeeperStepAnchors(setup: Setup, k: nat, keeper: KeeperState, db: Tables, log: seq<Write>, ev: KeeperEvent)
    requires LogOk(db, log) && Anchored(log, keeper)
    ensures var o := KeeperStep(setup, k, keeper, db, ev); Anchored(log + o.writes, o.keeper)
  {
    var o := KeeperStep(setup, k, keeper, db, ev);
    AnchorStays(log, o.writes, keeper);
  }

  lemma {:induction false} KeeperAnchored(setup: Setup, steps: seq<Step>, k: nat)
    ensures var s := Run(setup, steps); Anchored(s.log, s.KeeperOf(k))
  {
    if steps != [] {
      var before, last := steps[..|steps|-1], steps[|steps|-1];
      var s := Run(setup, before);
      KeeperAnchored(setup, before, k);
      RunInvariant(setup, before);
      match last {
        case OfPoller(w, ev) => AnchorStays(s.log, PollerStep(setup, w, s.PcOf(w), s.db, ev).writes, s.KeeperOf(k));
        case OfKeeper(other, ev) =>
          AnchorStays(s.log, KeeperStep(setup, other, s.KeeperOf(other), s.db, ev).writes, s.KeeperOf(k));
          KeeperStepAnchors(setup, k, s.KeeperOf(k), s.db, s.log, ev);
        case Issue(_) =>
      }
    }
  }
}
