/** At-least-once handling, and loss-freedom when the provider keeps its own contract. */
module PollingDelivery {
  import opened Common
  import opened PollTables
  import opened TelegramUpdates
  import opened Polling
  import opened PollingTheorems

  // ---- Recorded callbacks were handled ----------------------------------------------------

  ghost predicate HandledQuery(calls: seq<Update>, query: string) {
    exists i | 0 <= i < |calls| :: calls[i].kind.CallbackUpdate? && calls[i].callbackQueryId == Some(query)
  }

  /** What a record claims: handled updates were handled, callbacks under some delivery of theirs. */
  ghost predicate Vouched(calls: seq<Update>, u: Update, v: Verdict) {
    && (v.disposition.Handled? ==> u in calls)
    && (v.digest.Some? ==> u.kind.CallbackUpdate? && u.callbackQueryId == Some(v.digest.value.callbackQueryId)
                           && v.disposition.Handled?)
    && (v.kind.CallbackKind? ==> u.callbackQueryId.Some? && HandledQuery(calls, u.callbackQueryId.value))
  }

  ghost predicate RecordsVouched(db: Tables, log: seq<Write>, calls: seq<Update>) {
    && (forall i | 0 <= i < |db.markers| ::
          db.markers[i].digest.Some? ==> HandledQuery(calls, db.markers[i].digest.value.callbackQueryId))
    && (forall k | 0 <= k < |log| :: log[k].op.RecordOp? ==> Vouched(calls, log[k].op.update, log[k].op.verdict))
  }

  ghost predicate PcVouched(calls: seq<Update>, pc: Pc) {
    (pc.Committed() ==> pc.job.i < |pc.job.batch|) &&
    match pc
    case DigestPending(_, job, query) =>
      job.Here().kind.CallbackUpdate? && job.Here().callbackQueryId == Some(query)
    case HandlerPending(_, job, kind, unseen) => Intends(job.Here(), kind, unseen)
    case InHandler(_, job, kind, unseen) => Intends(job.Here(), kind, unseen)
    case VerdictReached(_, job, verdict) => Vouched(calls, job.Here(), verdict)
    case ReadyToRecord(_, job, verdict) => Vouched(calls, job.Here(), verdict)
    case _ => true
  }

  /** A handler is about to run for a text, or for a callback under its own digest. */
  predicate Intends(u: Update, kind: MarkerKind, unseen: Option<Digest>) {
    && (kind.CallbackKind? <==> u.kind.CallbackUpdate?) && (kind.CallbackKind? <==> unseen.Some?)
    && (unseen.Some? ==> u.callbackQueryId == Some(unseen.value.callbackQueryId))
  }

  lemma VouchedGrows(calls: seq<Update>, calls': seq<Update>, u: Update, v: Verdict)
    requires calls <= calls' && Vouched(calls, u, v)
    ensures Vouched(calls', u, v)
  {
    if v.kind.CallbackKind? {
      var i :| 0 <= i < |calls| && calls[i].kind.CallbackUpdate? && calls[i].callbackQueryId == u.callbackQueryId;
      assert calls'[i] == calls[i];
    }
    if v.disposition.Handled? {
      var i :| 0 <= i < |calls| && calls[i] == u;
      assert calls'[i] == u;
    }
  }

  lemma RecordsGrow(db: Tables, log: seq<Write>, calls: seq<Update>, calls': seq<Update>)
    requires RecordsVouched(db, log, calls) && calls <= calls'
    ensures RecordsVouched(db, log, calls')
  {
    forall k | 0 <= k < |log| && log[k].op.RecordOp? ensures Vouched(calls', log[k].op.update, log[k].op.verdict) {
      VouchedGrows(calls, calls', log[k].op.update, log[k].op.verdict);
    }
    forall i | 0 <= i < |db.markers| && db.markers[i].digest.Some?
      ensures HandledQuery(calls', db.markers[i].digest.value.callbackQueryId)
    {
      var c :| 0 <= c < |calls| && calls[c].kind.CallbackUpdate?
               && calls[c].callbackQueryId == Some(db.markers[i].digest.value.callbackQueryId);
      assert calls'[c] == calls[c];
    }
  }

  lemma PcVouchedGrows(calls: seq<Update>, calls': seq<Update>, pc: Pc)
    requires PcVouched(calls, pc) && calls <= calls'
    ensures PcVouched(calls', pc)
  {
    if pc.VerdictReached? || pc.ReadyToRecord? {
      VouchedGrows(calls, calls', pc.job.Here(), pc.verdict);
    }
  }

  lemma PollerVouches(setup: Setup, w: nat, pc: Pc, db: Tables, log: seq<Write>, calls: seq<Update>, ev: PollerEvent)
    requires RecordsVouched(db, log, calls) && PcVouched(calls, pc)
    ensures var o := PollerStep(setup, w, pc, db, ev);
      RecordsVouched(o.db, log + o.writes, calls + o.calls) && PcVouched(calls + o.calls, o.pc)
  {
    var o := PollerStep(setup, w, pc, db, ev);
    var calls' := calls + o.calls;
    if pc.InHandler? && ev.HandlerReturns? && ev.terminal {
      assert calls'[|calls|] == pc.job.Here();
      RecordsGrow(db, log, calls, calls');
      assert log + o.writes == log;
    } else {
      assert calls' == calls;
      if pc.DigestPending? && ev.CheckDigest? && DigestSeen(db, Digest(pc.query)) {
        var i :| 0 <= i < |db.markers| && db.markers[i].digest == Some(Digest(pc.query));
        assert HandledQuery(calls, db.markers[i].digest.value.callbackQueryId);
      }
    }
  }

  ghost predicate HandlingInv(s: System) {
    && RecordsVouched(s.db, s.log, s.calls)
    && forall w | w in s.pollers :: PcVouched(s.calls, s.pollers[w])
  }

  lemma {:induction false} HandlingRun(setup: Setup, steps: seq<Step>)
    ensures HandlingInv(Run(setup, steps))
  {
    if steps != [] {
      var s := Run(setup, steps[..|steps|-1]);
      var s' := Run(setup, steps);
      HandlingRun(setup, steps[..|steps|-1]);
      match steps[|steps|-1] {
        case OfPoller(w, ev) =>
          PollerVouches(setup, w, s.PcOf(w), s.db, s.log, s.calls, ev);
          forall v | v in s'.pollers ensures PcVouched(s'.calls, s'.pollers[v]) {
            if v != w {
              PcVouchedGrows(s.calls, s'.calls, s.pollers[v]);
            }
          }
        case OfKeeper(_, _) =>
        case Issue(_) =>
      }
    }
  }

  /**
   At-least-once: every update recorded as handled had its handler call completed, and every
   callback recorded at all, duplicates included, had one delivery of its query handled.
   */
  lemma RecordedCallbacksWereHandled(setup: Setup, steps: seq<Step>, k: nat)
    requires k < |Run(setup, steps).log| && Run(setup, steps).log[k].op.RecordOp?
    ensures var s := Run(setup, steps);
      var op := s.log[k].op;
      && (op.verdict.disposition.Handled? ==> op.update in s.calls)
      && (op.verdict.kind.CallbackKind? ==>
            op.update.callbackQueryId.Some? && HandledQuery(s.calls, op.update.callbackQueryId.value))
  {
    HandlingRun(setup, steps);
  }

  // ---- An honest provider loses nothing ---------------------------------------------------

  predicate InBatch(batch: seq<Update>, id: nat) {
    exists i | 0 <= i < |batch| :: batch[i].updateId == id
  }

  predicate Reaches(batch: seq<Update>, id: nat) {
    exists i | 0 <= i < |batch| :: id <= batch[i].updateId
  }

  /** The batch holds issued ids only, and every issued id from `origin` up to its largest. */
  ghost predicate Gapless(issued: set<nat>, origin: nat, batch: seq<Update>) {
    && (forall i | 0 <= i < |batch| :: batch[i].updateId in issued)
    && (forall id {:trigger InBatch(batch, id)} | id in issued ::
          origin <= id && Reaches(batch, id) ==> InBatch(batch, id))
  }

  /** The provider issues increasing ids and answers each poll without gaps. */
  ghost predicate HonestStep(s: System, step: Step) {
    match step
    case Issue(id) => forall other | other in s.issued :: other < id
    case OfPoller(w, FetchReturns(_, batch)) =>
      s.PcOf(w).Fetching? ==> Gapless(s.issued, s.PcOf(w).lease.nextOffset, batch)
    case _ => true
  }

  ghost predicate HonestRun(setup: Setup, steps: seq<Step>) {
    steps == [] ||
    (HonestRun(setup, steps[..|steps|-1]) && HonestStep(Run(setup, steps[..|steps|-1]), steps[|steps|-1]))
  }

  ghost predicate NothingLost(db: Tables, issued: set<nat>) {
    && (db.row.Some? ==> db.row.value.nextOffset == 0 || db.row.value.nextOffset - 1 in issued)
    && (forall id | id in issued :: db.row.Some? && id < db.row.value.nextOffset ==> IsProcessed(db, id))
  }

  ghost predicate HonestInv(s: System) {
    && NothingLost(s.db, s.issued)
    && forall w | w in s.pollers ::
         s.pollers[w].HasJob() ==> Gapless(s.issued, s.pollers[w].job.origin, s.pollers[w].job.batch)
  }

  lemma GaplessGrows(issued: set<nat>, id: nat, origin: nat, batch: seq<Update>)
    requires Gapless(issued, origin, batch) && forall other | other in issued :: other < id
    ensures Gapless(issued + {id}, origin, batch)
  {
    forall x | x in issued + {id} && origin <= x && Reaches(batch, x) ensures InBatch(batch, x) {
      var i :| 0 <= i < |batch| && x <= batch[i].updateId;
      assert batch[i].updateId in issued;
      assert x in issued;
    }
  }

  lemma RecordLosesNothing(setup: Setup, w: nat, pc: Pc, db: Tables, log: seq<Write>, issued: set<nat>, now: int)
    requires LogOk(db, log) && MarkersOk(db) && PcOk(db, log, w, pc) && pc.ReadyToRecord?
    requires NothingLost(db, issued) && Gapless(issued, pc.job.origin, pc.job.batch)
    ensures NothingLost(PollerStep(setup, w, pc, db, Record(now)).db, issued)
  {
    var o := PollerStep(setup, w, pc, db, Record(now));
    if o.writes != [] {
      assert Current(db, pc.lease);
      var here := pc.job.Here().updateId;
      assert o.db.markers[|db.markers|].updateId == here;
      forall id | id in issued && id < o.db.row.value.nextOffset ensures IsProcessed(o.db, id) {
        if db.row.value.nextOffset <= id {
          assert pc.job.batch[pc.job.i].updateId >= id;
          assert Reaches(pc.job.batch, id);
          assert InBatch(pc.job.batch, id);
          var j :| 0 <= j < |pc.job.batch| && pc.job.batch[j].updateId == id;
          assert j == pc.job.i;
        }
        if IsProcessed(db, id) {
          var i :| 0 <= i < |db.markers| && db.markers[i].updateId == id;
          assert o.db.markers[i].updateId == id;
        }
      }
    }
  }

  /** Transitions other than a record move neither the cursor nor the markers. */
  lemma OtherStepsKeepCursor(setup: Setup, w: nat, pc: Pc, db: Tables, ev: PollerEvent)
    requires !(ev.Record? && pc.ReadyToRecord?)
    ensures var db' := PollerStep(setup, w, pc, db, ev).db;
      && db'.markers == db.markers
      && (db.row.Some? ==> db'.row.Some? && db'.row.value.nextOffset == db.row.value.nextOffset)
      && (db.row.None? && db'.row.Some? ==> db'.row.value.nextOffset == 0)
  {
  }

  lemma KeeperKeepsCursor(setup: Setup, k: nat, keeper: KeeperState, db: Tables, ev: KeeperEvent)
    ensures var db' := KeeperStep(setup, k, keeper, db, ev).db;
      && db'.markers == db.markers
      && (db.row.Some? ==> db'.row.Some? && db'.row.value.nextOffset == db.row.value.nextOffset)
      && (db.row.None? && db'.row.Some? ==> db'.row.value.nextOffset == 0)
  {
  }

  lemma SameCursorLosesNothing(db: Tables, db': Tables, issued: set<nat>)
    requires NothingLost(db, issued) && db'.markers == db.markers
    requires db.row.Some? ==> db'.row.Some? && db'.row.value.nextOffset == db.row.value.nextOffset
    requires db.row.None? && db'.row.Some? ==> db'.row.value.nextOffset == 0
    ensures NothingLost(db', issued)
  {
    forall id | id in issued && db'.row.Some? && id < db'.row.value.nextOffset ensures IsProcessed(db', id) {
      assert IsProcessed(db, id);
      var i :| 0 <= i < |db.markers| && db.markers[i].updateId == id;
      assert db'.markers[i].updateId == id;
    }
  }

  lemma OwnJobGapless(setup: Setup, w: nat, pc: Pc, db: Tables, ev: PollerEvent, issued: set<nat>)
    requires pc.HasJob() ==> Gapless(issued, pc.job.origin, pc.job.batch)
    requires pc.Fetching? && ev.FetchReturns? ==> Gapless(issued, pc.lease.nextOffset, ev.batch)
    ensures var pc' := PollerStep(setup, w, pc, db, ev).pc;
      pc'.HasJob() ==> Gapless(issued, pc'.job.origin, pc'.job.batch)
  {
  }

  lemma HonestPollerKeeps(setup: Setup, s: System, w: nat, ev: PollerEvent)
    requires Inv(s) && HonestInv(s) && HonestStep(s, OfPoller(w, ev))
    ensures HonestInv(Apply(setup, s, OfPoller(w, ev)))
  {
    var s' := Apply(setup, s, OfPoller(w, ev));
    var pc := s.PcOf(w);
    assert PcOk(s.db, s.log, w, pc);
    OwnJobGapless(setup, w, pc, s.db, ev, s.issued);
    if ev.Record? && pc.ReadyToRecord? {
      RecordLosesNothing(setup, w, pc, s.db, s.log, s.issued, ev.now);
    } else {
      OtherStepsKeepCursor(setup, w, pc, s.db, ev);
      SameCursorLosesNothing(s.db, s'.db, s.issued);
    }
  }

  lemma {:induction false} HonestRunKeeps(setup: Setup, steps: seq<Step>)
    requires HonestRun(setup, steps)
    ensures HonestInv(Run(setup, steps))
  {
    if steps != [] {
      var s := Run(setup, steps[..|steps|-1]);
      var s' := Run(setup, steps);
      HonestRunKeeps(setup, steps[..|steps|-1]);
      RunInvariant(setup, steps[..|steps|-1]);
      match steps[|steps|-1] {
        case OfPoller(w, ev) => HonestPollerKeeps(setup, s, w, ev);
        case OfKeeper(k, ev) =>
          KeeperKeepsCursor(setup, k, s.KeeperOf(k), s.db, ev);
          SameCursorLosesNothing(s.db, s'.db, s.issued);
        case Issue(id) =>
          forall w | w in s'.pollers && s'.pollers[w].HasJob()
            ensures Gapless(s'.issued, s'.pollers[w].job.origin, s'.pollers[w].job.batch)
          {
            GaplessGrows(s.issued, id, s.pollers[w].job.origin, s.pollers[w].job.batch);
          }
      }
    }
  }

  /**
   Under an honest provider no issued update is ever lost, whatever the pollers, crashes,
   takeovers and clocks do: an id below the durable cursor has a terminal marker.
   */
  lemma NoIssuedUpdateLost(setup: Setup, steps: seq<Step>, id: nat)
    requires HonestRun(setup, steps)
    requires id in Run(setup, steps).issued
    requires Run(setup, steps).db.row.Some? && id < Run(setup, steps).db.row.value.nextOffset
    ensures IsProcessed(Run(setup, steps).db, id)
  {
    HonestRunKeeps(setup, steps);
  }
}
