/** What each repository operation answers and writes, said over the row itself. */
module PollLaws {
  import opened Common
  import opened PollTables
  import opened Polling
  import opened PollingTheorems

  // ---- Single operations ------------------------------------------------------------------

  /** A lease is acquired if and only if there is no row, it is free, or it expires no later than now; only
   then anything changes. */
  lemma AcquiresIff(t: Tables, owner: string, now: int, expiresAt: int)
    ensures var (after, got) := AcquireLease(t, owner, now, expiresAt);
      && (got.Some? <==> t.row.None? || t.row.value.lease.Free? || t.row.value.lease.expiresAt <= now)
      && (got.None? ==> after == t)
      && (got.Some? ==>
            && after.row == got && after.markers == t.markers && got.value.lease == Held(owner, expiresAt)
            && (t.row.None? ==> got.value.nextOffset == 0 && got.value.epoch == 1 && got.value.version == 2)
            && (t.row.Some? ==>
                  && got.value.nextOffset == t.row.value.nextOffset
                  && got.value.epoch == t.row.value.epoch + 1 && got.value.version == t.row.value.version + 1))
  {
  }

  /** The row is held by this owner, at this epoch and version, until `expiresAt`. */
  predicate HeldUntil(t: Tables, owner: string, epoch: nat, version: nat, expiresAt: int) {
    t.row.Some? && t.row.value == PollState(t.row.value.nextOffset, Held(owner, expiresAt), epoch, version)
  }

  /** A lease is renewed if and only if the caller holds it at the epoch and version it names and it expires
   after now; only expiry and version change. */
  lemma RenewsIff(t: Tables, owner: string, epoch: nat, version: nat, now: int, expiresAt: int)
    ensures var (after, got) := RenewLease(t, owner, epoch, version, now, expiresAt);
      && (got.Some? <==> exists until :: until > now && HeldUntil(t, owner, epoch, version, until))
      && (got.None? ==> after == t)
      && (got.Some? ==>
            && after.row == got && after.markers == t.markers
            && got.value == PollState(t.row.value.nextOffset, Held(owner, expiresAt), epoch, version + 1))
  {
    if t.row.Some? && t.row.value.lease.Held? {
      assert HeldUntil(t, owner, epoch, version, t.row.value.lease.expiresAt)
        <==> t.row.value.lease.owner == owner && t.row.value.epoch == epoch && t.row.value.version == version;
    }
  }

  /** A lease is released if and only if the caller holds it at the epoch and version it names, expired or not. */
  lemma ReleasesIff(t: Tables, owner: string, epoch: nat, version: nat)
    ensures var (after, released) := ReleaseLease(t, owner, epoch, version);
      && (released <==> exists until :: HeldUntil(t, owner, epoch, version, until))
      && (!released ==> after == t)
      && (released ==>
            && after.markers == t.markers
            && after.row == Some(PollState(t.row.value.nextOffset, Free, epoch, version + 1)))
  {
    if t.row.Some? && t.row.value.lease.Held? {
      assert HeldUntil(t, owner, epoch, version, t.row.value.lease.expiresAt)
        <==> t.row.value.lease.owner == owner && t.row.value.epoch == epoch && t.row.value.version == version;
    }
  }

  /** Another marker has the update id, or has the same callback digest. */
  predicate Clashes(markers: seq<Marker>, marker: Marker) {
    exists i | 0 <= i < |markers| ::
      markers[i].updateId == marker.updateId || (marker.digest.Some? && markers[i].digest == marker.digest)
  }

  /** A record is stale if and only if the lease cannot be renewed, conflicts if and only if a key or the id range
   fails, and otherwise appends the marker and moves the cursor past it, never back. */
  lemma RecordsIff(t: Tables, owner: string, epoch: nat, version: nat, now: int, marker: Marker)
    ensures var (after, result) := RecordTerminal(t, owner, epoch, version, now, marker);
      var entitled := exists until :: until > now && HeldUntil(t, owner, epoch, version, until);
      && (result.Stale? <==> !entitled)
      && (result.Conflict? <==>
            entitled && (marker.updateId > 0x7FFF_FFFF_FFFF_FFFE || Clashes(t.markers, marker)))
      && (!result.Recorded? ==> after == t)
      && (result.Recorded? ==>
            && after.markers == t.markers + [marker] && after.row == Some(result.state)
            && result.state.lease == t.row.value.lease
            && result.state.epoch == epoch && result.state.version == version + 1
            && result.state.nextOffset >= t.row.value.nextOffset && result.state.nextOffset > marker.updateId
            && (result.state.nextOffset == t.row.value.nextOffset || result.state.nextOffset == marker.updateId + 1))
  {
    RenewsIff(t, owner, epoch, version, now, now);
    assert IsProcessed(t, marker.updateId) || (marker.digest.Some? && DigestSeen(t, marker.digest.value))
      <==> Clashes(t.markers, marker);
  }

  // ---- Every write of a run ---------------------------------------------------------------

  /** The writer was entitled to the row it found: an acquisition found no lease or an expired one, and every
   other write found the writer's own.  The clock of an acquisition or renewal is its expiry minus the 75 seconds
   that a lease lasts. */
  predicate Entitled(setup: Setup, before: Option<PollState>, w: Write) {
    var me, lease := setup.owner(w.agent), w.after.lease;
    match w.op
    case AcquireOp =>
      && lease.Held? && lease.owner == me
      && (before.Some? ==> before.value.lease.Free? || before.value.lease.expiresAt <= lease.expiresAt - 75)
    case RenewOp =>
      && lease.Held? && lease.owner == me && before.Some? && before.value.lease.Held?
      && before.value.lease.owner == me && before.value.lease.expiresAt > lease.expiresAt - 75
    case RecordOp(_, _) =>
      before.Some? && before.value.lease.Held? && before.value.lease.owner == me && lease == before.value.lease
    case ReleaseOp =>
      before.Some? && before.value.lease.Held? && before.value.lease.owner == me && lease.Free?
  }

  predicate WritesEntitled(setup: Setup, before: Option<PollState>, writes: seq<Write>) {
    writes == [] || (|writes| == 1 && Entitled(setup, before, writes[0]))
  }

  lemma PollerWritesEntitled(setup: Setup, w: nat, pc: Pc, db: Tables, ev: PollerEvent)
    ensures WritesEntitled(setup, db.row, PollerStep(setup, w, pc, db, ev).writes)
  {
  }

  lemma KeeperWritesEntitled(setup: Setup, k: nat, keeper: KeeperState, db: Tables, ev: KeeperEvent)
    ensures WritesEntitled(setup, db.row, KeeperStep(setup, k, keeper, db, ev).writes)
  {
  }

  predicate EntitledAt(setup: Setup, log: seq<Write>, k: nat)
    requires k < |log|
  {
    Entitled(setup, if k == 0 then None else Some(log[k-1].after), log[k])
  }

  ghost predicate AllEntitled(setup: Setup, log: seq<Write>) {
    forall k: nat {:trigger EntitledAt(setup, log, k)} | k < |log| :: EntitledAt(setup, log, k)
  }

  lemma AppendEntitled(setup: Setup, db: Tables, log: seq<Write>, writes: seq<Write>)
    requires LogOk(db, log) && WritesEntitled(setup, db.row, writes) && AllEntitled(setup, log)
    ensures AllEntitled(setup, log + writes)
  {
    forall k: nat | k < |log + writes| ensures EntitledAt(setup, log + writes, k) {
      if k < |log| {
        assert EntitledAt(setup, log, k);
      }
    }
  }

  /** In every run each write of the row was made by a party entitled to it; so no live lease is ever taken
   over, and only its holder renews it, records under it or gives it up. */
  lemma {:induction false} EveryWriteEntitled(setup: Setup, steps: seq<Step>)
    ensures AllEntitled(setup, Run(setup, steps).log)
  {
    if steps != [] {
      var s, step := Run(setup, steps[..|steps|-1]), steps[|steps|-1];
      EveryWriteEntitled(setup, steps[..|steps|-1]);
      RunInvariant(setup, steps[..|steps|-1]);
      match step {
        case OfPoller(w, ev) =>
          PollerWritesEntitled(setup, w, s.PcOf(w), s.db, ev);
          AppendEntitled(setup, s.db, s.log, PollerStep(setup, w, s.PcOf(w), s.db, ev).writes);
        case OfKeeper(k, ev) =>
          KeeperWritesEntitled(setup, k, s.KeeperOf(k), s.db, ev);
          AppendEntitled(setup, s.db, s.log, KeeperStep(setup, k, s.KeeperOf(k), s.db, ev).writes);
        case Issue(_) =>
      }
    }
  }

  /** A live lease is never taken over: an acquisition at clock `now` follows a released lease or one that had
   expired by `now`. */
  lemma LiveLeaseIsNeverTaken(setup: Setup, steps: seq<Step>, k: nat)
    requires 0 < k < |Run(setup, steps).log| && Run(setup, steps).log[k].op.AcquireOp?
    ensures var log := Run(setup, steps).log;
      && log[k].after.lease.Held?
      && var now := log[k].after.lease.expiresAt - 75;
         log[k-1].after.lease.Free? || log[k-1].after.lease.expiresAt <= now
  {
    EveryWriteEntitled(setup, steps);
    assert EntitledAt(setup, Run(setup, steps).log, k);
  }
}
