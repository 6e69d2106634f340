/** What a poller and a maintenance lease do when nobody disturbs them. */
module PollProgress {
  import opened Common
  import opened PollTables
  import opened TelegramUpdates
  import opened Polling

  // ---- The maintenance lease --------------------------------------------------------------

  /** The row is held by this owner at this epoch, whatever its version, with the cursor at `offset`. */
  predicate HeldAt(db: Tables, owner: string, epoch: nat, offset: nat) {
    && db.row.Some? && db.row.value.lease.Held? && db.row.value.lease.owner == owner
    && db.row.value.epoch == epoch && db.row.value.nextOffset == offset
  }

  /** A maintenance lease is kept if and only if it is still its own, unexpired and at its version, and the cursor has
   not moved; it is then extended by one lease, and otherwise it has failed for good and nothing is written. */
  lemma KeeperVerifies(setup: Setup, k: nat, state: PollState, offset: nat, since: nat, db: Tables, now: int)
    ensures var me := setup.owner(Keeper(k));
      var o := KeeperStep(setup, k, Keeping(state, offset, since, false), db, KeeperRenew(now));
      var holds := HeldAt(db, me, state.epoch, offset) && db.row.value.version == state.version
                   && db.row.value.lease.expiresAt > now;
      var renewed := PollState(offset, Held(me, now + 75), state.epoch, state.version + 1);
      && (holds ==>
            && o.keeper == Keeping(renewed, offset, since, false) && o.db == db.(row := Some(renewed))
            && o.writes == [Write(Keeper(k), RenewOp, renewed)])
      && (!holds ==> o.keeper == Keeping(state, offset, since, true) && o.db == db && o.writes == [])
      && KeeperStep(setup, k, Keeping(state, offset, since, true), db, KeeperRenew(now))
         == KeeperOutcome(Keeping(state, offset, since, true), db, [])
  {
  }

  /** On leaving, the row is given back if and only if it is still held at the lease's epoch with the cursor unmoved. */
  lemma KeeperLeaves(setup: Setup, k: nat, state: PollState, offset: nat, since: nat, failed: bool, db: Tables)
    ensures var o := KeeperStep(setup, k, Keeping(state, offset, since, failed), db, KeeperExit);
      && o.keeper == Left
      && (if HeldAt(db, setup.owner(Keeper(k)), state.epoch, offset)
          then
            && o.db == db.(row := Some(PollState(offset, Free, state.epoch, db.row.value.version + 1)))
            && o.writes == [Write(Keeper(k), ReleaseOp, o.db.row.value)]
          else o.db == db && o.writes == [])
  {
  }

  /** A waiting maintenance tool remembers the first cursor it sees, takes the lease exactly when it is to be had and
   the cursor is still there, and gives up without a write when the cursor has moved. */
  lemma KeeperTakes(setup: Setup, k: nat, initial: Option<nat>, db: Tables, now: int)
    ensures var o := KeeperStep(setup, k, Waiting(initial), db, KeeperAcquire(now));
      var row := if db.row.Some? then db.row.value else PollState(0, Free, 0, 1);
      var offset := if initial.Some? then initial.value else row.nextOffset;
      var taken := PollState(row.nextOffset, Held(setup.owner(Keeper(k)), now + 75), row.epoch + 1, row.version + 1);
      if row.lease.Held? && row.lease.expiresAt > now then
        o == KeeperOutcome(Waiting(Some(offset)), db, [])
      else if row.nextOffset != offset then o == KeeperOutcome(Left, db, [])
      else o == KeeperOutcome(Keeping(taken, offset, row.version + 1, false), db.(row := Some(taken)),
                              [Write(Keeper(k), AcquireOp, taken)])
  {
  }

  // ---- A poller left alone ----------------------------------------------------------------

  datatype Alone = Alone(pc: Pc, db: Tables)

  ghost function Solo(setup: Setup, w: nat, a: Alone, events: seq<PollerEvent>): Alone {
    if events == [] then a
    else
      var before := Solo(setup, w, a, events[..|events| - 1]);
      var o := PollerStep(setup, w, before.pc, before.db, events[|events| - 1]);
      Alone(o.pc, o.db)
  }

  lemma SoloStep(setup: Setup, w: nat, a: Alone, events: seq<PollerEvent>, event: PollerEvent)
    ensures var before := Solo(setup, w, a, events);
      var o := PollerStep(setup, w, before.pc, before.db, event);
      Solo(setup, w, a, events + [event]) == Alone(o.pc, o.db)
  {
    assert (events + [event])[..|events + [event]| - 1] == events;
  }

  lemma {:induction false} SoloJoins(setup: Setup, w: nat, a: Alone, first: seq<PollerEvent>, more: seq<PollerEvent>)
    ensures Solo(setup, w, a, first + more) == Solo(setup, w, Solo(setup, w, a, first), more)
    decreases |more|
  {
    if more == [] {
      assert first + more == first;
    } else {
      var n := |more| - 1;
      SoloJoins(setup, w, a, first, more[..n]);
      assert first + more == (first + more[..n]) + [more[n]];
      SoloStep(setup, w, a, first + more[..n], more[n]);
    }
  }

  /** The poller's lease is the row, and lasts beyond now. */
  predicate Current(setup: Setup, w: nat, lease: PollState, db: Tables, now: int) {
    && db.row == Some(lease) && lease.lease.Held? && lease.lease.owner == setup.owner(Poller(w))
    && lease.lease.expiresAt > now
  }

  predicate Marked(markers: seq<Marker>, updateId: nat) {
    exists m :: m in markers && m.updateId == updateId
  }

  predicate QuerySeen(markers: seq<Marker>, query: string) {
    exists m :: m in markers && m.digest == Some(Digest(query))
  }

  lemma MarkedIff(db: Tables, updateId: nat, query: string)
    ensures IsProcessed(db, updateId) <==> Marked(db.markers, updateId)
    ensures DigestSeen(db, Digest(query)) <==> QuerySeen(db.markers, query)
  {
    if m :| m in db.markers && m.updateId == updateId { var i :| 0 <= i < |db.markers| && db.markers[i] == m; }
    if m :| m in db.markers && m.digest == Some(Digest(query)) {
      var i :| 0 <= i < |db.markers| && db.markers[i] == m;
    }
    if i :| 0 <= i < |db.markers| && db.markers[i].updateId == updateId { assert db.markers[i] in db.markers; }
    if i :| 0 <= i < |db.markers| && db.markers[i].digest == Some(Digest(query)) {
      assert db.markers[i] in db.markers;
    }
  }

  /** What is recorded of an update whose handler, if it has one, completes. */
  ghost function VerdictOn(u: Update, allowed: set<(int, int)>, markers: seq<Marker>): Verdict {
    match Classify(u, allowed)
    case AuthorizedCallback(_, _, _, _, query, _) =>
      if QuerySeen(markers, query) then Verdict(CallbackKind, DuplicateCallback, None)
      else Verdict(CallbackKind, Handled, Some(Digest(query)))
    case AuthorizedText(_, _, _, _, _) => Verdict(TextKind, Handled, None)
    case IgnoredUpdate(_, _) => Verdict(IgnoredKind, Ignored, None)
  }

  lemma Renewed(setup: Setup, w: nat, lease: PollState, db: Tables, now: int, next: PollState -> Pc)
    requires Current(setup, w, lease, db, now)
    ensures var o := RenewThen(setup, w, lease, db, now, next);
      exists l :: o.pc == next(l) && o.db == db.(row := Some(l)) && Current(setup, w, l, o.db, now)
                  && l.nextOffset == lease.nextOffset
  {
    var got := RenewLease(db, setup.owner(Poller(w)), lease.epoch, lease.version, now, now + LEASE_SECONDS).1;
    var o := RenewThen(setup, w, lease, db, now, next);
    assert o.pc == next(got.value);
  }

  lemma RecordStep(setup: Setup, w: nat, lease: PollState, job: Job, verdict: Verdict, db: Tables, now: int)
    requires Current(setup, w, lease, db, now) && job.i < |job.batch|
    requires var u := job.batch[job.i]; lease.nextOffset <= u.updateId <= MAX_UPDATE_ID && !IsProcessed(db, u.updateId)
    requires verdict.digest.Some? ==> !DigestSeen(db, verdict.digest.value)
    ensures var o, u := PollerStep(setup, w, ReadyToRecord(lease, job, verdict), db, Record(now)), job.batch[job.i];
      var l := lease.(nextOffset := u.updateId + 1, version := lease.version + 1);
      && o.pc == AtUpdate(l, job.(i := job.i + 1)) && o.db.row == Some(l)
      && o.db.markers == db.markers + [Marker(u.updateId, verdict.kind, verdict.disposition, now, verdict.digest)]
  {
  }

  /** From a verdict to its record. */
  lemma VerdictIsRecorded(
    setup: Setup, w: nat, lease: PollState, job: Job, verdict: Verdict, db: Tables, now: int) returns (l: PollState)
    requires Current(setup, w, lease, db, now) && job.i < |job.batch|
    requires var u := job.batch[job.i]; lease.nextOffset <= u.updateId <= MAX_UPDATE_ID && !IsProcessed(db, u.updateId)
    requires verdict.digest.Some? ==> !DigestSeen(db, verdict.digest.value)
    ensures var done := Solo(setup, w, Alone(VerdictReached(lease, job, verdict), db), [Renew(now), Record(now)]);
      var u := job.batch[job.i];
      && done.pc == AtUpdate(l, job.(i := job.i + 1)) && Current(setup, w, l, done.db, now)
      && l.nextOffset == u.updateId + 1
      && done.db.markers == db.markers + [Marker(u.updateId, verdict.kind, verdict.disposition, now, verdict.digest)]
  {
    var a := Alone(VerdictReached(lease, job, verdict), db);
    var next := l => ReadyToRecord(l, job, verdict);
    Renewed(setup, w, lease, db, now, next);
    SoloStep(setup, w, a, [], Renew(now));
    assert [] + [Renew(now)] == [Renew(now)];
    var ready := Solo(setup, w, a, [Renew(now)]);
    l :| ready.pc == next(l) && ready.db == db.(row := Some(l)) && Current(setup, w, l, ready.db, now)
         && l.nextOffset == lease.nextOffset;
    SoloStep(setup, w, a, [Renew(now)], Record(now));
    assert [Renew(now)] + [Record(now)] == [Renew(now), Record(now)];
    assert IsProcessed(ready.db, job.batch[job.i].updateId) <==> IsProcessed(db, job.batch[job.i].updateId);
    assert verdict.digest.Some? ==> !DigestSeen(ready.db, verdict.digest.value);
    RecordStep(setup, w, l, job, verdict, ready.db, now);
    l := l.(nextOffset := job.batch[job.i].updateId + 1, version := l.version + 1);
  }

  /** From the handler's turn to its verdict, when it completes. */
  lemma HandlerCompletes(
    setup: Setup, w: nat, lease: PollState, job: Job, kind: MarkerKind, unseen: Option<Digest>, db: Tables, now: int)
    returns (l: PollState)
    requires Current(setup, w, lease, db, now) && job.i < |job.batch|
    ensures var done := Solo(setup, w, Alone(HandlerPending(lease, job, kind, unseen), db),
                             [Renew(now), HandlerReturns(true)]);
      && done.pc == VerdictReached(l, job, Verdict(kind, Handled, unseen)) && Current(setup, w, l, done.db, now)
      && l.nextOffset == lease.nextOffset && done.db.markers == db.markers
  {
    var a := Alone(HandlerPending(lease, job, kind, unseen), db);
    var next := l => InHandler(l, job, kind, unseen);
    Renewed(setup, w, lease, db, now, next);
    SoloStep(setup, w, a, [], Renew(now));
    assert [] + [Renew(now)] == [Renew(now)];
    var called := Solo(setup, w, a, [Renew(now)]);
    l :| called.pc == next(l) && called.db == db.(row := Some(l)) && Current(setup, w, l, called.db, now)
         && l.nextOffset == lease.nextOffset;
    SoloStep(setup, w, a, [Renew(now)], HandlerReturns(true));
    assert [Renew(now)] + [HandlerReturns(true)] == [Renew(now), HandlerReturns(true)];
  }

  /** Where an update that is due is sent. */
  ghost function Sent(lease: PollState, job: Job, c: Classified): Pc {
    match c
    case AuthorizedCallback(_, _, _, _, query, _) => DigestPending(lease, job, query)
    case AuthorizedText(_, _, _, _, _) => HandlerPending(lease, job, TextKind, None)
    case IgnoredUpdate(_, _) => VerdictReached(lease, job, Verdict(IgnoredKind, Ignored, None))
  }

  lemma UpdateIsSent(setup: Setup, w: nat, lease: PollState, job: Job, db: Tables, now: int)
    requires Current(setup, w, lease, db, now) && job.i < |job.batch|
    requires var u := job.batch[job.i]; lease.nextOffset <= u.updateId && !IsProcessed(db, u.updateId)
    ensures Solo(setup, w, Alone(AtUpdate(lease, job), db), [ReadCursor(false), CheckProcessed])
         == Alone(Sent(lease, job, Classify(job.batch[job.i], setup.allowed)), db)
  {
    TwoSteps(setup, w, Alone(AtUpdate(lease, job), db), ReadCursor(false), CheckProcessed);
  }

  /** From an update that is due to its verdict. */
  lemma UpdateIsJudged(setup: Setup, w: nat, lease: PollState, job: Job, db: Tables, now: int)
    returns (events: seq<PollerEvent>, l: PollState)
    requires Current(setup, w, lease, db, now) && job.i < |job.batch|
    requires var u := job.batch[job.i]; lease.nextOffset <= u.updateId && !IsProcessed(db, u.updateId)
    ensures var done := Solo(setup, w, Alone(AtUpdate(lease, job), db), events);
      && done.pc == VerdictReached(l, job, VerdictOn(job.batch[job.i], setup.allowed, db.markers))
      && Current(setup, w, l, done.db, now)
      && l.nextOffset == lease.nextOffset && done.db.markers == db.markers
  {
    var a, c := Alone(AtUpdate(lease, job), db), Classify(job.batch[job.i], setup.allowed);
    events, l := [ReadCursor(false), CheckProcessed], lease;
    UpdateIsSent(setup, w, lease, job, db, now);
    if c.AuthorizedCallback? {
      var more;
      more, l := CallbackIsJudged(setup, w, lease, job, c.queryId, db, now);
      SoloJoins(setup, w, a, events, more);
      events := events + more;
    } else if c.AuthorizedText? {
      l := HandlerCompletes(setup, w, lease, job, TextKind, None, db, now);
      SoloJoins(setup, w, a, events, [Renew(now), HandlerReturns(true)]);
      events := events + [Renew(now), HandlerReturns(true)];
    }
  }

  lemma CallbackIsJudged(setup: Setup, w: nat, lease: PollState, job: Job, query: string, db: Tables, now: int)
    returns (events: seq<PollerEvent>, l: PollState)
    requires Current(setup, w, lease, db, now) && job.i < |job.batch|
    ensures var done := Solo(setup, w, Alone(DigestPending(lease, job, query), db), events);
      && done.pc == VerdictReached(l, job, if QuerySeen(db.markers, query)
                                           then Verdict(CallbackKind, DuplicateCallback, None)
                                           else Verdict(CallbackKind, Handled, Some(Digest(query))))
      && Current(setup, w, l, done.db, now) && l.nextOffset == lease.nextOffset && done.db.markers == db.markers
  {
    var a := Alone(DigestPending(lease, job, query), db);
    MarkedIff(db, 0, query);
    SoloStep(setup, w, a, [], CheckDigest);
    events, l := [] + [CheckDigest], lease;
    if !QuerySeen(db.markers, query) {
      l := HandlerCompletes(setup, w, lease, job, CallbackKind, Some(Digest(query)), db, now);
      SoloJoins(setup, w, a, events, [Renew(now), HandlerReturns(true)]);
      events := events + [Renew(now), HandlerReturns(true)];
    }
  }

  lemma TwoSteps(setup: Setup, w: nat, a: Alone, first: PollerEvent, second: PollerEvent)
    ensures var o := PollerStep(setup, w, a.pc, a.db, first);
      var p := PollerStep(setup, w, o.pc, o.db, second);
      Solo(setup, w, a, [first, second]) == Alone(p.pc, p.db)
  {
    SoloStep(setup, w, a, [], first);
    assert [] + [first] == [first];
    SoloStep(setup, w, a, [first], second);
    assert [first] + [second] == [first, second];
  }

  /** An update that is due, left to one poller with a completing handler, is recorded under its verdict and the cursor
   moves just past it. */
  lemma UpdateIsRecorded(setup: Setup, w: nat, lease: PollState, job: Job, db: Tables, now: int)
    returns (events: seq<PollerEvent>, l: PollState)
    requires Current(setup, w, lease, db, now) && job.i < |job.batch|
    requires var u := job.batch[job.i];
      lease.nextOffset <= u.updateId <= 0x7FFF_FFFF_FFFF_FFFE && !Marked(db.markers, u.updateId)
    ensures var done := Solo(setup, w, Alone(AtUpdate(lease, job), db), events);
      var u, v := job.batch[job.i], VerdictOn(job.batch[job.i], setup.allowed, db.markers);
      && done.pc == AtUpdate(l, job.(i := job.i + 1)) && Current(setup, w, l, done.db, now)
      && l.nextOffset == u.updateId + 1
      && done.db.markers == db.markers + [Marker(u.updateId, v.kind, v.disposition, now, v.digest)]
  {
    var a, u, v := Alone(AtUpdate(lease, job), db), job.batch[job.i],
                   VerdictOn(job.batch[job.i], setup.allowed, db.markers);
    MarkedIff(db, u.updateId, "");
    events, l := UpdateIsJudged(setup, w, lease, job, db, now);
    var judged := Solo(setup, w, a, events);
    MarkedIff(judged.db, u.updateId, if v.digest.Some? then v.digest.value.callbackQueryId else "");
    SoloJoins(setup, w, a, events, [Renew(now), Record(now)]);
    l := VerdictIsRecorded(setup, w, l, job, v, judged.db, now);
    events := events + [Renew(now), Record(now)];
  }

  /** An update below the cursor, or already recorded, is passed over without a write. */
  lemma UpdateIsPassed(setup: Setup, w: nat, lease: PollState, job: Job, db: Tables, now: int)
    returns (events: seq<PollerEvent>)
    requires Current(setup, w, lease, db, now) && job.i < |job.batch|
    requires job.batch[job.i].updateId < lease.nextOffset || Marked(db.markers, job.batch[job.i].updateId)
    ensures Solo(setup, w, Alone(AtUpdate(lease, job), db), events)
         == Alone(AtUpdate(lease, job.(i := job.i + 1)), db)
  {
    var a, u := Alone(AtUpdate(lease, job), db), job.batch[job.i];
    MarkedIff(db, u.updateId, "");
    if u.updateId < lease.nextOffset {
      SoloStep(setup, w, a, [], ReadCursor(false));
      events := [] + [ReadCursor(false)];
    } else {
      TwoSteps(setup, w, a, ReadCursor(false), CheckProcessed);
      events := [ReadCursor(false), CheckProcessed];
    }
  }

  /** Everything of the batch from `i` on is below the cursor or recorded. */
  predicate Settled(batch: seq<Update>, i: nat, offset: nat, markers: seq<Marker>) {
    forall k | i <= k < |batch| :: batch[k].updateId < offset || Marked(markers, batch[k].updateId)
  }

  /** A poller left alone with a batch gets through it: in the end every update of it is below the cursor it started
   from or has a marker, no marker is lost, and the lease is still its own. */
  lemma {:induction false} BatchIsSettled(setup: Setup, w: nat, lease: PollState, job: Job, db: Tables, now: int)
    returns (events: seq<PollerEvent>, l: PollState)
    requires Current(setup, w, lease, db, now) && job.i <= |job.batch| && StrictlyOrdered(job.batch)
    requires forall u | u in job.batch :: u.updateId <= 0x7FFF_FFFF_FFFF_FFFE
    ensures var done := Solo(setup, w, Alone(AtUpdate(lease, job), db), events);
      && done.pc == AtUpdate(l, job.(i := |job.batch|)) && Current(setup, w, l, done.db, now)
      && db.markers <= done.db.markers && Settled(job.batch, job.i, lease.nextOffset, done.db.markers)
    decreases |job.batch| - job.i
  {
    var a, next := Alone(AtUpdate(lease, job), db), job.(i := job.i + 1);
    if job.i == |job.batch| {
      events, l := [], lease;
    } else {
      var u := job.batch[job.i];
      var rest;
      if u.updateId < lease.nextOffset || Marked(db.markers, u.updateId) {
        events := UpdateIsPassed(setup, w, lease, job, db, now);
        rest, l := BatchIsSettled(setup, w, lease, next, db, now);
        StaysMarked(db.markers, Solo(setup, w, Alone(AtUpdate(lease, next), db), rest).db.markers, u.updateId);
      } else {
        var moved;
        events, moved := UpdateIsRecorded(setup, w, lease, job, db, now);
        var done := Solo(setup, w, a, events).db;
        rest, l := BatchIsSettled(setup, w, moved, next, done, now);
        assert done.markers[|db.markers|] in done.markers && Marked(done.markers, u.updateId);
        StaysMarked(done.markers, Solo(setup, w, Alone(AtUpdate(moved, next), done), rest).db.markers, u.updateId);
        // A cursor that moved past this update is still at or below the next ones.
        assert forall k | job.i < k < |job.batch| :: job.batch[k].updateId >= moved.nextOffset;
      }
      SoloJoins(setup, w, a, events, rest);
      events := events + rest;
    }
  }

  lemma StaysMarked(before: seq<Marker>, after: seq<Marker>, updateId: nat)
    requires before <= after
    ensures Marked(before, updateId) ==> Marked(after, updateId)
  {
    if m :| m in before && m.updateId == updateId {
      var i :| 0 <= i < |before| && before[i] == m;
      assert after[i] == m;
    }
  }

  /** A poll's answer is used if and only if it has at most a hundred records with ids in range, put in order without
   repeats; the cursor of the poll is the batch's origin. */
  lemma FetchIsUsedIff(setup: Setup, w: nat, lease: PollState, db: Tables, received: seq<Update>, batch: seq<Update>)
    ensures var o := PollerStep(setup, w, Fetching(lease), db, FetchReturns(received, batch));
      && o.db == db && o.writes == [] && o.calls == []
      && (o.pc == Fetched(lease, Job(lease.nextOffset, batch, 0)) <==>
            && |received| <= 100 && (forall u | u in received :: u.updateId <= 0x7FFF_FFFF_FFFF_FFFE)
            && (forall i, j | 0 <= i < j < |batch| :: batch[i].updateId < batch[j].updateId)
            && (forall u :: u in received <==> u in batch))
  {
  }
}
