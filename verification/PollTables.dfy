/**
 The two tables behind Telegram polling: the fenced poll-state row of one environment and
 its terminal-update markers.  Each repository operation is one transaction, given first as
 a function on the tables and then as the method of the repository that updates them.
 */
module PollTables {
  import opened Common

  /** Lease owner and expiry are set and cleared together. */
  datatype Lease = Free | Held(owner: string, expiresAt: int)

  datatype PollState = PollState(nextOffset: nat, lease: Lease, epoch: nat, version: nat)

  /** SHA-256 of the callback query id, treated as injective. */
  datatype Digest = Digest(callbackQueryId: string)

  datatype MarkerKind = CallbackKind | TextKind | IgnoredKind
  datatype Disposition = Handled | Ignored | DuplicateCallback

  datatype Marker = Marker(
    updateId: nat, kind: MarkerKind, disposition: Disposition, processedAt: int, digest: Option<Digest>)

  datatype Tables = Tables(row: Option<PollState>, markers: seq<Marker>)

  const EMPTY_TABLES := Tables(None, [])

  const MAX_UPDATE_ID := 0x7FFF_FFFF_FFFF_FFFE

  /** Stale: the fence did not match.  Conflict: a unique or check constraint rolled back. */
  datatype RecordResult = Stale | Conflict | Recorded(state: PollState)

  predicate IsProcessed(t: Tables, updateId: nat) {
    exists i | 0 <= i < |t.markers| :: t.markers[i].updateId == updateId
  }

  predicate DigestSeen(t: Tables, digest: Digest) {
    exists i | 0 <= i < |t.markers| :: t.markers[i].digest == Some(digest)
  }

  function EnsureState(t: Tables): PollState {
    match t.row
    case Some(row) => row
    case None => PollState(0, Free, 0, 1)
  }

  predicate Live(lease: Lease, now: int) {
    lease.Held? && lease.expiresAt > now
  }

  /** A free lease, or one whose expiry has passed on the caller's clock. */
  predicate Takeable(lease: Lease, now: int) {
    lease.Free? || lease.expiresAt <= now
  }

  predicate Fenced(t: Tables, owner: string, epoch: nat, version: nat) {
    && t.row.Some?
    && t.row.value.lease.Held?
    && t.row.value.lease.owner == owner
    && t.row.value.epoch == epoch
    && t.row.value.version == version
  }

  function AcquireLease(t: Tables, owner: string, now: int, expiresAt: int): (Tables, Option<PollState>) {
    var row := EnsureState(t);
    if Takeable(row.lease, now) then
      var taken := row.(lease := Held(owner, expiresAt), epoch := row.epoch + 1, version := row.version + 1);
      (t.(row := Some(taken)), Some(taken))
    else
      (t.(row := Some(row)), None)
  }

  function RenewLease(t: Tables, owner: string, epoch: nat, version: nat, now: int, expiresAt: int)
    : (Tables, Option<PollState>)
  {
    if Fenced(t, owner, epoch, version) && Live(t.row.value.lease, now) then
      var row := t.row.value;
      var renewed := row.(lease := Held(owner, expiresAt), version := row.version + 1);
      (t.(row := Some(renewed)), Some(renewed))
    else
      (t, None)
  }

  function ReleaseLease(t: Tables, owner: string, epoch: nat, version: nat): (Tables, bool) {
    if Fenced(t, owner, epoch, version) then
      var row := t.row.value;
      (t.(row := Some(row.(lease := Free, version := row.version + 1))), true)
    else
      (t, false)
  }

  function RecordTerminal(t: Tables, owner: string, epoch: nat, version: nat, now: int, marker: Marker)
    : (Tables, RecordResult)
  {
    if !(Fenced(t, owner, epoch, version) && Live(t.row.value.lease, now)) then
      (t, Stale)
    else if IsProcessed(t, marker.updateId) || marker.updateId > MAX_UPDATE_ID
         || (marker.digest.Some? && DigestSeen(t, marker.digest.value)) then
      (t, Conflict)
    else
      var row := t.row.value;
      var cursor := if row.nextOffset < marker.updateId + 1 then marker.updateId + 1 else row.nextOffset;
      var advanced := row.(nextOffset := cursor, version := row.version + 1);
      (Tables(Some(advanced), t.markers + [marker]), Recorded(advanced))
  }

  /** The repository as the source has it: conditional row updates and an insert, in place. */
  class TelegramUpdateRepository {
    var row: Option<PollState>
    var markers: seq<Marker>

    constructor ()
      ensures View() == EMPTY_TABLES
    {
      row, markers := None, [];
    }

    function View(): Tables
      reads this
    {
      Tables(row, markers)
    }

    method Ensure() returns (state: PollState)
      modifies this`row
      ensures state == EnsureState(old(View())) && row == Some(state)
    {
      if row.None? {
        row := Some(PollState(0, Free, 0, 1));
      }
      state := row.value;
    }

    method Acquire(owner: string, now: int, expiresAt: int) returns (state: Option<PollState>)
      modifies this`row
      ensures (View(), state) == AcquireLease(old(View()), owner, now, expiresAt)
    {
      var seen := Ensure();
      if row.value.version == seen.version && Takeable(row.value.lease, now) {
        row := Some(row.value.(lease := Held(owner, expiresAt),
                               epoch := row.value.epoch + 1,
                               version := row.value.version + 1));
        state := row;
      } else {
        state := None;
      }
    }

    method Renew(owner: string, epoch: nat, version: nat, now: int, expiresAt: int)
      returns (state: Option<PollState>)
      modifies this`row
      ensures (View(), state) == RenewLease(old(View()), owner, epoch, version, now, expiresAt)
    {
      state := None;
      if Fenced(View(), owner, epoch, version) && row.value.lease.expiresAt > now {
        row := Some(row.value.(lease := Held(owner, expiresAt), version := row.value.version + 1));
        state := row;
      }
    }

    method Release(owner: string, epoch: nat, version: nat) returns (released: bool)
      modifies this`row
      ensures (View(), released) == ReleaseLease(old(View()), owner, epoch, version)
    {
      released := Fenced(View(), owner, epoch, version);
      if released {
        row := Some(row.value.(lease := Free, version := row.value.version + 1));
      }
    }

    method Record(owner: string, epoch: nat, version: nat, now: int, marker: Marker)
      returns (result: RecordResult)
      modifies this
      ensures (View(), result) == RecordTerminal(old(View()), owner, epoch, version, now, marker)
    {
      if !Fenced(View(), owner, epoch, version) || row.value.lease.expiresAt <= now {
        return Stale;
      }
      var before := row;
      if row.value.nextOffset < marker.updateId + 1 {
        row := Some(row.value.(nextOffset := marker.updateId + 1));
      }
      row := Some(row.value.(version := row.value.version + 1));
      var conflict := marker.updateId > MAX_UPDATE_ID;
      for i := 0 to |markers|
        invariant conflict <==>
          (marker.updateId > MAX_UPDATE_ID
           || exists k | 0 <= k < i ::
                || markers[k].updateId == marker.updateId
                || (marker.digest.Some? && markers[k].digest == marker.digest))
      {
        if markers[i].updateId == marker.updateId
           || (marker.digest.Some? && markers[i].digest == marker.digest) {
          conflict := true;
        }
      }
      if conflict {
        row := before;
        return Conflict;
      }
      markers := markers + [marker];
      result := Recorded(row.value);
    }
  }
}
