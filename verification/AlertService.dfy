/** The alert service as the source has it: one mutable checkpoint in front of a journal. */
module AlertService {
  import opened Common
  import opened Alerts

  class Journal {
    var stored: Option<Checkpoint>

    constructor ()
      ensures stored.None?
    {
      stored := None;
    }

    /** True after a durable commit, False on a stale version, None when the adapter raises. */
    method Commit(candidate: Checkpoint, expected: nat, fate: CommitFate) returns (accepted: Option<bool>)
      modifies this
      ensures accepted == if !fate.Returns? then None else Some(JournalVersion(old(stored)) == expected)
      ensures stored == if fate.RaisesDurable? || accepted == Some(true) then Some(candidate) else old(stored)
    {
      match fate {
        case RaisesLost => return None;
        case RaisesDurable =>
          stored := Some(candidate);
          return None;
        case Returns =>
          if JournalVersion(stored) != expected {
            return Some(false);
          }
          stored := Some(candidate);
          return Some(true);
      }
    }
  }

  class Service {
    const journal: Journal
    var checkpoint: Checkpoint
    var poisoned: bool
    var sent: seq<Sent>

    /** Starts only when the journal is empty or holds a checkpoint this configuration accepts. */
    constructor (journal: Journal, policy: Policy, channels: seq<Channel>)
      requires Restart(World(journal.stored, None, []), policy, channels).service.Some?
      ensures this.journal == journal
      ensures View() == Restart(World(journal.stored, None, []), policy, channels)
    {
      this.journal := journal;
      checkpoint := if journal.stored.Some? then journal.stored.value else Checkpoint(0, policy, channels, [], []);
      poisoned := false;
      sent := [];
    }

    function View(): World
      reads this, journal
    {
      World(journal.stored, Some(Alerts.Service(checkpoint, poisoned)), sent)
    }

    method Commit(candidate: Checkpoint, fate: CommitFate) returns (ok: bool)
      requires !poisoned
      modifies this`checkpoint, this`poisoned, journal
      ensures (View(), ok) == CommitTo(old(View()), candidate, fate)
    {
      var accepted := journal.Commit(candidate, checkpoint.version, fate);
      if accepted != Some(true) {
        poisoned := true;
        return false;
      }
      checkpoint := candidate;
      return true;
    }

    method Handle(event: Event, now: int, fate: CommitFate) returns (r: Result<Incident, AlertError>)
      modifies this`checkpoint, this`poisoned, journal
      ensures (View(), r) == HandleIn(old(View()), event, now, fate)
    {
      if poisoned {
        return Err(ReloadRequired);
      }
      var plan := HandlePlan(checkpoint, event, now);
      match plan {
        case Refuse(error) => return Err(error);
        case Keep(item) => return Ok(item);
        case Propose(next, item) =>
          var ok := Commit(next, fate);
          return if ok then Ok(item) else Err(JournalFailed);
      }
    }

    method Acknowledge(request: AckRequest, authorized: bool, now: int, fate: CommitFate)
      returns (r: Result<Incident, AlertError>)
      modifies this`checkpoint, this`poisoned, journal
      ensures (View(), r) == AcknowledgeIn(old(View()), request, authorized, now, fate)
    {
      if poisoned {
        return Err(ReloadRequired);
      }
      var plan := AcknowledgePlan(checkpoint, request, authorized, now);
      match plan {
        case Refuse(error) => return Err(error);
        case Keep(item) => return Ok(item);
        case Propose(next, item) =>
          var ok := Commit(next, fate);
          return if ok then Ok(item) else Err(JournalFailed);
      }
    }

    /** Scans for due deliveries, stopping at the batch size. */
    method SelectDue(now: int, batch: nat) returns (due: seq<Delivery>)
      ensures due == Take(DueOf(checkpoint.deliveries, now), batch)
    {
      var all := checkpoint.deliveries;
      due := [];
      for i := 0 to |all|
        invariant DueOf(all, now) == due + DueOf(all[i..], now)
      {
        assert all[i..][1..] == all[i+1..];
        if Due(all[i], now) {
          due := due + [all[i]];
        }
      }
      assert all[|all|..] == [];
      due := Take(due, batch);
    }

    /** Attempt, send and receipt for one delivery: continue, or stop poisoned. */
    method DeliverOne(d: Delivery, fate: Fate, now: int) returns (ok: bool)
      requires !poisoned && (fate.send.ReceiptAccepted? || fate.send.ReceiptRefused?)
      modifies this`checkpoint, this`poisoned, this`sent, journal
      ensures ok <==> !poisoned
      ensures forall due, fates | |due| > 0 && |fates| > 0 && due[0] == d && fates[0] == fate ::
        DispatchFrom(old(View()), due, fates, now)
        == if ok then DispatchFrom(View(), due[1..], fates[1..], now) else View()
    {
      var attempted := Attempted(checkpoint.policy, d, now);
      ok := Commit(Replace(checkpoint, d, attempted), fate.attempt);
      if !ok {
        return;
      }
      sent := sent + [Sent(d.notice, now, d.attempts)];
      if fate.send.ReceiptAccepted? {
        ok := Commit(Replace(checkpoint, attempted, attempted.(delivered := true)), fate.receipt);
      }
    }

    /** The delivery loop, for a process that does not crash; `fates` is what the ports answer. */
    method Deliver(due: seq<Delivery>, fates: seq<Fate>, now: int) returns (accepted: nat)
      requires !poisoned && |due| <= |fates|
      requires forall k | 0 <= k < |fates| :: fates[k].send.ReceiptAccepted? || fates[k].send.ReceiptRefused?
      modifies this`checkpoint, this`poisoned, this`sent, journal
      ensures View() == DispatchFrom(old(View()), due, fates, now)
      ensures !poisoned ==> accepted == AcceptedIn(fates[..|due|])
    {
      accepted := 0;
      var k := 0;
      while k < |due|
        invariant 0 <= k <= |due| && !poisoned && accepted == AcceptedIn(fates[..k])
        invariant DispatchFrom(old(View()), due, fates, now) == DispatchFrom(View(), due[k..], fates[k..], now)
      {
        assert due[k..][1..] == due[k+1..] && fates[k..][1..] == fates[k+1..];
        assert due[k..][0] == due[k] && fates[k..][0] == fates[k];
        var ok := DeliverOne(due[k], fates[k], now);
        if !ok {
          return;
        }
        if fates[k].send.ReceiptAccepted? {
          accepted := accepted + 1;
        }
        assert fates[..k+1][..k] == fates[..k];
        k := k + 1;
      }
      assert due[|due|..] == [];
    }

    method DispatchDue(batch: nat, fates: seq<Fate>, now: int) returns (accepted: nat)
      requires forall k | 0 <= k < |fates| :: fates[k].send.ReceiptAccepted? || fates[k].send.ReceiptRefused?
      requires |fates| >= |checkpoint.deliveries|
      modifies this`checkpoint, this`poisoned, this`sent, journal
      ensures View() == DispatchIn(old(View()), batch, fates, now)
    {
      accepted := 0;
      if poisoned || batch < 1 || batch > 100 {
        return;
      }
      var due := SelectDue(now, batch);
      DueAreFew(checkpoint.deliveries, now);
      accepted := Deliver(due, fates, now);
    }
  }

  function AcceptedIn(fates: seq<Fate>): nat {
    if fates == [] then 0
    else AcceptedIn(fates[..|fates|-1]) + if fates[|fates|-1].send.ReceiptAccepted? then 1 else 0
  }

  datatype StartError = IndependentChannelRequired | JournalUnavailable | ConfigurationMismatch

  /** Starting a process: the routes, then the journal, then its configuration are checked. */
  method StartService(journal: Journal, policy: Policy, channels: seq<Channel>) returns (r: Result<Service, StartError>)
    ensures r.Ok? ==> fresh(r.value) && r.value.journal == journal
    ensures r.Ok? ==> r.value.View() == Restart(World(journal.stored, None, []), policy, channels)
    ensures r.Ok? <==>
      Independent in channels && Restart(World(journal.stored, None, []), policy, channels).service.Some?
    ensures r == Err(IndependentChannelRequired) <==> Independent !in channels
    ensures r == Err(JournalUnavailable) <==>
      && Independent in channels && journal.stored.Some?
      && !(Integrity(journal.stored.value) && CountersOk(journal.stored.value))
  {
    if Independent !in channels { return Err(IndependentChannelRequired); }
    if journal.stored.Some? {
      var stored := journal.stored.value;
      var sound := CheckIntegrity(stored);
      if !sound || !CountersOk(stored) { return Err(JournalUnavailable); }
      if stored.policy != policy || stored.channels != channels { return Err(ConfigurationMismatch); }
    }
    var service := new Service(journal, policy, channels);
    return Ok(service);
  }

  lemma {:induction false} DueAreFew(deliveries: seq<Delivery>, now: int)
    ensures |DueOf(deliveries, now)| <= |deliveries|
  {
    if deliveries != [] {
      DueAreFew(deliveries[1..], now);
    }
  }

  method CheckIncidents(incidents: seq<Incident>) returns (ok: bool)
    ensures ok <==> forall k | 0 <= k < |incidents| :: IncidentOk(incidents[k])
  {
    for i := 0 to |incidents|
      invariant forall k | 0 <= k < i :: IncidentOk(incidents[k])
    {
      if !IncidentOk(incidents[i]) {
        return false;
      }
    }
    return true;
  }

  /** The pass over deliveries, with its set of seen references. */
  method CheckDeliveries(cp: Checkpoint) returns (ok: bool, seen: set<NoticeRef>)
    ensures ok <==> DistinctNotices(cp.deliveries)
                    && forall k | 0 <= k < |cp.deliveries| :: DeliveryOk(cp.channels, cp.incidents, cp.deliveries[k])
    ensures ok ==> forall ref :: ref in seen <==> Announced(cp.deliveries, ref)
  {
    seen := {};
    for i := 0 to |cp.deliveries|
      invariant forall ref :: ref in seen <==> Announced(cp.deliveries[..i], ref)
      invariant DistinctNotices(cp.deliveries[..i])
      invariant forall k | 0 <= k < i :: DeliveryOk(cp.channels, cp.incidents, cp.deliveries[k])
    {
      var ref := cp.deliveries[i].notice.ref;
      if ref in seen {
        assert Announced(cp.deliveries[..i], ref);
        ghost var k :| 0 <= k < i && cp.deliveries[..i][k].notice.ref == ref;
        assert cp.deliveries[k].notice.ref == cp.deliveries[i].notice.ref;
        return false, seen;
      }
      if !DeliveryOk(cp.channels, cp.incidents, cp.deliveries[i]) {
        return false, seen;
      }
      AnnouncedPrefix(cp.deliveries, i);
      assert cp.deliveries[..i+1] == cp.deliveries[..i] + [cp.deliveries[i]];
      forall k | 0 <= k < i ensures cp.deliveries[k].notice.ref != ref {
        assert cp.deliveries[..i][k].notice.ref != ref;
      }
      seen := seen + {ref};
    }
    assert cp.deliveries[..|cp.deliveries|] == cp.deliveries;
    return true, seen;
  }

  method CheckCurrent(cp: Checkpoint, seen: set<NoticeRef>) returns (ok: bool)
    requires forall ref :: ref in seen <==> Announced(cp.deliveries, ref)
    ensures ok <==> forall k | 0 <= k < |cp.incidents| :: CurrentAnnounced(cp.channels, cp.deliveries, cp.incidents[k])
  {
    for i := 0 to |cp.incidents|
      invariant forall k | 0 <= k < i :: CurrentAnnounced(cp.channels, cp.deliveries, cp.incidents[k])
    {
      for c := 0 to |cp.channels|
        invariant forall k | 0 <= k < c ::
          Announced(cp.deliveries, NoticeRef(cp.incidents[i].ref, cp.incidents[i].revision, cp.channels[k]))
      {
        if NoticeRef(cp.incidents[i].ref, cp.incidents[i].revision, cp.channels[c]) !in seen {
          assert !CurrentAnnounced(cp.channels, cp.deliveries, cp.incidents[i]);
          return false;
        }
      }
    }
    return true;
  }

  /** The validator: the passes over incidents, deliveries and current notices, and the capacity bounds. */
  method CheckIntegrity(cp: Checkpoint) returns (ok: bool)
    ensures ok <==> Integrity(cp)
  {
    if !RoutesOk(cp.channels) || !DistinctIncidents(cp.incidents) {
      return false;
    }
    var incidentsOk := CheckIncidents(cp.incidents);
    if !incidentsOk {
      return false;
    }
    var deliveriesOk, seen := CheckDeliveries(cp);
    if !deliveriesOk {
      return false;
    }
    var currentOk := CheckCurrent(cp, seen);
    ok := currentOk && |cp.incidents| <= cp.policy.capacity && |cp.deliveries| <= cp.policy.capacity;
  }

  lemma AnnouncedPrefix(deliveries: seq<Delivery>, i: nat)
    requires i < |deliveries|
    ensures forall ref :: Announced(deliveries[..i+1], ref) <==>
      Announced(deliveries[..i], ref) || ref == deliveries[i].notice.ref
  {
    forall ref
      ensures Announced(deliveries[..i+1], ref) <==>
        Announced(deliveries[..i], ref) || ref == deliveries[i].notice.ref
    {
      if Announced(deliveries[..i], ref) {
        var k :| 0 <= k < i && deliveries[..i][k].notice.ref == ref;
        assert deliveries[..i+1][k].notice.ref == ref;
      }
      if ref == deliveries[i].notice.ref {
        assert deliveries[..i+1][i].notice.ref == ref;
      }
      if Announced(deliveries[..i+1], ref) {
        var k :| 0 <= k < i + 1 && deliveries[..i+1][k].notice.ref == ref;
        if k < i {
          assert deliveries[..i][k].notice.ref == ref;
        }
      }
    }
  }
}
