/** Checkpoint integrity and send ordering over every run with failures, crashes and restarts. */
module AlertTheorems {
  import opened Common
  import opened Alerts

  // ---- Checkpoints ------------------------------------------------------------------------

  /** Every revision an incident went through was announced on the mandatory channel. */
  ghost predicate HistoryKept(deliveries: seq<Delivery>, item: Incident) {
    forall r {:trigger NoticeRef(item.ref, r, Independent)} | 1 <= r <= item.revision ::
      Announced(deliveries, NoticeRef(item.ref, r, Independent))
  }

  ghost predicate IncidentHistory(cp: Checkpoint, i: nat)
    requires i < |cp.incidents|
  {
    && cp.incidents[i].revision >= 1 && cp.incidents[i].lastEvent.Valid()
    && HistoryKept(cp.deliveries, cp.incidents[i])
  }

  predicate DeliveryCounters(cp: Checkpoint, i: nat)
    requires i < |cp.deliveries|
  {
    1 <= cp.deliveries[i].notice.revision && cp.deliveries[i].attempts <= cp.version
  }

  ghost predicate Ledger(cp: Checkpoint) {
    && (forall i {:trigger IncidentHistory(cp, i)} | 0 <= i < |cp.incidents| :: IncidentHistory(cp, i))
    && (forall i {:trigger DeliveryCounters(cp, i)} | 0 <= i < |cp.deliveries| :: DeliveryCounters(cp, i))
  }

  ghost predicate Good(config: Config, cp: Checkpoint) {
    Integrity(cp) && Ledger(cp) && cp.policy == config.policy && cp.channels == config.channels
  }

  lemma {:induction false} WithoutFacts(incidents: seq<Incident>, ref: IncidentRef)
    ensures forall item :: item in Without(incidents, ref) <==> item in incidents && item.ref != ref
    ensures |Without(incidents, ref)| <= |incidents|
    ensures DistinctIncidents(incidents) ==> DistinctIncidents(Without(incidents, ref))
  {
    if incidents != [] {
      WithoutFacts(incidents[1..], ref);
      var rest := Without(incidents[1..], ref);
      var all := Without(incidents, ref);
      assert forall item :: item in incidents <==> item == incidents[0] || item in incidents[1..];
      if DistinctIncidents(incidents) {
        assert DistinctIncidents(incidents[1..]);
        forall i, j | 0 <= i < j < |all| ensures all[i].ref != all[j].ref {
          if incidents[0].ref == ref {
            assert all == rest;
          } else {
            assert all[j] == rest[j-1];
            assert rest[j-1] in rest;
            if i == 0 {
              assert rest[j-1] in incidents[1..];
            } else {
              assert all[i] == rest[i-1];
            }
          }
        }
      }
    }
  }

  lemma FindIsTheIncident(incidents: seq<Incident>, item: Incident)
    requires DistinctIncidents(incidents) && item in incidents
    ensures Find(incidents, item.ref) == Some(item)
  {
    var found := Find(incidents, item.ref);
    var i :| 0 <= i < |incidents| && incidents[i] == item;
    var j :| 0 <= j < |incidents| && incidents[j] == found.value;
  }

  lemma AnnouncedGrows(before: seq<Delivery>, after: seq<Delivery>, ref: NoticeRef)
    requires |before| <= |after| && forall i | 0 <= i < |before| :: after[i].notice == before[i].notice
    requires Announced(before, ref)
    ensures Announced(after, ref)
  {
    var i :| 0 <= i < |before| && before[i].notice.ref == ref;
    assert after[i].notice.ref == ref;
  }

  /** The incident an event leads to, against the one it replaces. */
  lemma NextIncidentFacts(config: Config, cp: Checkpoint, event: Event)
    requires Good(config, cp) && event.Valid()
    ensures var previous := Find(cp.incidents, event.Ref());
      var item := NextIncident(cp.policy, previous, event);
      && item.ref == event.Ref() && item.lastEvent == event && item.revision >= 1 && IncidentOk(item)
      && (previous.Some? ==>
            && IncidentOk(previous.value)
            && item.revision == previous.value.revision + if previous.value.state == item.state then 0 else 1)
  {
    var previous := Find(cp.incidents, event.Ref());
    if previous.Some? {
      var k :| 0 <= k < |cp.incidents| && cp.incidents[k] == previous.value;
      assert IncidentOk(cp.incidents[k]) && IncidentHistory(cp, k);
    }
  }

  /** Old deliveries keep their place; a change of state settles them and appends one per channel. */
  lemma ReducedDeliveries(cp: Checkpoint, event: Event, now: int)
    ensures var next := Reduced(cp, event, now);
      var previous := Find(cp.incidents, event.Ref());
      var item := NextIncident(cp.policy, previous, event);
      var changed := previous.None? || previous.value.state != item.state;
      && |next.deliveries| == |cp.deliveries| + (if changed then |cp.channels| else 0)
      && (!changed ==> next.deliveries == cp.deliveries)
      && (forall i | 0 <= i < |cp.deliveries| ::
            && DeliveryMoves(cp.deliveries[i], next.deliveries[i])
            && (changed && cp.deliveries[i].notice.incident == item.ref ==>
                  next.deliveries[i].delivered || next.deliveries[i].superseded))
      && (forall c | changed && 0 <= c < |cp.channels| ::
            next.deliveries[|cp.deliveries| + c] ==
              Delivery(NoticeFor(item, if previous.Some? then Some(previous.value.state) else None, cp.channels[c]),
                       0, now, false, false))
  {
  }

  /** Notices never change, counters and due times only rise, flags only become set. */
  predicate DeliveryMoves(a: Delivery, b: Delivery) {
    && a.notice == b.notice && a.attempts <= b.attempts && a.dueAt <= b.dueAt
    && (a.delivered ==> b.delivered) && (a.superseded ==> b.superseded)
  }

  lemma ReducedNoticesDistinct(config: Config, cp: Checkpoint, event: Event, now: int)
    requires config.Valid() && Good(config, cp) && event.Valid()
    ensures DistinctNotices(Reduced(cp, event, now).deliveries)
  {
    NextIncidentFacts(config, cp, event);
    ReducedDeliveries(cp, event, now);
    var next := Reduced(cp, event, now);
    var previous := Find(cp.incidents, event.Ref());
    var item := NextIncident(cp.policy, previous, event);
    forall i, j | 0 <= i < j < |next.deliveries|
      ensures next.deliveries[i].notice.ref != next.deliveries[j].notice.ref {
      assert i < |cp.deliveries| ==> DeliveryMoves(cp.deliveries[i], next.deliveries[i]);
      assert j < |cp.deliveries| ==> DeliveryMoves(cp.deliveries[j], next.deliveries[j]);
      if i < |cp.deliveries| <= j {
        OldNoticesAreOlder(config, cp, i, item.ref);
      }
    }
  }

  /** A stored notice of an incident carries at most the incident's revision. */
  lemma OldNoticesAreOlder(config: Config, cp: Checkpoint, i: nat, ref: IncidentRef)
    requires Good(config, cp) && i < |cp.deliveries|
    ensures var n := cp.deliveries[i].notice;
      && n.ref == NoticeRef(n.incident, n.revision, n.channel)
      && (n.incident == ref ==> Find(cp.incidents, ref).Some? && n.revision <= Find(cp.incidents, ref).value.revision)
  {
    var n := cp.deliveries[i].notice;
    assert DeliveryOk(cp.channels, cp.incidents, cp.deliveries[i]);
    var k :| 0 <= k < |cp.incidents| && DeliveryFits(cp.channels, cp.deliveries[i], cp.incidents[k]);
    if n.incident == ref {
      FindIsTheIncident(cp.incidents, cp.incidents[k]);
    }
  }

  lemma FitsSuccessor(channels: seq<Channel>, d: Delivery, d': Delivery, before: Incident, after: Incident)
    requires DeliveryFits(channels, d, before) && DeliveryMoves(d, d')
    requires IncidentOk(before) && IncidentOk(after) && before.ref == after.ref
    requires before.revision <= after.revision
    requires before.revision == after.revision ==> before.state == after.state
    requires before.revision < after.revision ==> d'.delivered || d'.superseded
    ensures DeliveryFits(channels, d', after)
  {
  }

  lemma ReducedOldDeliveryFits(config: Config, cp: Checkpoint, event: Event, now: int, i: nat)
    requires config.Valid() && Good(config, cp) && event.Valid()
    requires i < |cp.deliveries|
    ensures var next := Reduced(cp, event, now);
      i < |next.deliveries| && DeliveryOk(next.channels, next.incidents, next.deliveries[i])
  {
    ReducedDeliveries(cp, event, now);
    var next := Reduced(cp, event, now);
    var last := |next.incidents| - 1;
    var item := next.incidents[last];
    assert DeliveryMoves(cp.deliveries[i], next.deliveries[i]);
    assert DeliveryOk(cp.channels, cp.incidents, cp.deliveries[i]);
    var k :| 0 <= k < |cp.incidents| && DeliveryFits(cp.channels, cp.deliveries[i], cp.incidents[k]);
    if cp.incidents[k].ref == item.ref {
      NextIncidentFacts(config, cp, event);
      FindIsTheIncident(cp.incidents, cp.incidents[k]);
      FitsSuccessor(cp.channels, cp.deliveries[i], next.deliveries[i], cp.incidents[k], item);
      assert DeliveryFits(next.channels, next.deliveries[i], next.incidents[last]);
    } else {
      OtherIncidentKeepsPlace(cp.incidents, item, cp.incidents[k]);
      var m :| 0 <= m < |next.incidents| && next.incidents[m] == cp.incidents[k];
      assert next.deliveries[i] == cp.deliveries[i];
      assert DeliveryFits(next.channels, next.deliveries[i], next.incidents[m]);
    }
  }

  lemma OtherIncidentKeepsPlace(incidents: seq<Incident>, item: Incident, other: Incident)
    requires other in incidents && other.ref != item.ref
    ensures other in Without(incidents, item.ref) + [item]
  {
    WithoutFacts(incidents, item.ref);
  }

  lemma ReducedNewDeliveryFits(config: Config, cp: Checkpoint, event: Event, now: int, i: nat)
    requires config.Valid() && Good(config, cp) && event.Valid()
    requires |cp.deliveries| <= i < |Reduced(cp, event, now).deliveries|
    ensures var next := Reduced(cp, event, now); DeliveryOk(next.channels, next.incidents, next.deliveries[i])
  {
    NextIncidentFacts(config, cp, event);
    ReducedDeliveries(cp, event, now);
    var next := Reduced(cp, event, now);
    var last := |next.incidents| - 1;
    var c := i - |cp.deliveries|;
    assert cp.channels[c] in cp.channels;
    assert next.deliveries[|cp.deliveries| + c].notice.channel == cp.channels[c];
    assert DeliveryFits(next.channels, next.deliveries[i], next.incidents[last]);
  }

  /** An incident whose current notices were stored keeps them. */
  lemma AnnouncedStays(cp: Checkpoint, deliveries: seq<Delivery>, k: nat)
    requires k < |cp.incidents| && IncidentHistory(cp, k)
    requires CurrentAnnounced(cp.channels, cp.deliveries, cp.incidents[k])
    requires |cp.deliveries| <= |deliveries|
    requires forall i | 0 <= i < |cp.deliveries| :: deliveries[i].notice == cp.deliveries[i].notice
    ensures HistoryKept(deliveries, cp.incidents[k])
    ensures CurrentAnnounced(cp.channels, deliveries, cp.incidents[k])
  {
    var item := cp.incidents[k];
    forall r | 1 <= r <= item.revision ensures Announced(deliveries, NoticeRef(item.ref, r, Independent)) {
      AnnouncedGrows(cp.deliveries, deliveries, NoticeRef(item.ref, r, Independent));
    }
    forall c | 0 <= c < |cp.channels|
      ensures Announced(deliveries, NoticeRef(item.ref, item.revision, cp.channels[c])) {
      AnnouncedGrows(cp.deliveries, deliveries, NoticeRef(item.ref, item.revision, cp.channels[c]));
    }
  }

  lemma ReducedOtherIncident(config: Config, cp: Checkpoint, event: Event, now: int, k: nat)
    requires config.Valid() && Good(config, cp) && event.Valid()
    requires k < |Reduced(cp, event, now).incidents| - 1
    ensures var next := Reduced(cp, event, now);
      && IncidentOk(next.incidents[k]) && IncidentHistory(next, k)
      && CurrentAnnounced(next.channels, next.deliveries, next.incidents[k])
  {
    ReducedDeliveries(cp, event, now);
    WithoutFacts(cp.incidents, event.Ref());
    var next := Reduced(cp, event, now);
    assert next.incidents[k] in Without(cp.incidents, event.Ref());
    var m :| 0 <= m < |cp.incidents| && cp.incidents[m] == next.incidents[k];
    assert IncidentOk(cp.incidents[m]) && IncidentHistory(cp, m);
    assert CurrentAnnounced(cp.channels, cp.deliveries, cp.incidents[m]);
    AnnouncedStays(cp, next.deliveries, m);
  }

  lemma ReducedOwnIncident(config: Config, cp: Checkpoint, event: Event, now: int)
    requires config.Valid() && Good(config, cp) && event.Valid()
    ensures var next := Reduced(cp, event, now);
      var k := |next.incidents| - 1;
      && IncidentOk(next.incidents[k]) && IncidentHistory(next, k)
      && CurrentAnnounced(next.channels, next.deliveries, next.incidents[k])
  {
    NextIncidentFacts(config, cp, event);
    ReducedDeliveries(cp, event, now);
    var next := Reduced(cp, event, now);
    var previous := Find(cp.incidents, event.Ref());
    var item := next.incidents[|next.incidents| - 1];
    if previous.Some? {
      var m :| 0 <= m < |cp.incidents| && cp.incidents[m] == previous.value;
      assert IncidentHistory(cp, m) && CurrentAnnounced(cp.channels, cp.deliveries, cp.incidents[m]);
      AnnouncedStays(cp, next.deliveries, m);
      assert HistoryKept(next.deliveries, previous.value);
    }
    if previous.None? || previous.value.state != item.state {
      forall c | 0 <= c < |next.channels|
        ensures Announced(next.deliveries, NoticeRef(item.ref, item.revision, next.channels[c]))
      {
        assert next.deliveries[|cp.deliveries| + c].notice.ref == NoticeRef(item.ref, item.revision, next.channels[c]);
      }
    }
    var c :| 0 <= c < |next.channels| && next.channels[c] == Independent;
    assert Announced(next.deliveries, NoticeRef(item.ref, item.revision, next.channels[c]));
    assert previous.Some? ==> HistoryKept(next.deliveries, previous.value);
    assert HistoryKept(next.deliveries, item);
  }

  /** The reducer keeps the full integrity predicate once the capacity check has passed. */
  lemma ReducedIncidentsFit(config: Config, cp: Checkpoint, event: Event, now: int)
    requires config.Valid() && Good(config, cp) && event.Valid()
    ensures var next := Reduced(cp, event, now);
      && DistinctIncidents(next.incidents)
      && (forall k {:trigger IncidentOk(next.incidents[k])} | 0 <= k < |next.incidents| ::
          IncidentOk(next.incidents[k]))
      && (forall k {:trigger IncidentHistory(next, k)} | 0 <= k < |next.incidents| :: IncidentHistory(next, k))
      && (forall k {:trigger CurrentAnnounced(next.channels, next.deliveries, next.incidents[k])} |
            0 <= k < |next.incidents| ::
            CurrentAnnounced(next.channels, next.deliveries, next.incidents[k]))
  {
    var next := Reduced(cp, event, now);
    NextIncidentFacts(config, cp, event);
    WithoutFacts(cp.incidents, event.Ref());
    assert DistinctIncidents(next.incidents) by {
      forall i | 0 <= i < |next.incidents| - 1 ensures next.incidents[i].ref != event.Ref() {
        assert next.incidents[i] in Without(cp.incidents, event.Ref());
      }
    }
    forall k | 0 <= k < |next.incidents|
      ensures IncidentOk(next.incidents[k]) && IncidentHistory(next, k)
      ensures CurrentAnnounced(next.channels, next.deliveries, next.incidents[k])
    {
      if k < |next.incidents| - 1 {
        ReducedOtherIncident(config, cp, event, now, k);
      } else {
        ReducedOwnIncident(config, cp, event, now);
      }
    }
  }

  lemma ReducedDeliveriesFit(config: Config, cp: Checkpoint, event: Event, now: int)
    requires config.Valid() && Good(config, cp) && event.Valid()
    ensures var next := Reduced(cp, event, now);
      && (forall i {:trigger DeliveryOk(next.channels, next.incidents, next.deliveries[i])} |
            0 <= i < |next.deliveries| ::
            DeliveryOk(next.channels, next.incidents, next.deliveries[i]))
      && (forall i {:trigger DeliveryCounters(next, i)} | 0 <= i < |next.deliveries| :: DeliveryCounters(next, i))
  {
    var next := Reduced(cp, event, now);
    ReducedDeliveries(cp, event, now);
    forall i | 0 <= i < |next.deliveries|
      ensures DeliveryOk(next.channels, next.incidents, next.deliveries[i]) && DeliveryCounters(next, i)
    {
      if i < |cp.deliveries| {
        ReducedOldDeliveryFits(config, cp, event, now, i);
        assert DeliveryCounters(cp, i) && DeliveryMoves(cp.deliveries[i], next.deliveries[i]);
      } else {
        ReducedNewDeliveryFits(config, cp, event, now, i);
        assert next.deliveries[|cp.deliveries| + (i - |cp.deliveries|)].attempts == 0;
      }
    }
  }

  lemma ReducedIsGood(config: Config, cp: Checkpoint, event: Event, now: int)
    requires config.Valid() && Good(config, cp) && event.Valid()
    requires |Reduced(cp, event, now).incidents| <= cp.policy.capacity
    requires |Reduced(cp, event, now).deliveries| <= cp.policy.capacity
    ensures Good(config, Reduced(cp, event, now))
  {
    ReducedNoticesDistinct(config, cp, event, now);
    ReducedIncidentsFit(config, cp, event, now);
    ReducedDeliveriesFit(config, cp, event, now);
  }

  /** Same notices with settled flags and counters, and the same incidents up to acknowledgement. */
  lemma CopiedIsGood(config: Config, cp: Checkpoint, next: Checkpoint)
    requires Good(config, cp) && next.policy == cp.policy && next.channels == cp.channels
    requires cp.version <= next.version
    requires |next.incidents| == |cp.incidents| && |next.deliveries| == |cp.deliveries|
    requires forall k | 0 <= k < |cp.incidents| ::
      IncidentOk(next.incidents[k]) && next.incidents[k] == cp.incidents[k].(ack := next.incidents[k].ack)
    requires forall i | 0 <= i < |cp.deliveries| ::
      DeliveryMoves(cp.deliveries[i], next.deliveries[i]) && next.deliveries[i].attempts <= next.version
    ensures Good(config, next)
  {
    forall k | 0 <= k < |next.incidents|
      ensures IncidentHistory(next, k) && CurrentAnnounced(next.channels, next.deliveries, next.incidents[k])
    {
      assert IncidentHistory(cp, k) && CurrentAnnounced(cp.channels, cp.deliveries, cp.incidents[k]);
      AnnouncedStays(cp, next.deliveries, k);
    }
    forall i | 0 <= i < |next.deliveries|
      ensures DeliveryOk(next.channels, next.incidents, next.deliveries[i]) && DeliveryCounters(next, i)
    {
      assert DeliveryCounters(cp, i);
      assert DeliveryMoves(cp.deliveries[i], next.deliveries[i]);
      assert DeliveryOk(cp.channels, cp.incidents, cp.deliveries[i]);
      var k :| 0 <= k < |cp.incidents| && DeliveryFits(cp.channels, cp.deliveries[i], cp.incidents[k]);
      assert IncidentOk(cp.incidents[k]);
      FitsSuccessor(cp.channels, cp.deliveries[i], next.deliveries[i], cp.incidents[k], next.incidents[k]);
    }
  }

  /** Acknowledging copies without validation, and stays valid. */
  lemma AcknowledgedIsGood(config: Config, cp: Checkpoint, request: AckRequest, authorized: bool, now: int)
    requires Good(config, cp) && AcknowledgePlan(cp, request, authorized, now).Propose?
    ensures Good(config, AcknowledgePlan(cp, request, authorized, now).next)
  {
    var next := AcknowledgePlan(cp, request, authorized, now).next;
    forall k | 0 <= k < |cp.incidents| ensures IncidentOk(next.incidents[k]) {
      assert IncidentOk(cp.incidents[k]);
    }
    forall i | 0 <= i < |cp.deliveries| ensures next.deliveries[i].attempts <= next.version {
      assert DeliveryCounters(cp, i);
    }
    CopiedIsGood(config, cp, next);
  }

  /** So does replacing one delivery by its attempted or delivered copy. */
  lemma ReplacedIsGood(config: Config, cp: Checkpoint, before: Delivery, after: Delivery)
    requires Good(config, cp) && DeliveryMoves(before, after) && after.attempts <= cp.version + 1
    ensures Good(config, Replace(cp, before, after))
  {
    var next := Replace(cp, before, after);
    forall k | 0 <= k < |cp.incidents| ensures IncidentOk(next.incidents[k]) {
      assert IncidentOk(cp.incidents[k]);
    }
    forall i | 0 <= i < |cp.deliveries| ensures next.deliveries[i].attempts <= next.version {
      assert DeliveryCounters(cp, i);
    }
    CopiedIsGood(config, cp, next);
  }

  // ---- Counters ---------------------------------------------------------------------------

  /** Announced revisions occupy distinct deliveries, so a revision never exceeds their number. */
  lemma {:induction false} RevisionsFit(deliveries: seq<Delivery>, ref: IncidentRef, revision: nat)
    requires forall r {:trigger NoticeRef(ref, r, Independent)} | 1 <= r <= revision ::
      Announced(deliveries, NoticeRef(ref, r, Independent))
    ensures revision <= |deliveries|
  {
    if revision > 0 {
      var last := NoticeRef(ref, revision, Independent);
      assert Announced(deliveries, last);
      var i :| 0 <= i < |deliveries| && deliveries[i].notice.ref == last;
      var rest := deliveries[..i] + deliveries[i+1..];
      forall r | 1 <= r <= revision - 1 ensures Announced(rest, NoticeRef(ref, r, Independent)) {
        assert Announced(deliveries, NoticeRef(ref, r, Independent));
        var k :| 0 <= k < |deliveries| && deliveries[k].notice.ref == NoticeRef(ref, r, Independent);
        assert rest[if k < i then k else k - 1] == deliveries[k];
      }
      RevisionsFit(rest, ref, revision - 1);
    }
  }

  /** Of all bounded counters only the version can outgrow its range. */
  lemma CountersOkIffVersionOk(config: Config, cp: Checkpoint)
    requires config.Valid() && Good(config, cp)
    ensures CountersOk(cp) <==> cp.version <= MAX_COUNTER
  {
    forall i | 0 <= i < |cp.incidents|
      ensures 1 <= cp.incidents[i].revision <= MAX_COUNTER && cp.incidents[i].lastEvent.Valid()
    {
      assert IncidentHistory(cp, i);
      RevisionsFit(cp.deliveries, cp.incidents[i].ref, cp.incidents[i].revision);
    }
    forall i | 0 <= i < |cp.deliveries|
      ensures 1 <= cp.deliveries[i].notice.revision <= MAX_COUNTER && cp.deliveries[i].attempts <= cp.version
    {
      assert DeliveryCounters(cp, i) && DeliveryOk(cp.channels, cp.incidents, cp.deliveries[i]);
      var k :| 0 <= k < |cp.incidents| && DeliveryFits(cp.channels, cp.deliveries[i], cp.incidents[k]);
      assert IncidentHistory(cp, k);
      RevisionsFit(cp.deliveries, cp.incidents[k].ref, cp.incidents[k].revision);
    }
  }

  /** After the capacity check, validation in `handle` fails exactly when the version is exhausted. */
  lemma HandleValidationFailsIffExhausted(config: Config, cp: Checkpoint, event: Event, now: int)
    requires config.Valid() && Good(config, cp) && event.Valid()
    ensures HandlePlan(cp, event, now) == Refuse(ValidationFailed) ==> cp.version >= MAX_COUNTER
    ensures HandlePlan(cp, event, now).Propose? ==>
      cp.version < MAX_COUNTER && Good(config, HandlePlan(cp, event, now).next)
  {
    var next := Reduced(cp, event, now);
    if |next.incidents| <= cp.policy.capacity && |next.deliveries| <= cp.policy.capacity {
      ReducedIsGood(config, cp, event, now);
      CountersOkIffVersionOk(config, next);
    }
  }

  // ---- Progress of the journal ------------------------------------------------------------

  /** The incident is there, at this revision or a later one. */
  predicate AtLeast(incidents: seq<Incident>, ref: IncidentRef, revision: nat) {
    exists k | 0 <= k < |incidents| :: incidents[k].ref == ref && incidents[k].revision >= revision
  }

  /** No incident disappears or goes back to an earlier revision. */
  ghost predicate RevisionsKept(before: seq<Incident>, after: seq<Incident>) {
    forall i {:trigger AtLeast(after, before[i].ref, before[i].revision)} | 0 <= i < |before| ::
      AtLeast(after, before[i].ref, before[i].revision)
  }

  lemma RevisionsKeptSame(before: seq<Incident>, after: seq<Incident>)
    requires |after| == |before|
    requires forall i | 0 <= i < |before| :: after[i].ref == before[i].ref && after[i].revision == before[i].revision
    ensures RevisionsKept(before, after)
  {
    forall i | 0 <= i < |before| ensures AtLeast(after, before[i].ref, before[i].revision) {
      assert after[i].ref == before[i].ref;
    }
  }

  lemma RevisionsKeptTransitive(a: seq<Incident>, b: seq<Incident>, c: seq<Incident>)
    requires RevisionsKept(a, b) && RevisionsKept(b, c)
    ensures RevisionsKept(a, c)
  {
    forall i | 0 <= i < |a| ensures AtLeast(c, a[i].ref, a[i].revision) {
      assert AtLeast(b, a[i].ref, a[i].revision);
      var k :| 0 <= k < |b| && b[k].ref == a[i].ref && b[k].revision >= a[i].revision;
      assert AtLeast(c, b[k].ref, b[k].revision);
    }
  }

  lemma ReducedKeepsRevisions(config: Config, cp: Checkpoint, event: Event, now: int)
    requires Good(config, cp) && event.Valid()
    ensures RevisionsKept(cp.incidents, Reduced(cp, event, now).incidents)
  {
    var previous := Find(cp.incidents, event.Ref());
    var item := NextIncident(cp.policy, previous, event);
    var rest := Without(cp.incidents, item.ref);
    var after := Reduced(cp, event, now).incidents;
    NextIncidentFacts(config, cp, event);
    WithoutFacts(cp.incidents, item.ref);
    forall i | 0 <= i < |cp.incidents| ensures AtLeast(after, cp.incidents[i].ref, cp.incidents[i].revision) {
      if cp.incidents[i].ref == item.ref {
        FindIsTheIncident(cp.incidents, cp.incidents[i]);
        assert after[|rest|] == item;
      } else {
        assert cp.incidents[i] in rest;
        var k :| 0 <= k < |rest| && rest[k] == cp.incidents[i];
        assert after[k] == cp.incidents[i];
      }
    }
  }

  /** Later checkpoints keep every delivery in place and never lower a revision. */
  ghost predicate Advances(cp: Checkpoint, cp': Checkpoint) {
    && RevisionsKept(cp.incidents, cp'.incidents)
    && |cp.deliveries| <= |cp'.deliveries|
    && (forall i | 0 <= i < |cp.deliveries| :: DeliveryMoves(cp.deliveries[i], cp'.deliveries[i]))
  }

  lemma AdvancesTransitive(a: Checkpoint, b: Checkpoint, c: Checkpoint)
    requires Advances(a, b) && Advances(b, c)
    ensures Advances(a, c)
  {
    RevisionsKeptTransitive(a.incidents, b.incidents, c.incidents);
    forall i | 0 <= i < |a.deliveries| ensures DeliveryMoves(a.deliveries[i], c.deliveries[i]) {
      assert DeliveryMoves(a.deliveries[i], b.deliveries[i]) && DeliveryMoves(b.deliveries[i], c.deliveries[i]);
    }
  }

  /** A notice that is recorded delivered or superseded. */
  ghost predicate Final(cp: Checkpoint, n: Notice) {
    exists i | 0 <= i < |cp.deliveries| ::
      cp.deliveries[i].notice == n && (cp.deliveries[i].delivered || cp.deliveries[i].superseded)
  }

  lemma FinalStays(cp: Checkpoint, cp': Checkpoint, n: Notice)
    requires Advances(cp, cp') && Final(cp, n)
    ensures Final(cp', n)
  {
    var i :| 0 <= i < |cp.deliveries| &&
             cp.deliveries[i].notice == n && (cp.deliveries[i].delivered || cp.deliveries[i].superseded);
    assert DeliveryMoves(cp.deliveries[i], cp'.deliveries[i]);
    assert cp'.deliveries[i].notice == n;
  }

  // ---- Sends ------------------------------------------------------------------------------

  ghost function Durable(config: Config, w: World): Checkpoint {
    if w.journal.Some? then w.journal.value else Checkpoint(0, config.policy, config.channels, [], [])
  }

  /** The durable record of a past send: a counted attempt and a due time past its backoff. */
  ghost predicate Recorded(cp: Checkpoint, s: Sent) {
    exists k | 0 <= k < |cp.deliveries| ::
      && cp.deliveries[k].notice == s.notice
      && s.attempts < cp.deliveries[k].attempts
      && s.at + Delay(cp.policy, s.attempts) <= cp.deliveries[k].dueAt
  }

  ghost predicate SentOk(config: Config, cp: Checkpoint, sent: seq<Sent>) {
    && (forall i {:trigger Recorded(cp, sent[i])} | 0 <= i < |sent| :: Recorded(cp, sent[i]))
    && (forall i, j | 0 <= i < j < |sent| ::
          && (sent[i].notice.incident == sent[j].notice.incident && sent[i].notice.channel == sent[j].notice.channel ==>
                sent[i].notice.revision <= sent[j].notice.revision)
          && (sent[i].notice.ref == sent[j].notice.ref ==>
                sent[i].at + Delay(config.policy, sent[i].attempts) <= sent[j].at))
  }

  ghost predicate Inv(config: Config, w: World) {
    && Good(config, Durable(config, w))
    && (w.service.Some? ==>
          && Good(config, w.service.value.checkpoint)
          && (!w.service.value.poisoned ==> w.service.value.checkpoint == Durable(config, w)))
    && SentOk(config, Durable(config, w), w.sent)
  }

  lemma RecordedStays(cp: Checkpoint, cp': Checkpoint, s: Sent)
    requires Advances(cp, cp') && cp.policy == cp'.policy && Recorded(cp, s)
    ensures Recorded(cp', s)
  {
    var k :| 0 <= k < |cp.deliveries| && cp.deliveries[k].notice == s.notice
      && s.attempts < cp.deliveries[k].attempts && s.at + Delay(cp.policy, s.attempts) <= cp.deliveries[k].dueAt;
    assert DeliveryMoves(cp.deliveries[k], cp'.deliveries[k]);
  }

  lemma SentStays(config: Config, cp: Checkpoint, cp': Checkpoint, sent: seq<Sent>)
    requires SentOk(config, cp, sent) && Advances(cp, cp') && cp.policy == cp'.policy
    ensures SentOk(config, cp', sent)
  {
    forall i | 0 <= i < |sent| ensures Recorded(cp', sent[i]) {
      RecordedStays(cp, cp', sent[i]);
    }
  }

  /** What one transition guarantees relative to the journal it started from. */
  ghost predicate Proceeds(config: Config, w: World, w': World) {
    && Inv(config, w')
    && Advances(Durable(config, w), Durable(config, w'))
    && w.sent <= w'.sent
    && (forall j | |w.sent| <= j < |w'.sent| :: !Final(Durable(config, w), w'.sent[j].notice))
  }

  lemma ProceedsTransitive(config: Config, a: World, b: World, c: World)
    requires Proceeds(config, a, b) && Proceeds(config, b, c)
    ensures Proceeds(config, a, c)
  {
    AdvancesTransitive(Durable(config, a), Durable(config, b), Durable(config, c));
    forall j | |a.sent| <= j < |c.sent| ensures !Final(Durable(config, a), c.sent[j].notice) {
      if j < |b.sent| {
        assert c.sent[j] == b.sent[j];
      } else if Final(Durable(config, a), c.sent[j].notice) {
        FinalStays(Durable(config, a), Durable(config, b), c.sent[j].notice);
      }
    }
  }

  /** Under one writer a commit of a good successor never meets a stale journal version. */
  lemma CommitProceeds(config: Config, w: World, candidate: Checkpoint, fate: CommitFate)
    requires Inv(config, w) && Ready(w)
    requires Good(config, candidate) && Advances(w.service.value.checkpoint, candidate)
    ensures var (w', ok) := CommitTo(w, candidate, fate);
      && Proceeds(config, w, w') && w'.sent == w.sent
      && (ok <==> fate.Returns?)
      && (ok ==> Ready(w') && w'.service.value.checkpoint == candidate)
  {
    SentStays(config, Durable(config, w), candidate, w.sent);
    RevisionsKeptSame(Durable(config, w).incidents, Durable(config, w).incidents);
  }

  lemma StandingStill(config: Config, w: World, w': World)
    requires Inv(config, w) && w'.journal == w.journal && w'.sent == w.sent
    requires w'.service == w.service || w'.service.None?
    ensures Proceeds(config, w, w')
  {
    RevisionsKeptSame(Durable(config, w).incidents, Durable(config, w).incidents);
  }

  lemma HandleProceeds(config: Config, w: World, event: Event, now: int, fate: CommitFate)
    requires config.Valid() && Inv(config, w) && w.service.Some? && event.Valid()
    ensures Proceeds(config, w, HandleIn(w, event, now, fate).0)
  {
    if Ready(w) {
      var cp := w.service.value.checkpoint;
      HandleValidationFailsIffExhausted(config, cp, event, now);
      var plan := HandlePlan(cp, event, now);
      if plan.Propose? {
        ReducedDeliveries(cp, event, now);
        ReducedKeepsRevisions(config, cp, event, now);
        CommitProceeds(config, w, plan.next, fate);
      } else {
        StandingStill(config, w, w);
      }
    } else {
      StandingStill(config, w, w);
    }
  }

  lemma AcknowledgeProceeds(
    config: Config, w: World, request: AckRequest, authorized: bool, now: int, fate: CommitFate)
    requires Inv(config, w) && w.service.Some?
    ensures Proceeds(config, w, AcknowledgeIn(w, request, authorized, now, fate).0)
  {
    StandingStill(config, w, w);
    if Ready(w) {
      var plan := AcknowledgePlan(w.service.value.checkpoint, request, authorized, now);
      if plan.Propose? {
        AcknowledgedIsGood(config, w.service.value.checkpoint, request, authorized, now);
        RevisionsKeptSame(w.service.value.checkpoint.incidents, plan.next.incidents);
        CommitProceeds(config, w, plan.next, fate);
      }
    }
  }

  // ---- One delivery attempt ---------------------------------------------------------------

  lemma ReplaceAdvances(cp: Checkpoint, before: Delivery, after: Delivery)
    requires DeliveryMoves(before, after)
    ensures Advances(cp, Replace(cp, before, after))
  {
    RevisionsKeptSame(cp.incidents, cp.incidents);
  }

  /** The current incident behind a delivery that is still to be sent. */
  lemma UnsettledIsNewest(config: Config, cp: Checkpoint, k: nat, i: nat)
    requires Good(config, cp) && k < |cp.deliveries| && i < |cp.deliveries|
    requires !cp.deliveries[k].delivered && !cp.deliveries[k].superseded
    requires cp.deliveries[i].notice.incident == cp.deliveries[k].notice.incident
    ensures cp.deliveries[i].notice.revision <= cp.deliveries[k].notice.revision
  {
    assert DeliveryOk(cp.channels, cp.incidents, cp.deliveries[k]);
    var m :| 0 <= m < |cp.incidents| && DeliveryFits(cp.channels, cp.deliveries[k], cp.incidents[m]);
    FindIsTheIncident(cp.incidents, cp.incidents[m]);
    OldNoticesAreOlder(config, cp, i, cp.deliveries[k].notice.incident);
  }

  /** Telling the provider about a due delivery whose attempt has just been committed. */
  lemma SendProceeds(config: Config, before: Checkpoint, w: World, d: Delivery, now: int)
    requires Inv(config, w) && Ready(w) && Good(config, before)
    requires d in before.deliveries && Due(d, now)
    requires w.service.value.checkpoint == Replace(before, d, Attempted(before.policy, d, now))
    requires SentOk(config, before, w.sent)
    ensures Inv(config, w.(sent := w.sent + [Sent(d.notice, now, d.attempts)]))
    ensures !Final(before, d.notice)
  {
    var s := Sent(d.notice, now, d.attempts);
    var sent' := w.sent + [s];
    var k :| 0 <= k < |before.deliveries| && before.deliveries[k] == d;
    var cp := w.service.value.checkpoint;
    assert cp.deliveries[k] == Attempted(before.policy, d, now);
    assert Recorded(cp, s);
    forall i | 0 <= i < |w.sent| && w.sent[i].notice.incident == d.notice.incident
      ensures w.sent[i].notice.revision <= d.notice.revision
      ensures w.sent[i].notice.ref == d.notice.ref ==>
        w.sent[i].at + Delay(config.policy, w.sent[i].attempts) <= now
    {
      assert Recorded(before, w.sent[i]);
      var m :| 0 <= m < |before.deliveries| && before.deliveries[m].notice == w.sent[i].notice
        && w.sent[i].attempts < before.deliveries[m].attempts
        && w.sent[i].at + Delay(before.policy, w.sent[i].attempts) <= before.deliveries[m].dueAt;
      UnsettledIsNewest(config, before, k, m);
    }
    SameRefSameIncident(config, before, w.sent, d);
    forall i, j | 0 <= i < j < |sent'|
      ensures
        sent'[i].notice.incident == sent'[j].notice.incident && sent'[i].notice.channel == sent'[j].notice.channel ==>
        sent'[i].notice.revision <= sent'[j].notice.revision
      ensures sent'[i].notice.ref == sent'[j].notice.ref ==>
        sent'[i].at + Delay(config.policy, sent'[i].attempts) <= sent'[j].at
    {
      assert sent'[i] == w.sent[i];
    }
    forall i | 0 <= i < |sent'| ensures Recorded(cp, sent'[i]) {
      if i < |w.sent| {
        assert Recorded(cp, w.sent[i]);
      }
    }
  }

  lemma SameRefSameIncident(config: Config, cp: Checkpoint, sent: seq<Sent>, d: Delivery)
    requires Good(config, cp) && SentOk(config, cp, sent) && d in cp.deliveries
    ensures forall i | 0 <= i < |sent| && sent[i].notice.ref == d.notice.ref ::
      sent[i].notice.incident == d.notice.incident
  {
    var k :| 0 <= k < |cp.deliveries| && cp.deliveries[k] == d;
    forall i | 0 <= i < |sent| && sent[i].notice.ref == d.notice.ref
      ensures sent[i].notice.incident == d.notice.incident
    {
      assert Recorded(cp, sent[i]);
      var m :| 0 <= m < |cp.deliveries| && cp.deliveries[m].notice == sent[i].notice;
      assert m == k;
    }
  }

  /** Deliveries selected by `dispatch_due` and not yet worked on. */
  ghost predicate Pending(cp: Checkpoint, due: seq<Delivery>, now: int) {
    && DistinctNotices(due)
    && forall k | 0 <= k < |due| :: due[k] in cp.deliveries && Due(due[k], now)
  }

  lemma PendingStays(cp: Checkpoint, due: seq<Delivery>, now: int, before: Delivery, after: Delivery)
    requires due != [] && Pending(cp, due, now) && before.notice == due[0].notice
    ensures Pending(Replace(cp, before, after), due[1..], now)
  {
    var next := Replace(cp, before, after);
    forall k | 0 <= k < |due[1..]| ensures due[1..][k] in next.deliveries {
      assert due[1..][k] == due[k+1];
      var m :| 0 <= m < |cp.deliveries| && cp.deliveries[m] == due[k+1];
      assert due[k+1].notice.ref != due[0].notice.ref;
      assert next.deliveries[m] == due[k+1];
    }
  }

  /** Committing the attempt and telling the provider. */
  lemma AttemptProceeds(config: Config, w: World, d: Delivery, now: int)
    requires Inv(config, w) && Ready(w) && d in w.service.value.checkpoint.deliveries && Due(d, now)
    ensures var cp := w.service.value.checkpoint;
      var tried := CommitTo(w, Replace(cp, d, Attempted(cp.policy, d, now)), Returns).0;
      var told := tried.(sent := tried.sent + [Sent(d.notice, now, d.attempts)]);
      && Proceeds(config, w, tried) && Proceeds(config, w, told) && Ready(told)
      && told.service.value.checkpoint == Replace(cp, d, Attempted(cp.policy, d, now))
  {
    var cp := w.service.value.checkpoint;
    var attempted := Attempted(cp.policy, d, now);
    var k :| 0 <= k < |cp.deliveries| && cp.deliveries[k] == d;
    assert DeliveryCounters(cp, k);
    ReplacedIsGood(config, cp, d, attempted);
    ReplaceAdvances(cp, d, attempted);
    CommitProceeds(config, w, Replace(cp, d, attempted), Returns);
    var tried := CommitTo(w, Replace(cp, d, attempted), Returns).0;
    SendProceeds(config, cp, tried, d, now);
  }

  lemma AttemptFails(config: Config, w: World, d: Delivery, now: int, fate: CommitFate)
    requires Inv(config, w) && Ready(w) && d in w.service.value.checkpoint.deliveries && Due(d, now)
    ensures var cp := w.service.value.checkpoint;
      var (tried, ok) := CommitTo(w, Replace(cp, d, Attempted(cp.policy, d, now)), fate);
      Proceeds(config, w, tried) && (ok <==> fate.Returns?)
  {
    var cp := w.service.value.checkpoint;
    var attempted := Attempted(cp.policy, d, now);
    var k :| 0 <= k < |cp.deliveries| && cp.deliveries[k] == d;
    assert DeliveryCounters(cp, k);
    ReplacedIsGood(config, cp, d, attempted);
    ReplaceAdvances(cp, d, attempted);
    CommitProceeds(config, w, Replace(cp, d, attempted), fate);
  }

  /** Committing the receipt of an accepted send. */
  lemma ReceiptProceeds(config: Config, w: World, attempted: Delivery, fate: CommitFate)
    requires Inv(config, w) && Ready(w) && attempted in w.service.value.checkpoint.deliveries
    ensures var cp := w.service.value.checkpoint;
      var received := Replace(cp, attempted, attempted.(delivered := true));
      var (done, ok) := CommitTo(w, received, fate);
      && Proceeds(config, w, done) && (ok <==> fate.Returns?)
      && (ok ==> Ready(done) && done.service.value.checkpoint == received)
  {
    var cp := w.service.value.checkpoint;
    var k :| 0 <= k < |cp.deliveries| && cp.deliveries[k] == attempted;
    assert DeliveryCounters(cp, k);
    ReplacedIsGood(config, cp, attempted, attempted.(delivered := true));
    ReplaceAdvances(cp, attempted, attempted.(delivered := true));
    CommitProceeds(config, w, Replace(cp, attempted, attempted.(delivered := true)), fate);
  }

  lemma {:induction false} DispatchProceeds(config: Config, w: World, due: seq<Delivery>, fates: seq<Fate>, now: int)
    requires Inv(config, w) && Ready(w) && Pending(w.service.value.checkpoint, due, now)
    ensures Proceeds(config, w, DispatchFrom(w, due, fates, now))
    decreases |due|
  {
    if due == [] || fates == [] {
      StandingStill(config, w, DispatchFrom(w, due, fates, now));
    } else {
      var cp := w.service.value.checkpoint;
      var d, fate := due[0], fates[0];
      var attempted := Attempted(cp.policy, d, now);
      AttemptFails(config, w, d, now, fate.attempt);
      if fate.attempt.Returns? {
        AttemptProceeds(config, w, d, now);
        var tried := CommitTo(w, Replace(cp, d, attempted), Returns).0;
        var told := tried.(sent := tried.sent + [Sent(d.notice, now, d.attempts)]);
        StandingStill(config, tried, tried.(service := None));
        StandingStill(config, told, told.(service := None));
        ProceedsTransitive(config, w, tried, tried.(service := None));
        ProceedsTransitive(config, w, told, told.(service := None));
        PendingStays(cp, due, now, d, attempted);
        if fate.send.ReceiptRefused? {
          DispatchProceeds(config, told, due[1..], fates[1..], now);
          ProceedsTransitive(config, w, told, DispatchFrom(told, due[1..], fates[1..], now));
        } else if fate.send.ReceiptAccepted? {
          ReceiptIsNext(config, w, told, due, fates, now);
        }
      }
    }
  }

  lemma {:induction false} ReceiptIsNext(
    config: Config, w: World, told: World, due: seq<Delivery>, fates: seq<Fate>, now: int)
    requires Inv(config, w) && Ready(w) && Pending(w.service.value.checkpoint, due, now)
    requires due != [] && fates != [] && Proceeds(config, w, told) && Ready(told)
    requires told.service.value.checkpoint ==
      Replace(w.service.value.checkpoint, due[0], Attempted(w.service.value.checkpoint.policy, due[0], now))
    ensures var attempted := Attempted(w.service.value.checkpoint.policy, due[0], now);
      var received := Replace(told.service.value.checkpoint, attempted, attempted.(delivered := true));
      var (done, kept) := CommitTo(told, received, fates[0].receipt);
      Proceeds(config, w, if kept then DispatchFrom(done, due[1..], fates[1..], now) else done)
    decreases |due|, 0
  {
    var cp := w.service.value.checkpoint;
    var attempted := Attempted(cp.policy, due[0], now);
    var k :| 0 <= k < |cp.deliveries| && cp.deliveries[k] == due[0];
    assert told.service.value.checkpoint.deliveries[k] == attempted;
    ReceiptProceeds(config, told, attempted, fates[0].receipt);
    var received := Replace(told.service.value.checkpoint, attempted, attempted.(delivered := true));
    var (done, kept) := CommitTo(told, received, fates[0].receipt);
    ProceedsTransitive(config, w, told, done);
    if kept {
      ReceivedPending(cp, due, now, attempted);
      DispatchProceeds(config, done, due[1..], fates[1..], now);
      ProceedsTransitive(config, w, done, DispatchFrom(done, due[1..], fates[1..], now));
    }
  }

  lemma ReceivedPending(cp: Checkpoint, due: seq<Delivery>, now: int, attempted: Delivery)
    requires due != [] && Pending(cp, due, now) && attempted.notice == due[0].notice
    ensures Pending(Replace(Replace(cp, due[0], attempted), attempted, attempted.(delivered := true)), due[1..], now)
  {
    var tried := Replace(cp, due[0], attempted);
    var next := Replace(tried, attempted, attempted.(delivered := true));
    forall k | 0 <= k < |due[1..]| ensures due[1..][k] in next.deliveries {
      assert due[1..][k] == due[k+1];
      var m :| 0 <= m < |cp.deliveries| && cp.deliveries[m] == due[k+1];
      assert due[k+1].notice.ref != due[0].notice.ref;
      assert next.deliveries[m] == due[k+1];
    }
  }

  lemma {:induction false} DueFacts(deliveries: seq<Delivery>, now: int)
    requires DistinctNotices(deliveries)
    ensures forall d :: d in DueOf(deliveries, now) ==> d in deliveries && Due(d, now)
    ensures DistinctNotices(DueOf(deliveries, now))
  {
    if deliveries != [] {
      var rest := deliveries[1..];
      assert DistinctNotices(rest);
      DueFacts(rest, now);
      var tail, all := DueOf(rest, now), DueOf(deliveries, now);
      assert forall d :: d in rest ==> d in deliveries && d.notice.ref != deliveries[0].notice.ref by {
        forall d | d in rest ensures d in deliveries && d.notice.ref != deliveries[0].notice.ref {
          var i :| 0 <= i < |rest| && rest[i] == d;
          assert deliveries[i+1] == d;
        }
      }
      if Due(deliveries[0], now) {
        assert all == [deliveries[0]] + tail;
        forall i, j | 0 <= i < j < |all| ensures all[i].notice.ref != all[j].notice.ref {
          assert all[j] == tail[j-1] && tail[j-1] in tail;
          assert i > 0 ==> all[i] == tail[i-1];
        }
      } else {
        assert all == tail;
      }
    }
  }

  lemma StepProceeds(config: Config, w: World, step: Step)
    requires config.Valid() && Inv(config, w)
    ensures Proceeds(config, w, Apply(config, w, step))
  {
    StandingStill(config, w, w);
    match step {
      case Handling(event, now, fate) =>
        if w.service.Some? && event.Valid() {
          HandleProceeds(config, w, event, now, fate);
        }
      case Acknowledging(request, authorized, now, fate) =>
        if w.service.Some? {
          AcknowledgeProceeds(config, w, request, authorized, now, fate);
        }
      case Dispatching(batch, fates, now) =>
        if Ready(w) && 1 <= batch <= 100 {
          var cp := w.service.value.checkpoint;
          DueFacts(cp.deliveries, now);
          var due := Take(DueOf(cp.deliveries, now), batch);
          forall k | 0 <= k < |due| ensures due[k] in cp.deliveries && Due(due[k], now) {
            assert due[k] == DueOf(cp.deliveries, now)[k];
          }
          DispatchProceeds(config, w, due, fates, now);
        }
      case Crashing => StandingStill(config, w, w.(service := None));
      case Restarting => StandingStill(config, w.(service := None), w.(service := None));
    }
  }

  lemma {:induction false} RunInvariant(config: Config, steps: seq<Step>)
    requires config.Valid()
    ensures Inv(config, Run(config, steps))
  {
    if steps != [] {
      RunInvariant(config, steps[..|steps|-1]);
      StepProceeds(config, Run(config, steps[..|steps|-1]), steps[|steps|-1]);
    }
  }

  // ---- Theorems ---------------------------------------------------------------------------

  /** Every durable checkpoint passes the validator, the unvalidated copies included. */
  lemma JournalAlwaysValid(config: Config, steps: seq<Step>)
    requires config.Valid() && Run(config, steps).journal.Some?
    ensures Integrity(Run(config, steps).journal.value)
  {
    RunInvariant(config, steps);
  }

  /** A restart accepts the journal exactly while its version is within the counter range. */
  lemma ReloadAcceptedIff(config: Config, steps: seq<Step>)
    requires config.Valid() && Run(config, steps).journal.Some?
    ensures Apply(config, Run(config, steps), Restarting).service.Some? <==>
      Run(config, steps).journal.value.version <= MAX_COUNTER
  {
    RunInvariant(config, steps);
    CountersOkIffVersionOk(config, Run(config, steps).journal.value);
  }

  /** In a running service no event fails validation after the capacity check. */
  lemma HandleNeverInvalid(config: Config, steps: seq<Step>, event: Event, now: int)
    requires config.Valid() && event.Valid() && Ready(Run(config, steps))
    requires Run(config, steps).service.value.checkpoint.version < MAX_COUNTER
    ensures HandlePlan(Run(config, steps).service.value.checkpoint, event, now) != Refuse(ValidationFailed)
  {
    RunInvariant(config, steps);
    HandleValidationFailsIffExhausted(config, Run(config, steps).service.value.checkpoint, event, now);
  }

  /** Under one writer the journal never answers a commit with a stale version. */
  lemma CommitNeverConflicts(config: Config, steps: seq<Step>)
    requires config.Valid() && Ready(Run(config, steps))
    ensures JournalVersion(Run(config, steps).journal) == Run(config, steps).service.value.checkpoint.version
  {
    RunInvariant(config, steps);
  }

  /** Sends never go backwards, and repeats of one notice keep the backoff apart. */
  lemma SendsAreOrdered(config: Config, steps: seq<Step>, i: nat, j: nat)
    requires config.Valid() && i < j < |Run(config, steps).sent|
    ensures var a, b := Run(config, steps).sent[i], Run(config, steps).sent[j];
      && (a.notice.incident == b.notice.incident && a.notice.channel == b.notice.channel ==>
            a.notice.revision <= b.notice.revision)
      && (a.notice.ref == b.notice.ref ==> a.at + Delay(config.policy, a.attempts) <= b.at)
  {
    RunInvariant(config, steps);
  }

  /** Once the journal records a notice delivered or superseded, no later run sends it again. */
  lemma {:induction false} SettledNoticesStaySilent(
    config: Config, steps: seq<Step>, more: seq<Step>, n: Notice, j: nat)
    requires config.Valid() && Run(config, steps).journal.Some? && Final(Run(config, steps).journal.value, n)
    requires |Run(config, steps).sent| <= j < |Run(config, steps + more).sent|
    ensures Run(config, steps + more).sent[j].notice != n
  {
    RunProceeds(config, steps, more);
  }

  lemma {:induction false} RunProceeds(config: Config, steps: seq<Step>, more: seq<Step>)
    requires config.Valid()
    ensures Proceeds(config, Run(config, steps), Run(config, steps + more))
  {
    RunInvariant(config, steps);
    if more == [] {
      assert steps + more == steps;
      StandingStill(config, Run(config, steps), Run(config, steps));
    } else {
      var all := steps + more;
      assert all[..|all|-1] == steps + more[..|more|-1];
      RunProceeds(config, steps, more[..|more|-1]);
      LastStepProceeds(config, all);
      ProceedsTransitive(config, Run(config, steps), Run(config, all[..|all|-1]), Run(config, all));
    }
  }

  lemma LastStepProceeds(config: Config, steps: seq<Step>)
    requires config.Valid() && steps != []
    ensures Proceeds(config, Run(config, steps[..|steps|-1]), Run(config, steps))
  {
    RunInvariant(config, steps[..|steps|-1]);
    StepProceeds(config, Run(config, steps[..|steps|-1]), steps[|steps|-1]);
  }
}
