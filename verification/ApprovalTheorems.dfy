/** Exactly-once effect and authorisation of every dispatch, over all runs of the approval system. */
module ApprovalTheorems {
  import opened Common
  import opened ApprovalTables
  import opened Approval

  // ---- Table invariants -------------------------------------------------------------------

  ghost predicate ProposalOk(db: Db, p: Id)
    requires p in db.proposals
  {
    var row := db.proposals[p];
    && row.payload.proposalId == p
    && row.columns == ColumnsOf(row.payload)
    && row.payload.orderHash == ComputeOrderHash(row.payload)
    && row.payload.riskDecisionId in db.risk && db.risk[row.payload.riskDecisionId] == p
  }

  ghost predicate ChallengeOk(db: Db, c: Id)
    requires c in db.challenges
  {
    var row := db.challenges[c];
    && row.columns == row.payload && row.columns.challengeId == c && row.columns.schema == V1_1
    && AllowedPair(row.columns.via, row.columns.scope)
    && row.columns.createdAt + MIN_TTL <= row.columns.expiresAt <= row.columns.createdAt + MAX_TTL
    && row.columns.proposalId in db.proposals
    && var p := db.proposals[row.columns.proposalId].payload;
       && row.columns.orderHash == p.orderHash
       && row.columns.expiresAt <= p.expiresAt
       && p.account == AccountFor(row.columns.scope)
  }

  ghost predicate EventOk(db: Db, e: Id)
    requires e in db.events
  {
    var row := db.events[e];
    && row.columns == row.payload && row.columns.eventId == e
    && row.columns.challengeId in db.challenges
    && var c := db.challenges[row.columns.challengeId].columns;
       && c.status != Pending
       && row.columns.proposalId == c.proposalId && row.columns.orderHash == c.orderHash
       && row.columns.via == c.via && row.columns.scope == c.scope
       && (row.columns.outcome.OutcomeApproved? ==> row.columns.approvedAt < c.expiresAt)
  }

  /** An outbox row belongs to an approval that the bound Telegram user gave. */
  ghost predicate OutboxOk(db: Db, o: Id)
    requires o in db.outbox
  {
    var row := db.outbox[o];
    && row.outboxId == o && row.eventId in db.events
    && var e := db.events[row.eventId].columns;
       && row.proposalId == e.proposalId && row.orderHash == e.orderHash
       && e.outcome.OutcomeApproved? && e.via == Telegram && e.scope == PaperScope
       && e.challengeId in db.bindings && e.approver == TelegramUser(db.bindings[e.challengeId].user)
  }

  /** One challenge per proposal and per nonce, one event per challenge, one outbox row per event. */
  ghost predicate ChallengeKeys(db: Db) {
    forall c1, c2 | c1 in db.challenges && c2 in db.challenges ::
      (db.challenges[c1].columns.proposalId == db.challenges[c2].columns.proposalId
       || db.challenges[c1].columns.nonceHash == db.challenges[c2].columns.nonceHash) ==> c1 == c2
  }

  ghost predicate EventKeys(db: Db) {
    forall e1, e2 | e1 in db.events && e2 in db.events ::
      db.events[e1].columns.challengeId == db.events[e2].columns.challengeId ==> e1 == e2
  }

  ghost predicate OutboxKeys(db: Db) {
    forall o1, o2 | o1 in db.outbox && o2 in db.outbox ::
      db.outbox[o1].eventId == db.outbox[o2].eventId ==> o1 == o2
  }

  predicate HasEvent(db: Db, c: Id) {
    exists e :: e in db.events && db.events[e].columns.challengeId == c
  }

  predicate HasOutbox(db: Db, e: Id) {
    exists o :: o in db.outbox && db.outbox[o].eventId == e
  }

  /** A decided challenge has its event, and a Telegram approval its outbox row. */
  ghost predicate CommittedTogether(db: Db) {
    && (forall c | c in db.challenges :: db.challenges[c].columns.status != Pending ==> HasEvent(db, c))
    && (forall e | e in db.events ::
          db.events[e].columns.outcome.OutcomeApproved? && db.events[e].columns.approver.TelegramUser?
          ==> HasOutbox(db, e))
  }

  ghost predicate DbOk(db: Db) {
    && (forall p {:trigger ProposalOk(db, p)} | p in db.proposals :: ProposalOk(db, p))
    && (forall c {:trigger ChallengeOk(db, c)} | c in db.challenges :: ChallengeOk(db, c))
    && (forall e {:trigger EventOk(db, e)} | e in db.events :: EventOk(db, e))
    && (forall o {:trigger OutboxOk(db, o)} | o in db.outbox :: OutboxOk(db, o))
    && ChallengeKeys(db) && EventKeys(db) && OutboxKeys(db) && CommittedTogether(db)
  }

  /** Committed rows are never removed; only challenge and outbox statuses ever change. */
  ghost predicate Extends(db: Db, db': Db) {
    && (forall r | r in db.risk :: r in db'.risk && db'.risk[r] == db.risk[r])
    && (forall p | p in db.proposals :: p in db'.proposals && db'.proposals[p] == db.proposals[p])
    && (forall c | c in db.challenges :: c in db'.challenges && ChallengeMoves(db.challenges[c], db'.challenges[c]))
    && (forall e | e in db.events :: e in db'.events && db'.events[e] == db.events[e])
    && (forall c | c in db.bindings :: c in db'.bindings && db'.bindings[c] == db.bindings[c])
    && (forall o | o in db.outbox :: o in db'.outbox && OutboxMoves(db.outbox[o], db'.outbox[o]))
  }

  predicate ChallengeMoves(a: ChallengeRow, b: ChallengeRow) {
    || a == b
    || (a.version < b.version && a.columns.status == Pending && b.columns.status != Pending
        && b.columns == a.columns.(status := b.columns.status) && b.payload == b.columns)
  }

  predicate OutboxMoves(a: OutboxRow, b: OutboxRow) {
    a == b || (a.status == OutboxPending && b == a.(status := OutboxConsumed))
  }

  // ---- Rows stay valid while the tables grow -----------------------------------------------

  lemma ProposalStays(db: Db, db': Db, p: Id)
    requires Extends(db, db') && p in db.proposals && ProposalOk(db, p)
    ensures ProposalOk(db', p)
  {
  }

  lemma ChallengeStays(db: Db, db': Db, c: Id)
    requires Extends(db, db') && c in db.challenges && ChallengeOk(db, c)
    ensures ChallengeOk(db', c)
  {
    assert ChallengeMoves(db.challenges[c], db'.challenges[c]);
  }

  lemma EventStays(db: Db, db': Db, e: Id)
    requires Extends(db, db') && e in db.events && EventOk(db, e)
    ensures EventOk(db', e)
  {
    var c := db.events[e].columns.challengeId;
    assert ChallengeMoves(db.challenges[c], db'.challenges[c]);
  }

  lemma OutboxStays(db: Db, db': Db, o: Id)
    requires Extends(db, db') && o in db.outbox && OutboxOk(db, o)
    ensures OutboxOk(db', o)
  {
    assert OutboxMoves(db.outbox[o], db'.outbox[o]);
  }

  /** Growing tables stay valid once the new rows are and the keys hold. */
  lemma GrownIsOk(db: Db, db': Db)
    requires DbOk(db) && Extends(db, db')
    requires forall p | p in db'.proposals && p !in db.proposals :: ProposalOk(db', p)
    requires forall c | c in db'.challenges && c !in db.challenges :: ChallengeOk(db', c)
    requires forall e | e in db'.events && e !in db.events :: EventOk(db', e)
    requires forall o | o in db'.outbox && o !in db.outbox :: OutboxOk(db', o)
    requires ChallengeKeys(db') && EventKeys(db') && OutboxKeys(db') && CommittedTogether(db')
    ensures DbOk(db')
  {
    forall p | p in db.proposals ensures ProposalOk(db', p) {
      assert ProposalOk(db, p);
      ProposalStays(db, db', p);
    }
    forall c | c in db.challenges ensures ChallengeOk(db', c) {
      assert ChallengeOk(db, c);
      ChallengeStays(db, db', c);
    }
    forall e | e in db.events ensures EventOk(db', e) {
      assert EventOk(db, e);
      EventStays(db, db', e);
    }
    forall o | o in db.outbox ensures OutboxOk(db', o) {
      assert OutboxOk(db, o);
      OutboxStays(db, db', o);
    }
  }

  lemma LinksStay(db: Db, db': Db)
    requires Extends(db, db') && CommittedTogether(db)
    requires forall c | c in db'.challenges && (c !in db.challenges || db.challenges[c] != db'.challenges[c]) ::
      db'.challenges[c].columns.status != Pending ==> HasEvent(db', c)
    requires forall e | e in db'.events && e !in db.events ::
      db'.events[e].columns.outcome.OutcomeApproved? && db'.events[e].columns.approver.TelegramUser?
      ==> HasOutbox(db', e)
    ensures CommittedTogether(db')
  {
    forall c | c in db.challenges && HasEvent(db, c) ensures HasEvent(db', c) {
      var e :| e in db.events && db.events[e].columns.challengeId == c;
      assert e in db'.events && db'.events[e].columns.challengeId == c;
    }
    forall e | e in db.events && HasOutbox(db, e) ensures HasOutbox(db', e) {
      var o :| o in db.outbox && db.outbox[o].eventId == e;
      assert OutboxMoves(db.outbox[o], db'.outbox[o]);
      assert o in db'.outbox && db'.outbox[o].eventId == e;
    }
  }

  // ---- Transactions keep the tables -------------------------------------------------------

  lemma IssueKeeps(db: Db, q: Issue)
    requires DbOk(db) && CreateProposalAndChallenge(db, q).Ok?
    ensures var db' := CreateProposalAndChallenge(db, q).value; DbOk(db') && Extends(db, db')
  {
    var db' := CreateProposalAndChallenge(db, q).value;
    IssueExtends(db, q);
    assert ProposalOk(db', q.proposalId) by { assert IssueRejection(q).None?; }
    assert ChallengeOk(db', q.challengeId) by { assert IssueRejection(q).None?; }
    IssueKeys(db, q);
    LinksStay(db, db');
    GrownIsOk(db, db');
  }

  lemma IssueExtends(db: Db, q: Issue)
    requires DbOk(db) && CreateProposalAndChallenge(db, q).Ok?
    ensures Extends(db, CreateProposalAndChallenge(db, q).value)
  {
  }

  lemma IssueKeys(db: Db, q: Issue)
    requires DbOk(db) && CreateProposalAndChallenge(db, q).Ok?
    ensures var db' := CreateProposalAndChallenge(db, q).value;
      ChallengeKeys(db') && EventKeys(db') && OutboxKeys(db')
  {
    var db' := CreateProposalAndChallenge(db, q).value;
    forall c | c in db.challenges
      ensures db.challenges[c].columns.proposalId != q.proposalId
      ensures db.challenges[c].columns.nonceHash != NonceHash(q.token)
    {
      assert ChallengeOk(db, c);
    }
  }

  lemma BindExtends(db: Db, d: Delivery)
    ensures Extends(db, BindDelivery(db, d))
    ensures BindDelivery(db, d) == db.(bindings := BindDelivery(db, d).bindings)
  {
  }

  lemma BindKeeps(db: Db, d: Delivery)
    requires DbOk(db)
    ensures DbOk(BindDelivery(db, d)) && Extends(db, BindDelivery(db, d))
  {
    BindExtends(db, d);
    var db' := BindDelivery(db, d);
    LinksStay(db, db');
    assert ChallengeKeys(db') && EventKeys(db') && OutboxKeys(db');
    GrownIsOk(db, db');
  }

  lemma ConsumeKeeps(db: Db, o: Id)
    requires DbOk(db) && ConsumeOutbox(db, o).Some?
    ensures DbOk(ConsumeOutbox(db, o).value) && Extends(db, ConsumeOutbox(db, o).value)
  {
    LinksStay(db, ConsumeOutbox(db, o).value);
    GrownIsOk(db, ConsumeOutbox(db, o).value);
  }

  /** What a handler between its two transitions knows about the rows it read. */
  ghost predicate DecisionOk(db: Db, d: Decision) {
    var c := d.stored.columns.challengeId;
    && c in db.challenges
    && ChallengeMoves(d.stored, db.challenges[c])
    && d.stored.columns == d.stored.payload
    && d.stored.columns.status == Pending
    && d.stored.columns.proposalId in db.proposals
    && db.proposals[d.stored.columns.proposalId].payload == d.proposal
    && (d.outcome.OutcomeApproved? ==> d.now < d.stored.columns.expiresAt && d.now < d.proposal.expiresAt)
    && d.enqueue == d.approver.TelegramUser?
    && (d.enqueue ==>
          && d.stored.columns.via == Telegram && d.stored.columns.scope == PaperScope
          && c in db.bindings && d.approver == TelegramUser(db.bindings[c].user))
  }

  lemma DecisionStays(db: Db, db': Db, d: Decision)
    requires Extends(db, db') && DecisionOk(db, d)
    ensures DecisionOk(db', d)
  {
    var c := d.stored.columns.challengeId;
    assert ChallengeMoves(db.challenges[c], db'.challenges[c]);
  }

  lemma CommitExtends(db: Db, d: Decision, eventId: Id, outboxId: Id)
    requires DbOk(db) && DecisionOk(db, d) && CommitDecision(db, d, eventId, outboxId).Some?
    ensures Extends(db, CommitDecision(db, d, eventId, outboxId).value)
  {
    var db' := CommitDecision(db, d, eventId, outboxId).value;
    var c := d.stored.columns.challengeId;
    assert ChallengeMoves(db.challenges[c], db'.challenges[c]);
  }

  lemma CommitKeys(db: Db, d: Decision, eventId: Id, outboxId: Id)
    requires DbOk(db) && DecisionOk(db, d) && CommitDecision(db, d, eventId, outboxId).Some?
    ensures var db' := CommitDecision(db, d, eventId, outboxId).value;
      ChallengeKeys(db') && EventKeys(db') && OutboxKeys(db')
  {
    var db' := CommitDecision(db, d, eventId, outboxId).value;
    var c := d.stored.columns.challengeId;
    forall e | e in db.events ensures db.events[e].columns.challengeId != c {
      assert EventOk(db, e);
    }
    assert EventKeys(db');
    assert ChallengeKeys(db');
  }

  lemma CommitNewRows(db: Db, d: Decision, eventId: Id, outboxId: Id)
    requires DbOk(db) && DecisionOk(db, d) && CommitDecision(db, d, eventId, outboxId).Some?
    ensures var db' := CommitDecision(db, d, eventId, outboxId).value;
      && EventOk(db', eventId)
      && (outboxId in db'.outbox && outboxId !in db.outbox ==> OutboxOk(db', outboxId))
  {
    var c := d.stored.columns.challengeId;
    assert ChallengeOk(db, c);
    assert ProposalOk(db, d.stored.columns.proposalId);
  }

  lemma CommitLinks(db: Db, d: Decision, eventId: Id, outboxId: Id)
    requires DbOk(db) && DecisionOk(db, d) && CommitDecision(db, d, eventId, outboxId).Some?
    ensures CommittedTogether(CommitDecision(db, d, eventId, outboxId).value)
  {
    var db' := CommitDecision(db, d, eventId, outboxId).value;
    CommitExtends(db, d, eventId, outboxId);
    assert db'.events[eventId].columns.challengeId == d.stored.columns.challengeId;
    assert HasEvent(db', d.stored.columns.challengeId);
    if d.outcome.OutcomeApproved? && d.approver.TelegramUser? {
      assert outboxId in db'.outbox && db'.outbox[outboxId].eventId == eventId;
      assert HasOutbox(db', eventId);
    }
    LinksStay(db, db');
  }

  lemma CommitKeeps(db: Db, d: Decision, eventId: Id, outboxId: Id)
    requires DbOk(db) && DecisionOk(db, d) && CommitDecision(db, d, eventId, outboxId).Some?
    ensures var db' := CommitDecision(db, d, eventId, outboxId).value; DbOk(db') && Extends(db, db')
  {
    CommitExtends(db, d, eventId, outboxId);
    CommitKeys(db, d, eventId, outboxId);
    CommitNewRows(db, d, eventId, outboxId);
    CommitLinks(db, d, eventId, outboxId);
    GrownIsOk(db, CommitDecision(db, d, eventId, outboxId).value);
  }

  // ---- The system invariant ---------------------------------------------------------------

  /** The chain of records behind one executor call. */
  ghost predicate Authorised(db: Db, d: External)
    requires d.Dispatched?
  {
    && d.outboxId in db.outbox
    && db.outbox[d.outboxId].eventId in db.events
    && var row := db.outbox[d.outboxId];
       var e := db.events[row.eventId].payload;
       && d.request == RequestFor(row, e)
       && e.challengeId in db.challenges && e.proposalId in db.proposals && e.challengeId in db.bindings
       && var c, p := db.challenges[e.challengeId].columns, db.proposals[e.proposalId].payload;
          && c.proposalId == e.proposalId && p.proposalId == e.proposalId
          && d.request.orderHash == e.orderHash == c.orderHash == p.orderHash == ComputeOrderHash(p)
          && e.outcome.OutcomeApproved? && e.via == c.via == Telegram && e.scope == c.scope == PaperScope
          && p.account == PaperAccount
          && e.approver == TelegramUser(db.bindings[e.challengeId].user)
          && e.approvedAt < c.expiresAt && e.approvedAt < p.expiresAt
          && e.approvedAt < c.createdAt + MAX_TTL
          && d.at < p.expiresAt
  }

  lemma AuthorisedStays(db: Db, db': Db, d: External)
    requires d.Dispatched? && Authorised(db, d) && Extends(db, db')
    ensures Authorised(db', d)
  {
    var row := db.outbox[d.outboxId];
    var e := db.events[row.eventId].payload;
    assert OutboxMoves(row, db'.outbox[d.outboxId]);
    assert ChallengeMoves(db.challenges[e.challengeId], db'.challenges[e.challengeId]);
  }

  /** Authorised calls only, and nothing about a row after it has been consumed. */
  ghost predicate TraceOk(db: Db, trace: seq<External>) {
    && (forall i | 0 <= i < |trace| :: trace[i].Dispatched? ==> Authorised(db, trace[i]))
    && (forall i | 0 <= i < |trace| :: trace[i].RowConsumed? ==>
          trace[i].outboxId in db.outbox && db.outbox[trace[i].outboxId].status == OutboxConsumed)
    && (forall i, j | 0 <= i < j < |trace| :: trace[i].RowConsumed? ==> trace[i].outboxId != trace[j].outboxId)
  }

  lemma TraceStays(db: Db, db': Db, trace: seq<External>)
    requires TraceOk(db, trace) && Extends(db, db')
    ensures TraceOk(db', trace)
  {
    forall i | 0 <= i < |trace| && trace[i].Dispatched? ensures Authorised(db', trace[i]) {
      AuthorisedStays(db, db', trace[i]);
    }
    forall i | 0 <= i < |trace| && trace[i].RowConsumed?
      ensures trace[i].outboxId in db'.outbox && db'.outbox[trace[i].outboxId].status == OutboxConsumed
    {
      assert OutboxMoves(db.outbox[trace[i].outboxId], db'.outbox[trace[i].outboxId]);
    }
  }

  /** A running handoff holds the lock of its row, which is still pending. */
  ghost predicate HandoffOk(s: System, x: nat) {
    s.Handoff(x).Dispatching? ==>
      var o := s.Handoff(x).outboxId;
      && o in s.locks && s.locks[o] == x
      && o in s.db.outbox && s.db.outbox[o].status == OutboxPending
  }

  ghost predicate Inv(s: System) {
    && DbOk(s.db)
    && (forall h {:trigger s.Handler(h)} :: s.Handler(h).Deciding? ==> DecisionOk(s.db, s.Handler(h).decision))
    && (forall x {:trigger HandoffOk(s, x)} :: HandoffOk(s, x))
    && TraceOk(s.db, s.trace)
  }

  /** Steps that only grow the tables, leaving outbox statuses, handoffs and trace alone. */
  lemma TablesGrow(s: System, s': System)
    requires Inv(s) && DbOk(s'.db) && Extends(s.db, s'.db)
    requires s'.handlers == s.handlers && s'.handoffs == s.handoffs && s'.locks == s.locks && s'.trace == s.trace
    requires forall o | o in s.db.outbox :: s'.db.outbox[o] == s.db.outbox[o]
    ensures Inv(s')
  {
    TraceStays(s.db, s'.db, s.trace);
    forall h ensures s'.Handler(h).Deciding? ==> DecisionOk(s'.db, s'.Handler(h).decision) {
      assert s'.Handler(h) == s.Handler(h);
      if s.Handler(h).Deciding? {
        DecisionStays(s.db, s'.db, s.Handler(h).decision);
      }
    }
    forall x ensures HandoffOk(s', x) {
      assert HandoffOk(s, x);
      assert s'.Handoff(x) == s.Handoff(x);
    }
  }

  lemma ReadDecisionOk(db: Db, c: Id, approved: bool, approver: Approver, enqueue: bool, now: int)
    requires DbOk(db) && c in db.challenges
    requires enqueue == approver.TelegramUser?
    requires enqueue ==>
      && db.challenges[c].columns.via == Telegram && db.challenges[c].columns.scope == PaperScope
      && c in db.bindings && approver == TelegramUser(db.bindings[c].user)
    ensures var r := ReadDecision(db, db.challenges[c], approved, approver, enqueue, now);
      r.Decide? ==> DecisionOk(db, r.decision)
  {
    assert ChallengeOk(db, c);
  }

  lemma ReceiveKeeps(s: System, h: nat, r: ReadResult)
    requires Inv(s) && (r.Decide? ==> DecisionOk(s.db, r.decision))
    ensures Inv(Receive(s, h, r))
  {
    var s' := Receive(s, h, r);
    forall x ensures HandoffOk(s', x) {
      assert HandoffOk(s, x);
      assert s'.Handoff(x) == s.Handoff(x);
    }
    forall g ensures s'.Handler(g).Deciding? ==> DecisionOk(s'.db, s'.Handler(g).decision) {
      assert g != h ==> s'.Handler(g) == s.Handler(g);
    }
  }

  lemma HandlerRestsKeeps(s: System, h: nat)
    requires Inv(s)
    ensures Inv(s.(handlers := s.handlers[h := Resting]))
  {
    var s' := s.(handlers := s.handlers[h := Resting]);
    forall x ensures HandoffOk(s', x) {
      assert HandoffOk(s, x);
      assert s'.Handoff(x) == s.Handoff(x);
    }
    forall g ensures s'.Handler(g).Deciding? ==> DecisionOk(s'.db, s'.Handler(g).decision) {
      assert g != h ==> s'.Handler(g) == s.Handler(g);
    }
  }

  lemma CommitStepKeeps(s: System, h: nat, eventId: Id, outboxId: Id)
    requires Inv(s)
    ensures Inv(Apply(s, CommitTransaction(h, eventId, outboxId)))
  {
    if s.Handler(h).Deciding? {
      var d := s.Handler(h).decision;
      HandlerRestsKeeps(s, h);
      var rested := s.(handlers := s.handlers[h := Resting]);
      if CommitDecision(s.db, d, eventId, outboxId).Some? {
        CommitKeeps(s.db, d, eventId, outboxId);
        TablesGrow(rested, Apply(s, CommitTransaction(h, eventId, outboxId)));
      }
    }
  }

  /** Consuming a row that no running handoff holds. */
  lemma ConsumeStepKeeps(s: System, o: Id)
    requires Inv(s) && o !in s.locks
    ensures Inv(Consume(s, o))
  {
    var r := ConsumeOutbox(s.db, o);
    if r.Some? {
      var s' := Consume(s, o);
      ConsumeKeeps(s.db, o);
      TraceStays(s.db, s'.db, s.trace);
      forall i, j | 0 <= i < j < |s'.trace| && s'.trace[i].RowConsumed?
        ensures s'.trace[i].outboxId != s'.trace[j].outboxId
      {
        assert s'.trace[i] == s.trace[i];
      }
      forall h ensures s'.Handler(h).Deciding? ==> DecisionOk(s'.db, s'.Handler(h).decision) {
        assert s'.Handler(h) == s.Handler(h);
        if s.Handler(h).Deciding? {
          DecisionStays(s.db, s'.db, s.Handler(h).decision);
        }
      }
      forall x ensures HandoffOk(s', x) {
        assert HandoffOk(s, x);
        assert s'.Handoff(x) == s.Handoff(x);
      }
    }
  }

  lemma UnlockKeeps(s: System, x: nat)
    requires Inv(s) && s.Handoff(x).Dispatching?
    ensures Inv(Unlock(s, x)) && s.Handoff(x).outboxId !in Unlock(s, x).locks
  {
    var s' := Unlock(s, x);
    assert HandoffOk(s, x);
    forall y ensures HandoffOk(s', y) {
      assert HandoffOk(s, y);
      assert y != x ==> s'.Handoff(y) == s.Handoff(y);
    }
    forall h ensures s'.Handler(h).Deciding? ==> DecisionOk(s'.db, s'.Handler(h).decision) {
      assert s'.Handler(h) == s.Handler(h);
    }
  }

  /** An unrefused pending row carries exactly the records that authorise its dispatch. */
  lemma UnrefusedIsAuthorised(db: Db, o: Id, now: int)
    requires DbOk(db) && o in db.outbox && HandoffRejection(db, db.outbox[o], now).None?
    ensures Authorised(db, Dispatched(o, RequestFor(db.outbox[o], db.events[db.outbox[o].eventId].payload), now))
  {
    assert OutboxOk(db, o);
    var row := db.outbox[o];
    assert EventOk(db, row.eventId);
    var e := db.events[row.eventId].payload;
    assert ChallengeOk(db, e.challengeId);
    assert ProposalOk(db, e.proposalId);
  }

  lemma BeginKeeps(s: System, x: nat, o: Id, now: int)
    requires Inv(s)
    ensures Inv(Begin(s, x, o, now))
  {
    var s' := Begin(s, x, o, now);
    if s.Handoff(x).Waiting? && o !in s.locks && o in s.db.outbox && s.db.outbox[o].status == OutboxPending {
      if HandoffRejection(s.db, s.db.outbox[o], now).Some? {
        ConsumeStepKeeps(s, o);
      } else {
        UnrefusedIsAuthorised(s.db, o, now);
        forall y ensures HandoffOk(s', y) {
          assert HandoffOk(s, y);
          assert y != x ==> s'.Handoff(y) == s.Handoff(y);
        }
        forall h ensures s'.Handler(h).Deciding? ==> DecisionOk(s'.db, s'.Handler(h).decision) {
          assert s'.Handler(h) == s.Handler(h);
        }
        DispatchTraceKeeps(s.db, s.trace, s'.trace[|s.trace|]);
      }
    }
  }

  lemma DispatchTraceKeeps(db: Db, trace: seq<External>, d: External)
    requires TraceOk(db, trace) && d.Dispatched? && Authorised(db, d) && db.outbox[d.outboxId].status == OutboxPending
    ensures TraceOk(db, trace + [d])
  {
    var trace' := trace + [d];
    forall i, j | 0 <= i < j < |trace'| && trace'[i].RowConsumed? ensures trace'[i].outboxId != trace'[j].outboxId {
      assert trace'[i] == trace[i];
    }
  }

  lemma HandoffStepKeeps(s: System, step: Step)
    requires Inv(s) && (step.BeginHandoff? || step.FinishHandoff? || step.HandoffCrash?)
    ensures Inv(Apply(s, step))
  {
    match step {
      case BeginHandoff(x, o, now) => BeginKeeps(s, x, o, now);
      case FinishHandoff(x, execution) =>
        if s.Handoff(x).Dispatching? {
          UnlockKeeps(s, x);
          ConsumeStepKeeps(Unlock(s, x), s.Handoff(x).outboxId);
        }
      case HandoffCrash(x) =>
        if s.Handoff(x).Dispatching? {
          UnlockKeeps(s, x);
        }
    }
  }

  lemma TableStepKeeps(s: System, step: Step)
    requires Inv(s) && (step.IssueChallenge? || step.BindMessage?)
    ensures Inv(Apply(s, step))
  {
    match step {
      case IssueChallenge(q) =>
        if CreateProposalAndChallenge(s.db, q).Ok? {
          IssueKeeps(s.db, q);
          TablesGrow(s, Apply(s, step));
        }
      case BindMessage(d) =>
        BindKeeps(s.db, d);
        TablesGrow(s, Apply(s, step));
    }
  }

  lemma ReadStepKeeps(s: System, step: Step)
    requires Inv(s) && (step.ReceiveCallback? || step.ReceiveDirect?)
    ensures Inv(Apply(s, step))
  {
    match step {
      case ReceiveCallback(h, cb, now) =>
        ReadCallbackOk(s.db, cb, now);
        ReceiveKeeps(s, h, ReadCallback(s.db, cb, now));
      case ReceiveDirect(h, token, approved, name, now) =>
        ReadDirectOk(s.db, token, approved, name, now);
        ReceiveKeeps(s, h, ReadDirect(s.db, token, approved, name, now));
    }
  }

  lemma StepKeeps(s: System, step: Step)
    requires Inv(s)
    ensures Inv(Apply(s, step))
  {
    match step {
      case IssueChallenge(_) => TableStepKeeps(s, step);
      case BindMessage(_) => TableStepKeeps(s, step);
      case ReceiveCallback(_, _, _) => ReadStepKeeps(s, step);
      case ReceiveDirect(_, _, _, _, _) => ReadStepKeeps(s, step);
      case CommitTransaction(h, eventId, outboxId) => CommitStepKeeps(s, h, eventId, outboxId);
      case HandlerCrash(h) => HandlerRestsKeeps(s, h);
      case _ => HandoffStepKeeps(s, step);
    }
  }

  lemma ExtendsItself(db: Db)
    ensures Extends(db, db)
  {
  }

  lemma ConsumeExtends(s: System, o: Id)
    requires Inv(s)
    ensures Extends(s.db, Consume(s, o).db)
  {
    ExtendsItself(s.db);
    if ConsumeOutbox(s.db, o).Some? {
      ConsumeKeeps(s.db, o);
    }
  }

  /** No step removes or rewrites a committed row beyond the allowed status changes. */
  lemma StepExtends(s: System, step: Step)
    requires Inv(s)
    ensures Extends(s.db, Apply(s, step).db)
  {
    ExtendsItself(s.db);
    if step.IssueChallenge? {
      if CreateProposalAndChallenge(s.db, step.issue).Ok? {
        IssueExtends(s.db, step.issue);
      }
    } else if step.BindMessage? {
      BindExtends(s.db, step.delivery);
    } else if step.CommitTransaction? {
      if s.Handler(step.h).Deciding? {
        var d := s.Handler(step.h).decision;
        if CommitDecision(s.db, d, step.eventId, step.newOutboxId).Some? {
          CommitExtends(s.db, d, step.eventId, step.newOutboxId);
        }
      }
    } else if step.BeginHandoff? {
      ConsumeExtends(s, step.outboxId);
    } else if step.FinishHandoff? {
      if s.Handoff(step.x).Dispatching? {
        UnlockKeeps(s, step.x);
        ConsumeExtends(Unlock(s, step.x), s.Handoff(step.x).outboxId);
      }
    } else {
      assert Apply(s, step).db == s.db;
    }
  }

  lemma ReadCallbackOk(db: Db, cb: Callback, now: int)
    requires DbOk(db)
    ensures ReadCallback(db, cb, now).Decide? ==> DecisionOk(db, ReadCallback(db, cb, now).decision)
  {
    var token := DecodeToken(cb.data);
    if token.Some? {
      forall c | IsChallengeWithNonce(db, c, NonceHash(token.value)) && c in db.bindings
          && BindingMatches(db.bindings[c], db.challenges[c].columns, cb)
          && db.challenges[c].columns.via == Telegram && db.challenges[c].columns.scope == PaperScope
        ensures var r := ReadDecision(db, db.challenges[c], true, TelegramUser(cb.sender), true, now);
          r.Decide? ==> DecisionOk(db, r.decision)
      {
        ReadDecisionOk(db, c, true, TelegramUser(cb.sender), true, now);
      }
    }
  }

  lemma ReadDirectOk(db: Db, token: string, approved: bool, name: string, now: int)
    requires DbOk(db)
    ensures var r := ReadDirect(db, token, approved, name, now); r.Decide? ==> DecisionOk(db, r.decision)
  {
    forall c | IsChallengeWithNonce(db, c, NonceHash(token))
      ensures var r := ReadDecision(db, db.challenges[c], approved, OtherApprover(name), false, now);
        r.Decide? ==> DecisionOk(db, r.decision)
    {
      ReadDecisionOk(db, c, approved, OtherApprover(name), false, now);
    }
  }

  lemma {:induction false} RunInvariant(steps: seq<Step>)
    ensures Inv(Run(steps))
  {
    if steps != [] {
      RunInvariant(steps[..|steps|-1]);
      StepKeeps(Run(steps[..|steps|-1]), steps[|steps|-1]);
    }
  }

  // ---- Theorems ---------------------------------------------------------------------------

  /** A risk decision is bound by at most one proposal, which has at most one challenge. */
  lemma RiskDecisionBindsOneProposal(steps: seq<Step>, p: Id, q: Id, c: Id, d: Id)
    ensures var db := Run(steps).db;
      && (p in db.proposals && q in db.proposals ==>
            db.proposals[p].payload.riskDecisionId == db.proposals[q].payload.riskDecisionId ==> p == q)
      && (c in db.challenges && d in db.challenges ==>
            db.challenges[c].columns.proposalId == db.challenges[d].columns.proposalId ==> c == d)
  {
    RunInvariant(steps);
    var db := Run(steps).db;
    if p in db.proposals && q in db.proposals {
      assert ProposalOk(db, p) && ProposalOk(db, q);
    }
  }

  /** Event and outbox row commit together: a decided challenge has its event, an approval its row. */
  lemma DecisionIsDurable(steps: seq<Step>, c: Id, e: Id)
    ensures var db := Run(steps).db;
      && (c in db.challenges && db.challenges[c].columns.status != Pending ==> HasEvent(db, c))
      && (e in db.events ==>
            db.events[e].columns.outcome.OutcomeApproved? && db.events[e].columns.approver.TelegramUser?
            ==> HasOutbox(db, e))
  {
    RunInvariant(steps);
  }

  /** At most one event per challenge, whatever the races, and at most one outbox row per event. */
  lemma ChallengeYieldsOneEvent(steps: seq<Step>, e: Id, f: Id, o: Id, r: Id)
    ensures var db := Run(steps).db;
      && (e in db.events && f in db.events ==>
            db.events[e].columns.challengeId == db.events[f].columns.challengeId ==> e == f)
      && (o in db.outbox && r in db.outbox && db.outbox[o].eventId == db.outbox[r].eventId ==> o == r)
  {
    RunInvariant(steps);
  }

  /** A row is consumed at most once, and no executor call for it follows. */
  lemma ConsumedRowsAreSilent(steps: seq<Step>, i: nat, j: nat)
    requires i < j < |Run(steps).trace| && Run(steps).trace[i].RowConsumed?
    ensures Run(steps).trace[i].outboxId != Run(steps).trace[j].outboxId
  {
    RunInvariant(steps);
  }

  /** Every executor call rests on a timely Telegram approval of exactly the order it carries. */
  lemma EveryDispatchAuthorised(steps: seq<Step>, i: nat)
    requires i < |Run(steps).trace| && Run(steps).trace[i].Dispatched?
    ensures Authorised(Run(steps).db, Run(steps).trace[i])
  {
    RunInvariant(steps);
  }

  /** Repeated calls for one row are identical; calls for different rows never share an id. */
  lemma DispatchIdentity(steps: seq<Step>, i: nat, j: nat)
    requires i < |Run(steps).trace| && Run(steps).trace[i].Dispatched?
    requires j < |Run(steps).trace| && Run(steps).trace[j].Dispatched?
    ensures var a, b := Run(steps).trace[i], Run(steps).trace[j];
      && (a.outboxId == b.outboxId ==> a.request == b.request)
      && (a.outboxId != b.outboxId ==>
            && a.request.idempotencyId != b.request.idempotencyId
            && a.request.commandId != b.request.commandId
            && a.request.clientOrderId != b.request.clientOrderId)
  {
    RunInvariant(steps);
    var s := Run(steps);
    assert Authorised(s.db, s.trace[i]) && Authorised(s.db, s.trace[j]);
    assert OutboxOk(s.db, s.trace[i].outboxId) && OutboxOk(s.db, s.trace[j].outboxId);
  }

  /** The executor contract: among calls with one idempotency id at most one takes effect. */
  ghost predicate IdempotentExecutor(trace: seq<External>, effective: set<nat>) {
    && (forall i | i in effective :: i < |trace| && trace[i].Dispatched?)
    && (forall i, j | i in effective && j in effective ::
          trace[i].request.idempotencyId == trace[j].request.idempotencyId ==> i == j)
  }

  function RiskDecisionOf(db: Db, d: External): Option<Id> {
    if d.Dispatched? && d.request.proposalId in db.proposals
    then Some(db.proposals[d.request.proposalId].payload.riskDecisionId) else None
  }

  /**
   Exactly-once, end to end: with an idempotent executor one risk decision causes at most one
   effect, however callbacks are redelivered, handlers race, and handoffs crash and repeat.
   */
  lemma OneEffectPerRiskDecision(steps: seq<Step>, effective: set<nat>, i: nat, j: nat)
    requires IdempotentExecutor(Run(steps).trace, effective)
    requires i in effective && j in effective
    requires RiskDecisionOf(Run(steps).db, Run(steps).trace[i]) == RiskDecisionOf(Run(steps).db, Run(steps).trace[j])
    ensures i == j
  {
    RunInvariant(steps);
    var s := Run(steps);
    var a, b := s.trace[i], s.trace[j];
    assert Authorised(s.db, a) && Authorised(s.db, b);
    var ea, eb := s.db.outbox[a.outboxId].eventId, s.db.outbox[b.outboxId].eventId;
    assert OutboxOk(s.db, a.outboxId) && OutboxOk(s.db, b.outboxId);
    assert EventOk(s.db, ea) && EventOk(s.db, eb);
    var pa, pb := s.db.events[ea].payload.proposalId, s.db.events[eb].payload.proposalId;
    RiskDecisionBindsOneProposal(steps, pa, pb,
      s.db.events[ea].payload.challengeId, s.db.events[eb].payload.challengeId);
    ChallengeYieldsOneEvent(steps, ea, eb, a.outboxId, b.outboxId);
    DispatchIdentity(steps, i, j);
  }

  /** No refusal of a pending row other than expiry is reachable: it dispatches iff in time. */
  lemma PendingRowDispatchesIffInTime(steps: seq<Step>, o: Id, now: int)
    requires o in Run(steps).db.outbox
    ensures var db := Run(steps).db;
      && db.outbox[o].proposalId in db.proposals
      && var p := db.proposals[db.outbox[o].proposalId].payload;
         HandoffRejection(db, db.outbox[o], now) == if now < p.expiresAt then None else Some(ProposalExpired)
  {
    RunInvariant(steps);
    var db := Run(steps).db;
    assert OutboxOk(db, o);
    var e := db.events[db.outbox[o].eventId].columns;
    assert EventOk(db, db.outbox[o].eventId);
    assert ChallengeOk(db, e.challengeId);
    assert ProposalOk(db, e.proposalId);
  }

  /** A callback of the bound user approves its pending challenge iff the challenge is unexpired. */
  lemma BoundCallbackApprovesIffInTime(steps: seq<Step>, c: Id, cb: Callback, now: int)
    requires c in Run(steps).db.challenges && c in Run(steps).db.bindings
    requires var db := Run(steps).db;
      && db.challenges[c].columns.status == Pending
      && db.challenges[c].columns.via == Telegram
      && BindingMatches(db.bindings[c], db.challenges[c].columns, cb)
      && DecodeToken(cb.data) == Some(db.challenges[c].columns.nonceHash.token)
    ensures var db := Run(steps).db;
      var r := ReadCallback(db, cb, now);
      && r.Decide? && r.decision.stored == db.challenges[c]
      && r.decision.outcome == if now < db.challenges[c].columns.expiresAt then OutcomeApproved else OutcomeExpired
  {
    RunInvariant(steps);
    var db := Run(steps).db;
    var token := db.challenges[c].columns.nonceHash.token;
    assert IsChallengeWithNonce(db, c, NonceHash(token));
    forall x | IsChallengeWithNonce(db, x, NonceHash(token)) ensures x == c {
    }
    assert ChallengeOk(db, c);
    assert ProposalOk(db, db.challenges[c].columns.proposalId);
  }
}
