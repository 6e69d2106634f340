/** What issuing, binding, deciding and handing off answer and write, said over the rows themselves. */
module ApprovalLaws {
  import opened Common
  import opened ApprovalTables
  import opened Approval
  import opened ApprovalTheorems

  function ErrorOf<T, E>(r: Result<T, E>): Option<E> {
    match r
    case Ok(_) => None
    case Err(e) => Some(e)
  }

  // ---- Issuing ----------------------------------------------------------------------------

  /** The checks on the request and on the risk decision, in their order. */
  function RequestChecks(q: Issue): seq<Check<ServiceError>> {
    var c, r, x := q.candidate, q.risk, q.context;
    [Check((q.via.Telegram? && q.scope.LiveScope?) || (q.via.WebAuthn? && q.scope.PaperScope?), ForbiddenApprovalScope),
     Check(q.ttl < 60 || 120 < q.ttl, InvalidTtl),
     Check(!r.consistent, RiskOutputInvalid),
     Check(r.outcome.RiskNeedsReview? || r.outcome.RiskRejected?, RiskNotApproved),
     Check(r.candidateId.None? || r.candidateId.value != c.candidateId, RiskCandidateMismatch),
     Check(x.phase.PretradePhase?, RiskPhaseMismatch),
     Check(x.riskDecisionId != r.riskDecisionId, RiskContextMismatch),
     Check(r.decidedAt != x.asOf, RiskDecisionTimeMismatch)]
  }

  /** The checks on digests, account, proposal and expiry, which follow. */
  function BindingChecks(q: Issue): seq<Check<ServiceError>> {
    var c, r, x := q.candidate, q.risk, q.context;
    [Check(x.candidate != c, RiskCandidateMismatch),
     Check(r.inputDigest != x, RiskInputDigestMismatch),
     Check(r.configDigest != x.config, RiskConfigDigestMismatch),
     Check(r.ruleSet != x.config.ruleSet, RiskConfigMismatch),
     Check(c.account != (if q.scope.PaperScope? then PaperAccount else AgenticAccount), AccountScopeMismatch),
     Check(r.proposalId.Some? && r.proposalId.value != q.proposalId, RiskProposalMismatch),
     Check(c.expiresAt < q.now + q.ttl, ProposalExpiresTooSoon)]
  }

  /** Some row already has the proposal id, the order hash, the challenge id or the nonce. */
  ghost predicate KeyTaken(db: Db, q: Issue) {
    || q.proposalId in db.proposals || q.challengeId in db.challenges
    || (exists p :: p in db.proposals
          && db.proposals[p].columns.orderHash
             == OrderHash(q.candidate.terms, q.candidate.expiresAt, q.candidate.account))
    || (exists c :: c in db.challenges && db.challenges[c].columns.nonceHash == NonceHash(q.token))
  }

  lemma RequestAnswersFirst(q: Issue)
    ensures AnswersFirst(RequestChecks(q) + BindingChecks(q), IssueRejection(q))
  {
    var first, second := RequestChecks(q), BindingChecks(q);
    var all := first + second;
    assert |first| == 8 && |second| == 7;
    assert all[0] == first[0] && all[1] == first[1] && all[2] == first[2] && all[3] == first[3];
    assert all[4] == first[4] && all[5] == first[5] && all[6] == first[6] && all[7] == first[7];
    assert all[8] == second[0] && all[9] == second[1] && all[10] == second[2] && all[11] == second[3];
    assert all[12] == second[4] && all[13] == second[5] && all[14] == second[6];
  }

  /** A challenge is issued if and only if every check passes, the risk decision is unclaimed and no key is taken;
   otherwise the error is that of the first thing in this order that fails, and nothing is written. */
  lemma IssuesIff(db: Db, q: Issue)
    ensures var checks := RequestChecks(q) + BindingChecks(q)
                          + [Check(q.risk.riskDecisionId in db.risk, RiskDecisionAlreadyUsed),
                             Check(KeyTaken(db, q), UniqueKeyConflict)];
      AnswersFirst(checks, ErrorOf(CreateProposalAndChallenge(db, q)))
  {
    var checks := RequestChecks(q) + BindingChecks(q);
    var last :=
      [Check(q.risk.riskDecisionId in db.risk, RiskDecisionAlreadyUsed), Check(KeyTaken(db, q), UniqueKeyConflict)];
    var all := checks + last;
    RequestAnswersFirst(q);
    assert all[15] == last[0] && all[16] == last[1];
    assert forall j | 0 <= j < 15 :: all[j] == checks[j];
    assert KeyTaken(db, q) <==>
      var p := BuildProposal(q.candidate, q.risk.riskDecisionId, q.proposalId);
      p.proposalId in db.proposals || OrderHashTaken(db, p.orderHash) || q.challengeId in db.challenges
      || NonceTaken(db, NonceHash(q.token));
    if NoFailure(all) {
      assert forall j | 0 <= j < 15 :: !all[j].fails;
      assert NoFailure(checks);
    }
    forall i: nat | FirstFailure(all, i) ensures ErrorOf(CreateProposalAndChallenge(db, q)) == Some(all[i].error) {
      if i < 15 {
        assert FirstFailure(checks, i);
      } else {
        assert forall j | 0 <= j < 15 :: !all[j].fails;
        assert NoFailure(checks);
        assert i > 15 ==> !all[15].fails;
      }
    }
  }

  /** The columns repeat the document's fields. */
  predicate ColumnsRepeat(k: ProposalColumns, p: Proposal) {
    && k.proposalId == p.proposalId && k.signalId == p.signalId && k.candidateId == p.candidateId
    && k.riskDecisionId == p.riskDecisionId && k.account == p.account && k.orderHash == p.orderHash
    && k.instrument == p.terms.instrument && k.symbol == p.terms.symbol && k.currency == p.terms.currency
    && k.side == p.terms.side && k.quantity == p.terms.quantity && k.limitPrice == p.terms.limitPrice
    && k.strategy == p.terms.strategy && k.strategyVersion == p.terms.strategyVersion
    && k.createdAt == p.createdAt && k.expiresAt == p.expiresAt
  }

  /** What issuing writes. */
  lemma IssueWrites(db: Db, q: Issue)
    requires CreateProposalAndChallenge(db, q).Ok?
    ensures var db' := CreateProposalAndChallenge(db, q).value;
      var c := q.candidate;
      var hash := OrderHash(c.terms, c.expiresAt, c.account);
      var challenge := Challenge(V1_1, q.challengeId, q.proposalId, hash, q.via, q.scope, NonceHash(q.token), q.now,
                                 q.now + q.ttl, Pending);
      && db'.risk == db.risk[q.risk.riskDecisionId := q.proposalId]
      && db'.proposals.Keys == db.proposals.Keys + {q.proposalId}
      && (forall p | p in db.proposals :: db'.proposals[p] == db.proposals[p])
      && db'.proposals[q.proposalId].payload
         == Proposal(q.proposalId, q.risk.riskDecisionId, c.candidateId, c.signalId, c.account, c.terms, c.createdAt,
                     c.expiresAt, hash)
      && ColumnsRepeat(db'.proposals[q.proposalId].columns, db'.proposals[q.proposalId].payload)
      && db'.challenges == db.challenges[q.challengeId := ChallengeRow(challenge, challenge, 1)]
      && db'.events == db.events && db'.bindings == db.bindings && db'.outbox == db.outbox
  {
  }

  // ---- Binding ----------------------------------------------------------------------------

  /** A delivered message is bound if and only if it carries the nonce and the hash of a pending, unexpired paper
   challenge of its proposal, and neither the challenge nor the message is bound yet. */
  lemma BindsIff(db: Db, d: Delivery)
    ensures var db' := BindDelivery(db, d);
      var bindable :=
        && d.challengeId in db.challenges && d.proposal.proposalId in db.proposals
        && var c, p := db.challenges[d.challengeId].columns, db.proposals[d.proposal.proposalId].columns;
           && c.status == Pending && c.via.Telegram? && c.scope.PaperScope?
           && c.proposalId == d.proposal.proposalId && c.nonceHash.token == d.token
           && c.orderHash == d.proposal.orderHash == p.orderHash
           && d.boundAt < c.expiresAt && d.boundAt < p.expiresAt
           && d.challengeId !in db.bindings
           && forall x | x in db.bindings ::
                (db.bindings[x].environment, db.bindings[x].chat, db.bindings[x].message)
                != (d.environment, d.chat, d.message);
      && (!bindable ==> db' == db)
      && (bindable ==>
            db' == db.(bindings := db.bindings[d.challengeId :=
              Binding(d.challengeId, d.proposal.proposalId, d.proposal.orderHash, d.environment, d.user, d.chat,
                      d.message, d.boundAt)]))
  {
  }

  // ---- Tokens -----------------------------------------------------------------------------

  /** The value of a URL-safe base64 digit. */
  function Digit(c: char): Option<nat> {
    if 'A' <= c <= 'Z' then Some((c - 'A') as nat)
    else if 'a' <= c <= 'z' then Some((c - 'a') as nat + 26)
    else if '0' <= c <= '9' then Some((c - '0') as nat + 52)
    else if c == '-' then Some(62)
    else if c == '_' then Some(63)
    else None
  }

  /** A token is accepted if and only if it has 43 base64 digits whose 258 bits are 256 and two zero bits, which
   is how exactly 32 bytes encode. */
  lemma TokenIsCanonical(data: string)
    ensures DecodeToken(data) ==
      if |data| == 43 && (forall i | 0 <= i < 43 :: Digit(data[i]).Some?) && Digit(data[42]).value % 4 == 0
      then Some(data) else None
  {
    forall i | 0 <= i < |data| ensures UrlSafe(data[i]) <==> Digit(data[i]).Some? {
    }
    if |data| == 43 {
      LastDigit(data[42]);
    }
  }

  lemma LastDigit(c: char)
    ensures c in "AEIMQUYcgkosw048" <==> Digit(c).Some? && Digit(c).value % 4 == 0
  {
  }

  // ---- Reading a decision -----------------------------------------------------------------

  /** The callback comes from the bound user, chat and message and carries the challenge's token. */
  predicate Names(db: Db, cb: Callback, c: Id) {
    && c in db.challenges && c in db.bindings
    && var row, b := db.challenges[c].columns, db.bindings[c];
       && DecodeToken(cb.data) == Some(row.nonceHash.token)
       && row.via.Telegram? && row.scope.PaperScope?
       && b.environment == cb.environment && b.user == cb.sender && b.chat == cb.chat && b.message == cb.message
       && b.challengeId == row.challengeId && b.proposalId == row.proposalId && b.orderHash == row.orderHash
  }

  /** What a decision made now on challenge `c` says. */
  ghost predicate Decides(db: Db, c: Id, r: ReadResult, approved: bool, approver: Approver, enqueue: bool, now: int)
    requires c in db.challenges
  {
    var row := db.challenges[c];
    if row.columns.status != Pending then r == AnswerAlreadyUsed
    else
      && r.Decide? && r.decision.stored == row && r.decision.now == now && r.decision.approver == approver
      && r.decision.enqueue == enqueue && row.columns.proposalId in db.proposals
      && r.decision.proposal == db.proposals[row.columns.proposalId].payload
      && var late := row.columns.expiresAt <= now || r.decision.proposal.expiresAt <= now;
         && (r.decision.outcome.OutcomeExpired? <==> late)
         && (r.decision.outcome.OutcomeApproved? <==> !late && approved)
         && (r.decision.outcome.OutcomeDenied? <==> !late && !approved)
  }

  lemma ReadDecides(db: Db, c: Id, approved: bool, approver: Approver, enqueue: bool, now: int)
    requires DbOk(db) && c in db.challenges
    ensures Decides(db, c, ReadDecision(db, db.challenges[c], approved, approver, enqueue, now), approved, approver,
                    enqueue, now)
  {
    assert ChallengeOk(db, c);
    assert ProposalOk(db, db.challenges[c].columns.proposalId);
  }

  lemma OneNonce(db: Db, c: Id, x: Id, n: NonceHash)
    requires DbOk(db) && IsChallengeWithNonce(db, c, n) && IsChallengeWithNonce(db, x, n)
    ensures x == c
  {
  }

  /** In every reachable state a callback is invalid if and only if it names no challenge; one that names a decided
   challenge is already used, and one that names a pending challenge approves it, or expires it from either expiry
   on.  It never fails to load a row. */
  lemma CallbackAnswers(steps: seq<Step>, cb: Callback, now: int)
    ensures var db := Run(steps).db;
      var r := ReadCallback(db, cb, now);
      && (r.AnswerInvalid? <==> forall c :: !Names(db, cb, c))
      && (forall c :: Names(db, cb, c) ==> Decides(db, c, r, true, TelegramUser(cb.sender), true, now))
  {
    RunInvariant(steps);
    var db := Run(steps).db;
    forall c | Names(db, cb, c)
      ensures Decides(db, c, ReadCallback(db, cb, now), true, TelegramUser(cb.sender), true, now)
      ensures !ReadCallback(db, cb, now).AnswerInvalid? {
      NamedIsRead(db, cb, now, c);
    }
    if !ReadCallback(db, cb, now).AnswerInvalid? {
      ReadIsNamed(db, cb, now);
    }
  }

  lemma NamedIsRead(db: Db, cb: Callback, now: int, c: Id)
    requires DbOk(db) && Names(db, cb, c)
    ensures Decides(db, c, ReadCallback(db, cb, now), true, TelegramUser(cb.sender), true, now)
    ensures !ReadCallback(db, cb, now).AnswerInvalid?
  {
    var nonce := NonceHash(DecodeToken(cb.data).value);
    assert IsChallengeWithNonce(db, c, nonce);
    forall x | IsChallengeWithNonce(db, x, nonce) ensures x == c {
      OneNonce(db, c, x, nonce);
    }
    ReadDecides(db, c, true, TelegramUser(cb.sender), true, now);
  }

  lemma ReadIsNamed(db: Db, cb: Callback, now: int)
    requires DbOk(db) && !ReadCallback(db, cb, now).AnswerInvalid?
    ensures exists c :: Names(db, cb, c)
  {
    var nonce := NonceHash(DecodeToken(cb.data).value);
    var c :| IsChallengeWithNonce(db, c, nonce);
    forall x | IsChallengeWithNonce(db, x, nonce) ensures x == c {
      OneNonce(db, c, x, nonce);
    }
    assert Names(db, cb, c);
  }

  /** In every reachable state a direct decision with a token is invalid if and only if no challenge has it; on a
   decided challenge it is already used, and on a pending one it expires it from either expiry on, and before
   that approves it exactly if the caller said yes. */
  lemma DirectAnswers(steps: seq<Step>, token: string, approved: bool, name: string, now: int)
    ensures var db := Run(steps).db;
      var r := ReadDirect(db, token, approved, name, now);
      && (r.AnswerInvalid? <==> forall c :: c in db.challenges ==> db.challenges[c].columns.nonceHash.token != token)
      && (forall c :: c in db.challenges && db.challenges[c].columns.nonceHash.token == token ==>
            Decides(db, c, r, approved, OtherApprover(name), false, now))
  {
    RunInvariant(steps);
    var db := Run(steps).db;
    forall c | c in db.challenges && db.challenges[c].columns.nonceHash.token == token
      ensures Decides(db, c, ReadDirect(db, token, approved, name, now), approved, OtherApprover(name), false, now)
      ensures !ReadDirect(db, token, approved, name, now).AnswerInvalid? {
      assert IsChallengeWithNonce(db, c, NonceHash(token));
      forall x | IsChallengeWithNonce(db, x, NonceHash(token)) ensures x == c {
        OneNonce(db, c, x, NonceHash(token));
      }
      ReadDecides(db, c, approved, OtherApprover(name), false, now);
    }
    if c :| IsChallengeWithNonce(db, c, NonceHash(token)) {
      assert db.challenges[c].columns.nonceHash.token == token;
    }
  }

  /** A stored challenge and its proposal load if and only if each document is valid by itself, equals its columns, and
   the two carry one hash. */
  lemma LoadsIff(db: Db, row: ChallengeRow, c: Challenge)
    ensures LoadChallenge(row).Some? <==>
      && (row.payload.via.Telegram? <==> row.payload.scope.PaperScope?)
      && row.payload.createdAt < row.payload.expiresAt && row.payload == row.columns
    ensures LoadChallenge(row).Some? ==> LoadChallenge(row).value == row.columns
    ensures var p := LoadBoundProposal(db, c);
      && (p.Some? <==>
            && c.proposalId in db.proposals
            && var stored := db.proposals[c.proposalId];
               && stored.payload.orderHash
                  == OrderHash(stored.payload.terms, stored.payload.expiresAt, stored.payload.account)
               && ColumnsRepeat(stored.columns, stored.payload) && stored.payload.orderHash == c.orderHash)
      && (p.Some? ==> p.value == db.proposals[c.proposalId].payload)
  {
  }

  /** An answer is late from either expiry on; in time it is what the caller said. */
  lemma OutcomeIs(c: Challenge, p: Proposal, approved: bool, now: int)
    ensures var outcome := DecideOutcome(c, p, approved, now);
      && (outcome.OutcomeExpired? <==> c.expiresAt <= now || p.expiresAt <= now)
      && (outcome.OutcomeApproved? ==> approved) && (outcome.OutcomeDenied? ==> !approved)
  {
  }

  // ---- Committing a decision --------------------------------------------------------------

  /** The status a challenge document of this schema takes: the old schema has only one for any answer in time. */
  predicate StatusFor(schema: Schema, outcome: EventOutcome, status: ChallengeStatus) {
    && (outcome.OutcomeExpired? ==> status == Expired)
    && (outcome.OutcomeApproved? && schema.V1_1? ==> status == Approved)
    && (outcome.OutcomeDenied? && schema.V1_1? ==> status == Rejected)
    && (!outcome.OutcomeExpired? && schema.V1_0? ==> status == Consumed)
  }

  /** The event records the decision as read, under the challenge's own method and scope. */
  predicate Records(e: Event, d: Decision, eventId: Id) {
    && e.eventId == eventId && e.challengeId == d.stored.columns.challengeId
    && e.proposalId == d.proposal.proposalId && e.orderHash == d.proposal.orderHash
    && e.via == d.stored.columns.via && e.scope == d.stored.columns.scope
    && e.outcome == d.outcome && e.approvedAt == d.now && e.approver == d.approver
  }

  /** A decision commits if and only if its challenge is still pending at the version read and no key is taken;
   then exactly the challenge's status and version, one event and, for an approved callback, one pending outbox
   row change. */
  lemma CommitsIff(db: Db, d: Decision, eventId: Id, outboxId: Id)
    ensures var committed := CommitDecision(db, d, eventId, outboxId);
      var c := d.stored.columns.challengeId;
      var handsOff := d.enqueue && d.outcome.OutcomeApproved?;
      && (committed.Some? <==>
            && c in db.challenges && db.challenges[c].version == d.stored.version
            && db.challenges[c].columns.status == Pending && eventId !in db.events
            && (forall e | e in db.events ::
                  !(db.events[e].columns.challengeId == c && db.events[e].columns.outcome == d.outcome))
            && (handsOff ==> outboxId !in db.outbox && forall o | o in db.outbox :: db.outbox[o].eventId != eventId))
      && (committed.Some? ==>
            && var db' := committed.value;
               var status := db'.challenges[c].columns.status;
               && db'.risk == db.risk && db'.proposals == db.proposals && db'.bindings == db.bindings
               && db'.challenges == db.challenges[c :=
                    ChallengeRow(db.challenges[c].columns.(status := status), d.stored.payload.(status := status),
                                 d.stored.version + 1)]
               && StatusFor(d.stored.payload.schema, d.outcome, status)
               && eventId in db'.events && db'.events == db.events[eventId := db'.events[eventId]]
               && db'.events[eventId].columns == db'.events[eventId].payload
               && Records(db'.events[eventId].payload, d, eventId)
               && (!handsOff ==> db'.outbox == db.outbox)
               && (handsOff ==>
                     db'.outbox == db.outbox[outboxId :=
                       OutboxRow(outboxId, eventId, d.proposal.proposalId, d.proposal.orderHash, OutboxPending,
                                 d.now)]))
  {
  }

  /** From any reachable state, a yes or no given directly to a pending challenge and committed under a fresh event
   id leaves that event with that answer, or an expired one, and the challenge approved, rejected or expired
   accordingly; nothing is handed off. */
  lemma DirectDecisionIsRecorded(
    steps: seq<Step>, c: Id, approved: bool, name: string, now: int, eventId: Id, outboxId: Id)
    requires c in Run(steps).db.challenges && Run(steps).db.challenges[c].columns.status == Pending
    requires eventId !in Run(steps).db.events
    ensures var db := Run(steps).db;
      var row := db.challenges[c].columns;
      && row.proposalId in db.proposals
      && var late := row.expiresAt <= now || db.proposals[row.proposalId].payload.expiresAt <= now;
         var r := ReadDirect(db, row.nonceHash.token, approved, name, now);
         && r.Decide?
         && var committed := CommitDecision(db, r.decision, eventId, outboxId);
            && committed.Some? && eventId in committed.value.events && c in committed.value.challenges
            && var e, status := committed.value.events[eventId].payload, committed.value.challenges[c].columns.status;
               && e.challengeId == c && e.approver == OtherApprover(name) && e.approvedAt == now
               && (late ==> e.outcome.OutcomeExpired? && status == Expired)
               && (!late && approved ==> e.outcome.OutcomeApproved? && status == Approved)
               && (!late && !approved ==> e.outcome.OutcomeDenied? && status == Rejected)
               && committed.value.outbox == db.outbox
  {
    RunInvariant(steps);
    var db := Run(steps).db;
    var row := db.challenges[c].columns;
    assert ChallengeOk(db, c);
    DirectAnswers(steps, row.nonceHash.token, approved, name, now);
    var r := ReadDirect(db, row.nonceHash.token, approved, name, now);
    assert Decides(db, c, r, approved, OtherApprover(name), false, now);
    NoEventYet(db, c);
    CommitsIff(db, r.decision, eventId, outboxId);
  }

  /** From any reachable state, the callback that names a pending challenge, committed under fresh ids, leaves the
   bound user's approval and its outbox row, or an expired event and no row. */
  lemma CallbackDecisionIsRecorded(steps: seq<Step>, c: Id, cb: Callback, now: int, eventId: Id, outboxId: Id)
    requires Names(Run(steps).db, cb, c) && Run(steps).db.challenges[c].columns.status == Pending
    requires eventId !in Run(steps).db.events && outboxId !in Run(steps).db.outbox
    ensures var db := Run(steps).db;
      var row, r := db.challenges[c].columns, ReadCallback(db, cb, now);
      && r.Decide?
      && var committed := CommitDecision(db, r.decision, eventId, outboxId);
         && committed.Some? && eventId in committed.value.events && c in committed.value.challenges
         && var db', e := committed.value, committed.value.events[eventId].payload;
            && e.challengeId == c && e.approver == TelegramUser(cb.sender) && e.approvedAt == now
            && (now < row.expiresAt ==>
                  && e.outcome.OutcomeApproved? && db'.challenges[c].columns.status == Approved
                  && db'.outbox == db.outbox[outboxId :=
                       OutboxRow(outboxId, eventId, row.proposalId, row.orderHash, OutboxPending, now)])
            && (row.expiresAt <= now ==>
                  e.outcome.OutcomeExpired? && db'.challenges[c].columns.status == Expired && db'.outbox == db.outbox)
  {
    RunInvariant(steps);
    var db := Run(steps).db;
    assert ChallengeOk(db, c);
    assert ProposalOk(db, db.challenges[c].columns.proposalId);
    CallbackAnswers(steps, cb, now);
    var r := ReadCallback(db, cb, now);
    assert Decides(db, c, r, true, TelegramUser(cb.sender), true, now);
    NoEventYet(db, c);
    NoRowYet(db, eventId);
    CommitsIff(db, r.decision, eventId, outboxId);
  }

  ghost function ReadIn(db: Db, read: Step): ReadResult
    requires read.ReceiveCallback? || read.ReceiveDirect?
  {
    if read.ReceiveCallback? then ReadCallback(db, read.callback, read.now)
    else ReadDirect(db, read.token, read.approved, read.name, read.now)
  }

  ghost predicate Decided(s: System, h: nat, r: ReadResult, asked: System, done: System, eventId: Id, outboxId: Id) {
    && asked.db == s.db && done.Handler(h).Resting?
    && (if r.Decide? then asked.Handler(h) == Deciding(r.decision) else asked == s)
    && (if r.Decide? && CommitDecision(s.db, r.decision, eventId, outboxId).Some?
        then CommitDecision(s.db, r.decision, eventId, outboxId) == Some(done.db) else done.db == s.db)
  }

  lemma StepsDecide(s: System, h: nat, read: Step, eventId: Id, outboxId: Id)
    requires (read.ReceiveCallback? || read.ReceiveDirect?) && read.h == h && s.Handler(h).Resting?
    ensures var asked := Apply(s, read);
      Decided(s, h, ReadIn(s.db, read), asked, Apply(asked, CommitTransaction(h, eventId, outboxId)), eventId, outboxId)
  {
  }

  /** In the machine: a resting handler that reads an answer leading to a decision, and is not disturbed before its
   commit, commits that decision and rests again. */
  lemma HandlerDecides(steps: seq<Step>, h: nat, read: Step, eventId: Id, outboxId: Id)
    requires (read.ReceiveCallback? || read.ReceiveDirect?) && read.h == h && Run(steps).Handler(h).Resting?
    ensures var s, asked := Run(steps), Run(steps + [read]);
      var done := Run(steps + [read] + [CommitTransaction(h, eventId, outboxId)]);
      Decided(s, h, ReadIn(s.db, read), asked, done, eventId, outboxId)
  {
    RunOneMore(steps, read);
    RunOneMore(steps + [read], CommitTransaction(h, eventId, outboxId));
    StepsDecide(Run(steps), h, read, eventId, outboxId);
  }

  lemma RunOneMore(steps: seq<Step>, step: Step)
    ensures Run(steps + [step]) == Apply(Run(steps), step)
  {
    assert (steps + [step])[..|steps + [step]| - 1] == steps;
  }

  lemma NoRowYet(db: Db, eventId: Id)
    requires DbOk(db) && eventId !in db.events
    ensures forall o | o in db.outbox :: db.outbox[o].eventId != eventId
  {
    forall o | o in db.outbox ensures db.outbox[o].eventId != eventId {
      assert OutboxOk(db, o);
    }
  }

  lemma NoEventYet(db: Db, c: Id)
    requires DbOk(db) && c in db.challenges && db.challenges[c].columns.status == Pending
    ensures forall e | e in db.events :: db.events[e].columns.challengeId != c
  {
    forall e | e in db.events ensures db.events[e].columns.challengeId != c {
      assert EventOk(db, e);
    }
  }

  // ---- Handing off ------------------------------------------------------------------------

  /** The outbox row, the event and the proposal, as columns and as documents, are about one order. */
  predicate OneOrder(row: OutboxRow, er: EventRow, pr: ProposalRow) {
    && er.payload.eventId == row.eventId == er.columns.eventId
    && er.payload.proposalId == row.proposalId == er.columns.proposalId == pr.columns.proposalId
    && er.payload.orderHash == row.orderHash == er.columns.orderHash == pr.columns.orderHash == pr.payload.orderHash
    && er.payload.via == er.columns.via && er.payload.scope == er.columns.scope
    && er.payload.outcome == er.columns.outcome
    && pr.payload.account == pr.columns.account && pr.payload.expiresAt == pr.columns.expiresAt
  }

  function PolicyChecks(row: OutboxRow, er: EventRow, pr: ProposalRow, now: int): seq<Check<Rejection>> {
    [Check(!OneOrder(row, er, pr), TrustedBindingMismatch),
     Check(er.payload.outcome.OutcomeDenied? || er.payload.outcome.OutcomeExpired?, ApprovalNotApproved),
     Check(er.payload.via.WebAuthn? || er.payload.scope.LiveScope? || pr.payload.account.AgenticAccount?,
           ForbiddenMethodScope),
     Check(pr.payload.expiresAt <= now, ProposalExpired)]
  }

  /** A row is refused for the first of these that fails, and dispatched if none does. */
  lemma PolicyAnswersFirst(row: OutboxRow, er: EventRow, pr: ProposalRow, now: int)
    ensures AnswersFirst(PolicyChecks(row, er, pr, now), PolicyRejection(row, er, pr, now))
  {
    var checks := PolicyChecks(row, er, pr, now);
    assert |checks| == 4;
    assert checks[0].fails || checks[1].fails || checks[2].fails || checks[3].fails || NoFailure(checks);
  }

  /** Before the policy, a row is refused as untrusted if its event or proposal is missing, its event's method and
   scope do not belong together, or the proposal's hash is not that of its own fields. */
  lemma UntrustedIff(db: Db, row: OutboxRow, now: int)
    ensures var trusted :=
        && row.eventId in db.events && row.proposalId in db.proposals
        && var e, p := db.events[row.eventId].payload, db.proposals[row.proposalId].payload;
           && (e.via.Telegram? <==> e.scope.PaperScope?)
           && p.orderHash == OrderHash(p.terms, p.expiresAt, p.account);
      && (!trusted ==> HandoffRejection(db, row, now) == Some(InvalidTrustedRecord))
      && (trusted ==>
            HandoffRejection(db, row, now)
            == PolicyRejection(row, db.events[row.eventId], db.proposals[row.proposalId], now))
  {
  }

  /** A request says what was approved: the order, its hash and its event, issued when the row was, under four
   different ids of this row and event. */
  lemma RequestSaysWhatWasApproved(row: OutboxRow, e: Event)
    ensures var q := RequestFor(row, e);
      && q.orderHash == e.orderHash && q.inputDigest == e.orderHash
      && q.proposalId == e.proposalId && q.eventId == e.eventId && q.issuedAt == row.createdAt
      && q.commandId.prefix == "cmd_" && q.correlationId.prefix == "corr_"
      && q.idempotencyId.prefix == "idem_" && q.clientOrderId.prefix == "paper_"
      && (forall tag | tag in [q.commandId, q.correlationId, q.idempotencyId, q.clientOrderId] ::
            tag.domain == "paper-handoff" && tag.outboxId == row.outboxId && tag.eventId == e.eventId)
  {
  }
}
