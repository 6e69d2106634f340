/**
 The approval tables and the transactions that write them.  Rows keep, as in the source, both
 their columns and the frozen document they were made from; SHA-256 digests are injective
 constructors, and a transaction either commits whole or changes nothing.
 */
module ApprovalTables {
  import opened Common

  type Id = string

  datatype Side = Buy | Sell
  datatype Account = PaperAccount | AgenticAccount
  datatype ApprovalMethod = Telegram | WebAuthn
  datatype Scope = PaperScope | LiveScope

  /** The order fields that are neither identity nor clock. */
  datatype Terms = Terms(
    instrument: string, symbol: string, exchange: string, currency: string, side: Side,
    quantity: real, limitPrice: real, maximumNotional: real, strategy: string, strategyVersion: string)

  /** Digest of the protected order fields. */
  datatype OrderHash = OrderHash(terms: Terms, expiresAt: int, account: Account)

  datatype Candidate = Candidate(
    candidateId: Id, signalId: Id, account: Account, terms: Terms, createdAt: int, expiresAt: int)

  datatype Proposal = Proposal(
    proposalId: Id, riskDecisionId: Id, candidateId: Id, signalId: Id, account: Account, terms: Terms,
    createdAt: int, expiresAt: int, orderHash: OrderHash)

  function ComputeOrderHash(p: Proposal): OrderHash {
    OrderHash(p.terms, p.expiresAt, p.account)
  }

  /** The columns of a proposal row; exchange and maximum notional are not among them. */
  datatype ProposalColumns = ProposalColumns(
    proposalId: Id, signalId: Id, candidateId: Id, riskDecisionId: Id, account: Account, instrument: string,
    symbol: string, side: Side, quantity: real, limitPrice: real, currency: string, strategy: string,
    strategyVersion: string, orderHash: OrderHash, createdAt: int, expiresAt: int)

  function ColumnsOf(p: Proposal): ProposalColumns {
    ProposalColumns(p.proposalId, p.signalId, p.candidateId, p.riskDecisionId, p.account, p.terms.instrument,
                    p.terms.symbol, p.terms.side, p.terms.quantity, p.terms.limitPrice, p.terms.currency,
                    p.terms.strategy, p.terms.strategyVersion, p.orderHash, p.createdAt, p.expiresAt)
  }

  datatype ProposalRow = ProposalRow(columns: ProposalColumns, payload: Proposal)

  /** The stored nonce: digest of the one-time token. */
  datatype NonceHash = NonceHash(token: string)

  datatype Schema = V1_0 | V1_1
  datatype ChallengeStatus = Pending | Approved | Rejected | Expired | Consumed | Cancelled

  datatype Challenge = Challenge(
    schema: Schema, challengeId: Id, proposalId: Id, orderHash: OrderHash, via: ApprovalMethod, scope: Scope,
    nonceHash: NonceHash, createdAt: int, expiresAt: int, status: ChallengeStatus)

  datatype ChallengeRow = ChallengeRow(columns: Challenge, payload: Challenge, version: nat)

  datatype EventOutcome = OutcomeApproved | OutcomeDenied | OutcomeExpired

  /** `approver` is the Telegram user id behind `telegram:<id>`, or another caller's identity. */
  datatype Approver = TelegramUser(user: int) | OtherApprover(name: string)

  datatype Event = Event(
    eventId: Id, challengeId: Id, proposalId: Id, orderHash: OrderHash, via: ApprovalMethod, scope: Scope,
    outcome: EventOutcome, approvedAt: int, approver: Approver)

  datatype EventRow = EventRow(columns: Event, payload: Event)

  datatype Binding = Binding(
    challengeId: Id, proposalId: Id, orderHash: OrderHash, environment: string,
    user: int, chat: int, message: int, boundAt: int)

  datatype OutboxStatus = OutboxPending | OutboxConsumed

  datatype OutboxRow = OutboxRow(
    outboxId: Id, eventId: Id, proposalId: Id, orderHash: OrderHash, status: OutboxStatus, createdAt: int)

  datatype Db = Db(
    risk: map<Id, Id>,               // risk decision id -> proposal id it is bound to
    proposals: map<Id, ProposalRow>,
    challenges: map<Id, ChallengeRow>,
    events: map<Id, EventRow>,
    bindings: map<Id, Binding>,
    outbox: map<Id, OutboxRow>)

  const EMPTY_DB := Db(map[], map[], map[], map[], map[], map[])

  // ---- Issuing a challenge ----------------------------------------------------------------

  const MIN_TTL := 60
  const MAX_TTL := 120

  datatype RiskOutcome = RiskApproved | RiskNeedsReview | RiskRejected
  datatype Phase = ProposalPhase | PretradePhase

  datatype RiskConfig = RiskConfig(ruleSet: string, limits: string)
  datatype RiskContext = RiskContext(
    phase: Phase, riskDecisionId: Id, asOf: int, candidate: Candidate, config: RiskConfig)

  /** `consistent` is the verdict of `validate_default_risk_output`. */
  datatype RiskOutput = RiskOutput(
    riskDecisionId: Id, candidateId: Option<Id>, proposalId: Option<Id>, outcome: RiskOutcome,
    decidedAt: int, ruleSet: string, consistent: bool, inputDigest: RiskContext, configDigest: RiskConfig)

  datatype ServiceError =
    | ForbiddenApprovalScope | InvalidTtl | RiskOutputInvalid | RiskNotApproved | RiskCandidateMismatch
    | RiskPhaseMismatch | RiskContextMismatch | RiskDecisionTimeMismatch | RiskInputDigestMismatch
    | RiskConfigDigestMismatch | RiskConfigMismatch | AccountScopeMismatch | RiskProposalMismatch
    | ProposalExpiresTooSoon | RiskDecisionAlreadyUsed | UniqueKeyConflict

  predicate AllowedPair(via: ApprovalMethod, scope: Scope) {
    (via.Telegram? && scope.PaperScope?) || (via.WebAuthn? && scope.LiveScope?)
  }

  function AccountFor(scope: Scope): Account {
    if scope.PaperScope? then PaperAccount else AgenticAccount
  }

  function RiskRejection(c: Candidate, r: RiskOutput, ctx: RiskContext): Option<ServiceError> {
    if !r.consistent then Some(RiskOutputInvalid)
    else if r.outcome != RiskApproved then Some(RiskNotApproved)
    else if r.candidateId != Some(c.candidateId) then Some(RiskCandidateMismatch)
    else if ctx.phase != ProposalPhase then Some(RiskPhaseMismatch)
    else if ctx.riskDecisionId != r.riskDecisionId then Some(RiskContextMismatch)
    else if r.decidedAt != ctx.asOf then Some(RiskDecisionTimeMismatch)
    else if ctx.candidate != c then Some(RiskCandidateMismatch)
    else if r.inputDigest != ctx then Some(RiskInputDigestMismatch)
    else if r.configDigest != ctx.config then Some(RiskConfigDigestMismatch)
    else if r.ruleSet != ctx.config.ruleSet then Some(RiskConfigMismatch)
    else None
  }

  /** Everything the caller and the id and token factories supply. */
  datatype Issue = Issue(
    now: int, candidate: Candidate, risk: RiskOutput, context: RiskContext, via: ApprovalMethod, scope: Scope,
    ttl: int, proposalId: Id, challengeId: Id, token: string)

  function IssueRejection(q: Issue): Option<ServiceError> {
    if !AllowedPair(q.via, q.scope) then Some(ForbiddenApprovalScope)
    else if !(MIN_TTL <= q.ttl <= MAX_TTL) then Some(InvalidTtl)
    else if RiskRejection(q.candidate, q.risk, q.context).Some? then
      RiskRejection(q.candidate, q.risk, q.context)
    else if q.candidate.account != AccountFor(q.scope) then Some(AccountScopeMismatch)
    else if q.risk.proposalId.Some? && q.risk.proposalId.value != q.proposalId then Some(RiskProposalMismatch)
    else if q.candidate.expiresAt < q.now + q.ttl then Some(ProposalExpiresTooSoon)
    else None
  }

  function BuildProposal(c: Candidate, riskDecisionId: Id, proposalId: Id): Proposal {
    Proposal(proposalId, riskDecisionId, c.candidateId, c.signalId, c.account, c.terms, c.createdAt, c.expiresAt,
             OrderHash(c.terms, c.expiresAt, c.account))
  }

  function BuildChallenge(q: Issue, p: Proposal): Challenge {
    Challenge(V1_1, q.challengeId, p.proposalId, p.orderHash, q.via, q.scope, NonceHash(q.token),
              q.now, q.now + q.ttl, Pending)
  }

  predicate OrderHashTaken(db: Db, h: OrderHash) {
    exists p | p in db.proposals :: db.proposals[p].columns.orderHash == h
  }

  predicate NonceTaken(db: Db, n: NonceHash) {
    exists c | c in db.challenges :: db.challenges[c].columns.nonceHash == n
  }

  /** `create_proposal_and_challenge`: the claim of the risk decision, proposal and challenge together. */
  function CreateProposalAndChallenge(db: Db, q: Issue): Result<Db, ServiceError> {
    if IssueRejection(q).Some? then Err(IssueRejection(q).value)
    else if q.risk.riskDecisionId in db.risk then Err(RiskDecisionAlreadyUsed)
    else
      var p := BuildProposal(q.candidate, q.risk.riskDecisionId, q.proposalId);
      var c := BuildChallenge(q, p);
      if p.proposalId in db.proposals || OrderHashTaken(db, p.orderHash)
         || c.challengeId in db.challenges || NonceTaken(db, c.nonceHash) then Err(UniqueKeyConflict)
      else
        Ok(db.(risk := db.risk[p.riskDecisionId := p.proposalId],
               proposals := db.proposals[p.proposalId := ProposalRow(ColumnsOf(p), p)],
               challenges := db.challenges[c.challengeId := ChallengeRow(c, c, 1)]))
  }

  // ---- Binding the delivered message ------------------------------------------------------

  /** A sent Paper notification for `proposal` carrying `token`, delivered as `message`. */
  datatype Delivery = Delivery(
    challengeId: Id, proposal: Proposal, token: string, environment: string,
    user: int, chat: int, message: int, boundAt: int)

  predicate Bindable(db: Db, d: Delivery) {
    && d.challengeId in db.challenges && d.proposal.proposalId in db.proposals
    && var c, p := db.challenges[d.challengeId].columns, db.proposals[d.proposal.proposalId].columns;
       && c.status == Pending && c.via == Telegram && c.scope == PaperScope
       && c.proposalId == d.proposal.proposalId
       && c.orderHash == d.proposal.orderHash && p.orderHash == d.proposal.orderHash
       && c.nonceHash == NonceHash(d.token)
       && d.boundAt < c.expiresAt && d.boundAt < p.expiresAt
  }

  function BindDelivery(db: Db, d: Delivery): Db {
    if !Bindable(db, d) || d.challengeId in db.bindings
       || (exists c | c in db.bindings :: db.bindings[c].environment == d.environment
             && db.bindings[c].chat == d.chat && db.bindings[c].message == d.message) then db
    else
      db.(bindings := db.bindings[d.challengeId :=
            Binding(d.challengeId, d.proposal.proposalId, d.proposal.orderHash, d.environment,
                    d.user, d.chat, d.message, d.boundAt)])
  }

  // ---- Deciding a challenge ---------------------------------------------------------------

  predicate IsChallengeWithNonce(db: Db, c: Id, n: NonceHash) {
    c in db.challenges && db.challenges[c].columns.nonceHash == n
  }

  /** `_load_challenge`: the frozen document, provided it is valid and equals the columns. */
  function LoadChallenge(row: ChallengeRow): Option<Challenge> {
    if AllowedPair(row.payload.via, row.payload.scope) && row.payload.createdAt < row.payload.expiresAt
       && row.payload == row.columns
    then Some(row.payload) else None
  }

  /** `parse_order_proposal` plus the column comparison of `_load_bound_proposal`. */
  function LoadBoundProposal(db: Db, c: Challenge): Option<Proposal> {
    if c.proposalId !in db.proposals then None
    else
      var row := db.proposals[c.proposalId];
      if row.payload.orderHash == ComputeOrderHash(row.payload) && ColumnsOf(row.payload) == row.columns
         && row.payload.orderHash == c.orderHash
      then Some(row.payload) else None
  }

  function NextStatus(schema: Schema, outcome: EventOutcome): ChallengeStatus {
    match outcome
    case OutcomeExpired => Expired
    case OutcomeApproved => if schema.V1_1? then Approved else Consumed
    case OutcomeDenied => if schema.V1_1? then Rejected else Consumed
  }

  function DecideOutcome(c: Challenge, p: Proposal, approved: bool, now: int): EventOutcome {
    if now >= c.expiresAt || now >= p.expiresAt then OutcomeExpired
    else if approved then OutcomeApproved
    else OutcomeDenied
  }

  /** A decision read from the tables and about to be written back under compare-and-swap. */
  datatype Decision = Decision(stored: ChallengeRow, proposal: Proposal, outcome: EventOutcome, now: int,
                               approver: Approver, enqueue: bool)

  function EventFor(d: Decision, eventId: Id): Event {
    var c := d.stored.columns;
    Event(eventId, c.challengeId, d.proposal.proposalId, d.proposal.orderHash, c.via, c.scope,
          d.outcome, d.now, d.approver)
  }

  predicate ChallengeUnchanged(db: Db, challengeId: Id, version: nat) {
    && challengeId in db.challenges
    && db.challenges[challengeId].version == version
    && db.challenges[challengeId].columns.status == Pending
  }

  predicate EventKeyTaken(db: Db, e: Event) {
    || e.eventId in db.events
    || (exists x | x in db.events ::
          db.events[x].columns.challengeId == e.challengeId && db.events[x].columns.outcome == e.outcome)
  }

  /** `transition_with_event`: the challenge moves and its event appears, or neither. */
  function TransitionWithEvent(db: Db, d: Decision, eventId: Id): Option<Db> {
    var e := EventFor(d, eventId);
    if !ChallengeUnchanged(db, e.challengeId, d.stored.version) || EventKeyTaken(db, e) then None
    else
      var status := NextStatus(d.stored.payload.schema, d.outcome);
      var moved := ChallengeRow(db.challenges[e.challengeId].columns.(status := status),
                                d.stored.payload.(status := status), d.stored.version + 1);
      Some(db.(challenges := db.challenges[e.challengeId := moved],
               events := db.events[eventId := EventRow(e, e)]))
  }

  predicate OutboxKeyTaken(db: Db, outboxId: Id, eventId: Id) {
    outboxId in db.outbox || exists o | o in db.outbox :: db.outbox[o].eventId == eventId
  }

  /** The whole decision transaction: event, and for an approved callback its outbox row, or nothing. */
  function CommitDecision(db: Db, d: Decision, eventId: Id, outboxId: Id): Option<Db> {
    var moved := TransitionWithEvent(db, d, eventId);
    if moved.None? then None
    else if !(d.enqueue && d.outcome.OutcomeApproved?) then moved
    else if OutboxKeyTaken(db, outboxId, eventId) then None
    else
      var e := EventFor(d, eventId);
      Some(moved.value.(outbox := db.outbox[outboxId :=
             OutboxRow(outboxId, eventId, e.proposalId, e.orderHash, OutboxPending, d.now)]))
  }

  function ConsumeOutbox(db: Db, outboxId: Id): Option<Db> {
    if outboxId in db.outbox && db.outbox[outboxId].status == OutboxPending then
      Some(db.(outbox := db.outbox[outboxId := db.outbox[outboxId].(status := OutboxConsumed)]))
    else None
  }

  // ---- The repository ---------------------------------------------------------------------

  /** Table writes as the source performs them: conditional updates and guarded inserts. */
  class ApprovalStore {
    var risk: map<Id, Id>
    var proposals: map<Id, ProposalRow>
    var challenges: map<Id, ChallengeRow>
    var events: map<Id, EventRow>
    var bindings: map<Id, Binding>
    var outbox: map<Id, OutboxRow>

    constructor ()
      ensures View() == EMPTY_DB
    {
      risk, proposals, challenges, events, bindings, outbox := map[], map[], map[], map[], map[], map[];
    }

    function View(): Db
      reads this
    {
      Db(risk, proposals, challenges, events, bindings, outbox)
    }

    /** `create_bound_fields`: claims the decision, or reports the proposal that already has it. */
    method ClaimRiskDecision(riskDecisionId: Id, proposalId: Id) returns (bound: Id, created: bool)
      modifies this`risk
      ensures created <==> riskDecisionId !in old(risk)
      ensures riskDecisionId in risk && risk[riskDecisionId] == bound
      ensures created ==> bound == proposalId && risk == old(risk)[riskDecisionId := proposalId]
      ensures !created ==> risk == old(risk)
    {
      created := riskDecisionId !in risk;
      if created {
        risk := risk[riskDecisionId := proposalId];
      }
      bound := risk[riskDecisionId];
    }

    method CreateProposal(q: Issue) returns (r: Option<ServiceError>)
      modifies this`risk, this`proposals, this`challenges
      ensures match CreateProposalAndChallenge(old(View()), q)
              case Ok(db) => r.None? && View() == db
              case Err(code) => r == Some(code) && View() == old(View())
    {
      r := IssueRejection(q);
      if r.Some? {
        return;
      }
      var p := BuildProposal(q.candidate, q.risk.riskDecisionId, q.proposalId);
      var c := BuildChallenge(q, p);
      var before := risk;
      var _, created := ClaimRiskDecision(p.riskDecisionId, p.proposalId);
      if !created {
        return Some(RiskDecisionAlreadyUsed);
      }
      if p.proposalId in proposals || OrderHashTaken(View(), p.orderHash)
         || c.challengeId in challenges || NonceTaken(View(), c.nonceHash) {
        risk := before;
        return Some(UniqueKeyConflict);
      }
      proposals := proposals[p.proposalId := ProposalRow(ColumnsOf(p), p)];
      challenges := challenges[c.challengeId := ChallengeRow(c, c, 1)];
      r := None;
    }

    /** The CAS of `consume_challenge_once`; at most one caller with one version can succeed. */
    method ConsumeChallengeOnce(challengeId: Id, version: nat, status: ChallengeStatus, payload: Challenge)
      returns (won: bool)
      modifies this`challenges
      ensures won <==> ChallengeUnchanged(old(View()), challengeId, version)
      ensures won ==> challenges == old(challenges)[challengeId :=
        ChallengeRow(old(challenges)[challengeId].columns.(status := status), payload, version + 1)]
      ensures !won ==> challenges == old(challenges)
    {
      won := ChallengeUnchanged(View(), challengeId, version);
      if won {
        var row := challenges[challengeId];
        challenges := challenges[challengeId := ChallengeRow(row.columns.(status := status), payload, version + 1)];
      }
    }

    method Commit(d: Decision, eventId: Id, outboxId: Id) returns (committed: bool)
      modifies this`challenges, this`events, this`outbox
      ensures match CommitDecision(old(View()), d, eventId, outboxId)
              case Some(db) => committed && View() == db
              case None => !committed && View() == old(View())
    {
      var e := EventFor(d, eventId);
      var before := challenges;
      var status := NextStatus(d.stored.payload.schema, d.outcome);
      var won := ConsumeChallengeOnce(e.challengeId, d.stored.version, status, d.stored.payload.(status := status));
      if !won || EventKeyTaken(View(), e)
         || (d.enqueue && d.outcome.OutcomeApproved? && OutboxKeyTaken(View(), outboxId, eventId)) {
        challenges := before;
        return false;
      }
      events := events[eventId := EventRow(e, e)];
      if d.enqueue && d.outcome.OutcomeApproved? {
        outbox := outbox[outboxId := OutboxRow(outboxId, eventId, e.proposalId, e.orderHash, OutboxPending, d.now)];
      }
      committed := true;
    }

    method ConsumeOutboxOnce(outboxId: Id) returns (won: bool)
      modifies this`outbox
      ensures match ConsumeOutbox(old(View()), outboxId)
              case Some(db) => won && View() == db
              case None => !won && View() == old(View())
    {
      won := outboxId in outbox && outbox[outboxId].status == OutboxPending;
      if won {
        outbox := outbox[outboxId := outbox[outboxId].(status := OutboxConsumed)];
      }
    }
  }
}
