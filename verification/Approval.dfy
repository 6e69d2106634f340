/**
 Callback handlers and execution handoffs running concurrently over the approval tables.

 A decision is read in one transition and committed in another, so competing handlers act on
 stale rows; a handoff locks its outbox row, calls the executor and commits afterwards.  Any of
 them may crash in between, and callbacks and handoffs may be repeated without limit.
 */
module Approval {
  import opened Common
  import opened ApprovalTables

  // ---- Callback handler -------------------------------------------------------------------

  datatype Callback = Callback(environment: string, sender: int, chat: int, message: int, data: string)

  predicate UrlSafe(c: char) {
    'A' <= c <= 'Z' || 'a' <= c <= 'z' || '0' <= c <= '9' || c == '_' || c == '-'
  }

  /** 43 URL-safe characters that re-encode 32 bytes to themselves. */
  function DecodeToken(data: string): Option<string> {
    if |data| == 43 && (forall i | 0 <= i < 43 :: UrlSafe(data[i])) && data[42] in "AEIMQUYcgkosw048"
    then Some(data) else None
  }

  datatype ReadResult =
    | AnswerInvalid
    | AnswerAlreadyUsed
    | Raises                    // rolled back; the poller retries the update
    | Decide(decision: Decision)

  predicate BindingMatches(b: Binding, c: Challenge, cb: Callback) {
    && b.environment == cb.environment && b.user == cb.sender && b.chat == cb.chat && b.message == cb.message
    && b.challengeId == c.challengeId && b.proposalId == c.proposalId && b.orderHash == c.orderHash
  }

  /** The reading half of `ApprovalService.decide` on the challenge found under a nonce. */
  function ReadDecision(db: Db, stored: ChallengeRow, approved: bool, approver: Approver, enqueue: bool, now: int)
    : ReadResult
  {
    if stored.columns.status != Pending then AnswerAlreadyUsed
    else if LoadChallenge(stored).None? then AnswerInvalid
    else
      var c := LoadChallenge(stored).value;
      if c.proposalId !in db.proposals then Raises
      else if LoadBoundProposal(db, c).None? then AnswerInvalid
      else
        var p := LoadBoundProposal(db, c).value;
        Decide(Decision(stored, p, DecideOutcome(c, p, approved, now), now, approver, enqueue))
  }

  /** The reading half of `TelegramPaperApprovalHandler.process`. */
  ghost function ReadCallback(db: Db, cb: Callback, now: int): ReadResult {
    var token := DecodeToken(cb.data);
    if token.None? then AnswerInvalid
    else if !exists c :: IsChallengeWithNonce(db, c, NonceHash(token.value)) then AnswerInvalid
    else
      var c :| IsChallengeWithNonce(db, c, NonceHash(token.value));
      var stored := db.challenges[c];
      if c !in db.bindings || !BindingMatches(db.bindings[c], stored.columns, cb) then AnswerInvalid
      else if stored.columns.via != Telegram || stored.columns.scope != PaperScope then AnswerInvalid
      else ReadDecision(db, stored, true, TelegramUser(cb.sender), true, now)
  }

  /** `decide` called outside the Telegram handler; it never enqueues a handoff. */
  ghost function ReadDirect(db: Db, token: string, approved: bool, name: string, now: int): ReadResult {
    if !exists c :: IsChallengeWithNonce(db, c, NonceHash(token)) then AnswerInvalid
    else
      var c :| IsChallengeWithNonce(db, c, NonceHash(token));
      ReadDecision(db, db.challenges[c], approved, OtherApprover(name), false, now)
  }

  // ---- Handoff ----------------------------------------------------------------------------

  /** A prefixed, truncated SHA-256 of domain, outbox id and event id. */
  datatype Tag = Tag(prefix: string, domain: string, outboxId: Id, eventId: Id)

  datatype Request = Request(
    commandId: Tag, correlationId: Tag, idempotencyId: Tag, issuedAt: int, inputDigest: OrderHash,
    proposalId: Id, orderHash: OrderHash, clientOrderId: Tag, eventId: Id)

  function RequestFor(row: OutboxRow, e: Event): Request {
    var domain := "paper-handoff";
    Request(Tag("cmd_", domain, row.outboxId, e.eventId), Tag("corr_", domain, row.outboxId, e.eventId),
            Tag("idem_", domain, row.outboxId, e.eventId), row.createdAt, e.orderHash, e.proposalId, e.orderHash,
            Tag("paper_", domain, row.outboxId, e.eventId), e.eventId)
  }

  datatype Rejection =
    | InvalidTrustedRecord | TrustedBindingMismatch | ApprovalNotApproved | ForbiddenMethodScope | ProposalExpired

  function PolicyRejection(row: OutboxRow, er: EventRow, pr: ProposalRow, now: int): Option<Rejection> {
    var e, p := er.payload, pr.payload;
    if e.eventId != row.eventId || e.eventId != er.columns.eventId || e.proposalId != row.proposalId
       || e.proposalId != er.columns.proposalId || e.proposalId != pr.columns.proposalId
       || e.orderHash != row.orderHash || e.orderHash != er.columns.orderHash
       || e.orderHash != pr.columns.orderHash || e.orderHash != p.orderHash
       || e.via != er.columns.via || e.scope != er.columns.scope || e.outcome != er.columns.outcome
       || p.account != pr.columns.account || p.expiresAt != pr.columns.expiresAt then Some(TrustedBindingMismatch)
    else if !e.outcome.OutcomeApproved? then Some(ApprovalNotApproved)
    else if !e.via.Telegram? || !e.scope.PaperScope? || !p.account.PaperAccount? then Some(ForbiddenMethodScope)
    else if now >= p.expiresAt then Some(ProposalExpired)
    else None
  }

  /** Why `consume` refuses a pending row, or None when it dispatches. */
  function HandoffRejection(db: Db, row: OutboxRow, now: int): Option<Rejection> {
    if row.eventId !in db.events || row.proposalId !in db.proposals then Some(InvalidTrustedRecord)
    else if !AllowedPair(db.events[row.eventId].payload.via, db.events[row.eventId].payload.scope)
         || db.proposals[row.proposalId].payload.orderHash
              != ComputeOrderHash(db.proposals[row.proposalId].payload) then Some(InvalidTrustedRecord)
    else PolicyRejection(row, db.events[row.eventId], db.proposals[row.proposalId], now)
  }

  // ---- The system -------------------------------------------------------------------------

  datatype HandlerPc = Resting | Deciding(decision: Decision)
  datatype HandoffPc = Waiting | Dispatching(outboxId: Id, request: Request)

  /** What leaves the tables: executor calls, and the moment an outbox row becomes consumed. */
  datatype External = Dispatched(outboxId: Id, request: Request, at: int) | RowConsumed(outboxId: Id)

  datatype System = System(
    db: Db, handlers: map<nat, HandlerPc>, handoffs: map<nat, HandoffPc>, locks: map<Id, nat>, trace: seq<External>)
  {
    function Handler(h: nat): HandlerPc {
      if h in handlers then handlers[h] else Resting
    }
    function Handoff(x: nat): HandoffPc {
      if x in handoffs then handoffs[x] else Waiting
    }
  }

  datatype Execution = Succeeded | ExecutionRejected | RetryLater | ContractViolated

  datatype Step =
    | IssueChallenge(issue: Issue)
    | BindMessage(delivery: Delivery)
    | ReceiveCallback(h: nat, callback: Callback, now: int)
    | ReceiveDirect(h: nat, token: string, approved: bool, name: string, now: int)
    | CommitTransaction(h: nat, eventId: Id, newOutboxId: Id)
    | HandlerCrash(h: nat)
    | BeginHandoff(x: nat, outboxId: Id, now: int)
    | FinishHandoff(x: nat, execution: Execution)
    | HandoffCrash(x: nat)

  const INITIAL := System(EMPTY_DB, map[], map[], map[], [])

  ghost function Receive(s: System, h: nat, r: ReadResult): System {
    if r.Decide? then s.(handlers := s.handlers[h := Deciding(r.decision)]) else s
  }

  /** `_reject`, or the final consume of a finished handoff. */
  ghost function Consume(s: System, outboxId: Id): System {
    match ConsumeOutbox(s.db, outboxId)
    case Some(db') => s.(db := db', trace := s.trace + [RowConsumed(outboxId)])
    case None => s
  }

  ghost function Begin(s: System, x: nat, outboxId: Id, now: int): System {
    if s.Handoff(x) != Waiting || outboxId in s.locks then s       // busy, or waiting for the row lock
    else if outboxId !in s.db.outbox || s.db.outbox[outboxId].status != OutboxPending then s
    else if HandoffRejection(s.db, s.db.outbox[outboxId], now).Some? then Consume(s, outboxId)
    else
      var row := s.db.outbox[outboxId];
      var request := RequestFor(row, s.db.events[row.eventId].payload);
      s.(handoffs := s.handoffs[x := Dispatching(outboxId, request)], locks := s.locks[outboxId := x],
         trace := s.trace + [Dispatched(outboxId, request, now)])
  }

  ghost function Unlock(s: System, x: nat): System
    requires s.Handoff(x).Dispatching?
  {
    s.(handoffs := s.handoffs[x := Waiting], locks := s.locks - {s.Handoff(x).outboxId})
  }

  ghost function Apply(s: System, step: Step): System {
    match step
    case IssueChallenge(q) =>
      (match CreateProposalAndChallenge(s.db, q) case Ok(db') => s.(db := db') case Err(_) => s)
    case BindMessage(d) => s.(db := BindDelivery(s.db, d))
    case ReceiveCallback(h, cb, now) =>
      if s.Handler(h).Resting? then Receive(s, h, ReadCallback(s.db, cb, now)) else s
    case ReceiveDirect(h, token, approved, name, now) =>
      if s.Handler(h).Resting? then Receive(s, h, ReadDirect(s.db, token, approved, name, now)) else s
    case CommitTransaction(h, eventId, outboxId) =>
      if s.Handler(h).Resting? then s
      else
        var committed := CommitDecision(s.db, s.Handler(h).decision, eventId, outboxId);
        s.(handlers := s.handlers[h := Resting], db := if committed.Some? then committed.value else s.db)
    case HandlerCrash(h) => s.(handlers := s.handlers[h := Resting])
    case BeginHandoff(x, outboxId, now) => Begin(s, x, outboxId, now)
    case FinishHandoff(x, execution) =>
      if s.Handoff(x).Waiting? then s
      else if execution.Succeeded? || execution.ExecutionRejected? then
        Consume(Unlock(s, x), s.Handoff(x).outboxId)
      else Unlock(s, x)
    case HandoffCrash(x) => if s.Handoff(x).Waiting? then s else Unlock(s, x)
  }

  ghost function Run(steps: seq<Step>): System {
    if steps == [] then INITIAL else Apply(Run(steps[..|steps|-1]), steps[|steps|-1])
  }
}
