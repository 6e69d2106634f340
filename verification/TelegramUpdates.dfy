/** Provider updates, their authorization, and the normalization of one fetched batch. */
module TelegramUpdates {
  import opened Common
  import opened PollTables

  datatype UpdateKind = MessageUpdate | CallbackUpdate | UnsupportedUpdate | MalformedUpdate

  datatype Update = Update(
    updateId: nat, kind: UpdateKind,
    sender: Option<int>, chat: Option<int>, message: Option<int>, chatType: string,
    text: Option<string>, callbackQueryId: Option<string>, callbackData: Option<string>,
    forwarded: bool, service: bool)

  datatype IgnoredReason =
    | UnknownRecipient | NotPrivateChat | MissingSender | InlineCallback
    | ForwardedMessage | ServiceMessage | Unsupported | Malformed

  datatype Classified =
    | AuthorizedCallback(updateId: nat, sender: int, chat: int, message: int, queryId: string, data: string)
    | AuthorizedText(updateId: nat, sender: int, chat: int, message: int, text: string)
    | IgnoredUpdate(updateId: nat, reason: IgnoredReason)

  /** What an update must satisfy to reach a handler, as the ingress contract words it. */
  predicate Authorizable(u: Update, allowed: set<(int, int)>) {
    && (u.kind.MessageUpdate? || u.kind.CallbackUpdate?)
    && u.sender.Some? && u.chat.Some? && u.message.Some?
    && u.chatType == "private"
    && (u.sender.value, u.chat.value) in allowed
    && u.message.value > 0
    && !u.forwarded
  }

  /** The objections an update may meet, in the order they are raised. */
  datatype Objection =
    | NotParsed | KindUnsupported | NoSender | CallbackWithoutMessage | ChatNotPrivate | PairNotAllowed
    | NoMessageId | Forwarded | CallbackWithoutPayload | NothingToRead

  function Place(o: Objection): nat {
    match o
    case NotParsed => 0
    case KindUnsupported => 1
    case NoSender => 2
    case CallbackWithoutMessage => 3
    case ChatNotPrivate => 4
    case PairNotAllowed => 5
    case NoMessageId => 6
    case Forwarded => 7
    case CallbackWithoutPayload => 8
    case NothingToRead => 9
  }

  predicate Meets(u: Update, allowed: set<(int, int)>, o: Objection) {
    match o
    case NotParsed => u.kind.MalformedUpdate?
    case KindUnsupported => u.kind.UnsupportedUpdate?
    case NoSender => u.sender.None?
    case CallbackWithoutMessage => u.kind.CallbackUpdate? && (u.message.None? || u.chat.None?)
    case ChatNotPrivate => u.chatType != "private"
    case PairNotAllowed => u.sender.None? || u.chat.None? || (u.sender.value, u.chat.value) !in allowed
    case NoMessageId => u.message.None? || u.message.value <= 0
    case Forwarded => u.forwarded
    case CallbackWithoutPayload => u.kind.CallbackUpdate? && (u.callbackQueryId.None? || u.callbackData.None?)
    case NothingToRead => !u.kind.CallbackUpdate? && (u.service || u.text.None?)
  }

  function ReasonFor(o: Objection): IgnoredReason {
    match o
    case NotParsed | NoMessageId | CallbackWithoutPayload => Malformed
    case KindUnsupported => Unsupported
    case NoSender => MissingSender
    case CallbackWithoutMessage => InlineCallback
    case ChatNotPrivate => NotPrivateChat
    case PairNotAllowed => UnknownRecipient
    case Forwarded => ForwardedMessage
    case NothingToRead => ServiceMessage
  }

  /** The objection is met and none before it is. */
  ghost predicate FirstObjection(u: Update, allowed: set<(int, int)>, o: Objection) {
    Meets(u, allowed, o) && forall earlier :: Place(earlier) < Place(o) ==> !Meets(u, allowed, earlier)
  }

  /** An update is ignored exactly when some objection is met, and for the reason of the first one. */
  lemma IgnoredForFirstObjection(u: Update, allowed: set<(int, int)>)
    ensures Classify(u, allowed).IgnoredUpdate? <==> exists o :: Meets(u, allowed, o)
    ensures Classify(u, allowed).IgnoredUpdate? ==> exists o :: FirstObjection(u, allowed, o)
    ensures forall o :: FirstObjection(u, allowed, o) ==>
      Classify(u, allowed) == IgnoredUpdate(u.updateId, ReasonFor(o))
  {
    var c := Classify(u, allowed);
    if c.IgnoredUpdate? {
      var o :=
        if u.kind.MalformedUpdate? then NotParsed
        else if u.kind.UnsupportedUpdate? then KindUnsupported
        else if c.reason.MissingSender? then NoSender
        else if c.reason.InlineCallback? then CallbackWithoutMessage
        else if c.reason.NotPrivateChat? then ChatNotPrivate
        else if c.reason.UnknownRecipient? then PairNotAllowed
        else if c.reason.ForwardedMessage? then Forwarded
        else if c.reason.ServiceMessage? then NothingToRead
        else if u.message.None? || u.message.value <= 0 then NoMessageId
        else CallbackWithoutPayload;
      assert Meets(u, allowed, o) && FirstObjection(u, allowed, o);
    }
    forall o | FirstObjection(u, allowed, o) ensures c == IgnoredUpdate(u.updateId, ReasonFor(o)) {
      NoneBefore(u, allowed, o);
    }
  }

  lemma NoneBefore(u: Update, allowed: set<(int, int)>, o: Objection)
    requires FirstObjection(u, allowed, o)
    ensures Place(o) > 0 ==> !Meets(u, allowed, NotParsed)
    ensures Place(o) > 1 ==> !Meets(u, allowed, KindUnsupported)
    ensures Place(o) > 2 ==> !Meets(u, allowed, NoSender)
    ensures Place(o) > 3 ==> !Meets(u, allowed, CallbackWithoutMessage)
    ensures Place(o) > 4 ==> !Meets(u, allowed, ChatNotPrivate)
    ensures Place(o) > 5 ==> !Meets(u, allowed, PairNotAllowed)
    ensures Place(o) > 6 ==> !Meets(u, allowed, NoMessageId)
    ensures Place(o) > 7 ==> !Meets(u, allowed, Forwarded)
    ensures Place(o) > 8 ==> !Meets(u, allowed, CallbackWithoutPayload)
  {
  }

  function Classify(u: Update, allowed: set<(int, int)>): (c: Classified)
    ensures c.updateId == u.updateId
    ensures !c.IgnoredUpdate? ==>
      u.sender == Some(c.sender) && u.chat == Some(c.chat) && u.message == Some(c.message)
    ensures c.AuthorizedCallback? <==>
      Authorizable(u, allowed) && u.kind.CallbackUpdate? && u.callbackQueryId.Some? && u.callbackData.Some?
    ensures c.AuthorizedText? <==>
      Authorizable(u, allowed) && u.kind.MessageUpdate? && !u.service && u.text.Some?
    ensures c.AuthorizedCallback? ==>
      (c.sender, c.chat) in allowed && u.callbackQueryId == Some(c.queryId) && u.callbackData == Some(c.data)
    ensures c.AuthorizedText? ==> (c.sender, c.chat) in allowed && u.text == Some(c.text)
  {
    if u.kind.MalformedUpdate? then IgnoredUpdate(u.updateId, Malformed)
    else if u.kind.UnsupportedUpdate? then IgnoredUpdate(u.updateId, Unsupported)
    else if u.sender.None? then IgnoredUpdate(u.updateId, MissingSender)
    else if u.kind.CallbackUpdate? && (u.message.None? || u.chat.None?) then
      IgnoredUpdate(u.updateId, InlineCallback)
    else if u.chatType != "private" then IgnoredUpdate(u.updateId, NotPrivateChat)
    else if u.chat.None? || (u.sender.value, u.chat.value) !in allowed then
      IgnoredUpdate(u.updateId, UnknownRecipient)
    else if u.message.None? || u.message.value <= 0 then IgnoredUpdate(u.updateId, Malformed)
    else if u.forwarded then IgnoredUpdate(u.updateId, ForwardedMessage)
    else if u.kind.CallbackUpdate? then
      if u.callbackQueryId.None? || u.callbackData.None? then IgnoredUpdate(u.updateId, Malformed)
      else AuthorizedCallback(u.updateId, u.sender.value, u.chat.value, u.message.value,
                              u.callbackQueryId.value, u.callbackData.value)
    else if u.service || u.text.None? then IgnoredUpdate(u.updateId, ServiceMessage)
    else AuthorizedText(u.updateId, u.sender.value, u.chat.value, u.message.value, u.text.value)
  }

  // ---- One batch ------------------------------------------------------------------------

  const POLL_LIMIT := 100

  predicate StrictlyOrdered(batch: seq<Update>) {
    forall i, j | 0 <= i < j < |batch| :: batch[i].updateId < batch[j].updateId
  }

  /** Two records with one update id and different contents. */
  ghost predicate ConflictingDuplicates(updates: seq<Update>) {
    exists i, j | 0 <= i < |updates| && 0 <= j < |updates| ::
      updates[i].updateId == updates[j].updateId && updates[i] != updates[j]
  }

  /** The strictly ordered batch with exactly the records received. */
  ghost predicate Normalizes(updates: seq<Update>, batch: seq<Update>) {
    && StrictlyOrdered(batch)
    && (forall u :: u in updates <==> u in batch)
  }

  datatype BatchError = Oversized | ConflictingRecords

  lemma NormalizedIsUnique(updates: seq<Update>, a: seq<Update>, b: seq<Update>)
    requires Normalizes(updates, a) && Normalizes(updates, b)
    ensures a == b
  {
    NormalizedPrefix(updates, a, b, |a|);
    NormalizedPrefix(updates, b, a, |b|);
  }

  lemma {:induction false} NormalizedPrefix(updates: seq<Update>, a: seq<Update>, b: seq<Update>, n: nat)
    requires Normalizes(updates, a) && Normalizes(updates, b)
    requires n <= |a|
    ensures n <= |b| && a[..n] == b[..n]
  {
    if n > 0 {
      NormalizedPrefix(updates, a, b, n - 1);
      assert forall i | 0 <= i < n - 1 :: a[i] == a[..n-1][i] == b[..n-1][i] == b[i];
      assert a[n-1] in b;
      var k :| 0 <= k < |b| && b[k] == a[n-1];
      assert k >= n - 1;
      assert b[n-1] in a;
      var m :| 0 <= m < |a| && a[m] == b[n-1];
      assert m >= n - 1;
      assert a[n-1] == b[n-1];
      assert a[..n] == a[..n-1] + [a[n-1]] && b[..n] == b[..n-1] + [b[n-1]];
    }
  }

  /** The source's dictionary pass followed by a sort of its keys. */
  method OrderedUniqueBatch(updates: seq<Update>) returns (r: Result<seq<Update>, BatchError>)
    ensures r == Err(Oversized) <==> |updates| > POLL_LIMIT
    ensures r == Err(ConflictingRecords) <==> |updates| <= POLL_LIMIT && ConflictingDuplicates(updates)
    ensures r.Ok? ==> Normalizes(updates, r.value)
  {
    if |updates| > POLL_LIMIT {
      return Err(Oversized);
    }
    var byId: map<nat, Update> := map[];
    for i := 0 to |updates|
      invariant forall k :: k in byId ==> byId[k].updateId == k && byId[k] in updates[..i]
      invariant forall j | 0 <= j < i :: updates[j].updateId in byId && byId[updates[j].updateId] == updates[j]
    {
      var update := updates[i];
      if update.updateId in byId && byId[update.updateId] != update {
        var j :| 0 <= j < i && updates[j] == byId[update.updateId];
        assert updates[j].updateId == updates[i].updateId && updates[j] != updates[i];
        return Err(ConflictingRecords);
      }
      byId := byId[update.updateId := update];
    }
    var keys := SortKeys(byId.Keys);
    var batch := seq(|keys|, i requires 0 <= i < |keys| && keys[i] in byId => byId[keys[i]]);
    forall u
      ensures u in updates <==> u in batch
    {
      if u in updates {
        assert u.updateId in keys;
        var i :| 0 <= i < |keys| && keys[i] == u.updateId;
        assert batch[i] == u;
      }
    }
    return Ok(batch);
  }

  method SortKeys(keys: set<nat>) returns (sorted: seq<nat>)
    ensures forall k :: k in keys <==> k in sorted
    ensures forall i, j | 0 <= i < j < |sorted| :: sorted[i] < sorted[j]
  {
    sorted := [];
    var rest := keys;
    while rest != {}
      invariant rest <= keys
      invariant forall k :: k in keys <==> k in rest || k in sorted
      invariant forall i, j | 0 <= i < j < |sorted| :: sorted[i] < sorted[j]
      invariant forall i, k | 0 <= i < |sorted| && k in rest :: sorted[i] < k
      decreases rest
    {
      var least :| least in rest;
      var scan := rest - {least};
      while scan != {}
        invariant scan <= rest && least in rest
        invariant forall k :: k in rest && k !in scan ==> least <= k
        decreases scan
      {
        var k :| k in scan;
        if k < least {
          least := k;
        }
        scan := scan - {k};
      }
      sorted := sorted + [least];
      rest := rest - {least};
    }
  }
}
