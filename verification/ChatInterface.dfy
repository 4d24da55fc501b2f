/**
 * The chat view's synchronisation engine: the component state and refs of
 * `ChatInterface` as the fields of one object, and every asynchronous
 * handler split at its awaits into steps that receive what the store, the
 * webhook or the clock answered as parameters. Timers become pending counts
 * that event methods consume.
 */
module ChatInterface {
  import opened Js
  import opened ChatMessages
  import opened MessageBuffer

  /** The tenant id sent with every row (`clientId`). */
  const ClientId: string := "7f91bc37-3173-4bec-98bc-ec27627624f1"

  /** The SQLSTATE of a unique violation, after which the session is looked up again. */
  const UniqueViolation: string := "23505"

  /** Inserted as the agent's answer when the webhook fails without a body. */
  const DefaultServerError: string := "Mohon maaf terjadi kesalahan pada server kami."

  /** Inserted (or shown locally) when the send flow throws. */
  const SendFailedApology: string := "Mohon maaf, terjadi kesalahan dalam mengirim pesan. Silakan coba lagi."

  /** The `scrollTop` below which scrolling asks for older messages. */
  const ScrollTopThreshold: int := 50

  /** How one call of `getOrCreateSession` proceeds before its first await. */
  datatype ResolveStart = UseCached(id: string) | AwaitPending | Started

  /**
   * How the webhook step of a send settled: no URL configured, signing or
   * `fetch` threw, or a response with its `ok` flag and its body text
   * (`None` when reading the body threw).
   */
  datatype WebhookOutcome = NotConfigured | Threw | Responded(ok: bool, body: Option<string>)

  /**
   * An awaited insert whose `{ error }` the code never reads: it fails the
   * flow only when the promise itself rejects.
   */
  datatype Settled = Resolved | Rejected

  /** The agent text stored after a non-OK webhook response. */
  function ApologyText(body: Option<string>): (t: string)
    ensures t != ""
    ensures body.Some? && body.value != "" ==> t == body.value
    ensures body.None? || body.value == "" ==> t == DefaultServerError
  {
    if body.Some? && body.value != "" then body.value else DefaultServerError
  }

  /** The entry shown locally when even the apology cannot be stored. */
  function ErrorEntry(nowMillis: nat, nowIso: string, sid: string): (m: Message)
    ensures m.role == Agent && m.message == SendFailedApology && m.clientId == ClientId
    ensures |m.id| > 6 && m.id[..6] == "error-"
    ensures m.sessionId == sid && m.createdAt == nowIso
    ensures m.feedback.None? && m.feedbackText.None?
  {
    Message("error-" + NatToDecimal(nowMillis), ClientId, sid, Agent, SendFailedApology, nowIso, None, None)
  }

  /** Local error entries made at different milliseconds have different ids. */
  lemma ErrorEntryIdsDiffer(t1: nat, t2: nat, iso1: string, iso2: string, sid1: string, sid2: string)
    requires t1 != t2
    ensures ErrorEntry(t1, iso1, sid1).id != ErrorEntry(t2, iso2, sid2).id
  {
  }

  /** The webhook step throws: the request itself fails, or a non-OK answer's error text cannot be inserted. */
  predicate WebhookThrows(webhook: WebhookOutcome, errorInsert: Settled) {
    webhook.Threw? || (webhook.Responded? && !webhook.ok && errorInsert.Rejected?)
  }

  /**
   * The send flow reaches its `catch` block: it completes its `try` block
   * only when the session and the user row are stored and the webhook is
   * absent, answers OK, or answers otherwise with its error text inserted.
   */
  predicate SendThrows(session: Outcome<string>, insert: Outcome<Message>, webhook: WebhookOutcome, errorInsert: Settled): (b: bool)
    ensures !b <==> (session.Ok? && insert.Ok? &&
                     (webhook.NotConfigured? || (webhook.Responded? && (webhook.ok || errorInsert.Resolved?))))
  {
    session.Err? || insert.Err? || WebhookThrows(webhook, errorInsert)
  }

  class ChatEngine {
    var messages: seq<Message>
    var loading: bool
    var loadingMore: bool
    var hasMore: bool
    var offset: nat
    /** `sessionId`; the empty string stands for `null`, which every test of it treats alike. */
    var sessionId: string
    var sending: bool
    var waitingForAgent: bool
    var isSubscribed: bool
    var sessionCreationInProgress: bool
    /** Whether `sessionCreationPromiseRef` holds a promise. */
    var sessionCreationPending: bool
    /** Whether `waitingTimeoutRef` holds the 300 ms debounce and it has not fired or been cleared. */
    var debounceArmed: bool
    /** Debounce timers still pending that the ref no longer holds, so nothing can clear them. */
    var strayDebounces: nat
    /** Pending 1000 ms refresh timers. */
    var pendingRefreshes: nat
    /** Pending 5000 ms fallback timers. */
    var pendingFallbacks: nat
    var showFeedbackModal: bool
    /** `selectedMessageId`; the empty string stands for `null`. */
    var selectedMessageId: string
    var selectedFeedbackType: Option<Feedback>

    /** Store queries and inserts on the session table, and open realtime channels. */
    ghost var sessionQueries: nat
    ghost var sessionInserts: nat
    ghost var openChannels: nat

    ghost predicate Valid()
      reads this`sessionCreationInProgress, this`sessionCreationPending, this`sessionId,
        this`openChannels, this`isSubscribed, this`showFeedbackModal, this`selectedMessageId,
        this`selectedFeedbackType
    {
      && sessionCreationInProgress == sessionCreationPending
      && (sessionCreationInProgress ==> sessionId == "")
      && openChannels == (if isSubscribed then 1 else 0)
      && (!showFeedbackModal ==> selectedMessageId == "" && selectedFeedbackType.None?)
    }

    /** The component's first render, before its mount effect runs. */
    constructor ()
      ensures Valid()
      ensures messages == [] && loading && !loadingMore && hasMore && offset == 0
      ensures sessionId == "" && !sending && !waitingForAgent && !isSubscribed
      ensures !sessionCreationInProgress && !debounceArmed
      ensures strayDebounces == 0 && pendingRefreshes == 0 && pendingFallbacks == 0
      ensures !showFeedbackModal && selectedMessageId == "" && selectedFeedbackType.None?
      ensures sessionQueries == 0 && sessionInserts == 0 && openChannels == 0
    {
      messages, loading, loadingMore, hasMore, offset := [], true, false, true, 0;
      sessionId, sending, waitingForAgent, isSubscribed := "", false, false, false;
      sessionCreationInProgress, sessionCreationPending := false, false;
      debounceArmed, strayDebounces, pendingRefreshes, pendingFallbacks := false, 0, 0, 0;
      showFeedbackModal, selectedMessageId, selectedFeedbackType := false, "", None;
      sessionQueries, sessionInserts, openChannels := 0, 0, 0;
    }

    /**
     * `getOrCreateSession` up to its first await: a cached id is returned
     * with no store call, a resolution in flight is joined, and otherwise the
     * in-flight flag and promise are set and the lookup query is issued.
     */
    method BeginResolve() returns (start: ResolveStart)
      requires Valid()
      modifies this`sessionCreationInProgress, this`sessionCreationPending, this`sessionQueries
      ensures Valid()
      ensures old(sessionId) != "" ==> start == UseCached(old(sessionId))
      ensures old(sessionId) == "" && old(sessionCreationInProgress) ==> start == AwaitPending
      ensures old(sessionId) == "" && !old(sessionCreationInProgress) ==> start == Started
      ensures start.Started? <==> sessionQueries == old(sessionQueries) + 1
      ensures !start.Started? ==> sessionQueries == old(sessionQueries)
      ensures start.Started? ==> sessionCreationInProgress && sessionCreationPending
      ensures !start.Started? ==>
        sessionCreationInProgress == old(sessionCreationInProgress) && sessionCreationPending == old(sessionCreationPending)
    {
      if sessionId != "" {
        return UseCached(sessionId);
      }
      if sessionCreationInProgress && sessionCreationPending {
        return AwaitPending;
      }
      sessionCreationInProgress := true;
      sessionQueries := sessionQueries + 1;
      sessionCreationPending := true;
      start := Started;
    }

    /**
     * The rest of a started resolution, given what the lookup, the insert and
     * the re-query after a conflict answered. Callers that joined it with
     * `AwaitPending` receive the same `result`.
     */
    method CompleteResolve(lookup: Outcome<Option<string>>, insert: Outcome<string>, requery: Option<string>)
      returns (result: Outcome<string>)
      requires Valid() && sessionCreationInProgress
      modifies this`sessionId, this`sessionCreationInProgress, this`sessionCreationPending,
        this`sessionQueries, this`sessionInserts
      ensures Valid()
      ensures !sessionCreationInProgress && !sessionCreationPending
      ensures lookup.Err? ==> result == Err(lookup.code)
      ensures lookup.Ok? && lookup.value.Some? ==> result == Ok(lookup.value.value)
      ensures lookup == Ok(None) && insert.Ok? ==> result == insert
      ensures lookup == Ok(None) && insert.Err? && insert.code == UniqueViolation && requery.Some? ==>
        result == Ok(requery.value)
      ensures lookup == Ok(None) && insert.Err? && (insert.code != UniqueViolation || requery.None?) ==>
        result == Err(insert.code)
      ensures sessionInserts == old(sessionInserts) + (if lookup == Ok(None) then 1 else 0)
      ensures sessionQueries == old(sessionQueries) +
        (if lookup == Ok(None) && insert.Err? && insert.code == UniqueViolation then 1 else 0)
      ensures result.Ok? ==> sessionId == result.value
      ensures result.Err? ==> sessionId == old(sessionId)
    {
      match lookup {
        case Err(code) =>
          result := Err(code);
        case Ok(Some(id)) =>
          result := Ok(id);
        case Ok(None) =>
          sessionInserts := sessionInserts + 1;
          match insert {
            case Ok(id) =>
              result := Ok(id);
            case Err(code) =>
              result := Err(code);
              if code == UniqueViolation {
                sessionQueries := sessionQueries + 1;
                if requery.Some? {
                  result := Ok(requery.value);
                }
              }
          }
      }
      if result.Ok? {
        sessionId := result.value;
      }
      sessionCreationInProgress := false;
      sessionCreationPending := false;
    }

    /**
     * Two calls of `getOrCreateSession` while no session is known: the
     * second joins the first, so the store sees a single lookup.
     */
    method ConcurrentCallsShareOneLookup() returns (first: ResolveStart, second: ResolveStart)
      requires Valid() && sessionId == "" && !sessionCreationInProgress
      modifies this`sessionCreationInProgress, this`sessionCreationPending, this`sessionQueries
      ensures Valid()
      ensures first == Started && second == AwaitPending
      ensures sessionQueries == old(sessionQueries) + 1
    {
      first := BeginResolve();
      second := BeginResolve();
    }

    /**
     * `loadMessages(isInitial)` up to its first await: raises the matching
     * loading flag and returns the offset the history query will start at.
     */
    method BeginLoad(isInitial: bool) returns (from: nat)
      modifies this`loading, this`loadingMore
      ensures from == if isInitial then 0 else offset
      ensures isInitial ==> loading && loadingMore == old(loadingMore)
      ensures !isInitial ==> loadingMore && loading == old(loading)
    {
      if isInitial {
        loading := true;
      } else {
        loadingMore := true;
      }
      from := if isInitial then 0 else offset;
    }

    /**
     * The rest of `loadMessages`, given the session the resolver settled with
     * and the page the history query returned, newest first. An initial load
     * replaces the buffer; a backfill puts the older page, without rows the
     * buffer already holds, before it. Both loading flags end false.
     */
    method FinishLoad(isInitial: bool, session: Outcome<string>, page: Outcome<seq<Message>>)
      modifies this`messages, this`offset, this`hasMore, this`loading, this`loadingMore
      ensures !loading && !loadingMore
      ensures session.Err? || page.Err? ==>
        messages == old(messages) && offset == old(offset) && hasMore == old(hasMore)
      ensures session.Ok? && page.Ok? ==> hasMore == (|page.value| == PageSize)
      ensures session.Ok? && page.Ok? && isInitial ==>
        messages == Reversed(page.value) && offset == |page.value|
      ensures session.Ok? && page.Ok? && !isInitial ==>
        messages == BackfillMerge(old(messages), page.value) && offset == old(offset) + |page.value|
    {
      if session.Ok? && page.Ok? {
        var data := page.value;
        if isInitial {
          messages := Reversed(data);
          offset := |data|;
        } else {
          messages := BackfillMerge(messages, data);
          offset := offset + |data|;
        }
        hasMore := |data| == PageSize;
      }
      loading := false;
      loadingMore := false;
    }

    /**
     * `handleScroll`: near the top, and unless a backfill is running or
     * there is nothing older, starts a backfill.
     */
    method HandleScroll(scrollTop: int) returns (started: bool, from: nat)
      modifies this`loading, this`loadingMore
      ensures loading == old(loading)
      ensures started <==> !old(loadingMore) && hasMore && scrollTop < ScrollTopThreshold
      ensures started ==> loadingMore && from == offset
      ensures !started ==> loadingMore == old(loadingMore)
    {
      started, from := false, 0;
      if loadingMore || !hasMore {
        return;
      }
      if scrollTop < ScrollTopThreshold {
        from := BeginLoad(false);
        started := true;
      }
    }

    /**
     * `refreshLatestMessages`, given what the query for the newest rows
     * returned: replaces the buffer with them, oldest first. Without a
     * session it issues no query and changes nothing; a failed query changes
     * nothing either.
     */
    method RefreshLatest(page: Outcome<seq<Message>>) returns (queried: bool)
      modifies this`messages, this`offset, this`hasMore
      ensures queried <==> sessionId != ""
      ensures queried && page.Ok? ==>
        messages == Reversed(page.value) && offset == |page.value| && hasMore == (|page.value| == PageSize)
      ensures !queried || page.Err? ==>
        messages == old(messages) && offset == old(offset) && hasMore == old(hasMore)
    {
      if sessionId == "" {
        return false;
      }
      queried := true;
      if page.Ok? {
        var data := page.value;
        messages := Reversed(data);
        offset := |data|;
        hasMore := |data| == PageSize;
      }
    }

    /** The realtime effect: subscribes once a session is known, and never twice. */
    method SubscriptionEffect() returns (subscribed: bool)
      requires Valid()
      modifies this`isSubscribed, this`openChannels
      ensures Valid()
      ensures subscribed <==> !old(isSubscribed) && sessionId != ""
      ensures isSubscribed == (old(isSubscribed) || subscribed)
      ensures openChannels <= 1
    {
      if isSubscribed || sessionId == "" {
        return false;
      }
      isSubscribed := true;
      openChannels := openChannels + 1;
      subscribed := true;
    }

    /** The effect's cleanup: unsubscribes and lowers the guard. */
    method SubscriptionCleanup()
      requires Valid() && isSubscribed
      modifies this`isSubscribed, this`openChannels
      ensures Valid()
      ensures !isSubscribed && openChannels == 0
    {
      isSubscribed := false;
      openChannels := openChannels - 1;
    }

    /** The effect run again while subscribed (a re-render) opens no second channel. */
    method EffectTwiceOpensOneChannel() returns (first: bool, second: bool)
      requires Valid() && sessionId != ""
      modifies this`isSubscribed, this`openChannels
      ensures Valid()
      ensures first == !old(isSubscribed) && !second
      ensures isSubscribed && openChannels == 1
    {
      first := SubscriptionEffect();
      second := SubscriptionEffect();
    }

    /**
     * A realtime INSERT notification: appended unless its id is already in
     * the buffer; an agent message hides the waiting indicator either way
     * (the debounce timer is left running).
     */
    method OnRealtimeInsert(m: Message)
      requires isSubscribed
      modifies this`messages, this`waitingForAgent
      ensures messages == AppendIfAbsent(old(messages), m)
      ensures HasId(old(messages), m.id) ==> messages == old(messages)
      ensures !HasId(old(messages), m.id) ==> messages == old(messages) + [m]
      ensures m.role == Agent ==> !waitingForAgent
      ensures m.role == User ==> waitingForAgent == old(waitingForAgent)
    {
      messages := AppendIfAbsent(messages, m);
      if m.role == Agent {
        waitingForAgent := false;
      }
    }

    /** The same notification delivered twice changes the buffer as once. */
    method NotificationDeliveredTwice(m: Message)
      requires isSubscribed
      modifies this`messages, this`waitingForAgent
      ensures messages == AppendIfAbsent(old(messages), m)
      ensures |messages| <= |old(messages)| + 1
    {
      OnRealtimeInsert(m);
      OnRealtimeInsert(m);
      AppendIfAbsentIdempotent(old(messages), m);
    }

    /** `sendMessage` before its first await. */
    method BeginSend()
      modifies this`sending
      ensures sending
    {
      sending := true;
    }

    /** `clearTimeout(waitingTimeoutRef.current)` followed by hiding the indicator. */
    method StopWaiting()
      modifies this`debounceArmed, this`waitingForAgent
      ensures !debounceArmed && !waitingForAgent
    {
      debounceArmed := false;
      waitingForAgent := false;
    }

    /**
     * The `try` block of `sendMessage` after the user row is stored: merges
     * it into the buffer as the realtime handler does (line 338 appends it
     * unconditionally, see `EchoThenSendAsWrittenDuplicates`), arms the
     * debounce and handles the webhook. `threw` tells whether
     * control reaches the `catch` block; `agentTexts` are the agent rows
     * handed to the store.
     */
    method SendAfterInsert(row: Message, webhook: WebhookOutcome, errorInsert: Settled)
      returns (threw: bool, agentTexts: seq<string>)
      modifies this`messages, this`waitingForAgent, this`debounceArmed,
        this`strayDebounces, this`pendingRefreshes, this`pendingFallbacks
      ensures messages == AppendIfAbsent(old(messages), row)
      ensures threw == WebhookThrows(webhook, errorInsert)
      ensures agentTexts == if webhook.Responded? && !webhook.ok then [ApologyText(webhook.body)] else []
      ensures pendingRefreshes == old(pendingRefreshes) +
        (if webhook.Responded? && !webhook.ok && errorInsert.Resolved? then 1 else 0)
      ensures pendingFallbacks == old(pendingFallbacks) + (if webhook.Responded? && webhook.ok then 1 else 0)
      ensures strayDebounces == old(strayDebounces) + (if old(debounceArmed) then 1 else 0)
      ensures webhook.NotConfigured? || (webhook.Responded? && !webhook.ok) ==> !waitingForAgent && !debounceArmed
      ensures !(webhook.NotConfigured? || (webhook.Responded? && !webhook.ok)) ==>
        waitingForAgent == old(waitingForAgent) && debounceArmed
    {
      threw, agentTexts := false, [];
      messages := AppendIfAbsent(messages, row);
      strayDebounces := strayDebounces + (if debounceArmed then 1 else 0);
      debounceArmed := true;
      match webhook {
        case NotConfigured =>
          StopWaiting();
        case Threw =>
          threw := true;
        case Responded(ok, body) =>
          if !ok {
            StopWaiting();
            agentTexts := [ApologyText(body)];
            if errorInsert.Rejected? {
              threw := true;
            } else {
              pendingRefreshes := pendingRefreshes + 1;
            }
          } else {
            pendingFallbacks := pendingFallbacks + 1;
          }
      }
    }

    /**
     * The `try` block of `sendMessage` after its first await, given what the
     * session resolution answered (the caller runs `BeginResolve` and, when
     * that starts a lookup, `CompleteResolve`), what the insert of the user
     * row, the webhook and the insert of its error text settled with.
     * `threw` tells whether control reaches the `catch` block; otherwise the
     * `finally` block clears `sending`. `agentTexts` are the agent rows
     * handed to the store.
     */
    method SendTry(session: Outcome<string>, insert: Outcome<Message>, webhook: WebhookOutcome, errorInsert: Settled)
      returns (threw: bool, agentTexts: seq<string>)
      modifies this`messages, this`sending, this`waitingForAgent, this`debounceArmed,
        this`strayDebounces, this`pendingRefreshes, this`pendingFallbacks
      ensures threw == SendThrows(session, insert, webhook, errorInsert)
      ensures threw ==> sending == old(sending)
      ensures !threw ==> !sending
      ensures var sent := session.Ok? && insert.Ok?;
        var rejected := sent && webhook.Responded? && !webhook.ok;
        // The user row is merged once stored.
        && messages == (if sent then AppendIfAbsent(old(messages), insert.value) else old(messages))
        // The response body (or the default) after a non-OK response.
        && agentTexts == (if rejected then [ApologyText(webhook.body)] else [])
        && pendingRefreshes == old(pendingRefreshes) + (if rejected && errorInsert.Resolved? then 1 else 0)
        && pendingFallbacks == old(pendingFallbacks) + (if sent && webhook.Responded? && webhook.ok then 1 else 0)
        // Re-arming the debounce strands the one the ref held.
        && strayDebounces == old(strayDebounces) + (if sent && old(debounceArmed) then 1 else 0)
        // No webhook or a non-OK response hides the indicator; otherwise the debounce is armed.
        && (sent && (webhook.NotConfigured? || rejected) ==> !waitingForAgent && !debounceArmed)
        && (sent && !(webhook.NotConfigured? || rejected) ==> waitingForAgent == old(waitingForAgent) && debounceArmed)
        && (!sent ==> waitingForAgent == old(waitingForAgent) && debounceArmed == old(debounceArmed))
    {
      threw, agentTexts := true, [];
      if session.Ok? && insert.Ok? {
        threw, agentTexts := SendAfterInsert(insert.value, webhook, errorInsert);
      }
      if !threw {
        sending := false;
      }
    }

    /**
     * The live channel delivers the user's row before its insert returns:
     * with the stored row merged by id, the buffer holds it once, in the
     * order it arrived, and stays free of duplicate ids.
     */
    method EchoBeforeInsertResponse(session: string, row: Message, webhook: WebhookOutcome, errorInsert: Settled)
      requires isSubscribed && UniqueIds(messages) && !HasId(messages, row.id)
      modifies this`messages, this`sending, this`waitingForAgent, this`debounceArmed,
        this`strayDebounces, this`pendingRefreshes, this`pendingFallbacks
      ensures messages == old(messages) + [row]
      ensures UniqueIds(messages)
    {
      OnRealtimeInsert(row);
      var _, _ := SendTry(Ok(session), Ok(row), webhook, errorInsert);
    }

    /**
     * The `catch` block of `sendMessage` up to its await: hides the
     * indicator, then `sessionId || getOrCreateSession()`, whose first step
     * is `BeginResolve`. The caller completes a started lookup with
     * `CompleteResolve`, which records the session it finds.
     */
    method BeginCatch() returns (start: ResolveStart)
      requires Valid()
      modifies this`waitingForAgent, this`debounceArmed,
        this`sessionCreationInProgress, this`sessionCreationPending, this`sessionQueries
      ensures Valid()
      ensures !waitingForAgent && !debounceArmed
      ensures old(sessionId) != "" ==> start == UseCached(old(sessionId))
      ensures old(sessionId) == "" && old(sessionCreationInProgress) ==> start == AwaitPending
      ensures old(sessionId) == "" && !old(sessionCreationInProgress) ==> start == Started
      ensures sessionQueries == old(sessionQueries) + (if start.Started? then 1 else 0)
      ensures start.Started? ==> sessionCreationInProgress
      ensures !start.Started? ==> sessionCreationInProgress == old(sessionCreationInProgress)
    {
      StopWaiting();
      start := BeginResolve();
    }

    /**
     * The rest of the `catch` block and the `finally` block, given the
     * session the catch block obtained and what the insert of the apology
     * settled with: the apology goes to the store and a refresh is
     * scheduled, or, when either failed, a local `error-` entry is shown.
     */
    method FinishCatch(retry: Outcome<string>, apologyInsert: Settled, nowMillis: nat, nowIso: string)
      returns (agentTexts: seq<string>)
      modifies this`messages, this`waitingForAgent, this`pendingRefreshes, this`sending
      ensures !sending
      ensures var local := retry.Err? || apologyInsert.Rejected?;
        && messages == old(messages) + (if local then [ErrorEntry(nowMillis, nowIso, sessionId)] else [])
        && agentTexts == (if retry.Ok? then [SendFailedApology] else [])
        && pendingRefreshes == old(pendingRefreshes) + (if local then 0 else 1)
        && (local ==> !waitingForAgent)
        && (!local ==> waitingForAgent == old(waitingForAgent))
    {
      agentTexts := [];
      if retry.Ok? {
        agentTexts := [SendFailedApology];
      }
      if retry.Err? || apologyInsert.Rejected? {
        messages := messages + [ErrorEntry(nowMillis, nowIso, sessionId)];
        waitingForAgent := false;
      } else {
        pendingRefreshes := pendingRefreshes + 1;
      }
      sending := false;
    }

    /**
     * A send that fails with no session known: the catch block runs the
     * lookup itself, and the session it resolves is recorded, so the next
     * resolution reuses it without a store call.
     */
    method CatchResolvesSession(lookup: Outcome<Option<string>>, insert: Outcome<string>, requery: Option<string>)
      returns (retry: Outcome<string>, next: ResolveStart)
      requires Valid() && sessionId == "" && !sessionCreationInProgress
      modifies this`waitingForAgent, this`debounceArmed, this`sessionId, this`sessionCreationInProgress,
        this`sessionCreationPending, this`sessionQueries, this`sessionInserts
      ensures Valid() && !waitingForAgent
      ensures retry.Ok? ==> sessionId == retry.value
      ensures retry.Err? ==> sessionId == ""
      ensures next == if retry.Ok? && retry.value != "" then UseCached(retry.value) else Started
      ensures sessionQueries >= old(sessionQueries) + 1
    {
      var start := BeginCatch();
      retry := CompleteResolve(lookup, insert, requery);
      next := BeginResolve();
    }

    /** The 300 ms debounce fires, the one the ref holds or a stray one: shows the indicator. */
    method OnWaitingDebounce(stray: bool)
      requires if stray then strayDebounces > 0 else debounceArmed
      modifies this`waitingForAgent, this`debounceArmed, this`strayDebounces
      ensures waitingForAgent
      ensures stray ==> strayDebounces == old(strayDebounces) - 1 && debounceArmed == old(debounceArmed)
      ensures !stray ==> !debounceArmed && strayDebounces == old(strayDebounces)
    {
      if stray {
        strayDebounces := strayDebounces - 1;
      } else {
        debounceArmed := false;
      }
      waitingForAgent := true;
    }

    /** A 1000 ms refresh timer fires. */
    method OnRefreshTimer(page: Outcome<seq<Message>>)
      requires pendingRefreshes > 0
      modifies this`pendingRefreshes, this`messages, this`offset, this`hasMore
      ensures pendingRefreshes == old(pendingRefreshes) - 1
      ensures sessionId != "" && page.Ok? ==>
        messages == Reversed(page.value) && offset == |page.value| && hasMore == (|page.value| == PageSize)
      ensures sessionId == "" || page.Err? ==>
        messages == old(messages) && offset == old(offset) && hasMore == old(hasMore)
    {
      pendingRefreshes := pendingRefreshes - 1;
      var _ := RefreshLatest(page);
    }

    /** The 5000 ms fallback after an OK response: refreshes, then hides the indicator whatever the refresh did. */
    method OnFallbackTimer(page: Outcome<seq<Message>>)
      requires pendingFallbacks > 0
      modifies this`pendingFallbacks, this`messages, this`offset, this`hasMore,
        this`debounceArmed, this`waitingForAgent
      ensures pendingFallbacks == old(pendingFallbacks) - 1
      ensures !waitingForAgent && !debounceArmed
      ensures sessionId != "" && page.Ok? ==>
        messages == Reversed(page.value) && offset == |page.value| && hasMore == (|page.value| == PageSize)
      ensures sessionId == "" || page.Err? ==>
        messages == old(messages) && offset == old(offset) && hasMore == old(hasMore)
    {
      pendingFallbacks := pendingFallbacks - 1;
      var _ := RefreshLatest(page);
      StopWaiting();
    }

    /** `handleFeedback`: selects the message and the kind and opens the modal. */
    method HandleFeedback(messageId: string, kind: Feedback)
      requires Valid()
      modifies this`selectedMessageId, this`selectedFeedbackType, this`showFeedbackModal
      ensures Valid()
      ensures selectedMessageId == messageId && selectedFeedbackType == Some(kind) && showFeedbackModal
    {
      selectedMessageId := messageId;
      selectedFeedbackType := Some(kind);
      showFeedbackModal := true;
    }

    /**
     * `handleModalSubmit`, given how the feedback update settled. Without a
     * selection nothing happens; otherwise the selected entry is updated only
     * when the store accepted, and the modal closes either way.
     */
    method HandleModalSubmit(text: string, update: Outcome<()>)
      requires Valid()
      modifies this`messages, this`selectedMessageId, this`selectedFeedbackType, this`showFeedbackModal
      ensures Valid()
      ensures old(selectedMessageId) == "" || old(selectedFeedbackType).None? ==>
        messages == old(messages) && selectedMessageId == old(selectedMessageId) &&
        selectedFeedbackType == old(selectedFeedbackType) && showFeedbackModal == old(showFeedbackModal)
      ensures old(selectedMessageId) != "" && old(selectedFeedbackType).Some? ==>
        !showFeedbackModal && selectedMessageId == "" && selectedFeedbackType.None? &&
        messages == (if update.Ok?
                     then ApplyFeedback(old(messages), old(selectedMessageId), old(selectedFeedbackType).value, text)
                     else old(messages))
    {
      if selectedMessageId == "" || selectedFeedbackType.None? {
        return;
      }
      if update.Ok? {
        messages := ApplyFeedback(messages, selectedMessageId, selectedFeedbackType.value, text);
      }
      HandleModalClose();
    }

    /** `handleModalClose`: closes the modal and clears the selection. */
    method HandleModalClose()
      requires Valid()
      modifies this`selectedMessageId, this`selectedFeedbackType, this`showFeedbackModal
      ensures Valid()
      ensures !showFeedbackModal && selectedMessageId == "" && selectedFeedbackType.None?
    {
      showFeedbackModal := false;
      selectedMessageId := "";
      selectedFeedbackType := None;
    }
  }
}
