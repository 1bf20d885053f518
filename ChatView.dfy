/**
 * The chat view's session controller: the message list, the history cursor,
 * the pending-message slot, the typing flags and the current conversation id,
 * and one method per event handler. A handler that awaits the network is split
 * into a method that runs up to the request (returning what would be sent) and
 * a method that runs when the reply, or the failure, comes back. Delayed calls
 * (`setTimeout`) and interval ticks (`setInterval`) are events of their own.
 */
module ChatView {
  import opened Wrappers
  import opened Text
  import opened ChatItems
  import opened Typewriter

  /** Items per history page. */
  const PageSize := 5
  /** A scroll position at most this far from the top loads the next page. */
  const ScrollThreshold := 20
  /** The answer shown when the send request fails. */
  const SendErrorText := "Đã có lỗi xảy ra, vui lòng thử lại sau."
  /** The answer shown when the server replies without an answer. */
  const NoAnswerText := "Xin lỗi, hiện tại tôi không có câu trả lời cho câu hỏi này."

  /** A history request: conversation, page number, page size and the stored visitor id. */
  datatype HistoryRequest = HistoryRequest(chatId: string, page: int, size: int, visitorId: Option<string>)

  /** The `Data` of a history reply: a page newest first, and whether older pages exist. */
  datatype HistoryData = HistoryData(items: seq<ChatItem>, hasMore: bool)

  /** How a history request ended: failed, or replied with or without `Data`. */
  datatype HistoryOutcome = HistoryFailed | HistoryReplied(data: Option<HistoryData>)

  /** A send request: the question, the conversation id known at the time and the stored visitor id. */
  datatype SendRequest = SendRequest(question: string, chatId: Option<string>, visitorId: Option<string>)

  /** The `Data` of a send reply or of a `chat:response` event. */
  datatype ReplyData = ReplyData(
    historyId: Option<string>,
    answer: Option<string>,
    chatId: Option<string>,
    visitorId: Option<string>)

  /** How a send request ended: failed, or replied with or without `Data`. */
  datatype SendOutcome = SendFailed | SendReplied(data: Option<ReplyData>)

  /** What the handlers that may learn a new conversation id or visitor id report. */
  datatype Notice = Notice(createdChatId: Option<string>, savedVisitorId: Option<string>)

  /** The feedback call: an update of an existing record or the creation of one. */
  datatype FeedbackRequest =
    | UpdateFeedback(feedbackId: string, rating: int, comment: string)
    | CreateFeedback(historyId: string, rating: int, comment: string)

  /** How a feedback call ended: failed, or replied with a status code and the new record's id. */
  datatype FeedbackOutcome = FeedbackFailed | FeedbackReplied(code: int, recordId: string)

  /** All of the session's state at one instant. */
  datatype State = State(
    currentChatId: Option<string>,
    chatItems: seq<ChatItem>,
    page: int,
    hasMore: bool,
    loadingInitial: bool,
    loadingMore: bool,
    botTyping: bool,
    currentTypingAnswer: string,
    inFlight: bool,
    pendingId: Option<string>,
    processedInitialQuestion: bool,
    playbacks: seq<Playback>,
    scheduled: seq<string>)

  /** The state of a freshly mounted view for conversation `chatId`. */
  function Mounted(chatId: Option<string>): (s: State)
    ensures s.currentChatId == chatId && s.chatItems == [] && s.page == 1 && s.hasMore
    ensures !s.inFlight && !s.botTyping && s.pendingId.None? && s.playbacks == [] && s.scheduled == []
  {
    State(chatId, [], 1, true, false, false, false, "", false, None, false, [], [])
  }

  /** The scroll trigger: near the top, older pages exist, and no fetch is in flight. */
  predicate ShouldLoadMore(scrollTop: int, hasMore: bool, inFlight: bool)
  {
    scrollTop <= ScrollThreshold && hasMore && !inFlight
  }

  /** The call `handleFeedback` makes: an update when a feedback id is given, a creation otherwise. */
  function FeedbackCall(historyId: string, rating: int, comment: string, feedbackId: Option<string>): (r: FeedbackRequest)
    ensures Truthy(feedbackId) <==> r.UpdateFeedback?
    ensures r.UpdateFeedback? ==> r == UpdateFeedback(feedbackId.value, rating, comment)
    ensures r.CreateFeedback? ==> r == CreateFeedback(historyId, rating, comment)
  {
    if Truthy(feedbackId) then UpdateFeedback(feedbackId.value, rating, comment)
    else CreateFeedback(historyId, rating, comment)
  }

  /**
   * The state after a successful reply for the exchange with temporary id
   * `tempId` is applied: a server id renames that exchange's items and becomes
   * the pending id, a new conversation id is adopted (the list stays), and an
   * answer is queued for its typewriter.
   */
  function Reconciled(s: State, tempId: string, d: ReplyData): State
  {
    var adopt := Truthy(d.chatId) && d.chatId != s.currentChatId;
    s.(currentChatId := if adopt then d.chatId else s.currentChatId,
       chatItems := if Truthy(d.historyId) then RenameId(s.chatItems, tempId, d.historyId.value) else s.chatItems,
       pendingId := if Truthy(d.historyId) then d.historyId else s.pendingId,
       scheduled := s.scheduled + (if Truthy(d.answer) then [d.answer.value] else []))
  }

  /** The new conversation id to announce and the visitor id to store after reply `d`. */
  function ReplyNotice(s: State, d: ReplyData): Notice
  {
    Notice(if Truthy(d.chatId) && d.chatId != s.currentChatId then d.chatId else None,
           if Truthy(d.visitorId) then d.visitorId else None)
  }

  /**
   * The life of one sent question, on the list: the optimistic item appended
   * by the send, renamed to the server id `historyId` by the reconciliation
   * and written by the typewriter to the full `answer`, ends as the last item
   * with the server id, the question, the answer and its creation time; every
   * earlier item keeps its question and creation time.
   */
  lemma SentItemCompletes(items: seq<ChatItem>, tempId: string, question: string, createdAt: string,
                          historyId: string, answer: string)
    ensures var sent := items + [NewItem(tempId, question, createdAt)];
      var done := SetAnswer(RenameId(sent, tempId, historyId), historyId, answer);
      |done| == |items| + 1 &&
      done[|items|] == ChatItem(historyId, question, answer, createdAt, None, false) &&
      forall i :: 0 <= i < |items| ==>
        done[i].question == items[i].question && done[i].createdAt == items[i].createdAt
  {
    var sent := items + [NewItem(tempId, question, createdAt)];
    var renamed := RenameId(sent, tempId, historyId);
    RenameIdAt(sent, tempId, historyId);
    SetAnswerAt(renamed, historyId, answer);
    assert Ids(renamed)[|items|] == historyId;
  }

  class ChatSession {
    /** The conversation shown; none before one exists. */
    var currentChatId: Option<string>
    /** The message list, oldest first. */
    var chatItems: seq<ChatItem>
    /** The last history page loaded. */
    var page: int
    /** Whether the server reported older pages. */
    var hasMore: bool
    /** Spinner flags for the first page and for later pages. */
    var loadingInitial: bool
    var loadingMore: bool
    /** Whether the assistant is shown as typing. */
    var botTyping: bool
    /** The text the most recent typewriter tick revealed. */
    var currentTypingAnswer: string
    /** The in-flight guard of the history fetch (`loadingMoreRef`). */
    var inFlight: bool
    /** The id the typewriter writes to (`tempMessageIdRef`): temporary, then the server's. */
    var pendingId: Option<string>
    /** Whether the question handed over from the home page was already sent. */
    var processedInitialQuestion: bool
    /** The typewriter intervals that are running; each keeps ticking until it finishes. */
    var playbacks: seq<Playback>
    /** Answers waiting on a `setTimeout` before their typewriter starts. */
    var scheduled: seq<string>

    /**
     * The page cursor never drops below 1, a spinner is only shown while the
     * in-flight guard is held, and no running typewriter is past its answer.
     */
    ghost predicate Valid()
      reads this
    {
      page >= 1 &&
      ((loadingInitial || loadingMore) ==> inFlight) &&
      forall p :: p in playbacks ==> p.index <= |p.fullText|
    }

    function Snapshot(): State
      reads this
    {
      State(currentChatId, chatItems, page, hasMore, loadingInitial, loadingMore, botTyping,
            currentTypingAnswer, inFlight, pendingId, processedInitialQuestion, playbacks, scheduled)
    }

    /** Mounting the view: the conversation is `initialChatId || chatIdFromParams`. */
    constructor (initialChatId: Option<string>, chatIdFromParams: Option<string>)
      ensures Valid()
      ensures Snapshot() == Mounted(Or(initialChatId, chatIdFromParams))
    {
      currentChatId := Or(initialChatId, chatIdFromParams);
      chatItems := [];
      page := 1;
      hasMore := true;
      loadingInitial, loadingMore := false, false;
      botTyping := false;
      currentTypingAnswer := "";
      inFlight := false;
      pendingId := None;
      processedInitialQuestion := false;
      playbacks, scheduled := [], [];
    }

    /**
     * The reset effect, run when the route's or the parent's chat id is seen.
     * The same id changes nothing. A different id is adopted and the list, the
     * cursor and the typing flags are reset; running typewriters, waiting
     * answers, the pending id and the fetch guard are left as they are.
     */
    method SyncChatId(initialChatId: Option<string>, chatIdFromParams: Option<string>)
      requires Valid()
      modifies this
      ensures Valid()
      ensures var newChatId := Or(initialChatId, chatIdFromParams);
        if newChatId == old(currentChatId) then Snapshot() == old(Snapshot())
        else Snapshot() == old(Snapshot()).(currentChatId := newChatId, chatItems := [], page := 1,
               hasMore := true, botTyping := false, currentTypingAnswer := "",
               processedInitialQuestion := false)
    {
      var newChatId := Or(initialChatId, chatIdFromParams);
      if newChatId != currentChatId {
        currentChatId := newChatId;
        chatItems := [];
        page := 1;
        hasMore := true;
        botTyping := false;
        currentTypingAnswer := "";
        processedInitialQuestion := false;
      }
    }

    /**
     * The effect that hands over the question typed on the home page: once per
     * conversation, when there is a question, the navigation came from the
     * home page and a conversation id is known, it returns the question, which
     * the view sends after a delay.
     */
    method TakeInitialQuestion(initialQuestion: Option<string>, fromHome: bool) returns (question: Option<string>)
      requires Valid()
      modifies this
      ensures Valid()
      ensures var go := Truthy(initialQuestion) && fromHome && Truthy(old(currentChatId)) && !old(processedInitialQuestion);
        (go ==> question == initialQuestion && Snapshot() == old(Snapshot()).(processedInitialQuestion := true)) &&
        (!go ==> question.None? && Snapshot() == old(Snapshot()))
    {
      if Truthy(initialQuestion) && fromHome && Truthy(currentChatId) && !processedInitialQuestion {
        processedInitialQuestion := true;
        question := initialQuestion;
      } else {
        question := None;
      }
    }

    /**
     * The first half of `fetchChatHistory`: without a conversation id, or while
     * a fetch is in flight, nothing happens and nothing is requested. Otherwise
     * the guard is taken, the spinner for this page is shown, and the page is
     * requested.
     */
    method BeginFetchHistory(pageNumber: int, visitorId: Option<string>) returns (request: Option<HistoryRequest>)
      requires Valid() && pageNumber >= 1
      modifies this
      ensures Valid()
      ensures !Truthy(old(currentChatId)) || old(inFlight) ==> request.None? && Snapshot() == old(Snapshot())
      ensures Truthy(old(currentChatId)) && !old(inFlight) ==>
        request == Some(HistoryRequest(old(currentChatId).value, pageNumber, PageSize, visitorId)) &&
        Snapshot() == old(Snapshot()).(inFlight := true,
          loadingInitial := old(loadingInitial) || pageNumber == 1,
          loadingMore := old(loadingMore) || pageNumber != 1)
    {
      if !Truthy(currentChatId) || inFlight {
        request := None;
        return;
      }
      inFlight := true;
      if pageNumber == 1 {
        loadingInitial := true;
      } else {
        loadingMore := true;
      }
      request := Some(HistoryRequest(currentChatId.value, pageNumber, PageSize, visitorId));
    }

    /**
     * The second half of `fetchChatHistory`. With data, `hasMore` and the page
     * are taken from the reply and the page is merged into the list (replacing
     * it for page 1, in front of it otherwise), whatever conversation is shown
     * by now. Without data or on failure the list and cursor stay. In every
     * case the guard is released and both spinners are hidden; `failed` says
     * whether an error notification is shown.
     */
    method CompleteFetchHistory(pageNumber: int, outcome: HistoryOutcome) returns (failed: bool)
      requires Valid() && pageNumber >= 1
      modifies this
      ensures Valid()
      ensures failed <==> outcome.HistoryFailed?
      ensures outcome.HistoryReplied? && outcome.data.Some? ==>
        Snapshot() == old(Snapshot()).(hasMore := outcome.data.value.hasMore,
          chatItems := MergePage(pageNumber, old(chatItems), outcome.data.value.items),
          page := pageNumber, inFlight := false, loadingInitial := false, loadingMore := false)
      ensures !(outcome.HistoryReplied? && outcome.data.Some?) ==>
        Snapshot() == old(Snapshot()).(inFlight := false, loadingInitial := false, loadingMore := false)
    {
      failed := outcome.HistoryFailed?;
      if outcome.HistoryReplied? && outcome.data.Some? {
        var data := outcome.data.value;
        hasMore := data.hasMore;
        chatItems := MergePage(pageNumber, chatItems, data.items);
        page := pageNumber;
      }
      inFlight := false;
      loadingInitial := false;
      loadingMore := false;
    }

    /**
     * The effect run when the conversation id changes: with an id, the first
     * page is fetched; without one, the list is emptied.
     */
    method LoadForChatId(visitorId: Option<string>) returns (request: Option<HistoryRequest>)
      requires Valid()
      modifies this
      ensures Valid()
      ensures !Truthy(old(currentChatId)) ==> request.None? && Snapshot() == old(Snapshot()).(chatItems := [])
      ensures Truthy(old(currentChatId)) && old(inFlight) ==> request.None? && Snapshot() == old(Snapshot())
      ensures Truthy(old(currentChatId)) && !old(inFlight) ==>
        request == Some(HistoryRequest(old(currentChatId).value, 1, PageSize, visitorId)) &&
        Snapshot() == old(Snapshot()).(inFlight := true, loadingInitial := true)
    {
      if Truthy(currentChatId) {
        request := BeginFetchHistory(1, visitorId);
      } else {
        chatItems := [];
        request := None;
      }
    }

    /**
     * The scroll handler: the next page is requested exactly when the view is
     * within the threshold of the top, older pages exist and no fetch is in
     * flight (and a conversation id is known).
     */
    method OnScroll(scrollTop: int, visitorId: Option<string>) returns (request: Option<HistoryRequest>)
      requires Valid()
      modifies this
      ensures Valid()
      ensures request.Some? <==> ShouldLoadMore(scrollTop, old(hasMore), old(inFlight)) && Truthy(old(currentChatId))
      ensures request.Some? ==>
        request == Some(HistoryRequest(old(currentChatId).value, old(page) + 1, PageSize, visitorId)) &&
        Snapshot() == old(Snapshot()).(inFlight := true, loadingMore := true)
      ensures request.None? ==> Snapshot() == old(Snapshot())
    {
      if ShouldLoadMore(scrollTop, hasMore, inFlight) {
        request := BeginFetchHistory(page + 1, visitorId);
      } else {
        request := None;
      }
    }

    /**
     * The `chat:receive` event: a question and answer pushed for conversation
     * `chatId`. For another conversation nothing changes. Otherwise the new
     * item is appended with an empty answer, its temporary id becomes the
     * pending id, and the answer waits for its typewriter to start.
     */
    method ReceiveChat(chatId: string, question: string, answer: string, tempId: string, createdAt: string)
      requires Valid()
      modifies this
      ensures Valid()
      ensures Some(chatId) != old(currentChatId) ==> Snapshot() == old(Snapshot())
      ensures Some(chatId) == old(currentChatId) ==>
        Snapshot() == old(Snapshot()).(pendingId := Some(tempId),
          chatItems := old(chatItems) + [NewItem(tempId, question, createdAt)],
          scheduled := old(scheduled) + [answer])
    {
      if Some(chatId) != currentChatId {
        return;
      }
      pendingId := Some(tempId);
      chatItems := chatItems + [NewItem(tempId, question, createdAt)];
      scheduled := scheduled + [answer];
    }

    /**
     * Applies a successful reply to the exchange with temporary id `tempId`:
     * a server id renames the item and becomes the pending id; a new
     * conversation id is adopted without touching the list; an answer waits for
     * its typewriter. Returns the new conversation id and the visitor id to
     * store, when there are any.
     */
    method Reconcile(tempId: string, data: ReplyData) returns (notice: Notice)
      requires Valid()
      modifies this
      ensures Valid()
      ensures notice == ReplyNotice(old(Snapshot()), data)
      ensures Snapshot() == Reconciled(old(Snapshot()), tempId, data)
    {
      if Truthy(data.historyId) {
        chatItems := RenameId(chatItems, tempId, data.historyId.value);
        pendingId := data.historyId;
      }
      var adopt := Truthy(data.chatId) && data.chatId != currentChatId;
      notice := Notice(if adopt then data.chatId else None, if Truthy(data.visitorId) then data.visitorId else None);
      if adopt {
        currentChatId := data.chatId;
      }
      if Truthy(data.answer) {
        scheduled := scheduled + [data.answer.value];
      }
    }

    /**
     * The `chat:response` event. With no pending id nothing changes. A status
     * other than 1 clears the pending id and the typing flag and leaves the
     * list. A success without `Data` stops the handler with nothing changed.
     * Otherwise the reply is reconciled with the pending id, and without an
     * answer the typing flag is cleared.
     */
    method ChatResponse(code: int, data: Option<ReplyData>) returns (notice: Notice)
      requires Valid()
      modifies this
      ensures Valid()
      ensures !Truthy(old(pendingId)) ==> notice == Notice(None, None) && Snapshot() == old(Snapshot())
      ensures Truthy(old(pendingId)) && code != 1 ==>
        notice == Notice(None, None) && Snapshot() == old(Snapshot()).(botTyping := false, pendingId := None)
      ensures Truthy(old(pendingId)) && code == 1 && data.None? ==>
        notice == Notice(None, None) && Snapshot() == old(Snapshot())
      ensures Truthy(old(pendingId)) && code == 1 && data.Some? ==>
        notice == ReplyNotice(old(Snapshot()), data.value) &&
        Snapshot() == Reconciled(old(Snapshot()), old(pendingId).value, data.value).(
          botTyping := old(botTyping) && Truthy(data.value.answer))
    {
      notice := Notice(None, None);
      if !Truthy(pendingId) {
        return;
      }
      var tempId := pendingId.value;
      if code != 1 {
        botTyping := false;
        pendingId := None;
        return;
      }
      if data.None? {
        return;
      }
      notice := Reconcile(tempId, data.value);
      if !Truthy(data.value.answer) {
        botTyping := false;
      }
    }

    /**
     * The first half of `handleSend`: a blank question changes nothing and
     * sends nothing. Otherwise exactly one item with the temporary id, the
     * question and an empty answer is appended, the temporary id becomes the
     * pending id, the assistant is shown as typing and the question is sent.
     */
    method BeginSend(question: string, tempId: string, createdAt: string, visitorId: Option<string>) returns (request: Option<SendRequest>)
      requires Valid()
      modifies this
      ensures Valid()
      ensures IsBlank(question) ==> request.None? && Snapshot() == old(Snapshot())
      ensures !IsBlank(question) ==>
        request == Some(SendRequest(question, old(currentChatId), visitorId)) &&
        Snapshot() == old(Snapshot()).(pendingId := Some(tempId),
          chatItems := old(chatItems) + [NewItem(tempId, question, createdAt)],
          botTyping := true)
    {
      var trimmed := Trim(question);
      if trimmed == [] {
        request := None;
      } else {
        pendingId := Some(tempId);
        chatItems := chatItems + [NewItem(tempId, question, createdAt)];
        botTyping := true;
        request := Some(SendRequest(question, currentChatId, visitorId));
      }
    }

    /**
     * The second half of `handleSend`, for the exchange with temporary id
     * `tempId`. A failed request, or a reply without `Data`, writes the fixed
     * error text into that item, removes nothing, clears the typing flag and
     * keeps the pending id. A reply is reconciled; without an answer the fixed
     * "no answer" text goes into the item with the server id, or the temporary
     * id when the server sent none, and the typing flag is cleared.
     */
    method CompleteSend(tempId: string, outcome: SendOutcome) returns (notice: Notice)
      requires Valid()
      modifies this
      ensures Valid()
      ensures outcome.SendFailed? || outcome.data.None? ==>
        notice == Notice(None, None) &&
        Snapshot() == old(Snapshot()).(chatItems := SetAnswer(old(chatItems), tempId, SendErrorText), botTyping := false)
      ensures outcome.SendReplied? && outcome.data.Some? ==>
        var d := outcome.data.value;
        var r := Reconciled(old(Snapshot()), tempId, d);
        notice == ReplyNotice(old(Snapshot()), d) &&
        Snapshot() == if Truthy(d.answer) then r
                      else r.(chatItems := SetAnswer(r.chatItems, OrElse(d.historyId, tempId), NoAnswerText),
                              botTyping := false)
    {
      if outcome.SendFailed? || outcome.data.None? {
        notice := Notice(None, None);
        chatItems := SetAnswer(chatItems, tempId, SendErrorText);
        botTyping := false;
        return;
      }
      var data := outcome.data.value;
      notice := Reconcile(tempId, data);
      if !Truthy(data.answer) {
        chatItems := SetAnswer(chatItems, OrElse(data.historyId, tempId), NoAnswerText);
        botTyping := false;
      }
    }

    /**
     * A delayed `typeWriteAnswer` call whose timer fired: the assistant is
     * shown as typing and the revealed text is emptied; with a pending id a
     * typewriter starts on it, without one nothing else happens and the list
     * is not written.
     */
    method StartTypewriter(k: nat)
      requires Valid() && k < |scheduled|
      modifies this
      ensures Valid()
      ensures var rest := old(scheduled[..k] + scheduled[k + 1..]);
        Snapshot() == old(Snapshot()).(scheduled := rest, botTyping := true, currentTypingAnswer := "",
          playbacks := old(playbacks) + (if Truthy(old(pendingId)) then [Playback(old(pendingId).value, old(scheduled[k]), 0)] else []))
    {
      var fullText := scheduled[k];
      scheduled := scheduled[..k] + scheduled[k + 1..];
      botTyping := true;
      currentTypingAnswer := "";
      if !Truthy(pendingId) {
        return;
      }
      playbacks := playbacks + [Playback(pendingId.value, fullText, 0)];
    }

    /**
     * One tick of the `k`-th running typewriter: its index advances, the
     * revealed text is written to the buffer and into the items with its
     * target id only. When the index reaches the answer's length the interval
     * stops, the typing flag and buffer are cleared and the pending id is
     * emptied, whichever exchange it belongs to by then.
     */
    method Tick(k: nat)
      requires Valid() && k < |playbacks|
      modifies this
      ensures Valid()
      ensures var p := old(playbacks[k]);
        var next := p.(index := p.index + 1);
        if Finished(next) then
          Snapshot() == old(Snapshot()).(chatItems := TickItems(old(chatItems), p),
            playbacks := old(playbacks[..k] + playbacks[k + 1..]),
            botTyping := false, currentTypingAnswer := "", pendingId := None)
        else
          Snapshot() == old(Snapshot()).(chatItems := TickItems(old(chatItems), p),
            playbacks := old(playbacks[k := next]), currentTypingAnswer := Partial(p))
    {
      var p := playbacks[k];
      var partial := Partial(p);
      currentTypingAnswer := partial;
      chatItems := TickItems(chatItems, p);
      var next := p.(index := p.index + 1);
      if Finished(next) {
        playbacks := playbacks[..k] + playbacks[k + 1..];
        botTyping := false;
        currentTypingAnswer := "";
        pendingId := None;
      } else {
        playbacks := playbacks[k := next];
      }
    }

    /**
     * The reply to a feedback call for the item with id `historyId`. With
     * status 1 the items with that id are marked as having feedback and carry
     * the record (the given feedback id on an update, the server's id on a
     * creation); otherwise, or when the call failed, nothing changes. Returns
     * whether the feedback was recorded.
     */
    method CompleteFeedback(historyId: string, rating: int, comment: string, feedbackId: Option<string>,
                            outcome: FeedbackOutcome, now: string) returns (recorded: bool)
      requires Valid()
      modifies this
      ensures Valid()
      ensures recorded <==> outcome.FeedbackReplied? && outcome.code == 1
      ensures recorded ==> Snapshot() == old(Snapshot()).(chatItems :=
        AttachFeedback(old(chatItems), historyId,
          if Truthy(feedbackId) then feedbackId.value else outcome.recordId,
          rating, comment, Truthy(feedbackId), now))
      ensures !recorded ==> Snapshot() == old(Snapshot())
    {
      recorded := outcome.FeedbackReplied? && outcome.code == 1;
      if recorded {
        var recordId := if Truthy(feedbackId) then feedbackId.value else outcome.recordId;
        chatItems := AttachFeedback(chatItems, historyId, recordId, rating, comment, Truthy(feedbackId), now);
      }
    }
  }
}
