/**
 * Clients of the session controller: concrete event sequences whose outcome
 * follows from the handlers' contracts alone.
 */
module Scenarios {
  import opened Wrappers
  import opened Text
  import opened ChatItems
  import opened Typewriter
  import opened ChatView
  import HomeView

  /**
   * A question asked on the home page: the conversation "c1" is created and the
   * view for it is opened with the question handed over.
   */
  method AskFromHome()
  {
    var home := new HomeView.Home();
    var q := "Điều kiện tuyển sinh?";
    assert q[0] == 'Đ';
    var create := home.BeginSend(q, None);
    assert create.Some? && home.loading;
    var result, _ := home.CompleteSend(q, HomeView.CreateReplied(1, None, Some(HomeView.CreatedChat("c1", None, None))));
    assert result.Ok? && result.value.path == "/chat/c1" && !home.loading;
    assert result.value.initialQuestion == q && result.value.fromHome;
  }

  /**
   * The view for "c1" sends the handed-over question; the reply carries the
   * server id "h1" and the answer "ok": the item is renamed and the answer
   * waits for its typewriter.
   */
  method SendHandedOver() returns (s: ChatSession)
    ensures s.Valid()
    ensures s.chatItems == [ChatItem("h1", "Q", "", "t0", None, false)]
    ensures s.pendingId == Some("h1") && s.scheduled == ["ok"] && s.playbacks == []
  {
    s := new ChatSession(Some("c1"), None);
    var handed := s.TakeInitialQuestion(Some("Q"), true);
    assert handed == Some("Q");
    assert "Q"[0] == 'Q';
    var request := s.BeginSend("Q", "temp-1", "t0", Some("v1"));
    assert request == Some(SendRequest("Q", Some("c1"), Some("v1")));
    assert s.chatItems == [NewItem("temp-1", "Q", "t0")];
    var _ := s.CompleteSend("temp-1", SendReplied(Some(ReplyData(Some("h1"), Some("ok"), Some("c1"), None))));
  }

  /** The typewriter for "ok" starts on the pending id and finishes after two ticks. */
  method TypeOut(s: ChatSession)
    requires s.Valid()
    requires s.chatItems == [ChatItem("h1", "Q", "", "t0", None, false)]
    requires s.pendingId == Some("h1") && s.scheduled == ["ok"] && s.playbacks == []
    modifies s
  {
    s.StartTypewriter(0);
    assert s.playbacks == [Playback("h1", "ok", 0)] && s.scheduled == [];
    s.Tick(0);
    assert s.chatItems[0].answer == "o" && s.botTyping;
    var items := s.chatItems;
    assert |items| == 1 && items[0] == ChatItem("h1", "Q", "o", "t0", None, false);
    s.Tick(0);
    assert Prefix("ok", 2) == "ok";
    assert s.chatItems == SetAnswer(items, "h1", "ok");
    assert |s.chatItems| == |Ids(s.chatItems)| == 1;
    assert s.chatItems == [ChatItem("h1", "Q", "ok", "t0", None, false)];
    assert s.playbacks == [] && !s.botTyping && s.pendingId.None? && s.currentTypingAnswer == "";
  }

  /** A pushed exchange for another conversation leaves the session as it was. */
  method PushForOtherChat()
  {
    var s := new ChatSession(Some("c1"), None);
    var before := s.Snapshot();
    s.ReceiveChat("c2", "q", "a", "temp-9", "t9");
    assert s.Snapshot() == before;
  }

  /**
   * Two pages of five: the first replaces the list, a scroll to the top asks
   * for page 2, a second scroll while it is in flight asks for nothing, and
   * the second page lands in front: ten items, oldest first.
   */
  method TwoPages(page1: seq<ChatItem>, page2: seq<ChatItem>)
    requires |page1| == 5 && |page2| == 5
  {
    var s := new ChatSession(None, Some("c1"));
    var r1 := s.LoadForChatId(None);
    assert r1 == Some(HistoryRequest("c1", 1, 5, None));
    var _ := s.CompleteFetchHistory(1, HistoryReplied(Some(HistoryData(page1, true))));
    assert |s.chatItems| == 5 && s.page == 1 && s.hasMore && !s.inFlight;

    var r2 := s.OnScroll(0, None);
    assert r2 == Some(HistoryRequest("c1", 2, 5, None));
    var r3 := s.OnScroll(0, None);
    assert r3.None?;
    var _ := s.CompleteFetchHistory(2, HistoryReplied(Some(HistoryData(page2, false))));
    assert |s.chatItems| == 10 && s.page == 2 && !s.hasMore;
    assert s.chatItems[0] == page2[4] && s.chatItems[4] == page2[0];
    assert s.chatItems[5] == page1[4] && s.chatItems[9] == page1[0];
  }

  /**
   * A send that fails at the transport: the item stays with the fixed error
   * text as its answer, typing stops, no typewriter is waiting, and the pending
   * id is still the temporary one.
   */
  method SendFails()
  {
    var s := new ChatSession(Some("c1"), None);
    assert "hi"[0] == 'h';
    var _ := s.BeginSend("hi", "temp-2", "t2", None);
    var items := s.chatItems;
    assert items == [NewItem("temp-2", "hi", "t2")];
    var _ := s.CompleteSend("temp-2", SendFailed);
    assert s.chatItems == SetAnswer(items, "temp-2", SendErrorText);
    assert |Ids(s.chatItems)| == 1;
    assert s.chatItems == [ChatItem("temp-2", "hi", SendErrorText, "t2", None, false)];
    assert !s.botTyping && s.scheduled == [] && s.playbacks == [];
    assert s.pendingId == Some("temp-2");
  }

  /**
   * The `chat:response` event for the exchange `SendHandedOver` already
   * reconciled: the rename is a no-op and the answer is queued a second time.
   */
  method ResponseAfterReply(s: ChatSession)
    requires s.Valid()
    requires s.chatItems == [ChatItem("h1", "Q", "", "t0", None, false)]
    requires s.pendingId == Some("h1") && s.scheduled == ["ok"] && s.playbacks == []
    modifies s
    ensures s.Valid()
    ensures s.chatItems == [ChatItem("h1", "Q", "", "t0", None, false)]
    ensures s.pendingId == Some("h1") && s.scheduled == ["ok", "ok"] && s.playbacks == []
  {
    var items := s.chatItems;
    var _ := s.ChatResponse(1, Some(ReplyData(Some("h1"), Some("ok"), Some("c1"), None)));
    RenameIdAt(items, "h1", "h1");
  }

  /**
   * With the answer queued twice, two typewriters write to the same item.
   * Once the first finishes, the first tick of the second writes one character
   * over the full answer: the answer shrinks from "ok" to "o".
   */
  method TwoTypewritersShrinkAnswer(s: ChatSession)
    requires s.Valid()
    requires s.chatItems == [ChatItem("h1", "Q", "", "t0", None, false)]
    requires s.pendingId == Some("h1") && s.scheduled == ["ok", "ok"] && s.playbacks == []
    modifies s
  {
    s.StartTypewriter(0);
    s.StartTypewriter(0);
    assert s.playbacks == [Playback("h1", "ok", 0), Playback("h1", "ok", 0)];
    var before := s.chatItems;
    s.Tick(0);
    s.Tick(0);
    assert Prefix("ok", 2) == "ok";
    assert s.chatItems == SetAnswer(SetAnswer(before, "h1", "o"), "h1", "ok");
    SetAnswerOverwrite(before, "h1", "o", "ok");
    SetAnswerAt(before, "h1", "ok");
    var full := s.chatItems;
    assert |full| == 1 && full[0].answer == "ok";
    assert s.playbacks == [Playback("h1", "ok", 0)];
    s.Tick(0);
    SetAnswerAt(full, "h1", "o");
    assert s.chatItems[0].answer == "o";
  }
}
