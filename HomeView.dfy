/**
 * The home page's new-conversation flow: the question is checked, a
 * conversation named after it is created, and on success the app navigates to
 * that conversation carrying the question along.
 */
module HomeView {
  import opened Wrappers
  import opened Text

  /** Characters of the question kept in the conversation name. */
  const NameLimit := 50
  const Ellipsis := "..."
  const DefaultChatName := "Cuộc trò chuyện mới"
  const CreateFailedText := "Không thể tạo đoạn chat mới"

  /** The creation request: the conversation name and the stored visitor id. */
  datatype CreateChatRequest = CreateChatRequest(name: string, visitorId: Option<string>)

  /** The `Data` of a creation reply: the new conversation's id, a visitor id, a name. */
  datatype CreatedChat = CreatedChat(id: string, visitorId: Option<string>, name: Option<string>)

  /** How the creation call ended. */
  datatype CreateOutcome =
    | CreateFailed(reason: string)
    | CreateReplied(code: int, message: Option<string>, data: Option<CreatedChat>)

  /** Why no navigation happened: the message of the error that was thrown. */
  datatype CreateError =
    | Rejected(message: string)
    | TransportError(message: string)
    | MalformedReply

  /** The navigation to the new conversation and the state it carries. */
  datatype Navigation = Navigation(path: string, initialQuestion: string, chatName: string, fromHome: bool)

  /**
   * The conversation name: the first 50 characters of the question, followed
   * by "..." exactly when the question is longer than that.
   */
  function ChatName(question: string): (name: string)
    ensures |name| <= NameLimit + |Ellipsis|
    ensures |question| <= NameLimit ==> name == question
    ensures |question| > NameLimit ==>
      |name| == NameLimit + |Ellipsis| && name[..NameLimit] == question[..NameLimit] && name[NameLimit..] == Ellipsis
  {
    Prefix(question, NameLimit) + (if |question| > NameLimit then Ellipsis else "")
  }

  /**
   * What follows the creation reply for `question`. Only a reply with status 1
   * and data navigates, to `/chat/<id>`, carrying the question, the flag that
   * the navigation came from the home page and the server's name or the
   * default name. A status other than 1 raises the server's message or a fixed
   * text; a failed call raises its own message.
   */
  function CreateResult(question: string, outcome: CreateOutcome): (r: Result<Navigation, CreateError>)
    ensures r.Ok? <==> outcome.CreateReplied? && outcome.code == 1 && outcome.data.Some?
    ensures r.Ok? ==>
      r.value.path == "/chat/" + outcome.data.value.id && r.value.initialQuestion == question &&
      r.value.fromHome && r.value.chatName == Or(outcome.data.value.name, Some(DefaultChatName)).value
    ensures outcome.CreateReplied? && outcome.code != 1 ==>
      r == Err(Rejected(Or(outcome.message, Some(CreateFailedText)).value))
    ensures outcome.CreateFailed? ==> r == Err(TransportError(outcome.reason))
  {
    match outcome
    case CreateFailed(reason) => Err(TransportError(reason))
    case CreateReplied(code, message, data) =>
      if code != 1 then Err(Rejected(Or(message, Some(CreateFailedText)).value))
      else if data.None? then Err(MalformedReply)
      else Ok(Navigation("/chat/" + data.value.id, question,
                         Or(data.value.name, Some(DefaultChatName)).value, true))
  }

  /** The visitor id to store: only one the server returned with a successful creation. */
  function VisitorIdToStore(outcome: CreateOutcome): (v: Option<string>)
    ensures v.Some? ==>
      outcome.CreateReplied? && outcome.code == 1 && outcome.data.Some? &&
      v == outcome.data.value.visitorId && v.value != ""
    ensures (outcome.CreateReplied? && outcome.code == 1 && outcome.data.Some? &&
             Truthy(outcome.data.value.visitorId)) ==> v.Some?
  {
    if outcome.CreateReplied? && outcome.code == 1 && outcome.data.Some? && Truthy(outcome.data.value.visitorId)
    then outcome.data.value.visitorId
    else None
  }

  class Home {
    /** Whether a conversation is being created. */
    var loading: bool

    constructor ()
      ensures !loading
    {
      loading := false;
    }

    /**
     * The first half of `handleSend`: a blank question requests nothing and
     * leaves `loading` alone; otherwise `loading` is set and the conversation
     * named after the question is requested.
     */
    method BeginSend(question: string, visitorId: Option<string>) returns (request: Option<CreateChatRequest>)
      modifies this
      ensures IsBlank(question) ==> request.None? && loading == old(loading)
      ensures !IsBlank(question) ==> loading && request == Some(CreateChatRequest(ChatName(question), visitorId))
    {
      var trimmed := Trim(question);
      if trimmed == [] {
        request := None;
        return;
      }
      loading := true;
      request := Some(CreateChatRequest(ChatName(question), visitorId));
    }

    /**
     * The second half of `handleSend`: `loading` is cleared on success and on
     * failure; the result says where to navigate or what error was shown, and
     * the visitor id is stored only when the server returned one.
     */
    method CompleteSend(question: string, outcome: CreateOutcome)
      returns (result: Result<Navigation, CreateError>, storedVisitorId: Option<string>)
      modifies this
      ensures !loading
      ensures result == CreateResult(question, outcome)
      ensures storedVisitorId == VisitorIdToStore(outcome)
    {
      result := CreateResult(question, outcome);
      storedVisitorId := VisitorIdToStore(outcome);
      loading := false;
    }
  }
}
