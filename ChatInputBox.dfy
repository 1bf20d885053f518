/**
 * The message input box: the send gate (the typed text and the `isSending`
 * flag around the awaited send), the Enter key, the placeholder text and the
 * textarea height limit.
 */
module ChatInputBox {
  import opened Wrappers
  import opened Text

  /** Textarea height limit in pixels (seven lines). */
  const MaxHeight := 168

  const CreatingPlaceholder := "Đang tạo cuộc trò chuyện..."
  const HomePlaceholder := "Đặt câu hỏi để bắt đầu trò chuyện..."
  const WaitingPlaceholder := "Vui lòng chờ AI phản hồi..."
  const ChatPlaceholder := "Nhập câu hỏi của bạn... (Enter để gửi, Shift+Enter để xuống dòng)"

  /** Where the box is used: the home page (creates a conversation) or a conversation. */
  datatype Mode = Home | Chat

  /** What the parent passes in; a missing flag reads as false and a missing mode as `Chat`. */
  datatype Props = Props(
    isDisabled: bool,
    isBotTyping: bool,
    placeholder: Option<string>,
    mode: Mode,
    loading: bool)

  /**
   * `canSend`: the typed text is not blank after trimming and the box is not
   * disabled, not sending and not waiting on its parent.
   */
  predicate CanSend(input: string, isDisabled: bool, isSending: bool, loading: bool)
  {
    Trim(input) != [] && !isDisabled && !isSending && !loading
  }

  /** The guard in words of the characters typed: some character is not whitespace. */
  lemma CanSendMeans(input: string, isDisabled: bool, isSending: bool, loading: bool)
    ensures CanSend(input, isDisabled, isSending, loading) <==>
      (exists i :: 0 <= i < |input| && !IsWhitespace(input[i])) && !isDisabled && !isSending && !loading
  {
  }

  /**
   * `getPlaceholder()`: an explicit placeholder wins; on the home page the text
   * depends on `loading` only, in a conversation on `isBotTyping` only.
   */
  function Placeholder(props: Props): (text: string)
    ensures Truthy(props.placeholder) ==> text == props.placeholder.value
    ensures !Truthy(props.placeholder) && props.mode == Home ==>
      text == (if props.loading then CreatingPlaceholder else HomePlaceholder)
    ensures !Truthy(props.placeholder) && props.mode == Chat ==>
      text == (if props.isBotTyping then WaitingPlaceholder else ChatPlaceholder)
  {
    if Truthy(props.placeholder) then props.placeholder.value
    else if props.mode == Home then (if props.loading then CreatingPlaceholder else HomePlaceholder)
    else if props.isBotTyping then WaitingPlaceholder
    else ChatPlaceholder
  }

  /** Without an explicit placeholder, the home page's text ignores everything but `loading`. */
  lemma HomePlaceholderOnlyOnLoading(a: Props, b: Props)
    requires !Truthy(a.placeholder) && !Truthy(b.placeholder)
    requires a.mode == Home && b.mode == Home && a.loading == b.loading
    ensures Placeholder(a) == Placeholder(b)
  {
  }

  /** Without an explicit placeholder, a conversation's text ignores everything but `isBotTyping`. */
  lemma ChatPlaceholderOnlyOnTyping(a: Props, b: Props)
    requires !Truthy(a.placeholder) && !Truthy(b.placeholder)
    requires a.mode == Chat && b.mode == Chat && a.isBotTyping == b.isBotTyping
    ensures Placeholder(a) == Placeholder(b)
  {
  }

  /** The textarea height after a resize: the content height, capped at the limit. */
  function ClampHeight(scrollHeight: int): (height: int)
    ensures height <= MaxHeight && height <= scrollHeight
    ensures height == scrollHeight || height == MaxHeight
  {
    if scrollHeight < MaxHeight then scrollHeight else MaxHeight
  }

  class InputBox {
    /** The text in the textarea. */
    var input: string
    /** Whether an `onSend` call is outstanding. */
    var isSending: bool

    constructor ()
      ensures input == "" && !isSending
    {
      input := "";
      isSending := false;
    }

    /** Typing: the textarea's value replaces the input. */
    method Change(value: string)
      modifies this
      ensures input == value && isSending == old(isSending)
    {
      input := value;
    }

    /**
     * The first half of `handleSend`: when the guard fails nothing happens;
     * otherwise the box is marked as sending and the typed text is handed to
     * `onSend`.
     */
    method BeginSend(props: Props) returns (sent: Option<string>)
      modifies this
      ensures var go := CanSend(old(input), props.isDisabled, old(isSending), props.loading);
        (go ==> sent == Some(old(input)) && isSending && input == old(input)) &&
        (!go ==> sent.None? && isSending == old(isSending) && input == old(input))
    {
      if CanSend(input, props.isDisabled, isSending, props.loading) {
        isSending := true;
        sent := Some(input);
      } else {
        sent := None;
      }
    }

    /**
     * The second half of `handleSend`, when `onSend` settles: the input is
     * cleared only if it succeeded, and the box is no longer sending either way.
     */
    method CompleteSend(succeeded: bool)
      modifies this
      ensures !isSending
      ensures input == if succeeded then "" else old(input)
    {
      if succeeded {
        input := "";
      }
      isSending := false;
    }

    /**
     * `handleKeyDown`: Enter without Shift, when a send is allowed, suppresses
     * the newline and starts a send; any other key, Shift+Enter or a blocked
     * box does nothing.
     */
    method KeyDown(key: string, shiftKey: bool, props: Props) returns (preventDefault: bool, sent: Option<string>)
      modifies this
      ensures preventDefault <==>
        key == "Enter" && !shiftKey && CanSend(old(input), props.isDisabled, old(isSending), props.loading)
      ensures preventDefault ==> sent == Some(old(input)) && isSending && input == old(input)
      ensures !preventDefault ==> sent.None? && isSending == old(isSending) && input == old(input)
    {
      preventDefault := key == "Enter" && !shiftKey && CanSend(input, props.isDisabled, isSending, props.loading);
      if preventDefault {
        sent := BeginSend(props);
      } else {
        sent := None;
      }
    }
  }

  /**
   * While a send is outstanding a second one is refused: after a send has
   * begun, the guard fails whatever the props are.
   */
  method SecondSendRefused(box: InputBox, first: Props, second: Props) returns (s1: Option<string>, s2: Option<string>)
    modifies box
    ensures s1.Some? ==> s2.None? && box.isSending
  {
    s1 := box.BeginSend(first);
    s2 := box.BeginSend(second);
  }
}
