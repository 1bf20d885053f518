# Chat session model

A Dafny model of the client-side chat engine of a university assistant web
app. It has three parts:

- **The chat view's session controller** (`ChatView.tsx`). The class
  `ChatView.ChatSession` holds the message list, the history cursor (`page`,
  `hasMore` and the in-flight guard `loadingMoreRef`), the spinner flags, the
  single pending-message slot (`tempMessageIdRef`), the typing flags
  (`botTyping`, `currentTypingAnswer`), the current conversation id and the
  once-only flag for the question handed over from the home page. Each
  handler is one method.
  - A handler that awaits the network is split in two. The `Begin…` method
    runs up to the request and returns the request it would make. The
    `Complete…` method runs when the reply or the failure arrives, and takes
    that outcome as a parameter.
  - A `setTimeout(() => typeWriteAnswer(answer))` queues `answer` in
    `scheduled`. `StartTypewriter(k)` is the timer firing.
  - Every running `setInterval` typewriter is a `Playback(target, fullText,
    index)` in `playbacks`. `Tick(k)` is one tick of the `k`-th one. The
    cleanup function `typeWriteAnswer` returns is never used by the view, so
    several typewriters can be running at once.
  - The list rewrites (`prev.map(item => item._id === id ? … : item)` and the
    page merge) are pure functions in `ChatItems`. The interval run from
    first tick to last with nothing in between is `Typewriter.PlayAnswer`.
- **The message input box** (`ChatInputBox.tsx`). This covers the send gate
  `canSend`, the `input`/`isSending` pair around the awaited `onSend`, the
  Enter key, the placeholder choice and the textarea height clamp.
- **The home page's new-conversation flow** (`HomeView.tsx`). This covers the
  blank-question guard, the conversation name (50 characters plus "..."), the
  `loading` flag, the status-code error branch, the visitor id to store and
  the navigation payload.

`Text` holds the JavaScript `trim()` whitespace set, `Trim` and `slice(0, n)`.
`Wrappers` holds `Option`, `Result` and the JavaScript truthiness of an
optional string: `undefined`, `null` and `""` are falsy. `Scenarios` holds
short event sequences that use only the handlers' contracts. Examples: a
question handed over from the home page is sent, reconciled and typed out; two
history pages are merged; a send fails.

The model follows the code as written:

- A conversation-id change (`ChatView.tsx:92-104`) does not stop running
  typewriters. It does not clear the pending id or the fetch guard either.
- A failed send keeps the pending id.
- A history page that arrives after the conversation changed is still
  merged.
- A typewriter started with no pending id still shows the assistant as typing
  and never clears that flag.
- The send reply (`ChatView.tsx:425-427`) and the `chat:response` event
  (`ChatView.tsx:352-353`) for the same exchange each queue its answer, so two
  typewriters can write to the same item. Once the first has written the full
  answer, the second's next tick writes a shorter prefix over it.
  `Scenarios.TwoTypewritersShrinkAnswer` shows an answer going from "ok"
  back to "o".
- Temporary ids come from the clock, so they are parameters. Nothing
  guarantees they are distinct.

## Model

| member | source | states |
|---|---|---|
| Wrappers.Or | src/views/main/ChatView.tsx:50 | JavaScript logical or on optional strings: `a` when truthy, else `b` |
| Wrappers.OrElse | src/views/main/ChatView.tsx:432 | `a ?? b`: only a missing value falls back, so `""` is kept |
| Text.Trim | src/components/chat/ChatInputBox.tsx:43 | the trimmed text is a slice of the input; it is empty exactly when every character is whitespace; it is no longer than the input and ends in a non-whitespace character |
| Text.Prefix | src/views/main/ChatView.tsx:149 | `slice(0, n)`: a prefix of the text of length `min(n, length of s)` |
| ChatItems.NewItem | src/views/main/ChatView.tsx:383-388 | the optimistic item: the given id, question and time, an empty answer, no feedback |
| ChatItems.UpdateWhereAt | src/views/main/ChatView.tsx:154-160 | the `map` rewrite: at each position a matching item is rewritten and any other item is kept |
| ChatItems.RenameIdAt | src/views/main/ChatView.tsx:411-415 | the reconciliation rename changes only the ids equal to the temporary id, and nothing else in any item; same length and order |
| ChatItems.RenameConverges | src/views/main/ChatView.tsx:331-343 | after a rename to a different id no item keeps the temporary id; if one had it, the server id is present |
| ChatItems.RenameRoundTrip | src/views/main/ChatView.tsx:411-415 | renaming to an unused id and back restores the list |
| ChatItems.RenameKeepsDistinct | src/views/main/ChatView.tsx:411-415 | renaming to an unused id keeps ids distinct |
| ChatItems.SetAnswerAt | src/views/main/ChatView.tsx:442-448 | writing an answer changes only the answers of the items with that id; ids, order, questions, times and feedback stay |
| ChatItems.SetAnswerOverwrite | src/views/main/ChatView.tsx:153-162 | writing twice to the same id leaves only the second answer |
| ChatItems.SetAnswerAbsent | src/views/main/ChatView.tsx:430-436 | writing to an id no item has leaves the list as it is |
| ChatItems.FeedbackFor | src/views/main/ChatView.tsx:478-486 | the record carries the id, rating and comment; it is updated now; an update keeps the old creation time when there is one |
| ChatItems.AttachFeedbackAt | src/views/main/ChatView.tsx:472-490 | only items with the history id are marked as having feedback and get the record; their text and times stay; other items are kept |
| ChatItems.ReverseAt | src/views/main/ChatView.tsx:198 | `reverse()`: position `k` holds the `k`-th item from the end |
| ChatItems.ReverseInvolution | src/views/main/ChatView.tsx:198 | reversing twice gives the list back |
| ChatItems.MergePage | src/views/main/ChatView.tsx:198-211 | the page reversed comes first; page 1 replaces the list, a later page keeps the old list as the suffix |
| Typewriter.Partial | src/views/main/ChatView.tsx:148-149 | a tick reveals a prefix of the answer, one character longer than the ticks before it, or the whole answer at the end |
| Typewriter.TickGrows | src/views/main/ChatView.tsx:148-162 | for a target item that shows what this typewriter's earlier ticks revealed, a tick does not shorten the answer: the old answer is a prefix of the new one, which is one character longer until the answer is complete |
| Typewriter.PlayAnswer | src/views/main/ChatView.tsx:146-171 | an uninterrupted run writes `fullText[0..k]` at tick `k`, each extending the last; it ends with the full answer in the target items and nothing else changed |
| ChatView.Mounted | src/views/main/ChatView.tsx:49-66 | the initial state: empty list, page 1, more pages, nothing pending or in flight |
| ChatView.FeedbackCall | src/views/main/ChatView.tsx:463-468 | an update exactly when a feedback id is given, otherwise a creation for the history id |
| ChatView.SentItemCompletes | src/views/main/ChatView.tsx:379-427 | a sent item, renamed to its server id and typed out, ends last in the list with the server id, the question, the full answer and its time |
| ChatView.ChatSession.constructor | src/views/main/ChatView.tsx:49-66 | the conversation is the first truthy of `initialChatId` and `chatIdFromParams` and the state is the mounted state |
| ChatView.ChatSession.SyncChatId | src/views/main/ChatView.tsx:92-104 | the same id changes nothing; a new id empties the list and resets page, `hasMore` and the typing flags, leaving typewriters and the pending id alone |
| ChatView.ChatSession.TakeInitialQuestion | src/views/main/ChatView.tsx:107-122 | the handed-over question is returned once per conversation, only when it came from home and an id is known |
| ChatView.ChatSession.BeginFetchHistory | src/views/main/ChatView.tsx:182-192 | without an id or while in flight nothing happens; otherwise the guard is taken and the page is requested with size 5 and the stored visitor id |
| ChatView.ChatSession.CompleteFetchHistory | src/views/main/ChatView.tsx:194-221 | with data, `hasMore`, the page and the merged list are taken from the reply; otherwise the list and cursor stay; the guard and spinners are always released |
| ChatView.ChatSession.LoadForChatId | src/views/main/ChatView.tsx:227-234 | with an id page 1 is fetched; without one the list is emptied |
| ChatView.ChatSession.OnScroll | src/views/main/ChatView.tsx:237-243 | page `page+1` is requested exactly when `scrollTop <= 20`, more pages exist, nothing is in flight and an id is known |
| ChatView.ChatSession.ReceiveChat | src/views/main/ChatView.tsx:283-308 | another conversation's push changes nothing; otherwise exactly one empty-answer item is appended, it becomes pending, and its answer waits for a typewriter |
| ChatView.ChatSession.Reconcile | src/views/main/ChatView.tsx:331-353 | the state after a reply: the temporary id is renamed to the server id, which becomes pending; a new conversation id is adopted without clearing the list; the answer is queued |
| ChatView.ChatSession.ChatResponse | src/views/main/ChatView.tsx:310-358 | no pending id: no change; status not 1: pending id and typing cleared, list kept; a reply without data changes nothing; otherwise the reply is reconciled and typing stops when there is no answer |
| ChatView.ChatSession.BeginSend | src/views/main/ChatView.tsx:374-399 | a blank question changes nothing; otherwise exactly one item is appended, it becomes pending, typing is shown and the question is sent with the current conversation id and the stored visitor id |
| ChatView.ChatSession.CompleteSend | src/views/main/ChatView.tsx:402-450 | a failure writes the error text into the temporary item and stops typing, removing nothing; a reply is reconciled, and without an answer the fixed text goes into the item `historyId ?? tempId` |
| ChatView.ChatSession.StartTypewriter | src/views/main/ChatView.tsx:132-145 | typing is shown and the buffer emptied; a typewriter starts on the pending id, and with none the list is never written |
| ChatView.ChatSession.Tick | src/views/main/ChatView.tsx:147-171 | the tick writes the next prefix into its target items only; at the end of the answer it stops and clears typing, buffer and pending id |
| ChatView.ChatSession.CompleteFeedback | src/views/main/ChatView.tsx:469-497 | with status 1 the record is attached to the items with the history id; otherwise nothing changes |
| ChatInputBox.CanSendMeans | src/components/chat/ChatInputBox.tsx:65 | `canSend` holds exactly when some character is not whitespace and the box is not disabled, sending or loading |
| ChatInputBox.Placeholder | src/components/chat/ChatInputBox.tsx:69-78 | an explicit placeholder wins; home mode shows the creating or starting text, chat mode the waiting or default text |
| ChatInputBox.HomePlaceholderOnlyOnLoading | src/components/chat/ChatInputBox.tsx:72-74 | in home mode the text depends only on `loading` |
| ChatInputBox.ChatPlaceholderOnlyOnTyping | src/components/chat/ChatInputBox.tsx:76-77 | in chat mode the text depends only on `isBotTyping` |
| ChatInputBox.ClampHeight | src/components/chat/ChatInputBox.tsx:33 | `min(scrollHeight, 168)`: never above 168, never above the content |
| ChatInputBox.InputBox.constructor | src/components/chat/ChatInputBox.tsx:25-26 | empty input, not sending |
| ChatInputBox.InputBox.Change | src/components/chat/ChatInputBox.tsx:38-40 | the typed value replaces the input |
| ChatInputBox.InputBox.BeginSend | src/components/chat/ChatInputBox.tsx:42-46 | when the guard fails nothing happens; otherwise the box is sending and the input is handed to `onSend` |
| ChatInputBox.InputBox.CompleteSend | src/components/chat/ChatInputBox.tsx:46-50 | the input is cleared only on success; the box stops sending either way |
| ChatInputBox.InputBox.KeyDown | src/components/chat/ChatInputBox.tsx:54-59 | Enter without Shift on a sendable box prevents the newline and sends; anything else does nothing |
| ChatInputBox.SecondSendRefused | src/components/chat/ChatInputBox.tsx:43-44 | while a send is outstanding a second one is refused |
| HomeView.ChatName | src/views/main/HomeView.tsx:29 | the first 50 characters, plus "..." exactly when longer; at most 53 characters, the question itself when short |
| HomeView.CreateResult | src/views/main/HomeView.tsx:33-54 | navigation to `/chat/<id>` with the question, `fromHome` and the server name or the default, exactly on status 1 with data; status not 1 raises the server message or the fixed text |
| HomeView.VisitorIdToStore | src/views/main/HomeView.tsx:41 | a visitor id is stored only when a successful reply carries a non-empty one |
| HomeView.Home.constructor | src/views/main/HomeView.tsx:11 | not loading |
| HomeView.Home.BeginSend | src/views/main/HomeView.tsx:20-31 | a blank question requests nothing and leaves `loading`; otherwise `loading` is set and the named conversation is requested |
| HomeView.Home.CompleteSend | src/views/main/HomeView.tsx:33-57 | `loading` is cleared on success and failure; the result and the stored visitor id are as above |
| Scenarios.ResponseAfterReply | src/views/main/ChatView.tsx:331-353 | a `chat:response` for an exchange already reconciled renames nothing and queues its answer a second time |
| Scenarios.SendHandedOver | src/views/main/ChatView.tsx:374-427 | a handed-over question sent and replied to leaves one item with the server id, pending, and its answer queued |

## Left out

- The textarea is `disabled` while the assistant is typing (`ChatInputBox.tsx:93`), so no key press reaches it then. `ChatInputBox.InputBox.KeyDown` does not model this: it sends whenever the guard holds, whatever `isBotTyping` is. The rendered attributes limit which events can occur, and the model allows them all.
- Rendering, markdown, styling, the breadcrumb title (`setTitle`), toasts and console logging have no effect on the modelled state.
- Network and socket plumbing (axios, socket.io connect, disconnect and subscription) is left out. Each reply or failure is a parameter of a `Complete…` method.
- Timer delays (50 to 1000 ms) and the interval period are left out. A delayed call and each tick are separate events, in any order the caller picks.
- Async interleaving and React's stale closures are left out. Each handler is an atomic step over the current state, so a handler reads the current conversation id, not the one captured when it was created.
- DOM scroll geometry is left out: the bottom check, `scrollTo` and the scroll-down button. Only the top-of-list trigger is modelled.
- `Date.now()` and `new Date().toISOString()` are parameters: temporary ids, creation times and feedback times.
- `saveVisitorId` and `getVisitorId` are foreign storage. The visitor id to save is returned. The one sent with a history or send request, or with the creation request, is a parameter of the method that builds the request.
- The first send of a handed-over question happens after a one-second timer. `TakeInitialQuestion` returns the question, and the caller sends it.
- `Text.Trim`: the whitespace set is fixed, namely the ECMAScript white space and line terminators.
- Strings are sequences of characters, not UTF-16 code units. This changes lengths and slices wherever a character lies outside the Basic Multilingual Plane. It affects `HomeView.ChatName` (`question.length > 50` and `slice(0, 50)`), `Text.Prefix`, and the typewriter in `Typewriter` and `ChatView.ChatSession.Tick`: the number of ticks is the length in code units, and a tick can stop in the middle of a surrogate pair.
- A history reply whose `Data` lacks `pagination` or `items` (a thrown TypeError) is not modelled. `HistoryData` always carries both.
- A feedback reply with status 1 but no `Data` when creating (a thrown TypeError after the success toast) is not modelled. `FeedbackReplied` always carries a record id.
- `ChatView.ChatSession.CompleteFeedback` takes the feedback request's outcome directly. The request itself is `ChatView.FeedbackCall`.
- The HomeView reply `Data` is assumed to carry an id. A reply without `_id` would navigate to `/chat/undefined`.
- The cleanup closure `typeWriteAnswer` returns is not modelled, because the view never calls it.
