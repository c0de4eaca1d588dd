/**
 * The knowledge base chat (KnowledgeBase.jsx): `handleSendMessage` up to its
 * `await` and after it, and `clearChatHistory`, as transitions of the
 * component's state. The assistant's reply, or the error the call throws, is
 * an input.
 */
module KnowledgeChat {
  import opened Base
  import opened JsText

  datatype Role = User | Assistant

  datatype Message = Message(role: Role, content: string)

  /** The component's state variables that the chat touches. */
  datatype ChatState = ChatState(isChatMode: bool, messages: seq<Message>, inputValue: string,
                                 isLoading: bool, showInitialView: bool)

  /** The state on mount, before any saved history is loaded. */
  const InitialChat := ChatState(false, [], "", false, true)

  /** The assistant message shown when the call to the model throws. */
  const ErrorReply: string := "Sorry, I encountered an error. Please try again."

  /** What `chatWithKnowledgeBase` is called with: the question and the history before it. */
  datatype Request = Request(question: string, history: seq<Message>)

  datatype Sent = Sent(state: ChatState, request: Option<Request>)

  /**
   * `handleSendMessage` up to the `await`: nothing happens when the trimmed
   * input is empty or a request is in flight; otherwise chat mode starts on
   * the first message, the user message is appended, the input is cleared and
   * loading starts.
   */
  function BeginSend(st: ChatState): Sent {
    if Trim(st.inputValue) == [] || st.isLoading then Sent(st, None)
    else
      var st' := st.(isChatMode := if st.messages == [] then true else st.isChatMode,
                     messages := st.messages + [Message(User, st.inputValue)],
                     inputValue := "",
                     isLoading := true);
      Sent(st', Some(Request(st.inputValue, st.messages)))
  }

  /** The assistant message for the outcome of the call. */
  function ReplyText(reply: Result<string>): (text: string)
    ensures reply.Ok? ==> text == reply.value
    ensures reply.Err? ==> text == ErrorReply
  {
    match reply
    case Ok(t) => t
    case Err(_) => ErrorReply
  }

  /** After the `await`: the `try`/`catch` appends one assistant message and `finally` ends loading. */
  function FinishSend(st: ChatState, reply: Result<string>): ChatState {
    st.(messages := st.messages + [Message(Assistant, ReplyText(reply))], isLoading := false)
  }

  /** A whole send with nothing else happening while the reply is awaited. */
  function SendMessage(st: ChatState, reply: Result<string>): ChatState {
    var sent := BeginSend(st);
    if sent.request.None? then st else FinishSend(sent.state, reply)
  }

  /** `clearChatHistory`. */
  function ClearChatHistory(st: ChatState): ChatState {
    st.(messages := [], isChatMode := false, showInitialView := true)
  }

  /** A send goes ahead exactly when the input holds something besides whitespace and no request is in flight. */
  lemma SendGuard(st: ChatState)
    ensures BeginSend(st).request.Some? <==> !AllSpace(st.inputValue) && !st.isLoading
    ensures BeginSend(st).request.None? ==> BeginSend(st).state == st
  {
    TrimEmptyIffAllSpace(st.inputValue);
  }

  /** What the state is while the reply is awaited, and what the model is asked. */
  lemma BeginSendSpec(st: ChatState)
    requires BeginSend(st).request.Some?
    ensures var s := BeginSend(st).state;
      && s.messages == st.messages + [Message(User, st.inputValue)]
      && s.inputValue == [] && s.isLoading
      && s.isChatMode == (st.isChatMode || st.messages == [])
      && s.showInitialView == st.showInitialView
      && BeginSend(st).request.value == Request(st.inputValue, st.messages)
  {
  }

  /** While a reply is awaited a second send does nothing. */
  lemma InFlightSendIgnored(st: ChatState)
    requires BeginSend(st).request.Some?
    ensures BeginSend(BeginSend(st).state) == Sent(BeginSend(st).state, None)
  {
  }

  /**
   * A send appends the user message and then exactly one assistant message,
   * the reply or the fixed error text; it leaves the input empty, loading off
   * and the chat in chat mode.
   */
  lemma SendAppendsExchange(st: ChatState, reply: Result<string>)
    requires !AllSpace(st.inputValue) && !st.isLoading
    ensures var r := SendMessage(st, reply);
      && r.messages == st.messages + [Message(User, st.inputValue), Message(Assistant, ReplyText(reply))]
      && r.inputValue == [] && !r.isLoading
      && (r.isChatMode <==> st.isChatMode || st.messages == [])
      && r.showInitialView == st.showInitialView
  {
    SendGuard(st);
  }

  /** A rejected send changes nothing. */
  lemma RejectedSendChangesNothing(st: ChatState, reply: Result<string>)
    requires AllSpace(st.inputValue) || st.isLoading
    ensures SendMessage(st, reply) == st
  {
    SendGuard(st);
  }

  /** Clearing empties the messages, leaves chat mode and shows the initial view; input and loading stay. */
  lemma ClearSpec(st: ChatState)
    ensures var r := ClearChatHistory(st);
      && r.messages == [] && !r.isChatMode && r.showInitialView
      && r.inputValue == st.inputValue && r.isLoading == st.isLoading
  {
  }

  /**
   * Clearing while a reply is awaited does not stop it: the functional update
   * appends the assistant message to the cleared list.
   */
  lemma ClearWhileAwaiting(st: ChatState, reply: Result<string>)
    requires BeginSend(st).request.Some?
    ensures FinishSend(ClearChatHistory(BeginSend(st).state), reply).messages == [Message(Assistant, ReplyText(reply))]
  {
  }
}
