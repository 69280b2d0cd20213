/** The dialogue screen (src/screens/DialogoSagradoScreen.tsx): a conversation that
    grows by one user message and then one AI message per send, loaded from the last
    two days of history on mount. */
module DialogoSagradoScreen {
  import opened Js

  datatype Role = User | Ai

  datatype Message = Message(role: Role, content: string, timestamp: string)

  /** The content when the reply has no usable text. */
  const APOLOGY := "Lo siento, no pude generar una respuesta en este momento."

  /** The content when the call throws. */
  const FALLBACK_REPLY := "Comprendo tu inquietud. En este momento de reflexión, recuerda que cada pensamiento y sentimiento que compartes es valioso. Tu búsqueda interior es un camino de crecimiento y autoconocimiento."

  /** The days of history loaded on mount. */
  const HISTORY_DAYS: nat := 2

  /** The AI message's content: `response.text` when it is truthy, the apology when the
      body has no truthy text, and the fallback when the call threw or the body was null
      (reading `text` from null throws inside the same try). */
  function AiContent(reply: Outcome<Value>): (content: string)
    ensures reply.Threw? ==> content == FALLBACK_REPLY
    ensures reply.Returned? && Prop(reply.value, "text").None? ==> content == FALLBACK_REPLY
    ensures reply.Returned? && Prop(reply.value, "text").Some? ==>
              if Truthy(Prop(reply.value, "text").value)
              then content == ToJsString(Prop(reply.value, "text").value)
              else content == APOLOGY
  {
    match reply
    case Threw(_) => FALLBACK_REPLY
    case Returned(response) =>
      match Prop(response, "text")
      case None => FALLBACK_REPLY
      case Some(text) => OrElse(text, APOLOGY)
  }

  class DialogoSagradoScreen {
    var messages: seq<Message>
    var inputText: string
    var loading: bool
    var initialLoading: bool

    constructor ()
      ensures messages == [] && inputText == "" && !loading && initialLoading
    {
      messages := [];
      inputText := "";
      loading := false;
      initialLoading := true;
    }

    /** `loadHistory`, given what `getDialogHistory(2)` resolves to (the body read as
        messages); returns the number of days it asks for. Success replaces the list,
        failure keeps it; either way the initial spinner goes away. */
    method LoadHistory(history: Outcome<seq<Message>>) returns (days: nat)
      modifies this
      ensures days == HISTORY_DAYS
      ensures history.Returned? ==> messages == history.value
      ensures history.Threw? ==> messages == old(messages)
      ensures !initialLoading && inputText == old(inputText) && loading == old(loading)
    {
      days := HISTORY_DAYS;
      if history.Returned? {
        messages := history.value;
      }
      initialLoading := false;
    }

    /** `sendMessage`, given what `sendDialogMessage` resolves to and the clock's ISO
        strings at the two appends. Blank input does nothing; otherwise the input is
        cleared and exactly two messages are appended: the trimmed user text, then the
        AI's reply. */
    method SendMessage(reply: Outcome<Value>, sentAt: string, answeredAt: string)
      modifies this
      ensures IsBlank(old(inputText)) ==>
                messages == old(messages) && inputText == old(inputText) && loading == old(loading)
      ensures !IsBlank(old(inputText)) ==>
                messages == old(messages) + [Message(User, Trim(old(inputText)), sentAt),
                                             Message(Ai, AiContent(reply), answeredAt)]
                && inputText == "" && !loading
      ensures initialLoading == old(initialLoading)
    {
      var text := inputText;
      if IsBlank(text) {
        return;
      }
      var userMessage := Message(User, Trim(text), sentAt);
      inputText := "";
      loading := true;
      messages := messages + [userMessage];
      var aiMessage := Message(Ai, AiContent(reply), answeredAt);
      messages := messages + [aiMessage];
      assert messages == old(messages) + [userMessage, aiMessage];
      loading := false;
    }
  }
}
