/** The conversation screen of src/app/components/ChatView.tsx: loading a conversation
    (with the companion's welcome when it is empty), sending with an optimistic append,
    and telling the user's own messages from the other party's. */
module Chat {
  import opened Common
  import opened KvServer

  /** A message as the screen holds it. */
  datatype ChatMessage = ChatMessage(id: string, text: string, senderId: string, timestamp: nat)

  /** The sender id the screen gives its own optimistic messages. */
  const LOCAL_USER: string := "user"

  const WELCOME_TEXT: string :=
    "Olá! Que bom ter você aqui. Sou o seu Elo Digital, e estou aqui para conversar, ouvir e te acompanhar. Como posso te ajudar hoje?"

  function Welcome(now: nat): ChatMessage {
    ChatMessage("1", WELCOME_TEXT, AI_COMPANION, now)
  }

  /** What `messageService.getMessages` produced: a body (whose `messages` may be
      missing) or an error. */
  datatype LoadResult = Loaded(messages: Option<seq<ChatMessage>>) | LoadFailed

  /** What `messageService.sendMessage` is called with. */
  datatype SendRequest = SendRequest(conversationId: string, text: string, receiver: string)

  function FromServer(m: Message): ChatMessage {
    ChatMessage(m.id, m.text, m.senderId, m.timestamp)
  }

  /** The messages after a load that reached the server. */
  function AfterLoad(old_messages: seq<ChatMessage>, result: LoadResult, isAiChat: bool, now: nat): (r: seq<ChatMessage>)
    ensures result.LoadFailed? ==> r == old_messages
    ensures result.Loaded? && result.messages.Some? && result.messages.value != [] ==> r == result.messages.value
    ensures result.Loaded? && (result.messages.None? || result.messages.value == []) ==>
              r == (if isAiChat then [Welcome(now)] else [])
  {
    match result
    case LoadFailed => old_messages
    case Loaded(ms) =>
      var fetched := if ms.Some? then ms.value else [];
      if fetched == [] && isAiChat then [Welcome(now)] else fetched
  }

  /** An empty companion conversation shows exactly one message, the companion's welcome. */
  lemma EmptyAiChatWelcomes(old_messages: seq<ChatMessage>, ms: Option<seq<ChatMessage>>, now: nat)
    requires ms.None? || ms.value == []
    ensures var r := AfterLoad(old_messages, Loaded(ms), true, now);
      |r| == 1 && r[0].senderId == AI_COMPANION && r[0].text == WELCOME_TEXT
  {
  }

  /** Every character is white space. */
  predicate Blank(s: string) {
    forall i :: 0 <= i < |s| ==> IsSpace(s[i])
  }

  /** `Blank` is the guard `!inputText.trim()`: the input trims to the empty string. */
  lemma BlankIsTrimEmpty(s: string)
    ensures Blank(s) <==> Trim(s) == ""
  {
  }

  /** `isAIChat ? 'ai-companion' : chatId`: in both cases the chat id itself. */
  function Receiver(chatId: string): (r: string)
    ensures r == AI_COMPANION <==> chatId == AI_COMPANION
    ensures r == chatId
  {
    if chatId == AI_COMPANION then AI_COMPANION else chatId
  }

  /** `message.senderId === 'user'` (src/app/components/ChatView.tsx:155). */
  predicate IsOwnMessageAsWritten(m: ChatMessage) {
    m.senderId == LOCAL_USER
  }

  /** Own messages are the optimistic ones and those the server stored for this user. */
  predicate IsOwnMessage(m: ChatMessage, currentUserId: string) {
    m.senderId == LOCAL_USER || m.senderId == currentUserId
  }

  /** How the two tests classify a message a user (neither "user" nor the companion)
      sent, in its optimistic and its stored form, and the companion's messages. */
  lemma OwnMessageTests(m: Message, now: nat)
    requires m.senderId != LOCAL_USER && m.senderId != AI_COMPANION
    ensures IsOwnMessageAsWritten(ChatMessage(m.id, m.text, LOCAL_USER, now))
    ensures !IsOwnMessageAsWritten(FromServer(m))
    ensures IsOwnMessage(FromServer(m), m.senderId)
    ensures forall reply: Message :: reply.senderId == AI_COMPANION ==> !IsOwnMessage(FromServer(reply), m.senderId)
  {
  }

  /** As written, a message the user just sent is shown as theirs until the next load,
      and as the other party's once it comes back from the server (which stores the real
      user id as sender). The corrected test keeps it the user's and still shows the
      companion's reply as the companion's. */
  lemma ReloadFlipsOwnMessage(entries: map<string, Value>, m: Message, order: seq<string>, now: nat)
    requires m.senderId != LOCAL_USER && m.senderId != AI_COMPANION
    requires IsScan(RecordMessage(entries, m), MESSAGE_PREFIX, order)
    ensures IsOwnMessageAsWritten(ChatMessage(m.id, m.text, LOCAL_USER, now))
    ensures !IsOwnMessageAsWritten(FromServer(m))
    ensures IsOwnMessage(FromServer(m), m.senderId)
    ensures forall reply: Message :: reply.senderId == AI_COMPANION ==> !IsOwnMessage(FromServer(reply), m.senderId)
    ensures m in SortByTimestamp(ConversationMessages(
              ScanMessages(RecordMessage(entries, m), order), m.conversationId, m.senderId))
  {
    OwnMessageTests(m, now);
    SentMessageIsRead(entries, m, order);
  }

  class ChatView {
    const chatId: Option<string>
    var messages: seq<ChatMessage>
    var inputText: string
    var loading: bool

    predicate IsAiChat()
    {
      chatId == Some(AI_COMPANION)
    }

    constructor (chatId: Option<string>)
      ensures this.chatId == chatId
      ensures messages == [] && inputText == "" && loading
    {
      this.chatId := chatId;
      messages := [];
      inputText := "";
      loading := true;
    }

    method SetInput(text: string)
      modifies this
      ensures inputText == text && messages == old(messages) && loading == old(loading)
    {
      inputText := text;
    }

    /** `loadMessages`: nothing without a chat id; otherwise the fetched list (or the
        welcome) and the spinner off. A failed fetch keeps the list. */
    method LoadMessages(result: LoadResult, now: nat)
      modifies this
      ensures Falsy(chatId) ==> messages == old(messages) && loading == old(loading)
      ensures !Falsy(chatId) ==> messages == AfterLoad(old(messages), result, IsAiChat(), now) && !loading
      ensures inputText == old(inputText)
    {
      if Falsy(chatId) {
        return;
      }
      loading := true;
      match result {
        case LoadFailed =>
        case Loaded(ms) =>
          messages := if ms.Some? then ms.value else [];
          if (ms.None? || ms.value == []) && IsAiChat() {
            messages := [Welcome(now)];
          }
      }
      loading := false;
    }

    /** `handleSend`: with a non-blank input and a chat id, clear the input, append one
        message with the untrimmed text, and send it; `sent` is whether the send resolved.
        Only a resolved send in the companion's chat asks for a reload (the 1500 ms poll);
        a rejected one keeps the optimistic message and only shows a toast. */
    method HandleSend(id: string, now: nat, sent: bool) returns (request: Option<SendRequest>, pollAfter: bool)
      modifies this
      ensures Blank(old(inputText)) || Falsy(chatId) ==>
        && request.None? && !pollAfter
        && messages == old(messages) && inputText == old(inputText)
      ensures !(Blank(old(inputText)) || Falsy(chatId)) ==>
        && inputText == ""
        && messages == old(messages) + [ChatMessage(id, old(inputText), LOCAL_USER, now)]
        && request == Some(SendRequest(chatId.value, old(inputText), Receiver(chatId.value)))
        && pollAfter == (sent && IsAiChat())
      ensures loading == old(loading)
    {
      var text := inputText;
      if Blank(text) || Falsy(chatId) {
        request, pollAfter := None, false;
      } else {
        var target := chatId.value;
        inputText := "";
        messages := messages + [ChatMessage(id, text, LOCAL_USER, now)];
        request := Some(SendRequest(target, text, Receiver(target)));
        pollAfter := sent && IsAiChat();
      }
    }
  }
}
