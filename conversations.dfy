/** The conversation list of src/app/components/ConversationsView.tsx: the companion's
    entry first, then whatever the server listed. */
module Conversations {
  import opened Common
  import opened KvServer

  /** The entry the screen always puts at the top. */
  const AI_CONVERSATION: Conversation :=
    Conversation(AI_COMPANION, "Meu Elo", "🤖", "Estou aqui sempre que precisar!", "Agora", 0, Ai)

  /** What `conversationService.getConversations` produced: a body (whose
      `conversations` may be missing) or an error. */
  datatype FetchResult = Fetched(conversations: Option<seq<Conversation>>) | FetchFailed

  /** The list `loadConversations` sets on each branch; the server's entries are
      neither filtered nor deduplicated. */
  function ConversationList(result: FetchResult): (r: seq<Conversation>)
    ensures |r| >= 1 && r[0] == AI_CONVERSATION
    ensures r[0].id == AI_COMPANION && r[0].kind == Ai
    ensures result.Fetched? && result.conversations.Some? ==>
              |r| == 1 + |result.conversations.value| && r[1..] == result.conversations.value
    ensures result.FetchFailed? || result.conversations.None? ==> r == [AI_CONVERSATION]
  {
    match result
    case Fetched(Some(cs)) =>
      assert ([AI_CONVERSATION] + cs)[1..] == cs;
      [AI_CONVERSATION] + cs
    case _ => [AI_CONVERSATION]
  }

  /** Once the user has a message in the companion's conversation, the server lists that
      conversation too, so the companion appears twice: at the top and further down. */
  lemma CompanionListedTwice(ms: seq<Message>, userId: string)
    requires exists m :: m in ms && Involves(m, userId) && m.conversationId == AI_COMPANION
    ensures var r := ConversationList(Fetched(Some(Summaries(UserConversationIds(ms, userId)))));
      r[0].id == AI_COMPANION && exists j :: 1 <= j < |r| && r[j].id == AI_COMPANION && r[j].kind == Ai
  {
    var ids := UserConversationIds(ms, userId);
    var s := Summaries(ids);
    var r := ConversationList(Fetched(Some(s)));
    assert AI_COMPANION in ids;
    var k :| 0 <= k < |ids| && ids[k] == AI_COMPANION;
    assert r[k + 1] == s[k];
  }

  class ConversationsView {
    var conversations: seq<Conversation>
    var loading: bool

    constructor ()
      ensures conversations == [] && loading
    {
      conversations := [];
      loading := true;
    }

    /** `loadConversations`: the list for the outcome, then the spinner off. */
    method LoadConversations(result: FetchResult)
      modifies this
      ensures conversations == ConversationList(result)
      ensures !loading
    {
      loading := true;
      conversations := ConversationList(result);
      loading := false;
    }
  }
}
