/** The HTTP handlers of supabase/functions/server/index.tsx over a generic key-value
    store: signup seeding, profile read and merge-update, sending a message (with the
    scripted AI companion's reply), reading a conversation and listing conversations.
    The identity provider, the fresh UUIDs, the clock and the random pick are
    parameters; the store is a map whose prefix scan comes back in a given order. */
module KvServer {
  import opened Common

  /** The reserved participant and conversation id of the AI companion. */
  const AI_COMPANION: string := "ai-companion"

  /** The replies the companion picks from (`aiResponses`). */
  const AI_RESPONSES: seq<string> := [
    "Fico feliz em conversar com você! Como está se sentindo hoje?",
    "Entendo... conte-me mais sobre isso.",
    "Você é importante e suas emoções são válidas.",
    "Estou aqui para você, sempre que precisar.",
    "Que interessante! Me fale mais sobre essa experiência.",
    "Você está indo muito bem. Como posso te ajudar mais?",
    "É completamente normal sentir isso. Vamos explorar juntos?"
  ]

  datatype Json =
    | JNull
    | JBool(b: bool)
    | JNum(n: int)
    | JStr(s: string)
    | JArr(items: seq<Json>)
    | JObj(fields: map<string, Json>)

  /** A stored message; `timestamp` is the creation time in milliseconds. */
  datatype Message = Message(
    id: string, conversationId: string, senderId: string, receiver: string,
    text: string, timestamp: nat)

  /** What the handlers store: profiles, messages and the `lastMessage` digest. */
  datatype Value =
    | Record(fields: map<string, Json>)
    | Msg(message: Message)
    | LastMessage(text: string, timestamp: nat)

  datatype Kind = Ai | Human

  /** A conversation summary, as the server builds it and the client lists it. */
  datatype Conversation = Conversation(
    id: string, name: string, avatar: string, lastMessage: string,
    timestamp: string, unread: nat, kind: Kind)

  datatype Body =
    | ErrorBody(error: string)
    | UserBody(userId: string)
    | ProfileBody(profile: map<string, Json>)
    | MessageBody(message: Message)
    | MessagesBody(messages: seq<Message>)
    | ConversationsBody(conversations: seq<Conversation>)

  datatype Response = Response(status: nat, body: Body)

  const UNAUTHORIZED: Response := Response(401, ErrorBody("Não autorizado"))

  // ---------------------------------------------------------------------------
  // Keys

  const MESSAGE_PREFIX: string := "message:"

  function UserKey(userId: string): string { "user:" + userId }
  function MessageKey(id: string): string { MESSAGE_PREFIX + id }
  function LastMessageKey(conversationId: string): string { "conversation:" + conversationId + ":lastMessage" }

  /** The three key families never collide, and only message keys are scanned. */
  lemma KeyFamilies(userId: string, id: string, conversationId: string)
    ensures StartsWith(MessageKey(id), MESSAGE_PREFIX)
    ensures !StartsWith(UserKey(userId), MESSAGE_PREFIX)
    ensures !StartsWith(LastMessageKey(conversationId), MESSAGE_PREFIX)
    ensures UserKey(userId) != LastMessageKey(conversationId)
  {
    assert MessageKey(id)[..|MESSAGE_PREFIX|] == MESSAGE_PREFIX;
    assert UserKey(userId)[0] == 'u';
    assert LastMessageKey(conversationId)[0] == 'c';
  }

  // ---------------------------------------------------------------------------
  // The key-value store

  /** `order` lists every key that starts with `prefix`, each once: the order in
      which `getByPrefix` happens to return them. */
  ghost predicate IsScan(entries: map<string, Value>, prefix: string, order: seq<string>) {
    && NoDuplicates(order)
    && forall k :: k in order <==> k in entries && StartsWith(k, prefix)
  }

  class KvStore {
    var entries: map<string, Value>

    constructor ()
      ensures entries == map[]
    {
      entries := map[];
    }

    /** `kv.get(key)`. */
    function Get(key: string): (r: Option<Value>)
      reads this
      ensures r.Some? <==> key in entries
      ensures r.Some? ==> r.value == entries[key]
    {
      if key in entries then Some(entries[key]) else None
    }

    /** `kv.set(key, value)`: last write wins. */
    method Set(key: string, value: Value)
      modifies this
      ensures entries == old(entries)[key := value]
    {
      entries := entries[key := value];
    }
  }

  /** The messages among the values of `getByPrefix('message:')`, in scan order. A value
      that is not a message has no `conversationId` and so never passes a filter. */
  function ScanMessages(entries: map<string, Value>, order: seq<string>): (r: seq<Message>)
    requires forall k :: k in order ==> k in entries
    ensures forall m :: m in r <==> exists i :: 0 <= i < |order| && entries[order[i]] == Msg(m)
  {
    if order == [] then []
    else
      var rest := ScanMessages(entries, order[1..]);
      assert forall m :: (exists i :: 1 <= i < |order| && entries[order[i]] == Msg(m)) ==>
                         exists i :: 0 <= i < |order[1..]| && entries[order[1..][i]] == Msg(m) by {
        forall m | exists i :: 1 <= i < |order| && entries[order[i]] == Msg(m)
          ensures exists i :: 0 <= i < |order[1..]| && entries[order[1..][i]] == Msg(m)
        {
          var i :| 1 <= i < |order| && entries[order[i]] == Msg(m);
          assert order[1..][i - 1] == order[i];
        }
      }
      match entries[order[0]]
      case Msg(m) => [m] + rest
      case _ => rest
  }

  /** A scan sees exactly the messages stored under `message:` keys. */
  lemma ScanSeesStoredMessages(entries: map<string, Value>, order: seq<string>, m: Message)
    requires IsScan(entries, MESSAGE_PREFIX, order)
    ensures m in ScanMessages(entries, order) <==>
      exists k :: k in entries && StartsWith(k, MESSAGE_PREFIX) && entries[k] == Msg(m)
  {
    if exists k :: k in entries && StartsWith(k, MESSAGE_PREFIX) && entries[k] == Msg(m) {
      var k :| k in entries && StartsWith(k, MESSAGE_PREFIX) && entries[k] == Msg(m);
      assert k in order;
      var i :| 0 <= i < |order| && order[i] == k;
    }
  }

  // ---------------------------------------------------------------------------
  // Authentication

  /** `authHeader.split(' ')[1]`, when it is a non-empty string. */
  function BearerToken(authHeader: string): (r: Option<string>)
    ensures r.Some? ==> r.value != "" && ' ' !in r.value
    ensures r.Some? <==> |Split(authHeader, ' ')| >= 2 && Split(authHeader, ' ')[1] != ""
  {
    var parts := Split(authHeader, ' ');
    if |parts| >= 2 && parts[1] != "" then Some(parts[1]) else None
  }

  /** The header a client sends yields back its token. */
  lemma BearerTokenOfHeader(token: string)
    requires token != "" && ' ' !in token
    ensures BearerToken("Bearer " + token) == Some(token)
  {
    SplitPrefix(token, "", ' ');
    assert token + "" == token;
    assert Split(token, ' ') == [token];
    assert Split(" " + token, ' ') == [""] + [token];
    SplitPrefix("Bearer", " " + token, ' ');
    assert "Bearer" + (" " + token) == "Bearer " + token;
  }

  /** A header without a separating blank carries no token. */
  lemma NoBlankNoToken(authHeader: string)
    requires ' ' !in authHeader
    ensures BearerToken(authHeader).None?
  {
    SplitPrefix(authHeader, "", ' ');
    assert authHeader + "" == authHeader;
  }

  /** `getUserIdFromAuth`. `sessions` stands for `auth.getUser`: the tokens the identity
      provider accepts, each with the id of its user; any other token fails validation. */
  function GetUserIdFromAuth(authHeader: Option<string>, sessions: map<string, string>): (r: Option<string>)
    ensures authHeader.None? ==> r.None?
    ensures authHeader.Some? && BearerToken(authHeader.value).None? ==> r.None?
    ensures r.Some? <==> authHeader.Some? && BearerToken(authHeader.value).Some? &&
                         BearerToken(authHeader.value).value in sessions
    ensures r.Some? ==> r.value == sessions[BearerToken(authHeader.value).value]
  {
    match authHeader
    case None => None
    case Some(h) =>
      match BearerToken(h)
      case None => None
      case Some(token) => if token in sessions then Some(sessions[token]) else None
  }

  /** `if (!userId) return 401`. */
  predicate Unauthorized(userId: Option<string>) {
    Falsy(userId)
  }

  // ---------------------------------------------------------------------------
  // Profiles

  /** The object a stored value spreads into. */
  function AsObject(v: Value): map<string, Json> {
    match v
    case Record(fields) => fields
    case Msg(m) => map[
      "id" := JStr(m.id), "conversationId" := JStr(m.conversationId), "senderId" := JStr(m.senderId),
      "receiver" := JStr(m.receiver), "text" := JStr(m.text), "timestamp" := JNum(m.timestamp)]
    case LastMessage(text, timestamp) => map["text" := JStr(text), "timestamp" := JNum(timestamp)]
  }

  /** `await kv.get(key) || {}` as an object. */
  function Current(stored: Option<Value>): map<string, Json> {
    if stored.Some? then AsObject(stored.value) else map[]
  }

  /** `{ ...currentProfile, ...updates, id: userId }`. */
  function MergeProfile(stored: Option<Value>, updates: map<string, Json>, userId: string): (r: map<string, Json>)
    ensures "id" in r && r["id"] == JStr(userId)
    ensures r.Keys == Current(stored).Keys + updates.Keys + {"id"}
    ensures forall k :: k in updates && k != "id" ==> r[k] == updates[k]
    ensures forall k :: k in Current(stored) && k !in updates && k != "id" ==> r[k] == Current(stored)[k]
  {
    Current(stored) + updates + map["id" := JStr(userId)]
  }

  /** Applying the same update twice is applying it once. */
  lemma MergeIdempotent(stored: Option<Value>, updates: map<string, Json>, userId: string)
    ensures MergeProfile(Some(Record(MergeProfile(stored, updates, userId))), updates, userId)
         == MergeProfile(stored, updates, userId)
  {
    var once := MergeProfile(stored, updates, userId);
    var twice := MergeProfile(Some(Record(once)), updates, userId);
    assert Current(Some(Record(once))) == once;
    assert twice.Keys == once.Keys;
    forall k | k in once ensures twice[k] == once[k] {
      if k == "id" {
      } else if k in updates {
      } else {
        assert k in Current(stored);
      }
    }
  }

  /** The body of `GET /profile` when nothing is stored for the user. */
  function DefaultProfile(userId: string): map<string, Json> {
    map["id" := JStr(userId), "email" := JStr("default"), "name" := JStr("default")]
  }

  /** The account fields every signup seeds: the identity, a placeholder avatar, an
      empty location, a free account and the creation time. */
  function AccountBasics(userId: string, email: string, name: string, now: string): (r: map<string, Json>)
    ensures r.Keys == {"id", "email", "name", "avatar", "location", "isPremium", "memberSince"}
    ensures r["id"] == JStr(userId) && r["email"] == JStr(email) && r["name"] == JStr(name)
    ensures r["isPremium"] == JBool(false)
  {
    map[
      "id" := JStr(userId), "email" := JStr(email), "name" := JStr(name),
      "avatar" := JStr("👤"), "location" := JStr(""), "isPremium" := JBool(false),
      "memberSince" := JStr(now)]
  }

  /** The default traits of a new AI companion. */
  const DEFAULT_AI_TRAITS: Json := JObj(map["formality" := JNum(50), "humor" := JNum(50), "proactivity" := JNum(50)])

  /** The empty profile fields and the AI companion's defaults of a new account. */
  function ProfileDefaults(): map<string, Json> {
    map[
      "bio" := JStr(""), "job" := JStr(""), "education" := JStr(""), "height" := JStr(""),
      "bodyType" := JStr(""), "relationshipStatus" := JStr(""), "religion" := JStr(""),
      "languages" := JArr([]), "interests" := JArr([]), "habits" := JArr([]),
      "idealMatch" := JStr(""), "nonNegotiables" := JArr([]),
      "aiCompanionName" := JStr("Meu Elo"), "aiCompanionPersonality" := JStr("amoroso"),
      "aiCompanionAvatar" := JStr("🤖"), "aiTraits" := DEFAULT_AI_TRAITS,
      "aiMemory" := JStr("medium"), "aiTopics" := JArr([])]
  }

  /** The record `handleSignup` stores: the account basics, empty profile fields and
      the AI companion's defaults (a free account with traits 50/50/50). */
  function SignupSeed(userId: string, email: string, name: string, now: string): (r: map<string, Json>)
    ensures forall k :: k in AccountBasics(userId, email, name, now) ==>
              k in r && r[k] == AccountBasics(userId, email, name, now)[k]
    ensures "isPremium" in r && r["isPremium"] == JBool(false)
    ensures "aiTraits" in r && r["aiTraits"] == DEFAULT_AI_TRAITS
    ensures "aiCompanionName" in r && r["aiCompanionName"] == JStr("Meu Elo")
  {
    CompanionKeysNotBasic(userId, email, name, now);
    ProfileDefaults() + AccountBasics(userId, email, name, now)
  }

  /** The AI companion's keys are not among the account basics. */
  lemma CompanionKeysNotBasic(userId: string, email: string, name: string, now: string)
    ensures "aiTraits" !in AccountBasics(userId, email, name, now)
    ensures "aiCompanionName" !in AccountBasics(userId, email, name, now)
  {
    assert "aiTraits"[1] != "location"[1];
  }

  /** What `auth.admin.createUser` answered. */
  datatype CreateUserResult = Created(userId: string) | CreateFailed(message: string)

  const SIGNUP_FIELDS_REQUIRED: string := "Email, password e nome são obrigatórios"

  /** `handleSignup`: validation, account creation, profile seed. */
  method HandleSignup(kv: KvStore, email: Option<string>, password: Option<string>, name: Option<string>,
                      created: CreateUserResult, now: string)
    returns (resp: Response)
    modifies kv
    ensures Falsy(email) || Falsy(password) || Falsy(name) ==>
      resp == Response(400, ErrorBody(SIGNUP_FIELDS_REQUIRED)) && kv.entries == old(kv.entries)
    ensures !(Falsy(email) || Falsy(password) || Falsy(name)) && created.CreateFailed? ==>
      resp == Response(400, ErrorBody(created.message)) && kv.entries == old(kv.entries)
    ensures !(Falsy(email) || Falsy(password) || Falsy(name)) && created.Created? ==>
      && resp == Response(200, UserBody(created.userId))
      && kv.entries == old(kv.entries)[UserKey(created.userId) :=
                         Record(SignupSeed(created.userId, email.value, name.value, now))]
  {
    if Falsy(email) || Falsy(password) || Falsy(name) {
      return Response(400, ErrorBody(SIGNUP_FIELDS_REQUIRED));
    }
    match created
    case CreateFailed(message) =>
      return Response(400, ErrorBody(message));
    case Created(userId) =>
      kv.Set(UserKey(userId), Record(SignupSeed(userId, email.value, name.value, now)));
      return Response(200, UserBody(userId));
  }

  /** `handleGetProfile`: the stored record, or a placeholder when there is none. */
  method HandleGetProfile(kv: KvStore, userId: Option<string>) returns (resp: Response)
    ensures Unauthorized(userId) ==> resp == UNAUTHORIZED
    ensures !Unauthorized(userId) && UserKey(userId.value) in kv.entries ==>
      resp == Response(200, ProfileBody(AsObject(kv.entries[UserKey(userId.value)])))
    ensures !Unauthorized(userId) && UserKey(userId.value) !in kv.entries ==>
      resp == Response(200, ProfileBody(DefaultProfile(userId.value)))
  {
    if Unauthorized(userId) {
      return UNAUTHORIZED;
    }
    var stored := kv.Get(UserKey(userId.value));
    if stored.Some? {
      resp := Response(200, ProfileBody(AsObject(stored.value)));
    } else {
      resp := Response(200, ProfileBody(DefaultProfile(userId.value)));
    }
  }

  /** `handleUpdateProfile`, also mounted on `/profile/ai-config`: read, merge, write. */
  method HandleUpdateProfile(kv: KvStore, userId: Option<string>, updates: map<string, Json>)
    returns (resp: Response)
    modifies kv
    ensures Unauthorized(userId) ==> resp == UNAUTHORIZED && kv.entries == old(kv.entries)
    ensures !Unauthorized(userId) ==>
      var merged := MergeProfile(old(kv.Get(UserKey(userId.value))), updates, userId.value);
      && resp == Response(200, ProfileBody(merged))
      && kv.entries == old(kv.entries)[UserKey(userId.value) := Record(merged)]
  {
    if Unauthorized(userId) {
      return UNAUTHORIZED;
    }
    var current := kv.Get(UserKey(userId.value));
    var merged := MergeProfile(current, updates, userId.value);
    kv.Set(UserKey(userId.value), Record(merged));
    resp := Response(200, ProfileBody(merged));
  }

  // ---------------------------------------------------------------------------
  // Sending

  /** The two writes of a send: the message record, then the `lastMessage` digest. */
  function RecordMessage(entries: map<string, Value>, m: Message): (r: map<string, Value>)
    ensures MessageKey(m.id) in r && r[MessageKey(m.id)] == Msg(m)
    ensures LastMessageKey(m.conversationId) in r &&
            r[LastMessageKey(m.conversationId)] == LastMessage(m.text, m.timestamp)
    ensures forall k :: k != MessageKey(m.id) && k != LastMessageKey(m.conversationId) ==>
              (k in r <==> k in entries) && (k in entries ==> r[k] == entries[k])
    ensures forall k :: StartsWith(k, MESSAGE_PREFIX) ==> (k in r <==> k in entries || k == MessageKey(m.id))
  {
    KeyFamilies("", m.id, m.conversationId);
    entries[MessageKey(m.id) := Msg(m)][LastMessageKey(m.conversationId) := LastMessage(m.text, m.timestamp)]
  }

  function MessageKeys(entries: map<string, Value>): set<string> {
    set k | k in entries && StartsWith(k, MESSAGE_PREFIX)
  }

  /** With a fresh id, a send adds exactly one message record. */
  lemma RecordAddsOneMessage(entries: map<string, Value>, m: Message)
    requires MessageKey(m.id) !in entries
    ensures MessageKeys(RecordMessage(entries, m)) == MessageKeys(entries) + {MessageKey(m.id)}
    ensures |MessageKeys(RecordMessage(entries, m))| == |MessageKeys(entries)| + 1
  {
    KeyFamilies("", m.id, m.conversationId);
    assert MessageKeys(RecordMessage(entries, m)) == MessageKeys(entries) + {MessageKey(m.id)};
  }

  lemma MessageKeyInjective(a: string, b: string)
    ensures MessageKey(a) == MessageKey(b) ==> a == b
  {
    if MessageKey(a) == MessageKey(b) {
      assert MessageKey(a)[|MESSAGE_PREFIX|..] == a;
      assert MessageKey(b)[|MESSAGE_PREFIX|..] == b;
    }
  }

  /** A send to the companion followed by its reply adds exactly two message records; the
      user's message stays stored and the conversation's digest ends on the reply. */
  lemma SendAndReplyAddTwoMessages(entries: map<string, Value>, m: Message, reply: Message)
    requires MessageKey(m.id) !in entries && MessageKey(reply.id) !in entries && reply.id != m.id
    requires reply.conversationId == m.conversationId
    ensures var after := RecordMessage(RecordMessage(entries, m), reply);
      && |MessageKeys(after)| == |MessageKeys(entries)| + 2
      && MessageKey(m.id) in after && after[MessageKey(m.id)] == Msg(m)
      && after[LastMessageKey(m.conversationId)] == LastMessage(reply.text, reply.timestamp)
  {
    var mid := RecordMessage(entries, m);
    MessageKeyInjective(m.id, reply.id);
    KeyFamilies("", m.id, m.conversationId);
    RecordAddsOneMessage(entries, m);
    assert MessageKey(reply.id) !in mid;
    RecordAddsOneMessage(mid, reply);
  }

  /** Who the companion's reply goes to, once it is due. */
  datatype PendingReply = PendingReply(conversationId: string, userId: string)

  /** The companion's reply: from the sentinel, to the user, with a text of the pool.
      `index` is `Math.floor(Math.random() * aiResponses.length)`. */
  function AiReply(p: PendingReply, id: string, now: nat, index: nat): (m: Message)
    requires index < |AI_RESPONSES|
    ensures m.conversationId == p.conversationId
    ensures m.senderId == AI_COMPANION && m.receiver == p.userId
    ensures m.text in AI_RESPONSES && m.text != ""
  {
    Message(id, p.conversationId, AI_COMPANION, p.userId, AI_RESPONSES[index], now)
  }

  /** `handleSendMessage` up to the point it returns; the reply it schedules is
      `pending` and is delivered by DeliverAiReply. The text is not validated. */
  method HandleSendMessage(kv: KvStore, userId: Option<string>, conversationId: string, text: string,
                           receiver: string, id: string, now: nat)
    returns (resp: Response, pending: Option<PendingReply>)
    modifies kv
    ensures Unauthorized(userId) ==> resp == UNAUTHORIZED && pending.None? && kv.entries == old(kv.entries)
    ensures !Unauthorized(userId) ==>
      var m := Message(id, conversationId, userId.value, receiver, text, now);
      && resp == Response(200, MessageBody(m))
      && kv.entries == RecordMessage(old(kv.entries), m)
    ensures pending.Some? <==> !Unauthorized(userId) && receiver == AI_COMPANION
    ensures pending.Some? ==> pending.value == PendingReply(conversationId, userId.value)
  {
    if Unauthorized(userId) {
      return UNAUTHORIZED, None;
    }
    var m := Message(id, conversationId, userId.value, receiver, text, now);
    kv.Set(MessageKey(m.id), Msg(m));
    kv.Set(LastMessageKey(conversationId), LastMessage(text, m.timestamp));
    pending := if receiver == AI_COMPANION then Some(PendingReply(conversationId, userId.value)) else None;
    resp := Response(200, MessageBody(m));
  }

  /** The body of the `setTimeout` callback: one more message, one more digest write. */
  method DeliverAiReply(kv: KvStore, p: PendingReply, id: string, now: nat, index: nat)
    returns (reply: Message)
    requires index < |AI_RESPONSES|
    modifies kv
    ensures reply == AiReply(p, id, now, index)
    ensures kv.entries == RecordMessage(old(kv.entries), reply)
  {
    reply := AiReply(p, id, now, index);
    kv.Set(MessageKey(reply.id), Msg(reply));
    kv.Set(LastMessageKey(p.conversationId), LastMessage(reply.text, reply.timestamp));
  }

  // ---------------------------------------------------------------------------
  // Reading a conversation

  predicate Involves(m: Message, userId: string) {
    m.senderId == userId || m.receiver == userId
  }

  /** The filter of `handleGetMessages`. */
  function ConversationMessages(ms: seq<Message>, conversationId: string, userId: string): (r: seq<Message>)
    ensures forall m :: m in r <==> m in ms && m.conversationId == conversationId && Involves(m, userId)
    ensures IsSubsequence(r, ms)
  {
    Filter(ms, (m: Message) => m.conversationId == conversationId && Involves(m, userId))
  }

  predicate SortedByTime(ms: seq<Message>) {
    forall i, j :: 0 <= i < j < |ms| ==> ms[i].timestamp <= ms[j].timestamp
  }

  /** A sorted sequence stays sorted under a head that is no later than any of it. */
  lemma SortedCons(h: Message, rest: seq<Message>)
    requires SortedByTime(rest)
    requires forall y :: y in rest ==> h.timestamp <= y.timestamp
    ensures SortedByTime([h] + rest)
  {
    forall i, j | 0 <= i < j < |[h] + rest|
      ensures ([h] + rest)[i].timestamp <= ([h] + rest)[j].timestamp
    {
      assert ([h] + rest)[j] == rest[j - 1];
      if i > 0 {
        assert ([h] + rest)[i] == rest[i - 1];
      } else {
        assert rest[j - 1] in rest;
      }
    }
  }

  /** The tail of a sorted sequence is sorted and no earlier than its head. */
  lemma SortedTail(s: seq<Message>)
    requires s != [] && SortedByTime(s)
    ensures SortedByTime(s[1..])
    ensures forall y :: y in s[1..] ==> s[0].timestamp <= y.timestamp
  {
    forall y | y in s[1..] ensures s[0].timestamp <= y.timestamp {
      var k :| 0 <= k < |s[1..]| && s[1..][k] == y;
      assert s[k + 1] == y;
    }
  }

  /** Putting `x` in front keeps a sorted sequence sorted when `x` is no later than its head. */
  lemma InsertHeadSorted(x: Message, s: seq<Message>)
    requires s == [] || x.timestamp <= s[0].timestamp
    ensures SortedByTime(s) ==> SortedByTime([x] + s)
  {
    if SortedByTime(s) && s != [] {
      SortedTail(s);
      SortedCons(x, s);
    }
  }

  /** Keeping the head of a sorted sequence in front of a sorted insertion into its tail
      keeps it sorted, since `x` is later than the head. */
  lemma InsertTailSorted(x: Message, s: seq<Message>, rest: seq<Message>)
    requires s != [] && x.timestamp > s[0].timestamp
    requires multiset(rest) == multiset(s[1..]) + multiset{x}
    requires SortedByTime(s[1..]) ==> SortedByTime(rest)
    ensures SortedByTime(s) ==> SortedByTime([s[0]] + rest)
  {
    if SortedByTime(s) {
      SortedTail(s);
      forall y | y in rest ensures s[0].timestamp <= y.timestamp {
        assert multiset(rest)[y] > 0;
        if y != x {
          assert multiset(s[1..])[y] > 0;
          assert y in s[1..];
        }
      }
      SortedCons(s[0], rest);
    }
  }

  /** Insert `x` before the first element that is not earlier than it. */
  function Insert(x: Message, s: seq<Message>): (r: seq<Message>)
    ensures |r| == |s| + 1
    ensures multiset(r) == multiset(s) + multiset{x}
    ensures SortedByTime(s) ==> SortedByTime(r)
  {
    if s == [] || x.timestamp <= s[0].timestamp then
      InsertHeadSorted(x, s);
      [x] + s
    else
      var rest := Insert(x, s[1..]);
      InsertTailSorted(x, s, rest);
      assert s == [s[0]] + s[1..];
      [s[0]] + rest
  }

  /** The comparator sort `(a, b) => time(a) - time(b)`; the sort is stable. */
  function SortByTimestamp(ms: seq<Message>): (r: seq<Message>)
    ensures |r| == |ms|
    ensures multiset(r) == multiset(ms)
    ensures SortedByTime(r)
  {
    if ms == [] then []
    else
      assert ms == [ms[0]] + ms[1..];
      Insert(ms[0], SortByTimestamp(ms[1..]))
  }

  /** The messages with timestamp `t`, in order. */
  function AtTime(ms: seq<Message>, t: nat): seq<Message> {
    if ms == [] then []
    else (if ms[0].timestamp == t then [ms[0]] else []) + AtTime(ms[1..], t)
  }

  lemma AtTimeCons(m: Message, s: seq<Message>, t: nat)
    ensures AtTime([m] + s, t) == (if m.timestamp == t then [m] else []) + AtTime(s, t)
  {
    assert ([m] + s)[1..] == s;
  }

  lemma {:induction false} InsertAtTime(x: Message, s: seq<Message>, t: nat)
    ensures AtTime(Insert(x, s), t) == (if x.timestamp == t then [x] else []) + AtTime(s, t)
  {
    if s == [] || x.timestamp <= s[0].timestamp {
      AtTimeCons(x, s, t);
    } else {
      var rest := Insert(x, s[1..]);
      assert Insert(x, s) == [s[0]] + rest;
      assert s == [s[0]] + s[1..];
      AtTimeCons(s[0], rest, t);
      AtTimeCons(s[0], s[1..], t);
      InsertAtTime(x, s[1..], t);
      if x.timestamp == t {
        assert s[0].timestamp != t;
      }
    }
  }

  /** Stability: messages with equal timestamps keep their scan order. */
  lemma {:induction false} SortIsStable(ms: seq<Message>, t: nat)
    ensures AtTime(SortByTimestamp(ms), t) == AtTime(ms, t)
  {
    if ms != [] {
      SortIsStable(ms[1..], t);
      InsertAtTime(ms[0], SortByTimestamp(ms[1..]), t);
    }
  }

  /** What `GET /messages/:conversationId` answers: exactly the user's messages of that
      conversation, oldest first, ties in scan order. */
  lemma GetMessagesContents(ms: seq<Message>, conversationId: string, userId: string, t: nat)
    ensures var r := SortByTimestamp(ConversationMessages(ms, conversationId, userId));
      && (forall m :: m in r <==> m in ms && m.conversationId == conversationId && Involves(m, userId))
      && SortedByTime(r)
      && AtTime(r, t) == AtTime(ConversationMessages(ms, conversationId, userId), t)
  {
    var c := ConversationMessages(ms, conversationId, userId);
    var r := SortByTimestamp(c);
    forall m ensures m in r <==> m in c {
      assert m in r <==> multiset(r)[m] > 0;
      assert m in c <==> multiset(c)[m] > 0;
    }
    SortIsStable(c, t);
  }

  /** `handleGetMessages`. */
  method HandleGetMessages(kv: KvStore, userId: Option<string>, conversationId: string, order: seq<string>)
    returns (resp: Response)
    requires IsScan(kv.entries, MESSAGE_PREFIX, order)
    ensures Unauthorized(userId) ==> resp == UNAUTHORIZED
    ensures !Unauthorized(userId) ==>
      resp == Response(200, MessagesBody(SortByTimestamp(ConversationMessages(
                ScanMessages(kv.entries, order), conversationId, userId.value))))
  {
    if Unauthorized(userId) {
      return UNAUTHORIZED;
    }
    var all := ScanMessages(kv.entries, order);
    var messages := SortByTimestamp(ConversationMessages(all, conversationId, userId.value));
    resp := Response(200, MessagesBody(messages));
  }

  /** A message just sent is in what its sender reads back from that conversation. */
  lemma SentMessageIsRead(entries: map<string, Value>, m: Message, order: seq<string>)
    requires IsScan(RecordMessage(entries, m), MESSAGE_PREFIX, order)
    ensures m in SortByTimestamp(ConversationMessages(
              ScanMessages(RecordMessage(entries, m), order), m.conversationId, m.senderId))
  {
    var after := RecordMessage(entries, m);
    KeyFamilies("", m.id, m.conversationId);
    ScanSeesStoredMessages(after, order, m);
    var c := ConversationMessages(ScanMessages(after, order), m.conversationId, m.senderId);
    assert m in c;
    assert multiset(c)[m] > 0;
  }

  // ---------------------------------------------------------------------------
  // Listing conversations

  function InvolvedMessages(ms: seq<Message>, userId: string): (r: seq<Message>)
    ensures forall m :: m in r <==> m in ms && Involves(m, userId)
  {
    Filter(ms, (m: Message) => Involves(m, userId))
  }

  /** `msgs.map(msg => msg.conversationId)`. */
  function ConversationIdsOf(ms: seq<Message>): (r: seq<string>)
    ensures |r| == |ms| && forall i :: 0 <= i < |ms| ==> r[i] == ms[i].conversationId
  {
    if ms == [] then [] else [ms[0].conversationId] + ConversationIdsOf(ms[1..])
  }

  lemma ConversationIdsMembership(ms: seq<Message>)
    ensures forall id :: id in ConversationIdsOf(ms) <==> exists m :: m in ms && m.conversationId == id
  {
    var ids := ConversationIdsOf(ms);
    forall id | id in ids ensures exists m :: m in ms && m.conversationId == id {
      var i :| 0 <= i < |ids| && ids[i] == id;
      assert ms[i] in ms;
    }
    forall m | m in ms ensures m.conversationId in ids {
      var i :| 0 <= i < |ms| && ms[i] == m;
      assert ids[i] == m.conversationId;
    }
  }

  /** `[...new Set(userConversations.map(msg => msg.conversationId))]`. */
  function UserConversationIds(ms: seq<Message>, userId: string): (r: seq<string>)
    ensures forall id :: id in r <==> exists m :: m in ms && Involves(m, userId) && m.conversationId == id
    ensures NoDuplicates(r)
    ensures var ids := ConversationIdsOf(InvolvedMessages(ms, userId));
      (forall id :: id in r <==> id in ids) &&
      forall i, j :: 0 <= i < j < |r| ==> FirstIndex(ids, r[i]) < FirstIndex(ids, r[j])
  {
    var involved := InvolvedMessages(ms, userId);
    var r := Dedup(ConversationIdsOf(involved));
    ConversationIdsMembership(involved);
    assert forall id :: id in r <==> exists m :: m in ms && Involves(m, userId) && m.conversationId == id by {
      forall id ensures id in r <==> exists m :: m in ms && Involves(m, userId) && m.conversationId == id {
        if id in r {
          var m :| m in involved && m.conversationId == id;
          assert m in ms && Involves(m, userId);
        }
        if exists m :: m in ms && Involves(m, userId) && m.conversationId == id {
          var m :| m in ms && Involves(m, userId) && m.conversationId == id;
          assert m in involved;
        }
      }
    }
    r
  }

  /** The summary built for one id: only the companion's is named 'Meu Elo' and typed 'ai'. */
  function Summary(id: string): (c: Conversation)
    ensures c.id == id
    ensures c.name == "Meu Elo" <==> id == AI_COMPANION
    ensures c.kind == Ai <==> id == AI_COMPANION
  {
    Conversation(id, if id == AI_COMPANION then "Meu Elo" else "Outro Usuário", "👤", "Olá", "Agora", 0,
                 if id == AI_COMPANION then Ai else Human)
  }

  function Summaries(ids: seq<string>): (r: seq<Conversation>)
    ensures |r| == |ids| && forall i :: 0 <= i < |ids| ==> r[i] == Summary(ids[i])
  {
    if ids == [] then [] else [Summary(ids[0])] + Summaries(ids[1..])
  }

  /** `handleGetConversations`. The companion's conversation is listed only if a
      message of the user carries its id. */
  method HandleGetConversations(kv: KvStore, userId: Option<string>, order: seq<string>)
    returns (resp: Response)
    requires IsScan(kv.entries, MESSAGE_PREFIX, order)
    ensures Unauthorized(userId) ==> resp == UNAUTHORIZED
    ensures !Unauthorized(userId) ==>
      resp == Response(200, ConversationsBody(Summaries(UserConversationIds(
                ScanMessages(kv.entries, order), userId.value))))
  {
    if Unauthorized(userId) {
      return UNAUTHORIZED;
    }
    var all := ScanMessages(kv.entries, order);
    resp := Response(200, ConversationsBody(Summaries(UserConversationIds(all, userId.value))));
  }
}
