/** The AI companion settings of src/app/components/AiCompanionSetupView.tsx: the
    defaults taken from the user record, the topic toggles that keep the focus and avoid
    lists apart, and the payload handed to the save callback. */
module AiCompanion {
  import opened Common
  import opened KvServer

  datatype Traits = Traits(formality: int, humor: int, proactivity: int)
  datatype Topics = Topics(focus: seq<string>, avoid: seq<string>)
  datatype TopicType = Focus | Avoid

  /** The companion fields of the user record; `None` is an absent field. */
  datatype UserAiFields = UserAiFields(
    name: Option<string>, personality: Option<string>, avatar: Option<string>,
    traits: Option<Traits>, memory: Option<string>, topics: Option<Topics>)

  /** The screen's state, which is also the payload of `handleSave`. */
  datatype AiConfig = AiConfig(
    name: string, personality: string, avatar: string, traits: Traits, memory: string, topics: Topics)

  const DEFAULT_NAME: string := "Meu Elo"
  const DEFAULT_PERSONALITY: string := "amoroso"
  const DEFAULT_AVATAR: string := "🤖"
  const DEFAULT_TRAITS: Traits := Traits(50, 50, 50)
  const DEFAULT_MEMORY: string := "medium"
  const NO_TOPICS: Topics := Topics([], [])

  /** The `useState(user.x || default)` initialisers. An object field is never falsy. */
  function InitialConfig(u: UserAiFields): (c: AiConfig)
    ensures Falsy(u.name) ==> c.name == DEFAULT_NAME
    ensures !Falsy(u.name) ==> c.name == u.name.value
    ensures Falsy(u.personality) ==> c.personality == DEFAULT_PERSONALITY
    ensures !Falsy(u.personality) ==> c.personality == u.personality.value
    ensures Falsy(u.avatar) ==> c.avatar == DEFAULT_AVATAR
    ensures !Falsy(u.avatar) ==> c.avatar == u.avatar.value
    ensures u.traits.None? ==> c.traits == DEFAULT_TRAITS
    ensures u.traits.Some? ==> c.traits == u.traits.value
    ensures Falsy(u.memory) ==> c.memory == DEFAULT_MEMORY
    ensures !Falsy(u.memory) ==> c.memory == u.memory.value
    ensures u.topics.None? ==> c.topics == NO_TOPICS
    ensures u.topics.Some? ==> c.topics == u.topics.value
  {
    AiConfig(
      OrElse(u.name, DEFAULT_NAME), OrElse(u.personality, DEFAULT_PERSONALITY), OrElse(u.avatar, DEFAULT_AVATAR),
      if u.traits.Some? then u.traits.value else DEFAULT_TRAITS,
      OrElse(u.memory, DEFAULT_MEMORY),
      if u.topics.Some? then u.topics.value else NO_TOPICS)
  }

  // ---------------------------------------------------------------------------
  // Topics

  function Same(t: string): string { t }

  /** `list.filter(t => t !== topic)`. */
  function Without(list: seq<string>, topic: string): (r: seq<string>)
    ensures topic !in r
    ensures forall x :: x in r <==> x in list && x != topic
    ensures IsSubsequence(r, list)
  {
    RemoveKey(list, Same, topic)
  }

  /** The new list of the toggled type: drop the topic if present, else append it. */
  function ToggleIn(list: seq<string>, topic: string): (r: seq<string>)
    ensures topic in list ==> r == Without(list, topic)
    ensures topic !in list ==> r == list + [topic]
    ensures topic in r <==> topic !in list
  {
    if topic in list then Without(list, topic) else list + [topic]
  }

  function ListOf(t: Topics, kind: TopicType): seq<string> {
    match kind
    case Focus => t.focus
    case Avoid => t.avoid
  }

  function Other(kind: TopicType): TopicType {
    match kind
    case Focus => Avoid
    case Avoid => Focus
  }

  /** `toggleTopic(topic, type)`. */
  function ToggleTopic(t: Topics, topic: string, kind: TopicType): (r: Topics)
    ensures ListOf(r, kind) == ToggleIn(ListOf(t, kind), topic)
    ensures ListOf(r, Other(kind)) == Without(ListOf(t, Other(kind)), topic)
    ensures topic in ListOf(r, kind) <==> topic !in ListOf(t, kind)
    ensures topic !in ListOf(r, Other(kind))
  {
    match kind
    case Focus => Topics(ToggleIn(t.focus, topic), Without(t.avoid, topic))
    case Avoid => Topics(Without(t.focus, topic), ToggleIn(t.avoid, topic))
  }

  predicate Disjoint(t: Topics) {
    forall x :: x in t.focus ==> x !in t.avoid
  }

  /** A toggle never puts a topic in both lists. */
  lemma ToggleKeepsDisjoint(t: Topics, topic: string, kind: TopicType)
    requires Disjoint(t)
    ensures Disjoint(ToggleTopic(t, topic, kind))
  {
  }

  /** Erasing the toggled topic from the new lists gives the erased old lists: every
      other topic keeps its membership, multiplicity and relative order. */
  lemma {:induction false} ToggleTouchesOnlyTopic(t: Topics, topic: string, kind: TopicType)
    ensures Without(ToggleTopic(t, topic, kind).focus, topic) == Without(t.focus, topic)
    ensures Without(ToggleTopic(t, topic, kind).avoid, topic) == Without(t.avoid, topic)
  {
    var list := ListOf(t, kind);
    if topic in list {
      RemoveKeyIdempotent(list, Same, topic);
    } else {
      RemoveKeyAppend(list, [topic], Same, topic);
      assert RemoveKey([topic], Same, topic) == [];
    }
    RemoveKeyIdempotent(ListOf(t, Other(kind)), Same, topic);
  }

  /** Toggling a topic that is in neither list twice in a row changes nothing. */
  lemma {:induction false} ToggleTwice(t: Topics, topic: string, kind: TopicType)
    requires topic !in t.focus && topic !in t.avoid
    ensures ToggleTopic(ToggleTopic(t, topic, kind), topic, kind) == t
  {
    var list := ListOf(t, kind);
    var other := ListOf(t, Other(kind));
    RemoveKeyAbsent(other, Same, topic);
    RemoveKeyAbsent(list, Same, topic);
    RemoveKeyAppend(list, [topic], Same, topic);
    assert RemoveKey([topic], Same, topic) == [];
    assert Without(list + [topic], topic) == list;
  }

  // ---------------------------------------------------------------------------
  // Saving and reopening

  /** A list of strings as a JSON array: one JSON string per element, in order. */
  function EncodeStrings(xs: seq<string>): (r: seq<Json>)
    ensures |r| == |xs|
    ensures forall i :: 0 <= i < |xs| ==> r[i] == JStr(xs[i])
  {
    if xs == [] then [] else [JStr(xs[0])] + EncodeStrings(xs[1..])
  }

  function DecodeStrings(items: seq<Json>): Option<seq<string>> {
    if items == [] then Some([])
    else match (items[0], DecodeStrings(items[1..]))
      case (JStr(s), Some(rest)) => Some([s] + rest)
      case _ => None
  }

  lemma {:induction false} DecodeEncodeStrings(xs: seq<string>)
    ensures DecodeStrings(EncodeStrings(xs)) == Some(xs)
  {
    if xs != [] {
      DecodeEncodeStrings(xs[1..]);
      assert EncodeStrings(xs)[1..] == EncodeStrings(xs[1..]);
      assert [xs[0]] + xs[1..] == xs;
    }
  }

  function TraitsJson(t: Traits): Json {
    JObj(map["formality" := JNum(t.formality), "humor" := JNum(t.humor), "proactivity" := JNum(t.proactivity)])
  }

  function TopicsJson(t: Topics): Json {
    JObj(map["focus" := JArr(EncodeStrings(t.focus)), "avoid" := JArr(EncodeStrings(t.avoid))])
  }

  /** The JSON the save callback sends on to `/profile/ai-config`. */
  function ToJson(c: AiConfig): map<string, Json> {
    map[
      "aiCompanionName" := JStr(c.name), "aiCompanionPersonality" := JStr(c.personality),
      "aiCompanionAvatar" := JStr(c.avatar), "aiTraits" := TraitsJson(c.traits),
      "aiMemory" := JStr(c.memory), "aiTopics" := TopicsJson(c.topics)]
  }

  function StringField(r: map<string, Json>, key: string): Option<string> {
    if key in r && r[key].JStr? then Some(r[key].s) else None
  }

  function TraitsField(r: map<string, Json>): Option<Traits> {
    if "aiTraits" in r && r["aiTraits"].JObj? then
      var m := r["aiTraits"].fields;
      if "formality" in m && m["formality"].JNum? && "humor" in m && m["humor"].JNum? &&
         "proactivity" in m && m["proactivity"].JNum?
      then Some(Traits(m["formality"].n, m["humor"].n, m["proactivity"].n))
      else None
    else None
  }

  function TopicsField(r: map<string, Json>): Option<Topics> {
    if "aiTopics" in r && r["aiTopics"].JObj? then
      var m := r["aiTopics"].fields;
      if "focus" in m && m["focus"].JArr? && "avoid" in m && m["avoid"].JArr? then
        match (DecodeStrings(m["focus"].items), DecodeStrings(m["avoid"].items))
        case (Some(f), Some(a)) => Some(Topics(f, a))
        case _ => None
      else None
    else None
  }

  /** Traits written by the save are read back as themselves. */
  lemma TraitsRoundTrip(r: map<string, Json>, t: Traits)
    requires "aiTraits" in r && r["aiTraits"] == TraitsJson(t)
    ensures TraitsField(r) == Some(t)
  {
  }

  /** Topic lists written by the save are read back as themselves. */
  lemma TopicsRoundTrip(r: map<string, Json>, t: Topics)
    requires "aiTopics" in r && r["aiTopics"] == TopicsJson(t)
    ensures TopicsField(r) == Some(t)
  {
    DecodeEncodeStrings(t.focus);
    DecodeEncodeStrings(t.avoid);
  }

  /** The companion fields the screen reads from a profile record. */
  function FromProfile(r: map<string, Json>): UserAiFields {
    UserAiFields(
      StringField(r, "aiCompanionName"), StringField(r, "aiCompanionPersonality"),
      StringField(r, "aiCompanionAvatar"), TraitsField(r), StringField(r, "aiMemory"), TopicsField(r))
  }

  /** A record holding the saved fields reopens as the saved configuration. */
  lemma ReadBack(r: map<string, Json>, c: AiConfig)
    requires c.name != "" && c.personality != "" && c.avatar != "" && c.memory != ""
    requires "aiCompanionName" in r && r["aiCompanionName"] == JStr(c.name)
    requires "aiCompanionPersonality" in r && r["aiCompanionPersonality"] == JStr(c.personality)
    requires "aiCompanionAvatar" in r && r["aiCompanionAvatar"] == JStr(c.avatar)
    requires "aiMemory" in r && r["aiMemory"] == JStr(c.memory)
    requires "aiTraits" in r && r["aiTraits"] == TraitsJson(c.traits)
    requires "aiTopics" in r && r["aiTopics"] == TopicsJson(c.topics)
    ensures InitialConfig(FromProfile(r)) == c
  {
    TraitsRoundTrip(r, c.traits);
    TopicsRoundTrip(r, c.topics);
  }

  /** The six saved keys, none of them the forced `id`. */
  lemma SavedKeys(c: AiConfig)
    ensures var j := ToJson(c);
      && j.Keys == {"aiCompanionName", "aiCompanionPersonality", "aiCompanionAvatar", "aiTraits", "aiMemory", "aiTopics"}
      && "id" !in j
      && j["aiCompanionName"] == JStr(c.name) && j["aiCompanionPersonality"] == JStr(c.personality)
      && j["aiCompanionAvatar"] == JStr(c.avatar) && j["aiMemory"] == JStr(c.memory)
      && j["aiTraits"] == TraitsJson(c.traits) && j["aiTopics"] == TopicsJson(c.topics)
  {
  }

  /** Saving a configuration, merging it into the stored profile and reopening the screen
      restores it, provided no text field was left empty (an empty one reopens as its
      default). */
  lemma SaveThenReopen(c: AiConfig, stored: Option<Value>, userId: string)
    requires c.name != "" && c.personality != "" && c.avatar != "" && c.memory != ""
    ensures InitialConfig(FromProfile(MergeProfile(stored, ToJson(c), userId))) == c
  {
    var j := ToJson(c);
    var r := MergeProfile(stored, j, userId);
    SavedKeys(c);
    assert r["aiCompanionName"] == j["aiCompanionName"] && r["aiCompanionPersonality"] == j["aiCompanionPersonality"];
    assert r["aiCompanionAvatar"] == j["aiCompanionAvatar"] && r["aiMemory"] == j["aiMemory"];
    assert r["aiTraits"] == j["aiTraits"] && r["aiTopics"] == j["aiTopics"];
    ReadBack(r, c);
  }

  /** The screen's defaults are the companion fields a new account is seeded with. */
  lemma DefaultsMatchSignupSeed()
    ensures var d := ProfileDefaults();
      && d["aiCompanionName"] == JStr(DEFAULT_NAME)
      && d["aiCompanionPersonality"] == JStr(DEFAULT_PERSONALITY)
      && d["aiCompanionAvatar"] == JStr(DEFAULT_AVATAR)
      && TraitsField(d) == Some(DEFAULT_TRAITS)
      && d["aiMemory"] == JStr(DEFAULT_MEMORY)
  {
  }

  // ---------------------------------------------------------------------------
  // The screen's state

  class AiCompanionSetupView {
    var name: string
    var personality: string
    var avatar: string
    var traits: Traits
    var memory: string
    var topics: Topics

    function Config(): AiConfig
      reads this
    {
      AiConfig(name, personality, avatar, traits, memory, topics)
    }

    constructor (user: UserAiFields)
      ensures Config() == InitialConfig(user)
    {
      var c := InitialConfig(user);
      name, personality, avatar := c.name, c.personality, c.avatar;
      traits, memory, topics := c.traits, c.memory, c.topics;
    }

    method ToggleTopicOf(topic: string, kind: TopicType)
      modifies this
      ensures topics == ToggleTopic(old(topics), topic, kind)
      ensures name == old(name) && personality == old(personality) && avatar == old(avatar)
      ensures traits == old(traits) && memory == old(memory)
    {
      topics := ToggleTopic(topics, topic, kind);
    }

    /** `handleSave`: the six fields of the current state, nothing else. */
    method HandleSave() returns (payload: map<string, Json>)
      ensures payload == ToJson(Config())
      ensures payload.Keys == {"aiCompanionName", "aiCompanionPersonality", "aiCompanionAvatar",
                               "aiTraits", "aiMemory", "aiTopics"}
    {
      payload := ToJson(Config());
    }
  }
}
