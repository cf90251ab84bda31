# Elo Digital — a Dafny model of the client screens and the backend

Elo Digital is a dating and companionship application. It has two halves:

- a React client, whose screens are modelled here:
  - Discover: browse candidates under filters, with a daily like quota;
  - Store: the catalogue and the cart;
  - the AI companion's settings;
  - profile editing;
  - the chat screen and the conversation list;
  - settings;
  - the two block/favourite lists.
- a Hono backend over a key-value store. It has two copies:
  - `supabase/functions/server/index.tsx` (module `KvServer`);
  - `src/mod.ts.ts` (module `ModServer`).

The backend stores three kinds of key:

- a profile record under `user:<id>`;
- each message under `message:<id>`;
- a last-message summary under `conversation:<id>:lastMessage`.

It answers the signup, profile, message and conversation routes.

The modules follow the files, one module per core file, plus shared helpers:

| module | file | form |
|---|---|---|
| `Common` | helpers | JavaScript's falsy `||`, `filter`, first-appearance deduplication (`new Set`), ASCII `trim`, `split`/`join`, `toLowerCase`, `includes` |
| `Discover` | `DiscoverView.tsx` | pure filter and quota functions (`Visible`, `Act`, `Run`); class `DiscoverView` for the component state |
| `KvServer` | `index.tsx` | class `KvStore` for the store; the handlers are methods over it, specified by pure functions (`MergeProfile`, `RecordMessage`, `ConversationMessages`, `SortByTimestamp`, `UserConversationIds`) |
| `ModServer` | `mod.ts.ts` | its own auth helper (as written, and corrected) and its smaller signup seed |
| `Store` | `StoreView.tsx` | cart functions (`AddItem`, `RemoveItem`, `UpdateItem`) and class `StoreView` |
| `AiCompanion` | `AiCompanionSetupView.tsx` | topic toggling; the save payload and how it reads back; class `AiCompanionSetupView` |
| `ProfileEdit` | `ProfileEditView.tsx` | the form, the languages round trip, class `ProfileEditView` |
| `Chat` | `ChatView.tsx` | the load and send steps as class `ChatView`; own-message test (as written, and corrected) |
| `Conversations` | `ConversationsView.tsx` | the list with the companion pinned on top |
| `Settings` | `SettingsView.tsx` | the initial flags and the notification toggles |
| `Blocked` | `BlockedView.tsx` | unblocking |
| `UserLists` | `UserListsView.tsx` | favourites and blocked entries |

Parameters stand in for what is outside the core:

- **Clock.** Timestamps are natural numbers (the source uses ISO strings of the same instant).
- **Fresh ids.** `crypto.randomUUID` and `Date.now` ids are passed in.
- **AI reply text.** The random choice of a reply is an index below seven.
- **createMatch.** Whether the call succeeded is a boolean.
- **sendMessage.** On the chat screen, whether the send resolved is a boolean.
- **Supabase Auth.** It becomes one of:
  - a session map from token to user id;
  - a `CreateUserResult`;
  - for `mod.ts.ts`, a map from decodable JWT strings to their `sub` claim.
- **Store scans.** The order in which `getByPrefix` returns matching entries is a parameter, constrained by `IsScan` to list every `message:` key exactly once.
- **Client fetches.** A fetch on the client is a `LoadResult`/`FetchResult` value, which is either a body or an error.

When the client asks for an AI reply, the server answers at once and stores the reply about 1000 ms later. The model splits this into two steps:

1. `HandleSendMessage` stores the user's message and returns a `PendingReply`.
2. `DeliverAiReply` stores the reply later.

## Model

| member | source | states |
|---|---|---|
| Common.OrElseLaws | src/app/components/AiCompanionSetupView.tsx:36-38 | `x || ''` is the string itself whenever it is present; a non-empty fallback never gives an empty string; applying the same fallback twice is applying it once |
| Common.Filter | src/app/components/StoreView.tsx:35-39 | `filter` keeps exactly the elements the predicate accepts, in their original order |
| Common.FilterMultiset | src/app/components/StoreView.tsx:35-39 | each accepted element occurs as often as in the input, each rejected one not at all |
| Common.RemoveKey | src/app/components/BlockedView.tsx:20 | `filter(u => u.id !== id)` keeps exactly the elements whose key differs, in order, and none with the key |
| Common.RemoveKeyMultiset | src/app/components/BlockedView.tsx:20 | elements with another key keep their multiplicity; those with the key are gone |
| Common.RemoveKeyCons | src/app/components/BlockedView.tsx:20 | removing by key from a list with a first element keeps that element exactly when its key differs |
| Common.RemoveKeyIdempotent | src/app/components/UserListsView.tsx:29 | removing by the same key twice is the same as once |
| Common.RemoveKeyAppend | src/app/components/AiCompanionSetupView.tsx:60-61 | removing by key distributes over concatenation |
| Common.Dedup | supabase/functions/server/index.tsx:334 | `[...new Set(xs)]`: the same elements, no duplicates, in order of first appearance |
| Common.Trim | src/app/components/ChatView.tsx:77 | `trim()`: the result has no leading or trailing space; it is empty exactly when the input is all spaces; a trimmed input is returned unchanged |
| Common.TrimRemovesOuterSpaces | src/app/components/ChatView.tsx:77 | `trim()` gives a contiguous slice of the input with only spaces before and after it, so it removes exactly the leading and trailing spaces |
| Common.TrimSpacePrefix | src/app/components/ProfileEditView.tsx:46 | a leading space does not change the trimmed string |
| Common.Split | supabase/functions/server/index.tsx:61 | `split(sep)` gives at least one piece, and no piece contains the separator |
| Common.JoinSplit | src/app/components/ProfileEditView.tsx:35 | joining the pieces of a split with the separator gives back the original string |
| Common.Lower | src/app/components/StoreView.tsx:37 | `toLowerCase()` keeps the length and lower-cases each character |
| Common.LowerIdempotent | src/app/components/StoreView.tsx:37 | lower-casing twice is lower-casing once |
| Discover.VisibleIff | src/app/components/DiscoverView.tsx:121-128 | a candidate is shown iff it is within the distance, within the inclusive age range, and satisfies every lifestyle toggle that is on |
| Discover.FilteredProfiles | src/app/components/DiscoverView.tsx:121-128 | the filtered queue holds exactly the visible candidates, in queue order |
| Discover.CurrentProfile | src/app/components/DiscoverView.tsx:130 | `filteredProfiles[0]`: none iff no candidate is visible, otherwise the first visible candidate in queue order |
| Discover.FirstVisibleHead | src/app/components/DiscoverView.tsx:121-130 | the head of a non-empty filtered queue is the candidate at the first visible index |
| Discover.WidestFiltersShowMore | src/app/components/DiscoverView.tsx:234-238 | after a reset (200 km, ages 18-100, toggles off) every candidate visible under narrower filters stays visible |
| Discover.Act | src/app/components/DiscoverView.tsx:96-119 | a free account with no quota left is refused and nothing changes; otherwise the unfiltered head is removed, and only a recorded action of a free account spends one unit |
| Discover.QuotaNeverNegative | src/app/components/DiscoverView.tsx:97-108 | over any sequence of actions, each finished before the next starts, the free quota stays at or above zero and never grows, and a premium quota never moves |
| Discover.SuccessfulRun | src/app/components/DiscoverView.tsx:104-108 | n recorded actions within quota consume exactly the first n candidates and n units |
| Discover.FreeSessionAllowsFive | src/app/components/DiscoverView.tsx:85 | a fresh free session accepts five actions, after which the sixth is refused with the queue unchanged |
| Discover.ActionConsumesHiddenHead | src/app/components/DiscoverView.tsx:104 | with the mock queue and "Pratica Esportes" on, Pedro is shown, a like removes the hidden Juliana, and Pedro is still the card |
| Discover.LikeThenNoMoreProfiles | src/app/components/DiscoverView.tsx:104-130 | a like consumes the near candidate, and a distant one is then not shown |
| Discover.ResetRestoresHiddenCandidate | src/app/components/DiscoverView.tsx:234-238 | a candidate hidden by a 10 km limit is shown again after the reset |
| Discover.DiscoverView.constructor | src/app/components/DiscoverView.tsx:84-94 | the mock queue, a quota of 9999 or 5, and the default filters 50 km and ages 18-50 |
| Discover.DiscoverView.HandleAction | src/app/components/DiscoverView.tsx:96-119 | the new queue and quota are those of `Act`; a match request is sent iff the action is not refused; filters unchanged |
| Discover.DiscoverView.SetMaxDistance | src/app/components/DiscoverView.tsx:174 | only the distance changes |
| Discover.DiscoverView.SetAgeRange | src/app/components/DiscoverView.tsx:190 | only the age range changes |
| Discover.DiscoverView.ToggleNonSmoker | src/app/components/DiscoverView.tsx:199 | only the non-smoker toggle flips |
| Discover.DiscoverView.ToggleSocialDrinker | src/app/components/DiscoverView.tsx:205 | only the social-drinker toggle flips |
| Discover.DiscoverView.ToggleActive | src/app/components/DiscoverView.tsx:211 | only the sports toggle flips |
| Discover.DiscoverView.ResetFilters | src/app/components/DiscoverView.tsx:234-238 | filters become 200 km, ages 18-100, toggles off; queue and quota unchanged |
| KvServer.KeyFamilies | supabase/functions/server/index.tsx:250-252 | message keys carry the `message:` prefix, and user and last-message keys never do, so a message scan sees only messages |
| KvServer.MessageKeyInjective | supabase/functions/server/index.tsx:250 | distinct message ids give distinct keys |
| KvServer.KvStore.Get | supabase/functions/server/index.tsx:191 | a lookup finds a value iff the key is stored, and finds the stored value |
| KvServer.KvStore.Set | supabase/functions/server/index.tsx:215 | a write replaces exactly one key |
| KvServer.ScanMessages | supabase/functions/server/index.tsx:306 | `getByPrefix('message:')` yields exactly the messages stored under the scanned keys |
| KvServer.ScanSeesStoredMessages | supabase/functions/server/index.tsx:306 | a message is in the scan iff it is stored under some `message:` key |
| KvServer.BearerToken | supabase/functions/server/index.tsx:61-65 | `split(' ')[1]` is a token iff the header has a second, non-empty piece; a token is never empty and has no space |
| KvServer.BearerTokenOfHeader | supabase/functions/server/index.tsx:61 | the header `Bearer <t>` yields `t` |
| KvServer.NoBlankNoToken | supabase/functions/server/index.tsx:62-65 | a header without a space yields no token |
| KvServer.GetUserIdFromAuth | supabase/functions/server/index.tsx:54-81 | no header, no token, or an unknown token give no user; otherwise the session's user |
| KvServer.MergeProfile | supabase/functions/server/index.tsx:211-214 | `{...current, ...updates, id}`: the keys are the union; updates win; other stored fields are kept; `id` is forced |
| KvServer.MergeIdempotent | supabase/functions/server/index.tsx:211-215 | applying the same update twice stores the same record as once |
| KvServer.AccountBasics | src/mod.ts.ts:80-88 | the seed has exactly the seven account keys, with id, email and name as given and isPremium false |
| KvServer.CompanionKeysNotBasic | supabase/functions/server/index.tsx:110-138 | `aiTraits` and `aiCompanionName` are not among the seven account keys, so the seed's defaults are not overwritten |
| KvServer.SignupSeed | supabase/functions/server/index.tsx:110-138 | the full seed keeps the seven account fields and adds aiTraits 50/50/50 and the companion name "Meu Elo" |
| KvServer.HandleSignup | supabase/functions/server/index.tsx:86-145 | missing fields give 400 with the fixed message; an auth failure gives 400 with its message; both leave the store unchanged; success stores the seed under `user:<id>` |
| KvServer.HandleGetProfile | supabase/functions/server/index.tsx:184-197 | 401 without a user; the stored record, or the default `{id, "default", "default"}` |
| KvServer.HandleUpdateProfile | supabase/functions/server/index.tsx:204-221 | 401 with the store unchanged; otherwise stores and returns the merged record |
| KvServer.RecordMessage | supabase/functions/server/index.tsx:250-255 | writes the message and the conversation's last message, touches no other key, and adds exactly one `message:` key |
| KvServer.RecordAddsOneMessage | supabase/functions/server/index.tsx:250 | a fresh id adds exactly one message key |
| KvServer.SendAndReplyAddTwoMessages | supabase/functions/server/index.tsx:250-280 | a message and its AI reply add two message keys, and the summary holds the reply's text |
| KvServer.AiReply | supabase/functions/server/index.tsx:259-278 | the reply is in the same conversation, comes from the companion, goes to the user, and its text is one of the seven non-empty replies |
| KvServer.HandleSendMessage | supabase/functions/server/index.tsx:232-292 | 401 with the store unchanged; otherwise records the message from the caller and schedules a reply iff the receiver is the companion |
| KvServer.DeliverAiReply | supabase/functions/server/index.tsx:259-284 | the scheduled step records `AiReply` |
| KvServer.ConversationMessages | supabase/functions/server/index.tsx:308-309 | exactly the messages of this conversation that the user sent or received, in scan order |
| KvServer.Insert | supabase/functions/server/index.tsx:310 | inserting into a time-sorted list keeps it sorted and adds exactly one element |
| KvServer.SortByTimestamp | supabase/functions/server/index.tsx:310 | a permutation of the input, sorted by timestamp |
| KvServer.SortIsStable | supabase/functions/server/index.tsx:310 | messages with equal timestamps keep their scan order |
| KvServer.GetMessagesContents | supabase/functions/server/index.tsx:306-310 | the answer holds exactly the conversation's messages involving the user, sorted, with ties in scan order |
| KvServer.HandleGetMessages | supabase/functions/server/index.tsx:298-317 | 401 without a user; otherwise the sorted involved messages of the conversation |
| KvServer.SentMessageIsRead | supabase/functions/server/index.tsx:250-310 | a message just stored is in its sender's next read of that conversation |
| KvServer.InvolvedMessages | supabase/functions/server/index.tsx:332 | exactly the scanned messages the user sent or received |
| KvServer.ConversationIdsMembership | supabase/functions/server/index.tsx:334 | an id is among the mapped conversation ids iff some message carries it |
| KvServer.UserConversationIds | supabase/functions/server/index.tsx:331-334 | each conversation the user took part in, once, in order of first appearance in the scan |
| KvServer.Summary | supabase/functions/server/index.tsx:336 | the name is "Meu Elo", and the kind is ai, iff the id is the companion's |
| KvServer.Summaries | supabase/functions/server/index.tsx:336 | one summary per id, in order |
| KvServer.HandleGetConversations | supabase/functions/server/index.tsx:324-342 | 401 without a user; otherwise the summaries of the user's conversations |
| ModServer.DecodeSubject | src/mod.ts.ts:49-50 | `jwtDecode(x).sub`: none for a non-string input; for a string, the subject iff it is decodable |
| ModServer.AsWrittenRejectsEveryone | src/mod.ts.ts:45-49 | as written, every header yields no user, so every protected route answers 401 |
| ModServer.GetUserIdFromAuth | src/mod.ts.ts:42-55 | corrected: the subject of the second piece of the header, iff that piece is a decodable token |
| ModServer.AuthFindingWitness | src/mod.ts.ts:45-49 | for `Bearer <jwt>`, the corrected helper yields the subject and the helper as written yields nothing |
| ModServer.SeedIsAccountBasics | src/mod.ts.ts:80-88 | this seed agrees with index.tsx's on every field it has, and lacks the companion's defaults |
| ModServer.HandleSignup | src/mod.ts.ts:59-95 | the same validation and error answers as index.tsx; success stores the seven-field record |
| Store.FilteredProducts | src/app/components/StoreView.tsx:35-39 | exactly the products in the chosen category (or all for "Todos") whose lower-cased name contains the lower-cased query, in catalogue order |
| Store.EverythingListedInitially | src/app/components/StoreView.tsx:29-39 | with "Todos" and an empty query the whole catalogue is shown |
| Store.ContainsEmpty | src/app/components/StoreView.tsx:37 | the empty query matches every name |
| Store.SearchIgnoresQueryCase | src/app/components/StoreView.tsx:37 | lower-casing the query does not change what is shown |
| Store.BadgeAppend | src/app/components/StoreView.tsx:66-83 | appending an item adds its quantity to the badge and its price times quantity to the total |
| Store.ValidCartBounds | src/app/components/StoreView.tsx:66-83 | in a cart of distinct products with quantities of at least one, the badge is at least the number of lines and the total is non-negative |
| Store.Increment | src/app/components/StoreView.tsx:45 | the cart keeps its lines and products; exactly the matching line gains one |
| Store.IncrementAbsent | src/app/components/StoreView.tsx:45 | incrementing an absent product changes nothing |
| Store.IncrementSums | src/app/components/StoreView.tsx:43-45 | incrementing a present product adds one to the badge and its price to the total |
| Store.AddItem | src/app/components/StoreView.tsx:41-50 | a present product keeps the cart length; an absent one is appended with quantity 1; other lines unchanged; the product is in the cart afterwards |
| Store.AddItemKeepsValid | src/app/components/StoreView.tsx:41-50 | adding keeps the product ids distinct and the quantities at least one, and adds one to the badge |
| Store.AddItemTotal | src/app/components/StoreView.tsx:41-66 | when every line of the product carries its price, adding adds that price to the total |
| Store.AddItemSpec | src/app/components/StoreView.tsx:41-50 | adding keeps the cart valid, adds one to the badge and the product's price to the total |
| Store.RemoveItem | src/app/components/StoreView.tsx:52-54 | exactly the lines of other products remain, in order |
| Store.RemoveKeepsDistinct | src/app/components/StoreView.tsx:53 | removing keeps product ids distinct |
| Store.RemoveBadge | src/app/components/StoreView.tsx:83 | removing a present product subtracts its quantity from the badge |
| Store.RemoveItemSpec | src/app/components/StoreView.tsx:52-54 | removing keeps the cart valid, is idempotent, changes nothing for an absent id, and subtracts the line's quantity |
| Store.UpdateItem | src/app/components/StoreView.tsx:56-64 | every line keeps its product; the matching line gets max(1, quantity + delta); the others are unchanged |
| Store.UpdateItemSpec | src/app/components/StoreView.tsx:56-64 | updating keeps the cart valid (quantities never below one), and a zero delta changes nothing |
| Store.StoreView.constructor | src/app/components/StoreView.tsx:29-33 | "Todos", an empty query, an empty cart, no product selected, the cart closed |
| Store.StoreView.SelectCategory | src/app/components/StoreView.tsx:106 | only the category changes |
| Store.StoreView.SetSearchQuery | src/app/components/StoreView.tsx:96 | only the query changes |
| Store.StoreView.AddToCart | src/app/components/StoreView.tsx:41-50 | the cart becomes `AddItem` of the old one, the badge grows by one, and the product modal closes |
| Store.StoreView.RemoveFromCart | src/app/components/StoreView.tsx:52-54 | the cart becomes `RemoveItem` of the old one; nothing else changes |
| Store.StoreView.UpdateQuantity | src/app/components/StoreView.tsx:56-64 | the cart becomes `UpdateItem` of the old one; nothing else changes |
| AiCompanion.InitialConfig | src/app/components/AiCompanionSetupView.tsx:36-43 | each field is the user's value or, when it is absent or empty, its default ("Meu Elo", "amoroso", "🤖", 50/50/50, "medium", no topics) |
| AiCompanion.Without | src/app/components/AiCompanionSetupView.tsx:60-65 | the list without the topic, otherwise unchanged in order |
| AiCompanion.ToggleIn | src/app/components/AiCompanionSetupView.tsx:59-61 | a present topic is removed and an absent one appended, so membership flips |
| AiCompanion.ToggleTopic | src/app/components/AiCompanionSetupView.tsx:56-69 | the chosen list is toggled, and the topic is removed from the other list |
| AiCompanion.ToggleKeepsDisjoint | src/app/components/AiCompanionSetupView.tsx:63-65 | no topic ever ends up in both lists |
| AiCompanion.ToggleTouchesOnlyTopic | src/app/components/AiCompanionSetupView.tsx:56-69 | apart from the toggled topic, both lists are unchanged, elements and order |
| AiCompanion.ToggleTwice | src/app/components/AiCompanionSetupView.tsx:56-69 | toggling a topic in neither list twice restores both lists |
| AiCompanion.EncodeStrings | src/app/components/AiCompanionSetupView.tsx:52 | one JSON string per topic |
| AiCompanion.DecodeEncodeStrings | src/app/components/AiCompanionSetupView.tsx:52 | a list of topics decodes back from its JSON |
| AiCompanion.TraitsRoundTrip | src/app/components/AiCompanionSetupView.tsx:41-50 | the saved traits read back as the same three numbers |
| AiCompanion.TopicsRoundTrip | src/app/components/AiCompanionSetupView.tsx:43-52 | the saved focus and avoid lists read back unchanged |
| AiCompanion.ReadBack | src/app/components/AiCompanionSetupView.tsx:36-54 | a profile holding the six saved companion values (none empty) opens the screen with exactly that configuration |
| AiCompanion.SaveThenReopen | src/app/components/AiCompanionSetupView.tsx:45-54 | saving, merging into the profile (supabase/functions/server/index.tsx:211-214) and reopening restore the configuration when no text field is empty |
| AiCompanion.DefaultsMatchSignupSeed | src/app/components/AiCompanionSetupView.tsx:36-42 | the screen's defaults are the companion values a new account is seeded with |
| AiCompanion.AiCompanionSetupView.constructor | src/app/components/AiCompanionSetupView.tsx:36-43 | the state is `InitialConfig` of the user |
| AiCompanion.AiCompanionSetupView.ToggleTopicOf | src/app/components/AiCompanionSetupView.tsx:56-69 | only the topics change, as `ToggleTopic` |
| AiCompanion.AiCompanionSetupView.HandleSave | src/app/components/AiCompanionSetupView.tsx:45-54 | the payload has exactly the six companion keys, with the current state |
| ProfileEdit.InitForm | src/app/components/ProfileEditView.tsx:25-36 | each text field holds the user's string whenever the user has one (an empty one included), and "" when the field is absent; languages are joined with ", " or "" |
| ProfileEdit.Change | src/app/components/ProfileEditView.tsx:39-41 | the edited field takes the value and every other field is unchanged |
| ProfileEdit.ParseLanguages | src/app/components/ProfileEditView.tsx:46 | every parsed language is non-empty, trimmed and comma-free |
| ProfileEdit.TrimIsSubstring | src/app/components/ProfileEditView.tsx:46 | trimming takes no character from outside the string |
| ProfileEdit.TrimmedPiecesAreClean | src/app/components/ProfileEditView.tsx:46 | trimming the comma-free pieces of a split leaves them trimmed and comma-free |
| ProfileEdit.SavePayload | src/app/components/ProfileEditView.tsx:43-48 | the text fields are passed as edited, and languages is the parsed list |
| ProfileEdit.ParseJoin | src/app/components/ProfileEditView.tsx:35-46 | parsing the ", "-joined list of plain languages gives back the list |
| ProfileEdit.SaveUntouchedTextFields | src/app/components/ProfileEditView.tsx:25-48 | saving the untouched form sends every text field of the user unchanged, and "" for one the user does not have |
| ProfileEdit.SaveUntouchedLanguages | src/app/components/ProfileEditView.tsx:35-46 | saving without edits stores the same list of plain languages, or [] when there were none |
| ProfileEdit.ProfileEditView.constructor | src/app/components/ProfileEditView.tsx:25-36 | the form is `InitForm` of the user |
| ProfileEdit.ProfileEditView.HandleChange | src/app/components/ProfileEditView.tsx:39-41 | the form becomes `Change` of the old one |
| ProfileEdit.ProfileEditView.HandleSave | src/app/components/ProfileEditView.tsx:43-48 | the payload is `SavePayload` of the form |
| Chat.AfterLoad | src/app/components/ChatView.tsx:55-67 | a failed load keeps the list; a non-empty answer replaces it; an empty or missing one gives the welcome message in the companion chat, and [] elsewhere |
| Chat.EmptyAiChatWelcomes | src/app/components/ChatView.tsx:60-67 | an empty companion chat shows exactly one message, the companion's welcome |
| Chat.BlankIsTrimEmpty | src/app/components/ChatView.tsx:77 | the guard `!inputText.trim()` holds iff every character of the input is a space |
| Chat.OwnMessageTests | src/app/components/ChatView.tsx:155 | the test as written accepts the optimistic copy of a user's message and rejects the stored one; the corrected test accepts the stored one and rejects every companion message |
| Chat.Receiver | src/app/components/ChatView.tsx:92 | `isAIChat ? 'ai-companion' : chatId` is always the chat id |
| Chat.ReloadFlipsOwnMessage | src/app/components/ChatView.tsx:155 | a sent message shows as the user's until the reload, and as the other party's after it, under the test as written; the corrected test keeps it the user's and still marks the companion's replies as the companion's |
| Chat.ChatView.constructor | src/app/components/ChatView.tsx:36-38 | no messages, an empty input, the spinner on |
| Chat.ChatView.SetInput | src/app/components/ChatView.tsx:212 | only the input changes |
| Chat.ChatView.LoadMessages | src/app/components/ChatView.tsx:51-74 | nothing without a chat id; otherwise the list is `AfterLoad` and the spinner is off |
| Chat.ChatView.HandleSend | src/app/components/ChatView.tsx:76-104 | a blank input or missing chat id does nothing; otherwise clears the input, appends the untrimmed text as a "user" message, sends it, and polls again only when the send resolved in the companion chat |
| Conversations.ConversationList | src/app/components/ConversationsView.tsx:28-61 | the companion is always first; after it comes the server's list unchanged, or nothing on an error or a missing list |
| Conversations.CompanionListedTwice | src/app/components/ConversationsView.tsx:44 | once the user has talked to the companion, the companion appears twice: pinned, and again from the server |
| Conversations.ConversationsView.constructor | src/app/components/ConversationsView.tsx:28-29 | no conversations, the spinner on |
| Conversations.ConversationsView.LoadConversations | src/app/components/ConversationsView.tsx:28-61 | the list is `ConversationList` and the spinner is off |
| Settings.InitialInvisibleMode | src/app/components/SettingsView.tsx:35 | invisible mode starts on iff the user's flag is true |
| Settings.FirstNotificationChange | src/app/components/SettingsView.tsx:36-45 | for a user without stored settings, the first switch change reports the chosen value for that key and `true` for the other two; with stored settings, the other two keep the user's values |
| Settings.SetFlag | src/app/components/SettingsView.tsx:44 | the chosen key takes the value and the other keys keep theirs |
| Settings.SetFlagRoundTrip | src/app/components/SettingsView.tsx:43-47 | setting a key back to its old value restores the settings, and the last write wins |
| Settings.SettingsView.constructor | src/app/components/SettingsView.tsx:35-36 | the state is the initial flags |
| Settings.SettingsView.HandleInvisibleModeChange | src/app/components/SettingsView.tsx:38-41 | sets the flag and reports `{invisibleMode}` |
| Settings.SettingsView.HandleNotificationChange | src/app/components/SettingsView.tsx:43-47 | sets one key and reports the whole new settings |
| Blocked.Unblock | src/app/components/BlockedView.tsx:20 | exactly the users with another id remain, in order |
| Blocked.UnblockSpec | src/app/components/BlockedView.tsx:20 | an unknown id changes nothing, and unblocking twice is unblocking once |
| Blocked.UnblockFirstMock | src/app/components/BlockedView.tsx:11-20 | unblocking blk1 leaves only Julia Roberts |
| Blocked.BlockedView.constructor | src/app/components/BlockedView.tsx:11-17 | the two mock users |
| Blocked.BlockedView.HandleUnblock | src/app/components/BlockedView.tsx:19-22 | the list becomes `Unblock` of the old one, and the notice is "<name> foi desbloqueado." |
| UserLists.RemoveFavorite | src/app/components/UserListsView.tsx:29 | exactly the favourites with another id remain, in order |
| UserLists.RemoveBlocked | src/app/components/UserListsView.tsx:34 | exactly the blocked entries with another id remain, in order |
| UserLists.RemovalsIdempotent | src/app/components/UserListsView.tsx:28-36 | removing the same id twice is removing it once, in either list |
| UserLists.RemovingUnknownFavorite | src/app/components/UserListsView.tsx:13-29 | removing id "99" (a blocked entry's) leaves the mock favourites unchanged |
| UserLists.UserListsView.constructor | src/app/components/UserListsView.tsx:13-26 | the two mock lists |
| UserLists.UserListsView.HandleRemoveFavorite | src/app/components/UserListsView.tsx:28-31 | the favourites shrink as `RemoveFavorite`; the blocked list is unchanged |
| UserLists.UserListsView.HandleUnblock | src/app/components/UserListsView.tsx:33-36 | the blocked list shrinks as `RemoveBlocked`; the favourites are unchanged |

## Left out

- The signin routes (index.tsx:150-181, mod.ts.ts:97-125): they only forward to Supabase Auth's password check and return its session, which is foreign code.
- The health routes: they are constant answers.
- Every `catch` that answers 500: exceptions from the store or from Supabase, and the `console` logging, are not modelled. The two backend copies also word their 500 messages differently.
- The Supabase client, `kv_store.tsx` and `jwt-decode`: these are not part of this model. They appear as parameters, as described above.
- The real-time delays (`setTimeout` of 1000 ms on the server and 1500 ms on the client), `Math.random` and `Date.now`: they are separate steps or parameters.
- Toasts, scrolling, modals opened from JSX, the chat's `useEffect` reload and every rendering detail. `BlockedView`'s notice text is kept because it is computed from the arguments.
- The AI companion's text, avatar, slider and memory setters, and the Store's modal and cart-drawer setters, are left out: they are one-field assignments from JSX.
- Money: the prices given as floats (`29.90`) are integer cents, and `Store.Total` is a sum of cents. Floating-point rounding in the source's sum is not modelled.
- Timestamps: `KvServer.SortByTimestamp` compares natural numbers. ISO strings that fail to parse (giving `NaN`) are not modelled.
- `Common.Trim` and `Common.Lower` handle ASCII characters only. They do not model JavaScript's Unicode white space or Unicode case mapping.
- `index.tsx` seeds `aiTopics` as an empty array, but the companion screen expects an object `{focus, avoid}`. `AiCompanion.TopicsField` reads an array as "no topics", whereas the source would keep it and fail inside `toggleTopic`.
- The message routes store a message whatever its text, including empty text. The model follows the code, which performs no such check.
- `src/mod.ts.ts` does not parse as written: line 5 reads `import import * as kv`. The model treats that line as the intended single `import`. A module that fails to load answers no route at all, so the finding below becomes observable only once that line is fixed.
- Discover.Act: interleaved asynchronous clicks are not modelled. `handleAction` checks the quota (DiscoverView.tsx:97) and then awaits `createMatch` (line 103). Two clicks during that await both pass the check, so a free account at 1 ends at -1 and loses two heads. `Discover.Act`, `Discover.DiscoverView.HandleAction` and `Discover.QuotaNeverNegative` assume each action completes before the next begins.
- AiCompanion.TraitsField: an `aiTraits` object that lacks one of the three numbers reads as absent, so the screen shows 50/50/50. The source's `user.aiTraits || {...}` (AiCompanionSetupView.tsx:41) keeps any object it finds. A partial traits object is not representable in `Traits`.
- `Chat.ChatView.LoadMessages` keeps `loading` true when there is no chat id, as the source does: it returns before the `finally` block.

## Findings

| source | as written | input that shows it | evidently intended | confidence | as-written member | corrected member |
|---|---|---|---|---|---|---|
| src/mod.ts.ts:45-49 | `jwtDecode` receives the whole array returned by `split(' ')`, although the comment says the second item is meant; `jwtDecode` throws on a non-string, so the helper returns `null` | the header `Bearer <valid jwt>` on `GET /elo-api-server/profile` answers 401, once the doubled `import` on line 5 is corrected so that the module loads | decode `authHeader.split(' ')[1]` and return its `sub` | not executed | ModServer.GetUserIdFromAuthAsWritten (shown by ModServer.AsWrittenRejectsEveryone and ModServer.AuthFindingWitness) | ModServer.GetUserIdFromAuth |
| src/app/components/ChatView.tsx:155 | a message counts as the user's iff `senderId === 'user'`, but the server stores the caller's real id as `senderId` (supabase/functions/server/index.tsx:244) | user "u1" sends "oi". It shows as theirs, but after the reload 1500 ms later the stored copy (sender "u1") renders as the other party's | also treat a sender equal to the current user's id as the user's own message | not executed | Chat.IsOwnMessageAsWritten (shown by Chat.ReloadFlipsOwnMessage) | Chat.IsOwnMessage |
