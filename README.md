# botbuilder-slack, modelled in Dafny

This project models the core of botbuilder-slack, the connector between Slack's webhooks and Microsoft
botbuilder's event model:

- **Identity/address codec.** Users are identified as `user:team` and bots as `bot:team`. A
  conversation is `bot:team:channel`, and its `isGroup` flag is set for channel ids starting with
  `C` or `G`. Ids split back on `:`.
- **Mention extraction and self-mention rewriting.** This covers the `/<@(\w+)>/g` scan and
  `enrichText`, whose case-insensitive match only gates a case-sensitive, first-occurrence `replace`.
- **Event classification.** The constant event-name lists and the three classifiers.
- **The four interactors.** These cover events, interactive messages, slash commands and OAuth.
  Each is given its settings, its envelope and the answers of the external calls it makes.
- **The fluent builders.** `Address` and `Event` (with the conversation-update, installation-update
  and command variants) are classes whose setters change the builder in place.
- **The connector.** It covers handler registration, the decision logic of the four HTTP handlers,
  `dispatch`/`dispatchEvents` with the optional transform hook, the channel lookup of `getChannel`,
  and the strictly sequential `send` loop. `send` is proved against a specification function, and
  its properties are proved as lemmas.

Modules:

- `Wrappers`: `Option` and `Result`.
- `Strings`: JavaScript `split`, `indexOf`, first-occurrence `replace` with its `$` patterns
  (`$$`, `$&`, `` $` ``, `$'`) and template rendering of `undefined`.
- `Types`: the records and error kinds.
- `Constants`
- `Mentions`
- `Utils`
- `Addresses`
- `Events`
- `EventInteractor`
- `InteractiveMessageInteractor`
- `OAuthInteractor`
- `BaseInteractors`
- `CommandInteractors`
- `Connector`

External calls are parameters, and each is a deterministic function:

- `botLookup` and the data cache's `findUsers` are function-valued fields of `Settings`.
- `oauth.access` and `users.info` are function parameters of the OAuth path.
- `chat.postMessage` is a function of the message index and the request.

JavaScript behaviour is written out where the code relies on it:

- An absent key is `None`.
- `${undefined}` renders as `"undefined"` (`Strings.Show`).
- Truthiness of strings is `Strings.Truthy`.
- Destructuring a short `split` result yields absent parts.
- Reading a property of `null` or `undefined` is the `TypeError` error kind.

Behaviour as the code has it, where descriptions of the adapter promise more:

- Conversation ids are exactly `botId:channel`. No `;messageid=` thread suffix is appended or
  parsed.
- Mentions and conversation members are not given names from the data cache. Only the command
  interactor's user is.
- The event interactor does not route `app_uninstalled`: it is not routable, so it produces no
  event.
- The OAuth installation event has no `action` key.
- Interactive messages are addressed with `message_ts` only.
- A token mismatch on the HTTP handlers answers 403. The connector's tests expect 400.
- `send` keeps an address id that is already present. Only an address without an id takes the
  post timestamp, because `{id: ts, ...address}` spreads the address last.

## Model

| member | source | states |
|---|---|---|
| Strings.Split | src/utils.ts:7 | `split(":")` yields at least one part, no part holds the separator, and joining the parts gives the input back |
| Strings.SplitJoin | src/utils.ts:6-14 | splitting parts that hold no separator, once joined, gives exactly those parts (decoding inverts encoding) |
| Strings.CiMatchCount | src/interactors/event_interactor.ts:145 | the number of `gi` matches is zero exactly when there is no case-insensitive occurrence |
| Strings.SubstitutionLiteral | src/interactors/event_interactor.ts:150 | a replacement string without `$` is inserted exactly as written |
| Strings.SubstitutionPatterns | src/interactors/event_interactor.ts:150 | in a replacement string `$&` inserts the matched text, `` $` `` the text before the match, `$'` the text after it, `$$` a single `$`, and `$1` stays literal because a string pattern has no groups |
| Strings.ReplaceFirstCases | src/interactors/event_interactor.ts:149-151 | a string-pattern `replace` leaves the text unchanged without an occurrence; otherwise only the first occurrence is replaced, by the replacement with its `$` patterns substituted, which is the replacement itself when it holds no `$` |
| Strings.ReplaceFirstLiteralAtStart | src/utils.ts:23 | a text that starts with the pattern has that prefix replaced by a `$`-free replacement and the rest kept |
| Strings.ReplaceFirstLiteralAtEnd | src/utils.ts:23 | a text that ends with its only `>` has that `>` replaced by a `$`-free replacement |
| Utils.DecomposeUserIdRoundTrip | src/slack_connector.ts:278 | `a:b` with plain parts splits back into user `a` and team `b` |
| Utils.ConversationIdRoundTrip | src/utils.ts:6-14 | decomposing `buildConversationIdentity(ch, b:t).id` yields bot `b`, team `t`, channel `ch` when no part holds `:` |
| Utils.BuildAddress | src/utils.ts:139-162 | channel id `slack`; `id` set iff the message id is non-empty; user id exactly `user:team` and nameless; bot id exactly `botId`, named `botName`; conversation id exactly `botId:channel` with `isGroup` following the `C`/`G` rule; for a bot id `b:t` the conversation id decomposes to `b`, `t`, channel |
| Utils.ClassificationFacts | src/utils.ts:190-205 | user-message and conversation-update classification exclude each other; a message is routable iff it has no subtype, so `bot_message` never is; `app_uninstalled` is not routable; a non-message is routable iff it is in the conversation-update list |
| Utils.BuildCommandEvent | src/utils.ts:45-72 | the connector's command event: type `slackCommand`, source `slack`, agent `botbuilder`, the address built from the envelope without an id, the address's user as event user, and the envelope copy with the API token |
| Utils.CardAttachmentOf | src/utils.ts:88-106 | a card without `content` or without `buttons` throws a `TypeError`, and only such a card does; otherwise the attachment has callback id `botbuilder`, the message text (or `""`) as fallback, title and subtitle (or `""`), and one button action per card button with `name = text = title` and the value copied |
| Utils.CardAttachmentsOf | src/utils.ts:88-106 | mapping readable cards gives one attachment per card, in order, each the one `CardAttachmentOf` gives |
| Utils.SlackAttachments | src/utils.ts:74-113 | a `TypeError` exactly when some card cannot be read; otherwise 1 attachment for non-empty text plus one per card, the text attachment first and the cards in their order |
| Utils.BuildSlackMessage | src/utils.ts:74-113 | an unreadable card throws a `TypeError`; otherwise pushing the text attachment and concatenating the cards yields exactly `SlackAttachments(message)` for the given channel |
| Constants.ClassificationListsDisjoint | src/constants.ts:1-15 | ten conversation-update names and the single `app_uninstalled`; the lists are disjoint and `message` is in neither |
| Constants.ConversationUpdateEventsDistinct | src/constants.ts:1-12 | the ten conversation-update names are pairwise distinct |
| Mentions.TokensFrom | src/utils.ts:17 | every token the global scan returns is `<@`, one or more word characters, `>` |
| Mentions.ExtractMentions | src/utils.ts:16-43 | one mention per token in scan order, type `mention`, text the raw token, mentioned id the bot id when the inner id is the bot's user id, else `inner:team` |
| Mentions.UserIdOfMentionToken | src/utils.ts:23 | the two `replace` calls strip a token to exactly its inner id |
| Mentions.NoMentionsIff | src/utils.ts:17-20 | no mentions iff the text holds no `<@\w+>` substring |
| Mentions.LeadingToken | src/utils.ts:17 | a token at the front of the text is the first match, and scanning continues after it |
| Mentions.TokensOfTwoUsers | src/utils.ts:16-43 | `"Hoy are you " + u + " and " + z` yields the two tokens `u`, `z` in order, for any two tokens such as `<@UXXX>` and `<@UZZZ>` |
| Mentions.TokensOfRepeatedMention | src/utils.ts:16-43 | a token repeated after a space yields that token twice (no deduplication) |
| Mentions.TokensOfPlainText | src/utils.ts:20 | a text without tokens yields none |
| Addresses.BuildIdentity | src/address.ts:57-67 | id `user:team`, which splits back for plain ids; a name only when it is non-empty |
| Addresses.Address.constructor | src/address.ts:14-18 | a new builder has channel id `slack`, the given team, no channel and nothing else set |
| Addresses.Address.Id | src/address.ts:20-24 | sets the address id, returns the same builder, changes nothing else |
| Addresses.Address.Channel | src/address.ts:26-30 | records the channel, returns the same builder, leaves the address data alone |
| Addresses.Address.User | src/address.ts:32-36 | sets the user to `user:team` (named only for a non-empty name), returns the same builder, changes nothing else |
| Addresses.Address.Bot | src/address.ts:38-42 | sets the bot to `bot:team` (named only for a non-empty name), returns the same builder, changes nothing else |
| Addresses.Address.ToAddress | src/address.ts:44-54 | fails with "Invalid address" and changes nothing when bot or user is missing; otherwise writes the conversation `bot:team:channel` only for a set, non-empty (truthy) channel and returns the address |
| Addresses.BotAddressRoundTrip | src/address.ts:38-51 | the bot set as `b` in team `t` has id `b:t`, and the resulting conversation id decomposes to `b`, `t`, channel |
| Events.Event.constructor | src/events/event.ts:10-13 | a new event has source `slack`, agent `botbuilder` and nothing else |
| Events.Event.ConversationUpdate | src/events/conversation_update.ts:6-10 | a new conversation update has type `conversationUpdate` besides source and agent |
| Events.Event.InstallationUpdate | src/events/installation_update.ts:10-14 | a new installation update has type `installationUpdate` besides source and agent |
| Events.Event.Command | src/utils.ts:60 | a new command event has type `slackCommand` besides source and agent |
| Events.Event.Address | src/events/event.ts:15-20 | sets the address and, from it, the user; returns the same builder; nothing else changes |
| Events.Event.Timestamp | src/events/event.ts:22-26 | stores the timestamp unchanged, returns the same builder, nothing else changes |
| Events.Event.SourceEvent | src/events/event.ts:28-32 | stores the source event unchanged, returns the same builder, nothing else changes |
| Events.Event.MembersAdded | src/events/conversation_update.ts:12-16 | stores exactly the given list, leaves `membersRemoved` and all else untouched, returns the same builder |
| Events.Event.MembersRemoved | src/events/conversation_update.ts:18-22 | stores exactly the given list, leaves `membersAdded` and all else untouched, returns the same builder |
| Events.Event.Action | src/events/installation_update.ts:16-20 | stores exactly the given action, changes no other field, returns the same builder |
| Events.Event.ToEvent | src/events/event.ts:34-36 | returns the accumulated data |
| EventInteractor.ReduceReplaceOnce | src/interactors/event_interactor.ts:149-151 | the reduce over the matches returns the initial text for no match and the callback's single first-occurrence replacement for any number of matches |
| EventInteractor.EnrichText | src/interactors/event_interactor.ts:141-152 | the case-insensitive match only gates the replacement: the result is the first-occurrence `replace` of `<@botUserId>` by `@botName` |
| EventInteractor.EnrichTextAbsent | src/interactors/event_interactor.ts:141-152 | without the exact token `<@botUserId>` the text is unchanged |
| EventInteractor.EnrichTextFirstOccurrence | src/interactors/event_interactor.ts:141-152 | only the first occurrence of the token is replaced, by `@` and the bot name with its `$` patterns substituted against that occurrence |
| EventInteractor.EnrichTextLiteralName | src/interactors/event_interactor.ts:141-152 | for a bot name without `$` the first occurrence becomes exactly `@botName` |
| EventInteractor.EnrichLeadingBotMention | src/interactors/event_interactor.ts:141-152 | a text starting with the bot's own token gets `@` and the substituted bot name in its place, exactly `@botName` for a name without `$` |
| EventInteractor.EnrichDollarAmpersand | src/interactors/event_interactor.ts:141-152 | a bot named `$&` turns a leading `<@U>` into `@<@U>`: the matched token is inserted, not the name |
| EventInteractor.BuildMessageEvent | src/interactors/event_interactor.ts:49-79 | a `message` event with address id `event_ts`, timestamp `ts`, entities from `extractMentions` with `authed_users[0]` as bot user, enriched text, the event copy with team and source team, and the address's user as user |
| EventInteractor.ConversationUpdateEventOf | src/interactors/event_interactor.ts:81-139 | type `conversationUpdate`, text `""`, timestamp `event_ts`, the event copy with the token; join/leave put `[user:team]` in `membersAdded`/`membersRemoved` and make it the address's user, any other type makes the bot the user; empty attachments and entities only in the interactor's variant |
| EventInteractor.BuildConversationUpdateEvent | src/interactors/event_interactor.ts:81-139 | building the event and patching it and the address in the switch yields exactly `ConversationUpdateEventOf` |
| EventInteractor.RoutedEvents | src/interactors/event_interactor.ts:25-44 | at most one event, exactly one iff the inner event is routable; a message event for user messages, a conversation update for channel events |
| EventInteractor.Call | src/interactors/event_interactor.ts:16-47 | a foreign token is `Unauthorized`; `url_verification` answers the challenge with no events; `event_callback` yields the routed events with no response; anything else yields nothing; events exist iff the callback is routable |
| EventInteractor.BotMessageProducesNothing | src/interactors/event_interactor.ts:31-33 | a `bot_message` produces no event |
| InteractiveMessageInteractor.MessageEventOf | src/interactors/interactive_message_interactor.ts:18-42 | a `message` event addressed with `message_ts`, timestamp `action_ts`, the payload copy with the token, the given text and the address's user |
| InteractiveMessageInteractor.Call | src/interactors/interactive_message_interactor.ts:11-43 | a foreign token is `Unauthorized`; without actions reading `actions[0].value` fails; otherwise exactly one event with the first action's value as text, user `user:team`, conversation `botIdentifier:channel`, and no response |
| OAuthInteractor.InstallationUpdateEventOf | src/interactors/oauth_interactor.ts:37-66 | type `installationUpdate`; user `user_id:team_id` as address user and event user; bot `profile.bot_id:team_id` named after the bot user; no conversation and no id; the access result without `ok` and the bot access token as source event; no `action` |
| OAuthInteractor.BuildInstallationUpdateEvent | src/interactors/oauth_interactor.ts:37-38 | a failing `users.info` for the bot user fails the build; otherwise the installation event for its answer |
| OAuthInteractor.Call | src/interactors/oauth_interactor.ts:18-35 | `access_denied` fails with `OAuthAccessDenied` before any API call; failures of `oauth.access` or of the build propagate; otherwise exactly one installation event and no response |
| OAuthInteractor.InstallationIdentitiesRoundTrip | src/interactors/oauth_interactor.ts:39-47 | user and bot ids of the installation split back into Slack id and team |
| OAuthInteractor.SourceEventDropsOnlyOk | src/interactors/oauth_interactor.ts:50-62 | the source event keeps every field of the access result except `ok` |
| BaseInteractors.BaseInteractor.constructor | src/interactors/base_interactor.ts:15-18 | settings and envelope are set once and are read-only afterwards |
| BaseInteractors.BaseInteractor.BuildUser | src/interactors/base_interactor.ts:22-37 | no identity iff there is no data cache; otherwise id `user:team` with the team from the bot id, named after the first cached record for exactly that id, and splitting back for plain ids |
| CommandInteractors.CommandInteractor.constructor | src/interactors/base_interactor.ts:15-18 | the interactor keeps the settings and the envelope |
| CommandInteractors.CommandInteractor.Call | src/interactors/command_interactor.ts:10-19 | a foreign token is `Unauthorized`; with no data cache the call fails with a `TypeError`; otherwise one command event for the cached user name and no response |
| CommandInteractors.CommandInteractor.CallNullSafe | src/interactors/command_interactor.ts:10-39 | with any data cache one command event and no response; without a cache the user is nameless |
| CommandInteractors.CommandInteractor.BuildCommandEvent | src/interactors/command_interactor.ts:21-39 | the builder chain yields a `slackCommand` event with user `user_id:team`, bot `bot:team` named `botName`, the conversation `bot:team:channel_id` only for a non-empty `channel_id` and none otherwise, the envelope copy with the token, and the address's user as user |
| CommandInteractors.CommandAddressRoundTrip | src/interactors/command_interactor.ts:22-28 | for a bot identifier `b:t` the bot id is the identifier again; a conversation exists iff `channel_id` is non-empty, and its id and the user id split back |
| Connector.GetChannelLookup | src/slack_connector.ts:473-484 | `C` channels ask `channels.info`, `G` channels ask `groups.info`, anything else looks nothing up; a conversation id without a channel part throws |
| Connector.ChannelLookupAgreesWithIsGroup | src/slack_connector.ts:478-483 | for a conversation the adapter built, a channel lookup happens iff the conversation is a group |
| Connector.EchoAddress | src/slack_connector.ts:200-204 | the echoed address keeps every endpoint of the input; its id is the input's id when present, else the post timestamp |
| Connector.SendOne | src/slack_connector.ts:182-209 | an end of conversation is echoed unchanged and posts nothing; a successful message answers it and has posted exactly when it is not an end of conversation |
| Connector.SendOneCases | src/slack_connector.ts:182-209 | no conversation throws a `TypeError`; no text and no attachments fails with the no-content message; an unreadable card throws a `TypeError`; none of these posts; otherwise exactly one request goes to the decoded channel with the team's token and the serialised attachments, an `ok` answer gives `EchoAddress(address, ts)` and any other answer the failure with the answer's message |
| Connector.Steps | src/slack_connector.ts:182-209 | one step per message, the `k`-th being `SendOne` of message `k` at index `k` |
| Connector.RunSucceeds | src/slack_connector.ts:181-211 | a successful run of steps that each answer their message answers every message in order and posts once per message that is not an end of conversation |
| Connector.SendSucceeds | src/slack_connector.ts:181-211 | a successful `send` answers every message in order, keeps an end of conversation's address unchanged, and posts once per other message |
| Connector.RunPostsAtMostOncePerStep | src/slack_connector.ts:181-211 | a run posts at most one request per step |
| Connector.SendPostsAtMostOncePerMessage | src/slack_connector.ts:181-211 | `send` never posts more often than it has messages |
| Connector.EmptyMessageStopsSend | src/slack_connector.ts:194-195 | a message without content ends `send` with the no-content error and posts nothing for it |
| Connector.RunStopsAtFirstFailure | src/slack_connector.ts:181-211 | a successful run had every step succeed and posted every step's request in order; a failed run failed at the first failing step with its error and posted only the requests of the steps up to it |
| Connector.SendStopsAtFirstFailure | src/slack_connector.ts:181-211 | `send` posts in message order; when it succeeds every message succeeded; when it fails its error is that of the first failing message and nothing after that message was posted |
| Connector.SlackConnector.constructor | src/slack_connector.ts:50 | a new connector keeps its settings and has no handlers, no hook and nothing delivered |
| Connector.SlackConnector.OnEvent | src/slack_connector.ts:169-171 | registers the event handler and changes nothing else |
| Connector.SlackConnector.OnInvoke | src/slack_connector.ts:173-175 | registers the invoke handler and changes nothing else |
| Connector.SlackConnector.OnDispatch | src/slack_connector.ts:177-179 | registers the transform hook and changes nothing else |
| Connector.SlackConnector.DispatchEvents | src/slack_connector.ts:309-319 | nothing for an empty list; otherwise the handler receives the hook's output (or the events unchanged without a hook); an unregistered handler throws and receives nothing |
| Connector.SlackConnector.Dispatch | src/slack_connector.ts:291-307 | an unroutable event dispatches nothing; a routable one dispatches exactly its one routed event, without empty attachment and entity lists |
| Connector.SlackConnector.ListenEvents | src/slack_connector.ts:146-167 | 403 without dispatch for a foreign token; 200 with the challenge for `url_verification`; 200 without dispatch for an unknown type; for a callback, dispatch of the routed event then 200, or no answer when dispatching throws |
| Connector.SlackConnector.ListenCommands | src/slack_connector.ts:86-103 | 403 for a foreign token; otherwise the command event is dispatched and 200 answered, or no answer when dispatching throws |
| Connector.SlackConnector.ListenInteractiveMessages | src/slack_connector.ts:105-144 | 403 for a foreign token; no answer and nothing dispatched without actions; otherwise one message event with the first action's value, then 200 |
| Connector.SlackConnector.ListenOAuth | src/slack_connector.ts:52-84 | `access_denied` redirects to the denied page; a successful exchange and dispatch redirects to the success page; any failure redirects to the error page and delivers nothing |
| Connector.SlackConnector.SendMessage | src/slack_connector.ts:182-209 | the mapper body for one message, with `buildSlackMessage`'s `TypeError` propagated, computes exactly `SendOne` |
| Connector.SlackConnector.Send | src/slack_connector.ts:181-212 | the sequential loop yields exactly the specified outcome `SendFrom`: the addresses or the first error, and the requests posted in order |

## Left out

- HTTP plumbing is left out: `res.status`/`end`/`header`, `next()`, and the qs/JSON parsing of the
  interactive payload. A handler's result is an `HttpOutcome`. `NoAnswer` stands for a handler whose
  promise rejects after the bot lookup, so that no response is written.
- Promises, Bluebird and concurrency are left out. Every external call answers immediately. The
  model takes `send`'s mapper, run with `concurrency: 1`, to handle the messages strictly one after
  another in message order and to start none after the first failure; `send` is a loop that does so.
  The callbacks of `send` and `onDispatch` become return values and the `delivered` log.
- The hook registered with `onDispatch` is assumed to call its callback exactly once, with its own
  output.
- External calls are deterministic functions: `botLookup`, `findUsers`, `oauth.access`,
  `users.info` and `chat.postMessage`. None of them fails except `oauth.access` and `users.info`,
  whose failures are modelled. `createClient` is folded into the token of a post request.
- `update`, `delete`, `startConversation`, `getGeneralConversation`, `getConversation`,
  `getConversationList`, `getMemberList`, `getMember`, `startDirectMessage`: left out. They are thin
  wrappers over Web API calls: `getGeneralConversation` picks the `is_general` channel,
  `getConversationList` concatenates `channels.list` and `groups.list`, `getMemberList` calls
  `users.info` once per channel member, `getConversation` delegates to `getChannel`,
  `startConversation` puts the direct-message channel of `startDirectMessage` into a copy of the
  address, and `update`, `delete`, `getMember` and `startDirectMessage` split an id and make one
  Web API call. `getChannel` is modelled only as the choice of `Connector.GetChannelLookup`.
- `console.info` is left out.
- botbuilder's `Message` class is approximated by a plain record with type `message`, agent
  `botbuilder`, the address's channel id as source, and the source event picked from its `slack`
  key. Its `timestamp` replaces an empty timestamp with the current time; the model stores the
  empty string instead.
- Regular expressions are written out:
  - `\w` is `[A-Za-z0-9_]`.
  - `enrichText`'s pattern is used literally. Regular-expression metacharacters in a bot user id
    are not modelled; Slack ids are alphanumeric.
  - The case-insensitive match folds ASCII letters only.
- `Strings.CiMatchCount`: counts the matches a left-to-right scan finds. Only whether the count is
  zero influences the result.
- `EventInteractor.Call`, `CommandInteractors.CommandInteractor.Call`, `OAuthInteractor.Call`: do
  not record that a rejected token or a denied authorisation happens before any external call. Those
  calls are pure functions in the model, so their order is not observable.
- `OAuthInteractor.Call`: `delete accessResult.ok` mutates the caller's access result. The model
  returns a copy without `ok` instead.
- `Events.Event.MembersAdded`, `Events.Event.MembersRemoved`, `Events.Event.Action`: the subclasses
  become named constructors of one class. The subclass-only setters require the matching event
  type instead of being absent on the other builders.
- `src/events/command.ts` is not part of this model. In its place the command interactor uses an
  `Events.Event` builder of type `slackCommand`, built like the other event builders; the real
  builder's own defaults, if any, are not captured.
- `utils.isValidEnvelope` and `utils.decomposeUserId` are not part of this model. `IsValidEnvelope`
  and `DecomposeUserId` stand in for them: the token comparison of the connector's `isValid*`
  checks and a `:` split.
- `BaseInteractors.BaseInteractor.BuildUser`: its caller reads the team of `decomposeUserId`'s
  answer as `.team` (src/interactors/base_interactor.ts:28), while the command interactor reads
  `.teamId` and `.userId` from the same function (src/interactors/command_interactor.ts:25-27), and
  the `ISlackUserIdentifier` interface (src/interfaces.ts:44-47) names the field `teamId`. The model's
  single `DecomposeUserId(...).teamId` gives both callers the team. If the real function returns only
  `teamId`, `buildUser` looks up `user:undefined` and never finds a cached name; that outcome is not
  modelled.
- The source events keep only the envelope fields the adapter reads.
- A Slack event's `channel` is a string in the model. Slack sends an object there for some channel
  events. `slackChannelId[0]` (src/utils.ts:185) then reads a missing property, so `isGroup` is
  `false`, and the conversation id renders as `bot:team:[object Object]`; neither is modelled. Only
  an absent (`undefined` or `null`) channel makes `isGroupConversation` throw a `TypeError`, and that
  case is not modelled either.
- `Events.Event.ToEvent`, `Addresses.Address.ToAddress`: both return the builder's record by
  reference, so a later setter call on the same builder would change the returned object. The model
  returns a value; the adapter never reuses a builder after `toEvent`/`toAddress`.
- `Connector.SendFrom`: every message's step is defined, but only the steps up to the first failure
  contribute requests or results: the model takes the mapper to run strictly in message order and
  to start no message after the first failure.

## Findings

| source | as written | input that shows it | evidently intended | confidence | as-written member | corrected member |
|---|---|---|---|---|---|---|
| src/interactors/command_interactor.ts:23-26 | `buildUser` returns `null` when no data cache is configured, and the caller reads `userIdentity.name` unguarded | settings without `dataCache` and a command with the right token: the call fails with a `TypeError` instead of producing the command event | a missing cache leaves the user nameless, as the connector's own command path (`buildCommandEvent` in `src/utils.ts`) and the cache's optional setting suggest | not executed; high | CommandInteractors.CommandInteractor.Call | CommandInteractors.CommandInteractor.CallNullSafe |
