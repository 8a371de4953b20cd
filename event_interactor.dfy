/**
 * `EventInteractor`: turns the body of a Slack Events API request into the
 * botbuilder events it stands for. The message and conversation-update
 * builders and `enrichText` here are shared with the connector, which
 * repeats them.
 */
module EventInteractor {
  import opened Wrappers
  import opened Strings
  import opened Types
  import opened Constants
  import opened Utils
  import opened Mentions

  /** `authed_users[0]`, the bot's own Slack user id (absent for an empty list). */
  function BotUserId(envelope: EventEnvelope): Option<string>
  {
    if |envelope.authedUsers| > 0 then Some(envelope.authedUsers[0]) else None
  }

  /** The bot's own mention token `<@botUserId>`. */
  function BotMentionPattern(botUserId: Option<string>): string
  {
    "<@" + Show(botUserId) + ">"
  }

  /**
   * `matches.reduce(() => replaced, acc)` over `n` matches: the callback
   * ignores the accumulator and always yields `text.replace(pattern, mention)`,
   * passed here as `replaced`.
   */
  function ReduceReplace(n: nat, acc: string, replaced: string): string
  {
    if n == 0 then acc else ReduceReplace(n - 1, replaced, replaced)
  }

  /** Any positive number of matches yields the callback's value, whatever the start. */
  lemma {:induction false} ReduceReplaceOnce(n: nat, acc: string, replaced: string)
    ensures n == 0 ==> ReduceReplace(n, acc, replaced) == acc
    ensures n > 0 ==> ReduceReplace(n, acc, replaced) == replaced
  {
    if n > 1 {
      ReduceReplaceOnce(n - 1, replaced, replaced);
    }
  }

  /**
   * `enrichText`: the case-insensitive match only decides whether the
   * replacement runs; the replacement itself is the case-sensitive
   * first-occurrence `replace`, so the matches found do not matter.
   */
  function EnrichText(text: string, botUserId: Option<string>, botName: string): (r: string)
    ensures r == ReplaceFirst(text, BotMentionPattern(botUserId), "@" + botName)
  {
    var pattern := BotMentionPattern(botUserId);
    var mention := "@" + botName;
    var matches := CiMatchCount(text, pattern, 0);
    if matches == 0 then
      NoCiMatchNoOccurrence(text, pattern);
      ReplaceFirstAbsent(text, pattern, mention);
      text
    else
      var replaced := ReplaceFirst(text, pattern, mention);
      ReduceReplaceOnce(matches, text, replaced);
      ReduceReplace(matches, text, replaced)
  }

  /** Without the exact token `<@botUserId>` the text is unchanged. */
  lemma EnrichTextAbsent(text: string, botUserId: Option<string>, botName: string)
    requires forall j :: 0 <= j ==> !OccursAt(text, BotMentionPattern(botUserId), j)
    ensures EnrichText(text, botUserId, botName) == text
  {
    ReplaceFirstAbsent(text, BotMentionPattern(botUserId), "@" + botName);
  }

  /**
   * Only the first occurrence `i` of `<@botUserId>` becomes `@` followed by
   * the bot name with its `$` patterns substituted.
   */
  lemma EnrichTextFirstOccurrence(text: string, botUserId: Option<string>, botName: string, i: nat)
    requires OccursAt(text, BotMentionPattern(botUserId), i)
    requires forall j :: 0 <= j < i ==> !OccursAt(text, BotMentionPattern(botUserId), j)
    ensures var pattern := BotMentionPattern(botUserId);
      EnrichText(text, botUserId, botName) ==
        text[..i] + "@" + Substitution(botName, pattern, text[..i], text[i + |pattern|..]) + text[i + |pattern|..]
  {
    ReplaceFirstCharHead(text, BotMentionPattern(botUserId), '@', botName, i);
  }

  /** For a bot name without `$`, the first occurrence `i` becomes `@botName` literally. */
  lemma EnrichTextLiteralName(text: string, botUserId: Option<string>, botName: string, i: nat)
    requires OccursAt(text, BotMentionPattern(botUserId), i)
    requires forall j :: 0 <= j < i ==> !OccursAt(text, BotMentionPattern(botUserId), j)
    ensures '$' !in botName ==>
      EnrichText(text, botUserId, botName) == text[..i] + "@" + botName + text[i + |BotMentionPattern(botUserId)|..]
  {
    if '$' !in botName {
      var pattern := BotMentionPattern(botUserId);
      EnrichTextFirstOccurrence(text, botUserId, botName, i);
      SubstitutionLiteral(botName, pattern, text[..i], text[i + |pattern|..]);
    }
  }

  /**
   * The message event of a user message: botbuilder's `Message` with the
   * address, timestamp, source event, mentions and enriched text, and the
   * address's user as the event's user.
   */
  function BuildMessageEvent(envelope: EventEnvelope, botId: string, token: string, botName: string): (e: EventData)
    ensures e.kind == Some("message") && e.source == Some("slack") && e.agent == Some("botbuilder")
    ensures e.address == Some(BuildAddress(envelope.teamId, Show(envelope.event.user), envelope.event.channel, botId, botName, envelope.event.eventTs))
    ensures e.user == Some(e.address.value.user)
    ensures e.timestamp == Some(envelope.event.ts)
    ensures e.sourceEvent == Some(SlackMessage(TeamedEventCopy(envelope.event, envelope.teamId, envelope.teamId), token))
    ensures e.entities == Some(ExtractMentions(envelope.event.text, envelope.teamId, botId, BotUserId(envelope)))
    ensures e.text == Some(EnrichText(envelope.event.text, BotUserId(envelope), botName))
    ensures e.attachments.None? && e.membersAdded.None? && e.membersRemoved.None? && e.action.None?
  {
    var event := envelope.event;
    var botUserId := BotUserId(envelope);
    var sourceEvent := BuildMessageSourceEvent(envelope, token);
    var address := BuildAddress(envelope.teamId, Show(event.user), event.channel, botId, botName, event.eventTs);
    var mentions := ExtractMentions(event.text, envelope.teamId, botId, botUserId);
    NoEventData.(
      kind := Some("message"),
      agent := Some("botbuilder"),
      source := Some(address.channelId),
      address := Some(address),
      timestamp := Some(event.ts),
      sourceEvent := Some(sourceEvent.slack),
      entities := Some(mentions),
      text := Some(EnrichText(event.text, botUserId, botName)),
      user := Some(address.user))
  }

  /**
   * The conversation-update event of a channel event. `withEmptyLists` is
   * the interactor's variant, which also carries empty `attachments` and
   * `entities`; the connector's variant has neither key.
   */
  function ConversationUpdateEventOf(envelope: EventEnvelope, botId: string, token: string, botName: string, withEmptyLists: bool): (e: EventData)
    ensures e.kind == Some("conversationUpdate") && e.source == Some("slack") && e.agent == Some("botbuilder")
    ensures e.text == Some("") && e.timestamp == envelope.event.eventTs
    ensures e.sourceEvent == Some(SlackMessage(EventCopy(envelope.event), token))
    ensures withEmptyLists ==> e.attachments == Some([]) && e.entities == Some([])
    ensures !withEmptyLists ==> e.attachments.None? && e.entities.None?
    ensures e.address.Some? && e.user == Some(e.address.value.user)
    ensures var a := e.address.value;
      a.channelId == "slack" && a.id.None? && a.bot == BuildBotIdentity(botId, botName) &&
      a.conversation == Some(BuildConversationIdentity(envelope.event.channel, botId))
    ensures envelope.event.kind == "member_joined_channel" ==>
      e.membersAdded == Some([BuildUserIdentity(Show(envelope.event.user), envelope.teamId)]) && e.membersRemoved.None? &&
      e.user == Some(BuildUserIdentity(Show(envelope.event.user), envelope.teamId))
    ensures envelope.event.kind == "member_left_channel" ==>
      e.membersRemoved == Some([BuildUserIdentity(Show(envelope.event.user), envelope.teamId)]) && e.membersAdded.None? &&
      e.user == Some(BuildUserIdentity(Show(envelope.event.user), envelope.teamId))
    ensures envelope.event.kind != "member_joined_channel" && envelope.event.kind != "member_left_channel" ==>
      e.membersAdded.None? && e.membersRemoved.None? && e.user == Some(BuildBotIdentity(botId, botName))
  {
    var address := BuildAddress(envelope.teamId, "", envelope.event.channel, botId, botName, None);
    var event := NoEventData.(
      kind := Some("conversationUpdate"),
      source := Some("slack"),
      agent := Some("botbuilder"),
      text := Some(""),
      attachments := if withEmptyLists then Some([]) else None,
      entities := if withEmptyLists then Some([]) else None,
      timestamp := envelope.event.eventTs,
      sourceEvent := Some(SlackMessage(EventCopy(envelope.event), token)));
    var newUser := BuildUserIdentity(Show(envelope.event.user), envelope.teamId);
    if envelope.event.kind == "member_joined_channel" then
      event.(membersAdded := Some([newUser]), address := Some(address.(user := newUser)), user := Some(newUser))
    else if envelope.event.kind == "member_left_channel" then
      event.(membersRemoved := Some([newUser]), address := Some(address.(user := newUser)), user := Some(newUser))
    else
      event.(address := Some(address.(user := address.bot)), user := Some(address.bot))
  }

  /**
   * `buildConversationUpdateEvent`: the event is built, then extended and the
   * address's user replaced according to the channel event's type.
   */
  method BuildConversationUpdateEvent(envelope: EventEnvelope, botId: string, token: string, botName: string, withEmptyLists: bool)
    returns (e: EventData)
    ensures e == ConversationUpdateEventOf(envelope, botId, token, botName, withEmptyLists)
  {
    var address := BuildAddress(envelope.teamId, "", envelope.event.channel, botId, botName, None);
    var event := NoEventData.(
      kind := Some("conversationUpdate"),
      source := Some("slack"),
      agent := Some("botbuilder"),
      text := Some(""),
      timestamp := envelope.event.eventTs,
      sourceEvent := Some(SlackMessage(EventCopy(envelope.event), token)));
    if withEmptyLists {
      event := event.(attachments := Some([]), entities := Some([]));
    }
    match envelope.event.kind {
      case "member_joined_channel" =>
        var newUser := BuildUserIdentity(Show(envelope.event.user), envelope.teamId);
        event := event.(membersAdded := Some([newUser]));
        address := address.(user := newUser);
      case "member_left_channel" =>
        var newUser := BuildUserIdentity(Show(envelope.event.user), envelope.teamId);
        event := event.(membersRemoved := Some([newUser]));
        address := address.(user := newUser);
      case _ =>
        address := address.(user := address.bot);
    }
    e := event.(address := Some(address), user := Some(address.user));
  }

  /**
   * The events an event callback produces: one message event for a user
   * message, one conversation update for a channel event, none otherwise.
   */
  function RoutedEvents(envelope: EventEnvelope, botId: string, token: string, botName: string, withEmptyLists: bool): (r: seq<EventData>)
    ensures |r| <= 1
    ensures |r| == 1 <==> IsRoutableEvent(envelope.event)
    ensures IsUserMessageEvent(envelope.event) ==> r == [BuildMessageEvent(envelope, botId, token, botName)]
    ensures IsConversationUpdateEvent(envelope.event) ==> r == [ConversationUpdateEventOf(envelope, botId, token, botName, withEmptyLists)]
  {
    ClassificationFacts(envelope.event);
    if !IsRoutableEvent(envelope.event) then []
    else if IsUserMessageEvent(envelope.event) then [BuildMessageEvent(envelope, botId, token, botName)]
    else [ConversationUpdateEventOf(envelope, botId, token, botName, withEmptyLists)]
  }

  /**
   * `EventInteractor.call`: rejects a foreign token, answers the URL
   * verification handshake with its challenge, and turns an event callback
   * into at most one event.
   */
  method Call(settings: Settings, envelope: EventEnvelope) returns (r: Result<InteractorResult, Error>)
    ensures !IsValidEnvelope(envelope.token, settings.verificationToken) ==> r == Err(Unauthorized)
    ensures IsValidEnvelope(envelope.token, settings.verificationToken) ==> r.Ok?
    ensures r.Ok? && envelope.kind == "url_verification" ==> r.value == InteractorResult([], envelope.challenge)
    ensures r.Ok? && envelope.kind != "url_verification" ==> r.value.response.None?
    ensures r.Ok? && envelope.kind == "event_callback" ==>
      var credentials := settings.botLookup(envelope.teamId);
      r.value.events == RoutedEvents(envelope, credentials.botIdentifier, credentials.token, settings.botName, true)
    ensures r.Ok? ==> (|r.value.events| > 0 <==> envelope.kind == "event_callback" && IsRoutableEvent(envelope.event))
  {
    if !IsValidEnvelope(envelope.token, settings.verificationToken) {
      return Err(Unauthorized);
    }
    if envelope.kind == "url_verification" {
      return Ok(InteractorResult([], envelope.challenge));
    }
    if envelope.kind == "event_callback" {
      var credentials := settings.botLookup(envelope.teamId);
      var token, botId := credentials.token, credentials.botIdentifier;
      var eventsToDispatch: seq<EventData> := [];
      if !IsRoutableEvent(envelope.event) {
        return Ok(InteractorResult([], None));
      }
      if IsUserMessageEvent(envelope.event) {
        eventsToDispatch := eventsToDispatch + [BuildMessageEvent(envelope, botId, token, settings.botName)];
      } else if IsConversationUpdateEvent(envelope.event) {
        var event := BuildConversationUpdateEvent(envelope, botId, token, settings.botName, true);
        eventsToDispatch := eventsToDispatch + [event];
      }
      return Ok(InteractorResult(eventsToDispatch, None));
    }
    return Ok(InteractorResult([], None));
  }

  /** A bot message (a message with the `bot_message` subtype) produces no event. */
  lemma BotMessageProducesNothing(envelope: EventEnvelope, botId: string, token: string, botName: string, withEmptyLists: bool)
    requires envelope.event.kind == "message" && envelope.event.subtype == Some("bot_message")
    ensures RoutedEvents(envelope, botId, token, botName, withEmptyLists) == []
  {
    ClassificationFacts(envelope.event);
  }

  /**
   * A leading bot mention becomes `@botName`, its `$` patterns substituted
   * against an empty prefix and the rest of the text.
   */
  lemma EnrichLeadingBotMention(botUserId: string, botName: string, rest: string)
    ensures var pattern := "<@" + botUserId + ">";
      EnrichText(pattern + rest, Some(botUserId), botName) == "@" + Substitution(botName, pattern, "", rest) + rest
    ensures '$' !in botName ==> EnrichText("<@" + botUserId + ">" + rest, Some(botUserId), botName) == "@" + botName + rest
  {
    var pattern := BotMentionPattern(Some(botUserId));
    assert pattern == "<@" + botUserId + ">";
    ReplaceFirstAtStart(pattern, rest, '@', botName);
    if '$' !in botName {
      SubstitutionLiteral(botName, pattern, "", rest);
    }
  }

  /** A bot named `$&` has the mention token itself inserted after the `@`. */
  lemma EnrichDollarAmpersand(botUserId: string, rest: string)
    ensures EnrichText("<@" + botUserId + ">" + rest, Some(botUserId), "$&") == "@<@" + botUserId + ">" + rest
  {
    var pattern := "<@" + botUserId + ">";
    EnrichLeadingBotMention(botUserId, "$&", rest);
    SubstitutionPatterns(pattern, "", rest);
    assert "@" + pattern + rest == "@<@" + botUserId + ">" + rest;
  }
}
