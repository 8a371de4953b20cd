/**
 * The identity/address codec, the event classifiers, the source-event
 * builders and the outbound serialiser of the adapter's `utils` module.
 */
module Utils {
  import opened Wrappers
  import opened Strings
  import opened Types
  import opened Constants

  /** `conversationId.split(":")` destructured into bot, team and channel. */
  function DecomposeConversationId(conversationId: string): ConversationIdentifier
  {
    var parts := Split(conversationId, ':');
    ConversationIdentifier(
      parts[0],
      if |parts| > 1 then Some(parts[1]) else None,
      if |parts| > 2 then Some(parts[2]) else None)
  }

  /** `id.split(":")` destructured into user (or bot) and team. */
  function DecomposeUserId(id: string): UserIdentifier
  {
    var parts := Split(id, ':');
    UserIdentifier(parts[0], if |parts| > 1 then Some(parts[1]) else None)
  }

  /** A string that holds no `:`, as Slack user, bot, team and channel ids do. */
  predicate IsPlainId(s: string)
  {
    ':' !in s
  }

  function BuildUserIdentity(slackUserId: string, teamId: string): Identity
  {
    Identity(slackUserId + ":" + teamId, None)
  }

  function BuildBotIdentity(botId: string, botName: string): Identity
  {
    Identity(botId, Some(botName))
  }

  /** A channel whose id starts with `C` (public) or `G` (private) is a group. */
  predicate IsGroupConversation(slackChannelId: string)
  {
    |slackChannelId| > 0 && (slackChannelId[0] == 'C' || slackChannelId[0] == 'G')
  }

  /** The conversation of a channel, keyed by the (team-qualified) bot id. */
  function BuildConversationIdentity(slackChannelId: string, botId: string): Conversation
  {
    Conversation(botId + ":" + slackChannelId, IsGroupConversation(slackChannelId))
  }

  /** The two-component id `a:b` splits back into `a` and `b`. */
  lemma {:induction false} DecomposeUserIdRoundTrip(a: string, b: string)
    requires IsPlainId(a) && IsPlainId(b)
    ensures DecomposeUserId(a + ":" + b) == UserIdentifier(a, Some(b))
  {
    var parts := [a, b];
    assert Join(parts, ':') == a + ":" + b by {
      assert parts[1..] == [b];
    }
    SplitJoin(parts, ':');
  }

  /**
   * Round trip of the conversation codec: the id built for channel `ch` of
   * the bot `b:t` decomposes into `b`, `t` and `ch`.
   */
  lemma {:induction false} ConversationIdRoundTrip(b: string, t: string, ch: string)
    requires IsPlainId(b) && IsPlainId(t) && IsPlainId(ch)
    ensures DecomposeConversationId(BuildConversationIdentity(ch, b + ":" + t).id) == ConversationIdentifier(b, Some(t), Some(ch))
  {
    var parts := [b, t, ch];
    assert Join(parts, ':') == b + ":" + t + ":" + ch by {
      assert parts[1..] == [t, ch];
      assert [t, ch][1..] == [ch];
      assert Join([t, ch], ':') == t + ":" + ch;
      assert Join(parts, ':') == b + ":" + (t + ":" + ch);
    }
    SplitJoin(parts, ':');
  }

  /** The address of a Slack conversation; `id` is set only for a non-empty message id. */
  function BuildAddress(
    teamId: string,
    userId: string,
    channelId: string,
    botId: string,
    botName: string,
    messageId: Option<string>): (r: SlackAddress)
    ensures r.channelId == "slack"
    ensures r.id.Some? <==> Truthy(messageId)
    ensures r.id.Some? ==> r.id == messageId
    ensures r.user.id == userId + ":" + teamId && r.bot.id == botId
    ensures r.bot.name == Some(botName) && r.user.name.None?
    ensures IsPlainId(userId) && IsPlainId(teamId) ==> DecomposeUserId(r.user.id) == UserIdentifier(userId, Some(teamId))
    ensures r.conversation.Some? && r.conversation.value.id == botId + ":" + channelId
    ensures r.conversation.value.isGroup == IsGroupConversation(channelId)
    ensures forall b, t :: botId == b + ":" + t && IsPlainId(b) && IsPlainId(t) && IsPlainId(channelId) ==>
      DecomposeConversationId(r.conversation.value.id) == ConversationIdentifier(b, Some(t), Some(channelId))
  {
    var user := BuildUserIdentity(userId, teamId);
    var conversation := BuildConversationIdentity(channelId, botId);
    var bot := BuildBotIdentity(botId, botName);
    var address := SlackAddress("slack", None, user, bot, Some(conversation));
    RoundTripsForUser(userId, teamId);
    RoundTripsForBot(botId, channelId);
    if Truthy(messageId) then address.(id := messageId) else address
  }

  lemma RoundTripsForUser(userId: string, teamId: string)
    ensures IsPlainId(userId) && IsPlainId(teamId) ==>
      DecomposeUserId(BuildUserIdentity(userId, teamId).id) == UserIdentifier(userId, Some(teamId))
  {
    if IsPlainId(userId) && IsPlainId(teamId) {
      DecomposeUserIdRoundTrip(userId, teamId);
    }
  }

  lemma RoundTripsForBot(botId: string, channelId: string)
    ensures forall b, t :: botId == b + ":" + t && IsPlainId(b) && IsPlainId(t) && IsPlainId(channelId) ==>
      DecomposeConversationId(BuildConversationIdentity(channelId, botId).id) == ConversationIdentifier(b, Some(t), Some(channelId))
  {
    forall b, t | botId == b + ":" + t && IsPlainId(b) && IsPlainId(t) && IsPlainId(channelId)
      ensures DecomposeConversationId(BuildConversationIdentity(channelId, botId).id) == ConversationIdentifier(b, Some(t), Some(channelId))
    {
      ConversationIdRoundTrip(b, t, channelId);
    }
  }

  /** A channel life-cycle event. */
  predicate IsConversationUpdateEvent(event: SlackEvent)
  {
    event.kind in ConversationUpdateEvents
  }

  /** A message without subtype, i.e. written by a user (not by a bot). */
  predicate IsUserMessageEvent(event: SlackEvent)
  {
    event.kind == "message" && !Truthy(event.subtype)
  }

  /** The events the adapter turns into botbuilder events; all others are dropped. */
  predicate IsRoutableEvent(event: SlackEvent)
  {
    IsUserMessageEvent(event) || IsConversationUpdateEvent(event)
  }

  /** User messages and conversation updates never overlap, and bot messages are never routed. */
  lemma ClassificationFacts(event: SlackEvent)
    ensures !(IsUserMessageEvent(event) && IsConversationUpdateEvent(event))
    ensures event.kind == "message" ==> (IsRoutableEvent(event) <==> !Truthy(event.subtype))
    ensures event.kind == "message" && event.subtype == Some("bot_message") ==> !IsRoutableEvent(event)
    ensures event.kind in InstallationUpdateEvents ==> !IsRoutableEvent(event)
    ensures event.kind != "message" ==> (IsRoutableEvent(event) <==> event.kind in ConversationUpdateEvents)
  {
    Constants.ClassificationListsDisjoint();
  }

  /** An envelope is accepted only when it carries the configured verification token. */
  predicate IsValidEnvelope(token: string, verificationToken: string)
  {
    token == verificationToken
  }

  /** The slash-command event `{type: "slackCommand", …}` the connector dispatches. */
  function BuildCommandEvent(envelope: CommandEnvelope, token: string, botIdentifier: string, botName: string): (e: EventData)
    ensures e.kind == Some("slackCommand") && e.source == Some("slack") && e.agent == Some("botbuilder")
    ensures e.address == Some(BuildAddress(envelope.teamId, envelope.userId, envelope.channelId, botIdentifier, botName, None))
    ensures e.address.value.id.None?
    ensures e.user == Some(e.address.value.user)
    ensures e.sourceEvent == Some(SlackMessage(CommandCopy(envelope), token))
  {
    var address := BuildAddress(envelope.teamId, envelope.userId, envelope.channelId, botIdentifier, botName, None);
    NoEventData.(
      kind := Some("slackCommand"),
      source := Some("slack"),
      agent := Some("botbuilder"),
      sourceEvent := Some(SlackMessage(CommandCopy(envelope), token)),
      address := Some(address),
      user := Some(address.user))
  }

  /** `{slack: {SlackMessage: {...event, team, source_team}, ApiToken}}`. */
  function BuildMessageSourceEvent(envelope: EventEnvelope, token: string): SourceEventMap
  {
    SourceEventMap(SlackMessage(TeamedEventCopy(envelope.event, envelope.teamId, envelope.teamId), token))
  }

  /** `{slack: {Payload: {...payload}, ApiToken}}`. */
  function BuildInteractiveMessageSourceEvent(payload: InteractiveEnvelope, token: string): SourceEventMap
  {
    SourceEventMap(Payload(payload, token))
  }

  /** `s || ""`. */
  function OrEmpty(s: Option<string>): string
  {
    if s.Some? then s.value else ""
  }

  /** The attachment that carries the message text. */
  function TextAttachmentOf(text: string): SlackAttachment
  {
    TextAttachment(text, text, ["pretext"])
  }

  /** A card the serialiser can read: its `content` and the content's `buttons` are present. */
  predicate IsReadableCard(a: Attachment)
  {
    a.content.Some? && a.content.value.buttons.Some?
  }

  /**
   * The Slack attachment for one hero card: one button action per card
   * button. Reading `title` of an absent `content`, or mapping absent
   * `buttons`, throws.
   */
  function CardAttachmentOf(messageText: Option<string>, a: Attachment): (r: Result<SlackAttachment, Error>)
    ensures r.Err? <==> !IsReadableCard(a)
    ensures r.Err? ==> r.error == TypeError
    ensures r.Ok? ==> var card, buttons := a.content.value, a.content.value.buttons.value;
      r.value.CardAttachment? && r.value.callbackId == "botbuilder" &&
      r.value.fallback == OrEmpty(messageText) &&
      r.value.pretext == OrEmpty(card.title) && r.value.title == OrEmpty(card.subtitle) &&
      |r.value.actions| == |buttons| &&
      forall k :: 0 <= k < |r.value.actions| ==>
        r.value.actions[k].kind == "button" &&
        r.value.actions[k].name == buttons[k].title &&
        r.value.actions[k].text == buttons[k].title &&
        r.value.actions[k].value == buttons[k].value
  {
    match a.content
    case None => Err(TypeError)
    case Some(card) =>
      match card.buttons
      case None => Err(TypeError)
      case Some(buttons) =>
        Ok(CardAttachment(
          "botbuilder",
          OrEmpty(messageText),
          OrEmpty(card.title),
          OrEmpty(card.subtitle),
          ["text", "pretext"],
          seq(|buttons|, k requires 0 <= k < |buttons| => SlackAction("button", buttons[k].title, buttons[k].title, buttons[k].value))))
  }

  /** The attachments of an outbound message, `[]` when it has none. */
  function AttachmentsOf(message: OutboundMessage): seq<Attachment>
  {
    if message.attachments.Some? then message.attachments.value else []
  }

  /** `cards.map(...)` over cards that can all be read. */
  function CardAttachmentsOf(messageText: Option<string>, cards: seq<Attachment>): (r: seq<SlackAttachment>)
    requires forall k :: 0 <= k < |cards| ==> IsReadableCard(cards[k])
    ensures |r| == |cards| && forall k :: 0 <= k < |cards| ==> CardAttachmentOf(messageText, cards[k]) == Ok(r[k])
  {
    seq(|cards|, k requires 0 <= k < |cards| => CardAttachmentOf(messageText, cards[k]).value)
  }

  /**
   * The Slack attachments an outbound message is serialised to, or the
   * `TypeError` of the first card that cannot be read.
   */
  function SlackAttachments(message: OutboundMessage): (r: Result<seq<SlackAttachment>, Error>)
    ensures r.Err? <==> exists k :: 0 <= k < |AttachmentsOf(message)| && !IsReadableCard(AttachmentsOf(message)[k])
    ensures r.Err? ==> r.error == TypeError
    ensures r.Ok? ==> var offset := if Truthy(message.text) then 1 else 0;
      |r.value| == offset + |AttachmentsOf(message)| &&
      (Truthy(message.text) ==> r.value[0] == TextAttachmentOf(message.text.value)) &&
      forall k :: 0 <= k < |AttachmentsOf(message)| ==>
        CardAttachmentOf(message.text, AttachmentsOf(message)[k]) == Ok(r.value[offset + k])
  {
    var cards := AttachmentsOf(message);
    if exists k :: 0 <= k < |cards| && !IsReadableCard(cards[k]) then Err(TypeError)
    else
      Ok((if Truthy(message.text) then [TextAttachmentOf(message.text.value)] else []) + CardAttachmentsOf(message.text, cards))
  }

  /**
   * `buildSlackMessage(channel, message)`: pushes the text attachment, then
   * concatenates one attachment per hero card; a card it cannot read throws.
   */
  method BuildSlackMessage(channel: Option<string>, message: OutboundMessage) returns (r: Result<PostMessageParams, Error>)
    ensures SlackAttachments(message).Err? ==> r == Err(TypeError)
    ensures SlackAttachments(message).Ok? ==> r == Ok(PostMessageParams(channel, SlackAttachments(message).value))
  {
    var attachments: seq<SlackAttachment> := [];
    if Truthy(message.text) {
      attachments := attachments + [TextAttachmentOf(message.text.value)];
    }
    if message.attachments.Some? {
      var cards := message.attachments.value;
      if exists k :: 0 <= k < |cards| && !IsReadableCard(cards[k]) {
        return Err(TypeError);
      }
      attachments := attachments + CardAttachmentsOf(message.text, cards);
    }
    assert attachments == (if Truthy(message.text) then [TextAttachmentOf(message.text.value)] else []) +
      CardAttachmentsOf(message.text, AttachmentsOf(message));
    r := Ok(PostMessageParams(channel, attachments));
  }
}
