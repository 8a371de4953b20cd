/**
 * The records the adapter exchanges with Slack and with botbuilder, and its
 * error kinds. Every key that JavaScript may leave `undefined` is an `Option`.
 */
module Types {
  import opened Wrappers

  /** botbuilder's identity: `user:team` for users, `bot:team` for the bot. */
  datatype Identity = Identity(id: string, name: Option<string>)

  /** The conversation part of an address: `bot:team:channel` and the group flag. */
  datatype Conversation = Conversation(id: string, isGroup: bool)

  /** A Slack address; `id` is the Slack timestamp of the message it points at. */
  datatype SlackAddress = SlackAddress(
    channelId: string,
    id: Option<string>,
    user: Identity,
    bot: Identity,
    conversation: Option<Conversation>)

  /** A mention entity: the raw `<@U…>` token and who it names. */
  datatype Mention = Mention(kind: string, text: string, mentioned: Identity)

  /** The result of splitting a conversation id on `:`. */
  datatype ConversationIdentifier = ConversationIdentifier(bot: string, team: Option<string>, channel: Option<string>)

  /** The result of splitting a user or bot id on `:`. */
  datatype UserIdentifier = UserIdentifier(userId: string, teamId: Option<string>)

  /**
   * The inner event of an event callback (message or channel event);
   * `event_ts` and `user` may be absent.
   */
  datatype SlackEvent = SlackEvent(
    kind: string,
    subtype: Option<string>,
    eventTs: Option<string>,
    ts: string,
    user: Option<string>,
    channel: string,
    text: string)

  /** The body Slack posts to the events endpoint. */
  datatype EventEnvelope = EventEnvelope(
    token: string,
    teamId: string,
    kind: string,
    event: SlackEvent,
    authedUsers: seq<string>,
    challenge: Option<string>)

  /** The body Slack posts for a slash command. */
  datatype CommandEnvelope = CommandEnvelope(
    token: string,
    teamId: string,
    channelId: string,
    userId: string,
    userName: string,
    command: string,
    text: string,
    responseUrl: string)

  /** One pressed button of an interactive message. */
  datatype MessageAction = MessageAction(kind: string, text: string, value: string)

  /** The payload Slack posts when a button of an interactive message is pressed. */
  datatype InteractiveEnvelope = InteractiveEnvelope(
    token: string,
    actions: seq<MessageAction>,
    actionTs: string,
    messageTs: string,
    teamId: string,
    channelId: string,
    userId: string,
    responseUrl: string)

  /** The query of the OAuth redirect. */
  datatype OAuthOptions = OAuthOptions(error: Option<string>, code: Option<string>)

  /** The bot part of the `oauth.access` answer. */
  datatype BotAccess = BotAccess(botUserId: string, botAccessToken: string)

  /** The `oauth.access` answer; `ok` is the transport flag the adapter deletes. */
  datatype AccessResult = AccessResult(
    ok: Option<bool>,
    accessToken: string,
    scope: string,
    userId: string,
    teamName: string,
    teamId: string,
    bot: BotAccess)

  /** The part of the `users.info` answer for the bot user the adapter reads. */
  datatype UserInfo = UserInfo(name: string, profileBotId: string)

  /** What a source event carries under `SlackMessage`: a copy of the inbound record. */
  datatype Passthrough =
    | EventCopy(event: SlackEvent)
    | TeamedEventCopy(event: SlackEvent, team: string, sourceTeam: string)
    | CommandCopy(command: CommandEnvelope)
    | AccessCopy(access: AccessResult)

  /** `{SlackMessage, ApiToken}` or, for interactive messages, `{Payload, ApiToken}`. */
  datatype SourceEvent =
    | SlackMessage(message: Passthrough, apiToken: string)
    | Payload(payload: InteractiveEnvelope, apiToken: string)

  /** A source event keyed by channel id; only the `slack` key is ever filled. */
  datatype SourceEventMap = SourceEventMap(slack: SourceEvent)

  /** A hero-card button of an outbound message. */
  datatype CardButton = CardButton(title: string, value: string)

  /** The content of a hero-card attachment; `buttons` may be absent. */
  datatype HeroCard = HeroCard(title: Option<string>, subtitle: Option<string>, buttons: Option<seq<CardButton>>)

  /** A botbuilder attachment; `content` may be absent. */
  datatype Attachment = Attachment(content: Option<HeroCard>)

  /** An event handed to botbuilder; every key may be absent. */
  datatype EventData = EventData(
    kind: Option<string>,
    source: Option<string>,
    agent: Option<string>,
    address: Option<SlackAddress>,
    user: Option<Identity>,
    timestamp: Option<string>,
    sourceEvent: Option<SourceEvent>,
    text: Option<string>,
    attachments: Option<seq<Attachment>>,
    entities: Option<seq<Mention>>,
    membersAdded: Option<seq<Identity>>,
    membersRemoved: Option<seq<Identity>>,
    action: Option<string>)

  /** The empty object `{}`. */
  const NoEventData := EventData(None, None, None, None, None, None, None, None, None, None, None, None, None)

  /** What an interactor's `call` resolves to. */
  datatype InteractorResult = InteractorResult(events: seq<EventData>, response: Option<string>)

  /** The answer of `botLookup(teamId)`: API token and bot identifier `bot:team`. */
  datatype BotCredentials = BotCredentials(token: string, botIdentifier: string)

  /** A user record of the data cache. */
  datatype SlackUser = SlackUser(id: string, name: string)

  /** The connector settings; `botLookup` and `findUsers` are the caller's functions. */
  datatype Settings = Settings(
    botLookup: string -> BotCredentials,
    botName: string,
    verificationToken: string,
    clientId: string,
    clientSecret: string,
    redirectUrl: string,
    onOAuthSuccessRedirectUrl: string,
    onOAuthErrorRedirectUrl: string,
    onOAuthAccessDeniedRedirectUrl: string,
    dataCache: Option<seq<string> -> seq<SlackUser>>)

  /** The errors the adapter raises: its two classified ones, `new Error(message)` and a `TypeError`. */
  datatype Error = Unauthorized | OAuthAccessDenied | Failure(message: Option<string>) | TypeError

  const InvalidAddressMessage := "Invalid address"
  const NoContentMessage := "Messages without content are not allowed."

  /** An outbound botbuilder message. */
  datatype OutboundMessage = OutboundMessage(
    kind: string,
    text: Option<string>,
    attachments: Option<seq<Attachment>>,
    address: SlackAddress)

  /** A Slack message button. */
  datatype SlackAction = SlackAction(kind: string, name: string, text: string, value: string)

  /** A Slack message attachment: the message text, or one hero card. */
  datatype SlackAttachment =
    | TextAttachment(fallback: string, pretext: string, mrkdwnIn: seq<string>)
    | CardAttachment(
        callbackId: string,
        fallback: string,
        pretext: string,
        title: string,
        mrkdwnIn: seq<string>,
        actions: seq<SlackAction>)

  /** The options passed to `chat.postMessage`. */
  datatype PostMessageParams = PostMessageParams(channel: Option<string>, attachments: seq<SlackAttachment>)

  /** The answer of `chat.postMessage`. */
  datatype PostResponse = PostResponse(ok: bool, ts: string, message: Option<string>)

  /** One `chat.postMessage` call: the team's API token (absent for an unknown team) and the options. */
  datatype PostRequest = PostRequest(token: Option<string>, params: PostMessageParams)

  /**
   * What an HTTP handler answers; `NoAnswer` when the work after the bot
   * lookup throws, so that no response is ever written.
   */
  datatype HttpOutcome = Status(code: int, body: Option<string>) | Redirect(url: string) | NoAnswer
}
