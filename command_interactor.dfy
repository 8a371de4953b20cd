/**
 * `CommandInteractor`: turns a slash command into one `slackCommand` event,
 * building its address with the `Address` builder and the event with the
 * command event builder.
 */
module CommandInteractors {
  import opened Wrappers
  import opened Strings
  import opened Types
  import opened Utils
  import opened Addresses
  import Events
  import opened BaseInteractors

  /**
   * The address and event a command produces, for a user named `userName`
   * (or nameless); an empty channel id gives no conversation.
   */
  predicate IsCommandEventFor(e: EventData, envelope: CommandEnvelope, credentials: BotCredentials, botName: string, userName: Option<string>)
  {
    var team := Show(DecomposeUserId(credentials.botIdentifier).teamId);
    var botUserId := DecomposeUserId(credentials.botIdentifier).userId;
    e.kind == Some("slackCommand") && e.source == Some("slack") && e.agent == Some("botbuilder") &&
    e.sourceEvent == Some(SlackMessage(CommandCopy(envelope), credentials.token)) &&
    e.address.Some? && e.user == Some(e.address.value.user) &&
    e.address.value.channelId == "slack" && e.address.value.id.None? &&
    e.address.value.user == BuildIdentity(envelope.userId, team, userName) &&
    e.address.value.bot == BuildIdentity(botUserId, team, Some(botName)) &&
    e.address.value.conversation ==
      (if envelope.channelId != "" then Some(BuildConversationIdentity(envelope.channelId, e.address.value.bot.id)) else None)
  }

  class CommandInteractor {
    const base: BaseInteractor<CommandEnvelope>

    constructor (settings: Settings, envelope: CommandEnvelope)
      ensures base.settings == settings && base.envelope == envelope
    {
      base := new BaseInteractor(settings, envelope);
    }

    /**
     * `CommandInteractor.call` as written: a foreign token is rejected; without
     * a data cache `buildUser` yields `null` and reading its `name` throws.
     */
    method Call() returns (r: Result<InteractorResult, Error>)
      ensures !IsValidEnvelope(base.envelope.token, base.settings.verificationToken) ==> r == Err(Unauthorized)
      ensures IsValidEnvelope(base.envelope.token, base.settings.verificationToken) && base.settings.dataCache.None? ==>
        r == Err(TypeError)
      ensures IsValidEnvelope(base.envelope.token, base.settings.verificationToken) && base.settings.dataCache.Some? ==>
        r.Ok? && r.value.response.None? && |r.value.events| == 1 &&
        var credentials := base.settings.botLookup(base.envelope.teamId);
        IsCommandEventFor(r.value.events[0], base.envelope, credentials, base.settings.botName,
          CachedUserName(base.settings, credentials.botIdentifier, base.envelope.userId))
    {
      if !IsValidEnvelope(base.envelope.token, base.settings.verificationToken) {
        return Err(Unauthorized);
      }
      var credentials := base.settings.botLookup(base.envelope.teamId);
      var userIdentity := base.BuildUser(credentials.botIdentifier, base.envelope.userId);
      if userIdentity.None? {
        return Err(TypeError);
      }
      var event := BuildCommandEvent(credentials, userIdentity.value.name);
      r := Ok(InteractorResult([event], None));
    }

    /**
     * The evidently intended `call`: a missing cache only leaves the user
     * nameless, as the connector's own command path does.
     */
    method CallNullSafe() returns (r: Result<InteractorResult, Error>)
      ensures !IsValidEnvelope(base.envelope.token, base.settings.verificationToken) ==> r == Err(Unauthorized)
      ensures IsValidEnvelope(base.envelope.token, base.settings.verificationToken) ==>
        r.Ok? && r.value.response.None? && |r.value.events| == 1 &&
        var credentials := base.settings.botLookup(base.envelope.teamId);
        IsCommandEventFor(r.value.events[0], base.envelope, credentials, base.settings.botName,
          if base.settings.dataCache.Some? then CachedUserName(base.settings, credentials.botIdentifier, base.envelope.userId)
          else None)
    {
      if !IsValidEnvelope(base.envelope.token, base.settings.verificationToken) {
        return Err(Unauthorized);
      }
      var credentials := base.settings.botLookup(base.envelope.teamId);
      var userIdentity := base.BuildUser(credentials.botIdentifier, base.envelope.userId);
      var userName := if userIdentity.Some? then userIdentity.value.name else None;
      var event := BuildCommandEvent(credentials, userName);
      r := Ok(InteractorResult([event], None));
    }

    /**
     * `buildCommandEvent`: the bot identifier is split into bot and team, the
     * address is built for that team and the event around it.
     */
    method BuildCommandEvent(credentials: BotCredentials, userName: Option<string>) returns (e: EventData)
      ensures IsCommandEventFor(e, base.envelope, credentials, base.settings.botName, userName)
    {
      var botIdentity := DecomposeUserId(credentials.botIdentifier);
      var address := new Address(Show(botIdentity.teamId));
      address := address.User(base.envelope.userId, userName);
      address := address.Bot(botIdentity.userId, Some(base.settings.botName));
      address := address.Channel(base.envelope.channelId);
      var finished := address.ToAddress();
      assert finished.Ok?;
      var event := new Events.Event.Command();
      event := event.Address(finished.value);
      event := event.SourceEvent(SlackMessage(CommandCopy(base.envelope), credentials.token));
      e := event.ToEvent();
    }
  }

  /**
   * For a bot identifier `b:t` the command's bot id is `b:t` again and its
   * conversation id splits back into bot, team and channel.
   */
  lemma CommandAddressRoundTrip(e: EventData, envelope: CommandEnvelope, credentials: BotCredentials, botName: string, userName: Option<string>, b: string, t: string)
    requires IsCommandEventFor(e, envelope, credentials, botName, userName)
    requires credentials.botIdentifier == b + ":" + t && IsPlainId(b) && IsPlainId(t) && IsPlainId(envelope.channelId)
    ensures e.address.value.bot.id == credentials.botIdentifier
    ensures e.address.value.conversation.Some? <==> envelope.channelId != ""
    ensures envelope.channelId != "" ==> DecomposeConversationId(e.address.value.conversation.value.id) == ConversationIdentifier(b, Some(t), Some(envelope.channelId))
    ensures IsPlainId(envelope.userId) ==> DecomposeUserId(e.user.value.id) == UserIdentifier(envelope.userId, Some(t))
  {
    DecomposeUserIdRoundTrip(b, t);
    BotAddressRoundTrip(b, t, envelope.channelId, Some(botName));
    RoundTripsForUser(envelope.userId, t);
  }
}
