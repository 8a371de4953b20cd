/**
 * `OAuthInteractor`: completes the "Add to Slack" OAuth flow and reports the
 * installation as one `installationUpdate` event. The two Web API calls it
 * makes are the caller's functions.
 */
module OAuthInteractor {
  import opened Wrappers
  import opened Strings
  import opened Types
  import opened Utils

  /** `oauth.access(clientId, clientSecret, code, {redirect_uri})`. */
  type OAuthAccess = (string, string, Option<string>, string) -> Result<AccessResult, Error>

  /** `users.info(userId)` called with the given API token. */
  type UsersInfo = (string, string) -> Result<UserInfo, Error>

  /**
   * The installation event: the installing user, the bot identified by its
   * profile bot id within the team, no conversation, and the access result
   * without its `ok` key as source event.
   */
  function InstallationUpdateEventOf(access: AccessResult, bot: UserInfo): (e: EventData)
    ensures e.kind == Some("installationUpdate") && e.source == Some("slack") && e.agent == Some("botbuilder")
    ensures e.address.Some? && e.user == Some(e.address.value.user)
    ensures var a := e.address.value;
      a.channelId == "slack" && a.id.None? && a.conversation.None? &&
      a.user == Identity(access.userId + ":" + access.teamId, None) &&
      a.bot == Identity(bot.profileBotId + ":" + access.teamId, Some(bot.name))
    ensures e.sourceEvent == Some(SlackMessage(AccessCopy(access.(ok := None)), access.bot.botAccessToken))
    ensures e.action.None? && e.text.None? && e.timestamp.None?
  {
    var user := BuildUserIdentity(access.userId, access.teamId);
    var address := SlackAddress("slack", None, user, BuildBotIdentity(BuildUserIdentity(bot.profileBotId, access.teamId).id, bot.name), None);
    var withoutOk := access.(ok := None);
    NoEventData.(
      kind := Some("installationUpdate"),
      source := Some("slack"),
      agent := Some("botbuilder"),
      sourceEvent := Some(SlackMessage(AccessCopy(withoutOk), withoutOk.bot.botAccessToken)),
      address := Some(address),
      user := Some(user))
  }

  /** `buildInstallationUpdateEvent`: looks the bot user up with the new access token first. */
  function BuildInstallationUpdateEvent(access: AccessResult, usersInfo: UsersInfo): (r: Result<EventData, Error>)
    ensures usersInfo(access.accessToken, access.bot.botUserId).Err? ==> r == Err(usersInfo(access.accessToken, access.bot.botUserId).error)
    ensures usersInfo(access.accessToken, access.bot.botUserId).Ok? ==>
      r == Ok(InstallationUpdateEventOf(access, usersInfo(access.accessToken, access.bot.botUserId).value))
  {
    match usersInfo(access.accessToken, access.bot.botUserId)
    case Err(e) => Err(e)
    case Ok(bot) => Ok(InstallationUpdateEventOf(access, bot))
  }

  /**
   * `OAuthInteractor.call`: a denied authorisation fails before any API call;
   * otherwise the code is exchanged and the installation reported as one
   * event with no response. A failing API call fails the whole call.
   */
  function Call(settings: Settings, options: OAuthOptions, oauthAccess: OAuthAccess, usersInfo: UsersInfo): (r: Result<InteractorResult, Error>)
    ensures options.error == Some("access_denied") ==> r == Err(OAuthAccessDenied)
    ensures options.error != Some("access_denied") ==>
      var access := oauthAccess(settings.clientId, settings.clientSecret, options.code, settings.redirectUrl);
      (access.Err? ==> r == Err(access.error)) &&
      (access.Ok? ==> match BuildInstallationUpdateEvent(access.value, usersInfo)
        case Err(e) => r == Err(e)
        case Ok(event) => r == Ok(InteractorResult([event], None)))
  {
    if options.error == Some("access_denied") then Err(OAuthAccessDenied)
    else
      match oauthAccess(settings.clientId, settings.clientSecret, options.code, settings.redirectUrl)
      case Err(e) => Err(e)
      case Ok(access) =>
        match BuildInstallationUpdateEvent(access, usersInfo)
        case Err(e) => Err(e)
        case Ok(event) => Ok(InteractorResult([event], None))
  }

  /** For plain Slack ids, the user and bot ids of the installation split back into their parts. */
  lemma InstallationIdentitiesRoundTrip(access: AccessResult, bot: UserInfo)
    requires IsPlainId(access.userId) && IsPlainId(access.teamId) && IsPlainId(bot.profileBotId)
    ensures var a := InstallationUpdateEventOf(access, bot).address.value;
      DecomposeUserId(a.user.id) == UserIdentifier(access.userId, Some(access.teamId)) &&
      DecomposeUserId(a.bot.id) == UserIdentifier(bot.profileBotId, Some(access.teamId))
  {
    DecomposeUserIdRoundTrip(access.userId, access.teamId);
    DecomposeUserIdRoundTrip(bot.profileBotId, access.teamId);
  }

  /** The source event keeps every field of the access result except the `ok` flag. */
  lemma SourceEventDropsOnlyOk(access: AccessResult, bot: UserInfo)
    ensures var s := InstallationUpdateEventOf(access, bot).sourceEvent.value;
      s.SlackMessage? && s.message.AccessCopy? &&
      s.message.access.ok.None? && s.message.access.(ok := access.ok) == access
  {
  }
}
