/**
 * `BaseInteractor`: the settings and envelope an interactor works on, and
 * the optional user-name lookup through the configured data cache.
 */
module BaseInteractors {
  import opened Wrappers
  import opened Strings
  import opened Types
  import opened Utils

  /** The name the data cache holds for `userId` in the bot's team, if any. */
  function CachedUserName(settings: Settings, botbuilderBotId: string, userId: string): Option<string>
    requires settings.dataCache.Some?
  {
    var cached := settings.dataCache.value([userId + ":" + Show(DecomposeUserId(botbuilderBotId).teamId)]);
    if |cached| > 0 then Some(cached[0].name) else None
  }

  class BaseInteractor<Envelope> {
    const settings: Settings
    const envelope: Envelope

    constructor (settings: Settings, envelope: Envelope)
      ensures this.settings == settings && this.envelope == envelope
    {
      this.settings := settings;
      this.envelope := envelope;
    }

    /**
     * `buildUser`: without a data cache there is no identity (`null`);
     * otherwise `userId:team`, with `team` the second part of the bot id,
     * named after the first user the cache returns for that id.
     */
    method BuildUser(botbuilderBotId: string, userId: string) returns (user: Option<Identity>)
      ensures user.None? <==> settings.dataCache.None?
      ensures user.Some? ==> user.value.id == userId + ":" + Show(DecomposeUserId(botbuilderBotId).teamId)
      ensures user.Some? ==>
        var cached := settings.dataCache.value([user.value.id]);
        user.value.name == (if |cached| > 0 then Some(cached[0].name) else None) &&
        user.value.name == CachedUserName(settings, botbuilderBotId, userId)
      ensures user.Some? ==> forall b, t :: botbuilderBotId == b + ":" + t && IsPlainId(b) && IsPlainId(t) && IsPlainId(userId) ==>
        DecomposeUserId(user.value.id) == UserIdentifier(userId, Some(t))
    {
      if settings.dataCache.None? {
        return None;
      }
      var botId := DecomposeUserId(botbuilderBotId);
      var userIdentity := BuildUserIdentity(userId, Show(botId.teamId));
      var cached := settings.dataCache.value([userIdentity.id]);
      if |cached| > 0 {
        userIdentity := userIdentity.(name := Some(cached[0].name));
      }
      forall b, t | botbuilderBotId == b + ":" + t && IsPlainId(b) && IsPlainId(t) && IsPlainId(userId)
        ensures DecomposeUserId(userIdentity.id) == UserIdentifier(userId, Some(t))
      {
        DecomposeUserIdRoundTrip(b, t);
        DecomposeUserIdRoundTrip(userId, t);
      }
      user := Some(userIdentity);
    }
  }
}
