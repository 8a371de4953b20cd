/**
 * The fluent `Address` builder: setters assign fields of a partial address
 * and return the builder; `ToAddress` completes the conversation and fails
 * when the user or the bot is missing.
 */
module Addresses {
  import opened Wrappers
  import opened Strings
  import opened Types
  import opened Utils

  /** An identity `userId:teamId`, named only when a non-empty name is given. */
  function BuildIdentity(userId: string, teamId: string, name: Option<string>): (r: Identity)
    ensures r.id == userId + ":" + teamId
    ensures r.name == (if Truthy(name) then name else None)
    ensures IsPlainId(userId) && IsPlainId(teamId) ==> DecomposeUserId(r.id) == UserIdentifier(userId, Some(teamId))
  {
    RoundTripsForUser(userId, teamId);
    var identity := Identity(userId + ":" + teamId, None);
    if Truthy(name) then identity.(name := name) else identity
  }

  /** The address under construction; `user` and `bot` are absent until set. */
  datatype AddressData = AddressData(
    channelId: string,
    id: Option<string>,
    user: Option<Identity>,
    bot: Option<Identity>,
    conversation: Option<Conversation>)

  class Address {
    var data: AddressData
    var teamId: string
    /** The Slack channel, set by `Channel`. */
    var channelId: Option<string>

    constructor (teamId: string)
      ensures this.teamId == teamId && channelId == None
      ensures data == AddressData("slack", None, None, None, None)
    {
      this.teamId := teamId;
      this.channelId := None;
      this.data := AddressData("slack", None, None, None, None);
    }

    method Id(id: string) returns (self: Address)
      modifies this
      ensures self == this
      ensures data == old(data).(id := Some(id))
      ensures teamId == old(teamId) && channelId == old(channelId)
    {
      data := data.(id := Some(id));
      self := this;
    }

    method Channel(channel: string) returns (self: Address)
      modifies this
      ensures self == this
      ensures channelId == Some(channel)
      ensures data == old(data) && teamId == old(teamId)
    {
      channelId := Some(channel);
      self := this;
    }

    method User(user: string, name: Option<string>) returns (self: Address)
      modifies this
      ensures self == this
      ensures data == old(data).(user := Some(BuildIdentity(user, teamId, name)))
      ensures teamId == old(teamId) && channelId == old(channelId)
    {
      data := data.(user := Some(BuildIdentity(user, teamId, name)));
      self := this;
    }

    method Bot(bot: string, name: Option<string>) returns (self: Address)
      modifies this
      ensures self == this
      ensures data == old(data).(bot := Some(BuildIdentity(bot, teamId, name)))
      ensures teamId == old(teamId) && channelId == old(channelId)
    {
      data := data.(bot := Some(BuildIdentity(bot, teamId, name)));
      self := this;
    }

    /**
     * The finished address. The conversation is keyed by the bot id, which
     * `Bot` already qualified with the team: `bot:team:channel`. It is set
     * only for a truthy channel, so an empty channel leaves it out.
     */
    method ToAddress() returns (r: Result<SlackAddress, Error>)
      modifies this
      ensures teamId == old(teamId) && channelId == old(channelId)
      ensures old(data).bot.None? || old(data).user.None? ==>
        r == Err(Failure(Some(InvalidAddressMessage))) && data == old(data)
      ensures old(data).bot.Some? && old(data).user.Some? ==>
        data == old(data).(conversation :=
          if Truthy(channelId) then Some(BuildConversationIdentity(channelId.value, old(data).bot.value.id))
          else old(data).conversation) &&
        r == Ok(SlackAddress(data.channelId, data.id, data.user.value, data.bot.value, data.conversation))
    {
      if data.bot.None? || data.user.None? {
        return Err(Failure(Some(InvalidAddressMessage)));
      }
      if Truthy(channelId) {
        data := data.(conversation := Some(BuildConversationIdentity(channelId.value, data.bot.value.id)));
      }
      r := Ok(SlackAddress(data.channelId, data.id, data.user.value, data.bot.value, data.conversation));
    }
  }

  /**
   * The address chain a command builds: for a bot identifier `b:t` the bot id
   * is `b:t` again and the conversation id is `b:t:channel`.
   */
  lemma BotAddressRoundTrip(b: string, t: string, channel: string, name: Option<string>)
    requires IsPlainId(b) && IsPlainId(t) && IsPlainId(channel)
    ensures BuildIdentity(b, t, name).id == b + ":" + t
    ensures DecomposeConversationId(BuildConversationIdentity(channel, BuildIdentity(b, t, name).id).id) ==
      ConversationIdentifier(b, Some(t), Some(channel))
  {
    ConversationIdRoundTrip(b, t, channel);
  }
}
