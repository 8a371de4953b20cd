/**
 * `InteractiveMessageInteractor`: turns a button press on an interactive
 * message into one message event whose text is the pressed button's value.
 */
module InteractiveMessageInteractor {
  import opened Wrappers
  import opened Strings
  import opened Types
  import opened Utils

  /**
   * The message event of a button press; `value` is the first action's
   * value, the only one read.
   */
  function MessageEventOf(envelope: InteractiveEnvelope, credentials: BotCredentials, botName: string, value: string): (e: EventData)
    ensures e.kind == Some("message") && e.source == Some("slack") && e.agent == Some("botbuilder")
    ensures e.address == Some(BuildAddress(envelope.teamId, envelope.userId, envelope.channelId, credentials.botIdentifier, botName, Some(envelope.messageTs)))
    ensures e.user == Some(e.address.value.user)
    ensures e.timestamp == Some(envelope.actionTs)
    ensures e.sourceEvent == Some(Payload(envelope, credentials.token))
    ensures e.text == Some(value)
    ensures e.entities.None? && e.attachments.None? && e.membersAdded.None? && e.membersRemoved.None?
  {
    var address := BuildAddress(envelope.teamId, envelope.userId, envelope.channelId, credentials.botIdentifier, botName, Some(envelope.messageTs));
    var sourceEvent := BuildInteractiveMessageSourceEvent(envelope, credentials.token);
    NoEventData.(
      kind := Some("message"),
      agent := Some("botbuilder"),
      source := Some(address.channelId),
      address := Some(address),
      timestamp := Some(envelope.actionTs),
      sourceEvent := Some(sourceEvent.slack),
      text := Some(value),
      user := Some(address.user))
  }

  /**
   * `InteractiveMessageInteractor.call`: a foreign token is rejected; a
   * payload without actions fails when `actions[0].value` is read; otherwise
   * exactly one event and no response.
   */
  function Call(settings: Settings, envelope: InteractiveEnvelope): (r: Result<InteractorResult, Error>)
    ensures !IsValidEnvelope(envelope.token, settings.verificationToken) ==> r == Err(Unauthorized)
    ensures IsValidEnvelope(envelope.token, settings.verificationToken) && |envelope.actions| == 0 ==> r == Err(TypeError)
    ensures IsValidEnvelope(envelope.token, settings.verificationToken) && |envelope.actions| > 0 ==>
      r.Ok? && r.value.response.None? && |r.value.events| == 1 &&
      var e := r.value.events[0];
      var credentials := settings.botLookup(envelope.teamId);
      e.kind == Some("message") &&
      e.text == Some(envelope.actions[0].value) &&
      e.timestamp == Some(envelope.actionTs) &&
      e.address.Some? && e.user == Some(e.address.value.user) &&
      e.address.value.id == (if envelope.messageTs != "" then Some(envelope.messageTs) else None) &&
      e.address.value.user == BuildUserIdentity(envelope.userId, envelope.teamId) &&
      e.address.value.conversation == Some(BuildConversationIdentity(envelope.channelId, credentials.botIdentifier)) &&
      e.address.value.bot == BuildBotIdentity(credentials.botIdentifier, settings.botName) &&
      e.sourceEvent == Some(Payload(envelope, credentials.token))
  {
    if !IsValidEnvelope(envelope.token, settings.verificationToken) then Err(Unauthorized)
    else
      var credentials := settings.botLookup(envelope.teamId);
      if |envelope.actions| == 0 then Err(TypeError)
      else Ok(InteractorResult([MessageEventOf(envelope, credentials, settings.botName, envelope.actions[0].value)], None))
  }
}
