/**
 * The fluent event builders: `Event` and its subclasses
 * `ConversationUpdateEvent`, `InstallationUpdateEvent` and `CommandEvent`,
 * here one class whose named constructors set the event type.
 */
module Events {
  import opened Wrappers
  import Types

  const ConversationUpdateType := "conversationUpdate"
  const InstallationUpdateType := "installationUpdate"
  const CommandType := "slackCommand"

  /** What every new event starts with. */
  const NewEventData := Types.NoEventData.(source := Some("slack"), agent := Some("botbuilder"))

  class Event {
    var data: Types.EventData

    /** A plain event: source `slack`, agent `botbuilder`, nothing else. */
    constructor ()
      ensures data == NewEventData
    {
      data := NewEventData;
    }

    constructor ConversationUpdate()
      ensures data == NewEventData.(kind := Some(ConversationUpdateType))
    {
      data := NewEventData.(kind := Some(ConversationUpdateType));
    }

    constructor InstallationUpdate()
      ensures data == NewEventData.(kind := Some(InstallationUpdateType))
    {
      data := NewEventData.(kind := Some(InstallationUpdateType));
    }

    constructor Command()
      ensures data == NewEventData.(kind := Some(CommandType))
    {
      data := NewEventData.(kind := Some(CommandType));
    }

    /** Sets the address and, from it, the event's user. */
    method Address(address: Types.SlackAddress) returns (self: Event)
      modifies this
      ensures self == this
      ensures data == old(data).(address := Some(address), user := Some(address.user))
    {
      data := data.(address := Some(address), user := Some(address.user));
      self := this;
    }

    method Timestamp(timestamp: string) returns (self: Event)
      modifies this
      ensures self == this
      ensures data == old(data).(timestamp := Some(timestamp))
    {
      data := data.(timestamp := Some(timestamp));
      self := this;
    }

    method SourceEvent(sourceEvent: Types.SourceEvent) returns (self: Event)
      modifies this
      ensures self == this
      ensures data == old(data).(sourceEvent := Some(sourceEvent))
    {
      data := data.(sourceEvent := Some(sourceEvent));
      self := this;
    }

    method MembersAdded(membersAdded: seq<Types.Identity>) returns (self: Event)
      requires data.kind == Some(ConversationUpdateType)
      modifies this
      ensures self == this
      ensures data == old(data).(membersAdded := Some(membersAdded))
    {
      data := data.(membersAdded := Some(membersAdded));
      self := this;
    }

    method MembersRemoved(membersRemoved: seq<Types.Identity>) returns (self: Event)
      requires data.kind == Some(ConversationUpdateType)
      modifies this
      ensures self == this
      ensures data == old(data).(membersRemoved := Some(membersRemoved))
    {
      data := data.(membersRemoved := Some(membersRemoved));
      self := this;
    }

    method Action(action: string) returns (self: Event)
      requires data.kind == Some(InstallationUpdateType)
      modifies this
      ensures self == this
      ensures data == old(data).(action := Some(action))
    {
      data := data.(action := Some(action));
      self := this;
    }

    /** The accumulated event. */
    method ToEvent() returns (e: Types.EventData)
      ensures e == data
    {
      e := data;
    }
  }
}
