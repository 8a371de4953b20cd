/** The event types the adapter classifies inbound Slack events by. */
module Constants {

  /** Channel life-cycle events, routed as botbuilder conversation updates. */
  const ConversationUpdateEvents: seq<string> := [
    "channel_archive",
    "channel_created",
    "channel_deleted",
    "channel_rename",
    "channel_unarchive",
    "group_archive",
    "group_rename",
    "group_unarchive",
    "member_joined_channel",
    "member_left_channel"
  ]

  /** Installation events. */
  const InstallationUpdateEvents: seq<string> := ["app_uninstalled"]

  /** The two lists have no name in common, and `message` is in neither. */
  lemma ClassificationListsDisjoint()
    ensures |ConversationUpdateEvents| == 10 && |InstallationUpdateEvents| == 1
    ensures forall x :: x in ConversationUpdateEvents ==> x !in InstallationUpdateEvents
    ensures "message" !in ConversationUpdateEvents && "message" !in InstallationUpdateEvents
    ensures "member_joined_channel" in ConversationUpdateEvents && "member_left_channel" in ConversationUpdateEvents
  {
  }

  /** The conversation-update names are pairwise distinct. */
  lemma ConversationUpdateEventsDistinct()
    ensures forall i, j :: 0 <= i < j < |ConversationUpdateEvents| ==> ConversationUpdateEvents[i] != ConversationUpdateEvents[j]
  {
  }
}
