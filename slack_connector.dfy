/**
 * `SlackConnector`: the botbuilder connector. It holds the registered
 * handlers, answers Slack's HTTP requests, dispatches the resulting events
 * and posts outbound messages one at a time.
 */
module Connector {
  import opened Wrappers
  import opened Strings
  import opened Types
  import opened Utils
  import EventInteractor
  import InteractiveMessageInteractor
  import OAuthInteractor

  /** The Web API call `getChannel` makes for a conversation. */
  datatype ChannelLookup = ChannelsInfo(channel: string) | GroupsInfo(channel: string) | NoLookup

  /**
   * `getChannel`'s switch on the first character of the channel id: `C` asks
   * `channels.info`, `G` asks `groups.info`, anything else resolves to
   * nothing; a conversation id without a channel part throws.
   */
  function GetChannelLookup(conversationId: string): (r: Result<ChannelLookup, Error>)
    ensures r == Err(TypeError) <==> DecomposeConversationId(conversationId).channel.None?
    ensures forall c :: r == Ok(ChannelsInfo(c)) <==>
      DecomposeConversationId(conversationId).channel == Some(c) && |c| > 0 && c[0] == 'C'
    ensures forall c :: r == Ok(GroupsInfo(c)) <==>
      DecomposeConversationId(conversationId).channel == Some(c) && |c| > 0 && c[0] == 'G'
  {
    match DecomposeConversationId(conversationId).channel
    case None => Err(TypeError)
    case Some(channel) =>
      if |channel| == 0 then Ok(NoLookup)
      else if channel[0] == 'C' then Ok(ChannelsInfo(channel))
      else if channel[0] == 'G' then Ok(GroupsInfo(channel))
      else Ok(NoLookup)
  }

  /** The channel lookup of a conversation the adapter built agrees with its `isGroup` flag. */
  lemma ChannelLookupAgreesWithIsGroup(b: string, t: string, channel: string)
    requires IsPlainId(b) && IsPlainId(t) && IsPlainId(channel)
    ensures var conversation := BuildConversationIdentity(channel, b + ":" + t);
      GetChannelLookup(conversation.id).Ok? &&
      (GetChannelLookup(conversation.id).value != NoLookup <==> conversation.isGroup)
  {
    ConversationIdRoundTrip(b, t, channel);
  }

  /** `{id: ts, ...address}`: the post timestamp, unless the address already has an id. */
  function EchoAddress(address: SlackAddress, ts: string): (r: SlackAddress)
    ensures r.channelId == address.channelId && r.user == address.user && r.bot == address.bot
    ensures r.conversation == address.conversation
    ensures r.id == (if address.id.Some? then address.id else Some(ts))
  {
    if address.id.Some? then address else address.(id := Some(ts))
  }

  /** `chat.postMessage`'s answer to the `k`-th message's request. */
  type PostMessage = (nat, PostRequest) -> PostResponse

  /** The outcome of one message: its address or the error, and the request posted, if any. */
  datatype SendStep = SendStep(result: Result<SlackAddress, Error>, request: Option<PostRequest>)

  /** The team's API token, when the conversation id names a team. */
  function TokenFor(settings: Settings, ids: ConversationIdentifier): Option<string>
  {
    if Truthy(ids.team) then Some(settings.botLookup(ids.team.value).token) else None
  }

  /** `(!message.text || message.text === "") && !message.attachments` is false. */
  predicate HasContent(message: OutboundMessage)
  {
    Truthy(message.text) || message.attachments.Some?
  }

  /** A message `send` posts: not an end of conversation, addressed, with readable content. */
  predicate IsPostable(message: OutboundMessage)
  {
    message.kind != "endOfConversation" && message.address.conversation.Some? &&
    HasContent(message) && SlackAttachments(message).Ok?
  }

  /**
   * What the body of `send`'s mapper does with the `k`-th message; its cases
   * are stated by `SendOneCases`.
   */
  function SendOne(settings: Settings, message: OutboundMessage, k: nat, post: PostMessage): (s: SendStep)
    ensures message.kind == "endOfConversation" ==> s == SendStep(Ok(message.address), None)
    ensures s.result.Ok? ==> Answers(s.result.value, message)
    ensures s.result.Ok? ==> (s.request.Some? <==> message.kind != "endOfConversation")
  {
    var address := message.address;
    if message.kind == "endOfConversation" then SendStep(Ok(address), None)
    else if address.conversation.None? then SendStep(Err(TypeError), None)
    else
      var ids := DecomposeConversationId(address.conversation.value.id);
      if !HasContent(message) then SendStep(Err(Failure(Some(NoContentMessage))), None)
      else if SlackAttachments(message).Err? then SendStep(Err(TypeError), None)
      else
        var request := PostRequest(TokenFor(settings, ids), PostMessageParams(ids.channel, SlackAttachments(message).value));
        var response := post(k, request);
        if response.ok then SendStep(Ok(EchoAddress(address, response.ts)), Some(request))
        else SendStep(Err(Failure(response.message)), Some(request))
  }

  /**
   * One message of `send`: an end of conversation is echoed and posts
   * nothing; a message without a conversation throws; a message without
   * content fails with the no-content message; an unreadable card throws;
   * otherwise the serialised message is posted to the decoded channel with
   * the team's token, and the answer's `ok` decides between the echoed
   * address and a failure carrying the answer's error message.
   */
  lemma SendOneCases(settings: Settings, message: OutboundMessage, k: nat, post: PostMessage)
    ensures var s := SendOne(settings, message, k, post);
      message.kind != "endOfConversation" && message.address.conversation.None? ==> s == SendStep(Err(TypeError), None)
    ensures var s := SendOne(settings, message, k, post);
      (message.kind != "endOfConversation" && message.address.conversation.Some? && !HasContent(message)) ==>
        s == SendStep(Err(Failure(Some(NoContentMessage))), None)
    ensures var s := SendOne(settings, message, k, post);
      (message.kind != "endOfConversation" && message.address.conversation.Some? && HasContent(message) &&
        SlackAttachments(message).Err?) ==> s == SendStep(Err(TypeError), None)
    ensures SendOne(settings, message, k, post).request.Some? <==> IsPostable(message)
    ensures var s := SendOne(settings, message, k, post);
      IsPostable(message) ==>
        var ids := DecomposeConversationId(message.address.conversation.value.id);
        s.request == Some(PostRequest(TokenFor(settings, ids), PostMessageParams(ids.channel, SlackAttachments(message).value))) &&
        var response := post(k, s.request.value);
        (response.ok ==> s.result == Ok(EchoAddress(message.address, response.ts))) &&
        (!response.ok ==> s.result == Err(Failure(response.message)))
  {
  }

  /** The addresses (or the first error) and the requests posted, in order. */
  datatype SendOutcome = SendOutcome(result: Result<seq<SlackAddress>, Error>, requests: seq<PostRequest>)

  function Posted(step: SendStep): seq<PostRequest>
  {
    if step.request.Some? then [step.request.value] else []
  }

  /** `rest` preceded by addresses already produced and requests already posted. */
  function Preceded(addresses: seq<SlackAddress>, requests: seq<PostRequest>, rest: SendOutcome): SendOutcome
  {
    SendOutcome(if rest.result.Ok? then Ok(addresses + rest.result.value) else rest.result, requests + rest.requests)
  }

  lemma PrecededByNothing(o: SendOutcome)
    ensures Preceded([], [], o) == o
  {
    if o.result.Ok? {
      assert [] + o.result.value == o.result.value;
    }
  }

  /** Moving one answered message from the rest to the prefix does not change the outcome. */
  lemma PrecededStep(addresses: seq<SlackAddress>, requests: seq<PostRequest>, address: SlackAddress, posted: seq<PostRequest>, rest: SendOutcome)
    ensures Preceded(addresses, requests, Preceded([address], posted, rest)) ==
      Preceded(addresses + [address], requests + posted, rest)
  {
    if rest.result.Ok? {
      assert addresses + ([address] + rest.result.value) == (addresses + [address]) + rest.result.value;
    }
    assert requests + (posted + rest.requests) == (requests + posted) + rest.requests;
  }

  /** The step of every message, each computed by `SendOne` for its own index. */
  function Steps(settings: Settings, messages: seq<OutboundMessage>, post: PostMessage): (steps: seq<SendStep>)
    ensures |steps| == |messages|
    ensures forall k :: 0 <= k < |messages| ==> steps[k] == SendOne(settings, messages[k], k, post)
  {
    seq(|messages|, k requires 0 <= k < |messages| => SendOne(settings, messages[k], k, post))
  }

  /** Step `i` is the `i`-th message's `SendOne`. */
  lemma StepAt(settings: Settings, messages: seq<OutboundMessage>, post: PostMessage, i: nat)
    requires i < |messages|
    ensures Steps(settings, messages, post)[i] == SendOne(settings, messages[i], i, post)
  {
  }

  /** The steps from the `i`-th on, one at a time, stopping at the first error. */
  function Run(steps: seq<SendStep>, i: nat): SendOutcome
    requires i <= |steps|
    decreases |steps| - i
  {
    if i == |steps| then SendOutcome(Ok([]), [])
    else if steps[i].result.Err? then SendOutcome(Err(steps[i].result.error), Posted(steps[i]))
    else Preceded([steps[i].result.value], Posted(steps[i]), Run(steps, i + 1))
  }

  /** One step of a run. */
  lemma RunStep(steps: seq<SendStep>, i: nat)
    requires i < |steps|
    ensures Run(steps, i) == if steps[i].result.Err? then SendOutcome(Err(steps[i].result.error), Posted(steps[i]))
      else Preceded([steps[i].result.value], Posted(steps[i]), Run(steps, i + 1))
  {
  }

  /** The loop of `send` at a failing step: the outcome is that step's error and the requests so far. */
  lemma RunFailsAt(steps: seq<SendStep>, addresses: seq<SlackAddress>, requests: seq<PostRequest>, i: nat)
    requires i < |steps| && steps[i].result.Err?
    requires Preceded(addresses, requests, Run(steps, i)) == Run(steps, 0)
    ensures Run(steps, 0) == SendOutcome(Err(steps[i].result.error), requests + Posted(steps[i]))
  {
    RunStep(steps, i);
  }

  /** The loop of `send` at a successful step: moving it into the prefix keeps the outcome. */
  lemma RunContinuesAt(steps: seq<SendStep>, addresses: seq<SlackAddress>, requests: seq<PostRequest>, i: nat)
    requires i < |steps| && steps[i].result.Ok?
    requires Preceded(addresses, requests, Run(steps, i)) == Run(steps, 0)
    ensures Preceded(addresses + [steps[i].result.value], requests + Posted(steps[i]), Run(steps, i + 1)) == Run(steps, 0)
  {
    RunStep(steps, i);
    PrecededStep(addresses, requests, steps[i].result.value, Posted(steps[i]), Run(steps, i + 1));
  }

  /**
   * `send` from the `i`-th message on. The mapper runs with concurrency 1,
   * taken here to start a message only after the previous one succeeded, so
   * the steps after the first error are never taken.
   */
  function SendFrom(settings: Settings, messages: seq<OutboundMessage>, post: PostMessage, i: nat): SendOutcome
    requires i <= |messages|
  {
    Run(Steps(settings, messages, post), i)
  }

  /** `addresses[k]` answers `messages[k]`: same endpoints, and an existing id is kept. */
  predicate Answers(address: SlackAddress, message: OutboundMessage)
  {
    address.channelId == message.address.channelId &&
    address.user == message.address.user && address.bot == message.address.bot &&
    address.conversation == message.address.conversation &&
    (message.address.id.Some? ==> address.id == message.address.id) &&
    (message.kind == "endOfConversation" ==> address == message.address)
  }

  /** A successful step answers its message and posts unless the message ends the conversation. */
  predicate StepAnswers(step: SendStep, message: OutboundMessage)
  {
    step.result.Ok? ==>
      Answers(step.result.value, message) &&
      |Posted(step)| == if message.kind == "endOfConversation" then 0 else 1
  }

  /** The messages from `i` on that are posted (all but the end-of-conversation ones). */
  function PostedCount(messages: seq<OutboundMessage>, i: nat): nat
    requires i <= |messages|
    decreases |messages| - i
  {
    if i == |messages| then 0
    else (if messages[i].kind == "endOfConversation" then 0 else 1) + PostedCount(messages, i + 1)
  }

  /** A run of steps that each answer their message answers every message when it succeeds. */
  lemma {:induction false} RunSucceeds(steps: seq<SendStep>, messages: seq<OutboundMessage>, i: nat)
    requires |steps| == |messages| && i <= |steps|
    requires forall k :: 0 <= k < |steps| ==> StepAnswers(steps[k], messages[k])
    ensures var o := Run(steps, i);
      o.result.Ok? ==>
        |o.result.value| == |messages| - i &&
        (forall k :: i <= k < |messages| ==> Answers(o.result.value[k - i], messages[k])) &&
        |o.requests| == PostedCount(messages, i)
    decreases |steps| - i
  {
    if i < |steps| {
      RunSucceeds(steps, messages, i + 1);
      var o, rest := Run(steps, i), Run(steps, i + 1);
      if steps[i].result.Ok? && rest.result.Ok? {
        assert StepAnswers(steps[i], messages[i]);
        assert o.result.value == [steps[i].result.value] + rest.result.value;
        forall k | i < k < |messages| ensures Answers(o.result.value[k - i], messages[k]) {
          assert o.result.value[k - i] == rest.result.value[k - (i + 1)];
        }
      }
    }
  }

  /**
   * When `send` succeeds it answers every message, in order, and posts
   * exactly once for each message that is not an end of conversation.
   */
  lemma SendSucceeds(settings: Settings, messages: seq<OutboundMessage>, post: PostMessage, i: nat)
    requires i <= |messages|
    ensures var o := SendFrom(settings, messages, post, i);
      o.result.Ok? ==>
        |o.result.value| == |messages| - i &&
        (forall k :: i <= k < |messages| ==> Answers(o.result.value[k - i], messages[k])) &&
        |o.requests| == PostedCount(messages, i)
  {
    var steps := Steps(settings, messages, post);
    forall k | 0 <= k < |steps| ensures StepAnswers(steps[k], messages[k]) {
      assert steps[k] == SendOne(settings, messages[k], k, post);
    }
    RunSucceeds(steps, messages, i);
  }

  /** A run never posts more requests than it has steps. */
  lemma {:induction false} RunPostsAtMostOncePerStep(steps: seq<SendStep>, i: nat)
    requires i <= |steps|
    ensures |Run(steps, i).requests| <= |steps| - i
    decreases |steps| - i
  {
    if i < |steps| {
      RunPostsAtMostOncePerStep(steps, i + 1);
    }
  }

  /** `send` never posts more requests than it was given messages. */
  lemma SendPostsAtMostOncePerMessage(settings: Settings, messages: seq<OutboundMessage>, post: PostMessage, i: nat)
    requires i <= |messages|
    ensures |SendFrom(settings, messages, post, i).requests| <= |messages| - i
  {
    RunPostsAtMostOncePerStep(Steps(settings, messages, post), i);
  }

  /** A message without content fails `send` at that message and posts nothing for it. */
  lemma EmptyMessageStopsSend(settings: Settings, messages: seq<OutboundMessage>, post: PostMessage, i: nat)
    requires i < |messages|
    requires messages[i].kind != "endOfConversation" && messages[i].address.conversation.Some?
    requires !Truthy(messages[i].text) && messages[i].attachments.None?
    ensures SendFrom(settings, messages, post, i) == SendOutcome(Err(Failure(Some(NoContentMessage))), [])
  {
    assert Steps(settings, messages, post)[i] == SendOne(settings, messages[i], i, post);
    SendOneCases(settings, messages[i], i, post);
  }

  /** The requests of steps `i` to `j - 1`, one after the other. */
  function RequestsOf(steps: seq<SendStep>, i: nat, j: nat): seq<PostRequest>
    requires i <= j <= |steps|
    decreases j - i
  {
    if i == j then [] else Posted(steps[i]) + RequestsOf(steps, i + 1, j)
  }

  /**
   * A run takes its steps in order and stops at the first failure: when it
   * succeeds every step succeeded and every step's request was posted; when
   * it fails, step `f` is the first that fails, its error is the result, and
   * only the requests of the steps up to `f` were posted.
   */
  lemma {:induction false} RunStopsAtFirstFailure(steps: seq<SendStep>, i: nat)
    requires i <= |steps|
    ensures var o := Run(steps, i);
      o.result.Ok? ==>
        (forall k :: i <= k < |steps| ==> steps[k].result.Ok?) && o.requests == RequestsOf(steps, i, |steps|)
    ensures var o := Run(steps, i);
      o.result.Err? ==>
        exists f :: i <= f < |steps| &&
          (forall k :: i <= k < f ==> steps[k].result.Ok?) &&
          steps[f].result == Err(o.result.error) &&
          o.requests == RequestsOf(steps, i, f + 1)
    decreases |steps| - i
  {
    if i < |steps| {
      var o := Run(steps, i);
      assert RequestsOf(steps, i + 1, i + 1) == [];
      if steps[i].result.Err? {
        assert o.requests == RequestsOf(steps, i, i + 1);
      } else {
        RunStopsAtFirstFailure(steps, i + 1);
        var rest := Run(steps, i + 1);
        assert o.requests == Posted(steps[i]) + rest.requests;
        if rest.result.Err? {
          var f :| i + 1 <= f < |steps| &&
            (forall k :: i + 1 <= k < f ==> steps[k].result.Ok?) &&
            steps[f].result == Err(rest.result.error) &&
            rest.requests == RequestsOf(steps, i + 1, f + 1);
          assert o.requests == RequestsOf(steps, i, f + 1);
        }
      }
    }
  }

  /**
   * `send` posts in message order and stops at the first failure: when it
   * succeeds every message succeeded and posted its request; when it fails,
   * message `f` is the first that fails, its error is the result, and only
   * the requests of the messages up to `f` were posted.
   */
  lemma SendStopsAtFirstFailure(settings: Settings, messages: seq<OutboundMessage>, post: PostMessage)
    ensures var o, steps := SendFrom(settings, messages, post, 0), Steps(settings, messages, post);
      o.result.Ok? ==>
        (forall k :: 0 <= k < |messages| ==> SendOne(settings, messages[k], k, post).result.Ok?) &&
        o.requests == RequestsOf(steps, 0, |messages|)
    ensures var o, steps := SendFrom(settings, messages, post, 0), Steps(settings, messages, post);
      o.result.Err? ==>
        exists f :: 0 <= f < |messages| &&
          (forall k :: 0 <= k < f ==> SendOne(settings, messages[k], k, post).result.Ok?) &&
          SendOne(settings, messages[f], f, post).result == Err(o.result.error) &&
          o.requests == RequestsOf(steps, 0, f + 1)
  {
    var steps := Steps(settings, messages, post);
    RunStopsAtFirstFailure(steps, 0);
  }

  class SlackConnector {
    const settings: Settings
    var eventHandlerSet: bool
    var invokeHandlerSet: bool
    /** The transformation registered with `onDispatch`, if any. */
    var dispatchHook: Option<seq<EventData> -> seq<EventData>>
    /** Every batch the event handler has received, oldest first. */
    var delivered: seq<seq<EventData>>

    constructor (settings: Settings)
      ensures this.settings == settings
      ensures !eventHandlerSet && !invokeHandlerSet && dispatchHook.None? && delivered == []
    {
      this.settings := settings;
      eventHandlerSet := false;
      invokeHandlerSet := false;
      dispatchHook := None;
      delivered := [];
    }

    method OnEvent()
      modifies this
      ensures eventHandlerSet
      ensures invokeHandlerSet == old(invokeHandlerSet) && dispatchHook == old(dispatchHook) && delivered == old(delivered)
    {
      eventHandlerSet := true;
    }

    method OnInvoke()
      modifies this
      ensures invokeHandlerSet
      ensures eventHandlerSet == old(eventHandlerSet) && dispatchHook == old(dispatchHook) && delivered == old(delivered)
    {
      invokeHandlerSet := true;
    }

    method OnDispatch(hook: seq<EventData> -> seq<EventData>)
      modifies this
      ensures dispatchHook == Some(hook)
      ensures eventHandlerSet == old(eventHandlerSet) && invokeHandlerSet == old(invokeHandlerSet) && delivered == old(delivered)
    {
      dispatchHook := Some(hook);
    }

    /** What the event handler receives for `events`: the hook's output when a hook is registered. */
    function Transformed(events: seq<EventData>): seq<EventData>
      reads this
    {
      if dispatchHook.Some? then dispatchHook.value(events) else events
    }

    /**
     * `dispatchEvents`: nothing for an empty list; otherwise the (possibly
     * transformed) events go to the event handler, and calling a handler
     * that was never registered throws.
     */
    method DispatchEvents(events: seq<EventData>) returns (failure: Option<Error>)
      modifies this
      ensures eventHandlerSet == old(eventHandlerSet) && invokeHandlerSet == old(invokeHandlerSet) && dispatchHook == old(dispatchHook)
      ensures |events| == 0 ==> failure.None? && delivered == old(delivered)
      ensures |events| > 0 && !eventHandlerSet ==> failure == Some(TypeError) && delivered == old(delivered)
      ensures |events| > 0 && eventHandlerSet ==> failure.None? && delivered == old(delivered) + [old(Transformed(events))]
    {
      failure := None;
      if |events| > 0 {
        var batch := events;
        if dispatchHook.Some? {
          batch := dispatchHook.value(events);
        }
        if !eventHandlerSet {
          return Some(TypeError);
        }
        delivered := delivered + [batch];
      }
    }

    /** `dispatch`: the routed events of an event callback, if any, are dispatched. */
    method Dispatch(envelope: EventEnvelope, botId: string, token: string) returns (failure: Option<Error>)
      modifies this
      ensures eventHandlerSet == old(eventHandlerSet) && invokeHandlerSet == old(invokeHandlerSet) && dispatchHook == old(dispatchHook)
      ensures !IsRoutableEvent(envelope.event) ==> failure.None? && delivered == old(delivered)
      ensures IsRoutableEvent(envelope.event) && !eventHandlerSet ==> failure == Some(TypeError) && delivered == old(delivered)
      ensures IsRoutableEvent(envelope.event) && eventHandlerSet ==> (failure.None? &&
        delivered == old(delivered) + [old(Transformed(EventInteractor.RoutedEvents(envelope, botId, token, settings.botName, false)))])
    {
      var eventsToDispatch: seq<EventData> := [];
      var event := envelope.event;
      if !IsRoutableEvent(event) {
        return None;
      }
      ClassificationFacts(event);
      if IsUserMessageEvent(event) {
        eventsToDispatch := eventsToDispatch + [EventInteractor.BuildMessageEvent(envelope, botId, token, settings.botName)];
      } else if IsConversationUpdateEvent(event) {
        var update := EventInteractor.BuildConversationUpdateEvent(envelope, botId, token, settings.botName, false);
        eventsToDispatch := eventsToDispatch + [update];
      }
      assert eventsToDispatch == EventInteractor.RoutedEvents(envelope, botId, token, settings.botName, false);
      failure := DispatchEvents(eventsToDispatch);
    }

    /**
     * `listenEvents`: 403 for a foreign token, 200 with the challenge for the
     * URL verification, dispatch and 200 for an event callback, plain 200
     * for anything else.
     */
    method ListenEvents(envelope: EventEnvelope) returns (outcome: HttpOutcome)
      modifies this
      ensures eventHandlerSet == old(eventHandlerSet) && invokeHandlerSet == old(invokeHandlerSet) && dispatchHook == old(dispatchHook)
      ensures !IsValidEnvelope(envelope.token, settings.verificationToken) ==>
        outcome == Status(403, None) && delivered == old(delivered)
      ensures IsValidEnvelope(envelope.token, settings.verificationToken) && envelope.kind == "url_verification" ==>
        outcome == Status(200, envelope.challenge) && delivered == old(delivered)
      ensures (IsValidEnvelope(envelope.token, settings.verificationToken) && envelope.kind != "url_verification" &&
        envelope.kind != "event_callback") ==> outcome == Status(200, None) && delivered == old(delivered)
      ensures IsValidEnvelope(envelope.token, settings.verificationToken) && envelope.kind == "event_callback" ==>
        var credentials := settings.botLookup(envelope.teamId);
        var routed := EventInteractor.RoutedEvents(envelope, credentials.botIdentifier, credentials.token, settings.botName, false);
        (IsRoutableEvent(envelope.event) && !eventHandlerSet ==> outcome == NoAnswer && delivered == old(delivered)) &&
        (!IsRoutableEvent(envelope.event) ==> outcome == Status(200, None) && delivered == old(delivered)) &&
        (IsRoutableEvent(envelope.event) && eventHandlerSet ==>
          outcome == Status(200, None) && delivered == old(delivered) + [old(Transformed(routed))])
    {
      if !IsValidEnvelope(envelope.token, settings.verificationToken) {
        return Status(403, None);
      }
      if envelope.kind == "url_verification" {
        return Status(200, envelope.challenge);
      } else if envelope.kind == "event_callback" {
        var credentials := settings.botLookup(envelope.teamId);
        var failure := Dispatch(envelope, credentials.botIdentifier, credentials.token);
        return if failure.None? then Status(200, None) else NoAnswer;
      } else {
        return Status(200, None);
      }
    }

    /** `listenCommands`: 403 for a foreign token; otherwise one command event, then 200. */
    method ListenCommands(envelope: CommandEnvelope) returns (outcome: HttpOutcome)
      modifies this
      ensures eventHandlerSet == old(eventHandlerSet) && invokeHandlerSet == old(invokeHandlerSet) && dispatchHook == old(dispatchHook)
      ensures !IsValidEnvelope(envelope.token, settings.verificationToken) ==>
        outcome == Status(403, None) && delivered == old(delivered)
      ensures IsValidEnvelope(envelope.token, settings.verificationToken) && !eventHandlerSet ==>
        outcome == NoAnswer && delivered == old(delivered)
      ensures IsValidEnvelope(envelope.token, settings.verificationToken) && eventHandlerSet ==>
        var credentials := settings.botLookup(envelope.teamId);
        outcome == Status(200, None) &&
        delivered == old(delivered) + [old(Transformed([BuildCommandEvent(envelope, credentials.token, credentials.botIdentifier, settings.botName)]))]
    {
      if !IsValidEnvelope(envelope.token, settings.verificationToken) {
        return Status(403, None);
      }
      var credentials := settings.botLookup(envelope.teamId);
      var event := BuildCommandEvent(envelope, credentials.token, credentials.botIdentifier, settings.botName);
      var failure := DispatchEvents([event]);
      return if failure.None? then Status(200, None) else NoAnswer;
    }

    /**
     * `listenInteractiveMessages` after the payload is parsed: 403 for a
     * foreign token; otherwise one message event with the first action's
     * value, then 200. Without actions the work throws and nothing answers.
     */
    method ListenInteractiveMessages(payload: InteractiveEnvelope) returns (outcome: HttpOutcome)
      modifies this
      ensures eventHandlerSet == old(eventHandlerSet) && invokeHandlerSet == old(invokeHandlerSet) && dispatchHook == old(dispatchHook)
      ensures !IsValidEnvelope(payload.token, settings.verificationToken) ==>
        outcome == Status(403, None) && delivered == old(delivered)
      ensures IsValidEnvelope(payload.token, settings.verificationToken) && (|payload.actions| == 0 || !eventHandlerSet) ==>
        outcome == NoAnswer && delivered == old(delivered)
      ensures IsValidEnvelope(payload.token, settings.verificationToken) && |payload.actions| > 0 && eventHandlerSet ==>
        var credentials := settings.botLookup(payload.teamId);
        var event := InteractiveMessageInteractor.MessageEventOf(payload, credentials, settings.botName, payload.actions[0].value);
        outcome == Status(200, None) && delivered == old(delivered) + [old(Transformed([event]))]
    {
      if !IsValidEnvelope(payload.token, settings.verificationToken) {
        return Status(403, None);
      }
      var credentials := settings.botLookup(payload.teamId);
      if |payload.actions| == 0 {
        return NoAnswer;
      }
      var event := InteractiveMessageInteractor.MessageEventOf(payload, credentials, settings.botName, payload.actions[0].value);
      var failure := DispatchEvents([event]);
      return if failure.None? then Status(200, None) else NoAnswer;
    }

    /**
     * `listenOAuth`: a denied authorisation redirects to the access-denied
     * page; otherwise the installation event is dispatched and the user sent
     * to the success page, or to the error page when anything throws.
     */
    method ListenOAuth(options: OAuthOptions, oauthAccess: OAuthInteractor.OAuthAccess, usersInfo: OAuthInteractor.UsersInfo)
      returns (outcome: HttpOutcome)
      modifies this
      ensures eventHandlerSet == old(eventHandlerSet) && invokeHandlerSet == old(invokeHandlerSet) && dispatchHook == old(dispatchHook)
      ensures options.error == Some("access_denied") ==>
        outcome == Redirect(settings.onOAuthAccessDeniedRedirectUrl) && delivered == old(delivered)
      ensures options.error != Some("access_denied") && OAuthInteractor.Call(settings, options, oauthAccess, usersInfo).Ok? && eventHandlerSet ==>
        outcome == Redirect(settings.onOAuthSuccessRedirectUrl) &&
        delivered == old(delivered) + [old(Transformed(OAuthInteractor.Call(settings, options, oauthAccess, usersInfo).value.events))]
      ensures options.error != Some("access_denied") && !(OAuthInteractor.Call(settings, options, oauthAccess, usersInfo).Ok? && eventHandlerSet) ==>
        outcome == Redirect(settings.onOAuthErrorRedirectUrl) && delivered == old(delivered)
    {
      if options.error == Some("access_denied") {
        return Redirect(settings.onOAuthAccessDeniedRedirectUrl);
      }
      var access := oauthAccess(settings.clientId, settings.clientSecret, options.code, settings.redirectUrl);
      if access.Err? {
        return Redirect(settings.onOAuthErrorRedirectUrl);
      }
      var event := OAuthInteractor.BuildInstallationUpdateEvent(access.value, usersInfo);
      if event.Err? {
        return Redirect(settings.onOAuthErrorRedirectUrl);
      }
      var failure := DispatchEvents([event.value]);
      if failure.Some? {
        return Redirect(settings.onOAuthErrorRedirectUrl);
      }
      return Redirect(settings.onOAuthSuccessRedirectUrl);
    }

    /**
     * The body of `send`'s mapper for the `k`-th message: an end of
     * conversation is echoed, a message without conversation or content, or
     * with a card that cannot be read, fails; anything else is posted and
     * answered with the echoed address.
     */
    method SendMessage(message: OutboundMessage, k: nat, post: PostMessage) returns (step: SendStep)
      ensures step == SendOne(settings, message, k, post)
    {
      var address := message.address;
      if message.kind == "endOfConversation" {
        return SendStep(Ok(address), None);
      }
      if address.conversation.None? {
        return SendStep(Err(TypeError), None);
      }
      var ids := DecomposeConversationId(address.conversation.value.id);
      var token := TokenFor(settings, ids);
      if !HasContent(message) {
        return SendStep(Err(Failure(Some(NoContentMessage))), None);
      }
      var slackMessage := BuildSlackMessage(ids.channel, message);
      if slackMessage.Err? {
        return SendStep(Err(slackMessage.error), None);
      }
      var request := PostRequest(token, slackMessage.value);
      var response := post(k, request);
      if response.ok {
        step := SendStep(Ok(EchoAddress(address, response.ts)), Some(request));
      } else {
        step := SendStep(Err(Failure(response.message)), Some(request));
      }
    }

    /**
     * `send`: the messages are handled strictly one after the other; the
     * result is one address per message, or the first error.
     */
    method Send(messages: seq<OutboundMessage>, post: PostMessage) returns (result: Result<seq<SlackAddress>, Error>, requests: seq<PostRequest>)
      ensures SendOutcome(result, requests) == SendFrom(settings, messages, post, 0)
    {
      var addresses: seq<SlackAddress> := [];
      requests := [];
      var i := 0;
      ghost var steps := Steps(settings, messages, post);
      PrecededByNothing(Run(steps, 0));
      while i < |messages|
        invariant 0 <= i <= |messages|
        invariant Preceded(addresses, requests, Run(steps, i)) == Run(steps, 0)
      {
        var step := SendMessage(messages[i], i, post);
        StepAt(settings, messages, post, i);
        if step.result.Err? {
          RunFailsAt(steps, addresses, requests, i);
          return Err(step.result.error), requests + Posted(step);
        }
        RunContinuesAt(steps, addresses, requests, i);
        addresses := addresses + [step.result.value];
        requests := requests + Posted(step);
        i := i + 1;
      }
      assert addresses + [] == addresses && requests + [] == requests;
      result := Ok(addresses);
    }
  }
}
