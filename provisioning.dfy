/**
 * The `create` command: derive the channel name, create the private channel
 * (or find the existing one), then invite, set the purpose and post, each as
 * its own best-effort step.  Every run yields the requests it issued, in
 * order, and the log events it wrote.
 */
module Provisioning {
  import opened Wrappers
  import opened SlackApi
  import opened ChannelName
  import opened ChannelLookup

  datatype Level = Info | Warning | Error

  /** What each log line reports; the exact wording is not modelled. */
  datatype Message =
    | WouldCreate(name: string)
    | Created(name: string)
    | CreateRejected(name: string)
    | NotContinuing
    | WouldInvite(otherName: string)
    | Invited
    | InviteRejected
    | WouldSetPurpose(purpose: string)
    | PurposeSet
    | PurposeRejected
    | WouldPost(text: string)
    | Posted
    | PostRejected
    | Ready(channelName: string)

  datatype LogEvent = LogEvent(level: Level, message: Message)

  /** The create request for the derived name. */
  function CreateRequest(name: string): (request: Call)
  {
    ConversationsCreate(name, true)
  }

  /** The channel `create_private_channel` hands back: the new one, or the fallback lookup's answer. */
  function ObtainedChannel(api: Api, name: string): (channel: Option<Channel>)
  {
    if api.accepts(CreateRequest(name)) then Some(api.created(name))
    else FirstNamed(api.listing(PrivateOnly), StripLeading('#', name))
  }

  /**
   * The channel in hand after the create step: the created record when the
   * create is accepted; otherwise a private channel listed under the derived
   * name (less one leading `#`), and none exactly when no such channel is listed.
   */
  lemma ObtainedChannelCases(api: Api, name: string)
    ensures api.accepts(CreateRequest(name)) ==> ObtainedChannel(api, name) == Some(api.created(name))
    ensures var listing, wanted := api.listing(PrivateOnly), StripLeading('#', name);
      !api.accepts(CreateRequest(name)) ==>
        && (ObtainedChannel(api, name).None? <==> forall i :: 0 <= i < |listing| ==> listing[i].name != wanted)
        && (ObtainedChannel(api, name).Some? ==>
              ObtainedChannel(api, name).value in listing && ObtainedChannel(api, name).value.name == wanted)
  {
  }

  /** The requests `create_private_channel` issues: the create, then a private-only listing if it was rejected. */
  function CreateCalls(api: Api, name: string): (r: seq<Call>)
    ensures |r| > 0 && r[0] == CreateRequest(name)
    ensures |r| == (if api.accepts(CreateRequest(name)) then 1 else 2)
    ensures |r| == 2 ==> r[1] == ConversationsList(PrivateOnly)
  {
    if api.accepts(CreateRequest(name)) then [CreateRequest(name)]
    else [CreateRequest(name), ConversationsList(PrivateOnly)]
  }

  /** The one event `create_private_channel` logs: success, or an error before the fallback. */
  function CreateLog(api: Api, name: string): (r: seq<LogEvent>)
    ensures |r| == 1
    ensures r[0].level == Info <==> api.accepts(CreateRequest(name))
    ensures r[0].level == Error <==> !api.accepts(CreateRequest(name))
  {
    if api.accepts(CreateRequest(name)) then [LogEvent(Info, Created(name))]
    else [LogEvent(Error, CreateRejected(name))]
  }

  /**
   * `create_private_channel`: on acceptance the created record; on an API
   * error the first private channel named like the request (may be none).
   */
  method CreatePrivateChannel(api: Api, newChannelName: string)
    returns (channel: Option<Channel>, calls: seq<Call>, log: seq<LogEvent>)
    ensures channel == ObtainedChannel(api, newChannelName)
    ensures calls == CreateCalls(api, newChannelName)
    ensures log == CreateLog(api, newChannelName)
  {
    var request := CreateRequest(newChannelName);
    if api.accepts(request) {
      log := [LogEvent(Info, Created(newChannelName))];
      return Some(api.created(newChannelName)), [request], log;
    }
    log := [LogEvent(Error, CreateRejected(newChannelName))];
    var lookupCalls;
    channel, lookupCalls := FindChannelByName(api, newChannelName, false);
    calls := [request] + lookupCalls;
  }

  /** The log event one best-effort step writes: info if the platform accepted its request, a warning if not. */
  function Acknowledge(api: Api, step: Call): (e: LogEvent)
    requires step.IsChannelStep()
    ensures e.level == Info <==> api.accepts(step)
    ensures e.level == Warning <==> !api.accepts(step)
  {
    var accepted := api.accepts(step);
    match step
    case ConversationsInvite(_, _) =>
      if accepted then LogEvent(Info, Invited) else LogEvent(Warning, InviteRejected)
    case ConversationsSetPurpose(_, _) =>
      if accepted then LogEvent(Info, PurposeSet) else LogEvent(Warning, PurposeRejected)
    case ChatPostMessage(_, _, _) =>
      if accepted then LogEvent(Info, Posted) else LogEvent(Warning, PostRejected)
  }

  /** `invite_user`: one invite request; a rejection is only a warning. */
  method InviteUser(api: Api, channelId: string, memberId: string)
    returns (calls: seq<Call>, log: seq<LogEvent>)
    ensures calls == [ConversationsInvite(channelId, memberId)]
    ensures log == [Acknowledge(api, calls[0])]
  {
    var request := ConversationsInvite(channelId, memberId);
    calls := [request];
    if api.accepts(request) {
      log := [LogEvent(Info, Invited)];
    } else {
      log := [LogEvent(Warning, InviteRejected)];
    }
  }

  /** `set_channel_purpose`: one set-purpose request; a rejection is only a warning. */
  method SetChannelPurpose(api: Api, channelId: string, purpose: string)
    returns (calls: seq<Call>, log: seq<LogEvent>)
    ensures calls == [ConversationsSetPurpose(channelId, purpose)]
    ensures log == [Acknowledge(api, calls[0])]
  {
    var request := ConversationsSetPurpose(channelId, purpose);
    calls := [request];
    if api.accepts(request) {
      log := [LogEvent(Info, PurposeSet)];
    } else {
      log := [LogEvent(Warning, PurposeRejected)];
    }
  }

  /** `post_first_message`: one post request, as the token's user; a rejection is only a warning. */
  method PostFirstMessage(api: Api, channelId: string, text: string)
    returns (calls: seq<Call>, log: seq<LogEvent>)
    ensures calls == [ChatPostMessage(channelId, text, true)]
    ensures log == [Acknowledge(api, calls[0])]
  {
    var request := ChatPostMessage(channelId, text, true);
    calls := [request];
    if api.accepts(request) {
      log := [LogEvent(Info, Posted)];
    } else {
      log := [LogEvent(Warning, PostRejected)];
    }
  }

  /**
   * The best-effort requests once a channel is in hand.  It takes no oracle:
   * which of them are issued never depends on how an earlier one fared.
   */
  function StepCalls(channelId: string, otherId: string, purpose: string, firstMessage: string): (steps: seq<Call>)
  {
    [ConversationsInvite(channelId, otherId)]
    + (if purpose != "" then [ConversationsSetPurpose(channelId, purpose)] else [])
    + (if firstMessage != "" then [ChatPostMessage(channelId, firstMessage, true)] else [])
  }

  /**
   * Once a channel is in hand: the invite always comes first, set-purpose is
   * requested exactly when a purpose is given and comes next, the post exactly
   * when a message is given and comes last, and every request names the channel.
   */
  lemma StepCallsOrder(channelId: string, otherId: string, purpose: string, firstMessage: string)
    ensures var r := StepCalls(channelId, otherId, purpose, firstMessage);
      && |r| == 1 + (if purpose != "" then 1 else 0) + (if firstMessage != "" then 1 else 0)
      && r[0] == ConversationsInvite(channelId, otherId)
      && (forall i :: 0 <= i < |r| ==> r[i].IsChannelStep() && r[i].channel == channelId)
      && (ConversationsSetPurpose(channelId, purpose) in r <==> purpose != "")
      && (purpose != "" ==> r[1] == ConversationsSetPurpose(channelId, purpose))
      && (ChatPostMessage(channelId, firstMessage, true) in r <==> firstMessage != "")
      && (firstMessage != "" ==> r[|r| - 1] == ChatPostMessage(channelId, firstMessage, true))
  {
  }

  /**
   * What the best-effort steps log: one acknowledgement per request of
   * StepCalls, in the same order.
   */
  function StepLog(api: Api, channelId: string, otherId: string, purpose: string, firstMessage: string): (log: seq<LogEvent>)
  {
    [Acknowledge(api, ConversationsInvite(channelId, otherId))]
    + (if purpose != "" then [Acknowledge(api, ConversationsSetPurpose(channelId, purpose))] else [])
    + (if firstMessage != "" then [Acknowledge(api, ChatPostMessage(channelId, firstMessage, true))] else [])
  }

  /**
   * Each best-effort request is acknowledged by exactly one event, at the
   * same position: info if the platform accepted it, a warning if not — never
   * an error, so no step's failure is treated as fatal.
   */
  lemma StepLogAcknowledgesEachCall(api: Api, channelId: string, otherId: string, purpose: string, firstMessage: string)
    ensures var steps := StepCalls(channelId, otherId, purpose, firstMessage);
      var r := StepLog(api, channelId, otherId, purpose, firstMessage);
      && |r| == |steps|
      && forall i :: 0 <= i < |r| ==>
           r[i] == Acknowledge(api, steps[i]) && (r[i].level == Info <==> api.accepts(steps[i]))
  {
    StepCallsOrder(channelId, otherId, purpose, firstMessage);
  }

  /** What a dry run reports: the create and the invite always, purpose and message only when given. */
  function DryRunLog(name: string, otherName: string, purpose: string, firstMessage: string): (log: seq<LogEvent>)
  {
    [LogEvent(Info, WouldCreate(name))] + DryRunStepLog(otherName, purpose, firstMessage)
  }

  /** What a dry run reports after the create: the invite, then purpose and message when given. */
  function DryRunStepLog(otherName: string, purpose: string, firstMessage: string): (log: seq<LogEvent>)
  {
    [LogEvent(Info, WouldInvite(otherName))]
    + (if purpose != "" then [LogEvent(Info, WouldSetPurpose(purpose))] else [])
    + (if firstMessage != "" then [LogEvent(Info, WouldPost(firstMessage))] else [])
  }

  /**
   * A dry run only writes info events: one for the create, one for the
   * invite, and one each for the purpose and the message exactly when given.
   */
  lemma DryRunLogReportsRequestedSteps(name: string, otherName: string, purpose: string, firstMessage: string)
    ensures var r := DryRunLog(name, otherName, purpose, firstMessage);
      && |r| == 2 + (if purpose != "" then 1 else 0) + (if firstMessage != "" then 1 else 0)
      && (forall i :: 0 <= i < |r| ==> r[i].level == Info)
      && r[0].message == WouldCreate(name) && r[1].message == WouldInvite(otherName)
      && (LogEvent(Info, WouldSetPurpose(purpose)) in r <==> purpose != "")
      && (LogEvent(Info, WouldPost(firstMessage)) in r <==> firstMessage != "")
  {
  }

  /**
   * The requests the `create` command issues for the derived channel name:
   * none in a dry run; otherwise the create (with its fallback), then, only
   * if a channel was obtained, the best-effort steps against its id.
   */
  function ProvisionCalls(api: Api, name: string, otherId: string,
                          purpose: string, firstMessage: string, dryRun: bool): (calls: seq<Call>)
  {
    if dryRun then []
    else
      var channel := ObtainedChannel(api, name);
      if channel.None? then CreateCalls(api, name)
      else CreateCalls(api, name) + StepCalls(channel.value.id, otherId, purpose, firstMessage)
  }

  /** The events the `create` command logs for the derived channel name. */
  function ProvisionLog(api: Api, name: string, otherName: string, otherId: string,
                        purpose: string, firstMessage: string, dryRun: bool): (log: seq<LogEvent>)
  {
    if dryRun then DryRunLog(name, otherName, purpose, firstMessage)
    else
      var channel := ObtainedChannel(api, name);
      if channel.None? then CreateLog(api, name) + [LogEvent(Error, NotContinuing)]
      else CreateLog(api, name) + StepLog(api, channel.value.id, otherId, purpose, firstMessage)
           + [LogEvent(Info, Ready(channel.value.name))]
  }

  /** A dry run issues no request and logs only info events, one per step it would have taken. */
  lemma DryRunIssuesNoCalls(api: Api, name: string, otherName: string, otherId: string,
                            purpose: string, firstMessage: string)
    ensures ProvisionCalls(api, name, otherId, purpose, firstMessage, true) == []
    ensures var log := ProvisionLog(api, name, otherName, otherId, purpose, firstMessage, true);
      && |log| == 2 + (if purpose != "" then 1 else 0) + (if firstMessage != "" then 1 else 0)
      && forall i :: 0 <= i < |log| ==> log[i].level == Info
  {
    DryRunLogReportsRequestedSteps(name, otherName, purpose, firstMessage);
  }

  /**
   * When neither the create nor the fallback lookup yields a channel, nothing
   * but the create and the lookup is requested, and the run ends on an error.
   */
  lemma NoChannelNoFurtherCalls(api: Api, name: string, otherName: string, otherId: string,
                                purpose: string, firstMessage: string)
    requires ObtainedChannel(api, name).None?
    ensures var calls := ProvisionCalls(api, name, otherId, purpose, firstMessage, false);
      && calls == [CreateRequest(name), ConversationsList(PrivateOnly)]
      && forall i :: 0 <= i < |calls| ==> !calls[i].IsChannelStep()
    ensures var log := ProvisionLog(api, name, otherName, otherId, purpose, firstMessage, false);
      log == [LogEvent(Error, CreateRejected(name)), LogEvent(Error, NotContinuing)]
  {
  }

  /**
   * With a channel in hand, the create (and any fallback) is followed by the
   * invite, then set-purpose and post when given, all against that channel's
   * id, and the run ends by reporting the channel ready.
   */
  lemma StepsTargetObtainedChannel(api: Api, name: string, otherName: string, otherId: string,
                                   purpose: string, firstMessage: string)
    requires ObtainedChannel(api, name).Some?
    ensures var channel := ObtainedChannel(api, name).value;
      var calls := ProvisionCalls(api, name, otherId, purpose, firstMessage, false);
      var k := |CreateCalls(api, name)|;
      && calls[0] == CreateRequest(name)
      && k < |calls| && calls[k] == ConversationsInvite(channel.id, otherId)
      && (forall i :: k <= i < |calls| ==> calls[i].IsChannelStep() && calls[i].channel == channel.id)
      && (ConversationsSetPurpose(channel.id, purpose) in calls[k..] <==> purpose != "")
      && (ChatPostMessage(channel.id, firstMessage, true) in calls[k..] <==> firstMessage != "")
      && calls[k..] == StepCalls(channel.id, otherId, purpose, firstMessage)
    ensures var channel := ObtainedChannel(api, name).value;
      var log := ProvisionLog(api, name, otherName, otherId, purpose, firstMessage, false);
      log[|log| - 1] == LogEvent(Info, Ready(channel.name))
  {
    var channel := ObtainedChannel(api, name).value;
    var calls := ProvisionCalls(api, name, otherId, purpose, firstMessage, false);
    var k := |CreateCalls(api, name)|;
    StepCallsOrder(channel.id, otherId, purpose, firstMessage);
    assert calls[k..] == StepCalls(channel.id, otherId, purpose, firstMessage);
  }

  /**
   * Best effort: how the platform answers the invite, set-purpose and post
   * requests never changes which requests are made.  Two platforms that agree
   * on the create step give the same request sequence.
   */
  lemma StepOutcomesDoNotChangeCalls(api1: Api, api2: Api, name: string, otherId: string,
                                     purpose: string, firstMessage: string, dryRun: bool)
    requires api1.accepts(CreateRequest(name)) == api2.accepts(CreateRequest(name))
    requires ObtainedChannel(api1, name) == ObtainedChannel(api2, name)
    ensures ProvisionCalls(api1, name, otherId, purpose, firstMessage, dryRun)
         == ProvisionCalls(api2, name, otherId, purpose, firstMessage, dryRun)
  {
  }

  /**
   * The part of `create` after the create step: invite, then purpose and
   * message when given, each reported in a dry run or requested against the
   * obtained channel otherwise, whatever became of the earlier ones.
   */
  method FollowUp(api: Api, channelInfo: Option<Channel>, otherName: string, otherId: string,
                  purpose: string, firstMessage: string, dryRun: bool)
    returns (calls: seq<Call>, log: seq<LogEvent>)
    requires dryRun || channelInfo.Some?
    ensures dryRun ==> calls == [] && log == DryRunStepLog(otherName, purpose, firstMessage)
    ensures !dryRun ==>
      && calls == StepCalls(channelInfo.value.id, otherId, purpose, firstMessage)
      && log == StepLog(api, channelInfo.value.id, otherId, purpose, firstMessage)
              + [LogEvent(Info, Ready(channelInfo.value.name))]
  {
    calls, log := [], [];
    if dryRun {
      log := log + [LogEvent(Info, WouldInvite(otherName))];
    } else {
      var c, l := InviteUser(api, channelInfo.value.id, otherId);
      calls, log := calls + c, log + l;
    }

    if purpose != "" {
      if dryRun {
        log := log + [LogEvent(Info, WouldSetPurpose(purpose))];
      } else {
        var c, l := SetChannelPurpose(api, channelInfo.value.id, purpose);
        calls, log := calls + c, log + l;
      }
    }

    if firstMessage != "" {
      if dryRun {
        log := log + [LogEvent(Info, WouldPost(firstMessage))];
      } else {
        var c, l := PostFirstMessage(api, channelInfo.value.id, firstMessage);
        calls, log := calls + c, log + l;
      }
    }

    if !dryRun {
      log := log + [LogEvent(Info, Ready(channelInfo.value.name))];
    }
  }

  /**
   * The `create` command once the channel name is derived, run against the
   * platform `api`.  `purpose` and `firstMessage` are "" when not given.
   */
  method Provision(api: Api, newChannelName: string, otherName: string, otherId: string,
                   purpose: string, firstMessage: string, dryRun: bool)
    returns (calls: seq<Call>, log: seq<LogEvent>)
    ensures calls == ProvisionCalls(api, newChannelName, otherId, purpose, firstMessage, dryRun)
    ensures log == ProvisionLog(api, newChannelName, otherName, otherId, purpose, firstMessage, dryRun)
  {
    var channelInfo: Option<Channel> := None;
    calls, log := [], [];

    if dryRun {
      log := log + [LogEvent(Info, WouldCreate(newChannelName))];
    } else {
      var c, l;
      channelInfo, c, l := CreatePrivateChannel(api, newChannelName);
      calls, log := calls + c, log + l;
    }

    if channelInfo.None? && !dryRun {
      log := log + [LogEvent(Error, NotContinuing)];
      return;
    }

    var c, l := FollowUp(api, channelInfo, otherName, otherId, purpose, firstMessage, dryRun);
    calls, log := calls + c, log + l;
  }

  /** The `create` command: the channel is named after the two people, in either order. */
  method Create(api: Api, otherName: string, otherId: string, myName: string,
                purpose: string, firstMessage: string, dryRun: bool)
    returns (calls: seq<Call>, log: seq<LogEvent>)
    ensures calls == ProvisionCalls(api, FormatChannelName(myName, otherName), otherId, purpose, firstMessage, dryRun)
    ensures log == ProvisionLog(api, FormatChannelName(myName, otherName), otherName, otherId, purpose, firstMessage, dryRun)
    ensures calls == ProvisionCalls(api, FormatChannelName(otherName, myName), otherId, purpose, firstMessage, dryRun)
  {
    var newChannelName := FormatChannelName(myName, otherName);
    FormatChannelNameCommutes(myName, otherName);
    calls, log := Provision(api, newChannelName, otherName, otherId, purpose, firstMessage, dryRun);
  }
}
