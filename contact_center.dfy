/**
 * The contact-center provider as one object whose state the event handlers
 * update in place: the current call, the presence socket, the signaling
 * user agent and the audio devices. Every asynchronous step is split at its
 * `await`: the handler runs up to the await, and the continuation is a
 * separate method that receives the awaited result as a parameter.
 */
module ContactCenter {
  import opened Wrappers
  import opened Records
  import opened Backoff
  import opened CallModel
  import opened WrapUp
  import opened AudioDevices

  /** The provider's call-related state. */
  datatype CallSlice = CallSlice(
    callState: CallState,
    session: Option<Session>,
    wasEstablished: bool,
    callUuid: Option<string>,
    queueName: Option<string>,
    callerNumber: Option<string>,
    isOutbound: bool,
    shouldDisposition: bool,
    canCallBack: bool,
    scriptData: Option<seq<Slide>>,
    productOfferings: Option<Payload>,
    campaignSettings: Option<Payload>,
    matchedContacts: Option<seq<MatchRecord>>,
    customerData: Option<CustomerRecord>,
    isHeld: bool,
    isMuted: bool)

  /** What `clearCallState` leaves behind: every call field back at its initial value. */
  const IdleCall := CallSlice(Idle, None, false, None, None, None, false, false, false,
                              None, None, None, None, None, false, false)

  /** `wsRef.current` and its `readyState`. */
  datatype SocketState = NoSocket | SocketConnecting | SocketOpen | SocketClosing

  /** `readyState` is CONNECTING or OPEN: a new socket would be redundant. */
  predicate SocketLive(s: SocketState) {
    s == SocketConnecting || s == SocketOpen
  }

  /** The presence socket's state; `retryDelay` is the pending reconnect timer. */
  datatype PresenceSlice = PresenceSlice(
    socket: SocketState,
    userId: string,
    socketToken: string,
    authenticated: bool,
    connected: bool,
    shouldReconnect: bool,
    attempts: nat,
    retryDelay: Option<nat>,
    pbx: Option<Presence>,
    stateTime: string)

  /** Which timer `sipReconnectTimeout.current` last received. */
  datatype TimerRef = NoTimerRef | RetryRef | ReconnectRef

  /**
   * The signaling state. The connect-failure retry and the disconnect
   * reconnect are two timers that share one handle, so both are kept, along
   * with which of them the handle names.
   */
  datatype SipSlice = SipSlice(
    isConfigured: bool,
    shouldReconnect: bool,
    attempts: nat,
    state: SipState,
    error: Option<string>,
    hasUserAgent: bool,
    isReconnecting: bool,
    retryDelay: Option<nat>,
    reconnectDelay: Option<nat>,
    timerRef: TimerRef,
    sessionRefreshes: nat)

  /** Devices, selections, the permission flag and the two persisted selections. */
  datatype AudioSlice = AudioSlice(
    inputs: seq<Device>,
    outputs: seq<Device>,
    selectedInput: Option<string>,
    selectedOutput: Option<string>,
    permissionGranted: bool,
    storedInput: Option<string>,
    storedOutput: Option<string>)

  /** The answer to the microphone request: refused, or granted with the device list. */
  datatype PermissionResult = PermissionDenied | PermissionGranted(devices: seq<Device>)

  /** Where the handling of the latest invite stands. */
  datatype InviteStep = NoInvite | Hydrating(queue: string, number: string) | Accepting

  predicate DelayInRange(d: Option<nat>) {
    d.Some? ==> FirstDelayMs <= d.value <= MaxDelayMs
  }

  /**
   * The call after hydration: product offerings on strict success, script and
   * campaign settings unless the reply says failure, the loaded or created
   * customer on a successful follow-up, and the candidates when several
   * customers matched. Nothing else changes.
   */
  function Hydrated(c: CallSlice, config: Reply<Payload>, script: Reply<ScriptEnvelope>, campaign: Reply<Payload>,
                    outcome: MatchOutcome, followUp: Reply<CustomerRecord>): (r: CallSlice)
    ensures r == c.(productOfferings := r.productOfferings, scriptData := r.scriptData, campaignSettings := r.campaignSettings,
                    customerData := r.customerData, matchedContacts := r.matchedContacts)
    ensures r.productOfferings != c.productOfferings ==> Succeeded(config)
    ensures r.scriptData != c.scriptData ==> NotFailed(script)
    ensures r.campaignSettings != c.campaignSettings ==> NotFailed(campaign)
    ensures r.customerData != c.customerData ==>
      (outcome.CreateNew? || outcome.LoadExisting?) && Succeeded(followUp) && r.customerData == followUp.data
    ensures r.customerData.None? ==> c.customerData.None?
    ensures r.matchedContacts != c.matchedContacts ==> outcome.Disambiguate? && r.matchedContacts == Some(outcome.candidates)
    ensures Succeeded(config) ==> r.productOfferings == config.data
    ensures NotFailed(script) ==> r.scriptData == (if script.data.Some? then script.data.value.scriptContent else None)
    ensures NotFailed(campaign) ==> r.campaignSettings == campaign.data
    ensures (outcome.CreateNew? || outcome.LoadExisting?) && Succeeded(followUp) && followUp.data.Some? ==>
      r.customerData == followUp.data
    ensures outcome.Disambiguate? ==> r.matchedContacts == Some(outcome.candidates)
  {
    var offerings := if Succeeded(config) then config.data else c.productOfferings;
    var scriptData := if NotFailed(script) then (if script.data.Some? then script.data.value.scriptContent else None)
                      else c.scriptData;
    var settings := if NotFailed(campaign) then campaign.data else c.campaignSettings;
    var customer := if (outcome.CreateNew? || outcome.LoadExisting?) && Succeeded(followUp) && followUp.data.Some?
                    then followUp.data else c.customerData;
    var matched := if outcome.Disambiguate? then Some(outcome.candidates) else c.matchedContacts;
    c.(productOfferings := offerings, scriptData := scriptData, campaignSettings := settings,
       customerData := customer, matchedContacts := matched)
  }

  /**
   * One match: whatever call the replies land on, the record `/customer/load`
   * returned becomes the call's customer, and the contacts list is untouched;
   * several matches leave the customer alone and list the candidates.
   */
  lemma HydrationInstallsMatch(c: CallSlice, config: Reply<Payload>, script: Reply<ScriptEnvelope>, campaign: Reply<Payload>,
                               matchReply: Reply<seq<MatchRecord>>, followUp: Reply<CustomerRecord>)
    ensures var r := Hydrated(c, config, script, campaign, ResolveMatch(matchReply), followUp);
      && (Succeeded(matchReply) && matchReply.data.Some? && |matchReply.data.value| == 1
          && Succeeded(followUp) && followUp.data.Some? ==>
            r.customerData == followUp.data && r.matchedContacts == c.matchedContacts)
      && (Succeeded(matchReply) && matchReply.data.Some? && |matchReply.data.value| >= 2 ==>
            r.customerData == c.customerData && r.matchedContacts == Some(matchReply.data.value))
  {
  }

  /**
   * No stale-result guard: a hydration that completes after the call was
   * cleared (the caller hung up while the lookups ran) still installs the
   * customer on the idle call.
   */
  lemma HydrationAfterClearStillWrites(config: Reply<Payload>, script: Reply<ScriptEnvelope>, campaign: Reply<Payload>,
                                       matchReply: Reply<seq<MatchRecord>>, followUp: Reply<CustomerRecord>)
    requires Succeeded(matchReply) && matchReply.data == Some([])
    requires Succeeded(followUp) && followUp.data.Some?
    ensures var r := Hydrated(IdleCall, config, script, campaign, ResolveMatch(matchReply), followUp);
      r.callState == Idle && r.session.None? && r.customerData == followUp.data
  {
  }

  /** The audio state after a device-change refresh over the list `ds`. */
  function RefreshedAudio(a: AudioSlice, ds: seq<Device>): AudioSlice {
    var ins := OfKind(ds, AudioInput);
    var outs := OfKind(ds, AudioOutput);
    var ci := RefreshChoice(a.selectedInput, ins);
    var co := RefreshChoice(a.selectedOutput, outs);
    a.(inputs := ins, outputs := outs,
       selectedInput := if Truthy(ci) then ci else a.selectedInput,
       storedInput := if Truthy(ci) then ci else a.storedInput,
       selectedOutput := if Truthy(co) then co else a.selectedOutput,
       storedOutput := if Truthy(co) then co else a.storedOutput)
  }

  /**
   * A refresh relists the devices, leaves the permission alone, and moves each
   * selection exactly as the fallback rule says; a switched selection is also
   * the one persisted.
   */
  lemma RefreshedAudioMeaning(a: AudioSlice, ds: seq<Device>)
    ensures var r := RefreshedAudio(a, ds);
      && r.inputs == OfKind(ds, AudioInput) && r.outputs == OfKind(ds, AudioOutput)
      && r.permissionGranted == a.permissionGranted
      && r.selectedInput == AfterRefresh(a.selectedInput, r.inputs)
      && r.selectedOutput == AfterRefresh(a.selectedOutput, r.outputs)
      && (r.selectedInput != a.selectedInput ==> r.storedInput == r.selectedInput && HasId(r.inputs, r.selectedInput.value))
      && (r.selectedOutput != a.selectedOutput ==> r.storedOutput == r.selectedOutput && HasId(r.outputs, r.selectedOutput.value))
  {
  }

  /**
   * The call `makeCall` leaves: unchanged when it cannot dial (no user agent,
   * or no microphone permission yet), ringing out to `phone` when the INVITE
   * goes out, and cleared when building or sending it fails.
   */
  function Dialled(c: CallSlice, phone: Option<string>, canDial: bool, dialOk: bool): (r: CallSlice)
    ensures !canDial ==> r == c
    ensures canDial && !dialOk ==> r == IdleCall
    ensures canDial && dialOk ==> (
      && r.callState == RingingOut && r.isOutbound && r.callerNumber == phone
      && r.session == Some(Session(SessionInitial, true)) && !r.wasEstablished
      && r.customerData == c.customerData && r.callUuid == c.callUuid && r.queueName == c.queueName
      && r.shouldDisposition == c.shouldDisposition)
  {
    if !canDial then c
    else if dialOk then c.(wasEstablished := false, isOutbound := true, callerNumber := phone,
                           callState := RingingOut, session := Some(Session(SessionInitial, true)))
    else IdleCall
  }

  class ContactCenterProvider {
    var call: CallSlice
    var presence: PresenceSlice
    var sip: SipSlice
    var audio: AudioSlice
    var invite: InviteStep
    /** Every frame sent on the presence socket, oldest first. */
    var sent: seq<Frame>
    /** Every REST request issued, oldest first. */
    var requests: seq<ApiRequest>

    /**
     * The session's kind matches the call's direction; ringing out is outbound
     * and ringing in is not; a pending timer implies reconnection is wanted;
     * nothing of the signaling stack exists before configuration; a pending
     * reconnect means the disconnect handler is in its reconnecting phase.
     */
    ghost predicate Valid()
      reads this
    {
      && (call.session.Some? ==> (call.session.value.isInviter <==> call.isOutbound))
      && (call.callState == RingingOut ==> call.isOutbound)
      && (call.callState == RingingIn ==> !call.isOutbound)
      && (presence.retryDelay.Some? ==> presence.shouldReconnect && presence.userId != "")
      && DelayInRange(presence.retryDelay)
      && (!sip.isConfigured ==> !sip.hasUserAgent && sip.retryDelay.None? && sip.reconnectDelay.None? && !sip.isReconnecting)
      && (sip.reconnectDelay.Some? ==> sip.isReconnecting)
      && DelayInRange(sip.retryDelay)
      && DelayInRange(sip.reconnectDelay)
    }

    /** `localStorage` holds the two persisted device ids. */
    constructor (storedInput: Option<string>, storedOutput: Option<string>)
      ensures Valid()
      ensures call == IdleCall
      ensures presence == PresenceSlice(NoSocket, "", "", false, false, true, 0, None, None, "(00:00)")
      ensures sip == SipSlice(false, true, 0, SipDisconnected, None, false, false, None, None, NoTimerRef, 0)
      ensures audio == AudioSlice([], [], None, None, false, storedInput, storedOutput)
      ensures invite == NoInvite && sent == [] && requests == []
    {
      call := IdleCall;
      presence := PresenceSlice(NoSocket, "", "", false, false, true, 0, None, None, "(00:00)");
      sip := SipSlice(false, true, 0, SipDisconnected, None, false, false, None, None, NoTimerRef, 0);
      audio := AudioSlice([], [], None, None, false, storedInput, storedOutput);
      invite := NoInvite;
      sent := [];
      requests := [];
    }

    /** `updateStatus` and `sendPing` send only on an authenticated socket. */
    predicate CanSend()
      reads this
    {
      presence.socket != NoSocket && presence.authenticated
    }

    function StatusFrames(status: string): seq<Frame>
      reads this
    {
      if CanSend() then [UpdateStatusFrame(status)] else []
    }

    /** `currentCall` as the UI sees it. */
    predicate HasCurrentCall()
      reads this
    {
      CurrentCallPresent(call.callState, call.session)
    }

    // ---------------------------------------------------------------- call

    method ClearCallState()
      requires Valid()
      modifies this
      ensures Valid()
      ensures call == IdleCall
      ensures presence == old(presence) && sip == old(sip) && audio == old(audio)
      ensures invite == old(invite) && sent == old(sent) && requests == old(requests)
    {
      call := IdleCall;
    }

    method UpdateStatus(status: string)
      requires Valid()
      modifies this
      ensures Valid()
      ensures sent == old(sent) + old(StatusFrames(status))
      ensures call == old(call) && presence == old(presence) && sip == old(sip) && audio == old(audio)
      ensures invite == old(invite) && requests == old(requests)
    {
      if CanSend() {
        sent := sent + [UpdateStatusFrame(status)];
      }
    }

    method SendPing()
      requires Valid()
      modifies this
      ensures Valid()
      ensures sent == old(sent) + (if old(CanSend()) then [PingFrame] else [])
      ensures call == old(call) && presence == old(presence) && sip == old(sip) && audio == old(audio)
      ensures invite == old(invite) && requests == old(requests)
    {
      if CanSend() {
        sent := sent + [PingFrame];
      }
    }

    /**
     * The session listener. Establishment marks the call as one that needs a
     * disposition; termination of such a call keeps its data for the
     * disposition (and, for an outbound call, reports 'Wrap Up'), while
     * termination of a call that never connected clears everything.
     */
    method OnSessionStateChange(s: SessionState)
      requires Valid()
      modifies this
      ensures Valid()
      ensures s == SessionInitial ==> call == old(call) && sent == old(sent)
      ensures s == SessionEstablishing ==>
        call == old(call).(callState := Establishing, session := old(SessionAt(s))) && sent == old(sent)
      ensures s == SessionEstablished ==>
        call == old(call).(callState := Established, wasEstablished := true, session := old(SessionAt(s))) && sent == old(sent)
      ensures s == SessionTerminating ==>
        call == old(call).(callState := Terminating, session := old(SessionAt(s))) && sent == old(sent)
      ensures s == SessionTerminated && old(call.wasEstablished) ==>
        && call == old(call).(shouldDisposition := true, callState := Idle, session := None)
        && sent == old(sent) + (if old(call.isOutbound) then old(StatusFrames("Wrap Up")) else [])
      ensures s == SessionTerminated && !old(call.wasEstablished) ==>
        call == IdleCall && sent == old(sent)
      ensures presence == old(presence) && sip == old(sip) && audio == old(audio)
      ensures invite == old(invite) && requests == old(requests)
    {
      match s {
        case SessionInitial =>
        case SessionEstablishing =>
          call := call.(callState := Establishing, session := SessionAt(s));
        case SessionEstablished =>
          call := call.(callState := Established, wasEstablished := true, session := SessionAt(s));
        case SessionTerminating =>
          call := call.(callState := Terminating, session := SessionAt(s));
        case SessionTerminated =>
          if call.wasEstablished {
            call := call.(shouldDisposition := true, callState := Idle, session := None);
            if call.isOutbound {
              UpdateStatus("Wrap Up");
            }
          } else {
            ClearCallState();
          }
      }
    }

    /** The current session, moved to state `s`. */
    function SessionAt(s: SessionState): Option<Session>
      reads this
    {
      match call.session
      case Some(x) => Some(x.(state := s))
      case None => None
    }

    /**
     * `handleIncomingInvite` up to its first await: record the caller, queue
     * and UUID, ring in, and start hydration when both queue and number exist.
     */
    method ReceiveInvite(remoteUser: Option<string>, queueHeader: Option<string>, uuidHeader: Option<string>)
      requires Valid()
      modifies this
      ensures Valid()
      ensures var number := CallerNumberOf(remoteUser);
        var queue := HeaderValue(queueHeader);
        && call == old(call).(wasEstablished := false, callerNumber := Some(number), queueName := queue,
                              callUuid := HeaderValue(uuidHeader), isOutbound := false, callState := RingingIn,
                              session := Some(Session(SessionInitial, false)))
        && (ShouldHydrate(queue, number) ==>
              && invite == Hydrating(queue.value, number)
              && requests == old(requests) + [ConfigFetch, ScriptFetch(queue.value), SettingsFetch(queue.value), MatchByPhone(number)])
        && (!ShouldHydrate(queue, number) ==> invite == Accepting && requests == old(requests))
      ensures presence == old(presence) && sip == old(sip) && audio == old(audio) && sent == old(sent)
    {
      var number := CallerNumberOf(remoteUser);
      var queue := HeaderValue(queueHeader);
      call := call.(wasEstablished := false, callerNumber := Some(number), queueName := queue,
                    callUuid := HeaderValue(uuidHeader), isOutbound := false, callState := RingingIn,
                    session := Some(Session(SessionInitial, false)));
      if ShouldHydrate(queue, number) {
        requests := requests + [ConfigFetch, ScriptFetch(queue.value), SettingsFetch(queue.value), MatchByPhone(number)];
        invite := Hydrating(queue.value, number);
      } else {
        invite := Accepting;
      }
    }

    /** The caller hung up before the call was answered. */
    method OnInviteCancelled()
      requires Valid()
      modifies this
      ensures Valid()
      ensures call == IdleCall
      ensures presence == old(presence) && sip == old(sip) && audio == old(audio)
      ensures invite == old(invite) && sent == old(sent) && requests == old(requests)
    {
      ClearCallState();
    }

    /**
     * The hydration results arrive and are written over the call, whatever has
     * happened to it meanwhile; the match rule's follow-up request is issued.
     */
    method FinishHydration(config: Reply<Payload>, script: Reply<ScriptEnvelope>, campaign: Reply<Payload>,
                           matchReply: Reply<seq<MatchRecord>>, followUp: Reply<CustomerRecord>)
      requires Valid() && invite.Hydrating?
      modifies this
      ensures Valid()
      ensures requests == old(requests) + FollowUpRequests(ResolveMatch(matchReply), old(invite.number))
      ensures call == Hydrated(old(call), config, script, campaign, ResolveMatch(matchReply), followUp)
      ensures invite == Accepting
      ensures presence == old(presence) && sip == old(sip) && audio == old(audio) && sent == old(sent)
    {
      var outcome := ResolveMatch(matchReply);
      requests := requests + FollowUpRequests(outcome, invite.number);
      call := Hydrated(call, config, script, campaign, outcome, followUp);
      invite := Accepting;
    }

    /** The answer to `accept`: a failure clears the call. */
    method FinishAccept(accepted: bool)
      requires Valid() && invite.Accepting?
      modifies this
      ensures Valid()
      ensures invite == NoInvite
      ensures call == if accepted then old(call) else IdleCall
      ensures presence == old(presence) && sip == old(sip) && audio == old(audio)
      ensures sent == old(sent) && requests == old(requests)
    {
      invite := NoInvite;
      if !accepted {
        ClearCallState();
      }
    }

    /**
     * `handleDisposition`: route the code, post it, and clear the call when the
     * post succeeds (or when there was nothing to post). The result says
     * whether the call was cleared.
     */
    method HandleDisposition(code: string, agentId: Option<string>, reply: Reply<Payload>) returns (ok: bool)
      requires Valid()
      modifies this
      ensures Valid()
      ensures var route := RouteDisposition(code, old(call.callUuid), old(call.isOutbound));
        && ok == DispositionClears(route, reply)
        && requests == old(requests) + DispositionRequests(route, code, agentId)
      ensures call == if ok then IdleCall else old(call)
      ensures presence == old(presence) && sip == old(sip) && audio == old(audio)
      ensures invite == old(invite) && sent == old(sent)
    {
      var route := RouteDisposition(code, call.callUuid, call.isOutbound);
      requests := requests + DispositionRequests(route, code, agentId);
      ok := DispositionClears(route, reply);
      if ok {
        ClearCallState();
      }
    }

    /**
     * `handleDispositionAndCallBack`: after a successful post the call's UUID,
     * queue and disposition flag are dropped, the caller is dialled back and
     * the status becomes 'Callback'. Without a UUID it only clears, even for an
     * outbound call.
     */
    method HandleDispositionAndCallBack(code: string, reply: Reply<Payload>, dialOk: bool, permission: PermissionResult)
      returns (ok: bool)
      requires Valid()
      modifies this
      ensures Valid()
      ensures var route := RouteCallback(code, old(call.callUuid));
        && (route == MissingCode ==> !ok && call == old(call) && requests == old(requests))
        && (route == ClearOnly ==> ok && call == IdleCall && requests == old(requests))
        && requests == old(requests) + (if route.PostInbound? then [DispositionInbound(route.callId, code)] else [])
        && (route.PostInbound? && !Succeeded(reply) ==> !ok && call == old(call))
        && (route.PostInbound? && Succeeded(reply) ==> ok)
      ensures !ok ==> sent == old(sent)
      ensures var route := RouteCallback(code, old(call.callUuid));
        route == ClearOnly ==> sent == old(sent)
      ensures var route := RouteCallback(code, old(call.callUuid));
        route.PostInbound? && Succeeded(reply) ==>
          && call == Dialled(old(call).(callUuid := None, queueName := None, shouldDisposition := false, wasEstablished := false),
                             old(call.callerNumber), old(sip.hasUserAgent && audio.permissionGranted), dialOk)
          && audio == (if old(sip.hasUserAgent && !audio.permissionGranted) then old(PermissionOutcome(permission)) else old(audio))
          && sent == old(sent) + old(StatusFrames("Callback"))
      ensures var route := RouteCallback(code, old(call.callUuid));
        !(route.PostInbound? && Succeeded(reply)) ==> audio == old(audio)
      ensures presence == old(presence) && sip == old(sip) && invite == old(invite)
    {
      var route := RouteCallback(code, call.callUuid);
      match route {
        case MissingCode =>
          ok := false;
        case ClearOnly =>
          ClearCallState();
          ok := true;
        case PostOutbound =>
          ok := false;
        case PostInbound(id) =>
          requests := requests + [DispositionInbound(id, code)];
          if Succeeded(reply) {
            CallBackAfterDisposition(dialOk, permission);
            ok := true;
          } else {
            ok := false;
          }
      }
    }

    /**
     * The tail of a successful callback disposition: drop the UUID, queue and
     * disposition flag, dial the caller back and report 'Callback'.
     */
    method CallBackAfterDisposition(dialOk: bool, permission: PermissionResult)
      requires Valid()
      modifies this
      ensures Valid()
      ensures call == Dialled(old(call).(callUuid := None, queueName := None, shouldDisposition := false, wasEstablished := false),
                              old(call.callerNumber), old(sip.hasUserAgent && audio.permissionGranted), dialOk)
      ensures audio == if old(sip.hasUserAgent && !audio.permissionGranted) then old(PermissionOutcome(permission)) else old(audio)
      ensures sent == old(sent) + old(StatusFrames("Callback"))
      ensures presence == old(presence) && sip == old(sip) && invite == old(invite) && requests == old(requests)
    {
      ghost var frames := StatusFrames("Callback");
      ghost var granted := PermissionOutcome(permission);
      var target := call.callerNumber;
      call := call.(callUuid := None, queueName := None, shouldDisposition := false, wasEstablished := false);
      assert PermissionOutcome(permission) == granted;
      MakeCall(target, dialOk, permission);
      assert StatusFrames("Callback") == frames;
      UpdateStatus("Callback");
    }

    /**
     * `makeCall`: refused without a user agent; without microphone permission
     * it asks for it and stops; otherwise it rings out to the number, and a
     * failure to build the URI or send the INVITE clears the call.
     */
    method MakeCall(phone: Option<string>, dialOk: bool, permission: PermissionResult)
      requires Valid()
      modifies this
      ensures Valid()
      ensures !old(sip.hasUserAgent) ==> call == old(call) && audio == old(audio)
      ensures old(sip.hasUserAgent) && !old(audio.permissionGranted) ==>
        call == old(call) && audio == old(PermissionOutcome(permission))
      ensures old(sip.hasUserAgent) && old(audio.permissionGranted) && dialOk ==>
        call == old(call).(wasEstablished := false, isOutbound := true, callerNumber := phone,
                           callState := RingingOut, session := Some(Session(SessionInitial, true)))
      ensures old(sip.hasUserAgent) && old(audio.permissionGranted) && !dialOk ==> call == IdleCall
      ensures old(sip.hasUserAgent) && old(audio.permissionGranted) ==> audio == old(audio)
      ensures call == Dialled(old(call), phone, old(sip.hasUserAgent && audio.permissionGranted), dialOk)
      ensures presence == old(presence) && sip == old(sip)
      ensures invite == old(invite) && sent == old(sent) && requests == old(requests)
    {
      if !sip.hasUserAgent {
        return;
      }
      if !audio.permissionGranted {
        var _ := RequestAudioPermissions(permission);
        return;
      }
      if dialOk {
        call := call.(wasEstablished := false, isOutbound := true, callerNumber := phone,
                      callState := RingingOut, session := Some(Session(SessionInitial, true)));
      } else {
        ClearCallState();
      }
    }

    /** Edits are saved for a real, non-training queue or an outbound call; the result is always true. */
    method UpdateCustomerData(data: FormData) returns (ok: bool)
      requires Valid()
      modifies this
      ensures Valid() && ok
      ensures requests == old(requests) + (if CustomerUpdateAllowed(old(call.queueName), old(call.isOutbound))
                                           then [UpdateCustomer(data)] else [])
      ensures call == old(call) && presence == old(presence) && sip == old(sip) && audio == old(audio)
      ensures invite == old(invite) && sent == old(sent)
    {
      if CustomerUpdateAllowed(call.queueName, call.isOutbound) {
        requests := requests + [UpdateCustomer(data)];
      }
      ok := true;
    }

    /** `hangupCall`: which request goes to the session; the state changes come later, through its listener. */
    method HangupCall() returns (action: HangupAction)
      ensures action == HangupDispatch(call.session)
      ensures call.session.None? ==> action == NoHangup
    {
      action := HangupDispatch(call.session);
    }

    /** `toggleMute`: flips the flag when there is a session with an audio sender. */
    method ToggleMute(hasAudioSender: bool)
      requires Valid()
      modifies this
      ensures Valid()
      ensures call == old(call).(isMuted := if old(call.session.Some?) && hasAudioSender then !old(call.isMuted) else old(call.isMuted))
      ensures presence == old(presence) && sip == old(sip) && audio == old(audio)
      ensures invite == old(invite) && sent == old(sent) && requests == old(requests)
    {
      if call.session.Some? && hasAudioSender {
        call := call.(isMuted := !call.isMuted);
      }
    }

    /** `toggleHold`: flips the flag when the re-INVITE on the session succeeds. */
    method ToggleHold(reinviteOk: bool)
      requires Valid()
      modifies this
      ensures Valid()
      ensures call == old(call).(isHeld := if old(call.session.Some?) && reinviteOk then !old(call.isHeld) else old(call.isHeld))
      ensures presence == old(presence) && sip == old(sip) && audio == old(audio)
      ensures invite == old(invite) && sent == old(sent) && requests == old(requests)
    {
      if call.session.Some? && reinviteOk {
        call := call.(isHeld := !call.isHeld);
      }
    }

    /** `sendDTMF`: the INFO body, sent only on an established session. */
    method SendDtmf(tone: string) returns (body: Option<string>)
      ensures body.Some? <==> call.session.Some? && call.session.value.state == SessionEstablished
      ensures body.Some? ==> body.value == DtmfBody(tone)
    {
      if call.session.Some? && call.session.value.state == SessionEstablished {
        body := Some(DtmfBody(tone));
      } else {
        body := None;
      }
    }

    /**
     * One tick of the status timer: show the elapsed time or the wrap-up
     * countdown; when the countdown reaches zero, dispose 'nd' if a disposition
     * is owed and ask for 'Idle'.
     */
    method WrapUpTick(nowMs: int, agentId: Option<string>, reply: Reply<Payload>)
      requires Valid()
      modifies this
      ensures Valid()
      ensures var t := Tick(old(presence.pbx), nowMs, old(call.shouldDisposition));
        && presence == old(presence).(stateTime := t.display)
        && (!t.disposeNd ==> call == old(call) && requests == old(requests))
        && (t.disposeNd ==> requests == old(requests) + DispositionRequests(RouteDisposition(AutoDispositionCode, old(call.callUuid), old(call.isOutbound)), AutoDispositionCode, agentId))
        && (t.disposeNd ==>
              call == if DispositionClears(RouteDisposition(AutoDispositionCode, old(call.callUuid), old(call.isOutbound)), reply)
                      then IdleCall else old(call))
        && sent == old(sent) + (if t.requestIdle then old(StatusFrames(IdleStatus)) else [])
      ensures sip == old(sip) && audio == old(audio) && invite == old(invite)
    {
      var t := Tick(presence.pbx, nowMs, call.shouldDisposition);
      presence := presence.(stateTime := t.display);
      if t.disposeNd {
        var _ := HandleDisposition(AutoDispositionCode, agentId, reply);
      }
      if t.requestIdle {
        UpdateStatus(IdleStatus);
      }
    }

    // ------------------------------------------------------------ presence

    /**
     * `connectWebSocket`: without a user, stop reconnecting and close the
     * socket; with a socket already connecting or open, do nothing; otherwise
     * open a socket when a bearer token is available.
     */
    method ConnectWebSocket(userId: Option<string>, token: Option<string>)
      requires Valid()
      modifies this
      ensures Valid()
      ensures !Truthy(userId) ==>
        presence == old(presence).(shouldReconnect := false, retryDelay := None, socket := NoSocket,
                                   authenticated := old(presence.socket == NoSocket && presence.authenticated))
      ensures Truthy(userId) && SocketLive(old(presence.socket)) ==> presence == old(presence)
      ensures Truthy(userId) && !SocketLive(old(presence.socket)) && !Truthy(token) ==>
        presence == old(presence).(shouldReconnect := true)
      ensures Truthy(userId) && !SocketLive(old(presence.socket)) && Truthy(token) ==>
        presence == old(presence).(shouldReconnect := true, socket := SocketConnecting,
                                   userId := userId.value, socketToken := token.value)
      ensures call == old(call) && sip == old(sip) && audio == old(audio)
      ensures invite == old(invite) && sent == old(sent) && requests == old(requests)
    {
      if !Truthy(userId) {
        presence := presence.(shouldReconnect := false, retryDelay := None);
        if presence.socket != NoSocket {
          presence := presence.(socket := NoSocket, authenticated := false);
        }
        return;
      }
      if SocketLive(presence.socket) {
        return;
      }
      presence := presence.(shouldReconnect := true);
      if !Truthy(token) {
        return;
      }
      presence := presence.(socket := SocketConnecting, userId := userId.value, socketToken := token.value);
    }

    /** `onopen`: connected, attempts reset, and the token sent for authentication. */
    method OnSocketOpen()
      requires Valid()
      modifies this
      ensures Valid()
      ensures presence == old(presence).(connected := true, attempts := 0,
                                         socket := if old(presence.socket) == SocketConnecting then SocketOpen else old(presence.socket))
      ensures sent == old(sent) + [AuthFrame(old(presence.socketToken))]
      ensures call == old(call) && sip == old(sip) && audio == old(audio)
      ensures invite == old(invite) && requests == old(requests)
    {
      presence := presence.(connected := true, attempts := 0,
                            socket := if presence.socket == SocketConnecting then SocketOpen else presence.socket);
      sent := sent + [AuthFrame(presence.socketToken)];
    }

    /**
     * `onmessage`. A re-authentication request without a fresh token closes the
     * socket; authentication sends a sync request; a sync response replaces the
     * snapshot (blank when empty) and corrects 'Logged Out' to 'On Break'; a
     * database update replaces the snapshot as it is.
     */
    method OnSocketMessage(m: Inbound, freshToken: Option<string>)
      requires Valid()
      modifies this
      ensures Valid()
      ensures m == AuthRequired && !Truthy(freshToken) ==>
        presence == old(presence).(socket := if old(presence.socket) == NoSocket then NoSocket else SocketClosing) && sent == old(sent)
      ensures m == AuthRequired && Truthy(freshToken) ==>
        presence == old(presence) && sent == old(sent) + [AuthFrame(freshToken.value)]
      ensures m == Authenticated ==>
        presence == old(presence).(authenticated := true) && sent == old(sent) + [SyncFrame(old(presence.userId))]
      ensures m.SyncResponse? ==>
        && presence == old(presence).(pbx := Some(m.data.GetOr(BlankSnapshot)))
        && sent == old(sent) + (match StatusCorrection(m.data) case Some(s) => old(StatusFrames(s)) case None => [])
      ensures m.DatabaseUpdate? ==> presence == old(presence).(pbx := m.data) && sent == old(sent)
      ensures m.ErrorMessage? || m.OtherMessage? ==> presence == old(presence) && sent == old(sent)
      ensures call == old(call) && sip == old(sip) && audio == old(audio)
      ensures invite == old(invite) && requests == old(requests)
    {
      match m {
        case AuthRequired =>
          if !Truthy(freshToken) {
            if presence.socket != NoSocket {
              presence := presence.(socket := SocketClosing);
            }
          } else {
            sent := sent + [AuthFrame(freshToken.value)];
          }
        case Authenticated =>
          presence := presence.(authenticated := true);
          sent := sent + [SyncFrame(presence.userId)];
        case SyncResponse(data) =>
          presence := presence.(pbx := Some(data.GetOr(BlankSnapshot)));
          var correction := StatusCorrection(data);
          if correction.Some? {
            assert StatusFrames(correction.value) == old(StatusFrames(correction.value));
            UpdateStatus(correction.value);
          }
        case DatabaseUpdate(data) =>
          presence := presence.(pbx := data);
        case ErrorMessage(_) =>
        case OtherMessage =>
      }
    }

    /**
     * `onclose`: disconnected and unauthenticated; unless reconnection was
     * switched off, a retry is scheduled after the backoff delay for the
     * current attempt count, which then grows by one.
     */
    method OnSocketClose()
      requires Valid() && presence.userId != ""
      modifies this
      ensures Valid()
      ensures var closed := old(presence).(connected := false, authenticated := false, socket := NoSocket);
        && (!old(presence.shouldReconnect) ==> presence == closed)
        && (old(presence.shouldReconnect) ==>
              presence == closed.(retryDelay := Some(ReconnectDelay(old(presence.attempts))), attempts := old(presence.attempts) + 1))
      ensures call == old(call) && sip == old(sip) && audio == old(audio)
      ensures invite == old(invite) && sent == old(sent) && requests == old(requests)
    {
      presence := presence.(connected := false, authenticated := false, socket := NoSocket);
      if !presence.shouldReconnect {
        return;
      }
      presence := presence.(retryDelay := Some(ReconnectDelay(presence.attempts)), attempts := presence.attempts + 1);
    }

    /** The socket's reconnect timer fires: connect again (for the same user) unless switched off. */
    method SocketRetryFired(token: Option<string>)
      requires Valid() && presence.retryDelay.Some?
      modifies this
      ensures Valid()
      ensures presence.retryDelay.None? && presence.shouldReconnect && presence.userId == old(presence.userId)
      ensures SocketLive(old(presence.socket)) ==> presence == old(presence).(retryDelay := None)
      ensures !SocketLive(old(presence.socket)) && !Truthy(token) ==> presence == old(presence).(retryDelay := None)
      ensures !SocketLive(old(presence.socket)) && Truthy(token) ==>
        presence == old(presence).(retryDelay := None, socket := SocketConnecting, socketToken := token.value)
      ensures call == old(call) && sip == old(sip) && audio == old(audio)
      ensures invite == old(invite) && sent == old(sent) && requests == old(requests)
    {
      presence := presence.(retryDelay := None);
      if presence.shouldReconnect && presence.userId != "" {
        ConnectWebSocket(Some(presence.userId), token);
      }
    }

    /** The effect cleanup: stop reconnecting, cancel the timer and close the socket. */
    method TeardownSocket()
      requires Valid()
      modifies this
      ensures Valid()
      ensures presence == old(presence).(shouldReconnect := false, retryDelay := None, socket := NoSocket)
      ensures call == old(call) && sip == old(sip) && audio == old(audio)
      ensures invite == old(invite) && sent == old(sent) && requests == old(requests)
    {
      presence := presence.(shouldReconnect := false, retryDelay := None, socket := NoSocket);
    }

    // ----------------------------------------------------------- signaling

    /**
     * The signaling effect: it runs once ever (the latch is never reset), and
     * only with SIP credentials and microphone permission. A URI that cannot be
     * built stops it after the latch is set.
     */
    method ConfigureSip(agentId: Option<string>, sipPassword: Option<string>, uriOk: bool)
      requires Valid()
      modifies this
      ensures Valid()
      ensures var eligible := !old(sip.isConfigured) && Truthy(agentId) && Truthy(sipPassword) && old(audio.permissionGranted);
        && (!eligible ==> sip == old(sip))
        && (eligible && !uriOk ==> sip == old(sip).(isConfigured := true, shouldReconnect := true, attempts := 0))
        && (eligible && uriOk ==> sip == old(sip).(isConfigured := true, shouldReconnect := true, attempts := 0,
                                                   hasUserAgent := true, isReconnecting := false, state := SipConnecting))
      ensures call == old(call) && presence == old(presence) && audio == old(audio)
      ensures invite == old(invite) && sent == old(sent) && requests == old(requests)
    {
      if sip.isConfigured {
        return;
      }
      if !Truthy(agentId) || !Truthy(sipPassword) {
        return;
      }
      if !audio.permissionGranted {
        return;
      }
      sip := sip.(isConfigured := true, shouldReconnect := true, attempts := 0);
      if !uriOk {
        return;
      }
      sip := sip.(hasUserAgent := true, isReconnecting := false);
      AttemptConnect();
    }

    /** `attemptConnect` up to its await: 'connecting', unless reconnection is off. */
    method AttemptConnect()
      requires Valid()
      modifies this
      ensures Valid()
      ensures sip == if old(sip.shouldReconnect) then old(sip).(state := SipConnecting) else old(sip)
      ensures call == old(call) && presence == old(presence) && audio == old(audio)
      ensures invite == old(invite) && sent == old(sent) && requests == old(requests)
    {
      if !sip.shouldReconnect {
        return;
      }
      sip := sip.(state := SipConnecting);
    }

    /** Starting or registering failed: 'disconnected', and a retry after the backoff delay. */
    method SipConnectFailed(message: string)
      requires Valid() && sip.isConfigured
      modifies this
      ensures Valid()
      ensures var failed := old(sip).(state := SipDisconnected, error := Some(message));
        && (!old(sip.shouldReconnect) ==> sip == failed)
        && (old(sip.shouldReconnect) ==>
              sip == failed.(retryDelay := Some(ReconnectDelay(old(sip.attempts))), attempts := old(sip.attempts) + 1,
                             timerRef := RetryRef))
      ensures call == old(call) && presence == old(presence) && audio == old(audio)
      ensures invite == old(invite) && sent == old(sent) && requests == old(requests)
    {
      sip := sip.(state := SipDisconnected, error := Some(message));
      if sip.shouldReconnect {
        sip := sip.(retryDelay := Some(ReconnectDelay(sip.attempts)), attempts := sip.attempts + 1, timerRef := RetryRef);
      }
    }

    /** The retry timer fires: try again unless reconnection is off. */
    method SipRetryFired()
      requires Valid() && sip.retryDelay.Some?
      modifies this
      ensures Valid()
      ensures sip == (var cleared := old(sip).(retryDelay := None);
                      if cleared.shouldReconnect then cleared.(state := SipConnecting) else cleared)
      ensures call == old(call) && presence == old(presence) && audio == old(audio)
      ensures invite == old(invite) && sent == old(sent) && requests == old(requests)
    {
      sip := sip.(retryDelay := None);
      if sip.shouldReconnect {
        AttemptConnect();
      }
    }

    /** The registerer's listener: registration resets the attempt count. */
    method OnRegistererState(s: RegistererState)
      requires Valid()
      modifies this
      ensures Valid()
      ensures s == RegistererRegistered ==> sip == old(sip).(state := SipRegistered, attempts := 0)
      ensures s == RegistererUnregistered ==> sip == old(sip).(state := SipConnected)
      ensures s == RegistererTerminated ==> sip == old(sip).(state := SipDisconnected)
      ensures s == RegistererInitial ==> sip == old(sip)
      ensures call == old(call) && presence == old(presence) && audio == old(audio)
      ensures invite == old(invite) && sent == old(sent) && requests == old(requests)
    {
      match s {
        case RegistererRegistered =>
          sip := sip.(state := SipRegistered, attempts := 0);
        case RegistererUnregistered =>
          sip := sip.(state := SipConnected);
        case RegistererTerminated =>
          sip := sip.(state := SipDisconnected);
        case RegistererInitial =>
      }
    }

    /**
     * The transport's disconnect handler: ignored while a reconnect is under
     * way; otherwise 'disconnected' and, unless switched off, the timer the
     * shared handle names is cancelled and a reconnect scheduled.
     */
    method OnTransportDisconnect()
      requires Valid() && sip.isConfigured
      modifies this
      ensures Valid()
      ensures old(sip.isReconnecting) ==> sip == old(sip)
      ensures !old(sip.isReconnecting) && !old(sip.shouldReconnect) ==> sip == old(sip).(state := SipDisconnected)
      ensures !old(sip.isReconnecting) && old(sip.shouldReconnect) ==>
        sip == old(sip).(state := SipDisconnected, attempts := old(sip.attempts) + 1, isReconnecting := true,
                         retryDelay := if old(sip.timerRef) == RetryRef then None else old(sip.retryDelay),
                         reconnectDelay := Some(ReconnectDelay(old(sip.attempts))), timerRef := ReconnectRef)
      ensures call == old(call) && presence == old(presence) && audio == old(audio)
      ensures invite == old(invite) && sent == old(sent) && requests == old(requests)
    {
      if sip.isReconnecting {
        return;
      }
      sip := sip.(state := SipDisconnected);
      if sip.shouldReconnect {
        var delay := ReconnectDelay(sip.attempts);
        sip := sip.(attempts := sip.attempts + 1);
        if sip.timerRef == RetryRef {
          sip := sip.(retryDelay := None);
        }
        sip := sip.(isReconnecting := true, reconnectDelay := Some(delay), timerRef := ReconnectRef);
      }
    }

    /**
     * The reconnect timer fires. Unless switched off: 'connecting', then on
     * success the attempt count resets, 'registered' when the registerer says
     * so, and an established call gets a session refresh. Either way the
     * reconnecting phase ends; a failure schedules nothing further.
     */
    method SipReconnectFired(reconnected: bool, registered: bool)
      requires Valid() && sip.reconnectDelay.Some?
      modifies this
      ensures Valid()
      ensures !old(sip.shouldReconnect) ==> sip == old(sip).(reconnectDelay := None, isReconnecting := false)
      ensures old(sip.shouldReconnect) && !reconnected ==>
        sip == old(sip).(reconnectDelay := None, isReconnecting := false, state := SipConnecting)
      ensures old(sip.shouldReconnect) && reconnected ==>
        sip == old(sip).(reconnectDelay := None, isReconnecting := false, attempts := 0,
                         state := if registered then SipRegistered else SipConnecting,
                         sessionRefreshes := old(sip.sessionRefreshes) +
                           (if old(call.session.Some? && call.session.value.state == SessionEstablished) then 1 else 0))
      ensures call == old(call) && presence == old(presence) && audio == old(audio)
      ensures invite == old(invite) && sent == old(sent) && requests == old(requests)
    {
      if !sip.shouldReconnect {
        sip := sip.(reconnectDelay := None, isReconnecting := false);
        return;
      }
      if reconnected {
        var refreshes := sip.sessionRefreshes;
        if call.session.Some? && call.session.value.state == SessionEstablished {
          refreshes := refreshes + 1;
        }
        sip := sip.(reconnectDelay := None, isReconnecting := false, attempts := 0,
                    state := if registered then SipRegistered else SipConnecting,
                    sessionRefreshes := refreshes);
      } else {
        sip := sip.(reconnectDelay := None, isReconnecting := false, state := SipConnecting);
      }
    }

    /**
     * The effect cleanup: stop reconnecting, cancel the timer the shared handle
     * names and drop the user agent. The configuration latch stays set.
     */
    method TeardownSip()
      requires Valid()
      modifies this
      ensures Valid()
      ensures sip == old(sip).(shouldReconnect := false, hasUserAgent := false,
                               retryDelay := if old(sip.timerRef) == RetryRef then None else old(sip.retryDelay),
                               reconnectDelay := if old(sip.timerRef) == ReconnectRef then None else old(sip.reconnectDelay))
      ensures call == old(call) && presence == old(presence) && audio == old(audio)
      ensures invite == old(invite) && sent == old(sent) && requests == old(requests)
    {
      sip := sip.(shouldReconnect := false, hasUserAgent := false);
      if sip.timerRef == RetryRef {
        sip := sip.(retryDelay := None);
      } else if sip.timerRef == ReconnectRef {
        sip := sip.(reconnectDelay := None);
      }
    }

    // --------------------------------------------------------------- audio

    /** The audio state `requestAudioPermissions` leaves for a given answer. */
    function PermissionOutcome(r: PermissionResult): AudioSlice
      reads this
    {
      match r
      case PermissionDenied => audio.(permissionGranted := false)
      case PermissionGranted(ds) =>
        var ins := OfKind(ds, AudioInput);
        var outs := OfKind(ds, AudioOutput);
        audio.(permissionGranted := true, inputs := ins, outputs := outs,
               selectedInput := match InitialChoice(audio.storedInput, ins) case Some(id) => Some(id) case None => audio.selectedInput,
               selectedOutput := match InitialChoice(audio.storedOutput, outs) case Some(id) => Some(id) case None => audio.selectedOutput)
    }

    /**
     * `requestAudioPermissions`: on a grant, list the devices and select the
     * stored device when present, else the 'default' one, else the first.
     */
    method RequestAudioPermissions(r: PermissionResult) returns (ok: bool)
      requires Valid()
      modifies this
      ensures Valid()
      ensures ok <==> r.PermissionGranted?
      ensures audio == old(PermissionOutcome(r))
      ensures audio.permissionGranted == ok
      ensures ok ==> audio.inputs == OfKind(r.devices, AudioInput) && audio.outputs == OfKind(r.devices, AudioOutput)
      ensures ok && |audio.inputs| > 0 ==> audio.selectedInput.Some? && HasId(audio.inputs, audio.selectedInput.value)
      ensures ok && |audio.outputs| > 0 ==> audio.selectedOutput.Some? && HasId(audio.outputs, audio.selectedOutput.value)
      ensures call == old(call) && presence == old(presence) && sip == old(sip)
      ensures invite == old(invite) && sent == old(sent) && requests == old(requests)
    {
      audio := PermissionOutcome(r);
      ok := r.PermissionGranted?;
    }

    /** `applyAudioDevices`: each given id is persisted and selected. */
    method ApplyAudioDevices(inputId: Option<string>, outputId: Option<string>) returns (ok: bool)
      requires Valid()
      modifies this
      ensures Valid() && ok
      ensures audio == old(audio).(
        selectedInput := if Truthy(inputId) then inputId else old(audio.selectedInput),
        storedInput := if Truthy(inputId) then inputId else old(audio.storedInput),
        selectedOutput := if Truthy(outputId) then outputId else old(audio.selectedOutput),
        storedOutput := if Truthy(outputId) then outputId else old(audio.storedOutput))
      ensures call == old(call) && presence == old(presence) && sip == old(sip)
      ensures invite == old(invite) && sent == old(sent) && requests == old(requests)
    {
      if Truthy(inputId) {
        audio := audio.(storedInput := inputId, selectedInput := inputId);
      }
      if Truthy(outputId) {
        audio := audio.(storedOutput := outputId, selectedOutput := outputId);
      }
      ok := true;
    }

    /**
     * `refreshAudioDevices` on a device change: relist, and switch a selection
     * whose device vanished to the fallback (persisting it).
     */
    method RefreshAudioDevices(ds: seq<Device>)
      requires Valid()
      modifies this
      ensures Valid()
      ensures audio == RefreshedAudio(old(audio), ds)
      ensures call == old(call) && presence == old(presence) && sip == old(sip)
      ensures invite == old(invite) && sent == old(sent) && requests == old(requests)
    {
      var ins := OfKind(ds, AudioInput);
      var outs := OfKind(ds, AudioOutput);
      var before := audio;
      audio := audio.(inputs := ins, outputs := outs);
      var inChoice := RefreshChoice(before.selectedInput, ins);
      if inChoice.Some? {
        var _ := ApplyAudioDevices(inChoice, None);
      }
      assert audio == before.(inputs := ins, outputs := outs,
        selectedInput := if Truthy(inChoice) then inChoice else before.selectedInput,
        storedInput := if Truthy(inChoice) then inChoice else before.storedInput);
      var outChoice := RefreshChoice(before.selectedOutput, outs);
      if outChoice.Some? {
        var _ := ApplyAudioDevices(None, outChoice);
      }
    }
  }
}
