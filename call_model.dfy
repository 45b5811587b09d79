/**
 * The pure decisions of the contact-center provider: call and session states,
 * the API envelope, invite parsing, customer-match resolution, disposition
 * routing, hang-up dispatch, DTMF and the presence frames.
 */
module CallModel {
  import opened Wrappers
  import opened Records

  /** The provider's own call lifecycle (`CallState`). */
  datatype CallState = Idle | RingingIn | RingingOut | Establishing | Established | Terminating | Terminated

  /** The signaling library's session states, as the state-change listener sees them. */
  datatype SessionState = SessionInitial | SessionEstablishing | SessionEstablished | SessionTerminating | SessionTerminated

  /**
   * The current session handle. An outgoing call's session (an inviter) has
   * `cancel`; an incoming one (an invitation) has `reject` instead.
   */
  datatype Session = Session(state: SessionState, isInviter: bool)

  /** `sipState`: how far the signaling transport got. */
  datatype SipState = SipDisconnected | SipConnecting | SipConnected | SipRegistered

  datatype RegistererState = RegistererInitial | RegistererRegistered | RegistererUnregistered | RegistererTerminated

  /**
   * The uniform REST envelope `{success, data}`. `success` is optional so that
   * `result?.success` (strictly true) and `result?.success !== false` differ,
   * as they do in the source.
   */
  datatype Reply<T> = Reply(success: Option<bool>, data: Option<T>)

  predicate Succeeded<T>(r: Reply<T>) {
    r.success == Some(true)
  }

  predicate NotFailed<T>(r: Reply<T>) {
    r.success != Some(false)
  }

  /** A candidate returned by the match-by-phone lookup. */
  type MatchRecord = map<string, string>

  /** The script fetch's `data`, of which only `script_content` is read. */
  datatype ScriptEnvelope = ScriptEnvelope(scriptContent: Option<seq<Slide>>)

  /** Product offerings and campaign settings: stored as received, never inspected. */
  datatype Payload = Payload(json: string)

  datatype ApiRequest =
    | ConfigFetch
    | ScriptFetch(fetchFor: string)
    | SettingsFetch(fetchFor: string)
    | MatchByPhone(number: string)
    | CreateCustomer(number: string)
    | LoadCustomer(customerId: Option<string>)
    | UpdateCustomer(data: FormData)
    | DispositionInbound(callId: string, disposition: string)
    | DispositionOutbound(agentId: Option<string>, disposition: string)

  /** Frames the client sends on the presence socket. */
  datatype Frame = AuthFrame(token: string) | SyncFrame(userId: string) | UpdateStatusFrame(status: string) | PingFrame

  /**
   * The agent's presence record as pushed by the PBX. `BlankSnapshot` is the
   * `{}` stored when a `sync_response` carries no data.
   */
  datatype Presence = Snapshot(status: string, lastStatusChange: int, wrapUpTime: int) | BlankSnapshot

  /** Frames the PBX pushes, after JSON parsing. */
  datatype Inbound =
    | AuthRequired
    | Authenticated
    | SyncResponse(data: Option<Presence>)
    | DatabaseUpdate(data: Option<Presence>)
    | ErrorMessage(message: string)
    | OtherMessage

  const TrainingQueue := "training@sip.lifeshieldmedicalalerts.com"
  const UnknownCaller := "Unknown"

  /** `remoteUri?.user || 'Unknown'`: the caller number is never empty. */
  function CallerNumberOf(remoteUser: Option<string>): (n: string)
    ensures n != ""
    ensures Truthy(remoteUser) ==> n == remoteUser.value
    ensures !Truthy(remoteUser) ==> n == UnknownCaller
  {
    if Truthy(remoteUser) then remoteUser.value else UnknownCaller
  }

  /** `request?.getHeader(h) || null`: an empty header reads as absent. */
  function HeaderValue(header: Option<string>): (v: Option<string>)
    ensures v.Some? <==> Truthy(header)
    ensures v.Some? ==> v == header && v.value != ""
  {
    if Truthy(header) then header else None
  }

  /** Hydration runs only when the queue name and the caller number are both present. */
  predicate ShouldHydrate(queue: Option<string>, number: string) {
    Truthy(queue) && number != ""
  }

  /** Because the caller number falls back to 'Unknown', only the queue header decides. */
  lemma HydrationGatedByQueue(queueHeader: Option<string>, remoteUser: Option<string>)
    ensures ShouldHydrate(HeaderValue(queueHeader), CallerNumberOf(remoteUser)) <==> Truthy(queueHeader)
  {
  }

  /** What the match-by-phone reply leads to. */
  datatype MatchOutcome = NoMatchData | CreateNew | LoadExisting(customerId: Option<string>) | Disambiguate(candidates: seq<MatchRecord>)

  function CustomerIdOf(m: MatchRecord): Option<string> {
    if "customer_id" in m then Some(m["customer_id"]) else None
  }

  /** Zero matches create, one match loads, several are listed for the agent to choose. */
  function ResolveMatch(reply: Reply<seq<MatchRecord>>): (o: MatchOutcome)
    ensures o.NoMatchData? <==> !Succeeded(reply) || reply.data.None?
    ensures o.CreateNew? <==> Succeeded(reply) && reply.data == Some([])
    ensures o.LoadExisting? <==> Succeeded(reply) && reply.data.Some? && |reply.data.value| == 1
    ensures o.LoadExisting? ==> o.customerId == CustomerIdOf(reply.data.value[0])
    ensures o.Disambiguate? <==> Succeeded(reply) && reply.data.Some? && |reply.data.value| >= 2
    ensures o.Disambiguate? ==> o.candidates == reply.data.value
  {
    if !Succeeded(reply) || reply.data.None? then NoMatchData
    else
      var list := reply.data.value;
      if |list| == 0 then CreateNew
      else if |list| == 1 then LoadExisting(CustomerIdOf(list[0]))
      else Disambiguate(list)
  }

  /** The follow-up request a match outcome issues. */
  function FollowUpRequests(o: MatchOutcome, number: string): seq<ApiRequest> {
    match o
    case CreateNew => [CreateCustomer(number)]
    case LoadExisting(id) => [LoadCustomer(id)]
    case _ => []
  }

  /** Every request one hydration issues, in order: the four fetches, then the follow-up. */
  function HydrationRequests(queue: string, number: string, matchReply: Reply<seq<MatchRecord>>): seq<ApiRequest> {
    [ConfigFetch, ScriptFetch(queue), SettingsFetch(queue), MatchByPhone(number)]
      + FollowUpRequests(ResolveMatch(matchReply), number)
  }

  function CountCreates(rs: seq<ApiRequest>): nat {
    if rs == [] then 0 else (if rs[0].CreateCustomer? then 1 else 0) + CountCreates(rs[1..])
  }

  function CountLoads(rs: seq<ApiRequest>): nat {
    if rs == [] then 0 else (if rs[0].LoadCustomer? then 1 else 0) + CountLoads(rs[1..])
  }

  lemma {:induction false} CountConcat(a: seq<ApiRequest>, b: seq<ApiRequest>)
    ensures CountCreates(a + b) == CountCreates(a) + CountCreates(b)
    ensures CountLoads(a + b) == CountLoads(a) + CountLoads(b)
  {
    if a == [] {
      assert a + b == b;
    } else {
      assert (a + b)[0] == a[0] && (a + b)[1..] == a[1..] + b;
      CountConcat(a[1..], b);
    }
  }

  /**
   * Zero matches issue exactly one create and no load; one match exactly one
   * load of the match's `customer_id` and no create; two or more neither.
   */
  lemma {:induction false} HydrationCustomerCalls(queue: string, number: string, matchReply: Reply<seq<MatchRecord>>)
    requires Succeeded(matchReply) && matchReply.data.Some?
    ensures var rs := HydrationRequests(queue, number, matchReply);
      var n := |matchReply.data.value|;
      && CountCreates(rs) == (if n == 0 then 1 else 0)
      && CountLoads(rs) == (if n == 1 then 1 else 0)
      && (n == 1 ==> rs[4] == LoadCustomer(CustomerIdOf(matchReply.data.value[0])))
      && (n == 0 ==> rs[4] == CreateCustomer(number))
      && (n >= 2 ==> |rs| == 4)
  {
    var fetches := [ConfigFetch, ScriptFetch(queue), SettingsFetch(queue), MatchByPhone(number)];
    var follow := FollowUpRequests(ResolveMatch(matchReply), number);
    CountConcat(fetches, follow);
    assert fetches[3..][1..] == [];
    assert CountCreates(fetches[3..]) == 0 && CountLoads(fetches[3..]) == 0;
    assert fetches[2..][1..] == fetches[3..];
    assert CountCreates(fetches[2..]) == 0 && CountLoads(fetches[2..]) == 0;
    assert fetches[1..][1..] == fetches[2..];
    assert CountCreates(fetches[1..]) == 0 && CountLoads(fetches[1..]) == 0;
    assert CountCreates(fetches) == 0 && CountLoads(fetches) == 0;
    if follow != [] {
      assert follow[1..] == [];
    }
  }

  /** Where `handleDisposition` sends a code. */
  datatype DispositionRoute = MissingCode | PostInbound(callId: string) | PostOutbound | ClearOnly

  /**
   * An empty code is refused; a call with a UUID posts by call id; otherwise an
   * outbound call posts by agent id; otherwise nothing is posted.
   */
  function RouteDisposition(code: string, callUuid: Option<string>, outbound: bool): (r: DispositionRoute)
    ensures r == MissingCode <==> code == ""
    ensures r.PostInbound? <==> code != "" && Truthy(callUuid)
    ensures r.PostInbound? ==> r.callId == callUuid.value
    ensures r == PostOutbound <==> code != "" && !Truthy(callUuid) && outbound
    ensures r == ClearOnly <==> code != "" && !Truthy(callUuid) && !outbound
  {
    if code == "" then MissingCode
    else if Truthy(callUuid) then PostInbound(callUuid.value)
    else if outbound then PostOutbound
    else ClearOnly
  }

  /**
   * `handleDispositionAndCallBack` has no outbound branch: without a UUID it
   * only clears.
   */
  function RouteCallback(code: string, callUuid: Option<string>): (r: DispositionRoute)
    ensures r != PostOutbound
    ensures r == MissingCode <==> code == ""
    ensures r.PostInbound? <==> code != "" && Truthy(callUuid)
    ensures r.PostInbound? ==> r.callId == callUuid.value
  {
    if code == "" then MissingCode
    else if Truthy(callUuid) then PostInbound(callUuid.value)
    else ClearOnly
  }

  /** The request a route issues. */
  function DispositionRequests(r: DispositionRoute, code: string, agentId: Option<string>): (rs: seq<ApiRequest>)
    ensures |rs| == if r.PostInbound? || r.PostOutbound? then 1 else 0
  {
    match r
    case PostInbound(id) => [DispositionInbound(id, code)]
    case PostOutbound => [DispositionOutbound(agentId, code)]
    case _ => []
  }

  /** Whether `handleDisposition` clears the call, given the reply to its post. */
  predicate DispositionClears<T>(r: DispositionRoute, reply: Reply<T>) {
    r == ClearOnly || ((r.PostInbound? || r == PostOutbound) && Succeeded(reply))
  }

  /** A failed post leaves the call for retry; only a refused code or a failure keep it. */
  lemma DispositionKeepsOnFailure<T>(code: string, callUuid: Option<string>, outbound: bool, reply: Reply<T>)
    ensures var r := RouteDisposition(code, callUuid, outbound);
      !DispositionClears(r, reply) <==> (code == "" || ((Truthy(callUuid) || outbound) && !Succeeded(reply)))
  {
  }

  /** What `hangupCall` asks of the session. */
  datatype HangupAction = NoHangup | Cancel | Reject | Bye

  /**
   * No session: nothing. Before establishment: CANCEL (or, for an incoming
   * call, reject). Established: BYE. Terminating or terminated: nothing.
   */
  function HangupDispatch(session: Option<Session>): (a: HangupAction)
    ensures session.None? ==> a == NoHangup
    ensures a == Bye <==> session.Some? && session.value.state == SessionEstablished
    ensures a == Cancel <==> session.Some? && session.value.isInviter
                             && session.value.state in {SessionInitial, SessionEstablishing}
    ensures a == Reject <==> session.Some? && !session.value.isInviter
                             && session.value.state in {SessionInitial, SessionEstablishing}
  {
    match session
    case None => NoHangup
    case Some(s) =>
      match s.state
      case SessionInitial => if s.isInviter then Cancel else Reject
      case SessionEstablishing => if s.isInviter then Cancel else Reject
      case SessionEstablished => Bye
      case _ => NoHangup
  }

  /** The INFO body `sendDTMF` sends. */
  function DtmfBody(tone: string): (b: string)
    ensures |b| == |tone| + 21
    ensures b[..7] == "Signal=" && b[7..7 + |tone|] == tone
    ensures b[7 + |tone|..] == "\r\nDuration=100"
  {
    "Signal=" + tone + "\r\nDuration=100"
  }

  /** Customer edits are saved for a real queue other than training, or for an outbound call. */
  predicate CustomerUpdateAllowed(queue: Option<string>, outbound: bool) {
    (Truthy(queue) && queue.value != TrainingQueue) || outbound
  }

  /** A `sync_response` whose snapshot says 'Logged Out' triggers a correction to 'On Break'. */
  function StatusCorrection(data: Option<Presence>): (s: Option<string>)
    ensures s.Some? <==> data.Some? && data.value.Snapshot? && data.value.status == "Logged Out"
    ensures s.Some? ==> s.value == "On Break"
  {
    if data.Some? && data.value.Snapshot? && data.value.status == "Logged Out" then Some("On Break") else None
  }

  /** `currentCall` as exposed to the UI: the session, only while the call is established. */
  predicate CurrentCallPresent(callState: CallState, session: Option<Session>) {
    callState == Established && session.Some?
  }
}
