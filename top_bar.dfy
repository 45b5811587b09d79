/** The top bar's status selector and logout guard. */
module TopBar {
  /** Why the top bar refuses an action. */
  datatype Notice = DispositionBeforeLogout | EndAndDispositionBeforeLogout | InvalidStatus

  /** What a top-bar handler does, in order. */
  datatype TopBarAction = SendStatus(status: string) | PerformLogout | Notify(notice: Notice)

  const LoggedOutStatus := "Logged Out"

  /**
   * `attemptLogout`: only with no current call and nothing to disposition is
   * 'Logged Out' sent and the logout performed; otherwise the agent is told
   * what is left to do.
   */
  function AttemptLogout(hasCurrentCall: bool, shouldDisposition: bool): (acts: seq<TopBarAction>)
    ensures acts == [SendStatus(LoggedOutStatus), PerformLogout] <==> !hasCurrentCall && !shouldDisposition
    ensures PerformLogout in acts <==> !hasCurrentCall && !shouldDisposition
    ensures shouldDisposition ==> acts == [Notify(DispositionBeforeLogout)]
    ensures hasCurrentCall && !shouldDisposition ==> acts == [Notify(EndAndDispositionBeforeLogout)]
  {
    if !hasCurrentCall && !shouldDisposition then [SendStatus(LoggedOutStatus), PerformLogout]
    else if shouldDisposition then [Notify(DispositionBeforeLogout)]
    else [Notify(EndAndDispositionBeforeLogout)]
  }

  /**
   * `handleStateChange`: an empty selection is ignored, a selectable status is
   * sent, anything else is refused.
   */
  function HandleStateChange(value: string, selectable: seq<string>): (acts: seq<TopBarAction>)
    ensures value == "" ==> acts == []
    ensures value != "" && value in selectable ==> acts == [SendStatus(value)]
    ensures value != "" && value !in selectable ==> acts == [Notify(InvalidStatus)]
    ensures forall a :: a in acts && a.SendStatus? ==> a.status in selectable
  {
    if value == "" then []
    else if value in selectable then [SendStatus(value)]
    else [Notify(InvalidStatus)]
  }
}
