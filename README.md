# Call-center client: a Dafny model

This project models the decision logic of the LifeShield Medical Alerts
call-center client, an Electron/React application. Agents use it to take and
place SIP calls, follow a campaign's call script, edit the caller's customer
record and set up a bank-account subscription. The model covers two parts:

- **The contact-center provider** (`ContactCenterContext.jsx`): one object that
  holds the current call, the presence socket to the PBX, the signaling user
  agent and the audio devices. It is modelled as the class
  `ContactCenter.ContactCenterProvider`. Every session event, socket frame,
  timer and REST reply becomes a method call whose outcome is a parameter. Its
  pure decisions have their own modules:
  - `CallModel`: invite parsing, customer-match resolution, disposition
    routing, hang-up dispatch, DTMF, status correction;
  - `Backoff`: the reconnect delay;
  - `WrapUp`: the status timer and its display;
  - `AudioDevices`: device choice.
- **The UI components**, one module each:
  - the call script (`CallScript`, with a class for its state);
  - the customer-information panel and its payment dialog
    (`CustomerInformation`);
  - the OTP form, the top bar and the login form;
  - the billing-address card, the address search and the charge-date picker.

  The list and contact edits both forms share are in `FormEdits`. Digit and
  decimal helpers are in `Text`. The shared record types are in `Records`.

A component's state (React `useState`) becomes fields of a class that the
handlers update. A callback to a parent (`onSubmit`, `onDataChange`,
`onAddressUpdate`, a REST call) becomes a sequence field that records every
call. An asynchronous handler is split at its `await`. The part before it is
one method. The continuation is another method that takes the awaited result
as a parameter. Time is a parameter: milliseconds as an integer, or a
timestamp string.

## Model

| member | source | states |
|---|---|---|
| `Backoff.ReconnectDelay` | src/contextproviders/ContactCenterContext.jsx:401-402 | The delay lies in [100, 30000] ms and is 100 exactly for attempt 0. |
| `Backoff.DelayMonotone` | src/contextproviders/ContactCenterContext.jsx:978-979 | A later attempt never waits less than an earlier one. |
| `Backoff.DelayDoubles` | src/contextproviders/ContactCenterContext.jsx:1013-1014 | Below the cap, each retry waits twice as long as the one before. |
| `Backoff.DelayCapped` | src/contextproviders/ContactCenterContext.jsx:402 | From attempt 5 on, the delay is the 30 s cap. |
| `CallModel.CallerNumberOf` | src/contextproviders/ContactCenterContext.jsx:503-504 | The caller number is the URI user when that is non-empty, else 'Unknown'. It is never empty. |
| `CallModel.HeaderValue` | src/contextproviders/ContactCenterContext.jsx:506-507 | A header is present exactly when it is non-empty. |
| `CallModel.HydrationGatedByQueue` | src/contextproviders/ContactCenterContext.jsx:529 | Hydration runs iff the queue header is non-empty, because the number always falls back to 'Unknown'. |
| `CallModel.ResolveMatch` | src/contextproviders/ContactCenterContext.jsx:542-551 | A failed reply or missing data does nothing. 0 matches create, 1 match loads `data[0].customer_id`, 2 or more are listed unchanged. |
| `CallModel.CountConcat` | src/contextproviders/ContactCenterContext.jsx:531-551 | Create and load counts add up over concatenated request lists. |
| `CallModel.HydrationCustomerCalls` | src/contextproviders/ContactCenterContext.jsx:529-552 | 0 matches issue exactly one create and no load. 1 match issues exactly one load, of the match's id, and no create. 2 or more issue neither. |
| `CallModel.RouteDisposition` | src/contextproviders/ContactCenterContext.jsx:576-613 | An empty code is refused. With a UUID it posts by call id; otherwise an outbound call posts by agent id; otherwise it only clears. Each case is an iff. |
| `CallModel.RouteCallback` | src/contextproviders/ContactCenterContext.jsx:616-646 | The callback variant never posts by agent id. With a UUID it posts by call id. |
| `CallModel.DispositionRequests` | src/contextproviders/ContactCenterContext.jsx:584-598 | Exactly one request for a posting route, none otherwise. |
| `CallModel.DispositionKeepsOnFailure` | src/contextproviders/ContactCenterContext.jsx:585-594 | The call is kept exactly when the code is empty, or when a post was made and did not succeed. |
| `CallModel.HangupDispatch` | src/contextproviders/ContactCenterContext.jsx:712-731 | No session: nothing. Established: BYE. Before establishment: CANCEL for an outgoing call, reject for an incoming one. |
| `CallModel.DtmfBody` | src/contextproviders/ContactCenterContext.jsx:775-781 | The body is "Signal=" + tone + "\r\nDuration=100". |
| `CallModel.StatusCorrection` | src/contextproviders/ContactCenterContext.jsx:368-370 | Only a snapshot whose status is 'Logged Out' triggers a correction, and the correction is 'On Break'. |
| `WrapUp.ElapsedSeconds` | src/contextproviders/ContactCenterContext.jsx:809 | The result is the floor, in whole seconds, of the time since the status change. |
| `WrapUp.Countdown` | src/contextproviders/ContactCenterContext.jsx:812 | The countdown is never positive. It is 0 iff the wrap-up time is used up, and otherwise elapsed − wrap_up_time. |
| `WrapUp.FormatTime` | src/contextproviders/ContactCenterContext.jsx:800-806 | The display is bracketed by "(" and ")", carries '-' right after "(" iff the seconds are negative, and below 100 minutes has the fixed width "(MM:SS)" (one more character with the sign). |
| `WrapUp.FormatTimeRoundTrip` | src/contextproviders/ContactCenterContext.jsx:800-806 | Reading the "(±MM:SS)" display back gives the seconds it was made from. |
| `WrapUp.Tick` | src/contextproviders/ContactCenterContext.jsx:794-821 | No snapshot shows "(00:00)". A blank snapshot shows "(NaN:NaN)". 'nd' is disposed only with 'Idle' requested and a disposition owed. 'Idle' is requested only in 'Wrap Up'. |
| `WrapUp.WrapUpEndsOnTime` | src/contextproviders/ContactCenterContext.jsx:811-817 | In 'Wrap Up', a tick requests 'Idle' iff the wrap-up time has passed, and disposes 'nd' iff a disposition is also owed. |
| `WrapUp.TickDisplayMeaning` | src/contextproviders/ContactCenterContext.jsx:808-820 | The display reads back as the countdown in 'Wrap Up', and as max(0, elapsed) in any other status. |
| `AudioDevices.OfKind` | src/contextproviders/ContactCenterContext.jsx:113-114 | The devices of exactly that kind, and no more than the list had. Order and copies are kept (`OfKindAppend`, `OfKindFirst`). |
| `AudioDevices.OfKindAppend` | src/contextproviders/ContactCenterContext.jsx:113-114 | The filter keeps the browser's order and every copy: a device appended to the list is appended to the matches iff it has the kind. |
| `AudioDevices.OfKindFirst` | src/contextproviders/ContactCenterContext.jsx:113-114 | The filtered list is non-empty iff a device of that kind is listed, and its head is the first such device in the browser's order. |
| `AudioDevices.FindById` | src/contextproviders/ContactCenterContext.jsx:122 | Found iff a device has that id, and the result is a listed device with it. |
| `AudioDevices.Fallback` | src/contextproviders/ContactCenterContext.jsx:125 | The 'default' device if listed, else the first. Nothing only for an empty list. |
| `AudioDevices.InitialChoice` | src/contextproviders/ContactCenterContext.jsx:119-134 | The stored id if it is listed, else the fallback. Every choice is a listed device. |
| `AudioDevices.RefreshChoice` | src/contextproviders/ContactCenterContext.jsx:218-231 | A switch happens iff the selected device vanished and devices remain. It switches to the fallback. |
| `AudioDevices.RefreshSettles` | src/contextproviders/ContactCenterContext.jsx:210-236 | After one refresh the selection is unset or listed, so a second refresh over the same list switches nothing (unless the fallback id is empty). |
| `AudioDevices.AudioConstraints` | src/contextproviders/ContactCenterContext.jsx:267-272 | The exact selected device when one is set, any microphone otherwise. |
| `ContactCenter.Hydrated` | src/contextproviders/ContactCenterContext.jsx:538-551 | Only the five hydration fields change, each exactly under its own condition. A successful product reply installs the offerings. A script or campaign reply that did not fail installs its content. A successful create or load with data installs the customer. Several matches install the candidates. |
| `ContactCenter.HydrationInstallsMatch` | src/contextproviders/ContactCenterContext.jsx:542-551 | On any call, one match with a successful load makes the loaded record the call's customer. Several matches keep the customer and list the candidates. |
| `ContactCenter.HydrationAfterClearStillWrites` | src/contextproviders/ContactCenterContext.jsx:544-545 | A hydration that finishes after the call was cleared still installs the customer on the idle call. |
| `ContactCenter.Dialled` | src/contextproviders/ContactCenterContext.jsx:668-710 | The call `makeCall` leaves: unchanged when it cannot dial, cleared when the INVITE fails, otherwise ringing out to the number as an outgoing call, with the customer, UUID, queue and disposition flag kept. |
| `ContactCenter.RefreshedAudioMeaning` | src/contextproviders/ContactCenterContext.jsx:210-232 | A refresh relists both kinds and keeps the permission. It moves each selection per the fallback rule and persists the switch. |
| `ContactCenter.ContactCenterProvider.constructor` | src/contextproviders/ContactCenterContext.jsx:27-103 | Everything starts idle and disconnected. The two stored device ids are read in. |
| `ContactCenter.ContactCenterProvider.ClearCallState` | src/contextproviders/ContactCenterContext.jsx:242-265 | Every call field returns to its initial value and nothing else changes. So clearing twice equals clearing once. |
| `ContactCenter.ContactCenterProvider.UpdateStatus` | src/contextproviders/ContactCenterContext.jsx:315-318 | A status frame is sent only on an existing, authenticated socket. |
| `ContactCenter.ContactCenterProvider.SendPing` | src/contextproviders/ContactCenterContext.jsx:320-323 | A ping is sent only on an existing, authenticated socket. |
| `ContactCenter.ContactCenterProvider.OnSessionStateChange` | src/contextproviders/ContactCenterContext.jsx:428-481 | Established sets wasEstablished. Terminated after establishment owes a disposition, goes idle, drops the session and asks an outbound call for 'Wrap Up'. Terminated otherwise clears the call. |
| `ContactCenter.ContactCenterProvider.ReceiveInvite` | src/contextproviders/ContactCenterContext.jsx:498-529 | Records caller, queue and UUID, rings in, and starts hydration iff queue and number are present. |
| `ContactCenter.ContactCenterProvider.OnInviteCancelled` | src/contextproviders/ContactCenterContext.jsx:522-526 | The caller hanging up clears the call. |
| `ContactCenter.ContactCenterProvider.FinishHydration` | src/contextproviders/ContactCenterContext.jsx:531-552 | The call becomes `Hydrated` of the replies, and the match rule's follow-up request is issued. |
| `ContactCenter.ContactCenterProvider.FinishAccept` | src/contextproviders/ContactCenterContext.jsx:560-569 | A failed answer clears the call. A successful one keeps it. |
| `ContactCenter.ContactCenterProvider.HandleDisposition` | src/contextproviders/ContactCenterContext.jsx:576-614 | Posts along the route. The call is cleared iff the result is true, and the result is true iff the post succeeded or nothing was posted. |
| `ContactCenter.ContactCenterProvider.HandleDispositionAndCallBack` | src/contextproviders/ContactCenterContext.jsx:616-647 | An empty code is refused. Without a UUID it only clears. With a UUID it posts once; a failed post keeps the call. After a successful post, the call is `Dialled` from the old call without UUID, queue, disposition flag and established mark, to the old caller number. Audio changes only through a permission request, and exactly the 'Callback' status frames are added. Presence, SIP and invite state are unchanged. |
| `ContactCenter.ContactCenterProvider.CallBackAfterDisposition` | src/contextproviders/ContactCenterContext.jsx:629-635 | Drops UUID, queue, disposition flag and established mark, redials the old caller number (the call becomes `Dialled`), and sends the 'Callback' status. |
| `ContactCenter.ContactCenterProvider.MakeCall` | src/contextproviders/ContactCenterContext.jsx:668-710 | Refused without a user agent. Without permission it only asks for it. Otherwise it rings out to the number, and a failed URI or INVITE clears the call. The new call is `Dialled` of the old one. |
| `ContactCenter.ContactCenterProvider.UpdateCustomerData` | src/contextproviders/ContactCenterContext.jsx:653-660 | Saves only for a non-training queue or an outbound call, and always returns true. |
| `ContactCenter.ContactCenterProvider.HangupCall` | src/contextproviders/ContactCenterContext.jsx:712-731 | The request sent is `HangupDispatch` of the current session. |
| `ContactCenter.ContactCenterProvider.ToggleMute` | src/contextproviders/ContactCenterContext.jsx:733-752 | Flips mute only with a session that has an audio sender. |
| `ContactCenter.ContactCenterProvider.ToggleHold` | src/contextproviders/ContactCenterContext.jsx:754-768 | Flips hold only with a session whose re-INVITE succeeds. |
| `ContactCenter.ContactCenterProvider.SendDtmf` | src/contextproviders/ContactCenterContext.jsx:770-787 | An INFO body is sent iff the session is established. |
| `ContactCenter.ContactCenterProvider.WrapUpTick` | src/contextproviders/ContactCenterContext.jsx:808-821 | Applies `Tick`: shows its display, and requests 'Idle' as it says. When it disposes 'nd', the disposition request is sent, and the call becomes idle iff that disposition clears; otherwise the call is unchanged. |
| `ContactCenter.ContactCenterProvider.ConnectWebSocket` | src/contextproviders/ContactCenterContext.jsx:325-345 | Without a user: stop reconnecting and close. With a socket connecting or open: nothing. Otherwise a socket is opened iff a token is available. |
| `ContactCenter.ContactCenterProvider.OnSocketOpen` | src/contextproviders/ContactCenterContext.jsx:347-352 | Connected, attempts reset to 0, and the auth frame sent. |
| `ContactCenter.ContactCenterProvider.OnSocketMessage` | src/contextproviders/ContactCenterContext.jsx:354-378 | A re-auth request without a token closes. 'authenticated' sends sync. A sync_response stores the snapshot and corrects 'Logged Out' to 'On Break'. A database_update stores the snapshot. |
| `ContactCenter.ContactCenterProvider.OnSocketClose` | src/contextproviders/ContactCenterContext.jsx:388-412 | Disconnected. Unless switched off, a retry is scheduled with the backoff delay and the attempt counter grows by one. |
| `ContactCenter.ContactCenterProvider.SocketRetryFired` | src/contextproviders/ContactCenterContext.jsx:407-411 | Connect again unless switched off. |
| `ContactCenter.ContactCenterProvider.TeardownSocket` | src/contextproviders/ContactCenterContext.jsx:853-857 | Reconnection off, timer cancelled, socket closed. |
| `ContactCenter.ContactCenterProvider.ConfigureSip` | src/contextproviders/ContactCenterContext.jsx:867-954 | Runs at most once (the latch is never reset), and only with credentials and permission. On success the counter is reset and the user agent exists. |
| `ContactCenter.ContactCenterProvider.AttemptConnect` | src/contextproviders/ContactCenterContext.jsx:957-964 | 'connecting' unless reconnection is off. |
| `ContactCenter.ContactCenterProvider.SipConnectFailed` | src/contextproviders/ContactCenterContext.jsx:971-989 | 'disconnected' with the error. A retry is scheduled with the backoff delay and the counter grows. |
| `ContactCenter.ContactCenterProvider.SipRetryFired` | src/contextproviders/ContactCenterContext.jsx:984-988 | Try again unless reconnection is off. |
| `ContactCenter.ContactCenterProvider.OnRegistererState` | src/contextproviders/ContactCenterContext.jsx:936-950 | Registered resets the counter. Unregistered means 'connected'. Terminated means 'disconnected'. |
| `ContactCenter.ContactCenterProvider.OnTransportDisconnect` | src/contextproviders/ContactCenterContext.jsx:996-1062 | Ignored while a reconnect is pending. Otherwise 'disconnected', and unless switched off, one reconnect is scheduled with the backoff delay. |
| `ContactCenter.ContactCenterProvider.SipReconnectFired` | src/contextproviders/ContactCenterContext.jsx:1024-1060 | On success the counter resets, 'registered' when registered, and an established call is refreshed. The reconnecting phase always ends, and a failure schedules nothing. |
| `ContactCenter.ContactCenterProvider.TeardownSip` | src/contextproviders/ContactCenterContext.jsx:1068-1088 | Reconnection off, timer cancelled, user agent dropped. The configuration latch stays set. |
| `ContactCenter.ContactCenterProvider.RequestAudioPermissions` | src/contextproviders/ContactCenterContext.jsx:107-152 | Succeeds iff granted. Lists both kinds, and selects a listed device of each kind whenever one exists. |
| `ContactCenter.ContactCenterProvider.ApplyAudioDevices` | src/contextproviders/ContactCenterContext.jsx:154-208 | Each non-empty id is persisted and selected. |
| `ContactCenter.ContactCenterProvider.RefreshAudioDevices` | src/contextproviders/ContactCenterContext.jsx:210-236 | The audio state becomes `RefreshedAudio`. |
| `Text.DigitsOnly` | src/components/call-script.jsx:72 | The result is all digits, no longer than the input, and holds exactly the input's digits, each as often. |
| `Text.DigitsOnlyConcat` | src/components/call-script.jsx:72 | Filtering distributes over concatenation. |
| `FormEdits.DefaultValue` | src/components/call-script.jsx:93-111 | The form's initial values: 'not_subscribed', false, or ''. |
| `FormEdits.RemoveAll` | src/components/call-script.jsx:201-208 | No occurrence is left. Every other element keeps its count. |
| `FormEdits.ToggleCondition` | src/components/call-script.jsx:192-199 | Membership of the toggled condition flips. Others are unchanged. An absent one is appended. |
| `FormEdits.ToggleTwice` | src/components/call-script.jsx:192-199 | Toggling twice restores membership, and restores the list itself when the condition was absent. |
| `FormEdits.RemoveAllSplit` | src/components/call-script.jsx:204 | Removal distributes over concatenation. |
| `FormEdits.CanAddContact` | src/components/call-script.jsx:211 | A contact is added only with both names non-empty. |
| `FormEdits.AddContact` | src/components/call-script.jsx:214 | The result is the old list with the draft appended. |
| `FormEdits.RemoveContactAt` | src/components/call-script.jsx:228-235 | Only index i is dropped and order is kept. An index out of range changes nothing. |
| `FormEdits.SetField` | src/components/call-script.jsx:241 | Only the named field of the contact changes. |
| `FormEdits.UpdateContactAt` | src/components/call-script.jsx:237-246 | Only field f of entry i changes. Length and other entries are unchanged. |
| `FormEdits.AccountPrecheck` | src/components/call-script.jsx:253-266 | Missing numbers, a routing length other than 9, or an account shorter than 5 are rejected in that order. It passes iff none holds. |
| `FormEdits.RoutingInput` | src/components/customer-information.jsx:348-351 | The routing input (also the billing field at call-script.jsx:563-567) holds only digits, at most 9 of them. |
| `FormEdits.AccountInput` | src/components/customer-information.jsx:365-368 | The account input (also the billing field at call-script.jsx:563-564) holds only digits. |
| `FormEdits.RoutingInputMeaning` | src/components/call-script.jsx:563-567 | The routing input is a prefix of the digits: 9 digits when that many were typed. Re-filtering changes nothing. |
| `FormEdits.AccountInputIdempotent` | src/components/customer-information.jsx:367 | Re-filtering the account input changes nothing. |
| `CallScript.FormatPhoneNumber` | src/components/call-script.jsx:71-79 | The loop's result equals `FormatDigits` of the input's digits. |
| `CallScript.FormatPhoneNumberMeaning` | src/components/call-script.jsx:71-79 | The formatted text's digits are the first 10 of the input's. Formatting formatted text changes nothing. |
| `CallScript.FullNumberLayout` | src/components/call-script.jsx:73-76 | Ten digits come out as "(ddd) ddd-dddd". |
| `CallScript.Key` | src/components/call-script.jsx:437 | The text after the first '.', up to the next '.'. With no '.' the key reads as "undefined". |
| `CallScript.Substitute` | src/components/call-script.jsx:437-448 | Customer, Billing and Agent look the key up ('' when missing or falsy). Any other route keeps the placeholder verbatim. |
| `CallScript.ResolvePlaceholders` | src/components/call-script.jsx:431-450 | Null or empty content is returned unchanged. Otherwise the result is text. |
| `CallScript.NoPlaceholderUnchanged` | src/components/call-script.jsx:434-436 | Text with no "{…}" match is returned unchanged. |
| `CallScript.FirstPlaceholderThenRest` | src/components/call-script.jsx:431-450 | For text with any number of placeholders, the text before the first one is copied, that one is replaced by its substitution, and the rest resolves on its own. So every placeholder is replaced, left to right. |
| `CallScript.SinglePlaceholder` | src/components/call-script.jsx:434-448 | Text with exactly one placeholder: the placeholder is replaced by its substitution and the text around it is kept. |
| `CallScript.CustomerText` | src/components/call-script.jsx:440-441 | No customer, or a key the record does not have, gives ''. A field the record has gives its text. |
| `CallScript.StartSlideIndex` | src/components/call-script.jsx:139-144 | The first slide marked startSlide, else 0. No earlier slide is marked. |
| `CallScript.SlideValid` | src/components/call-script.jsx:327-380 | The slide is valid iff every content block passes: required form, address and billing fields are filled (not blank), a required product is chosen, a required disclaimer is accepted. |
| `CallScript.ResetFor` | src/components/call-script.jsx:148-158 | Leaving a billing slide drops verification. Leaving an authorisation slide drops the subscription flag and the disclaimer. |
| `CallScript.CallScriptForm.constructor` | src/components/call-script.jsx:85-130 | The initial slide, flags, form, billing and draft. |
| `CallScript.CallScriptForm.ScriptLoaded` | src/components/call-script.jsx:139-144 | A non-empty script starts on `StartSlideIndex`. An empty one keeps the index. |
| `CallScript.CallScriptForm.CustomerLoaded` | src/components/call-script.jsx:133-137 | A loaded customer replaces the record. A missing one is ignored. |
| `CallScript.CallScriptForm.IsCurrentSlideValid` | src/components/call-script.jsx:327-380 | The nested loops compute `SlideValid` of the current slide. |
| `CallScript.CallScriptForm.HandlePrevious` | src/components/call-script.jsx:399-403 | Back one slide unless on the first. The index stays in range. |
| `CallScript.CallScriptForm.GoToSlide` | src/components/call-script.jsx:1206 | Moves to the clicked dot's slide. |
| `CallScript.CallScriptForm.HandleNext` | src/components/call-script.jsx:405-429 | Moves on iff the slide is valid, any needed verification passes, and this is not the last slide. Sends the verification and subscription requests the guards allow. |
| `CallScript.CallScriptForm.HandleFieldChange` | src/components/call-script.jsx:169-174 | Stores the value and pushes the new record to the provider. |
| `CallScript.CallScriptForm.HandlePhoneFieldChange` | src/components/call-script.jsx:495-499 | A tel input stores the formatted number. |
| `CallScript.CallScriptForm.HandleCheckboxChange` | src/components/call-script.jsx:182-190 | Stores the flag. Checking have_consent also stamps last_consent. |
| `CallScript.CallScriptForm.HandleBillingFieldChange` | src/components/call-script.jsx:176-180 | Stores the value and drops verification. |
| `CallScript.CallScriptForm.HandleBillingInput` | src/components/call-script.jsx:561-569 | Routing keeps at most 9 digits, account digits only, others as typed. |
| `CallScript.CallScriptForm.SetDisclaimerAccepted` | src/components/call-script.jsx:1010 | Sets the disclaimer flag. |
| `CallScript.CallScriptForm.ToggleCondition` | src/components/call-script.jsx:192-199 | Applies `FormEdits.ToggleCondition` and pushes the record. |
| `CallScript.CallScriptForm.RemoveCondition` | src/components/call-script.jsx:201-208 | Applies `FormEdits.RemoveAll` and pushes the record. |
| `CallScript.CallScriptForm.AddEmergencyContact` | src/components/call-script.jsx:210-226 | With both names: append the draft, clear it, close the panel. Otherwise nothing. |
| `CallScript.CallScriptForm.RemoveEmergencyContact` | src/components/call-script.jsx:228-235 | Applies `FormEdits.RemoveContactAt` and pushes the record. |
| `CallScript.CallScriptForm.UpdateEmergencyContact` | src/components/call-script.jsx:237-246 | Applies `FormEdits.UpdateContactAt` and pushes the record. |
| `CallScript.CallScriptForm.EditDraft` | src/components/call-script.jsx:718-752 | Sets one draft field. The phone is formatted. |
| `CallScript.CallScriptForm.ToggleAddContact` | src/components/call-script.jsx:703 | Flips the add-contact panel. |
| `CallScript.CallScriptForm.CancelAddContact` | src/components/call-script.jsx:763-764 | Closes the panel and clears the draft. |
| `CustomerInformation.FieldOrDefault` | src/components/customer-information.jsx:125-139 | The record's value when truthy, else the key's default. |
| `CustomerInformation.FormFromCustomer` | src/components/customer-information.jsx:122-144 | The form has exactly the 15 keys, each the customer's value or its default. Missing lists become []. |
| `CustomerInformation.FormFromCustomerIdempotent` | src/components/customer-information.jsx:122-144 | Loading a loaded form changes nothing. |
| `CustomerInformation.CustomerInformationForm.constructor` | src/components/customer-information.jsx:95-119 | An empty form, a closed dialog on step 1, checking with empty numbers. |
| `CustomerInformation.CustomerInformationForm.CustomerLoaded` | src/components/customer-information.jsx:122-144 | The form becomes `FormFromCustomer` of the loaded record. |
| `CustomerInformation.CustomerInformationForm.HandleInputChange` | src/components/customer-information.jsx:146-159 | Stores the text under its key. |
| `CustomerInformation.CustomerInformationForm.HandleCheckboxChange` | src/components/customer-information.jsx:161-167 | have_consent is the checked value. last_consent is the timestamp when checked and '' when unchecked. |
| `CustomerInformation.CustomerInformationForm.ToggleCondition` | src/components/customer-information.jsx:169-176 | Applies `FormEdits.ToggleCondition`. |
| `CustomerInformation.CustomerInformationForm.RemoveCondition` | src/components/customer-information.jsx:178-183 | Applies `FormEdits.RemoveAll`. |
| `CustomerInformation.CustomerInformationForm.AddEmergencyContact` | src/components/customer-information.jsx:185-199 | With both names: append, clear the draft, close the panel. |
| `CustomerInformation.CustomerInformationForm.RemoveEmergencyContact` | src/components/customer-information.jsx:201-206 | Applies `FormEdits.RemoveContactAt`. |
| `CustomerInformation.CustomerInformationForm.UpdateEmergencyContact` | src/components/customer-information.jsx:208-215 | Applies `FormEdits.UpdateContactAt`. |
| `CustomerInformation.CustomerInformationForm.EditDraft` | src/components/customer-information.jsx:793-824 | Sets one draft field as typed. |
| `CustomerInformation.CustomerInformationForm.ToggleAddContact` | src/components/customer-information.jsx:774-781 | Opens or closes the draft panel; nothing else changes. |
| `CustomerInformation.CustomerInformationForm.CancelAddContact` | src/components/customer-information.jsx:829-840 | Closes the panel and empties the draft; nothing else changes. |
| `CustomerInformation.CustomerInformationForm.HandleSubmit` | src/components/customer-information.jsx:217-220 | The whole form is handed to the provider's save. |
| `CustomerInformation.CustomerInformationForm.TogglePayment` | src/components/customer-information.jsx:256-267 | Opens on step 1 with no product, no disclaimer, not validated, checking with empty numbers. |
| `CustomerInformation.CustomerInformationForm.ClosePaymentDialog` | src/components/customer-information.jsx:269-275 | Closes and resets step, product, disclaimer and the valid flag. The bank details stay. |
| `CustomerInformation.CustomerInformationForm.SelectAccountType` | src/components/customer-information.jsx:329-332 | Stores the chosen account type; both numbers and the rest of the dialog stay. |
| `CustomerInformation.CustomerInformationForm.EditRoutingNumber` | src/components/customer-information.jsx:348-351 | The routing number becomes `RoutingInput` of the typed text (the first 9 digits); the type and account number stay. |
| `CustomerInformation.CustomerInformationForm.EditAccountNumber` | src/components/customer-information.jsx:365-368 | The account number becomes `AccountInput` of the typed text (its digits); the type and routing number stay. |
| `CustomerInformation.CustomerInformationForm.VerifyEnabled` | src/components/customer-information.jsx:378-386 | The Verify button is enabled iff the dialog is on step 1, nothing is loading, and the pre-check does not report missing numbers. |
| `CustomerInformation.CustomerInformationForm.BeginVerify` | src/components/customer-information.jsx:222-242 | The pre-checks reject before any request. Otherwise it is loading and one verification request is sent. |
| `CustomerInformation.CustomerInformationForm.FinishVerify` | src/components/customer-information.jsx:244-253 | Strict success marks the account valid and moves to step 2. Failure leaves the step. Loading ends either way. |
| `CustomerInformation.CustomerInformationForm.SelectProduct` | src/components/customer-information.jsx:407 | Chooses the product. |
| `CustomerInformation.CustomerInformationForm.ContinueToReview` | src/components/customer-information.jsx:434-436 | Step 2 → 3 only with a product chosen. |
| `CustomerInformation.CustomerInformationForm.Back` | src/components/customer-information.jsx:430 | Step 2 → 1 and step 3 → 2. |
| `CustomerInformation.CustomerInformationForm.SetDisclaimerAccepted` | src/components/customer-information.jsx:494 | Sets the disclaimer flag. |
| `CustomerInformation.CustomerInformationForm.SubmitEnabled` | src/components/customer-information.jsx:509-515 | The Submit button is never enabled together with Verify. In a valid state it is enabled only after the account was verified and a product chosen. |
| `CustomerInformation.CustomerInformationForm.BeginSubmit` | src/components/customer-information.jsx:277-285 | Only with the disclaimer accepted and nothing loading: loading, and one subscription request with the product. |
| `CustomerInformation.CustomerInformationForm.FinishSubmit` | src/components/customer-information.jsx:287-300 | Success closes the dialog. Failure leaves it. Loading ends. |
| `OtpForm.MaskUsername` | src/components/otp-form.jsx:44-49 | '' for a missing or empty name; a name of ≤ 2 characters as it is; otherwise the same length, first and last characters kept, every middle one '*'. |
| `OtpForm.MaskUsernameIdempotent` | src/components/otp-form.jsx:44-49 | Masking a masked name changes nothing. |
| `OtpForm.HandleComplete` | src/components/otp-form.jsx:29-36 | The value is stored. It is submitted iff it has exactly 6 characters. |
| `OtpForm.ManualSubmit` | src/components/otp-form.jsx:38-42 | The code is submitted iff not verifying and it has exactly 6 characters. |
| `TopBar.AttemptLogout` | src/components/top-bar.jsx:77-93 | Logs out, after sending 'Logged Out', iff there is no call and nothing to disposition. Otherwise only the matching notice. |
| `TopBar.HandleStateChange` | src/components/top-bar.jsx:61-69 | '' is ignored. A selectable status is sent. Anything else is refused and never sent. |
| `LoginForm.LoginFormState.constructor` | src/components/login-form.jsx:27-32 | Empty fields, no errors, empty forgot-password username. |
| `LoginForm.LoginFormState.HandleInputChange` | src/components/login-form.jsx:34-48 | Sets only the named field, and clears only that field's error, only if it has one. |
| `LoginForm.LoginFormState.ValidateForm` | src/components/login-form.jsx:50-65 | A username error iff the username is empty; a password error iff the password is empty; nothing else. Returns true iff there are no errors. |
| `LoginForm.LoginFormState.HandleSubmit` | src/components/login-form.jsx:67-73 | Unless a login is in progress: validate, with one message per empty field, and submit the fields iff both are filled. |
| `LoginForm.LoginFormState.SetForgotUsername` | src/components/login-form.jsx:162 | Sets the forgot-password username. |
| `LoginForm.LoginFormState.HandleForgotPasswordSubmit` | src/components/login-form.jsx:75-80 | A reset is requested iff the username is non-empty. |
| `LoginForm.LoginFormState.ResetFormSubmitted` | src/components/login-form.jsx:67-169 | One reset-form submit: the reset is requested iff its username is non-empty. Then the login form's handler runs as well: one error per empty login field, and a login is submitted iff both fields are filled, even while a login is in progress. |
| `BillingAddress.UseSameAddress` | src/components/billing_address_manager.jsx:70 | True iff different_billing_address is falsy. |
| `BillingAddress.SyncWrites` | src/components/billing_address_manager.jsx:72-78 | Five writes, one per billing field, each the shipping value or ''. |
| `BillingAddress.SyncSetsBillingFields` | src/components/billing_address_manager.jsx:72-78 | After the sync, the record holds exactly the old keys plus the five billing fields. Each billing field is copied from its shipping field, and every other field is unchanged. |
| `BillingAddress.ZipInput` | src/components/billing_address_manager.jsx:209 | Digits only, at most 5, a prefix of the typed digits. |
| `BillingAddress.ZipInputIdempotent` | src/components/billing_address_manager.jsx:209 | Re-filtering a ZIP changes nothing. |
| `BillingAddress.BillingAddressManager.constructor` | src/components/billing_address_manager.jsx:69 | The card starts with its two records and nothing sent. |
| `BillingAddress.BillingAddressManager.SyncShippingToBilling` | src/components/billing_address_manager.jsx:72-78 | The loop sends exactly `SyncWrites`. |
| `BillingAddress.BillingAddressManager.HandleSameAddressChange` | src/components/billing_address_manager.jsx:80-85 | Writes different_billing_address := !checked, then syncs iff checked or the billing street is empty. |
| `BillingAddress.BillingAddressManager.SyncEffect` | src/components/billing_address_manager.jsx:88-99 | Syncs iff the addresses are the same. |
| `BillingAddress.BillingAddressManager.HandleFieldChange` | src/components/billing_address_manager.jsx:101-103 | Exactly one write, of the given pair. |
| `BillingAddress.BillingAddressManager.HandleZipInput` | src/components/billing_address_manager.jsx:207-210 | One write of the filtered ZIP. |
| `AddressAutocomplete.FirstTruthy` | src/components/address-autocomplete.jsx:116-121 | '' iff no key in the chain is truthy. Otherwise the value of the first truthy key. |
| `AddressAutocomplete.SelectedAddress` | src/components/address-autocomplete.jsx:115-123 | Exactly the six address fields, each read along its fallback chain. |
| `AddressAutocomplete.PostalCodeFallback` | src/components/address-autocomplete.jsx:120 | With address_zip and zip empty, a postal_code is used. |
| `AddressAutocomplete.FieldChanged` | src/components/address-autocomplete.jsx:130-135 | Only the named field changes. Every other field of the given record is kept. |
| `AddressAutocomplete.AddressAutoComplete.constructor` | src/components/address-autocomplete.jsx:71-75 | Empty query, no matches, not loading, hidden. |
| `AddressAutocomplete.AddressAutoComplete.SetQuery` | src/components/address-autocomplete.jsx:259 | Sets the query. |
| `AddressAutocomplete.AddressAutoComplete.BeginFindMatches` | src/components/address-autocomplete.jsx:79-91 | A query under 3 characters sends nothing and hides empty results. Otherwise it is loading and the query is sent. |
| `AddressAutocomplete.AddressAutoComplete.FinishFindMatches` | src/components/address-autocomplete.jsx:92-106 | Results are shown iff the reply succeeded, as its data or []. Failure or an exception leaves matches empty and hidden. Loading ends. |
| `AddressAutocomplete.AddressAutoComplete.HandleAddressSelect` | src/components/address-autocomplete.jsx:114-128 | Sends `SelectedAddress`, then empties the query and matches and hides the results. |
| `AddressAutocomplete.AddressAutoComplete.HandleFieldChange` | src/components/address-autocomplete.jsx:130-135 | Sends `FieldChanged` of the given record. |
| `AddressAutocomplete.AddressAutoComplete.Clear` | src/components/address-autocomplete.jsx:266-275 | With a query and nothing loading, empties query and matches and hides them. Otherwise nothing. |
| `ChargeDatePicker.Split` | src/components/charge-date-picker.jsx:18 | `split`: at least one part, none containing the separator; a separator-free string is one part. |
| `ChargeDatePicker.SplitThree` | src/components/charge-date-picker.jsx:18 | "a-b-c" with dash-free parts splits into [a, b, c]. |
| `ChargeDatePicker.ParseLocalDate` | src/components/charge-date-picker.jsx:16-20 | An empty input gives no date. A parsed day is always a real calendar day with a 0-based month. |
| `ChargeDatePicker.FormatLocalDate` | src/components/charge-date-picker.jsx:22-28 | null iff no date. |
| `ChargeDatePicker.ParseFormattedDate` | src/components/charge-date-picker.jsx:16-28 | Formatting a real day from year 100 on and parsing it back gives that day. |
| `ChargeDatePicker.FormatParsedDate` | src/components/charge-date-picker.jsx:16-28 | "YYYY-MM-DD" naming a real day in 1000-9999 parses to (Y, M−1, D) and formats back to itself. |
| `ChargeDatePicker.Disabled` | src/components/charge-date-picker.jsx:30-39 | Selectable iff between today's midnight and 23:59:59.999 fourteen days later. |
| `ChargeDatePicker.SelectableDays` | src/components/charge-date-picker.jsx:30-39 | A day, given by its midnight, is selectable iff it is today or one of the next 14 days. |

## Left out

- Effects:
  - SIP.js, WebRTC media, audio elements, `localStorage`, toasts and sounds
    are left out, because they are I/O.
  - Their outcomes are parameters: a reply, `dialOk`, `reinviteOk`,
    `hasAudioSender`, a permission result, a device list.
  - The media set-ups (`setupRemoteMedia`, `cleanupMedia`) and the track swap
    in `applyAudioDevices` are not modelled.
- Timing:
  - The 500 ms debounce of customer saves and the 350 ms debounce of address
    lookups are left out.
  - The 10 s ping interval and the 1 s timer interval are left out; each firing
    is a method call (`SendPing`, `WrapUpTick`).
  - Interleaving between an `await` and its continuation is modelled only
    where the split is explicit (invite, socket, SIP, customer-information
    dialog, address lookup).
- `CallScript.CallScriptForm.HandleNext`:
  - It runs its awaits atomically, and the verification reply is a
    parameter.
  - The `isVerifying` and `isCreatingSubscription` flags are not modelled,
    because they are visible only mid-handler.
  - `createSubscription` returns `true` whenever the request does not throw
    (call-script.jsx:300), so `isSubscriptionCreated` is never set. This is
    kept as an invariant.
- CallScript's slide-reset effect (call-script.jsx:146-156) reads
  `currentSlide`, which is declared later, at line 392. On a render with a
  script, that declaration has run before the effect does. The effect then
  reads the current slide, as the model's reset on every index change does.
  On a render that took the no-script early return (line 382), the binding is
  never initialised, so the effect's read throws. That case is left out. The
  early return also changes the hook order.
- `CallScript.CallScriptForm.HandleFieldChange` requires that the field name
  is not `conditions` or `emergency_contacts`. A script field with one of
  those names would overwrite a list with text; such scripts are not
  modelled.
- `CallScript.CallScriptForm.HandlePhoneFieldChange` has the same restriction
  on field names, for the same reason.
- `CallScript.CallScriptForm.HandleCheckboxChange` has the same restriction
  on field names, for the same reason.
- `CallScript.CallScriptForm.ToggleCondition`, `RemoveCondition` and the
  contact edits throw in JavaScript when the loaded customer has no list. The
  model leaves the state unchanged in that case.
- `CallScript.Substitute` renders a non-string customer value in one of two
  ways:
  - a list as `String(array)`: conditions joined with ',', contacts as
    "[object Object]" each;
  - `true` as "true".
  Numbers are not part of the value type.
- `CallScript.CustomerText`, `CallScript.MapText` and `CallScript.AgentText`
  look a key up in the record's own fields only. JavaScript's `?.[key]` also
  reaches properties inherited from `Object.prototype`, so
  `{Customer.constructor}` renders a function's text in the browser but '' in
  the model. Inherited properties are left out.
- `CustomerInformation.CustomerInformationForm.HandleCheckboxChange` is
  modelled although no element of the panel calls it.
- The current time's `toISOString` is the parameter `nowIso`.
- `ChargeDatePicker.ParseLocalDate` returns `Unmodelled` for input the model
  does not read:
  - a month or day out of range, which `new Date` would roll over;
  - an empty or non-numeric part, or fewer than three parts;
  - parts `Number` reads but that are not plain digits, such as " 05", "+05"
    or "5.0".
  JavaScript's month and day roll-over and the full `Number` grammar are not
  modelled.
- `ChargeDatePicker.Disabled` works on integer milliseconds of local time;
  time zones and daylight-saving shifts are left out.
- `ChargeDatePicker.FormatLocalDate` takes years from 0 on; negative years
  are left out.
- `useApi.execute` catches every error and returns `{success: false}`, so the
  catch branches around it never run; they are not modelled as separate
  outcomes. `CustomerInformation.CustomerInformationForm.FinishSubmit` takes a
  reply only: the catch of `handleSubmitSubscription`
  (customer-information.jsx:295-298) ends in the same state as a failed reply.
  Only `AddressAutocomplete.AddressAutoComplete.FinishFindMatches` has a
  separate thrown outcome (`None`): there the catch also hides the results.
- The CRM pages (`Dashboard.jsx`, `Login.jsx`), the authentication service
  and provider, `device-settings.jsx` and `App.jsx` are not part of this
  model.
- The provider's mount effect (ContactCenterContext.jsx:843-848) is not
  modelled as such. It calls `requestAudioPermissions` again whenever that
  callback's identity changes, which happens after each device selection. It
  also subscribes `devicechange` to `refreshAudioDevices`. Each such firing is
  a call of `RequestAudioPermissions` or `RefreshAudioDevices`; the re-runs
  and the subscription itself are left out.
- `OtpForm.MaskUsername`, `OtpForm.HandleComplete`, `OtpForm.ManualSubmit` and
  `AddressAutocomplete.AddressAutoComplete.BeginFindMatches` count Dafny
  characters, not the UTF-16 code units of JavaScript's `.length`; they differ
  for characters outside the Basic Multilingual Plane.
- The `selectableStatuses` list comes from a configuration module that is not
  part of this model; it is a parameter of `TopBar.HandleStateChange`.

## Where the code departs from its evident intent

The model follows the code in each of these cases:

- Both transports use backoff multiplier 2, including the presence socket.
- A hydration that completes after the call was cleared still writes its
  results; there is no stale-result guard (`HydrationAfterClearStillWrites`).
- An `auth_required` frame without a token closes the socket. The close
  handler then reconnects with backoff; there is no bounded retry.
- The logout gate checks `currentCall`. That is the session only while the
  call is established, not "any non-idle call".
- `isConfigured` is never reset, so the signaling stack is not configured
  again after its effect is cleaned up.
- A failed reconnect after a transport disconnect schedules no further retry.
- The Next button is disabled on the last slide (call-script.jsx:1219), so
  `handleNext` never runs there. Its own `!isLastSlide` test (line 426) is
  dead in the app. A script whose last slide is the billing or subscription
  slide can therefore never verify the account or create the subscription.
  `CallScript.CallScriptForm.HandleNext` models the handler itself, so it
  still sends those requests when called on a last slide.
- The login inputs carry the native `required` attribute
  (login-form.jsx:112, 128). The Login button therefore never submits the
  form with an empty field. The error path of `validateForm` is reached only
  through a reset-form submit (next item).
- The reset-password form (login-form.jsx:154-169) is nested inside the login
  form (lines 84-179): the dialog's portal keeps it in the component tree.
  `handleForgotPasswordSubmit` calls only `preventDefault`, so the submit
  propagates. One "Send Reset Link" then also runs the login form's
  `handleSubmit`. That shows the required-field errors, or, with both login
  fields filled, starts a login past the disabled Login button
  (`LoginForm.LoginFormState.ResetFormSubmitted`).
- `handleDispositionAndCallBack` has no outbound branch. An outbound call
  without a UUID is only cleared.
- The outbound flag for 'Wrap Up' is `obCallRef`, which mirrors
  `currentCallIsOutbound`. The model reads the call's direction directly.
