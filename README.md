# QYouTube authentication request, modelled in Dafny

This project models the OAuth 2.0 request of QYouTube (`AuthenticationRequest`
and its private object) and proves properties of the model. The request serves
two flows. In the installed-application flow, a code is exchanged for a token
(section 4.1.3 of RFC 6749). In the device flow, the client asks for a device
code, then polls the token endpoint until the user grants access or the code
expires. The polling errors come from section 3.5 of RFC 8628. The request also
revokes tokens.

The model has five files:

- `wrappers.dfy`: `Option`.
- `form_encoding.dfy`: the text formats the request writes. These are
  `QStringList::join` and a `k1=v1&k2=v2&...` body written without
  percent-encoding. Each comes with a plain splitter that reads it back: `Split`
  for `Join`, and `FormDecode` for a body. `FormDecode` cuts at '&' and at the
  first '=' of each field and does nothing else: it does not percent-decode and
  does not read '+' as a space, so it is not a full
  `application/x-www-form-urlencoded` reader. The lemmas prove the round trips,
  so a built body splits back into exactly the parameters it was built from.
- `auth_machine.dfy`: the request as a pure state machine.
  - `State` holds the private object's fields: the mode, the device-flow
    session, the outcome, the result and the request being built.
  - Each operation is a function from the old state and its inputs to an
    `Outcome`: the new state plus a list of effects. An effect is a request
    handed to the transport, the `finished` signal, the
    `authorizationCodeReady` signal, or a single-shot timer that will fire the
    next poll after some delay.
  - A network reply is abstract. It records how the transport ended, and the
    parsed JSON body as the four fields the handler reads, or `None` when the
    body does not parse.
  - The clock is an input, `now`. The state records the instant the expiry
    clock was started, so elapsed time is `now - clockStart`.
- `auth_runs.dfy`: runs, meaning any sequence of builder calls, timer firings,
  replies and changes of the client credentials. It proves facts about whole device-flow sessions and walks
  through one complete device flow.
- `authentication_request.dfy`: the class `AuthenticationRequest`. Its fields
  are updated in place in the order the source uses. The constructor, the three
  builders, the poll slot and the reply handler are methods. Each method is
  proved to leave the object in the state, and to return the effects, that the
  matching `AuthMachine` function gives.

## Model

| member | source | states |
|---|---|---|
| AuthMachine.Initial | src/authenticationrequest.cpp:38-44 | A new request is in mode WebToken with expiry 0 and poll interval 5000 ms, and it is well-formed (interval positive, expiry non-negative). The model also starts it with status Idle, no error and no result; those defaults belong to the Request base class, which is not part of this model. |
| AuthMachine.ExpiryMs | src/authenticationrequest.cpp:125 | The expiry window is `expires_in` × 1000 ms when `expires_in` is positive, and 60000 ms otherwise; it is always positive. |
| AuthMachine.IntervalMs | src/authenticationrequest.cpp:126 | The poll interval is `interval` × 1100 ms when `interval` is positive. That is exactly 10% above the server's interval, so it is never shorter than the server asks. Otherwise the interval is 5000 ms. It is always positive. |
| AuthMachine.TokenExchangeBodyFields | src/authenticationrequest.cpp:193-194 | The code-exchange body reads back as exactly `code`, `client_id`, `client_secret`, `redirect_uri=urn:ietf:wg:oauth:2.0:oob` and `grant_type=authorization_code`, in that order, when the caller's values hold no '&'. |
| AuthMachine.DeviceCodeBodyFields | src/authenticationrequest.cpp:243 | The device-code body reads back as exactly `scope` (the scopes joined by single spaces) and `client_id`. |
| AuthMachine.DeviceCodeBodyScopes | src/authenticationrequest.cpp:243 | For a non-empty list of scopes, the body has two fields, and splitting the `scope` value at spaces gives back the list of scopes, when no scope holds a space or '&'. |
| AuthMachine.DeviceCodeBodyNoScopes | src/authenticationrequest.cpp:243 | An empty scope list is sent as an empty `scope` value, which splits back into one empty scope (`[""]`), not into an empty list. |
| AuthMachine.DevicePollBodyFields | src/authenticationrequest.cpp:51-52 | A poll body reads back as exactly `client_id`, `client_secret`, `code` (the device code) and `grant_type=http://oauth.net/grant_type/device/1.0`, in that order. |
| AuthMachine.TokenExchangeBody | src/authenticationrequest.cpp:193-194 | The code-exchange body is exactly the form encoding of `code`, `client_id`, `client_secret`, `redirect_uri` and `grant_type`, in that order. |
| AuthMachine.DeviceCodeBody | src/authenticationrequest.cpp:243 | The device-code body is exactly the form encoding of `scope` (the scopes joined by single spaces) and `client_id`. |
| AuthMachine.DevicePollBody | src/authenticationrequest.cpp:51-52 | The poll body is exactly the form encoding of `client_id`, `client_secret`, `code` (the device code) and the device `grant_type`, in that order. |
| AuthMachine.ExchangeCode | src/authenticationrequest.cpp:189-196 | `exchangeCodeForAccessToken` switches to WebToken, targets the token URL, stores the code-exchange body built from the code and the current credentials, and posts that body. |
| AuthMachine.RequestCode | src/authenticationrequest.cpp:239-245 | `requestAuthorizationCode` switches to DeviceCode, targets the device-code URL, stores the device-code body built from the scopes and the current client id, and posts that body. |
| AuthMachine.Revoke | src/authenticationrequest.cpp:250-263 | `revokeAccessToken` switches to RevokeToken, targets the revocation URL carrying the token, leaves the stored body as it was, and issues a GET. |
| AuthMachine.Poll | src/authenticationrequest.cpp:46-54 | The poll slot switches to DeviceToken, targets the token URL, stores the poll body built from the current credentials and device code, and posts that body. |
| AuthMachine.BuildersSelectMode | src/authenticationrequest.cpp:189-263 | The code exchange switches to WebToken and posts its body to the token URL. `requestAuthorizationCode` switches to DeviceCode and posts to the device-code URL. Revocation switches to RevokeToken and issues a GET carrying the token, leaving the stored body as it was. The poll slot switches to DeviceToken and posts to the token URL. |
| AuthMachine.BuildersKeepSession | src/authenticationrequest.cpp:189-263 | The builders and the poll slot change only the mode, the URL and the body, and keep the device-flow session. Because `post()` and `get()` are not part of this model, the model also keeps the status, the error and the result across these calls. |
| AuthMachine.OnReply | src/authenticationrequest.cpp:56-150 | The reply handler keeps the state well-formed. For any real reply, it emits `finished` if and only if it schedules no poll. |
| AuthMachine.OnParsed | src/authenticationrequest.cpp:82-137 | The switch on the mode for a parsed body keeps the state well-formed, and emits `finished` if and only if it schedules no poll. |
| AuthMachine.NullReplyIgnored | src/authenticationrequest.cpp:57-59 | Without a reply, nothing changes and nothing is emitted. |
| AuthMachine.CanceledReply | src/authenticationrequest.cpp:69-74 | A canceled transport gives Canceled, NoError and an empty message, then `finished`, in every mode. The session is untouched. |
| AuthMachine.FailedTransportReply | src/authenticationrequest.cpp:64-80 | Any other transport error gives Failed, with the transport's code and message, then `finished`. The parsed body is still stored as the result. |
| AuthMachine.UnparsableReply | src/authenticationrequest.cpp:138-149 | A body that does not parse gives Ready and NoError in RevokeToken mode. In every other mode it gives Failed, ParseError and "Unable to parse response". Both emit `finished`. |
| AuthMachine.TokenReplyReady | src/authenticationrequest.cpp:87-97 | A parsed WebToken reply, or a DeviceToken reply without `error`, gives Ready, NoError, an empty message and `finished`. Nothing else changes. |
| AuthMachine.PendingPollsAgain | src/authenticationrequest.cpp:101-105 | Inside the expiry window, `authorization_pending` schedules a poll after the unchanged interval. It sets no status and does not emit `finished`. |
| AuthMachine.SlowDownDoubles | src/authenticationrequest.cpp:106-111 | Inside the expiry window, `slow_down` doubles the interval and schedules a poll after the doubled interval. It sets no status and does not emit `finished`. |
| AuthMachine.DeviceTokenError | src/authenticationrequest.cpp:98-117 | Any other `error`, or any `error` once the window has passed, gives Failed, UnknownContentError and the server's `error` text as the message, then `finished`. |
| AuthMachine.DeviceCodeStartsSession | src/authenticationrequest.cpp:120-130 | A DeviceCode reply with `device_code` does four things. It stores the code, sets the expiry window and the interval from the reply, and restarts the clock at `now`. It then schedules one poll after the new interval and emits `authorizationCodeReady`. It does not emit `finished` and leaves the status as it was. |
| AuthMachine.FinishedWithoutStatus | src/authenticationrequest.cpp:120-149 | A DeviceCode reply without `device_code`, and any parsed RevokeToken reply, emit `finished` and change nothing but the result. |
| AuthMachine.PollOnlyBeforeDeadline | src/authenticationrequest.cpp:98-130 | A reply schedules a poll only when it starts a session, or when it is a DeviceToken reply inside the expiry window. The poll's delay is the new interval. |
| AuthMachine.IntervalKeptOrDoubled | src/authenticationrequest.cpp:98-130 | Any reply that does not start a session keeps or doubles the interval, and keeps the expiry window, its clock and the device code. |
| AuthRuns.Run | src/authenticationrequest.cpp:38-263 | Any sequence of builder calls, timer firings, replies and credential changes keeps the state well-formed. |
| AuthRuns.StepDelays | src/authenticationrequest.cpp:98-130 | Outside a session start, one event schedules at most one poll. Its delay is the new interval, kept or doubled. Without a poll, the interval is kept. |
| AuthRuns.SessionDelaysDouble | src/authenticationrequest.cpp:101-111 | Within one session, each scheduled delay equals the previous one or doubles it, starting from the interval the session had. The final interval is the last delay scheduled. |
| AuthRuns.PollIntervalNeverShrinks | src/authenticationrequest.cpp:101-111 | Within one session, the delays of the polls are non-decreasing and none is below the starting interval. Neither is the final interval. |
| AuthRuns.NoPollAfterDeadline | src/authenticationrequest.cpp:98-117 | Once every reply arrives at or after the end of the expiry window, no run inside the session schedules another poll. |
| AuthRuns.PollOnlyBeforeDeadlineNoDelay | src/authenticationrequest.cpp:98-117 | A reply at or after the deadline that does not start a session schedules no poll. |
| AuthRuns.StrayPollAfterCancel | src/authenticationrequest.cpp:46-74 | A timer that fires after its session was canceled still switches to DeviceToken and posts a poll. Because `post()` is not part of this model, the model's status stays Canceled after that poll. |
| AuthRuns.ExampleRequestStep | src/authenticationrequest.cpp:239-245 | Requesting scopes ["scope/a"] for client "X" posts `scope=scope/a&client_id=X` to the device-code URL. |
| AuthRuns.ExampleSessionStep | src/authenticationrequest.cpp:120-130 | A device code "D" with `expires_in` 60 and `interval` 5 at time 1000 gives a 60000 ms window, a 5500 ms interval and a first poll after 5500 ms. |
| AuthRuns.ExamplePollStep | src/authenticationrequest.cpp:46-54 | The poll for "X", "S", "D" posts `client_id=X&client_secret=S&code=D&grant_type=http://oauth.net/grant_type/device/1.0`. |
| AuthRuns.ExampleSlowDownStep | src/authenticationrequest.cpp:106-111 | `slow_down` at time 7000 doubles 5500 to 11000 and polls after 11000 ms. |
| AuthRuns.ExampleExpiredStep | src/authenticationrequest.cpp:98-117 | `authorization_pending` at time 61000, after the window, fails with the server's text. |
| AuthRuns.DeviceFlowExample | src/authenticationrequest.cpp:46-245 | The whole device flow, step by step, with the five outcomes above. |
| FormEncoding.Join | src/authenticationrequest.cpp:243 | Every character of the joined text is the separator or a character of one of the elements. |
| FormEncoding.SplitJoin | src/authenticationrequest.cpp:243 | Splitting a joined non-empty list at the separator gives back the list, when no element holds the separator. An empty list joins to "", which splits into `[""]`. |
| FormEncoding.FormRoundTrip | src/authenticationrequest.cpp:193-194 | A non-empty list of parameters is read back exactly, in order, from the body built from it. This needs keys without '&' or '=' and values without '&'. |
| AuthenticationRequests.AuthenticationRequest.constructor | src/authenticationrequest.cpp:38-44 | The fields start as `AuthMachine.Initial` says. |
| AuthenticationRequests.AuthenticationRequest.ExchangeCodeForAccessToken | src/authenticationrequest.cpp:189-196 | Updates the fields in place and returns the request, both as `AuthMachine.ExchangeCode` says. |
| AuthenticationRequests.AuthenticationRequest.RequestAuthorizationCode | src/authenticationrequest.cpp:239-245 | Updates the fields in place and returns the request, both as `AuthMachine.RequestCode` says. |
| AuthenticationRequests.AuthenticationRequest.RevokeAccessToken | src/authenticationrequest.cpp:250-263 | Updates the fields in place and returns the request, both as `AuthMachine.Revoke` says. |
| AuthenticationRequests.AuthenticationRequest.PollForDeviceToken | src/authenticationrequest.cpp:46-54 | Updates the fields in place and returns the request, both as `AuthMachine.Poll` says. |
| AuthenticationRequests.AuthenticationRequest.OnReplyFinished | src/authenticationrequest.cpp:56-150 | Updates the fields in place, with early returns as in the source, and returns exactly the effects of `AuthMachine.OnReply`. |
| AuthenticationRequests.AuthenticationRequest.OnParsedReply | src/authenticationrequest.cpp:82-137 | The switch on the mode, in place. It returns the effects of `AuthMachine.OnParsed`. |
| AuthenticationRequests.AuthenticationRequest.OnDeviceTokenReply | src/authenticationrequest.cpp:92-118 | The DeviceToken case of the switch, in place, with the same outcome as `AuthMachine.OnParsed`. |

Three behaviours of the code that a reader of the RFCs might not expect:

- A parsed reply to a revocation does not set a status. The switch has no
  RevokeToken case, so it falls to `default: break` and only emits `finished`.
  Only an unparsable revocation reply sets Ready.
- On `slow_down` the interval is doubled. Section 3.5 of RFC 8628 asks for
  5 seconds more.
- The interval is non-decreasing only within one device-flow session. A new
  device code sets it afresh from the reply, and the new value may be smaller.

## Left out

- The network transport (`QNetworkReply`, `post()`, `get()` of the Request base class) is not part of this model. A finished reply is an input, and a request handed to the transport is a `Submit` effect. Whatever these calls do to the status is not modelled either.
- The JSON parser is an external library. Its output is modelled as `None` (parse failure) or as the four fields the handler reads. The difference between a null and an empty `error` or `device_code` value is not modelled: a present value is `Some`. The `authorizationCodeReady` effect carries only those four fields, while the source emits the whole map, including `user_code` and the verification URL the user needs.
- `QTimer::singleShot` is the `SchedulePoll` effect; its firing is the `PollTimerFired` event. `QTime::elapsed()` is `now - clockStart`, with `now` an input. QTime's wrap at midnight is not modelled. Nor is a `now` earlier than `clockStart`: that is not a real clock reading, since `elapsed()` is never negative, yet the model would count it as inside the expiry window.
- `revokeAccessToken`'s URL building with `QUrlQuery` is modelled as the endpoint `RevokeTokenUrl(token)`. The endpoint addresses in urls.h are not part of this model.
- The numeric values of `Request::Error` are not modelled. A transport failure carries the transport's own code, and the other errors are named constructors.
- The translation of the parse-error message by `tr()` is not modelled. The message is the untranslated text.
- OnReply: `expires_in * 1000`, `interval * 1100` and `deviceInterval *= 2` use unbounded integers, so the wrap-around of the source's 32-bit `int` on huge server values is not modelled.
- TokenExchangeBodyFields: the body is written without percent-encoding, as the source writes it, and is read back by the plain splitter `FormDecode`, for values without '&'. A real form reader would also misread a value holding '+' (as a space) or '%XX' (as an escaped byte), which neither the source nor this model guards against. The same applies to DeviceCodeBodyFields and DevicePollBodyFields.
- The class keeps the same field order and early returns as `_q_onReplyFinished`. The switch on the mode and its DeviceToken case are separate methods, `OnParsedReply` and `OnDeviceTokenReply`, so that each proof stays small.
- The model's constructor takes the client id and secret, while the source's constructor takes only a parent object. In the source they are properties of the Request base class, read each time a body is built (lines 51, 193 and 243); runs model a later change of them as the `CredentialsChanged` event, but the class has no setter for them because the base class is not part of this model. The Idle status, the absent error and the empty result a new request starts with are that base class's defaults, assumed rather than modelled.
- src/channelsmodel.h, src/subscriptionsrequest.h and src/guidecategoriesrequest.h hold only declarations (properties, roles and slot signatures). They have no logic to model.
