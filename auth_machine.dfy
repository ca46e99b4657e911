/**
 * The OAuth 2.0 authentication request of QYouTube, as a pure state machine.
 *
 * `State` holds what AuthenticationRequestPrivate and the Request base class
 * keep between calls: the current mode (`authRequest`), the device-flow
 * session (`deviceCode`, `deviceExpiry`, `deviceInterval` and the instant
 * `deviceExpiryTime` was started), the outcome (`status`, `error`,
 * `errorString`, `result`) and the request being built (`url`, `data`).
 *
 * Each operation is a function from the old state (and its inputs) to the new
 * state plus the effects it has on the world: a request handed to the
 * transport, the `finished` and `authorizationCodeReady` signals, and a
 * single-shot timer that will fire the next device-token poll.
 *
 * The network reply is abstract: how the transport ended, and the JSON body
 * as the few fields the handler reads (None when the body does not parse).
 * The clock is an input: `now`, in milliseconds.
 */
module AuthMachine {
  import opened Wrappers
  import opened FormEncoding

  /** The four kinds of request AuthenticationRequestPrivate::AuthRequest names. */
  datatype AuthRequest = WebToken | DeviceToken | DeviceCode | RevokeToken

  datatype Status = Idle | Loading | Ready | Failed | Canceled

  /** Request::Error; a transport failure carries the transport's own code. */
  datatype Error = NoError | NetworkError(code: int) | ParseError | UnknownContentError

  /** The endpoints (their addresses are constants outside this model). */
  datatype Endpoint = NoUrl | TokenUrl | DeviceCodeUrl | RevokeTokenUrl(token: string)

  /** A request handed to the transport by post() or get(). */
  datatype Outgoing = Post(url: Endpoint, body: string) | Get(url: Endpoint)

  /** How the transport ended: QNetworkReply::NoError, OperationCanceledError,
      or any other error code with its error string. */
  datatype Transport = NoTransportError | OperationCanceled | TransportFailure(code: int, message: string)

  /** The fields of the decoded JSON map that the handler reads. `error` and
      `deviceCode` are None when the key is absent or null; `expiresIn` and
      `interval` are QVariant::toInt() of their values (0 when absent). */
  datatype ReplyMap = ReplyMap(error: Option<string>, deviceCode: Option<string>, expiresIn: int, interval: int)

  /** One finished network reply; `body` is None when the JSON parser fails. */
  datatype Reply = Reply(transport: Transport, body: Option<ReplyMap>)

  datatype Effect =
    | Submit(request: Outgoing)
    | Finished
    | AuthorizationCodeReady(code: ReplyMap)
    | SchedulePoll(delayMs: int)

  datatype State = State(
    mode: AuthRequest,
    deviceExpiry: int,
    deviceInterval: int,
    clockStart: int,
    deviceCode: string,
    status: Status,
    error: Error,
    errorString: string,
    result: Option<ReplyMap>,
    url: Endpoint,
    data: string,
    clientId: string,
    clientSecret: string)

  datatype Outcome = Outcome(state: State, effects: seq<Effect>)

  const RedirectUri: string := "urn:ietf:wg:oauth:2.0:oob"
  const CodeGrantType: string := "authorization_code"
  const DeviceGrantType: string := "http://oauth.net/grant_type/device/1.0"
  const ParseErrorString: string := "Unable to parse response"
  const DefaultExpiryMs: int := 60000
  const DefaultIntervalMs: int := 5000

  /** The session fields the handler relies on: a positive poll interval and
      a non-negative expiry window. */
  predicate Wellformed(s: State)
  {
    s.deviceInterval > 0 && s.deviceExpiry >= 0
  }

  /** The state a new AuthenticationRequest starts in. */
  function Initial(clientId: string, clientSecret: string): (s: State)
    ensures Wellformed(s)
    ensures s.mode == WebToken && s.deviceExpiry == 0 && s.deviceInterval == DefaultIntervalMs
    ensures s.status == Idle && s.error == NoError && s.result == None
  {
    State(WebToken, 0, DefaultIntervalMs, 0, "", Idle, NoError, "", None, NoUrl, "", clientId, clientSecret)
  }

  /** The expiry window of a device code, in ms: the server's `expires_in`
      seconds when positive, otherwise 60 s. */
  function ExpiryMs(expiresIn: int): (ms: int)
    ensures ms > 0
    ensures expiresIn > 0 ==> ms == expiresIn * 1000
    ensures expiresIn <= 0 ==> ms == DefaultExpiryMs
  {
    if expiresIn > 0 then expiresIn * 1000 else DefaultExpiryMs
  }

  /** The poll interval, in ms: the server's `interval` seconds with a 10%
      margin when positive (never shorter than the server asks), otherwise 5 s. */
  function IntervalMs(interval: int): (ms: int)
    ensures ms > 0
    ensures interval > 0 ==> ms > interval * 1000 && ms * 10 == interval * 11000
    ensures interval <= 0 ==> ms == DefaultIntervalMs
  {
    if interval > 0 then interval * 1100 else DefaultIntervalMs
  }

  // ---------------------------------------------------------------------
  // Request bodies

  /** The body of the code exchange (section 4.1.3 of RFC 6749). */
  function TokenExchangeBody(code: string, clientId: string, clientSecret: string): (body: string)
    ensures body == FormEncode([("code", code), ("client_id", clientId), ("client_secret", clientSecret),
                                ("redirect_uri", RedirectUri), ("grant_type", CodeGrantType)])
  {
    EncodeFiveFields("code=", "code", code, "&client_id=", "client_id", clientId,
                     "&client_secret=", "client_secret", clientSecret,
                     "&redirect_uri=", "redirect_uri", RedirectUri,
                     "&grant_type=", "grant_type", CodeGrantType);
    "code=" + code + "&client_id=" + clientId + "&client_secret=" + clientSecret +
    "&redirect_uri=" + RedirectUri + "&grant_type=" + CodeGrantType
  }

  /** The body of the device-code request; scopes are joined with single spaces. */
  function DeviceCodeBody(scopes: seq<string>, clientId: string): (body: string)
    ensures body == FormEncode([("scope", Join(scopes, ' ')), ("client_id", clientId)])
  {
    EncodeTwoFields("scope=", "scope", Join(scopes, ' '), "&client_id=", "client_id", clientId);
    "scope=" + Join(scopes, ' ') + "&client_id=" + clientId
  }

  /** The body of a device-token poll. */
  function DevicePollBody(clientId: string, clientSecret: string, deviceCode: string): (body: string)
    ensures body == FormEncode([("client_id", clientId), ("client_secret", clientSecret), ("code", deviceCode),
                                ("grant_type", DeviceGrantType)])
  {
    EncodeFourFields("client_id=", "client_id", clientId, "&client_secret=", "client_secret", clientSecret,
                     "&code=", "code", deviceCode, "&grant_type=", "grant_type", DeviceGrantType);
    "client_id=" + clientId + "&client_secret=" + clientSecret + "&code=" + deviceCode +
    "&grant_type=" + DeviceGrantType
  }

  /** The code-exchange body carries exactly the five parameters of
      section 4.1.3 of RFC 6749, in order, when the caller's values hold no '&'. */
  lemma TokenExchangeBodyFields(code: string, clientId: string, clientSecret: string)
    requires '&' !in code && '&' !in clientId && '&' !in clientSecret
    ensures FormDecode(TokenExchangeBody(code, clientId, clientSecret)) ==
      [("code", code), ("client_id", clientId), ("client_secret", clientSecret),
       ("redirect_uri", RedirectUri), ("grant_type", CodeGrantType)]
  {
    DecodeFiveFields("code=", "code", code, "&client_id=", "client_id", clientId,
                     "&client_secret=", "client_secret", clientSecret,
                     "&redirect_uri=", "redirect_uri", RedirectUri,
                     "&grant_type=", "grant_type", CodeGrantType);
  }

  /** The device-code body carries exactly `scope` and `client_id`. */
  lemma DeviceCodeBodyFields(scopes: seq<string>, clientId: string)
    requires forall i :: 0 <= i < |scopes| ==> '&' !in scopes[i]
    requires '&' !in clientId
    ensures FormDecode(DeviceCodeBody(scopes, clientId)) == [("scope", Join(scopes, ' ')), ("client_id", clientId)]
  {
    JoinAvoids(scopes, ' ', '&');
    ScopeFormDecodes(Join(scopes, ' '), clientId);
  }

  lemma ScopeFormDecodes(scope: string, clientId: string)
    requires '&' !in scope && '&' !in clientId
    ensures FormDecode("scope=" + scope + "&client_id=" + clientId) == [("scope", scope), ("client_id", clientId)]
  {
    DecodeTwoFields("scope=", "scope", scope, "&client_id=", "client_id", clientId);
  }

  /** A device-token poll body carries exactly the four parameters of the
      device grant, in order. */
  lemma DevicePollBodyFields(clientId: string, clientSecret: string, deviceCode: string)
    requires '&' !in clientId && '&' !in clientSecret && '&' !in deviceCode
    ensures FormDecode(DevicePollBody(clientId, clientSecret, deviceCode)) ==
      [("client_id", clientId), ("client_secret", clientSecret), ("code", deviceCode),
       ("grant_type", DeviceGrantType)]
  {
    DecodeFourFields("client_id=", "client_id", clientId, "&client_secret=", "client_secret", clientSecret,
                     "&code=", "code", deviceCode, "&grant_type=", "grant_type", DeviceGrantType);
  }

  /** A character that occurs in no element and is not the separator does
      not occur in the joined text. */
  lemma {:induction false} JoinAvoids(xs: seq<string>, sep: char, c: char)
    requires c != sep
    requires forall i :: 0 <= i < |xs| ==> c !in xs[i]
    ensures c !in Join(xs, sep)
  {
    if |xs| > 1 {
      JoinAvoids(xs[1..], sep, c);
    }
  }

  /** The scopes are read back from the device-code body one by one, when
      none of them holds a space or '&'. */
  lemma DeviceCodeBodyScopes(scopes: seq<string>, clientId: string)
    requires |scopes| > 0
    requires forall i :: 0 <= i < |scopes| ==> '&' !in scopes[i] && ' ' !in scopes[i]
    requires '&' !in clientId
    ensures |FormDecode(DeviceCodeBody(scopes, clientId))| == 2
    ensures Split(FormDecode(DeviceCodeBody(scopes, clientId))[0].1, ' ') == scopes
  {
    DeviceCodeBodyFields(scopes, clientId);
    SplitJoin(scopes, ' ');
  }

  /** An empty scope list is sent as an empty `scope` value, which splits
      back into one empty scope rather than none. */
  lemma DeviceCodeBodyNoScopes(clientId: string)
    requires '&' !in clientId
    ensures FormDecode(DeviceCodeBody([], clientId)) == [("scope", ""), ("client_id", clientId)]
    ensures Split(FormDecode(DeviceCodeBody([], clientId))[0].1, ' ') == [""]
  {
    DeviceCodeBodyFields([], clientId);
  }

  // ---------------------------------------------------------------------
  // The request builders and the poll slot

  /** AuthenticationRequest::exchangeCodeForAccessToken. */
  function ExchangeCode(s: State, code: string): (o: Outcome)
    ensures o.state.mode == WebToken && o.state.url == TokenUrl
    ensures o.state.data == TokenExchangeBody(code, s.clientId, s.clientSecret)
    ensures o.effects == [Submit(Post(TokenUrl, o.state.data))]
  {
    var body := TokenExchangeBody(code, s.clientId, s.clientSecret);
    Outcome(s.(mode := WebToken, url := TokenUrl, data := body), [Submit(Post(TokenUrl, body))])
  }

  /** AuthenticationRequest::requestAuthorizationCode. */
  function RequestCode(s: State, scopes: seq<string>): (o: Outcome)
    ensures o.state.mode == DeviceCode && o.state.url == DeviceCodeUrl
    ensures o.state.data == DeviceCodeBody(scopes, s.clientId)
    ensures o.effects == [Submit(Post(DeviceCodeUrl, o.state.data))]
  {
    var body := DeviceCodeBody(scopes, s.clientId);
    Outcome(s.(mode := DeviceCode, url := DeviceCodeUrl, data := body), [Submit(Post(DeviceCodeUrl, body))])
  }

  /** AuthenticationRequest::revokeAccessToken: a GET with the token as a
      query item; the stored body is left as it was. */
  function Revoke(s: State, token: string): (o: Outcome)
    ensures o.state.mode == RevokeToken && o.state.url == RevokeTokenUrl(token) && o.state.data == s.data
    ensures o.effects == [Submit(Get(RevokeTokenUrl(token)))]
  {
    Outcome(s.(mode := RevokeToken, url := RevokeTokenUrl(token)), [Submit(Get(RevokeTokenUrl(token)))])
  }

  /** AuthenticationRequestPrivate::_q_pollForDeviceToken, the timer's slot. */
  function Poll(s: State): (o: Outcome)
    ensures o.state.mode == DeviceToken && o.state.url == TokenUrl
    ensures o.state.data == DevicePollBody(s.clientId, s.clientSecret, s.deviceCode)
    ensures o.effects == [Submit(Post(TokenUrl, o.state.data))]
  {
    var body := DevicePollBody(s.clientId, s.clientSecret, s.deviceCode);
    Outcome(s.(mode := DeviceToken, url := TokenUrl, data := body), [Submit(Post(TokenUrl, body))])
  }

  lemma BuildersSelectMode(s: State, code: string, scopes: seq<string>, token: string)
    ensures ExchangeCode(s, code).state.mode == WebToken
    ensures ExchangeCode(s, code).effects == [Submit(Post(TokenUrl, ExchangeCode(s, code).state.data))]
    ensures RequestCode(s, scopes).state.mode == DeviceCode
    ensures RequestCode(s, scopes).effects == [Submit(Post(DeviceCodeUrl, RequestCode(s, scopes).state.data))]
    ensures Revoke(s, token).state.mode == RevokeToken
    ensures Revoke(s, token).state.data == s.data
    ensures Revoke(s, token).effects == [Submit(Get(RevokeTokenUrl(token)))]
    ensures Poll(s).state.mode == DeviceToken
    ensures Poll(s).effects == [Submit(Post(TokenUrl, Poll(s).state.data))]
  {
  }

  /** The builders touch only the mode and the request; the session and the
      outcome of the previous reply are kept. */
  lemma BuildersKeepSession(s: State, code: string, scopes: seq<string>, token: string)
    ensures var t := ExchangeCode(s, code).state;
      t.(mode := s.mode, url := s.url, data := s.data) == s
    ensures var t := RequestCode(s, scopes).state;
      t.(mode := s.mode, url := s.url, data := s.data) == s
    ensures var t := Revoke(s, token).state;
      t.(mode := s.mode, url := s.url) == s
    ensures var t := Poll(s).state;
      t.(mode := s.mode, url := s.url, data := s.data) == s
  {
  }

  // ---------------------------------------------------------------------
  // The reply handler

  /** The delays of the polls the effects schedule, in order. */
  function Delays(effects: seq<Effect>): (ds: seq<int>)
    ensures forall i :: 0 <= i < |ds| ==> SchedulePoll(ds[i]) in effects
    ensures ds == [] <==> forall k :: 0 <= k < |effects| ==> !effects[k].SchedulePoll?
  {
    if effects == [] then []
    else if effects[0].SchedulePoll? then [effects[0].delayMs] + Delays(effects[1..])
    else Delays(effects[1..])
  }

  /** The outcome with the given status, error and error string, and `finished`. */
  function Finish(s: State, status: Status, error: Error, errorString: string): Outcome
  {
    Outcome(s.(status := status, error := error, errorString := errorString), [Finished])
  }

  /** Elapsed time on the device-code clock is still inside the expiry window. */
  predicate BeforeDeadline(s: State, now: int)
  {
    now - s.clockStart < s.deviceExpiry
  }

  /** The reply is the successful answer to a device-code request: the one
      case that starts a new device-flow session. */
  predicate StartsSession(s: State, reply: Option<Reply>)
  {
    s.mode == DeviceCode && reply.Some? && reply.value.transport == NoTransportError &&
    reply.value.body.Some? && reply.value.body.value.deviceCode.Some?
  }

  /** AuthenticationRequestPrivate::_q_onReplyFinished. The parsed body is
      stored as the result before anything else; a transport error ends the
      request whatever the mode; otherwise the mode decides. */
  function OnReply(s: State, reply: Option<Reply>, now: int): (o: Outcome)
    ensures Wellformed(s) ==> Wellformed(o.state)
    ensures reply.Some? ==> (Finished in o.effects <==> Delays(o.effects) == [])
  {
    if reply.None? then Outcome(s, [])
    else
      var r := reply.value;
      var s1 := s.(result := r.body);
      match r.transport
      case OperationCanceled => Finish(s1, Canceled, NoError, "")
      case TransportFailure(code, message) => Finish(s1, Failed, NetworkError(code), message)
      case NoTransportError =>
        match r.body
        case None =>
          if s.mode == RevokeToken then Finish(s1, Ready, NoError, "")
          else Finish(s1, Failed, ParseError, ParseErrorString)
        case Some(m) => OnParsed(s1, m, now)
  }

  /** The part of the reply handler that runs when the body parsed: what the
      pending request makes of the reply's map. `s` already holds the map as
      its result. */
  function OnParsed(s: State, m: ReplyMap, now: int): (o: Outcome)
    ensures Wellformed(s) ==> Wellformed(o.state)
    ensures Finished in o.effects <==> Delays(o.effects) == []
  {
    match s.mode
    case WebToken => Finish(s, Ready, NoError, "")
    case DeviceToken =>
      if m.error.None? then Finish(s, Ready, NoError, "")
      else if BeforeDeadline(s, now) && m.error.value == "authorization_pending" then
        Outcome(s, [SchedulePoll(s.deviceInterval)])
      else if BeforeDeadline(s, now) && m.error.value == "slow_down" then
        Outcome(s.(deviceInterval := s.deviceInterval * 2), [SchedulePoll(s.deviceInterval * 2)])
      else Finish(s, Failed, UnknownContentError, m.error.value)
    case DeviceCode =>
      if m.deviceCode.Some? then
        var interval := IntervalMs(m.interval);
        Outcome(s.(deviceCode := m.deviceCode.value, deviceExpiry := ExpiryMs(m.expiresIn),
                   deviceInterval := interval, clockStart := now),
                [SchedulePoll(interval), AuthorizationCodeReady(m)])
      else Outcome(s, [Finished])
    case RevokeToken => Outcome(s, [Finished])
  }

  // ---------------------------------------------------------------------
  // One reply: what each case does

  lemma NullReplyIgnored(s: State, now: int)
    ensures OnReply(s, None, now) == Outcome(s, [])
  {
  }

  /** Cancellation is checked before the mode: Canceled, no error, no message. */
  lemma CanceledReply(s: State, body: Option<ReplyMap>, now: int)
    ensures OnReply(s, Some(Reply(OperationCanceled, body)), now) ==
      Outcome(s.(result := body, status := Canceled, error := NoError, errorString := ""), [Finished])
  {
  }

  /** Any other transport error fails the request with the transport's code
      and message; the parsed body is still kept as the result. */
  lemma FailedTransportReply(s: State, code: int, message: string, body: Option<ReplyMap>, now: int)
    ensures OnReply(s, Some(Reply(TransportFailure(code, message), body)), now) ==
      Outcome(s.(result := body, status := Failed, error := NetworkError(code), errorString := message), [Finished])
  {
  }

  /** An unparsable body is a success only for a revocation. */
  lemma UnparsableReply(s: State, now: int)
    ensures OnReply(s, Some(Reply(NoTransportError, None)), now) ==
      if s.mode == RevokeToken then
        Outcome(s.(result := None, status := Ready, error := NoError, errorString := ""), [Finished])
      else
        Outcome(s.(result := None, status := Failed, error := ParseError, errorString := ParseErrorString), [Finished])
  {
  }

  /** A parsed token reply is Ready: always for the code exchange, and for a
      device poll when the reply has no `error`. */
  lemma TokenReplyReady(s: State, m: ReplyMap, now: int)
    requires s.mode == WebToken || (s.mode == DeviceToken && m.error.None?)
    ensures OnReply(s, Some(Reply(NoTransportError, Some(m))), now) ==
      Outcome(s.(result := Some(m), status := Ready, error := NoError, errorString := ""), [Finished])
  {
  }

  /** Inside the expiry window `authorization_pending` polls again after the
      same interval, without a status change and without `finished`. */
  lemma PendingPollsAgain(s: State, m: ReplyMap, now: int)
    requires s.mode == DeviceToken && m.error == Some("authorization_pending")
    requires now - s.clockStart < s.deviceExpiry
    ensures OnReply(s, Some(Reply(NoTransportError, Some(m))), now) ==
      Outcome(s.(result := Some(m)), [SchedulePoll(s.deviceInterval)])
  {
  }

  /** Inside the expiry window `slow_down` doubles the interval and polls
      again after the doubled interval, without `finished`. */
  lemma SlowDownDoubles(s: State, m: ReplyMap, now: int)
    requires s.mode == DeviceToken && m.error == Some("slow_down")
    requires now - s.clockStart < s.deviceExpiry
    ensures OnReply(s, Some(Reply(NoTransportError, Some(m))), now) ==
      Outcome(s.(result := Some(m), deviceInterval := 2 * s.deviceInterval), [SchedulePoll(2 * s.deviceInterval)])
  {
  }

  /** Any other `error`, or any `error` once the window has passed, fails the
      request with the server's error text. */
  lemma DeviceTokenError(s: State, m: ReplyMap, now: int)
    requires s.mode == DeviceToken && m.error.Some?
    requires now - s.clockStart >= s.deviceExpiry ||
             (m.error.value != "authorization_pending" && m.error.value != "slow_down")
    ensures OnReply(s, Some(Reply(NoTransportError, Some(m))), now) ==
      Outcome(s.(result := Some(m), status := Failed, error := UnknownContentError, errorString := m.error.value),
              [Finished])
  {
  }

  /** A device code starts a session: code, expiry window and interval are
      set from the reply, the clock restarts, the first poll is scheduled and
      the code is announced; `finished` is not emitted and the status is kept. */
  lemma DeviceCodeStartsSession(s: State, m: ReplyMap, now: int)
    requires s.mode == DeviceCode && m.deviceCode.Some?
    ensures var o := OnReply(s, Some(Reply(NoTransportError, Some(m))), now);
      o.state == s.(result := Some(m), deviceCode := m.deviceCode.value, deviceExpiry := ExpiryMs(m.expiresIn),
                    deviceInterval := IntervalMs(m.interval), clockStart := now) &&
      o.effects == [SchedulePoll(IntervalMs(m.interval)), AuthorizationCodeReady(m)] &&
      Finished !in o.effects
  {
  }

  /** A device-code reply without `device_code` emits `finished` and sets no
      status; a parsed revocation reply does the same. */
  lemma FinishedWithoutStatus(s: State, m: ReplyMap, now: int)
    requires (s.mode == DeviceCode && m.deviceCode.None?) || s.mode == RevokeToken
    ensures OnReply(s, Some(Reply(NoTransportError, Some(m))), now) == Outcome(s.(result := Some(m)), [Finished])
  {
  }

  /** A poll is only ever scheduled by a session start or, inside the expiry
      window, by a device-token reply; the delay is the new interval. */
  lemma PollOnlyBeforeDeadline(s: State, reply: Option<Reply>, now: int, d: int)
    requires SchedulePoll(d) in OnReply(s, reply, now).effects
    ensures d == OnReply(s, reply, now).state.deviceInterval
    ensures StartsSession(s, reply) || (s.mode == DeviceToken && BeforeDeadline(s, now))
  {
  }

  /** Outside a session start the interval is kept or doubled, and the expiry
      window and its clock are untouched. */
  lemma IntervalKeptOrDoubled(s: State, reply: Option<Reply>, now: int)
    requires !StartsSession(s, reply)
    ensures var t := OnReply(s, reply, now).state;
      (t.deviceInterval == s.deviceInterval || t.deviceInterval == 2 * s.deviceInterval) &&
      t.deviceExpiry == s.deviceExpiry && t.clockStart == s.clockStart && t.deviceCode == s.deviceCode
  {
  }
}
