/**
 * AuthenticationRequest and its private object as a class whose methods
 * update the fields in place, in the order the source does. Each method is
 * proved to leave the object in the state, and to produce the effects, that
 * the functions of AuthMachine give; what those functions promise is proved
 * there and in AuthRuns.
 */
module AuthenticationRequests {
  import opened Wrappers
  import opened AuthMachine

  class AuthenticationRequest {
    var authRequest: AuthRequest
    var deviceExpiry: int
    var deviceInterval: int
    var deviceExpiryStart: int
    var deviceCode: string
    var status: Status
    var error: Error
    var errorString: string
    var result: Option<ReplyMap>
    var url: Endpoint
    var data: string
    var clientId: string
    var clientSecret: string

    /** The fields as a value of the state machine. */
    function Snapshot(): State
      reads this
    {
      State(authRequest, deviceExpiry, deviceInterval, deviceExpiryStart, deviceCode, status, error,
            errorString, result, url, data, clientId, clientSecret)
    }

    constructor (clientId: string, clientSecret: string)
      ensures Snapshot() == Initial(clientId, clientSecret)
    {
      authRequest := WebToken;
      deviceExpiry := 0;
      deviceInterval := DefaultIntervalMs;
      deviceExpiryStart := 0;
      deviceCode := "";
      status := Idle;
      error := NoError;
      errorString := "";
      result := None;
      url := NoUrl;
      data := "";
      this.clientId := clientId;
      this.clientSecret := clientSecret;
    }

    method ExchangeCodeForAccessToken(code: string) returns (request: Outgoing)
      modifies this
      ensures Snapshot() == ExchangeCode(old(Snapshot()), code).state
      ensures [Submit(request)] == ExchangeCode(old(Snapshot()), code).effects
    {
      authRequest := WebToken;
      url := TokenUrl;
      data := TokenExchangeBody(code, clientId, clientSecret);
      request := Post(url, data);
    }

    method RequestAuthorizationCode(scopes: seq<string>) returns (request: Outgoing)
      modifies this
      ensures Snapshot() == RequestCode(old(Snapshot()), scopes).state
      ensures [Submit(request)] == RequestCode(old(Snapshot()), scopes).effects
    {
      authRequest := DeviceCode;
      url := DeviceCodeUrl;
      data := DeviceCodeBody(scopes, clientId);
      request := Post(url, data);
    }

    method RevokeAccessToken(token: string) returns (request: Outgoing)
      modifies this
      ensures Snapshot() == Revoke(old(Snapshot()), token).state
      ensures [Submit(request)] == Revoke(old(Snapshot()), token).effects
    {
      authRequest := RevokeToken;
      url := RevokeTokenUrl(token);
      request := Get(url);
    }

    /** The slot the single-shot timer fires. */
    method PollForDeviceToken() returns (request: Outgoing)
      modifies this
      ensures Snapshot() == Poll(old(Snapshot())).state
      ensures [Submit(request)] == Poll(old(Snapshot())).effects
    {
      authRequest := DeviceToken;
      url := TokenUrl;
      data := DevicePollBody(clientId, clientSecret, deviceCode);
      request := Post(url, data);
    }

    /** The reply handler; `now` is the clock reading when the reply is handled. */
    method OnReplyFinished(reply: Option<Reply>, now: int) returns (effects: seq<Effect>)
      modifies this
      ensures Snapshot() == OnReply(old(Snapshot()), reply, now).state
      ensures effects == OnReply(old(Snapshot()), reply, now).effects
    {
      effects := [];
      if reply.None? {
        return;
      }
      var r := reply.value;
      result := r.body;

      match r.transport {
        case NoTransportError =>
        case OperationCanceled =>
          status := Canceled;
          error := NoError;
          errorString := "";
          effects := [Finished];
          return;
        case TransportFailure(code, message) =>
          status := Failed;
          error := NetworkError(code);
          errorString := message;
          effects := [Finished];
          return;
      }

      if r.body.Some? {
        effects := OnParsedReply(r.body.value, now);
        return;
      } else if authRequest == RevokeToken {
        status := Ready;
        error := NoError;
        errorString := "";
      } else {
        status := Failed;
        error := ParseError;
        errorString := ParseErrorString;
      }

      effects := [Finished];
    }

    /** The switch on the pending request, for a body that parsed into `m`. */
    method OnParsedReply(m: ReplyMap, now: int) returns (effects: seq<Effect>)
      modifies this
      ensures Snapshot() == OnParsed(old(Snapshot()), m, now).state
      ensures effects == OnParsed(old(Snapshot()), m, now).effects
    {
      match authRequest {
        case WebToken =>
          status := Ready;
          error := NoError;
          errorString := "";
        case DeviceToken =>
          effects := OnDeviceTokenReply(m, now);
          return;
        case DeviceCode =>
          if m.deviceCode.Some? {
            var expiry := m.expiresIn;
            var interval := m.interval;
            deviceCode := m.deviceCode.value;
            deviceExpiry := ExpiryMs(expiry);
            deviceInterval := IntervalMs(interval);
            deviceExpiryStart := now;
            effects := [SchedulePoll(deviceInterval), AuthorizationCodeReady(m)];
            return;
          }
        case RevokeToken =>
      }

      effects := [Finished];
    }
  
    /** The device-token case of the switch: a token, another poll inside the
        expiry window, or a failure carrying the server's `error`. */
    method OnDeviceTokenReply(m: ReplyMap, now: int) returns (effects: seq<Effect>)
      requires authRequest == DeviceToken
      modifies this
      ensures Snapshot() == OnParsed(old(Snapshot()), m, now).state
      ensures effects == OnParsed(old(Snapshot()), m, now).effects
    {
      if m.error.None? {
        status := Ready;
        error := NoError;
        errorString := "";
      } else {
        var es := m.error.value;
        if now - deviceExpiryStart < deviceExpiry {
          if es == "authorization_pending" {
            effects := [SchedulePoll(deviceInterval)];
            return;
          }
          if es == "slow_down" {
            deviceInterval := deviceInterval * 2;
            effects := [SchedulePoll(deviceInterval)];
            return;
          }
        }
        status := Failed;
        error := UnknownContentError;
        errorString := es;
      }
      effects := [Finished];
    }
  }
}
