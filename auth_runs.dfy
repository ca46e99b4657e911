/**
 * Runs of the authentication request: any sequence of calls to the three
 * builders, firings of the poll timer, finished replies and changes of the
 * client credentials, applied one after another to the state. The lemmas
 * here are about whole device-flow sessions rather than single replies.
 */
module AuthRuns {
  import opened Wrappers
  import opened AuthMachine
  import FormEncoding

  /** What can happen to an AuthenticationRequest. */
  datatype Event =
    | ExchangeCodeCalled(code: string)
    | RequestCodeCalled(scopes: seq<string>)
    | RevokeCalled(token: string)
    | PollTimerFired
    | ReplyFinished(reply: Option<Reply>, now: int)
    // the Request base class's client id and secret set anew
    | CredentialsChanged(clientId: string, clientSecret: string)

  function Apply(s: State, e: Event): (o: Outcome)
    ensures Wellformed(s) ==> Wellformed(o.state)
  {
    match e
    case ExchangeCodeCalled(code) => ExchangeCode(s, code)
    case RequestCodeCalled(scopes) => RequestCode(s, scopes)
    case RevokeCalled(token) => Revoke(s, token)
    case PollTimerFired => Poll(s)
    case ReplyFinished(reply, now) => OnReply(s, reply, now)
    case CredentialsChanged(clientId, clientSecret) => Outcome(s.(clientId := clientId, clientSecret := clientSecret), [])
  }

  /** The events applied in order; the effects are those of each event, in order. */
  function Run(s: State, events: seq<Event>): (o: Outcome)
    ensures Wellformed(s) ==> Wellformed(o.state)
    decreases |events|
  {
    if events == [] then Outcome(s, [])
    else
      var first := Apply(s, events[0]);
      var rest := Run(first.state, events[1..]);
      Outcome(rest.state, first.effects + rest.effects)
  }

  /** The event starts a new device-flow session. */
  predicate StartsSessionAt(s: State, e: Event)
  {
    e.ReplyFinished? && StartsSession(s, e.reply)
  }

  /** No event of the run starts a new session: the run stays inside the
      session (if any) that `s` is in. */
  predicate NoSessionStart(s: State, events: seq<Event>)
    decreases |events|
  {
    events == [] ||
    (!StartsSessionAt(s, events[0]) && NoSessionStart(Apply(s, events[0]).state, events[1..]))
  }

  /** Each delay is the one before it (the first: `base`) or its double. */
  predicate DoublingChain(base: int, ds: seq<int>)
    decreases |ds|
  {
    ds == [] || ((ds[0] == base || ds[0] == 2 * base) && DoublingChain(ds[0], ds[1..]))
  }

  /** The last delay, or `base` when there is none. */
  function LastOr(base: int, ds: seq<int>): int
  {
    if ds == [] then base else ds[|ds| - 1]
  }

  lemma {:induction false} DelaysAppend(a: seq<Effect>, b: seq<Effect>)
    ensures Delays(a + b) == Delays(a) + Delays(b)
  {
    if a != [] {
      assert (a + b)[0] == a[0];
      assert (a + b)[1..] == a[1..] + b;
      DelaysAppend(a[1..], b);
      if a[0].SchedulePoll? {
        assert Delays(a + b) == [a[0].delayMs] + (Delays(a[1..]) + Delays(b));
        assert Delays(a) + Delays(b) == ([a[0].delayMs] + Delays(a[1..])) + Delays(b);
      }
    } else {
      assert a + b == b;
    }
  }

  /** Outside a session start, one event schedules at most one poll, whose
      delay is the new interval, kept or doubled; without a poll the interval
      is kept; the expiry window and its clock are untouched. */
  lemma StepDelays(s: State, e: Event)
    requires !StartsSessionAt(s, e)
    ensures var o := Apply(s, e);
      ((Delays(o.effects) == [] && o.state.deviceInterval == s.deviceInterval) ||
       (Delays(o.effects) == [o.state.deviceInterval] &&
        (o.state.deviceInterval == s.deviceInterval || o.state.deviceInterval == 2 * s.deviceInterval))) &&
      o.state.deviceExpiry == s.deviceExpiry && o.state.clockStart == s.clockStart
  {
    if e.ReplyFinished? {
      IntervalKeptOrDoubled(s, e.reply, e.now);
    }
  }

  /** Within one session every poll is scheduled after the previous poll's
      delay or twice it, starting from the interval the run began with, and
      the interval at the end is the last delay scheduled. */
  lemma {:induction false} SessionDelaysDouble(s: State, events: seq<Event>)
    requires NoSessionStart(s, events)
    ensures var o := Run(s, events);
      DoublingChain(s.deviceInterval, Delays(o.effects)) &&
      o.state.deviceInterval == LastOr(s.deviceInterval, Delays(o.effects))
    decreases |events|
  {
    if events != [] {
      var first := Apply(s, events[0]);
      var rest := Run(first.state, events[1..]);
      StepDelays(s, events[0]);
      SessionDelaysDouble(first.state, events[1..]);
      DelaysAppend(first.effects, rest.effects);
      var ds := Delays(rest.effects);
      assert Run(s, events) == Outcome(rest.state, first.effects + rest.effects);
      if Delays(first.effects) != [] {
        var d := first.state.deviceInterval;
        assert Delays(first.effects + rest.effects) == [d] + ds;
        assert ([d] + ds)[0] == d && ([d] + ds)[1..] == ds;
        assert LastOr(s.deviceInterval, [d] + ds) == LastOr(d, ds);
      } else {
        assert Delays(first.effects + rest.effects) == ds;
      }
    }
  }

  lemma {:induction false} DoublingChainGrows(base: int, ds: seq<int>)
    requires base > 0
    requires DoublingChain(base, ds)
    ensures forall i :: 0 <= i < |ds| ==> base <= ds[i]
    ensures forall i, j :: 0 <= i <= j < |ds| ==> ds[i] <= ds[j]
    decreases |ds|
  {
    if ds != [] {
      DoublingChainGrows(ds[0], ds[1..]);
      assert forall i :: 1 <= i < |ds| ==> ds[i] == ds[1..][i - 1];
    }
  }

  /** The poll interval never decreases within a session: the delays of the
      polls a run schedules are non-decreasing, none is shorter than the
      interval the run started with, and neither is the final interval. */
  lemma PollIntervalNeverShrinks(s: State, events: seq<Event>)
    requires Wellformed(s)
    requires NoSessionStart(s, events)
    ensures var ds := Delays(Run(s, events).effects);
      (forall i :: 0 <= i < |ds| ==> s.deviceInterval <= ds[i]) &&
      (forall i, j :: 0 <= i <= j < |ds| ==> ds[i] <= ds[j])
    ensures Run(s, events).state.deviceInterval >= s.deviceInterval
  {
    var o := Run(s, events);
    SessionDelaysDouble(s, events);
    DoublingChainGrows(s.deviceInterval, Delays(o.effects));
  }

  /** Every reply of the run arrives at or after the session's deadline. */
  predicate AllRepliesAfter(deadline: int, events: seq<Event>)
  {
    forall i :: 0 <= i < |events| && events[i].ReplyFinished? ==> events[i].now >= deadline
  }

  /** Polling never continues past the deadline: once every reply comes at or
      after the end of the expiry window, no run inside the session schedules
      another poll. */
  lemma {:induction false} NoPollAfterDeadline(s: State, events: seq<Event>)
    requires NoSessionStart(s, events)
    requires AllRepliesAfter(s.clockStart + s.deviceExpiry, events)
    ensures Delays(Run(s, events).effects) == []
    decreases |events|
  {
    if events != [] {
      var first := Apply(s, events[0]);
      NoPollStep(s, events[0]);
      assert AllRepliesAfter(first.state.clockStart + first.state.deviceExpiry, events[1..]) by {
        forall i | 0 <= i < |events| - 1 && events[1..][i].ReplyFinished?
          ensures events[1..][i].now >= first.state.clockStart + first.state.deviceExpiry
        {
          assert events[1..][i] == events[i + 1];
        }
      }
      NoPollAfterDeadline(first.state, events[1..]);
      DelaysAppend(first.effects, Run(first.state, events[1..]).effects);
    }
  }

  /** One event inside the session and after its deadline: no poll, and the
      deadline stays where it was. */
  lemma NoPollStep(s: State, e: Event)
    requires !StartsSessionAt(s, e)
    requires e.ReplyFinished? ==> e.now >= s.clockStart + s.deviceExpiry
    ensures var o := Apply(s, e);
      Delays(o.effects) == [] && o.state.clockStart == s.clockStart && o.state.deviceExpiry == s.deviceExpiry
  {
    StepDelays(s, e);
    if e.ReplyFinished? {
      PollOnlyBeforeDeadlineNoDelay(s, e.reply, e.now);
    }
  }

  lemma PollOnlyBeforeDeadlineNoDelay(s: State, reply: Option<Reply>, now: int)
    requires !StartsSession(s, reply)
    requires now >= s.clockStart + s.deviceExpiry
    ensures Delays(OnReply(s, reply, now).effects) == []
  {
  }

  /** There is no guard against a timer that fires after its session was
      canceled: the poll slot still switches to the token mode and submits. */
  lemma StrayPollAfterCancel(s: State, body: Option<ReplyMap>, now: int)
    ensures var o := Run(s, [ReplyFinished(Some(Reply(OperationCanceled, body)), now), PollTimerFired]);
      o.state.mode == DeviceToken && o.state.status == Canceled &&
      o.effects == [Finished, Submit(Post(TokenUrl, DevicePollBody(s.clientId, s.clientSecret, s.deviceCode)))]
  {
    var e1, e2 := ReplyFinished(Some(Reply(OperationCanceled, body)), now), PollTimerFired;
    var s1 := s.(result := body, status := Canceled, error := NoError, errorString := "");
    assert Apply(s, e1) == Outcome(s1, [Finished]) by {
      CanceledReply(s, body, now);
    }
    var submit := Submit(Post(TokenUrl, DevicePollBody(s.clientId, s.clientSecret, s.deviceCode)));
    assert Apply(s1, e2).effects == [submit];
    RunTwo(s, e1, e2);
    assert [Finished] + [submit] == [Finished, submit];
  }

  /** Two events in a row: the second applies to the state the first leaves. */
  lemma RunTwo(s: State, e1: Event, e2: Event)
    ensures var o1 := Apply(s, e1); var o2 := Apply(o1.state, e2);
      Run(s, [e1, e2]) == Outcome(o2.state, o1.effects + o2.effects)
  {
    var o1 := Apply(s, e1);
    var o2 := Apply(o1.state, e2);
    assert [e1, e2][1..] == [e2];
    assert Run(o1.state, [e2]) == Outcome(o2.state, o2.effects + []) by {
      assert [e2][1..] == [];
    }
  }

  /** A complete device flow: scopes ["scope/a"], a reply
      with device code "D", `expires_in` 60 and `interval` 5, then a
      `slow_down` inside the window and a pending reply after it. Each step
      is a lemma of its own; DeviceFlowExample chains them. */
  lemma ExampleRequestStep()
    ensures var o := Apply(Initial("X", "S"), RequestCodeCalled(["scope/a"]));
      o.state.mode == DeviceCode && o.state.clientId == "X" && o.state.clientSecret == "S" &&
      o.effects == [Submit(Post(DeviceCodeUrl, "scope=scope/a&client_id=X"))]
  {
    assert FormEncoding.Join(["scope/a"], ' ') == "scope/a";
    assert DeviceCodeBody(["scope/a"], "X") == "scope=scope/a&client_id=X";
  }

  lemma ExampleSessionStep(s: State, m: ReplyMap)
    requires s.mode == DeviceCode && m == ReplyMap(None, Some("D"), 60, 5)
    ensures var o := Apply(s, ReplyFinished(Some(Reply(NoTransportError, Some(m))), 1000));
      o.state.mode == DeviceCode && o.state.clientId == s.clientId && o.state.clientSecret == s.clientSecret &&
      o.state.deviceCode == "D" && o.state.deviceInterval == 5500 && o.state.deviceExpiry == 60000 &&
      o.state.clockStart == 1000 && o.effects == [SchedulePoll(5500), AuthorizationCodeReady(m)]
  {
    DeviceCodeStartsSession(s, m, 1000);
    assert IntervalMs(5) == 5500 && ExpiryMs(60) == 60000;
  }

  lemma ExamplePollStep(s: State)
    requires s.clientId == "X" && s.clientSecret == "S" && s.deviceCode == "D"
    ensures var o := Apply(s, PollTimerFired);
      o.state.mode == DeviceToken && o.state.deviceInterval == s.deviceInterval &&
      o.state.deviceExpiry == s.deviceExpiry && o.state.clockStart == s.clockStart &&
      o.effects == [Submit(Post(TokenUrl, "client_id=X&client_secret=S&code=D&grant_type=" + DeviceGrantType))]
  {
    assert "client_id=" + "X" + "&client_secret=" == "client_id=X&client_secret=";
    assert "client_id=X&client_secret=" + "S" + "&code=" == "client_id=X&client_secret=S&code=";
    assert "client_id=X&client_secret=S&code=" + "D" + "&grant_type=" == "client_id=X&client_secret=S&code=D&grant_type=";
  }

  lemma ExampleSlowDownStep(s: State, slow: ReplyMap)
    requires s.mode == DeviceToken && s.deviceInterval == 5500 && s.deviceExpiry == 60000 && s.clockStart == 1000
    requires slow == ReplyMap(Some("slow_down"), None, 0, 0)
    ensures var o := Apply(s, ReplyFinished(Some(Reply(NoTransportError, Some(slow))), 7000));
      o.state.mode == DeviceToken && o.state.deviceInterval == 11000 && o.state.deviceExpiry == 60000 &&
      o.state.clockStart == 1000 && o.effects == [SchedulePoll(11000)]
  {
    SlowDownDoubles(s, slow, 7000);
  }

  lemma ExampleExpiredStep(s: State, pending: ReplyMap)
    requires s.mode == DeviceToken && s.deviceExpiry == 60000 && s.clockStart == 1000
    requires pending == ReplyMap(Some("authorization_pending"), None, 0, 0)
    ensures var o := Apply(s, ReplyFinished(Some(Reply(NoTransportError, Some(pending))), 61000));
      o.effects == [Finished] && o.state.status == Failed && o.state.error == UnknownContentError &&
      o.state.errorString == "authorization_pending"
  {
    DeviceTokenError(s, pending, 61000);
  }

  lemma DeviceFlowExample()
    ensures var s0 := Initial("X", "S");
      var o1 := Apply(s0, RequestCodeCalled(["scope/a"]));
      var m := ReplyMap(None, Some("D"), 60, 5);
      var o2 := Apply(o1.state, ReplyFinished(Some(Reply(NoTransportError, Some(m))), 1000));
      var o3 := Apply(o2.state, PollTimerFired);
      var slow := ReplyMap(Some("slow_down"), None, 0, 0);
      var o4 := Apply(o3.state, ReplyFinished(Some(Reply(NoTransportError, Some(slow))), 7000));
      var pending := ReplyMap(Some("authorization_pending"), None, 0, 0);
      var o5 := Apply(o4.state, ReplyFinished(Some(Reply(NoTransportError, Some(pending))), 61000));
      o1.effects == [Submit(Post(DeviceCodeUrl, "scope=scope/a&client_id=X"))] &&
      o2.effects == [SchedulePoll(5500), AuthorizationCodeReady(m)] &&
      o3.effects == [Submit(Post(TokenUrl, "client_id=X&client_secret=S&code=D&grant_type=" + DeviceGrantType))] &&
      o4.effects == [SchedulePoll(11000)] &&
      o5.effects == [Finished] && o5.state.status == Failed && o5.state.error == UnknownContentError &&
      o5.state.errorString == "authorization_pending"
  {
    var o1 := Apply(Initial("X", "S"), RequestCodeCalled(["scope/a"]));
    ExampleRequestStep();
    var m := ReplyMap(None, Some("D"), 60, 5);
    var o2 := Apply(o1.state, ReplyFinished(Some(Reply(NoTransportError, Some(m))), 1000));
    ExampleSessionStep(o1.state, m);
    var o3 := Apply(o2.state, PollTimerFired);
    ExamplePollStep(o2.state);
    var slow := ReplyMap(Some("slow_down"), None, 0, 0);
    var o4 := Apply(o3.state, ReplyFinished(Some(Reply(NoTransportError, Some(slow))), 7000));
    ExampleSlowDownStep(o3.state, slow);
    var pending := ReplyMap(Some("authorization_pending"), None, 0, 0);
    ExampleExpiredStep(o4.state, pending);
  }
}
