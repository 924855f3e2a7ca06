/**
 * The admin panel's client-side access decision (`checkAuthentication`): the
 * stored token and login time are checked locally, then the server is asked,
 * and a network failure grants a short offline window.
 */
module AdminAuth {
  import opened Values
  import SessionServer

  const HourMs: int := 1000 * 60 * 60

  /** The stored login time: a readable timestamp in milliseconds, or text that does not parse as a date. */
  datatype LoginTime = Unparseable | LoggedInAt(ms: int)

  /** What the verify request produced: a network failure, or a response with its `ok` flag and its `valid` field. */
  datatype ServerReply = NetworkError | Reply(ok: bool, valid: bool)

  /** The decision, whether the stored session was logged out on the way, and whether the server was asked. */
  datatype AuthDecision = AuthDecision(granted: bool, loggedOut: bool, askedServer: bool)

  /** Hours since login as a number; an unparseable time gives "not a number". */
  function HoursSinceLogin(login: LoginTime, now: int): Number
  {
    match login
    case Unparseable => NaN
    case LoggedInAt(ms) => Num((now - ms) as real / HourMs as real)
  }

  /** JavaScript's `n > x` and `n < x` on a number: false whenever `n` is not a number. */
  predicate Above(n: Number, x: real) { n.Num? && n.value > x }
  predicate Below(n: Number, x: real) { n.Num? && n.value < x }

  /**
   * `checkAuthentication`. A missing (or empty) token or login time refuses
   * at once. A login more than two hours old logs out and refuses without
   * asking the server. Otherwise the server decides: a non-ok response or a
   * `valid` that is false logs out and refuses. Only when the request fails
   * altogether is access granted, without logging out, while the login is
   * less than an hour old.
   */
  function CheckAuthentication(token: Option<string>, login: Option<LoginTime>, now: int, reply: ServerReply)
    : (d: AuthDecision)
    ensures d.granted ==> Present(token) && login.Some?
    ensures d.granted && reply.Reply? ==> reply.ok && reply.valid
    ensures d.granted && reply.NetworkError? ==> login.value.LoggedInAt? && now - login.value.ms < HourMs
    ensures d.granted ==> login.value.Unparseable? || now - login.value.ms <= 2 * HourMs
    ensures d.loggedOut ==> !d.granted
    ensures !Present(token) || login.None? ==> d == AuthDecision(false, false, false)
    ensures d.askedServer && reply == Reply(true, true) ==> d.granted
    ensures d.askedServer <==> Present(token) && login.Some? && !Above(HoursSinceLogin(login.value, now), 2.0)
    ensures Present(token) && login.Some? && Above(HoursSinceLogin(login.value, now), 2.0)
            ==> d == AuthDecision(false, true, false)
    ensures d.askedServer && reply.Reply? ==>
              && (d.granted <==> reply.ok && reply.valid)
              && (d.loggedOut <==> !(reply.ok && reply.valid))
    ensures d.askedServer && reply.NetworkError? ==>
              && !d.loggedOut
              && (d.granted <==> login.value.LoggedInAt? && now - login.value.ms < HourMs)
  {
    if !Present(token) || login.None? then
      AuthDecision(false, false, false)
    else
      var hours := HoursSinceLogin(login.value, now);
      if Above(hours, 2.0) then
        AuthDecision(false, true, false)
      else
        match reply
        case Reply(ok, valid) =>
          if !ok || !valid then AuthDecision(false, true, true) else AuthDecision(true, false, true)
        case NetworkError =>
          AuthDecision(Below(hours, 1.0), false, true)
  }

  /** Once the login is more than two hours old the decision no longer depends on the server at all. */
  lemma LocalExpiryIgnoresServer(token: Option<string>, ms: int, now: int, r1: ServerReply, r2: ServerReply)
    requires now - ms > 2 * HourMs
    ensures CheckAuthentication(token, Some(LoggedInAt(ms)), now, r1)
         == CheckAuthentication(token, Some(LoggedInAt(ms)), now, r2)
    ensures !CheckAuthentication(token, Some(LoggedInAt(ms)), now, r1).askedServer
  {
    var hours := (now - ms) as real / HourMs as real;
    assert hours > 2.0 by {
      assert (now - ms) as real > 2.0 * HourMs as real;
    }
  }

  /** A login time that does not parse is never accepted offline, although the local expiry check lets it through to the server. */
  lemma UnparseableNeverOffline(token: Option<string>, now: int)
    ensures !CheckAuthentication(token, Some(Unparseable), now, NetworkError).granted
    ensures Present(token) ==> CheckAuthentication(token, Some(Unparseable), now, NetworkError).askedServer
  {
  }

  /** The reply the verify endpoint's answer produces in the browser: `ok` for status 200 only. */
  function AsReply(r: SessionServer.VerifyResponse): (reply: ServerReply)
    ensures reply.Reply? && (reply.ok <==> SessionServer.VerifyStatus(r) == 200)
  {
    match r
    case TokenRequired => Reply(false, false)
    case Verified(valid) => Reply(valid, valid)
  }

  /** When the server answers, the panel opens only for a token the server has just found live. */
  lemma GrantedOnlyIfServerVerified(token: Option<string>, login: Option<LoginTime>, now: int, r: SessionServer.VerifyResponse)
    requires CheckAuthentication(token, login, now, AsReply(r)).granted
    ensures r == SessionServer.Verified(true)
  {
  }
}
