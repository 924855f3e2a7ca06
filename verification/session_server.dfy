/**
 * The admin server: its start-up configuration check and the in-memory map of
 * active admin sessions behind the login, verify and logout endpoints. Random
 * tokens and the clock are inputs.
 */
module SessionServer {
  import opened Values

  /** A session lives two hours, counted in milliseconds on the server's clock. */
  const MaxAgeMs: int := 2 * 60 * 60 * 1000

  /** The lifetime the login reply announces, in seconds. */
  const ExpiresInSeconds: nat := 7200

  /** The admin credentials and token secret read from the environment. */
  datatype Config = Config(adminUsername: string, adminPassword: string, secret: string)

  /**
   * The start-up check: the server starts only when the admin user name,
   * password and secret are all set to non-empty values; otherwise it exits.
   */
  function LoadConfig(username: Option<string>, password: Option<string>, secret: Option<string>): (c: Option<Config>)
    ensures c.Some? <==> Present(username) && Present(password) && Present(secret)
    ensures c.Some? ==> c.value.adminUsername != "" && c.value.adminPassword != "" && c.value.secret != ""
    ensures c.Some? ==> c.value == Config(username.value, password.value, secret.value)
  {
    if !Present(username) || !Present(password) || !Present(secret) then None
    else Some(Config(username.value, password.value, secret.value))
  }

  /** A login session: its token, the user name and the server time it was created. */
  datatype Session = Session(token: string, username: string, createdAt: int)

  /** A session is still accepted `now` when at most two hours have passed since it was created. */
  predicate Live(s: Session, now: int)
  {
    now - s.createdAt <= MaxAgeMs
  }

  /** The replies of the login endpoint: 400, 401, or success with the new token. */
  datatype LoginResponse =
    | CredentialsRequired
    | InvalidCredentials
    | LoggedIn(token: string, expiresIn: nat)

  /** The replies of the verify endpoint: 400 without a token, else whether the token is live (200) or not (401). */
  datatype VerifyResponse =
    | TokenRequired
    | Verified(valid: bool)

  function LoginStatus(r: LoginResponse): int
  {
    match r
    case CredentialsRequired => 400
    case InvalidCredentials => 401
    case LoggedIn(_, _) => 200
  }

  function VerifyStatus(r: VerifyResponse): int
  {
    match r
    case TokenRequired => 400
    case Verified(valid) => if valid then 200 else 401
  }

  /** The running server's session state. */
  class SessionService {
    const config: Config
    var activeSessions: map<string, Session>

    /** Every session is filed under its own token and belongs to the configured admin. */
    predicate Valid()
      reads this
    {
      && config.adminUsername != "" && config.adminPassword != ""
      && forall t :: t in activeSessions ==> activeSessions[t].token == t && activeSessions[t].username == config.adminUsername
    }

    /** A server that passed the start-up check, with no sessions yet. */
    constructor (config: Config)
      requires config.adminUsername != "" && config.adminPassword != ""
      ensures this.config == config && activeSessions == map[]
      ensures Valid()
    {
      this.config := config;
      activeSessions := map[];
    }

    /**
     * The login endpoint. A missing or empty user name or password is answered
     * 400; credentials that do not both match exactly are answered 401, with
     * the same reply whichever was wrong; in both cases no session is created.
     * A match files one new session, created now, under `freshToken`.
     */
    method Login(username: Option<string>, password: Option<string>, freshToken: string, now: int)
      returns (r: LoginResponse)
      requires Valid()
      modifies this
      ensures Valid()
      ensures !Present(username) || !Present(password) ==> r == CredentialsRequired && activeSessions == old(activeSessions)
      ensures Present(username) && Present(password)
              && (username.value != config.adminUsername || password.value != config.adminPassword)
              ==> r == InvalidCredentials && activeSessions == old(activeSessions)
      ensures username == Some(config.adminUsername) && password == Some(config.adminPassword)
              ==> && r == LoggedIn(freshToken, ExpiresInSeconds)
                  && activeSessions == old(activeSessions)[freshToken := Session(freshToken, config.adminUsername, now)]
    {
      if !Present(username) || !Present(password) {
        return CredentialsRequired;
      }
      if username.value == config.adminUsername && password.value == config.adminPassword {
        var session := Session(freshToken, username.value, now);
        activeSessions := activeSessions[freshToken := session];
        r := LoggedIn(freshToken, ExpiresInSeconds);
      } else {
        r := InvalidCredentials;
      }
    }

    /**
     * `verifySession`: an unknown token is refused and nothing changes. A known
     * token is accepted while its session is live (the two-hour bound is
     * inclusive); an expired one is refused and removed, and no other session
     * is touched.
     */
    method VerifySession(token: string, now: int) returns (valid: bool)
      requires Valid()
      modifies this
      ensures Valid()
      ensures valid <==> token in old(activeSessions) && Live(old(activeSessions)[token], now)
      ensures valid || token !in old(activeSessions) ==> activeSessions == old(activeSessions)
      ensures !valid ==> activeSessions == old(activeSessions) - {token}
    {
      if token !in activeSessions {
        return false;
      }
      var session := activeSessions[token];
      var sessionAge := now - session.createdAt;
      if sessionAge > MaxAgeMs {
        activeSessions := activeSessions - {token};
        return false;
      }
      return true;
    }

    /** The verify endpoint: without a token it answers 400 and leaves the sessions alone. */
    method Verify(token: Option<string>, now: int) returns (r: VerifyResponse)
      requires Valid()
      modifies this
      ensures Valid()
      ensures !Present(token) ==> r == TokenRequired && activeSessions == old(activeSessions)
      ensures Present(token) ==> r == Verified(token.value in old(activeSessions) && Live(old(activeSessions)[token.value], now))
      ensures Present(token) && !r.valid ==> activeSessions == old(activeSessions) - {token.value}
      ensures Present(token) && r.valid ==> activeSessions == old(activeSessions)
    {
      if !Present(token) {
        return TokenRequired;
      }
      var valid := VerifySession(token.value, now);
      r := Verified(valid);
    }

    /**
     * The logout endpoint: the token's session is removed whether or not it
     * exists, so logging out twice, or with an unknown token, is harmless.
     */
    method Logout(token: Option<string>)
      requires Valid()
      modifies this
      ensures Valid()
      ensures token.Some? ==> activeSessions == old(activeSessions) - {token.value}
      ensures token.None? ==> activeSessions == old(activeSessions)
    {
      if token.Some? {
        activeSessions := activeSessions - {token.value};
      }
    }
  }

  /** A fresh login followed within two hours by a check of its token is accepted. */
  method LoginThenVerify(server: SessionService, freshToken: string, loginAt: int, checkAt: int)
    returns (login: LoginResponse, valid: bool)
    requires server.Valid()
    requires loginAt <= checkAt <= loginAt + MaxAgeMs
    modifies server
    ensures login == LoggedIn(freshToken, ExpiresInSeconds) && valid
  {
    login := server.Login(Some(server.config.adminUsername), Some(server.config.adminPassword), freshToken, loginAt);
    valid := server.VerifySession(freshToken, checkAt);
  }

  /** After a logout its token is refused, however soon it is checked again. */
  method LogoutThenVerify(server: SessionService, token: string, now: int) returns (valid: bool)
    requires server.Valid()
    modifies server
    ensures !valid
    ensures server.activeSessions == old(server.activeSessions) - {token}
  {
    server.Logout(Some(token));
    valid := server.VerifySession(token, now);
  }
}
