/**
 * What the login request handlers share: the webtrees state they act on
 * (session, flash messages, authentication log, the signed-in user), the
 * `state` check of the authorization-code grant (RFC 6749, sections 4.1
 * and 10.12), the checks of `doLogin`, and the responses.
 */
module OAuth2Flow {
  import opened Wrappers
  import opened FieldAuthority
  import Providers

  /** Where a request stands in the authorization-code grant. */
  datatype Verdict =
    | FirstLeg    // no authorization code yet: start the grant
    | Rejected    // a callback whose state does not match the stored one
    | Accepted    // a callback whose state matches

  /**
   * The check of the `state` parameter against the state stored at the
   * first leg (None when the session holds none).
   */
  function CheckState(code: string, state: string, stored: Option<string>): (v: Verdict)
    ensures v == FirstLeg <==> code == ""
    ensures v == Accepted <==> code != "" && state != "" && stored == Some(state)
  {
    if code == "" then FirstLeg
    else if state == "" || stored.None? || state != stored.value then Rejected
    else Accepted
  }

  /** `Session::get($key)` on a session of strings. */
  function SessionGet(session: map<string, string>, key: string): Option<string>
  {
    if key in session then Some(session[key]) else None
  }

  /** The session after a rejected callback: a non-empty stored state is forgotten. */
  function AfterRejection(session: map<string, string>, key: string): (r: map<string, string>)
    ensures key in r ==> r[key] == ""
    ensures key in session && session[key] != "" ==> key !in r
    ensures forall k | k != key :: SessionGet(r, k) == SessionGet(session, k)
  {
    if key in session && session[key] != "" then session - {key} else session
  }

  /** After a rejection, no callback is accepted until a new first leg stores a new state. */
  lemma RejectionIsFinal(session: map<string, string>, key: string, code: string, state: string)
    ensures CheckState(code, state, SessionGet(AfterRejection(session, key), key)) != Accepted
  {
  }

  /**
   * An accepted state is not forgotten: a second callback with the same
   * state is accepted as well.
   */
  lemma AcceptedStateIsReusable(session: map<string, string>, key: string, code: string, state: string, code2: string)
    requires CheckState(code, state, SessionGet(session, key)) == Accepted
    requires code2 != ""
    ensures CheckState(code2, state, SessionGet(session, key)) == Accepted
  {
  }

  /** The reasons `doLogin` refuses, in the order it checks them. */
  datatype LoginError = NoCookies | NoSuchUser | NotVerified | NotApproved

  /**
   * The checks of `doLogin`: browser cookies, an account for the
   * identifier, email verified '1', account approved '1', in that order.
   */
  function LoginRefusal(cookies: bool, account: Option<map<Pref, string>>): (r: Option<LoginError>)
    ensures r == None <==>
      cookies && account.Some? && PreferenceOf(account.value, EmailVerified) == "1"
      && PreferenceOf(account.value, AccountApproved) == "1"
    ensures r == Some(NoCookies) <==> !cookies
    ensures r == Some(NoSuchUser) <==> cookies && account.None?
    ensures r == Some(NotVerified) <==>
      cookies && account.Some? && PreferenceOf(account.value, EmailVerified) != "1"
    ensures r == Some(NotApproved) <==>
      cookies && account.Some? && PreferenceOf(account.value, EmailVerified) == "1"
      && PreferenceOf(account.value, AccountApproved) != "1"
  {
    if !cookies then Some(NoCookies)
    else if account.None? then Some(NoSuchUser)
    else if PreferenceOf(account.value, EmailVerified) != "1" then Some(NotVerified)
    else if PreferenceOf(account.value, AccountApproved) != "1" then Some(NotApproved)
    else None
  }

  /** Where a redirect goes. */
  datatype Target =
    | LoginPage(tree: Option<string>, url: Option<string>)  // the webtrees login page (tree name, return URL)
    | To(address: string)                                    // an absolute URL

  /** The text of an alert page. */
  datatype AlertText =
    | ProviderNotFoundAlert(providerName: string)
    | InvalidState
    | TokenFailure(exception: Providers.IdentityProviderException)

  /** The fields the registration page is filled with. */
  datatype RegisterForm = RegisterForm(email: string, realName: string, userName: string, password: string,
                                       providerName: string, tree: Option<string>)

  /** An error that leaves the handler uncaught. */
  datatype Uncaught =
    | NullProviderName       // no provider name in the request or the session: `make(null)` is a TypeError
    | UndefinedOptionNames   // the configuration of an unknown provider is read: a TypeError
    | NotFound               // registration is switched off: HttpNotFoundException
    | UndefinedFlagConstant  // the OAuth2 flag's class constant is not defined: an Error, not an Exception
    | NonIntegerUserId       // a user id that is not an int reaches `User`'s `int` parameter: a TypeError

  datatype Response =
    | Redirect(target: Target)
    | Alert(text: AlertText)
    | Register(form: RegisterForm)
    | Thrown(error: Uncaught)

  /** A flash message, by what it reports. */
  datatype Flash =
    | ProviderNotFound(providerName: string)
    | ProviderInvalid(error: ValidationError)
    | Truncated(item: string, length: nat)
    | NoValidUserData
    | LoginFailed(reason: LoginError)
    | UpgradeAvailable
    | ModuleUpdated(version: string)

  /** An entry of the authentication log. */
  datatype LogEntry = LoginFailedLog(reason: LoginError, identifier: string) | LoginLog(userName: string, realName: string)

  /** What the OAuth2 library answers during a request to a login handler. */
  datatype Replies = Replies(
    authorizationUrl: string,                                                   // `getAuthorizationUrl()`
    newState: string,                                                           // `getState()` after it
    token: Result<string, Providers.IdentityProviderException>,                 // `getAccessToken(...)->getToken()`
    owner: Result<Providers.ResourceOwner, Providers.IdentityProviderException>) // `getResourceOwner(...)`

  /** A call into the OAuth2 library, recorded in order. */
  datatype ProviderCall = GetAuthorizationUrl | GetState | GetAccessToken(code: string) | GetResourceOwner

  /**
   * What an accepted callback obtains: the user data and the access token,
   * or the `IdentityProviderException` that `getAccessToken` or
   * `getUserData` throws (`userData` is what `getUserData` would give).
   */
  function Exchange(token: Result<string, Providers.IdentityProviderException>,
                    userData: Result<UserData, Providers.IdentityProviderException>)
    : (r: Result<(UserData, string), Providers.IdentityProviderException>)
    ensures r.Success? <==> token.Success? && userData.Success?
    ensures r.Success? ==> r.value == (userData.value, token.value)
    ensures token.Failure? ==> r == Failure(token.error)
  {
    if token.Failure? then Failure(token.error)
    else if userData.Failure? then Failure(userData.error)
    else Success((userData.value, token.value))
  }

  /** The library calls of an accepted callback: the resource owner is fetched only with a token. */
  function ExchangeCalls(code: string, token: Result<string, Providers.IdentityProviderException>): seq<ProviderCall>
  {
    [GetAccessToken(code)] + (if token.Success? then [GetResourceOwner] else [])
  }

  /** The state of webtrees that the handlers change: session, flash messages, log, signed-in user. */
  class Host {
    var session: map<string, string>
    var flashes: seq<Flash>
    var authLog: seq<LogEntry>
    var signedIn: Option<User>
    var providerCalls: seq<ProviderCall>

    constructor (session: map<string, string>)
      ensures this.session == session && flashes == [] && authLog == [] && signedIn == None && providerCalls == []
    {
      this.session := session;
      flashes := [];
      authLog := [];
      signedIn := None;
      providerCalls := [];
    }

    /** `Session::put($key, $value)`. */
    method Put(key: string, value: string)
      modifies this
      ensures session == old(session)[key := value]
      ensures flashes == old(flashes) && authLog == old(authLog) && signedIn == old(signedIn)
      ensures providerCalls == old(providerCalls)
    {
      session := session[key := value];
    }

    /** `Session::put($key, $value)` of a value that may be null, which unsets the key. */
    method PutOptional(key: string, value: Option<string>)
      modifies this
      ensures session == if value.Some? then old(session)[key := value.value] else old(session) - {key}
      ensures flashes == old(flashes) && authLog == old(authLog) && signedIn == old(signedIn)
      ensures providerCalls == old(providerCalls)
    {
      if value.Some? {
        session := session[key := value.value];
      } else {
        session := session - {key};
      }
    }

    /** `Session::forget($key)`. */
    method Forget(key: string)
      modifies this
      ensures session == old(session) - {key}
      ensures flashes == old(flashes) && authLog == old(authLog) && signedIn == old(signedIn)
      ensures providerCalls == old(providerCalls)
    {
      session := session - {key};
    }

    /** `FlashMessages::addMessage(...)`. */
    method AddFlash(f: Flash)
      modifies this
      ensures flashes == old(flashes) + [f]
      ensures session == old(session) && authLog == old(authLog) && signedIn == old(signedIn)
      ensures providerCalls == old(providerCalls)
    {
      flashes := flashes + [f];
    }

    /** Records a call into the OAuth2 library. */
    method Call(c: ProviderCall)
      modifies this
      ensures providerCalls == old(providerCalls) + [c]
      ensures session == old(session) && flashes == old(flashes) && authLog == old(authLog) && signedIn == old(signedIn)
    {
      providerCalls := providerCalls + [c];
    }

    /**
     * The session check of the callback: forgets a non-empty stored state
     * when the state does not match, and reports the verdict.
     */
    method CheckCallbackState(key: string, code: string, state: string) returns (v: Verdict)
      modifies this
      ensures v == CheckState(code, state, SessionGet(old(session), key))
      ensures session == if v == Rejected then AfterRejection(old(session), key) else old(session)
      ensures flashes == old(flashes) && authLog == old(authLog) && signedIn == old(signedIn)
      ensures providerCalls == old(providerCalls)
    {
      if code == "" {
        return FirstLeg;
      }
      if state == "" || key !in session || state != session[key] {
        if key in session && session[key] != "" {
          Forget(key);
        }
        return Rejected;
      }
      return Accepted;
    }

    /**
     * The grant: the first leg stores the new state and redirects to the
     * authorization URL; a callback whose state does not match is refused
     * without calling the library; a matching callback exchanges the code.
     * A response comes back as a Failure, the exchanged data as a Success.
     */
    method Grant(key: string, code: string, state: string, authorizationUrl: string, newState: string,
                 token: Result<string, Providers.IdentityProviderException>,
                 userData: Result<UserData, Providers.IdentityProviderException>)
      returns (r: Result<(UserData, string), Response>)
      modifies this
      ensures var v := CheckState(code, state, SessionGet(old(session), key));
        (v == FirstLeg ==>
          r == Failure(Redirect(To(authorizationUrl)))
          && session == old(session)[key := newState]
          && providerCalls == old(providerCalls) + [GetAuthorizationUrl, GetState])
        && (v == Rejected ==>
          r == Failure(Alert(InvalidState))
          && session == AfterRejection(old(session), key)
          && providerCalls == old(providerCalls))
        && (v == Accepted ==>
          session == old(session)
          && providerCalls == old(providerCalls) + ExchangeCalls(code, token)
          && r == match Exchange(token, userData)
                  case Success(x) => Success(x)
                  case Failure(e) => Failure(Alert(TokenFailure(e))))
      ensures flashes == old(flashes) && authLog == old(authLog) && signedIn == old(signedIn)
    {
      var verdict := CheckCallbackState(key, code, state);
      if verdict == FirstLeg {
        Call(GetAuthorizationUrl);
        Call(GetState);
        Put(key, newState);
        return Failure(Redirect(To(authorizationUrl)));
      }
      if verdict == Rejected {
        return Failure(Alert(InvalidState));
      }
      Call(GetAccessToken(code));
      if token.Failure? {
        return Failure(Alert(TokenFailure(token.error)));
      }
      Call(GetResourceOwner);
      if userData.Failure? {
        return Failure(Alert(TokenFailure(userData.error)));
      }
      return Success((userData.value, token.value));
    }

    /**
     * The four checks of `doLogin`, in order: no cookies, no account, email
     * not verified, account not approved. A refusal is logged; otherwise the
     * account is found and nothing changes.
     */
    method CheckLogin(identifier: string, directory: map<string, User>, cookies: bool) returns (r: Result<User, LoginError>)
      modifies this
      ensures var account := if identifier in directory then Some(directory[identifier].preferences) else None;
        (r.Success? <==> LoginRefusal(cookies, account) == None)
        && (r.Failure? ==> LoginRefusal(cookies, account) == Some(r.error))
      ensures r.Failure? ==> authLog == old(authLog) + [LoginFailedLog(r.error, identifier)]
      ensures r.Success? ==> identifier in directory && r.value == directory[identifier] && authLog == old(authLog)
      ensures session == old(session) && signedIn == old(signedIn)
      ensures flashes == old(flashes) && providerCalls == old(providerCalls)
    {
      if !cookies {
        authLog := authLog + [LoginFailedLog(NoCookies, identifier)];
        return Failure(NoCookies);
      }
      if identifier !in directory {
        authLog := authLog + [LoginFailedLog(NoSuchUser, identifier)];
        return Failure(NoSuchUser);
      }
      var user := directory[identifier];
      if user.GetPreference(EmailVerified) != "1" {
        authLog := authLog + [LoginFailedLog(NotVerified, identifier)];
        return Failure(NotVerified);
      }
      if user.GetPreference(AccountApproved) != "1" {
        authLog := authLog + [LoginFailedLog(NotApproved, identifier)];
        return Failure(NotApproved);
      }
      return Success(user);
    }

    /**
     * `doLogin($identifier)`: refuses with the first failing check and a
     * log entry; otherwise signs the account in, logs it, stamps its
     * activity time, marks it as signed in through an authorization
     * provider when `markOAuth2` is set, and copies its language and theme
     * into the session.
     */
    method DoLogin(identifier: string, directory: map<string, User>, cookies: bool, now: string, markOAuth2: bool)
      returns (r: Result<User, LoginError>)
      modifies this, directory.Values
      ensures var account := if identifier in directory then Some(old(directory[identifier].preferences)) else None;
        (r.Success? <==> LoginRefusal(cookies, account) == None)
        && (r.Failure? ==> LoginRefusal(cookies, account) == Some(r.error))
      ensures r.Failure? ==>
        authLog == old(authLog) + [LoginFailedLog(r.error, identifier)]
        && session == old(session) && signedIn == old(signedIn)
        && unchanged(directory.Values)
      ensures r.Success? ==>
        var u := r.value;
        identifier in directory && u == directory[identifier]
        && signedIn == Some(u)
        && authLog == old(authLog) + [LoginLog(u.userName, u.realName)]
        && u.Data() == old(u.Data())
        && u.preferences == (if markOAuth2 then old(u.preferences)[TimestampActive := now][LoginWithOAuth2Provider := "1"]
                             else old(u.preferences)[TimestampActive := now])
        && session == old(session)["language" := PreferenceOf(old(u.preferences), Language)]
                                  ["theme" := PreferenceOf(old(u.preferences), Theme)]
        && unchanged(directory.Values - {u})
      ensures flashes == old(flashes) && providerCalls == old(providerCalls)
    {
      r := CheckLogin(identifier, directory, cookies);
      if r.Failure? {
        return;
      }
      var user := r.value;
      signedIn := Some(user);
      authLog := authLog + [LoginLog(user.userName, user.realName)];
      user.SetPreference(TimestampActive, now);
      if markOAuth2 {
        user.SetPreference(LoginWithOAuth2Provider, "1");
      }
      session := session["language" := user.GetPreference(Language)];
      session := session["theme" := user.GetPreference(Theme)];
      return Success(user);
    }

    /**
     * `doLogin($identifier)` of the current handler as written: it stores the
     * OAuth2 flag under `OAuth2Client::USER_PREF_LOGIN_WITH_OAUTH2_PROVIDER`,
     * a class constant that no class defines. After the checks, the login,
     * its log entry and the activity time, PHP raises an `Error` there, which
     * is not an `Exception`. The result is the refusal, or None for that error:
     * the account stays signed in, and neither the flag nor its language and
     * theme are stored.
     */
    method DoLoginAsWritten(identifier: string, directory: map<string, User>, cookies: bool, now: string)
      returns (r: Option<LoginError>)
      modifies this, directory.Values
      ensures r == LoginRefusal(cookies, if identifier in directory then Some(old(directory[identifier].preferences)) else None)
      ensures r.Some? ==>
        authLog == old(authLog) + [LoginFailedLog(r.value, identifier)]
        && session == old(session) && signedIn == old(signedIn)
        && unchanged(directory.Values)
      ensures r.None? ==>
        identifier in directory
        && var u := directory[identifier];
        signedIn == Some(u)
        && authLog == old(authLog) + [LoginLog(u.userName, u.realName)]
        && u.Data() == old(u.Data())
        && u.preferences == old(u.preferences)[TimestampActive := now]
        && session == old(session)
        && unchanged(directory.Values - {u})
      ensures flashes == old(flashes) && providerCalls == old(providerCalls)
    {
      var checked := CheckLogin(identifier, directory, cookies);
      if checked.Failure? {
        return Some(checked.error);
      }
      var user := checked.value;
      signedIn := Some(user);
      authLog := authLog + [LoginLog(user.userName, user.realName)];
      user.SetPreference(TimestampActive, now);
      return None;
    }
  }

  /**
   * Between the two states nobody signed in, nothing was logged, and no
   * account of `directory` changed its fields or preferences.
   */
  twostate predicate AccountsKept(host: Host, directory: map<string, User>)
    reads host, directory.Values
  {
    host.authLog == old(host.authLog) && host.signedIn == old(host.signedIn)
    && unchanged(directory.Values)
  }
}
