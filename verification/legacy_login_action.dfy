/**
 * The earlier request handler `LoginWithAuthorizationProviderAction` of the
 * module's root: no validation of the provider and no truncation; the user
 * name gets the provider's name as a postfix, an empty real name falls back
 * to that user name, and the registration page is shown whenever the
 * account does not exist.
 */
module LegacyLoginAction {
  import opened Wrappers
  import opened FieldAuthority
  import opened LegacyProviders
  import opened OAuth2Flow
  import opened OAuth2Client

  /** The request parameters; `url` is the validated local URL of the body, already defaulted to the home page. */
  datatype LegacyRequest = LegacyRequest(code: string, state: string, providerName: string, url: string)

  /** What the handler reads from webtrees and the server. */
  datatype LegacySite = LegacySite(
    moduleDirectory: string,              // the module's directory, for `activeModuleName()`
    providers: map<string, LegacyKind>,   // what the factory's `make($name)` builds, by name
    cookies: bool,                        // the browser sent cookies
    upgradeNotice: bool,                  // the user is an administrator and an upgrade is available
    now: string)                          // `(string) time()`

  /** The webtrees user name: the provider's user name with the provider's name in parentheses. */
  function PostfixedUserName(userName: string, providerName: string): (r: string)
    ensures |r| == |userName| + |providerName| + 2
    ensures r[..|userName|] == userName && r[|userName|] == '('
    ensures r[|userName| + 1..|r| - 1] == providerName && r[|r| - 1] == ')'
  {
    userName + "(" + providerName + ")"
  }

  /**
   * For provider names without '(', different provider accounts get
   * different user names: the last '(' separates the two parts.
   */
  lemma {:induction false} PostfixedUserNameInjective(u1: string, n1: string, u2: string, n2: string)
    requires forall i | 0 <= i < |n1| :: n1[i] != '('
    requires forall i | 0 <= i < |n2| :: n2[i] != '('
    requires PostfixedUserName(u1, n1) == PostfixedUserName(u2, n2)
    ensures u1 == u2 && n1 == n2
  {
    var r := PostfixedUserName(u1, n1);
    if |u1| == |u2| {
      assert u1 == r[..|u1|] == u2;
      assert n1 == r[|u1| + 1..|r| - 1] == n2;
    }
  }

  /** The real name shown at registration: the provider's, or the user name when it is empty. */
  function LegacyRealName(realName: string, userName: string): (r: string)
    ensures r != "" <==> realName != "" || userName != ""
    ensures realName != "" ==> r == realName
  {
    if realName != "" then realName else userName
  }

  /**
   * The end of an accepted callback, given the provider's user data, the
   * token, the provider name, the target URL and the preferences of the
   * account with the postfixed user name (None: no account): the response
   * and the flash messages.
   */
  function LegacyConcluded(data: UserData, token: string, providerName: string, url: string, site: LegacySite,
                           account: Option<map<Pref, string>>): (Response, seq<Flash>)
  {
    if data.userName == "" || data.email == "" then (Redirect(LoginPage(None, None)), [NoValidUserData])
    else
      var userName := PostfixedUserName(data.userName, providerName);
      if account.None? then
        (Register(RegisterForm(data.email, LegacyRealName(data.realName, userName), userName, token, providerName, None)), [])
      else match LoginRefusal(site.cookies, account)
        case Some(e) => (Redirect(LoginPage(None, Some(url))), [LoginFailed(e)])
        case None => (Redirect(To(url)), if site.upgradeNotice then [UpgradeAvailable] else [])
  }

  /**
   * Login is aborted when the user name or the email is missing; the
   * registration page never gets an empty user name or real name; as in
   * the current handler, `doLogin` never refuses for a missing account.
   */
  lemma LegacyConcludedOutcomes(data: UserData, token: string, providerName: string, url: string, site: LegacySite,
                                account: Option<map<Pref, string>>)
    ensures var c := LegacyConcluded(data, token, providerName, url, site, account);
      (data.userName == "" || data.email == "" <==> NoValidUserData in c.1)
      && (c.0.Register? ==>
            c.0.form.userName == PostfixedUserName(data.userName, providerName) && c.0.form.realName != ""
            && c.0.form.email == data.email && c.0.form.password == token)
      && LoginFailed(NoSuchUser) !in c.1
      && (c.0 == Redirect(To(url)) ==> account.Some? && LoginRefusal(site.cookies, account) == None)
  {
  }

  /**
   * What the earlier handler's conclusion does besides its response and
   * flash messages, for the session `s0` it starts from: nothing when the
   * data lacks a user name or email or the postfixed name has no account;
   * otherwise `doLogin`'s refusal logged with nothing else changed, or the
   * login with the activity time stamped, no OAuth2 flag, and the account's
   * fields left as they were.
   */
  twostate predicate LegacyConcludedState(host: Host, s0: map<string, string>, directory: map<string, User>,
                                          data: UserData, providerName: string, site: LegacySite)
    reads host, directory.Values
  {
    var id := PostfixedUserName(data.userName, providerName);
    if data.userName == "" || data.email == "" || id !in directory then host.session == s0 && AccountsKept(host, directory)
    else
      var u := directory[id];
      match LoginRefusal(site.cookies, Some(old(u.preferences)))
      case Some(refusal) =>
        host.authLog == old(host.authLog) + [LoginFailedLog(refusal, id)]
        && host.session == s0 && host.signedIn == old(host.signedIn)
        && unchanged(directory.Values)
      case None =>
        host.authLog == old(host.authLog) + [LoginLog(old(u.userName), old(u.realName))]
        && host.signedIn == Some(u) && u.Data() == old(u.Data())
        && u.preferences == old(u.preferences)[TimestampActive := site.now]
        && host.session == s0["language" := PreferenceOf(old(u.preferences), Language)]
                             ["theme" := PreferenceOf(old(u.preferences), Theme)]
        && unchanged(directory.Values - {u})
  }

  /**
   * The end of an accepted callback: the checks of the data, then the
   * registration page or `doLogin` with the postfixed user name. The
   * account is not updated from the provider data.
   */
  method LegacyConclude(host: Host, site: LegacySite, providerName: string, data: UserData, token: string, url: string,
                        directory: map<string, User>)
    returns (resp: Response)
    modifies host, directory.Values
    ensures var id := PostfixedUserName(data.userName, providerName);
      var account := if id in directory then Some(old(directory[id].preferences)) else None;
      var c := LegacyConcluded(data, token, providerName, url, site, account);
      resp == c.0 && host.flashes == old(host.flashes) + c.1
    ensures LegacyConcludedState(host, old(host.session), directory, data, providerName, site)
    ensures host.providerCalls == old(host.providerCalls)
  {
    if data.userName == "" || data.email == "" {
      host.AddFlash(NoValidUserData);
      return Redirect(LoginPage(None, None));
    }
    var userName := PostfixedUserName(data.userName, providerName);
    var realName := if data.realName != "" then data.realName else userName;
    if userName !in directory {
      return Register(RegisterForm(data.email, realName, userName, token, providerName, None));
    }
    var login := host.DoLogin(userName, directory, site.cookies, site.now, false);
    if login.Failure? {
      host.AddFlash(LoginFailed(login.error));
      return Redirect(LoginPage(None, Some(url)));
    }
    if site.upgradeNotice {
      host.AddFlash(UpgradeAvailable);
    }
    return Redirect(To(url));
  }

  /** `getUserData($accessToken)` of the earlier provider of kind `kind`, with Joomla's id cast as intended. */
  function LegacyUserDataOf(kind: LegacyKind, owner: Result<Providers.ResourceOwner, Providers.IdentityProviderException>)
    : Result<UserData, Providers.IdentityProviderException>
  {
    if owner.Failure? then Failure(owner.error) else Success(LegacyUserData(kind, owner.value))
  }

  /**
   * The response of an accepted callback, given the preferences of the
   * accounts by user name: the alert for the provider's failure, or the end
   * `LegacyConcluded` gives. It never ends uncaught.
   */
  function LegacyAccepted(kind: LegacyKind, replies: Replies, providerName: string, url: string, site: LegacySite,
                          accounts: map<string, map<Pref, string>>): (r: Response)
    ensures !r.Thrown?
    ensures r.Alert? <==> replies.token.Failure? || replies.owner.Failure?
  {
    match Exchange(replies.token, LegacyUserDataOf(kind, replies.owner))
    case Failure(e) => Alert(TokenFailure(e))
    case Success(exchanged) =>
      var id := PostfixedUserName(exchanged.0.userName, providerName);
      var account := if id in accounts then Some(accounts[id]) else None;
      LegacyConcluded(exchanged.0, exchanged.1, providerName, url, site, account).0
  }

  /**
   * The same response as the code is written: Joomla's `getUserData`
   * raises a TypeError for an owner whose `id` is not an int, and the
   * handler's `catch (IdentityProviderException $e)` lets it through.
   */
  function LegacyAcceptedAsWritten(kind: LegacyKind, replies: Replies, providerName: string, url: string,
                                   site: LegacySite, accounts: map<string, map<Pref, string>>): (r: Response)
    ensures r.Thrown? <==>
      kind == LegacyJoomla && replies.token.Success? && replies.owner.Success? && replies.owner.value.intId.None?
    ensures r.Thrown? ==> r.error == NonIntegerUserId
    ensures !r.Thrown? ==> r == LegacyAccepted(kind, replies, providerName, url, site, accounts)
  {
    if kind == LegacyJoomla && replies.token.Success? && replies.owner.Success?
       && LegacyJoomlaUserDataAsWritten(replies.owner.value).None?
    then Thrown(NonIntegerUserId)
    else LegacyAccepted(kind, replies, providerName, url, site, accounts)
  }

  /**
   * A Joomla owner without an id, for a user name with no account: as
   * written the request ends uncaught, where the intended code shows the
   * registration page.
   */
  lemma LegacyJoomlaWithoutIdThrows()
    ensures var owner := Providers.ResourceOwner(map["username" := "ann", "email" := "ann@example.org"], None, None, true, None);
      var replies := Replies("", "", Success("t"), Success(owner));
      var site := LegacySite("", map["Joomla" := LegacyJoomla], true, false, "0");
      LegacyAcceptedAsWritten(LegacyJoomla, replies, "Joomla", "/", site, map[]) == Thrown(NonIntegerUserId)
      && LegacyAccepted(LegacyJoomla, replies, "Joomla", "/", site, map[]).Register?
  {
  }

  /**
   * What the grant and its conclusion do for the session `s0` the handler
   * works on, once the provider of kind `kind` is known: the first leg
   * stores the new state and redirects; a wrong state is refused and the
   * stored state forgotten; an accepted callback exchanges the code and
   * reports the provider's failure, or ends as `LegacyConcluded` and
   * `LegacyConcludedState` say. Only the conclusion touches the accounts,
   * the log or the signed-in user.
   */
  twostate predicate LegacyGrantOutcome(host: Host, s0: map<string, string>, prefix: string, site: LegacySite,
                                        req: LegacyRequest, name: string, kind: LegacyKind, replies: Replies,
                                        directory: map<string, User>, resp: Response)
    reads host, directory.Values
  {
    var key := prefix + "oauth2state";
    match CheckState(req.code, req.state, SessionGet(s0, key))
    case FirstLeg =>
      resp == Redirect(To(replies.authorizationUrl)) && host.session == s0[key := replies.newState]
      && host.flashes == old(host.flashes)
      && host.providerCalls == old(host.providerCalls) + [GetAuthorizationUrl, GetState]
      && AccountsKept(host, directory)
    case Rejected =>
      resp == Alert(InvalidState) && host.session == AfterRejection(s0, key)
      && host.flashes == old(host.flashes) && host.providerCalls == old(host.providerCalls)
      && AccountsKept(host, directory)
    case Accepted =>
      host.providerCalls == old(host.providerCalls) + ExchangeCalls(req.code, replies.token)
      && match Exchange(replies.token, LegacyUserDataOf(kind, replies.owner))
        case Failure(e) =>
          resp == Alert(TokenFailure(e)) && host.session == s0 && host.flashes == old(host.flashes)
          && AccountsKept(host, directory)
        case Success(exchanged) =>
          var data := exchanged.0;
          var id := PostfixedUserName(data.userName, name);
          var account := if id in directory then Some(old(directory[id].preferences)) else None;
          var c := LegacyConcluded(data, exchanged.1, name, req.url, site, account);
          resp == c.0 && host.flashes == old(host.flashes) + c.1
          && LegacyConcludedState(host, s0, directory, data, name, site)
  }

  /** The grant for the provider of kind `kind`, then `LegacyConclude` on an accepted callback. */
  method LegacyCallback(host: Host, prefix: string, site: LegacySite, req: LegacyRequest, name: string,
                        kind: LegacyKind, replies: Replies, directory: map<string, User>)
    returns (resp: Response)
    modifies host, directory.Values
    ensures LegacyGrantOutcome(host, old(host.session), prefix, site, req, name, kind, replies, directory, resp)
    ensures host.signedIn != old(host.signedIn) ==> resp.Redirect? && resp.target.To?
  {
    var granted := host.Grant(prefix + "oauth2state", req.code, req.state, replies.authorizationUrl, replies.newState,
                              replies.token, LegacyUserDataOf(kind, replies.owner));
    if granted.Failure? {
      return granted.error;
    }
    resp := LegacyConclude(host, site, name, granted.value.0, granted.value.1, req.url, directory);
  }

  /**
   * `handle($request)`: saves or loads the provider name, shows an alert
   * for a provider the factory does not build, then runs the grant, on the
   * session with the request's provider name saved, and for an accepted
   * callback `LegacyConclude`.
   */
  method LegacyHandle(host: Host, site: LegacySite, req: LegacyRequest, replies: Replies, directory: map<string, User>)
    returns (resp: Response)
    modifies host, directory.Values
    ensures var prefix := ActiveModuleName(site.moduleDirectory);
      var nameKey := prefix + "provider_name";
      var saved := if req.providerName != "" then old(host.session)[nameKey := req.providerName] else old(host.session);
      var name := if req.providerName != "" then Some(req.providerName) else SessionGet(old(host.session), nameKey);
      (name.None? ==>
            resp == Thrown(NullProviderName) && host.session == saved && host.flashes == old(host.flashes)
            && host.providerCalls == old(host.providerCalls) && AccountsKept(host, directory))
      && (name.Some? && name.value !in site.providers ==>
            resp == Alert(ProviderNotFoundAlert(name.value)) && host.session == saved
            && host.flashes == old(host.flashes) && host.providerCalls == old(host.providerCalls)
            && AccountsKept(host, directory))
      && (name.Some? && name.value in site.providers ==>
            LegacyGrantOutcome(host, saved, prefix, site, req, name.value, site.providers[name.value], replies,
                               directory, resp))
    ensures host.signedIn != old(host.signedIn) ==> resp.Redirect? && resp.target.To?
  {
    var prefix := ActiveModuleName(site.moduleDirectory);
    var name: Option<string>;
    if req.providerName != "" {
      host.Put(prefix + "provider_name", req.providerName);
      name := Some(req.providerName);
    } else {
      name := SessionGet(host.session, prefix + "provider_name");
    }
    if name.None? {
      return Thrown(NullProviderName);
    }
    if name.value !in site.providers {
      return Alert(ProviderNotFoundAlert(name.value));
    }
    resp := LegacyCallback(host, prefix, site, req, name.value, site.providers[name.value], replies, directory);
  }
}
