/**
 * The request handler `LoginWithAuthorizationProviderAction` of the current
 * provider tree: it saves or restores the requested provider, makes and
 * validates it, runs the authorization-code grant (RFC 6749, section 4.1)
 * with the `state` check of section 10.12, truncates the user data to the
 * webtrees column sizes, and then shows the registration page or signs the
 * user in.
 */
module LoginAction {
  import opened Wrappers
  import opened FieldAuthority
  import opened Truncation
  import opened Providers
  import opened ProviderFactory
  import opened OAuth2Flow
  import opened OAuth2Client

  /**
   * The class of provider kind `kind` as discovery sees it; `name` is what
   * its static `getName()` returns (see `SrcNamesAreGetName`).
   */
  function SrcClass(kind: ProviderKind, name: string): DeclaredClass<ProviderKind>
  {
    DeclaredClass(ClassName(kind), true, true, name, RequiredOptions(kind), kind)
  }

  /** The provider classes the handler's factory can discover. */
  const SrcDeclared: seq<DeclaredClass<ProviderKind>> :=
    [SrcClass(WordPress, "WordPress"), SrcClass(Google, "Google"), SrcClass(Joomla, "Joomla"), SrcClass(Generic, "Generic")]

  /** Each declared class reports its provider's `getName()` and `getRequiredOptions()`. */
  lemma SrcNamesAreGetName()
    ensures forall c | c in SrcDeclared :: c == SrcClass(c.impl, GetName(c.impl))
  {
  }

  /** The four class names differ (in their first or second letter). */
  lemma ClassNamesDistinct()
    ensures DistinctShortNames(SrcDeclared)
  {
    assert ClassName(WordPress)[0] == 'W' && ClassName(Joomla)[0] == 'J';
    assert ClassName(Google)[0] == 'G' && ClassName(Generic)[0] == 'G';
    assert ClassName(Google)[1] == 'o' && ClassName(Generic)[1] == 'e';
    forall i, j | 0 <= i < j < |SrcDeclared| ensures SrcDeclared[i].shortName != SrcDeclared[j].shortName {
      assert SrcDeclared[i].shortName == ClassName(SrcDeclared[i].impl);
      assert SrcDeclared[j].shortName == ClassName(SrcDeclared[j].impl);
    }
  }

  /** Discovery lists all four provider classes, in declaration order. */
  lemma SrcDiscovery()
    ensures Discovered(SrcDeclared, true) == SrcDeclared
  {
    ClassNamesDistinct();
    assert forall c | c in SrcDeclared :: c.shortName != AbstractClassName by {
      assert AbstractClassName[0] == 'A';
    }
    AllListedDiscovered(SrcDeclared, true);
  }

  /** A provider's own name finds its class. */
  lemma SrcLookupKnown(kind: ProviderKind)
    ensures FirstNamed(SrcDeclared, GetName(kind)) == Some(SrcClass(kind, GetName(kind)))
  {
    match kind
    case WordPress => assert FirstNamed(SrcDeclared, "WordPress") == Some(SrcDeclared[0]);
    case Google => assert SrcDeclared[1..][0] == SrcDeclared[1];
    case Joomla => assert SrcDeclared[1..][1..][0] == SrcDeclared[2];
    case Generic => assert SrcDeclared[1..][1..][1..][0] == SrcDeclared[3];
  }

  /** A name that is no provider's finds no class. */
  lemma SrcLookupUnknown(name: string)
    requires forall k :: GetName(k) != name
    ensures FirstNamed(SrcDeclared, name) == None
  {
    assert forall j | 0 <= j < |SrcDeclared| :: SrcDeclared[j].providerName == GetName(SrcDeclared[j].impl);
    FirstNamedIsFirst(SrcDeclared, name);
  }

  /**
   * What `make` yields for provider name `name`: an uncaught error, no
   * provider (null), or a provider of the given kind.
   */
  function Selected(name: string, config: Option<seq<(string, string)>>): Result<Option<ProviderKind>, ConfigError>
  {
    match ReadOptions(SrcDeclared, name, config)
    case Failure(e) => Failure(e)
    case Success(options) =>
      if options == map[] then Success(None)
      else match FirstNamed(SrcDeclared, name)
        case None => Success(None)
        case Some(c) => Success(Some(c.impl))
  }

  /**
   * `make` fails only for a name no provider has, with a non-empty
   * configuration file; it yields a provider only for that provider's
   * name, and only when every required option of it is configured.
   */
  lemma SelectedByName(name: string, config: Option<seq<(string, string)>>)
    ensures Selected(name, config).Failure? <==>
      config.Some? && config.value != [] && forall k :: GetName(k) != name
    ensures Selected(name, config).Success? && Selected(name, config).value.Some? ==>
      var kind := Selected(name, config).value.value;
      GetName(kind) == name
      && ReadOptions(SrcDeclared, name, config).value.Keys == set n | n in RequiredOptions(kind)
  {
    ReadOptionsAllOrNothing(SrcDeclared, name, config);
    if forall k :: GetName(k) != name {
      SrcLookupUnknown(name);
    } else {
      var k :| GetName(k) == name;
      SrcLookupKnown(k);
    }
  }

  /**
   * Whenever `make('WordPress', ...)` finds a complete configuration, the
   * WordPress constructor as written fails on its undefined label setter.
   */
  lemma WordPressMadeAsWrittenFails(redirectUri: string, config: Option<seq<(string, string)>>)
    requires Selected("WordPress", config) == Success(Some(WordPress))
    ensures WordPressConstructorAsWritten(redirectUri, ReadOptions(SrcDeclared, "WordPress", config).value).Failure?
  {
    SelectedByName("WordPress", config);
    WordPressAsWrittenFails(redirectUri, ReadOptions(SrcDeclared, "WordPress", config).value);
  }

  /**
   * The provider classes of this tree that define `getRequiredOptions()`:
   * WordPress and Google, whose base class is the correctly spelt one; the
   * Joomla and Generic classes extend the misspelt base, which has no such
   * method.
   */
  const SrcDeclaringRequiredOptions: set<string> := {ClassName(WordPress), ClassName(Google)}

  /**
   * As written, `make('Joomla')` and `make('Generic')` end in a
   * ReflectionException whatever the configuration holds, because the
   * class found for the name has no `getRequiredOptions()`.
   */
  lemma JoomlaGenericAsWrittenFail(kind: ProviderKind, config: Option<seq<(string, string)>>)
    requires kind == Joomla || kind == Generic
    ensures ReadOptionsReflecting(SrcDeclared, GetName(kind), config, SrcDeclaringRequiredOptions)
      == Failure(NoSuchMethod(ClassName(kind)))
  {
    SrcLookupKnown(kind);
    assert ClassName(kind) != ClassName(WordPress) by { assert ClassName(WordPress)[0] == 'W'; }
    assert ClassName(kind) != ClassName(Google) by { assert ClassName(Google)[1] == 'o'; }
  }

  /** For WordPress and Google the reflection finds the method, and the options are read as usual. */
  lemma WordPressGoogleReflectionAgrees(kind: ProviderKind, config: Option<seq<(string, string)>>)
    requires kind == WordPress || kind == Google
    ensures ReadOptions(SrcDeclared, GetName(kind), config).Success? ==>
      ReadOptionsReflecting(SrcDeclared, GetName(kind), config, SrcDeclaringRequiredOptions)
        == Success(ReadOptions(SrcDeclared, GetName(kind), config).value)
  {
    SrcLookupKnown(kind);
  }

  /**
   * With `getRequiredOptions()` defined for every provider, `make` never
   * fails for the Joomla or Generic name: it yields that provider exactly
   * when its required options are all configured, and null otherwise.
   */
  lemma JoomlaGenericSelected(kind: ProviderKind, config: Option<seq<(string, string)>>)
    requires kind == Joomla || kind == Generic
    ensures Selected(GetName(kind), config).Success?
    ensures Selected(GetName(kind), config).value.Some? <==>
      ReadOptions(SrcDeclared, GetName(kind), config).value.Keys == set n | n in RequiredOptions(kind)
    ensures Selected(GetName(kind), config).value.Some? ==> Selected(GetName(kind), config).value.value == kind
  {
    SrcLookupKnown(kind);
    ReadOptionsAllOrNothing(SrcDeclared, GetName(kind), config);
    var options := ReadOptions(SrcDeclared, GetName(kind), config).value;
    if options.Keys == set n | n in RequiredOptions(kind) {
      assert "clientId" in options.Keys by { assert RequiredOptions(kind)[0] == "clientId"; }
    }
  }

  /** The session keys the handler uses, each behind the module's prefix. */
  const ProviderNameKey := "provider_name"
  const UrlKey := "url"
  const TreeKey := "tree"
  const StateKey := "oauth2state"

  /** The provider name the handler works with: the request's, else the one saved in the session. */
  function RequestedName(session: map<string, string>, prefix: string, req: Request): Option<string>
  {
    if req.providerName != "" then Some(req.providerName) else SessionGet(session, prefix + ProviderNameKey)
  }

  /** The session after a request that names a provider has saved the name, the URL and the tree. */
  function SavedSession(session: map<string, string>, prefix: string, req: Request): map<string, string>
  {
    if req.providerName == "" then session
    else
      var s := session[prefix + ProviderNameKey := req.providerName][prefix + UrlKey := req.url];
      if req.tree.Some? then s[prefix + TreeKey := req.tree.value] else s - {prefix + TreeKey}
  }

  /**
   * A later request without a provider name (the provider's callback)
   * restores the name, URL and tree an earlier request saved.
   */
  lemma CallbackRestoresRequest(session: map<string, string>, directory: string, req: Request, callback: Request)
    requires req.providerName != "" && callback.providerName == ""
    ensures var prefix := ActiveModuleName(directory);
      var saved := SavedSession(session, prefix, req);
      RequestedName(saved, prefix, callback) == Some(req.providerName)
      && SessionGet(saved, prefix + UrlKey) == Some(req.url)
      && SessionGet(saved, prefix + TreeKey) == req.tree
  {
    var prefix := ActiveModuleName(directory);
    PrefixedKeysDistinct(directory, ProviderNameKey, UrlKey);
    PrefixedKeysDistinct(directory, ProviderNameKey, TreeKey);
    PrefixedKeysDistinct(directory, UrlKey, TreeKey);
  }

  /** Saving the request changes no other key: not the stored state, and not webtrees' own keys. */
  lemma SavingKeepsOtherKeys(session: map<string, string>, directory: string, req: Request, key: string)
    requires key != ActiveModuleName(directory) + ProviderNameKey
    requires key != ActiveModuleName(directory) + UrlKey
    requires key != ActiveModuleName(directory) + TreeKey
    ensures SessionGet(SavedSession(session, ActiveModuleName(directory), req), key) == SessionGet(session, key)
  {
  }

  /** The stored state's key is none of the keys a request saves. */
  lemma StateKeySeparate(directory: string)
    ensures var prefix := ActiveModuleName(directory);
      prefix + StateKey != prefix + ProviderNameKey && prefix + StateKey != prefix + UrlKey
      && prefix + StateKey != prefix + TreeKey
  {
    PrefixedKeysDistinct(directory, StateKey, ProviderNameKey);
    PrefixedKeysDistinct(directory, StateKey, UrlKey);
    PrefixedKeysDistinct(directory, StateKey, TreeKey);
  }

  /** The request parameters; `url` is the validated local URL, already defaulted to the home page. */
  datatype Request = Request(code: string, state: string, providerName: string, url: string, tree: Option<string>)

  /** What the handler reads from webtrees and the server. */
  datatype Site = Site(
    moduleDirectory: string,                 // the module's directory, for `activeModuleName()`
    redirectUri: string,                     // `OAuth2Client::getRedirectUrl($base_url)`
    homeUrl: string,                         // `route(HomePage::class)`
    config: Option<seq<(string, string)>>,   // the configuration file's entries; None when there is none
    registrationOpen: bool,                  // the site preference USE_REGISTRATION_MODULE is '1'
    cookies: bool,                           // the browser sent cookies
    upgradeNotice: bool,                     // the user is an administrator and an upgrade is available
    now: string)                             // `(string) time()`

  /** Saves the request's provider name, URL and tree, or loads the name saved before. */
  method SaveOrLoadProviderName(host: Host, prefix: string, req: Request) returns (name: Option<string>)
    modifies host
    ensures name == RequestedName(old(host.session), prefix, req)
    ensures host.session == SavedSession(old(host.session), prefix, req)
    ensures host.flashes == old(host.flashes) && host.authLog == old(host.authLog)
    ensures host.signedIn == old(host.signedIn) && host.providerCalls == old(host.providerCalls)
  {
    if req.providerName != "" {
      host.Put(prefix + ProviderNameKey, req.providerName);
      host.Put(prefix + UrlKey, req.url);
      host.PutOptional(prefix + TreeKey, req.tree);
      name := Some(req.providerName);
    } else {
      name := SessionGet(host.session, prefix + ProviderNameKey);
    }
  }

  /** `getUserData($accessToken)` of a provider of kind `kind`, given what the library reports as resource owner. */
  function UserDataOf(kind: ProviderKind, owner: Result<ResourceOwner, IdentityProviderException>)
    : Result<UserData, IdentityProviderException>
  {
    if owner.Failure? then Failure(owner.error) else GetUserData(kind, owner.value)
  }

  /** The exchange of an accepted callback for a provider of kind `kind`. */
  function Exchanged(kind: ProviderKind, replies: Replies): Result<(UserData, string), IdentityProviderException>
  {
    Exchange(replies.token, UserDataOf(kind, replies.owner))
  }

  /**
   * The exchange succeeds exactly when the library delivers a token and a
   * resource owner and, for Google, the owner's id can be read; it then
   * carries the token unchanged and the provider's mapping of the owner.
   */
  lemma ExchangeOutcome(kind: ProviderKind, replies: Replies)
    ensures Exchanged(kind, replies).Success? <==>
      replies.token.Success? && replies.owner.Success? && (kind == Google ==> replies.owner.value.idReadable)
    ensures Exchanged(kind, replies).Success? ==> Exchanged(kind, replies).value.1 == replies.token.value
    ensures Exchanged(kind, replies).Success? ==>
      Exchanged(kind, replies).value.0 == GetUserData(kind, replies.owner.value).value
  {
  }

  /** The flash message one `resizeUserData` call adds, if any. */
  function Warning(name: string, value: string, addFlashMessage: bool): seq<Flash>
  {
    if Warns(name, value, addFlashMessage) then [Truncated(name, MaxLength(name))] else []
  }

  /** `resizeUserData($name, $value, $add_flash_message)`. */
  method ResizeUserData(host: Host, name: string, value: string, addFlashMessage: bool) returns (r: string)
    modifies host
    ensures r == Resize(name, value)
    ensures host.flashes == old(host.flashes) + Warning(name, value, addFlashMessage)
    ensures host.session == old(host.session) && host.authLog == old(host.authLog)
    ensures host.signedIn == old(host.signedIn) && host.providerCalls == old(host.providerCalls)
  {
    var length := MaxLength(name);
    if addFlashMessage && |value| > length {
      host.AddFlash(Truncated(name, length));
    }
    r := if |value| <= length then value else value[..length];
  }

  /** The user data as truncated to the columns of the webtrees user table. */
  function Resized(data: UserData): (r: UserData)
    ensures |r.userName| <= 32 && |r.realName| <= 64 && |r.email| <= 64
    ensures r.userName <= data.userName && r.realName <= data.realName && r.email <= data.email
  {
    UserData(Resize("Username", data.userName), Resize("Real name", data.realName), Resize("Email address", data.email))
  }

  /** The flash messages of the four resizes, in order; the token's never warns. */
  function ResizeFlashes(data: UserData, token: string): seq<Flash>
  {
    Warning("Username", data.userName, true) + Warning("Real name", data.realName, true)
    + Warning("Email address", data.email, true) + Warning("Password", token, false)
  }

  /** A truncation is reported exactly for a user-data field over its limit, and never for the password. */
  lemma ResizeFlashesExactly(data: UserData, token: string)
    ensures Truncated("Username", 32) in ResizeFlashes(data, token) <==> |data.userName| > 32
    ensures Truncated("Real name", 64) in ResizeFlashes(data, token) <==> |data.realName| > 64
    ensures Truncated("Email address", 64) in ResizeFlashes(data, token) <==> |data.email| > 64
    ensures forall n: nat :: Truncated("Password", n) !in ResizeFlashes(data, token)
    ensures |ResizeFlashes(data, token)| <= 3
  {
  }

  /** The identifier used to find the account: the primary field of the key map, or '' when neither qualifies. */
  function Identifier(k: KeyInformation, t: UserData): string
  {
    if k.userName == Primary then t.userName
    else if k.email == Primary then t.email
    else ""
  }

  /**
   * For a key map that passes `validate`, the identifier is the value of
   * its only primary field; for the providers, the user name for
   * WordPress and Joomla and the email for Google and Generic.
   */
  lemma IdentifierIsPrimaryField(k: KeyInformation, t: UserData)
    requires Validate(k) == None
    ensures exists f :: FieldsAt(k, Primary) == {f} && Identifier(k, t) == t.Get(f)
  {
    ValidNamesOneIdentifier(k);
    if k.userName == Primary {
      assert FieldsAt(k, Primary) == {UserName};
    } else {
      assert FieldsAt(k, Primary) == {Email};
    }
  }

  /** Each provider identifies its users by its primary field. */
  lemma ProviderIdentifier(kind: ProviderKind, t: UserData)
    ensures Identifier(KeyInfo(kind), t) == if kind == WordPress || kind == Joomla then t.userName else t.email
  {
    KeyMapsValidate(kind);
  }

  /**
   * The end of an accepted callback, given the identifier `id`, the
   * truncated data `t`, the truncated token, the session's tree and URL,
   * and the preferences of the account found for `id` (None: no account):
   * the response and the flash messages after the truncation ones.
   */
  function Concluded(id: string, t: UserData, password: string, providerName: string, tree: Option<string>,
                     url: string, site: Site, account: Option<map<Pref, string>>): (Response, seq<Flash>)
  {
    if id == "" then (Redirect(LoginPage(tree, Some(url))), [NoValidUserData])
    else if account.None? then
      (if site.registrationOpen then Register(RegisterForm(t.email, t.realName, t.userName, password, providerName, None))
       else Thrown(NotFound), [])
    else match LoginRefusal(site.cookies, account)
      case Some(e) => (Redirect(LoginPage(None, Some(url))), [LoginFailed(e)])
      case None => (Redirect(To(url)), if site.upgradeNotice then [UpgradeAvailable] else [])
  }

  /**
   * The handler looks the account up before `doLogin` does, so `doLogin`
   * never refuses for a missing account; the user reaches the target URL
   * only when the account's email is verified and it is approved.
   */
  lemma ConcludedOutcomes(id: string, t: UserData, password: string, providerName: string, tree: Option<string>,
                          url: string, site: Site, account: Option<map<Pref, string>>)
    ensures LoginFailed(NoSuchUser) !in Concluded(id, t, password, providerName, tree, url, site, account).1
    ensures Concluded(id, t, password, providerName, tree, url, site, account).0 == Redirect(To(url)) ==>
      id != "" && account.Some? && site.cookies
      && PreferenceOf(account.value, EmailVerified) == "1" && PreferenceOf(account.value, AccountApproved) == "1"
    ensures Concluded(id, t, password, providerName, tree, url, site, account).0.Register? ==>
      id != "" && account.None? && site.registrationOpen
  {
  }

  /** The registration page is filled with the truncated data and token, all within the column sizes. */
  lemma RegisterFormWithinLimits(data: UserData, token: string, providerName: string, tree: Option<string>,
                                 url: string, site: Site, kind: ProviderKind, account: Option<map<Pref, string>>)
    ensures var t := Resized(data);
      var c := Concluded(Identifier(KeyInfo(kind), t), t, Resize("Password", token), providerName, tree, url, site, account);
      c.0.Register? ==>
        c.0.form.userName <= data.userName && |c.0.form.userName| <= 32
        && c.0.form.realName <= data.realName && |c.0.form.realName| <= 64
        && c.0.form.email <= data.email && |c.0.form.email| <= 64
        && c.0.form.password <= token && |c.0.form.password| <= 128
        && c.0.form.providerName == providerName && c.0.form.tree == None
  {
  }

  /** The four `resizeUserData` calls: the three user-data fields warn, the access token does not. */
  method ResizeAll(host: Host, data: UserData, token: string) returns (t: UserData, password: string)
    modifies host
    ensures t == Resized(data) && password == Resize("Password", token)
    ensures host.flashes == old(host.flashes) + ResizeFlashes(data, token)
    ensures host.session == old(host.session) && host.authLog == old(host.authLog)
    ensures host.signedIn == old(host.signedIn) && host.providerCalls == old(host.providerCalls)
  {
    var userName := ResizeUserData(host, "Username", data.userName, true);
    var realName := ResizeUserData(host, "Real name", data.realName, true);
    var email := ResizeUserData(host, "Email address", data.email, true);
    password := ResizeUserData(host, "Password", token, false);
    t := UserData(userName, realName, email);
  }

  /**
   * What the conclusion of an accepted callback does besides its response
   * and flash messages, for the identifier `id` and the session `s0` it
   * starts from: nothing for an empty or unknown identifier; for a known
   * account, `doLogin`'s refusal logged with nothing else changed, or the
   * login, with the account updated from the provider's `data`, stamped
   * and flagged, and its language and theme in the session.
   */
  twostate predicate ConcludedState(host: Host, s0: map<string, string>, directory: map<string, User>, id: string,
                                    kind: ProviderKind, data: UserData, site: Site)
    reads host, directory.Values
  {
    if id == "" || id !in directory then host.session == s0 && AccountsKept(host, directory)
    else
      var u := directory[id];
      match LoginRefusal(site.cookies, Some(old(u.preferences)))
      case Some(refusal) =>
        host.authLog == old(host.authLog) + [LoginFailedLog(refusal, id)]
        && host.session == s0 && host.signedIn == old(host.signedIn)
        && unchanged(directory.Values)
      case None =>
        host.authLog == old(host.authLog) + [LoginLog(old(u.userName), old(u.realName))]
        && host.signedIn == Some(u)
        && u.Data() == UpdatedUserData(KeyInfo(kind), old(u.Data()), data)
        && u.preferences == old(u.preferences)[TimestampActive := site.now][LoginWithOAuth2Provider := "1"]
        && host.session == s0["language" := PreferenceOf(old(u.preferences), Language)]
                             ["theme" := PreferenceOf(old(u.preferences), Theme)]
        && unchanged(directory.Values - {u})
  }

  /**
   * The login of a known account: `doLogin`, then on success the update of
   * the account from the provider data and the upgrade notice; on failure
   * the reason as a flash message and a redirect to the login page.
   */
  method SignIn(host: Host, id: string, url: string, site: Site, kind: ProviderKind, data: UserData,
                directory: map<string, User>)
    returns (resp: Response)
    requires id != "" && id in directory
    modifies host, directory.Values
    ensures var c := Concluded(id, Resized(data), "", "", None, url, site, Some(old(directory[id].preferences)));
      resp == c.0 && host.flashes == old(host.flashes) + c.1
    ensures var u := directory[id];
      var refusal := LoginRefusal(site.cookies, Some(old(u.preferences)));
      (refusal.Some? ==>
        host.authLog == old(host.authLog) + [LoginFailedLog(refusal.value, id)]
        && host.session == old(host.session) && host.signedIn == old(host.signedIn)
        && unchanged(directory.Values))
      && (refusal.None? ==>
        host.authLog == old(host.authLog) + [LoginLog(old(u.userName), old(u.realName))]
        && host.signedIn == Some(u)
        && u.Data() == UpdatedUserData(KeyInfo(kind), old(u.Data()), data)
        && u.preferences == old(u.preferences)[TimestampActive := site.now][LoginWithOAuth2Provider := "1"]
        && host.session == old(host.session)["language" := PreferenceOf(old(u.preferences), Language)]
                                            ["theme" := PreferenceOf(old(u.preferences), Theme)]
        && unchanged(directory.Values - {u}))
    ensures host.providerCalls == old(host.providerCalls)
  {
    var login := host.DoLogin(id, directory, site.cookies, site.now, true);
    if login.Failure? {
      host.AddFlash(LoginFailed(login.error));
      return Redirect(LoginPage(None, Some(url)));
    }
    var _ := UpdateUserData(KeyInfo(kind), login.value, data);
    if site.upgradeNotice {
      host.AddFlash(UpgradeAvailable);
    }
    return Redirect(To(url));
  }

  /**
   * `Concluded` as the handler is written: `doLogin` reads the OAuth2 flag
   * through a class constant that `OAuth2Client` does not define, and the
   * resulting Error is not an Exception, so it escapes the handler's catch
   * after the login has been logged and time-stamped.
   */
  function ConcludedAsWritten(id: string, t: UserData, password: string, providerName: string, tree: Option<string>,
                              url: string, site: Site, account: Option<map<Pref, string>>): (Response, seq<Flash>)
  {
    if id != "" && account.Some? && LoginRefusal(site.cookies, account).None? then (Thrown(UndefinedFlagConstant), [])
    else Concluded(id, t, password, providerName, tree, url, site, account)
  }

  /**
   * As written, no callback reaches the target URL: the two ends differ
   * exactly on the logins `doLogin` lets through.
   */
  lemma ConcludedAsWrittenNeverSignsIn(id: string, t: UserData, password: string, providerName: string,
                                       tree: Option<string>, url: string, site: Site, account: Option<map<Pref, string>>)
    ensures ConcludedAsWritten(id, t, password, providerName, tree, url, site, account).0 != Redirect(To(url))
    ensures ConcludedAsWritten(id, t, password, providerName, tree, url, site, account)
              != Concluded(id, t, password, providerName, tree, url, site, account) <==>
      id != "" && account.Some? && LoginRefusal(site.cookies, account).None?
  {
    if id != "" && account.Some? && LoginRefusal(site.cookies, account).None? {
      assert Concluded(id, t, password, providerName, tree, url, site, account).0 == Redirect(To(url));
    } else {
      ConcludedOutcomes(id, t, password, providerName, tree, url, site, account);
    }
  }

  /**
   * The login of a known account as written: a refusal is reported as in
   * `SignIn`; an accepted login leaves the user signed in, logged and
   * time-stamped, but ends in the uncaught Error before the flag, the
   * session's language and theme and the account update.
   */
  method SignInAsWritten(host: Host, id: string, url: string, site: Site, directory: map<string, User>)
    returns (resp: Response)
    requires id != "" && id in directory
    modifies host, directory.Values
    ensures var c := ConcludedAsWritten(id, UserData("", "", ""), "", "", None, url, site, Some(old(directory[id].preferences)));
      resp == c.0 && host.flashes == old(host.flashes) + c.1
    ensures var u := directory[id];
      var refusal := LoginRefusal(site.cookies, Some(old(u.preferences)));
      (refusal.Some? ==>
        host.authLog == old(host.authLog) + [LoginFailedLog(refusal.value, id)]
        && host.session == old(host.session) && host.signedIn == old(host.signedIn)
        && unchanged(directory.Values))
      && (refusal.None? ==>
        host.authLog == old(host.authLog) + [LoginLog(old(u.userName), old(u.realName))]
        && host.signedIn == Some(u)
        && u.Data() == old(u.Data())
        && u.preferences == old(u.preferences)[TimestampActive := site.now]
        && host.session == old(host.session)
        && unchanged(directory.Values - {u}))
    ensures host.providerCalls == old(host.providerCalls)
  {
    var refusal := host.DoLoginAsWritten(id, directory, site.cookies, site.now);
    if refusal.Some? {
      host.AddFlash(LoginFailed(refusal.value));
      return Redirect(LoginPage(None, Some(url)));
    }
    return Thrown(UndefinedFlagConstant);
  }

  /**
   * The end of an accepted callback: truncates the data, picks the
   * identifier and shows the registration page or signs the user in and
   * updates the account from the (untruncated) provider data.
   */
  method Conclude(host: Host, prefix: string, site: Site, providerName: string, kind: ProviderKind,
                  data: UserData, token: string, directory: map<string, User>)
    returns (resp: Response)
    modifies host, directory.Values
    ensures var url := SessionGet(old(host.session), prefix + UrlKey).GetOr(site.homeUrl);
      var tree := SessionGet(old(host.session), prefix + TreeKey);
      var t := Resized(data);
      var id := Identifier(KeyInfo(kind), t);
      var account := if id in directory then Some(old(directory[id].preferences)) else None;
      var c := Concluded(id, t, Resize("Password", token), providerName, tree, url, site, account);
      resp == c.0 && host.flashes == old(host.flashes) + ResizeFlashes(data, token) + c.1
    ensures ConcludedState(host, old(host.session), directory, Identifier(KeyInfo(kind), Resized(data)), kind, data, site)
    ensures host.providerCalls == old(host.providerCalls)
  {
    var tree := SessionGet(host.session, prefix + TreeKey);
    var url := SessionGet(host.session, prefix + UrlKey).GetOr(site.homeUrl);
    var t, password := ResizeAll(host, data, token);
    var keys := KeyInfo(kind);
    var id := if keys.userName == Primary then t.userName else if keys.email == Primary then t.email else "";
    if id == "" {
      host.AddFlash(NoValidUserData);
      return Redirect(LoginPage(tree, Some(url)));
    }
    if id !in directory {
      if !site.registrationOpen {
        return Thrown(NotFound);
      }
      return Register(RegisterForm(t.email, t.realName, t.userName, password, providerName, None));
    }
    resp := SignIn(host, id, url, site, kind, data, directory);
  }

  /** `validate()` of the provider: a non-empty message goes to the flash messages and back to the login page. */
  method ValidateProvider(host: Host, provider: AuthorizationProvider, req: Request) returns (r: Option<Response>)
    modifies host
    ensures var v := Validate(KeyInfo(provider.kind));
      (v.None? ==> r == None && host.flashes == old(host.flashes))
      && (v.Some? ==> r == Some(Redirect(LoginPage(req.tree, Some(req.url))))
                      && host.flashes == old(host.flashes) + [ProviderInvalid(v.value)])
    ensures host.session == old(host.session) && host.authLog == old(host.authLog)
    ensures host.signedIn == old(host.signedIn) && host.providerCalls == old(host.providerCalls)
  {
    var invalid := Validate(KeyInfo(provider.kind));
    if invalid.Some? {
      host.AddFlash(ProviderInvalid(invalid.value));
      return Some(Redirect(LoginPage(req.tree, Some(req.url))));
    }
    return None;
  }

  /** The factory's `make($name, $redirectUri)` over the provider classes: builds the selected provider. */
  method MakeSelected(name: string, redirectUri: string, config: Option<seq<(string, string)>>)
    returns (r: Result<Option<Construction<ProviderKind>>, ConfigError>)
    ensures r.Failure? <==> Selected(name, config).Failure?
    ensures r.Success? ==> (r.value.None? <==> Selected(name, config).value.None?)
    ensures r.Success? && r.value.Some? ==>
      r.value.value.impl == Selected(name, config).value.value
      && r.value.value.firstArgument == redirectUri
      && r.value.value.options == ReadOptions(SrcDeclared, name, config).value
  {
    r := Make(SrcDeclared, true, name, redirectUri, config);
    SrcDiscovery();
  }

  /**
   * `make($name, $redirectUri)` and `validate()`: the provider object, or
   * the response when it cannot be made or its key map is invalid.
   */
  method MakeProvider(host: Host, site: Site, req: Request, name: string) returns (r: Result<AuthorizationProvider, Response>)
    modifies host
    ensures Selected(name, site.config).Failure? ==>
      r == Failure(Thrown(Uncaught.UndefinedOptionNames)) && host.flashes == old(host.flashes)
    ensures Selected(name, site.config) == Success(None) ==>
      r == Failure(Redirect(LoginPage(req.tree, Some(req.url))))
      && host.flashes == old(host.flashes) + [ProviderNotFound(name)]
    ensures Selected(name, site.config).Success? && Selected(name, site.config).value.Some? ==>
      r.Success? && fresh(r.value) && r.value.kind == Selected(name, site.config).value.value
      && host.flashes == old(host.flashes)
    ensures host.session == old(host.session) && host.authLog == old(host.authLog)
    ensures host.signedIn == old(host.signedIn) && host.providerCalls == old(host.providerCalls)
  {
    var made := MakeSelected(name, site.redirectUri, site.config);
    if made.Failure? {
      return Failure(Thrown(Uncaught.UndefinedOptionNames));
    }
    if made.value.None? {
      host.AddFlash(ProviderNotFound(name));
      return Failure(Redirect(LoginPage(req.tree, Some(req.url))));
    }
    var construction := made.value.value;
    var provider := new AuthorizationProvider(construction.impl, construction.firstArgument, construction.options);
    var invalid := ValidateProvider(host, provider, req);
    match invalid
    case Some(refused) =>
      return Failure(refused);
    case None =>
      KeyMapsValidate(provider.kind);
      return Success(provider);
  }

  /**
   * What the grant and its conclusion do for the session `s0` the handler
   * works on, once provider `kind` is made: the first leg stores the new
   * state and redirects to the provider; a wrong state is refused and the
   * stored state forgotten; an accepted callback exchanges the code and
   * reports the provider's failure, or truncates the data and ends as
   * `Concluded` and `ConcludedState` say. Only the conclusion touches the
   * accounts, the log or the signed-in user.
   */
  twostate predicate GrantOutcome(host: Host, s0: map<string, string>, prefix: string, site: Site, req: Request,
                                  name: string, kind: ProviderKind, replies: Replies, directory: map<string, User>,
                                  resp: Response)
    reads host, directory.Values
  {
    var key := prefix + StateKey;
    match CheckState(req.code, req.state, SessionGet(s0, key))
    case FirstLeg =>
      resp == Redirect(To(replies.authorizationUrl)) && host.session == s0[key := replies.newState]
      && host.flashes == old(host.flashes)
      && host.providerCalls == old(host.providerCalls) + [GetAuthorizationUrl, GetState]
      && AccountsKept(host, directory)
    case Rejected =>
      resp == Alert(InvalidState) && host.session == AfterRejection(s0, key)
      && host.flashes == old(host.flashes) && host.providerCalls == old(host.providerCalls)
      && AccountsKept(host, directory)
    case Accepted =>
      host.providerCalls == old(host.providerCalls) + ExchangeCalls(req.code, replies.token)
      && match Exchanged(kind, replies)
        case Failure(e) =>
          resp == Alert(TokenFailure(e)) && host.session == s0 && host.flashes == old(host.flashes)
          && AccountsKept(host, directory)
        case Success(exchanged) =>
          var data := exchanged.0;
          var token := exchanged.1;
          var t := Resized(data);
          var id := Identifier(KeyInfo(kind), t);
          var account := if id in directory then Some(old(directory[id].preferences)) else None;
          var c := Concluded(id, t, Resize("Password", token), name, SessionGet(s0, prefix + TreeKey),
                             SessionGet(s0, prefix + UrlKey).GetOr(site.homeUrl), site, account);
          resp == c.0 && host.flashes == old(host.flashes) + ResizeFlashes(data, token) + c.1
          && ConcludedState(host, s0, directory, id, kind, data, site)
  }

  /**
   * The grant for a made provider of kind `kind`, then `Conclude` on an
   * accepted callback.
   */
  method Callback(host: Host, prefix: string, site: Site, req: Request, name: string, kind: ProviderKind,
                  replies: Replies, directory: map<string, User>)
    returns (resp: Response)
    modifies host, directory.Values
    ensures GrantOutcome(host, old(host.session), prefix, site, req, name, kind, replies, directory, resp)
    ensures host.signedIn != old(host.signedIn) ==> resp.Redirect? && resp.target.To?
  {
    var granted := host.Grant(prefix + StateKey, req.code, req.state, replies.authorizationUrl, replies.newState,
                              replies.token, UserDataOf(kind, replies.owner));
    if granted.Failure? {
      return granted.error;
    }
    resp := Conclude(host, prefix, site, name, kind, granted.value.0, granted.value.1, directory);
  }

  /**
   * `handle($request)` once the provider name is known: an unknown or
   * unconfigured provider sends the user back to the login page; then the
   * grant runs, and an accepted callback ends in `Conclude`.
   */
  method HandleNamed(host: Host, prefix: string, site: Site, req: Request, name: string, replies: Replies,
                     directory: map<string, User>)
    returns (resp: Response)
    modifies host, directory.Values
    ensures Selected(name, site.config).Failure? ==>
      resp == Thrown(Uncaught.UndefinedOptionNames) && host.session == old(host.session)
      && host.flashes == old(host.flashes) && host.providerCalls == old(host.providerCalls)
      && AccountsKept(host, directory)
    ensures Selected(name, site.config) == Success(None) ==>
      resp == Redirect(LoginPage(req.tree, Some(req.url))) && host.session == old(host.session)
      && host.flashes == old(host.flashes) + [ProviderNotFound(name)]
      && host.providerCalls == old(host.providerCalls)
      && AccountsKept(host, directory)
    ensures Selected(name, site.config).Success? && Selected(name, site.config).value.Some? ==>
      GrantOutcome(host, old(host.session), prefix, site, req, name, Selected(name, site.config).value.value,
                   replies, directory, resp)
    ensures host.signedIn != old(host.signedIn) ==> resp.Redirect? && resp.target.To?
  {
    var provider := MakeProvider(host, site, req, name);
    if provider.Failure? {
      return provider.error;
    }
    resp := Callback(host, prefix, site, req, name, provider.value.kind, replies, directory);
  }

  /**
   * `handle($request)`. Without a provider name anywhere `make(null)`
   * throws; an unknown or unconfigured provider sends the user back to the
   * login page; then the grant runs, on the session with the request's
   * values saved, and an accepted callback ends in `Conclude`. Only a
   * successful login signs a user in.
   */
  method Handle(host: Host, site: Site, req: Request, replies: Replies, directory: map<string, User>)
    returns (resp: Response)
    modifies host, directory.Values
    ensures var prefix := ActiveModuleName(site.moduleDirectory);
      var name := RequestedName(old(host.session), prefix, req);
      var saved := SavedSession(old(host.session), prefix, req);
      (name.None? ==>
        resp == Thrown(NullProviderName) && host.session == saved
        && host.flashes == old(host.flashes) && host.providerCalls == old(host.providerCalls)
        && AccountsKept(host, directory))
      && (name.Some? && Selected(name.value, site.config).Failure? ==>
        resp == Thrown(Uncaught.UndefinedOptionNames) && host.session == saved
        && host.flashes == old(host.flashes) && host.providerCalls == old(host.providerCalls)
        && AccountsKept(host, directory))
      && (name.Some? && Selected(name.value, site.config) == Success(None) ==>
        resp == Redirect(LoginPage(req.tree, Some(req.url))) && host.session == saved
        && host.flashes == old(host.flashes) + [ProviderNotFound(name.value)]
        && host.providerCalls == old(host.providerCalls)
        && AccountsKept(host, directory))
    ensures var prefix := ActiveModuleName(site.moduleDirectory);
      var name := RequestedName(old(host.session), prefix, req);
      name.Some? && Selected(name.value, site.config).Success? && Selected(name.value, site.config).value.Some? ==>
        GrantOutcome(host, SavedSession(old(host.session), prefix, req), prefix, site, req, name.value,
                     Selected(name.value, site.config).value.value, replies, directory, resp)
    ensures host.signedIn != old(host.signedIn) ==> resp.Redirect? && resp.target.To?
  {
    var prefix := ActiveModuleName(site.moduleDirectory);
    var name := SaveOrLoadProviderName(host, prefix, req);
    if name.None? {
      return Thrown(NullProviderName);
    }
    resp := HandleNamed(host, prefix, site, req, name.value, replies, directory);
  }
}
