/**
 * The module class `OAuth2Client`: its name and version bookkeeping, and
 * its own request handler, which runs the authorization-code grant against
 * one fixed generic provider and shows the user data it receives.
 */
module OAuth2Client {
  import opened Wrappers
  import opened PhpArrays
  import opened OAuth2Flow
  import Providers

  /** `CUSTOM_VERSION`. */
  const CustomVersion := "0.0.1"

  /**
   * `activeModuleName()`: the module's directory name between underscores;
   * it prefixes the handlers' session keys.
   */
  function ActiveModuleName(directory: string): (r: string)
    ensures |r| == |directory| + 2
    ensures r[0] == '_' && r[|r| - 1] == '_'
    ensures r[1..|r| - 1] == directory
  {
    "_" + directory + "_"
  }

  /**
   * Session keys made from the module name and different suffixes differ,
   * and none of them is a key webtrees sets without the prefix.
   */
  lemma {:induction false} PrefixedKeysDistinct(directory: string, a: string, b: string)
    ensures a != b ==> ActiveModuleName(directory) + a != ActiveModuleName(directory) + b
    ensures ActiveModuleName(directory) + a != "language"
    ensures ActiveModuleName(directory) + a != "theme"
  {
    var p := ActiveModuleName(directory);
    if a != b {
      assert (p + a)[|p|..] == a;
      assert (p + b)[|p|..] == b;
    }
    assert (p + a)[0] == '_';
  }

  /** The stored preferences of the module that its version check reads and writes. */
  class ModuleSettings {
    /** The module-version preference; None when it was never set. */
    var moduleVersion: Option<string>

    constructor (moduleVersion: Option<string>)
      ensures this.moduleVersion == moduleVersion
    {
      this.moduleVersion := moduleVersion;
    }

    /**
     * `checkModuleVersionUpdate()`: stores CUSTOM_VERSION and adds a flash
     * message only when the stored version differed, so a second call
     * changes nothing.
     */
    method CheckModuleVersionUpdate(host: Host)
      modifies this, host
      ensures moduleVersion == (if old(moduleVersion.GetOr("")) != CustomVersion then Some(CustomVersion) else old(moduleVersion))
      ensures moduleVersion.GetOr("") == CustomVersion
      ensures host.flashes == old(host.flashes) + (if old(moduleVersion.GetOr("")) != CustomVersion then [ModuleUpdated(CustomVersion)] else [])
      ensures host.session == old(host.session) && host.authLog == old(host.authLog)
      ensures host.signedIn == old(host.signedIn) && host.providerCalls == old(host.providerCalls)
    {
      var updated := false;
      if moduleVersion.GetOr("") != CustomVersion {
        moduleVersion := Some(CustomVersion);
        updated := true;
      }
      if updated {
        host.AddFlash(ModuleUpdated(CustomVersion));
      }
    }
  }

  /** What the OAuth2 library answers during one request to the module's handler. */
  datatype ClientReplies = ClientReplies(
    authorizationUrl: string,
    newState: string,
    token: Result<string, Providers.IdentityProviderException>,
    ownerData: Result<map<string, string>, Providers.IdentityProviderException>)

  /** The user data page: id, name, username and email of the resource owner, '' for a missing one. */
  datatype UserDataPage = UserDataPage(id: string, name: string, username: string, email: string)

  datatype ClientResponse =
    | ClientRedirect(url: string)
    /** An alert; `typed` is false for the invalid-state alert, which passes its type under a misspelt key. */
    | ClientAlert(typed: bool, text: ClientAlertText)
    | ShowUserData(page: UserDataPage)

  datatype ClientAlertText = InvalidStateText | ExceptionMessage(exception: Providers.IdentityProviderException)

  /** The user data page for the resource owner's data. */
  function UserDataPageOf(data: map<string, string>): (r: UserDataPage)
    ensures r.id == (if "id" in data then data["id"] else "")
    ensures r.name == (if "name" in data then data["name"] else "")
    ensures r.username == (if "username" in data then data["username"] else "")
    ensures r.email == (if "email" in data then data["email"] else "")
  {
    UserDataPage(Lookup(data, "id").GetOr(""), Lookup(data, "name").GetOr(""),
                 Lookup(data, "username").GetOr(""), Lookup(data, "email").GetOr(""))
  }

  /**
   * `handle()` of the module: the first leg stores the state under the
   * module's name and redirects; a callback with a wrong state is refused
   * and the stored state forgotten; a matching callback keeps the stored
   * state, exchanges the code and shows the user data, or the library's
   * exception message.
   */
  method Handle(host: Host, moduleName: string, code: string, state: string, replies: ClientReplies)
    returns (resp: ClientResponse)
    modifies host
    ensures var key := moduleName + "oauth2state";
      var verdict := CheckState(code, state, SessionGet(old(host.session), key));
      (verdict == FirstLeg ==>
        resp == ClientRedirect(replies.authorizationUrl)
        && host.session == old(host.session)[key := replies.newState]
        && host.providerCalls == old(host.providerCalls) + [GetAuthorizationUrl, GetState])
      && (verdict == Rejected ==>
        resp == ClientAlert(false, InvalidStateText)
        && host.session == AfterRejection(old(host.session), key)
        && host.providerCalls == old(host.providerCalls))
      && (verdict == Accepted ==>
        host.session == old(host.session)
        && host.providerCalls == old(host.providerCalls) + [GetAccessToken(code)]
                                 + (if replies.token.Success? then [GetResourceOwner] else [])
        && resp == (if replies.token.Failure? then ClientAlert(true, ExceptionMessage(replies.token.error))
                    else if replies.ownerData.Failure? then ClientAlert(true, ExceptionMessage(replies.ownerData.error))
                    else ShowUserData(UserDataPageOf(replies.ownerData.value))))
    ensures host.flashes == old(host.flashes) && host.authLog == old(host.authLog) && host.signedIn == old(host.signedIn)
  {
    var key := moduleName + "oauth2state";
    var verdict := host.CheckCallbackState(key, code, state);
    if verdict == FirstLeg {
      host.Call(GetAuthorizationUrl);
      host.Call(GetState);
      host.Put(key, replies.newState);
      return ClientRedirect(replies.authorizationUrl);
    }
    if verdict == Rejected {
      return ClientAlert(false, InvalidStateText);
    }
    host.Call(GetAccessToken(code));
    if replies.token.Failure? {
      return ClientAlert(true, ExceptionMessage(replies.token.error));
    }
    host.Call(GetResourceOwner);
    if replies.ownerData.Failure? {
      return ClientAlert(true, ExceptionMessage(replies.ownerData.error));
    }
    return ShowUserData(UserDataPageOf(replies.ownerData.value));
  }
}
