/**
 * The providers of the earlier provider tree, at the module's root: Joomla
 * and Facebook. Their own base class is not part of this model.
 */
module LegacyProviders {
  import opened Wrappers
  import opened PhpArrays
  import opened FieldAuthority
  import Providers

  datatype LegacyKind = LegacyJoomla | Facebook

  /** `getName()` of each provider. */
  function LegacyName(kind: LegacyKind): string
  {
    match kind
    case LegacyJoomla => "Joomla"
    case Facebook => "Facebook"
  }

  /**
   * The option list of the current tree's misspelt base class
   * `AbstractAuthoriationProvider`, for comparison with the earlier lists.
   */
  const BaseOptionNames: seq<string> := ["clientId", "clientSecret", "redirectUri"]

  /** `getOptionNames()` of each provider. */
  function LegacyOptionNames(kind: LegacyKind): seq<string>
  {
    match kind
    case LegacyJoomla => ["clientId", "clientSecret", "urlAuthorize"]
    case Facebook => ["clientId", "clientSecret", "redirectUri", "graphApiVersion"]
  }

  /**
   * Joomla computes its redirect URI itself; Facebook configures it and
   * takes the current tree's base list plus the Graph API version.
   */
  lemma OptionNamesAgainstBase(kind: LegacyKind)
    ensures "redirectUri" in LegacyOptionNames(kind) <==> kind == Facebook
    ensures kind == Facebook ==> LegacyOptionNames(kind) == BaseOptionNames + ["graphApiVersion"]
  {
  }

  /**
   * Joomla's `getUserData` with the id cast to int, as every other provider
   * does: each of username, name and email is the raw value or ''. The
   * cast id is not used by the handler, so it is not part of the result.
   */
  function LegacyJoomlaUserData(data: map<string, string>): (r: UserData)
    ensures r.userName == (if "username" in data then data["username"] else "")
    ensures r.realName == (if "name" in data then data["name"] else "")
    ensures r.email == (if "email" in data then data["email"] else "")
  {
    UserData(Lookup(data, "username").GetOr(""), Lookup(data, "name").GetOr(""), Lookup(data, "email").GetOr(""))
  }

  /**
   * Joomla's `getUserData` as written: the raw `id` entry, or '', goes to
   * the `int` parameter of webtrees' `User` constructor, and under strict
   * types anything but an int raises a TypeError there. None stands for
   * that TypeError.
   */
  function LegacyJoomlaUserDataAsWritten(owner: Providers.ResourceOwner): (r: Option<UserData>)
    ensures r.None? <==> owner.intId.None?
    ensures r.Some? ==> r.value == LegacyJoomlaUserData(owner.data)
  {
    if owner.intId.None? then None else Some(LegacyJoomlaUserData(owner.data))
  }

  /** Unlike the current Joomla mapping, the earlier one has no user-name fallback for a missing name. */
  lemma LegacyJoomlaNoNameFallback(data: map<string, string>)
    requires "name" !in data && "username" in data && data["username"] != ""
    ensures LegacyJoomlaUserData(data).realName == ""
    ensures Providers.DefaultUserData(data).realName == data["username"]
    ensures LegacyJoomlaUserData(data) != Providers.DefaultUserData(data)
  {
  }

  /** The real name Facebook reports when the SDK has no name. */
  const NamePlaceholder := "name not received from authoriuation provider"

  /**
   * Facebook's `getUserData` from the SDK's `getName()` and `getEmail()`:
   * the email is used as the user name too.
   */
  function FacebookUserData(name: Option<string>, email: Option<string>): (r: UserData)
    ensures r.userName == r.email
    ensures r.email == (if email.Some? then email.value else "")
    ensures r.realName == (if name.Some? then name.value else NamePlaceholder)
  {
    var mail := email.GetOr("");
    UserData(mail, name.GetOr(NamePlaceholder), mail)
  }

  /**
   * The user data of the provider of kind `kind`, from the resource owner
   * the library reports, with Joomla's id cast as intended.
   */
  function LegacyUserData(kind: LegacyKind, owner: Providers.ResourceOwner): (r: UserData)
    ensures kind == LegacyJoomla ==> r == LegacyJoomlaUserData(owner.data)
    ensures kind == Facebook ==> r.userName == r.email
  {
    match kind
    case LegacyJoomla => LegacyJoomlaUserData(owner.data)
    case Facebook => FacebookUserData(owner.name, owner.email)
  }

  /**
   * The earlier Joomla constructor's options: the redirect URI derived from
   * the base URL (`redirectUri`, computed outside this model) and the access
   * token and resource owner URLs copied from the authorize URL, over the
   * configured ones.
   */
  function LegacyJoomlaOptions(redirectUri: string, options: map<string, string>): (r: map<string, string>)
    ensures r.Keys == options.Keys + {"redirectUri", "urlAccessToken", "urlResourceOwnerDetails"}
    ensures r["redirectUri"] == redirectUri
    ensures r["urlAccessToken"] == r["urlResourceOwnerDetails"]
      == (if "urlAuthorize" in options then options["urlAuthorize"] else "")
    ensures forall k | k in options && k !in {"redirectUri", "urlAccessToken", "urlResourceOwnerDetails"} :: r[k] == options[k]
  {
    var authorize := Lookup(options, "urlAuthorize").GetOr("");
    options + map["redirectUri" := redirectUri, "urlAccessToken" := authorize, "urlResourceOwnerDetails" := authorize]
  }

  /** The earlier Joomla builds the same library options as the current one, given the same redirect URI. */
  lemma LegacyJoomlaOptionsAsCurrent(redirectUri: string, options: map<string, string>)
    ensures Providers.ConstructorOptions(Providers.Joomla, redirectUri, options) == Some(LegacyJoomlaOptions(redirectUri, options))
  {
  }
}
