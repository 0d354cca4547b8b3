/**
 * The authorization providers of the current provider tree: WordPress and
 * Google (derived from the base class `AbstractAuthorizationProvider`),
 * Joomla and Generic (derived from `AbstractAuthoriationProvider`). Each
 * provider has a name, a list of required configuration options, a key map
 * ranking the account fields, a constructor that merges options, and a
 * mapping from the resource owner's data to webtrees user data.
 */
module Providers {
  import opened Wrappers
  import opened PhpArrays
  import opened FieldAuthority

  datatype ProviderKind = WordPress | Google | Joomla | Generic

  /** The short class name of each provider (the Joomla and Generic names keep their spelling). */
  function ClassName(kind: ProviderKind): string
  {
    match kind
    case WordPress => "WordPressAuthorizationProvider"
    case Google => "GoogleAuthorizationProvider"
    case Joomla => "JoomlaAuthoriationProvider"
    case Generic => "GenericAuthoriationProvider"
  }

  const ClassSuffix := "AuthorizationProvider"

  /** The base class's `getName()`: the short class name with every "AuthorizationProvider" removed. */
  function InheritedName(className: string): string
  {
    RemoveAll(className, ClassSuffix)
  }

  /** A class name made of a stem without the letter 'A' and the suffix yields the stem. */
  lemma InheritedNameOfStem(stem: string)
    requires forall i | 0 <= i < |stem| :: stem[i] != 'A'
    ensures InheritedName(stem + ClassSuffix) == stem
  {
    forall i | 0 <= i < |stem|
      ensures !(ClassSuffix <= stem[i..] + ClassSuffix + "")
    {
      assert (stem[i..] + ClassSuffix + "")[0] == stem[i];
    }
    RemoveAllMiddle(stem, ClassSuffix, "");
    assert stem + ClassSuffix + "" == stem + ClassSuffix;
  }

  /** A class name whose suffix is shorter than the one removed (a misspelt one) is kept whole. */
  lemma MisspeltNameKept(stem: string, tail: string)
    requires forall i | 0 <= i < |stem| :: stem[i] != 'A'
    requires |tail| < |ClassSuffix|
    ensures InheritedName(stem + tail) == stem + tail
  {
    var s := stem + tail;
    forall i | 0 <= i <= |s|
      ensures !OccursAt(s, ClassSuffix, i)
    {
      if i < |stem| {
        assert s[i] == stem[i];
      }
    }
    RemoveAllNoOccurrence(s, ClassSuffix);
  }

  /** The inherited `getName()` of WordPress and Google. */
  lemma InheritedNames()
    ensures InheritedName(ClassName(WordPress)) == "WordPress"
    ensures InheritedName(ClassName(Google)) == "Google"
  {
    var w, g := "WordPress", "Google";
    assert forall i | 0 <= i < |w| :: w[i] != 'A';
    assert forall i | 0 <= i < |g| :: g[i] != 'A';
    assert ClassName(WordPress) == w + ClassSuffix;
    assert ClassName(Google) == g + ClassSuffix;
    InheritedNameOfStem(w);
    InheritedNameOfStem(g);
  }

  /**
   * `getName()` of each provider, by its value; `GetNameInherited` shows
   * that the WordPress and Google names are the base class's inherited ones.
   */
  function GetName(kind: ProviderKind): string
  {
    match kind
    case WordPress => "WordPress"
    case Google => "Google"
    case Joomla => "Joomla"
    case Generic => "Generic"
  }

  /**
   * WordPress and Google inherit `getName()`, which strips the suffix from
   * their class names; Joomla and Generic override it, and the inherited
   * one would not give their names, whose classes misspell the suffix.
   */
  lemma GetNameInherited(kind: ProviderKind)
    ensures kind == WordPress || kind == Google ==> GetName(kind) == InheritedName(ClassName(kind))
    ensures kind == Joomla || kind == Generic ==> GetName(kind) != InheritedName(ClassName(kind))
  {
    InheritedNames();
    MisspeltNames();
  }

  /** The inherited `getName()` would keep the Joomla and Generic class names whole. */
  lemma MisspeltNames()
    ensures InheritedName(ClassName(Joomla)) == ClassName(Joomla)
    ensures InheritedName(ClassName(Generic)) == ClassName(Generic)
  {
    var j, g := "Joomla", "Generic";
    assert forall i | 0 <= i < |j| :: j[i] != 'A';
    assert forall i | 0 <= i < |g| :: g[i] != 'A';
    assert ClassName(Joomla) == j + "AuthoriationProvider";
    assert ClassName(Generic) == g + "AuthoriationProvider";
    MisspeltNameKept(j, "AuthoriationProvider");
    MisspeltNameKept(g, "AuthoriationProvider");
  }

  /** Different providers have different names, so a name selects one provider. */
  lemma NamesDistinct(k1: ProviderKind, k2: ProviderKind)
    ensures GetName(k1) == GetName(k2) <==> k1 == k2
  {
  }

  /**
   * `getRequiredOptions()` (WordPress, Google) and `getOptionNames()`
   * (Joomla, Generic): the configuration options a provider needs.
   */
  function RequiredOptions(kind: ProviderKind): seq<string>
  {
    match kind
    case WordPress => ["clientId", "clientSecret", "urlAuthorize", "urlAccessToken", "urlResourceOwnerDetails", "signInButtonLabel"]
    case Google => ["clientId", "clientSecret"]
    case Joomla => ["clientId", "clientSecret", "urlAuthorize"]
    case Generic => ["clientId", "clientSecret", "urlAuthorize", "urlAccessToken", "urlResourceOwnerDetails"]
  }

  /**
   * Every provider needs its client id and secret first; WordPress needs
   * Generic's five options and its button label, Joomla only the first
   * three of them, because it derives the other two URLs.
   */
  lemma RequiredOptionsShape(kind: ProviderKind)
    ensures RequiredOptions(kind)[..2] == ["clientId", "clientSecret"]
    ensures RequiredOptions(WordPress) == RequiredOptions(Generic) + ["signInButtonLabel"]
    ensures RequiredOptions(Joomla) == RequiredOptions(Generic)[..3]
    ensures "urlAuthorize" in RequiredOptions(kind) <==> kind != Google
  {
  }

  /** `getUserKeyInformation()` of each provider. */
  function KeyInfo(kind: ProviderKind): KeyInformation
  {
    match kind
    case WordPress => KeyInformation(Primary, Optional, Mandatory)
    case Google => KeyInformation(Optional, Optional, Primary)
    case Joomla => KeyInformation(Primary, Optional, Mandatory)
    case Generic => KeyInformation(Mandatory, Optional, Primary)
  }

  /** Every provider's key map passes `validate`, and names the field used to identify the user. */
  lemma KeyMapsValidate(kind: ProviderKind)
    ensures Validate(KeyInfo(kind)) == None
    ensures KeyInfo(kind).userName == Primary <==> kind == WordPress || kind == Joomla
    ensures KeyInfo(kind).email == Primary <==> kind == Google || kind == Generic
  {
    assert FieldsAt(KeyInfo(kind), Primary) == if kind == WordPress || kind == Joomla then {UserName} else {Email};
  }

  /** The default key map of the base class passes `validate`, with the email as the identifier. */
  lemma DefaultKeyMapValidates()
    ensures Validate(DefaultKeyInformation) == None
    ensures FieldsAt(DefaultKeyInformation, Primary) == {Email}
  {
    assert FieldsAt(DefaultKeyInformation, Primary) == {Email};
  }

  /** Google marks no field mandatory, so updating a Google user changes nothing. */
  lemma GoogleUpdateChangesNothing(u: UserData, p: UserData)
    ensures UpdatedUserData(KeyInfo(Google), u, p) == u
  {
    UpdateSyncsExactlyMandatory(KeyInfo(Google), u, p);
    var r := UpdatedUserData(KeyInfo(Google), u, p);
    assert r.Get(UserName) == u.Get(UserName) && r.Get(RealName) == u.Get(RealName) && r.Get(Email) == u.Get(Email);
  }

  /** WordPress and Joomla mark only the email mandatory: it is the only field an update may overwrite. */
  lemma EmailOnlyUpdate(kind: ProviderKind, u: UserData, p: UserData)
    requires kind == WordPress || kind == Joomla
    ensures UpdatedUserData(KeyInfo(kind), u, p) == u.(email := p.email)
  {
    UpdateSyncsExactlyMandatory(KeyInfo(kind), u, p);
    var r := UpdatedUserData(KeyInfo(kind), u, p);
    assert r.Get(UserName) == u.Get(UserName) && r.Get(RealName) == u.Get(RealName) && r.Get(Email) == p.Get(Email);
  }

  /** Generic marks only the user name mandatory: it is the only field an update may overwrite. */
  lemma UserNameOnlyUpdate(u: UserData, p: UserData)
    ensures UpdatedUserData(KeyInfo(Generic), u, p) == u.(userName := p.userName)
  {
    UpdateSyncsExactlyMandatory(KeyInfo(Generic), u, p);
    var r := UpdatedUserData(KeyInfo(Generic), u, p);
    assert r.Get(UserName) == p.Get(UserName) && r.Get(RealName) == u.Get(RealName) && r.Get(Email) == u.Get(Email);
  }

  /**
   * What the OAuth2 library reports about the resource owner: its
   * `toArray()` data, the `getName()` and `getEmail()` getters of the
   * Google SDK (None for null), whether `getId()` succeeds, and the `id`
   * entry of `toArray()` when it is a PHP int (None when the entry is
   * missing, null, or of another type such as a string).
   */
  datatype ResourceOwner = ResourceOwner(data: map<string, string>, name: Option<string>, email: Option<string>, idReadable: bool,
                                         intId: Option<int>)

  /** An `IdentityProviderException`: a failure reported by the library, or invalid user data. */
  datatype IdentityProviderException = Reported(message: string) | InvalidUserData(userData: map<string, string>)

  /**
   * The base classes' `getUserData` mapping (also Joomla's):
   * username ?? '', name ?? username ?? '', email ?? ''.
   */
  function DefaultUserData(data: map<string, string>): (r: UserData)
    ensures r.userName == (if "username" in data then data["username"] else "")
    ensures "name" in data ==> r.realName == data["name"]
    ensures "name" !in data ==> r.realName == r.userName
    ensures r.email == (if "email" in data then data["email"] else "")
  {
    UserData(
      Lookup(data, "username").GetOr(""),
      Lookup(data, "name").GetOr(Lookup(data, "username").GetOr("")),
      Lookup(data, "email").GetOr(""))
  }

  /** The real name WordPress builds from the first, last and display names. */
  function WordPressRealName(first: string, last: string, display: string): string
  {
    if first != "" && last != "" then first + " " + last
    else if first != "" then first
    else if last != "" then last
    else display
  }

  /**
   * The statements of WordPress's `getUserData` that build the real name:
   * the first name, a space only when both parts are non-empty, the last
   * name, and the display name when the result is still empty.
   */
  method BuildWordPressRealName(first: string, last: string, display: string) returns (realName: string)
    ensures first != "" && last != "" ==> realName == first + " " + last
    ensures (first == "") != (last == "") ==> realName == first + last
    ensures first == "" && last == "" ==> realName == display
    ensures realName == WordPressRealName(first, last, display)
  {
    realName := first;
    if |first| > 0 && |last| > 0 {
      realName := realName + " ";
    }
    realName := realName + last;
    if realName == "" {
      realName := display;
    }
  }

  /** WordPress's `getUserData`: username ?? email ?? '', the built real name, email ?? ''. */
  function WordPressUserData(data: map<string, string>): (r: UserData)
    ensures "username" in data ==> r.userName == data["username"]
    ensures "username" !in data ==> r.userName == r.email
    ensures r.email == (if "email" in data then data["email"] else "")
    ensures r.realName == WordPressRealName(
      Lookup(data, "first_name").GetOr(""), Lookup(data, "last_name").GetOr(""), Lookup(data, "display_name").GetOr(""))
  {
    var firstName := Lookup(data, "first_name").GetOr("");
    var lastName := Lookup(data, "last_name").GetOr("");
    var displayName := Lookup(data, "display_name").GetOr("");
    UserData(
      Lookup(data, "username").GetOr(Lookup(data, "email").GetOr("")),
      WordPressRealName(firstName, lastName, displayName),
      Lookup(data, "email").GetOr(""))
  }

  /**
   * Google's `getUserData`: no user name, the SDK's name and email, and an
   * `IdentityProviderException` carrying the data when the id cannot be read.
   */
  function GoogleUserData(owner: ResourceOwner): (r: Result<UserData, IdentityProviderException>)
    ensures r.Failure? <==> !owner.idReadable
    ensures r.Failure? ==> r.error == InvalidUserData(owner.data)
    ensures r.Success? ==> r.value.userName == ""
    ensures r.Success? ==> r.value.realName == (if owner.name.Some? then owner.name.value else "")
    ensures r.Success? ==> r.value.email == (if owner.email.Some? then owner.email.value else "")
  {
    if !owner.idReadable then Failure(InvalidUserData(owner.data))
    else Success(UserData("", owner.name.GetOr(""), owner.email.GetOr("")))
  }

  /** Generic's `getUserData`: username ?? email ?? '', name ?? '' (no user-name fallback), email ?? ''. */
  function GenericUserData(data: map<string, string>): (r: UserData)
    ensures "username" in data ==> r.userName == data["username"]
    ensures "username" !in data ==> r.userName == r.email
    ensures r.realName == (if "name" in data then data["name"] else "")
    ensures r.email == (if "email" in data then data["email"] else "")
  {
    UserData(
      Lookup(data, "username").GetOr(Lookup(data, "email").GetOr("")),
      Lookup(data, "name").GetOr(""),
      Lookup(data, "email").GetOr(""))
  }

  /** `getUserData` of the provider of kind `kind`; only Google can fail. */
  function GetUserData(kind: ProviderKind, owner: ResourceOwner): (r: Result<UserData, IdentityProviderException>)
    ensures r.Failure? <==> kind == Google && !owner.idReadable
  {
    match kind
    case WordPress => Success(WordPressUserData(owner.data))
    case Google => GoogleUserData(owner)
    case Joomla => Success(DefaultUserData(owner.data))
    case Generic => Success(GenericUserData(owner.data))
  }

  /** An empty name from the provider is kept: `??` falls back only on a missing key. */
  lemma EmptyNameIsKept(data: map<string, string>)
    requires "name" in data && data["name"] == ""
    requires "username" in data && data["username"] != ""
    ensures DefaultUserData(data).realName == "" != DefaultUserData(data).userName
  {
  }

  /** The options each constructor sets itself, whatever was configured. */
  function Overridden(kind: ProviderKind): set<string>
  {
    match kind
    case WordPress => {"redirectUri", "Scopes"}
    case Google => {"redirectUri"}
    case Joomla => {"redirectUri", "urlAccessToken", "urlResourceOwnerDetails"}
    case Generic => {"redirectUri"}
  }

  /** The second argument of the constructor's `array_merge`. */
  function OverrideMap(kind: ProviderKind, redirectUri: string, options: map<string, string>): map<string, string>
  {
    match kind
    case WordPress => map["redirectUri" := redirectUri, "Scopes" := "openid profile email"]
    case Google => map["redirectUri" := redirectUri]
    case Joomla =>
      var authorize := Lookup(options, "urlAuthorize").GetOr("");
      map["redirectUri" := redirectUri, "urlAccessToken" := authorize, "urlResourceOwnerDetails" := authorize]
    case Generic => map["redirectUri" := redirectUri]
  }

  /**
   * The options the constructor passes to the library provider, or None
   * when WordPress or Google return early on an empty redirect URI and no
   * options (no library provider is built then). `array_merge` lets the
   * constructor's own values win over configured ones.
   */
  function ConstructorOptions(kind: ProviderKind, redirectUri: string, options: map<string, string>): (r: Option<map<string, string>>)
    ensures r.None? <==> (kind == WordPress || kind == Google) && redirectUri == "" && options == map[]
    ensures r.Some? ==> r.value.Keys == options.Keys + Overridden(kind)
    ensures r.Some? ==> r.value["redirectUri"] == redirectUri
    ensures r.Some? ==> forall k | k in options && k !in Overridden(kind) :: r.value[k] == options[k]
    ensures r.Some? && kind == WordPress ==> r.value["Scopes"] == "openid profile email"
    ensures r.Some? && kind == Joomla ==>
      r.value["urlAccessToken"] == r.value["urlResourceOwnerDetails"]
        == (if "urlAuthorize" in options then options["urlAuthorize"] else "")
  {
    if (kind == WordPress || kind == Google) && redirectUri == "" && options == map[] then None
    else Some(options + OverrideMap(kind, redirectUri, options))
  }

  /** The label a new provider starts with: WordPress takes the `signInButtonLabel` option when it is set. */
  function InitialLabel(kind: ProviderKind, libraryOptions: Option<map<string, string>>): Option<string>
  {
    if kind == WordPress && libraryOptions.Some? && "signInButtonLabel" in libraryOptions.value
    then Some(libraryOptions.value["signInButtonLabel"]) else None
  }

  /** An error the WordPress constructor as written raises: a call of a method no class defines. */
  datatype ConstructorError = UndefinedMethod(name: string)

  /**
   * The WordPress constructor as written: with a `signInButtonLabel`
   * option it calls `setSignInButtonLabel`, which neither the class nor its
   * base defines (the base has `setLoginButtonLabel`).
   */
  function WordPressConstructorAsWritten(redirectUri: string, options: map<string, string>)
    : Result<Option<map<string, string>>, ConstructorError>
  {
    var merged := ConstructorOptions(WordPress, redirectUri, options);
    if merged.Some? && "signInButtonLabel" in merged.value then Failure(UndefinedMethod("setSignInButtonLabel"))
    else Success(merged)
  }

  /**
   * The label is one of WordPress's required options, so a complete
   * WordPress configuration always reaches the undefined method.
   */
  lemma WordPressAsWrittenFails(redirectUri: string, options: map<string, string>)
    requires options.Keys == set n | n in RequiredOptions(WordPress)
    ensures WordPressConstructorAsWritten(redirectUri, options) == Failure(UndefinedMethod("setSignInButtonLabel"))
  {
    assert "signInButtonLabel" in RequiredOptions(WordPress);
    assert "signInButtonLabel" in options;
    assert ConstructorOptions(WordPress, redirectUri, options).Some?;
  }

  /**
   * With the label set through `setLoginButtonLabel`, a WordPress provider
   * built from a complete configuration shows the configured label.
   */
  lemma WordPressLabelConfigured(redirectUri: string, options: map<string, string>)
    requires options.Keys == set n | n in RequiredOptions(WordPress)
    ensures "signInButtonLabel" in options
    ensures InitialLabel(WordPress, ConstructorOptions(WordPress, redirectUri, options)) == Some(options["signInButtonLabel"])
  {
    assert "signInButtonLabel" in RequiredOptions(WordPress);
  }

  /** A provider object: its class, the options of its library provider (None when none was built) and its login button label. */
  class AuthorizationProvider {
    const kind: ProviderKind
    const libraryOptions: Option<map<string, string>>
    var loginButtonLabel: Option<string>

    /**
     * `new <Provider>($redirectUri, $options)`. WordPress also takes its
     * label from the `signInButtonLabel` option, through `setLoginButtonLabel`.
     */
    constructor (kind: ProviderKind, redirectUri: string, options: map<string, string>)
      ensures this.kind == kind
      ensures libraryOptions == ConstructorOptions(kind, redirectUri, options)
      ensures loginButtonLabel == InitialLabel(kind, libraryOptions)
    {
      this.kind := kind;
      var merged := ConstructorOptions(kind, redirectUri, options);
      libraryOptions := merged;
      if kind == WordPress && merged.Some? && "signInButtonLabel" in merged.value {
        loginButtonLabel := Some(merged.value["signInButtonLabel"]);
      } else {
        loginButtonLabel := None;
      }
    }

    /** `setLoginButtonLabel($label)`. */
    method SetLoginButtonLabel(text: string)
      modifies this
      ensures loginButtonLabel == Some(text)
      ensures GetLoginButtonLabel() == text
    {
      loginButtonLabel := Some(text);
    }

    /** `getLoginButtonLabel()`: the last label set, else the provider's name. */
    function GetLoginButtonLabel(): (r: string)
      reads this
      ensures loginButtonLabel.Some? ==> r == loginButtonLabel.value
      ensures loginButtonLabel.None? ==> r == GetName(kind)
    {
      loginButtonLabel.GetOr(GetName(kind))
    }
  }
}
