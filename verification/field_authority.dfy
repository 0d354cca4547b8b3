/**
 * Field authority: how an authorization provider ranks the three webtrees
 * account fields it reports, the check that a ranking is usable for login,
 * and the update of a local account from the provider's data.
 */
module FieldAuthority {
  import opened Wrappers

  /** The four obligation levels a provider gives an account field. */
  datatype Level = Primary | Mandatory | Optional | Unused

  /** The webtrees account fields a provider reports. */
  datatype Field = UserName | RealName | Email

  const AllFields: set<Field> := {UserName, RealName, Email}

  /** The key map of `getUserKeyInformation`: one level per account field. */
  datatype KeyInformation = KeyInformation(userName: Level, realName: Level, email: Level) {

    function LevelOf(f: Field): Level {
      match f
      case UserName => userName
      case RealName => realName
      case Email => email
    }

    /** The map in declaration order ('user_name', 'real_name', 'email'), as `foreach` visits it. */
    function Entries(): seq<(Field, Level)> {
      [(UserName, userName), (RealName, realName), (Email, email)]
    }
  }

  /** The key map of the base provider class. */
  const DefaultKeyInformation := KeyInformation(Mandatory, Optional, Primary)

  /** The fields whose level is `level`: an independent view of the key map. */
  function FieldsAt(k: KeyInformation, level: Level): set<Field>
  {
    (if k.userName == level then {UserName} else {})
    + (if k.realName == level then {RealName} else {})
    + (if k.email == level then {Email} else {})
  }

  /** `array_count_values($entries)[$level]`, counted over the entries in order. */
  function CountLevel(entries: seq<(Field, Level)>, level: Level): nat
  {
    if entries == [] then 0
    else (if entries[0].1 == level then 1 else 0) + CountLevel(entries[1..], level)
  }

  /** `in_array($level, $entries)`. */
  predicate HasLevel(entries: seq<(Field, Level)>, level: Level)
  {
    exists j :: 0 <= j < |entries| && entries[j].1 == level
  }

  /** Counting the entries gives the number of levels equal to `level`. */
  lemma CountEntries(k: KeyInformation, level: Level)
    ensures CountLevel(k.Entries(), level)
      == (if k.userName == level then 1 else 0)
       + (if k.realName == level then 1 else 0)
       + (if k.email == level then 1 else 0)
    ensures HasLevel(k.Entries(), level) <==> k.userName == level || k.realName == level || k.email == level
  {
    var e := k.Entries();
    assert e[1..] == [(RealName, k.realName), (Email, k.email)];
    assert e[1..][1..] == [(Email, k.email)];
    assert e[1..][1..][1..] == [];
    assert HasLevel(e, level) <==> e[0].1 == level || e[1].1 == level || e[2].1 == level;
  }

  /** Counting the entries agrees with the size of the set of fields at that level. */
  lemma CountMatchesFields(k: KeyInformation, level: Level)
    ensures CountLevel(k.Entries(), level) == |FieldsAt(k, level)|
    ensures HasLevel(k.Entries(), level) <==> FieldsAt(k, level) != {}
  {
    CountEntries(k, level);
    FieldsAtSize(k, level);
  }

  /** The set of fields at a level has one element per field at that level. */
  lemma FieldsAtSize(k: KeyInformation, level: Level)
    ensures |FieldsAt(k, level)|
      == (if k.userName == level then 1 else 0)
       + (if k.realName == level then 1 else 0)
       + (if k.email == level then 1 else 0)
    ensures FieldsAt(k, level) != {} <==> k.userName == level || k.realName == level || k.email == level
  {
    var u: set<Field> := if k.userName == level then {UserName} else {};
    var r: set<Field> := if k.realName == level then {RealName} else {};
    var m: set<Field> := if k.email == level then {Email} else {};
    assert u !! r && (u + r) !! m;
    assert FieldsAt(k, level) == u + r + m;
    assert k.userName == level ==> UserName in FieldsAt(k, level);
  }

  /** The three distinct messages `validate` can return; None stands for ''. */
  datatype ValidationError = NoPrimaryKey | MoreThanOnePrimaryKey | NeitherUserNameNorEmailPrimary

  /**
   * `validate()`: the key map must hold exactly one primary field, and it
   * must be the user name or the email. The checks run in that order.
   */
  function Validate(k: KeyInformation): (r: Option<ValidationError>)
    ensures r == None <==>
      |FieldsAt(k, Primary)| == 1 && (k.userName == Primary || k.email == Primary)
    ensures r == Some(NoPrimaryKey) <==> FieldsAt(k, Primary) == {}
    ensures r == Some(MoreThanOnePrimaryKey) <==> |FieldsAt(k, Primary)| > 1
    ensures r == Some(NeitherUserNameNorEmailPrimary) <==> FieldsAt(k, Primary) == {RealName}
  {
    CountMatchesFields(k, Primary);
    assert k.realName == Primary ==> RealName in FieldsAt(k, Primary);
    assert k.userName == Primary ==> UserName in FieldsAt(k, Primary);
    assert k.email == Primary ==> Email in FieldsAt(k, Primary);
    if !HasLevel(k.Entries(), Primary) then Some(NoPrimaryKey)
    else if CountLevel(k.Entries(), Primary) > 1 then Some(MoreThanOnePrimaryKey)
    else if k.userName != Primary && k.email != Primary then Some(NeitherUserNameNorEmailPrimary)
    else None
  }

  /** A key map that passes `validate` names exactly one identifier field. */
  lemma ValidNamesOneIdentifier(k: KeyInformation)
    requires Validate(k) == None
    ensures (k.userName == Primary) != (k.email == Primary)
    ensures k.realName != Primary
  {
  }

  /** The user data a provider reports (the webtrees User built by `getUserData`), without its numeric id. */
  datatype UserData = UserData(userName: string, realName: string, email: string) {
    function Get(f: Field): string {
      match f
      case UserName => userName
      case RealName => realName
      case Email => email
    }

    /** This data with field `f` replaced by `value`. */
    function With(f: Field, value: string): UserData {
      match f
      case UserName => this.(userName := value)
      case RealName => this.(realName := value)
      case Email => this.(email := value)
    }
  }

  /** A webtrees preference of a user account, by its role. */
  datatype Pref = EmailVerified | AccountApproved | TimestampActive | Language | Theme | LoginWithOAuth2Provider

  /** A stored preference: '' when the preference is not set. */
  function PreferenceOf(preferences: map<Pref, string>, p: Pref): string
  {
    if p in preferences then preferences[p] else ""
  }

  /** A webtrees user account, as stored by the host application. */
  class User {
    var userName: string
    var realName: string
    var email: string
    var preferences: map<Pref, string>

    constructor (userName: string, realName: string, email: string, preferences: map<Pref, string>)
      ensures this.userName == userName && this.realName == realName && this.email == email
      ensures this.preferences == preferences
    {
      this.userName := userName;
      this.realName := realName;
      this.email := email;
      this.preferences := preferences;
    }

    function Data(): UserData
      reads this
    {
      UserData(userName, realName, email)
    }

    /** `getPreference($name)`: the stored value, '' when none is stored. */
    function GetPreference(p: Pref): string
      reads this
    {
      PreferenceOf(preferences, p)
    }

    method SetPreference(p: Pref, value: string)
      modifies this
      ensures preferences == old(preferences)[p := value]
      ensures Data() == old(Data())
    {
      preferences := preferences[p := value];
    }

    /** One of `setUserName`, `setRealName`, `setEmail`. */
    method Set(f: Field, value: string)
      modifies this
      ensures Data() == old(Data()).With(f, value)
      ensures preferences == old(preferences)
    {
      match f
      case UserName => userName := value;
      case RealName => realName := value;
      case Email => email := value;
    }
  }

  /** One step of the `updateUserData` loop. */
  function ApplyEntry(e: (Field, Level), u: UserData, p: UserData): UserData
  {
    if e.1 == Mandatory && u.Get(e.0) != p.Get(e.0) then u.With(e.0, p.Get(e.0)) else u
  }

  /** Some entry marks field `f` as mandatory. */
  predicate MandatoryIn(entries: seq<(Field, Level)>, f: Field)
  {
    exists j :: 0 <= j < |entries| && entries[j] == (f, Mandatory)
  }

  /** The account data after the `updateUserData` loop has visited `entries` in order. */
  function ApplyEntries(entries: seq<(Field, Level)>, u: UserData, p: UserData): UserData
    decreases |entries|
  {
    if entries == [] then u
    else ApplyEntries(entries[1..], ApplyEntry(entries[0], u, p), p)
  }

  /**
   * Whatever the order of the entries, a field marked mandatory by some
   * entry ends with the provider's value and every other field keeps the
   * account's.
   */
  lemma {:induction false} ApplyEntriesSyncsMandatory(entries: seq<(Field, Level)>, u: UserData, p: UserData, f: Field)
    ensures ApplyEntries(entries, u, p).Get(f) == (if MandatoryIn(entries, f) then p.Get(f) else u.Get(f))
    decreases |entries|
  {
    if entries != [] {
      var u' := ApplyEntry(entries[0], u, p);
      ApplyEntriesSyncsMandatory(entries[1..], u', p, f);
      if MandatoryIn(entries, f) && entries[0] != (f, Mandatory) {
        var j :| 0 <= j < |entries| && entries[j] == (f, Mandatory);
        assert entries[1..][j - 1] == entries[j];
      }
      if MandatoryIn(entries[1..], f) {
        var j :| 0 <= j < |entries[1..]| && entries[1..][j] == (f, Mandatory);
        assert entries[j + 1] == (f, Mandatory);
      }
      if entries[0] == (f, Mandatory) {
        assert entries[0] == (f, Mandatory);
      }
      assert entries[0].0 != f ==> u'.Get(f) == u.Get(f);
    }
  }

  /** The setters the loop calls, in order: one per mandatory field whose value differs at that point. */
  function Setters(entries: seq<(Field, Level)>, u: UserData, p: UserData): seq<Field>
    decreases |entries|
  {
    if entries == [] then []
    else
      (if entries[0].1 == Mandatory && u.Get(entries[0].0) != p.Get(entries[0].0) then [entries[0].0] else [])
      + Setters(entries[1..], ApplyEntry(entries[0], u, p), p)
  }

  /** The account data after `updateUserData($user, $fromProvider)` with key map `k`. */
  function UpdatedUserData(k: KeyInformation, u: UserData, p: UserData): UserData
  {
    ApplyEntries(k.Entries(), u, p)
  }

  lemma MandatoryInEntries(k: KeyInformation, f: Field)
    ensures MandatoryIn(k.Entries(), f) <==> k.LevelOf(f) == Mandatory
  {
    var j := match f case UserName => 0 case RealName => 1 case Email => 2;
    assert k.Entries()[j] == (f, k.LevelOf(f));
  }

  /**
   * After `updateUserData`, every mandatory field equals the provider's
   * value and every primary, optional or unused field is untouched.
   */
  lemma UpdateSyncsExactlyMandatory(k: KeyInformation, u: UserData, p: UserData)
    ensures forall f :: k.LevelOf(f) == Mandatory ==> UpdatedUserData(k, u, p).Get(f) == p.Get(f)
    ensures forall f :: k.LevelOf(f) != Mandatory ==> UpdatedUserData(k, u, p).Get(f) == u.Get(f)
  {
    forall f ensures UpdatedUserData(k, u, p).Get(f) == (if k.LevelOf(f) == Mandatory then p.Get(f) else u.Get(f)) {
      MandatoryInEntries(k, f);
      ApplyEntriesSyncsMandatory(k.Entries(), u, p, f);
    }
  }

  /** Applying the update twice with the same provider data is the same as once. */
  lemma UpdateIdempotent(k: KeyInformation, u: UserData, p: UserData)
    ensures UpdatedUserData(k, UpdatedUserData(k, u, p), p) == UpdatedUserData(k, u, p)
  {
    var once := UpdatedUserData(k, u, p);
    var twice := UpdatedUserData(k, once, p);
    UpdateSyncsExactlyMandatory(k, u, p);
    UpdateSyncsExactlyMandatory(k, once, p);
    assert twice.Get(UserName) == once.Get(UserName);
    assert twice.Get(RealName) == once.Get(RealName);
    assert twice.Get(Email) == once.Get(Email);
  }

  /** The loop calls no setter exactly when no mandatory field differs from the provider's value. */
  lemma NoSetterOfEntries(k: KeyInformation, u: UserData, p: UserData)
    ensures Setters(k.Entries(), u, p) == [] <==>
      (k.userName == Mandatory ==> u.userName == p.userName)
      && (k.realName == Mandatory ==> u.realName == p.realName)
      && (k.email == Mandatory ==> u.email == p.email)
  {
    var e := k.Entries();
    var u1 := ApplyEntry(e[0], u, p);
    var u2 := ApplyEntry(e[1], u1, p);
    assert e[1..] == [e[1], e[2]] && e[1..][1..] == [e[2]] && e[1..][1..][1..] == [];
    assert u1.realName == u.realName && u1.email == u.email;
    assert u2.email == u.email;
  }

  /** No setter is called exactly when the account already agrees with the provider on its mandatory fields. */
  lemma NoSetterWhenSynced(k: KeyInformation, u: UserData, p: UserData)
    ensures Setters(k.Entries(), u, p) == [] <==> UpdatedUserData(k, u, p) == u
    ensures Setters(k.Entries(), u, p) == [] <==> forall f :: k.LevelOf(f) == Mandatory ==> u.Get(f) == p.Get(f)
  {
    NoSetterOfEntries(k, u, p);
    UpdateSyncsExactlyMandatory(k, u, p);
    var r := UpdatedUserData(k, u, p);
    assert r.userName == r.Get(UserName) && r.realName == r.Get(RealName) && r.email == r.Get(Email);
    assert k.userName == k.LevelOf(UserName) && k.realName == k.LevelOf(RealName) && k.email == k.LevelOf(Email);
  }

  /** The body of the `updateUserData` loop for one key map entry. */
  method UpdateField(entry: (Field, Level), user: User, fromProvider: UserData) returns (called: seq<Field>)
    modifies user
    ensures user.Data() == ApplyEntry(entry, old(user.Data()), fromProvider)
    ensures called == Setters([entry], old(user.Data()), fromProvider)
    ensures user.preferences == old(user.preferences)
  {
    var (key, level) := entry;
    called := [];
    if level == Mandatory {
      if key == UserName && user.userName != fromProvider.userName {
        user.Set(UserName, fromProvider.userName);
        called := [UserName];
      }
      if key == Email && user.email != fromProvider.email {
        user.Set(Email, fromProvider.email);
        called := [Email];
      }
      if key == RealName && user.realName != fromProvider.realName {
        user.Set(RealName, fromProvider.realName);
        called := [RealName];
      }
    }
  }

  /** One step of the `foreach`: the entry at `i` is applied, then the entries after it. */
  lemma EntriesStep(entries: seq<(Field, Level)>, i: nat, u: UserData, p: UserData)
    requires i < |entries|
    ensures ApplyEntries(entries[i..], u, p) == ApplyEntries(entries[i + 1..], ApplyEntry(entries[i], u, p), p)
    ensures Setters(entries[i..], u, p) == Setters([entries[i]], u, p) + Setters(entries[i + 1..], ApplyEntry(entries[i], u, p), p)
  {
    assert entries[i..][0] == entries[i] && entries[i..][1..] == entries[i + 1..];
    assert [entries[i]][1..] == [];
  }

  /**
   * The `foreach` of `updateUserData` over a key map's entries: calls a
   * setter for each mandatory field whose value differs from the provider's.
   */
  method UpdateFromEntries(entries: seq<(Field, Level)>, user: User, fromProvider: UserData) returns (setters: seq<Field>)
    modifies user
    ensures user.Data() == ApplyEntries(entries, old(user.Data()), fromProvider)
    ensures setters == Setters(entries, old(user.Data()), fromProvider)
    ensures user.preferences == old(user.preferences)
  {
    setters := [];
    var i := 0;
    assert entries[0..] == entries;
    while i < |entries|
      invariant 0 <= i <= |entries|
      invariant ApplyEntries(entries[i..], user.Data(), fromProvider)
        == ApplyEntries(entries, old(user.Data()), fromProvider)
      invariant setters + Setters(entries[i..], user.Data(), fromProvider)
        == Setters(entries, old(user.Data()), fromProvider)
      invariant user.preferences == old(user.preferences)
    {
      EntriesStep(entries, i, user.Data(), fromProvider);
      var called := UpdateField(entries[i], user, fromProvider);
      ghost var rest := Setters(entries[i + 1..], user.Data(), fromProvider);
      assert (setters + called) + rest == setters + (called + rest);
      setters := setters + called;
      i := i + 1;
    }
    assert entries[i..] == [];
  }

  /** `updateUserData($user, $fromProvider)` for a provider whose key map is `k`. */
  method UpdateUserData(k: KeyInformation, user: User, fromProvider: UserData) returns (setters: seq<Field>)
    modifies user
    ensures user.Data() == UpdatedUserData(k, old(user.Data()), fromProvider)
    ensures setters == Setters(k.Entries(), old(user.Data()), fromProvider)
    ensures user.preferences == old(user.preferences)
  {
    setters := UpdateFromEntries(k.Entries(), user, fromProvider);
  }
}
