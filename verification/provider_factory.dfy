/**
 * The authorization provider factory: discovery of the provider classes,
 * resolution of a provider's options from the webtrees configuration file,
 * and `make`. The current factory and the earlier one differ only in that
 * the current one skips `AbstractAuthorizationProvider` during discovery and
 * asks each class for `getRequiredOptions()` instead of `getOptionNames()`.
 *
 * Runtime reflection is replaced by an explicit list of declared classes,
 * each recording what reflection would report about it; `impl` says which
 * implementation a class is, and is what `make` instantiates.
 */
module ProviderFactory {
  import opened Wrappers
  import opened PhpArrays

  /** A class PHP has declared, as the factory sees it. */
  datatype DeclaredClass<K> = DeclaredClass(
    shortName: string,            // class name without the provider namespace
    inProviderNamespace: bool,    // the full class name contains the provider namespace
    implementsInterface: bool,    // it implements `AuthorizationProviderInterface`
    providerName: string,         // its static `getName()`
    optionNames: seq<string>,     // its static option list
    impl: K)

  const AbstractClassName := "AbstractAuthorizationProvider"

  /** Whether discovery lists class `c`. */
  predicate Listed<K>(c: DeclaredClass<K>, excludeAbstract: bool)
  {
    c.inProviderNamespace && c.implementsInterface && !(excludeAbstract && c.shortName == AbstractClassName)
  }

  /** No two entries share a short name (the keys of a PHP array). */
  predicate DistinctShortNames<K>(found: seq<DeclaredClass<K>>)
  {
    forall i, j | 0 <= i < j < |found| :: found[i].shortName != found[j].shortName
  }

  /**
   * `$provider_names[$class_name] = ...`: an existing key keeps its position
   * and takes the new entry, a new key is appended.
   */
  function Put<K>(found: seq<DeclaredClass<K>>, c: DeclaredClass<K>): (r: seq<DeclaredClass<K>>)
    ensures c in r
    ensures (forall d | d in found :: d.shortName != c.shortName) ==> r == found + [c]
  {
    if found == [] then [c]
    else if found[0].shortName == c.shortName then [c] + found[1..]
    else [found[0]] + Put(found[1..], c)
  }

  /** `Put` adds only `c`, and drops only an entry with `c`'s name. */
  lemma {:induction false} PutKeeps<K>(found: seq<DeclaredClass<K>>, c: DeclaredClass<K>)
    ensures forall d | d in Put(found, c) :: d == c || d in found
    ensures forall d | d in found :: d.shortName == c.shortName || d in Put(found, c)
  {
    if found != [] && found[0].shortName != c.shortName {
      PutKeeps(found[1..], c);
      assert Put(found, c) == [found[0]] + Put(found[1..], c);
      assert forall d | d in found :: d == found[0] || d in found[1..];
    } else if found != [] {
      assert forall d | d in found :: d == found[0] || d in found[1..];
    }
  }

  /**
   * `Put` keeps every entry's short name at its position, and grows the
   * list only when no entry has `c`'s name.
   */
  lemma {:induction false} PutNames<K>(found: seq<DeclaredClass<K>>, c: DeclaredClass<K>)
    ensures |found| <= |Put(found, c)| <= |found| + 1
    ensures forall j | 0 <= j < |found| :: Put(found, c)[j].shortName == found[j].shortName
    ensures (exists d | d in found :: d.shortName == c.shortName) ==> |Put(found, c)| == |found|
  {
    if found != [] {
      var tail := found[1..];
      if found[0].shortName != c.shortName {
        PutNames(tail, c);
        assert Put(found, c) == [found[0]] + Put(tail, c);
        forall j | 0 < j < |found| ensures Put(found, c)[j].shortName == found[j].shortName {
          assert found[j] == tail[j - 1];
        }
        if exists d | d in found :: d.shortName == c.shortName {
          var d :| d in found && d.shortName == c.shortName;
          assert d in tail;
        }
      }
    }
  }

  /** `Put` keeps the short names distinct. */
  lemma PutDistinct<K>(found: seq<DeclaredClass<K>>, c: DeclaredClass<K>)
    requires DistinctShortNames(found)
    ensures DistinctShortNames(Put(found, c))
  {
    PutNames(found, c);
  }

  /** The result of `getAuthorizatonProviderNames()` over the classes declared so far, in order. */
  function Discovered<K>(declared: seq<DeclaredClass<K>>, excludeAbstract: bool): seq<DeclaredClass<K>>
  {
    if declared == [] then []
    else
      var prev := Discovered(declared[..|declared| - 1], excludeAbstract);
      var c := declared[|declared| - 1];
      if Listed(c, excludeAbstract) then Put(prev, c) else prev
  }

  /**
   * Discovery lists each listed short name once; every entry is a declared
   * class that discovery lists, and every listed class's short name is there.
   */
  lemma DiscoveredExactly<K>(declared: seq<DeclaredClass<K>>, excludeAbstract: bool)
    ensures DistinctShortNames(Discovered(declared, excludeAbstract))
    ensures forall d | d in Discovered(declared, excludeAbstract) :: d in declared && Listed(d, excludeAbstract)
    ensures forall c | c in declared && Listed(c, excludeAbstract) ::
      exists d | d in Discovered(declared, excludeAbstract) :: d.shortName == c.shortName
  {
    DiscoveredDistinct(declared, excludeAbstract);
    DiscoveredFromDeclared(declared, excludeAbstract);
    forall c | c in declared && Listed(c, excludeAbstract)
      ensures exists d | d in Discovered(declared, excludeAbstract) :: d.shortName == c.shortName
    {
      DiscoveredCovers(declared, excludeAbstract, c);
    }
  }

  lemma {:induction false} DiscoveredDistinct<K>(declared: seq<DeclaredClass<K>>, excludeAbstract: bool)
    ensures DistinctShortNames(Discovered(declared, excludeAbstract))
  {
    if declared != [] {
      var init := declared[..|declared| - 1];
      DiscoveredDistinct(init, excludeAbstract);
      PutDistinct(Discovered(init, excludeAbstract), declared[|declared| - 1]);
    }
  }

  lemma {:induction false} DiscoveredFromDeclared<K>(declared: seq<DeclaredClass<K>>, excludeAbstract: bool)
    ensures forall d | d in Discovered(declared, excludeAbstract) :: d in declared && Listed(d, excludeAbstract)
  {
    if declared != [] {
      var init := declared[..|declared| - 1];
      DiscoveredFromDeclared(init, excludeAbstract);
      PutKeeps(Discovered(init, excludeAbstract), declared[|declared| - 1]);
      assert forall d | d in init :: d in declared;
    }
  }

  /** A listed class's short name is among the discovered ones. */
  lemma {:induction false} DiscoveredCovers<K>(declared: seq<DeclaredClass<K>>, excludeAbstract: bool, c: DeclaredClass<K>)
    requires c in declared && Listed(c, excludeAbstract)
    ensures exists d | d in Discovered(declared, excludeAbstract) :: d.shortName == c.shortName
  {
    var init := declared[..|declared| - 1];
    var last := declared[|declared| - 1];
    var prev := Discovered(init, excludeAbstract);
    assert declared == init + [last];
    if c == last {
      assert c in Discovered(declared, excludeAbstract);
    } else {
      assert c in init;
      DiscoveredCovers(init, excludeAbstract, c);
      var d :| d in prev && d.shortName == c.shortName;
      PutKeeps(prev, last);
      if Listed(last, excludeAbstract) && d.shortName == last.shortName {
        assert last in Discovered(declared, excludeAbstract);
      } else {
        assert d in Discovered(declared, excludeAbstract);
      }
    }
  }

  /** The classes of `declared` that discovery lists, in declaration order. */
  function ListedClasses<K>(declared: seq<DeclaredClass<K>>, excludeAbstract: bool): seq<DeclaredClass<K>>
  {
    if declared == [] then []
    else
      var prev := ListedClasses(declared[..|declared| - 1], excludeAbstract);
      var c := declared[|declared| - 1];
      if Listed(c, excludeAbstract) then prev + [c] else prev
  }

  lemma {:induction false} ListedClassesFrom<K>(declared: seq<DeclaredClass<K>>, excludeAbstract: bool)
    ensures forall d | d in ListedClasses(declared, excludeAbstract) :: d in declared
  {
    if declared != [] {
      ListedClassesFrom(declared[..|declared| - 1], excludeAbstract);
    }
  }

  /** With distinct class names, discovery keeps every listed class in declaration order. */
  lemma {:induction false} DiscoveredIsListed<K>(declared: seq<DeclaredClass<K>>, excludeAbstract: bool)
    requires DistinctShortNames(declared)
    ensures Discovered(declared, excludeAbstract) == ListedClasses(declared, excludeAbstract)
  {
    if declared != [] {
      var init := declared[..|declared| - 1];
      var c := declared[|declared| - 1];
      assert DistinctShortNames(init);
      DiscoveredIsListed(init, excludeAbstract);
      DiscoveredExactly(init, excludeAbstract);
      if Listed(c, excludeAbstract) {
        forall d | d in Discovered(init, excludeAbstract)
          ensures d.shortName != c.shortName
        {
          var j :| 0 <= j < |init| && init[j] == d;
          assert declared[j] == d;
        }
      }
    }
  }

  /** When discovery lists every declared class and their names are distinct, it returns them all in order. */
  lemma {:induction false} AllListedDiscovered<K>(declared: seq<DeclaredClass<K>>, excludeAbstract: bool)
    requires DistinctShortNames(declared)
    requires forall c | c in declared :: Listed(c, excludeAbstract)
    ensures Discovered(declared, excludeAbstract) == declared
  {
    DiscoveredIsListed(declared, excludeAbstract);
    AllListed(declared, excludeAbstract);
  }

  lemma {:induction false} AllListed<K>(declared: seq<DeclaredClass<K>>, excludeAbstract: bool)
    requires forall c | c in declared :: Listed(c, excludeAbstract)
    ensures ListedClasses(declared, excludeAbstract) == declared
  {
    if declared != [] {
      var init := declared[..|declared| - 1];
      assert forall c | c in init :: c in declared;
      AllListed(init, excludeAbstract);
      assert declared == init + [declared[|declared| - 1]];
    }
  }

  /** `getAuthorizatonProviderNames()`: one pass over the declared classes. */
  method GetAuthorizationProviderNames<K>(declared: seq<DeclaredClass<K>>, excludeAbstract: bool)
    returns (found: seq<DeclaredClass<K>>)
    ensures found == Discovered(declared, excludeAbstract)
  {
    found := [];
    var i := 0;
    while i < |declared|
      invariant 0 <= i <= |declared|
      invariant found == Discovered(declared[..i], excludeAbstract)
    {
      assert declared[..i + 1][..i] == declared[..i];
      if Listed(declared[i], excludeAbstract) {
        found := Put(found, declared[i]);
      }
      i := i + 1;
    }
    assert declared[..i] == declared;
  }

  /** The first discovered class whose provider name is `name`. */
  function FirstNamed<K>(found: seq<DeclaredClass<K>>, name: string): Option<DeclaredClass<K>>
  {
    if found == [] then None
    else if found[0].providerName == name then Some(found[0])
    else FirstNamed(found[1..], name)
  }

  /** The lookup finds a class of that name, and no earlier one has it; None means no class has it. */
  lemma {:induction false} FirstNamedIsFirst<K>(found: seq<DeclaredClass<K>>, name: string)
    ensures FirstNamed(found, name).None? <==> forall j | 0 <= j < |found| :: found[j].providerName != name
    ensures FirstNamed(found, name).Some? ==> exists j | 0 <= j < |found| ::
      found[j] == FirstNamed(found, name).value && found[j].providerName == name
      && forall i | 0 <= i < j :: found[i].providerName != name
  {
    if found != [] && found[0].providerName != name {
      var r := FirstNamed(found[1..], name);
      FirstNamedIsFirst(found[1..], name);
      if r.Some? {
        var j :| 0 <= j < |found[1..]| && found[1..][j] == r.value && found[1..][j].providerName == name
          && forall i | 0 <= i < j :: found[1..][i].providerName != name;
        assert found[j + 1] == r.value;
        forall i | 0 <= i < j + 1 ensures found[i].providerName != name {
          if i > 0 { assert found[i] == found[1..][i - 1]; }
        }
      } else {
        forall j | 0 <= j < |found| ensures found[j].providerName != name {
          if j > 0 { assert found[j] == found[1..][j - 1]; }
        }
      }
    } else if found != [] {
      assert found[0] == FirstNamed(found, name).value;
    }
  }

  /** The loop over the provider names that stops at the first one equal to `name`. */
  method FindProvider<K>(found: seq<DeclaredClass<K>>, name: string) returns (r: Option<DeclaredClass<K>>)
    ensures r == FirstNamed(found, name)
  {
    var i := 0;
    while i < |found|
      invariant 0 <= i <= |found|
      invariant FirstNamed(found, name) == FirstNamed(found[i..], name)
    {
      assert found[i..][1..] == found[i + 1..];
      if found[i].providerName == name {
        return Some(found[i]);
      }
      i := i + 1;
    }
    return None;
  }

  /** `str_replace($name . '_', '', $key)`. */
  function StripKey(key: string, name: string): string
  {
    RemoveAll(key, name + "_")
  }

  /** The options collected from the configuration entries: kept when the stripped key is an option name; later entries win. */
  function Collect(entries: seq<(string, string)>, name: string, names: seq<string>): map<string, string>
  {
    if entries == [] then map[]
    else
      var prev := Collect(entries[..|entries| - 1], name, names);
      var (key, value) := entries[|entries| - 1];
      var k := StripKey(key, name);
      if k in names then prev[k := value] else prev
  }

  /** Entry `j` of the configuration is stored under option name `k`. */
  predicate StrippedTo(entries: seq<(string, string)>, name: string, j: int, k: string)
  {
    0 <= j < |entries| && StripKey(entries[j].0, name) == k
  }

  /** An option is collected exactly when it is an option name and some entry's stripped key is that name. */
  lemma {:induction false} CollectHas(entries: seq<(string, string)>, name: string, names: seq<string>, k: string)
    ensures k in Collect(entries, name, names) <==> k in names && exists j :: StrippedTo(entries, name, j, k)
  {
    if entries != [] {
      var n := |entries| - 1;
      var init := entries[..n];
      CollectHas(init, name, names, k);
      forall j | StrippedTo(init, name, j, k) ensures StrippedTo(entries, name, j, k) {
        assert init[j] == entries[j];
      }
      if !StrippedTo(entries, name, n, k) {
        forall j | StrippedTo(entries, name, j, k) ensures StrippedTo(init, name, j, k) {
          assert init[j] == entries[j];
        }
      }
    }
  }

  /** A collected option holds the value of the LAST entry whose stripped key is that option name. */
  lemma {:induction false} CollectLastWins(entries: seq<(string, string)>, name: string, names: seq<string>, k: string)
    requires k in Collect(entries, name, names)
    ensures exists j :: (StrippedTo(entries, name, j, k) && entries[j].1 == Collect(entries, name, names)[k]
      && forall i | j < i < |entries| :: !StrippedTo(entries, name, i, k))
  {
    var n := |entries| - 1;
    var init := entries[..n];
    CollectHas(entries, name, names, k);
    if StrippedTo(entries, name, n, k) {
      assert StrippedTo(entries, name, n, k) && entries[n].1 == Collect(entries, name, names)[k];
    } else {
      CollectLastWins(init, name, names, k);
      var j :| StrippedTo(init, name, j, k) && init[j].1 == Collect(init, name, names)[k]
        && forall i | j < i < |init| :: !StrippedTo(init, name, i, k);
      assert init[j] == entries[j];
      forall i | j < i < |entries| ensures !StrippedTo(entries, name, i, k) {
        if i < n { assert init[i] == entries[i]; assert !StrippedTo(init, name, i, k); }
      }
      assert StrippedTo(entries, name, j, k);
    }
  }

  /** Only option names are collected. */
  lemma {:induction false} CollectKeys(entries: seq<(string, string)>, name: string, names: seq<string>)
    ensures forall k | k in Collect(entries, name, names) :: k in names
  {
    if entries != [] {
      CollectKeys(entries[..|entries| - 1], name, names);
    }
  }

  /** `in_array()` on the undefined `$option_names` of an unknown provider: a TypeError. */
  datatype ConfigError = UndefinedOptionNames

  /**
   * `readProviderOptionsFromConfigFile($name)` given the discovered classes
   * and the configuration file's entries in order (None: no file).
   */
  function ReadOptions<K>(found: seq<DeclaredClass<K>>, name: string, config: Option<seq<(string, string)>>)
    : Result<map<string, string>, ConfigError>
  {
    match config
    case None => Success(map[])
    case Some(entries) =>
      match FirstNamed(found, name)
      case None => if entries == [] then Success(map[]) else Failure(UndefinedOptionNames)
      case Some(c) =>
        var options := Collect(entries, name, c.optionNames);
        if forall n | n in c.optionNames :: n in options then Success(options) else Success(map[])
  }

  /**
   * The options are all or nothing: either empty, or exactly the option
   * names of the provider called `name`. Without a configuration file
   * they are empty; only an unknown provider with a non-empty
   * configuration fails.
   */
  lemma ReadOptionsAllOrNothing<K>(found: seq<DeclaredClass<K>>, name: string, config: Option<seq<(string, string)>>)
    ensures config.None? ==> ReadOptions(found, name, config) == Success(map[])
    ensures ReadOptions(found, name, config).Failure? <==>
      config.Some? && config.value != [] && FirstNamed(found, name).None?
    ensures ReadOptions(found, name, config).Success? ==>
      var options := ReadOptions(found, name, config).value;
      options == map[] ||
      (FirstNamed(found, name).Some? && options.Keys == set n | n in FirstNamed(found, name).value.optionNames)
  {
    if config.Some? && FirstNamed(found, name).Some? {
      CollectKeys(config.value, name, FirstNamed(found, name).value.optionNames);
    }
  }

  /**
   * What reading the options can end in once a class may lack the static
   * `getRequiredOptions()`: the configuration error above, or the
   * ReflectionException for the class that lacks it.
   */
  datatype ReadError = Config(error: ConfigError) | NoSuchMethod(className: string)

  /**
   * `readProviderOptionsFromConfigFile($name)` when only the classes whose
   * short names are in `declaring` define `getRequiredOptions()`: the
   * reflection on the class found for `name` happens before the
   * configuration file is looked at, so a found class without the method
   * fails whatever the file holds.
   */
  function ReadOptionsReflecting<K>(found: seq<DeclaredClass<K>>, name: string, config: Option<seq<(string, string)>>,
                                    declaring: set<string>)
    : (r: Result<map<string, string>, ReadError>)
    ensures (r.Failure? && r.error.NoSuchMethod?) <==>
      FirstNamed(found, name).Some? && FirstNamed(found, name).value.shortName !in declaring
    ensures r.Failure? && r.error.NoSuchMethod? ==> r.error.className == FirstNamed(found, name).value.shortName
  {
    if FirstNamed(found, name).Some? && FirstNamed(found, name).value.shortName !in declaring then
      Failure(NoSuchMethod(FirstNamed(found, name).value.shortName))
    else
      match ReadOptions(found, name, config)
      case Success(options) => Success(options)
      case Failure(e) => Failure(Config(e))
  }

  /** When every discovered class defines `getRequiredOptions()`, the reflection changes nothing. */
  lemma ReflectingAgreesWhenAllDeclare<K>(found: seq<DeclaredClass<K>>, name: string, config: Option<seq<(string, string)>>,
                                          declaring: set<string>)
    requires forall c | c in found :: c.shortName in declaring
    ensures ReadOptions(found, name, config).Success? ==>
      ReadOptionsReflecting(found, name, config, declaring) == Success(ReadOptions(found, name, config).value)
    ensures ReadOptions(found, name, config).Failure? ==>
      ReadOptionsReflecting(found, name, config, declaring) == Failure(Config(ReadOptions(found, name, config).error))
  {
    FirstNamedIsFirst(found, name);
  }

  /** `readProviderOptionsFromConfigFile($name)`. */
  method ReadProviderOptionsFromConfigFile<K>(declared: seq<DeclaredClass<K>>, excludeAbstract: bool, name: string,
                                              config: Option<seq<(string, string)>>)
    returns (r: Result<map<string, string>, ConfigError>)
    ensures r == ReadOptions(Discovered(declared, excludeAbstract), name, config)
  {
    var found := GetAuthorizationProviderNames(declared, excludeAbstract);
    var provider := FindProvider(found, name);
    if config.None? {
      return Success(map[]);
    }
    var entries := config.value;
    var options: map<string, string> := map[];
    var i := 0;
    while i < |entries|
      invariant 0 <= i <= |entries|
      invariant provider.Some? ==> options == Collect(entries[..i], name, provider.value.optionNames)
      invariant provider.None? ==> i == 0
    {
      if provider.None? {
        return Failure(UndefinedOptionNames);
      }
      assert entries[..i + 1][..i] == entries[..i];
      var key := StripKey(entries[i].0, name);
      if key in provider.value.optionNames {
        options := options[key := entries[i].1];
      }
      i := i + 1;
    }
    assert entries[..i] == entries;
    if provider.None? {
      return Success(map[]);
    }
    var names := provider.value.optionNames;
    var j := 0;
    while j < |names|
      invariant 0 <= j <= |names|
      invariant forall m | 0 <= m < j :: names[m] in options
    {
      if names[j] !in options {
        return Success(map[]);
      }
      j := j + 1;
    }
    return Success(options);
  }

  /** What `make` instantiates: `new $class_name($firstArgument, $options)`. */
  datatype Construction<K> = Construction(impl: K, shortName: string, firstArgument: string, options: map<string, string>)

  /**
   * `make($name, $firstArgument)`: null (None) when the options are empty
   * or no provider has that name, else the first provider of that name.
   */
  method Make<K>(declared: seq<DeclaredClass<K>>, excludeAbstract: bool, name: string, firstArgument: string,
                 config: Option<seq<(string, string)>>)
    returns (r: Result<Option<Construction<K>>, ConfigError>)
    ensures r.Failure? <==> ReadOptions(Discovered(declared, excludeAbstract), name, config).Failure?
    ensures r.Success? ==>
      var options := ReadOptions(Discovered(declared, excludeAbstract), name, config).value;
      var c := FirstNamed(Discovered(declared, excludeAbstract), name);
      r.value == if options == map[] || c.None? then None
                 else Some(Construction(c.value.impl, c.value.shortName, firstArgument, options))
  {
    var options := ReadProviderOptionsFromConfigFile(declared, excludeAbstract, name, config);
    if options.Failure? {
      return Failure(options.error);
    }
    if |options.value| == 0 {
      return Success(None);
    }
    var found := GetAuthorizationProviderNames(declared, excludeAbstract);
    var provider := FindProvider(found, name);
    if provider.Some? {
      return Success(Some(Construction(provider.value.impl, provider.value.shortName, firstArgument, options.value)));
    }
    return Success(None);
  }

  /**
   * `make` yields a provider exactly when the options are complete and
   * non-empty: non-empty options imply that a provider of that name was
   * discovered, so the final "no provider found" return is reached only
   * with empty options.
   */
  lemma MakeFindsConfiguredProvider<K>(found: seq<DeclaredClass<K>>, name: string, config: Option<seq<(string, string)>>)
    requires ReadOptions(found, name, config).Success?
    requires ReadOptions(found, name, config).value != map[]
    ensures FirstNamed(found, name).Some?
    ensures FirstNamed(found, name).value.providerName == name
  {
    FirstNamedIsFirst(found, name);
  }
}
