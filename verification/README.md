# webtrees OAuth2 client: a Dafny model

This is a model of the core of the webtrees custom module that signs users in
through an OAuth 2.0 authorization provider (WordPress, Google, Joomla, a
generic provider, and in the earlier code Facebook). The module takes the
relying-party side of the authorization-code grant of RFC 6749, section 4.1,
and checks the `state` parameter as section 10.12 of RFC 6749 asks. It then
turns the provider's user data into a webtrees account:
- it truncates the fields to the sizes of the user table;
- it chooses the field that identifies the user;
- it either shows the registration page or signs the user in;
- after a sign-in, it updates the fields the provider is authoritative for.

The modules follow the structure of the PHP code:

- `Wrappers`: `Option` (PHP's null, `??`) and `Result` (an exception the caller catches).
- `PhpArrays`: `$a[$k] ?? …` lookups, and `str_replace($pat, '', $s)` written out as one left-to-right scan.
- `FieldAuthority`:
  - the key map that ranks `user_name`, `real_name` and `email` as primary, mandatory, optional or unused;
  - `validate()`;
  - the webtrees `User` as a class;
  - `updateUserData()` as a loop that calls the setters.
- `Truncation`: `resizeUserData`'s limits and prefixes. A character stands for a byte.
- `Providers`: the providers of the current tree (`src/Provider`). Each has:
  - its name;
  - its required options;
  - its key map;
  - its `getUserData` mapping;
  - its constructor's option merge;
  - its login button label, as a class.
- `LegacyProviders`: the providers of the earlier tree (`Provider/`), which are Joomla and Facebook.
- `ProviderFactory`: the provider factory, shared by `src/Factories/AuthorizationProviderFactory.php` and the earlier `src/AuthorizationProviderFactory.php`. It covers:
  - class discovery over an explicit list of declared classes;
  - option resolution from the configuration file's entries;
  - `make`.
- `OAuth2Flow`:
  - the `state` check;
  - `doLogin`'s checks;
  - the responses;
  - the webtrees state the handlers change (`Host`: the session, flash messages, the authentication log, the signed-in user, and the calls made into the OAuth2 library);
  - the grant shared by both handlers (`Host.Grant`).
- `OAuth2Client`: the module class. It covers:
  - `activeModuleName()`;
  - `checkModuleVersionUpdate()`;
  - its own `handle()`, which runs the grant against one fixed generic provider.
- `LoginAction`: the current request handler `src/LoginWithAuthorizationProviderAction.php`.
- `LegacyLoginAction`: the earlier request handler `LoginWithAuthorizationProviderAction.php`.

Everything outside this code enters the model as a parameter:
- the OAuth2 library's answers (authorization URL, new state, token, resource owner);
- the configuration file's entries;
- the browser's cookies;
- the clock;
- the site preferences;
- the webtrees user directory.

Two behaviours of the code that a reader may not expect:
- **The stored `state` is not single-use.** A callback whose state matches leaves the stored state in the session. A second callback with the same state is accepted again (`OAuth2Flow.AcceptedStateIsReusable`). Only a mismatch forgets the stored state, and only a non-empty one.
- **Reading the options of an unknown provider is an error.**
  - If no discovered provider has the requested name, `$option_names` stays undefined.
  - With a configuration file that has entries, `in_array($key, null)` then raises a TypeError. The model gives `ConfigError.UndefinedOptionNames`, and the handler's response is `Thrown(UndefinedOptionNames)`.
  - With no file, or an empty one, the result is `[]`, and `make` returns null.

## Model

| member | source | states |
|---|---|---|
| PhpArrays.RemoveAllNoOccurrence | src/Factories/AuthorizationProviderFactory.php:136 | `str_replace` returns a subject in which the pattern never occurs unchanged |
| PhpArrays.RemoveAllLeading | src/Factories/AuthorizationProviderFactory.php:136 | a leading `<name>_` is deleted and the scan continues after it |
| PhpArrays.RemoveAllMiddle | src/Factories/AuthorizationProviderFactory.php:136 | an occurrence in the middle of a key is deleted too: it is not prefix removal |
| PhpArrays.RemoveAllIsSinglePass | src/Factories/AuthorizationProviderFactory.php:136 | the replacement does not rescan: for every pattern of two or more characters that is not one character repeated, the first character, the pattern and its tail lose the inner occurrence and leave exactly the pattern, which still occurs ("GG__" without "G_" is "G_") |
| FieldAuthority.CountEntries | src/Provider/AbstractAuthorizationProvider.php:198-201 | `array_count_values` over the key map counts the fields at a level; `in_array` holds iff some field has it |
| FieldAuthority.FieldsAtSize | src/Provider/AbstractAuthorizationProvider.php:182-188 | the set of fields at a level has one element per field with that level |
| FieldAuthority.CountMatchesFields | src/Provider/AbstractAuthorizationProvider.php:198-201 | the array counts agree with the set of fields at that level |
| FieldAuthority.Validate | src/Provider/AbstractAuthorizationProvider.php:195-211 | '' (None) iff exactly one field is primary and it is the user name or the email; no primary, more than one, and primary only on the real name each give their own message, checked in that order |
| FieldAuthority.ValidNamesOneIdentifier | src/Provider/AbstractAuthorizationProvider.php:195-211 | a key map that validates makes exactly one of user name and email primary, and never the real name |
| FieldAuthority.User.Set | src/Provider/AbstractAuthorizationProvider.php:228-236 | `setUserName`/`setEmail`/`setRealName` change that one field and nothing else |
| FieldAuthority.User.SetPreference | src/LoginWithAuthorizationProviderAction.php:293-296 | `setPreference` changes that one preference and no account field |
| FieldAuthority.ApplyEntriesSyncsMandatory | src/Provider/AbstractAuthorizationProvider.php:223-237 | whatever the order of the entries, a field some entry marks mandatory ends with the provider's value, any other keeps the account's |
| FieldAuthority.MandatoryInEntries | src/Provider/AbstractAuthorizationProvider.php:223-226 | the loop meets a mandatory entry for a field iff the key map makes that field mandatory |
| FieldAuthority.UpdateSyncsExactlyMandatory | src/Provider/AbstractAuthorizationProvider.php:223-237 | after `updateUserData` every mandatory field equals the provider's value; primary, optional and unused fields are unchanged |
| FieldAuthority.UpdateIdempotent | src/Provider/AbstractAuthorizationProvider.php:228-236 | updating twice with the same provider data is the same as updating once |
| FieldAuthority.NoSetterOfEntries | src/Provider/AbstractAuthorizationProvider.php:226-236 | no setter is called iff no mandatory field differs from the provider's |
| FieldAuthority.NoSetterWhenSynced | src/Provider/AbstractAuthorizationProvider.php:228-236 | no setter is called iff the update leaves the account as it was, iff the mandatory fields already match |
| FieldAuthority.UpdateField | src/Provider/AbstractAuthorizationProvider.php:226-236 | one loop step: the setter for a mandatory field that differs, and nothing otherwise |
| FieldAuthority.UpdateFromEntries | src/Provider/AbstractAuthorizationProvider.php:223-238 | the loop leaves the account at the fold of the entries, records the setters called in order, and keeps the preferences |
| FieldAuthority.UpdateUserData | src/Provider/AbstractAuthorizationProvider.php:221-239 | `updateUserData($user, $fromProvider)`: the account becomes `UpdatedUserData` of the key map (see the lemmas above) |
| Truncation.Resize | src/LoginWithAuthorizationProviderAction.php:315-331 | the result is a prefix of the value, within 32 (Username), 128 (Password) or 64 characters; a value within the limit is kept whole, a longer one cut to exactly the limit |
| Truncation.ResizeChangesOnlyLongValues | src/LoginWithAuthorizationProviderAction.php:327-331 | a value changes iff it is longer than its limit, which is exactly when a flash message is asked for and given |
| Truncation.ResizeIdempotent | src/LoginWithAuthorizationProviderAction.php:315-332 | resizing a resized value changes nothing |
| Providers.InheritedNameOfStem | src/Provider/AbstractAuthorizationProvider.php:64-69 | the inherited `getName()` of a class named stem + "AuthorizationProvider" (stem without 'A') is the stem |
| Providers.InheritedNames | src/Provider/AbstractAuthorizationProvider.php:64-69 | the inherited names of WordPress and Google are "WordPress" and "Google" |
| Providers.MisspeltNameKept | src/Provider/AbstractAuthorizationProvider.php:64-69 | a class name whose tail after the stem is shorter than "AuthorizationProvider" is not shortened |
| Providers.MisspeltNames | src/Provider/JoomlaAuthoriationProvider.php:72-74 | the inherited `getName()` would keep "JoomlaAuthoriationProvider" and "GenericAuthoriationProvider" whole, which is why those classes override it |
| Providers.GetNameInherited | src/Provider/GenericAuthoriationProvider.php:68-70 | WordPress and Google names are the inherited ones; Joomla's and Generic's own `getName()` differ from it |
| Providers.NamesDistinct | src/Factories/AuthorizationProviderFactory.php:69-73 | different providers have different names, so a name selects at most one provider |
| Providers.RequiredOptionsShape | src/Provider/WordPressAuthorizationProvider.php:119-128 | every provider needs clientId and clientSecret first; WordPress needs Generic's five options plus signInButtonLabel; Joomla the first three; only Google needs no urlAuthorize |
| Providers.KeyMapsValidate | src/Provider/WordPressAuthorizationProvider.php:136-142 | every provider's key map validates (WordPress, and likewise Google, Joomla and Generic in their own files); the user name is primary for WordPress and Joomla, the email for Google and Generic |
| Providers.DefaultKeyMapValidates | src/Provider/AbstractAuthorizationProvider.php:182-188 | the base key map (user name mandatory, real name optional, email primary) validates with the email as identifier |
| Providers.GoogleUpdateChangesNothing | src/Provider/GoogleAuthorizationProvider.php:121-127 | Google marks no field mandatory, so `updateUserData` leaves a Google user unchanged |
| Providers.EmailOnlyUpdate | src/Provider/WordPressAuthorizationProvider.php:136-142 | for WordPress and Joomla (src/Provider/JoomlaAuthoriationProvider.php:116-122) the update overwrites the email and nothing else |
| Providers.UserNameOnlyUpdate | src/Provider/GenericAuthoriationProvider.php:120-126 | for Generic the update overwrites the user name and nothing else |
| Providers.DefaultUserData | src/Provider/AbstractAuthorizationProvider.php:152-157 | userName = username ?? '', realName = name if present else the user name, email = email ?? ''; the misspelt base class and the current Joomla map the same way |
| Providers.EmptyNameIsKept | src/Provider/AbstractAuthorizationProvider.php:155 | an empty name is kept, not replaced by the user name: `??` falls back only on a missing key |
| Providers.BuildWordPressRealName | src/Provider/WordPressAuthorizationProvider.php:82-97 | first + ' ' + last when both are non-empty; the non-empty one alone, without a space; the display name when both are empty |
| Providers.WordPressUserData | src/Provider/WordPressAuthorizationProvider.php:99-110 | userName = username ?? email ?? '', email = email ?? '', real name as built above |
| Providers.GoogleUserData | src/Provider/GoogleAuthorizationProvider.php:76-100 | fails with an `IdentityProviderException` carrying the data iff the id cannot be read; otherwise no user name, the SDK's name ?? '' and email ?? '' |
| Providers.GenericUserData | src/Provider/GenericAuthoriationProvider.php:84-95 | userName = username ?? email ?? '', realName = name ?? '' with no user-name fallback, email = email ?? '' |
| Providers.GetUserData | src/Provider/GoogleAuthorizationProvider.php:81-86 | only Google's mapping can fail, and only when the id cannot be read |
| Providers.ConstructorOptions | src/Provider/WordPressAuthorizationProvider.php:56-63 | nothing is built for '' and []; otherwise the configured options merged with the constructor's own, which win; WordPress sets Scopes to 'openid profile email'; the Google, Joomla and Generic constructors merge the same way with their own overrides, Joomla's token and owner URLs being urlAuthorize ?? '' |
| Providers.WordPressAsWrittenFails | src/Provider/WordPressAuthorizationProvider.php:65-67 | with the six required options, the constructor as written always reaches the undefined `setSignInButtonLabel` |
| Providers.WordPressLabelConfigured | src/Provider/WordPressAuthorizationProvider.php:65-67 | with the label set through `setLoginButtonLabel`, a WordPress provider starts with the configured label |
| Providers.AuthorizationProvider.constructor | src/Provider/WordPressAuthorizationProvider.php:54-68 | the provider keeps its kind, the merged library options and its initial label |
| Providers.AuthorizationProvider.SetLoginButtonLabel | src/Provider/AbstractAuthorizationProvider.php:78-81 | after setting, the label read back is the one set |
| Providers.AuthorizationProvider.GetLoginButtonLabel | src/Provider/AbstractAuthorizationProvider.php:88-91 | the last label set, or the provider's name when none was set |
| LegacyProviders.OptionNamesAgainstBase | src/Provider/AbstractAuthoriationProvider.php:127-133 | only Facebook takes redirectUri from the configuration: its options are the option list of the current tree's misspelt base plus graphApiVersion |
| LegacyProviders.LegacyJoomlaUserData | Provider/JoomlaAuthoriationProvider.php:91-96 | corrected: with the id cast to int, each of userName, realName and email is the raw value or '' |
| LegacyProviders.LegacyJoomlaUserDataAsWritten | Provider/JoomlaAuthoriationProvider.php:91-96 | as written: a TypeError (None) iff the owner's `id` entry is not an int; otherwise the corrected data |
| LegacyProviders.LegacyJoomlaNoNameFallback | Provider/JoomlaAuthoriationProvider.php:94 | without a name the earlier Joomla gives an empty real name, unlike the current one |
| LegacyProviders.FacebookUserData | Provider/FacebookAuthoriationProvider.php:83-90 | the email ?? '' is the user name too; the real name is the SDK's name or the "not received" placeholder |
| LegacyProviders.LegacyUserData | Provider/FacebookAuthoriationProvider.php:86-89 | a Facebook user name always equals its email; Joomla's data is the corrected mapping |
| LegacyProviders.LegacyJoomlaOptions | Provider/JoomlaAuthoriationProvider.php:59-65 | the redirect URI overrides the configured one; the access-token and resource-owner URLs are urlAuthorize ?? ''; other options pass through |
| LegacyProviders.LegacyJoomlaOptionsAsCurrent | Provider/JoomlaAuthoriationProvider.php:59-65 | the earlier Joomla builds the same library options as the current one for the same redirect URI |
| ProviderFactory.Put | src/Factories/AuthorizationProviderFactory.php:99 | the class is in the result; a new short name is appended at the end |
| ProviderFactory.PutKeeps | src/Factories/AuthorizationProviderFactory.php:99 | only the new class is added, and only an entry with its short name is dropped |
| ProviderFactory.PutNames | src/Factories/AuthorizationProviderFactory.php:99 | an existing key keeps its position; the list grows only for a new short name |
| ProviderFactory.PutDistinct | src/Factories/AuthorizationProviderFactory.php:99 | keys stay distinct |
| ProviderFactory.DiscoveredExactly | src/Factories/AuthorizationProviderFactory.php:93-103 | discovery lists each short name once, only declared classes that are in the provider namespace, implement the interface and are not the abstract class, and every such class's short name |
| ProviderFactory.DiscoveredDistinct | src/Factories/AuthorizationProviderFactory.php:99 | the discovered short names are distinct |
| ProviderFactory.DiscoveredFromDeclared | src/Factories/AuthorizationProviderFactory.php:93-96 | every discovered class is declared and passes the namespace, interface and abstract-class tests |
| ProviderFactory.DiscoveredCovers | src/Factories/AuthorizationProviderFactory.php:93-99 | every class that passes the tests has its short name among the discovered |
| ProviderFactory.DiscoveredIsListed | src/Factories/AuthorizationProviderFactory.php:93-103 | with distinct class names, discovery keeps the listed classes in declaration order |
| ProviderFactory.AllListedDiscovered | src/AuthorizationProviderFactory.php:94-101 | when every declared class is listed (the earlier factory excludes nothing), discovery returns them all in order |
| ProviderFactory.GetAuthorizationProviderNames | src/Factories/AuthorizationProviderFactory.php:86-106 | the loop over the declared classes computes `Discovered`; the earlier factory is the same loop with no abstract-class exclusion |
| ProviderFactory.FirstNamedIsFirst | src/Factories/AuthorizationProviderFactory.php:69-74 | the lookup finds a class with that name and no earlier one has it; nothing is found iff no class has the name |
| ProviderFactory.FindProvider | src/Factories/AuthorizationProviderFactory.php:122-127 | the loop that stops at the first class of that name |
| ProviderFactory.CollectHas | src/Factories/AuthorizationProviderFactory.php:134-141 | an option is collected iff it is a required option and some key stripped of every `<name>_` equals it |
| ProviderFactory.CollectLastWins | src/Factories/AuthorizationProviderFactory.php:138-140 | a collected option holds the value of the last entry that maps to it |
| ProviderFactory.CollectKeys | src/Factories/AuthorizationProviderFactory.php:138-140 | only required option names are collected |
| ProviderFactory.ReadOptionsAllOrNothing | src/Factories/AuthorizationProviderFactory.php:115-155 | [] without a configuration file; an error iff the name is unknown and the file has entries; otherwise [] or exactly the provider's required option names (`getOptionNames` in the earlier factory) |
| ProviderFactory.ReadOptionsReflecting | src/Factories/AuthorizationProviderFactory.php:122-128 | the reflection on the found class comes before the file is read: the options fail with that class's name iff a class of that name is found and lacks `getRequiredOptions()` |
| ProviderFactory.ReflectingAgreesWhenAllDeclare | src/Factories/AuthorizationProviderFactory.php:115-155 | when every discovered class defines `getRequiredOptions()`, the reflection changes nothing: the result is `ReadOptions`, its error wrapped |
| ProviderFactory.ReadProviderOptionsFromConfigFile | src/Factories/AuthorizationProviderFactory.php:115-155 | the loops with early returns compute `ReadOptions` over the discovered classes, in both factories |
| ProviderFactory.Make | src/Factories/AuthorizationProviderFactory.php:56-78 | null for empty options or no provider of that name, else the first provider of that name built with (redirectUri, options); fails exactly when reading the options fails; the earlier factory passes base_url as first argument |
| ProviderFactory.MakeFindsConfiguredProvider | src/Factories/AuthorizationProviderFactory.php:60-77 | non-empty options imply that a provider of that name exists, so the final "no provider" return happens only with empty options |
| OAuth2Flow.CheckState | src/LoginWithAuthorizationProviderAction.php:135-148 | the first leg iff there is no code; accepted iff there is a code, a non-empty state, and a stored state equal to it; rejected otherwise |
| OAuth2Flow.AfterRejection | src/LoginWithAuthorizationProviderAction.php:150-152 | a non-empty stored state is removed, an empty one stays, and every other key is unchanged |
| OAuth2Flow.RejectionIsFinal | src/LoginWithAuthorizationProviderAction.php:148-152 | after a rejection no callback is accepted until a new first leg |
| OAuth2Flow.AcceptedStateIsReusable | src/LoginWithAuthorizationProviderAction.php:159-178 | an accepted state stays stored, so the same state is accepted again |
| OAuth2Flow.LoginRefusal | src/LoginWithAuthorizationProviderAction.php:269-289 | `doLogin` refuses for no cookies, no account, email not verified '1', account not approved '1', in that order; it signs in iff all hold |
| OAuth2Flow.Exchange | src/LoginWithAuthorizationProviderAction.php:160-177 | succeeds iff both the token and the user data arrive; carries both unchanged; a token failure is the error reported |
| OAuth2Flow.Host.CheckCallbackState | src/LoginWithAuthorizationProviderAction.php:148-158 | returns the verdict; the stored state is forgotten only on a rejection |
| OAuth2Flow.Host.Grant | src/LoginWithAuthorizationProviderAction.php:135-178 | first leg: stores `getState()` and redirects to the authorization URL; rejection: the invalid-state alert with no library call; acceptance: the token exchange, whose failure is an alert |
| OAuth2Flow.Host.CheckLogin | src/LoginWithAuthorizationProviderAction.php:269-289 | the four checks of `doLogin`: the account of that identifier iff `LoginRefusal` finds nothing, otherwise the refusal with its failure log entry; nothing else changes |
| OAuth2Flow.Host.DoLogin | src/LoginWithAuthorizationProviderAction.php:267-304 | on refusal: a failure log entry and nothing else changes; on success: the account is signed in and logged, with its activity time and the OAuth2 flag set and its language and theme put into the session, and no other account changes; the earlier handler's `doLogin` is the same without the OAuth2 flag |
| OAuth2Flow.Host.DoLoginAsWritten | src/LoginWithAuthorizationProviderAction.php:267-296 | as written: on refusal as `DoLogin`; on success the account is signed in, logged and time-stamped, and then the undefined flag constant stops it, before the flag, the language and the theme |
| OAuth2Client.ActiveModuleName | OAuth2Client.php:167-170 | the module directory between two underscores |
| OAuth2Client.PrefixedKeysDistinct | OAuth2Client.php:167-170 | prefixed session keys with different suffixes differ and never equal 'language' or 'theme' |
| OAuth2Client.ModuleSettings.CheckModuleVersionUpdate | OAuth2Client.php:323-338 | stores CUSTOM_VERSION and adds a flash message only when the stored version differed, so a second call changes nothing |
| OAuth2Client.UserDataPageOf | OAuth2Client.php:412-423 | id, name, username and email of the resource owner, each '' when missing |
| OAuth2Client.Handle | OAuth2Client.php:347-450 | first leg: stores the state under the module's name, asks the library for the URL and state, and redirects; wrong state: the untyped 'Invalid state' alert, with the state forgotten and no library call; match: state kept, the token requested and, only when it arrives, the resource owner, then the user data page or the exception alert; no flash, log or sign-in on any path |
| LoginAction.SrcNamesAreGetName | src/Factories/AuthorizationProviderFactory.php:97-99 | each discovered provider class reports its provider's name and required options |
| LoginAction.ClassNamesDistinct | src/Factories/AuthorizationProviderFactory.php:98-99 | the four provider class names are distinct keys |
| LoginAction.SrcDiscovery | src/Factories/AuthorizationProviderFactory.php:86-106 | discovery lists the four providers in declaration order |
| LoginAction.SrcLookupKnown | src/Factories/AuthorizationProviderFactory.php:69-73 | a provider's own name finds its class |
| LoginAction.SrcLookupUnknown | src/Factories/AuthorizationProviderFactory.php:69-77 | a name no provider has finds nothing |
| LoginAction.SelectedByName | src/Factories/AuthorizationProviderFactory.php:56-78 | `make` fails iff the name is unknown and the configuration has entries; a provider it builds has that name and exactly its required options |
| LoginAction.WordPressMadeAsWrittenFails | src/Provider/WordPressAuthorizationProvider.php:65-67 | whenever `make('WordPress', …)` finds a complete configuration, the constructor as written fails |
| LoginAction.JoomlaGenericAsWrittenFail | src/Factories/AuthorizationProviderFactory.php:122-128 | as written, reading the options for the Joomla or Generic name fails on its class, whatever the configuration, because that class has no `getRequiredOptions()` |
| LoginAction.WordPressGoogleReflectionAgrees | src/Factories/AuthorizationProviderFactory.php:122-128 | for WordPress and Google the reflection succeeds and the options are read as usual |
| LoginAction.JoomlaGenericSelected | src/Factories/AuthorizationProviderFactory.php:56-78 | with the method defined, `make` never fails for the Joomla or Generic name, and builds that provider exactly when its required options are all configured |
| LoginAction.CallbackRestoresRequest | src/LoginWithAuthorizationProviderAction.php:107-114 | a later request without a provider name gets back the name, URL and tree an earlier request saved |
| LoginAction.SavingKeepsOtherKeys | src/LoginWithAuthorizationProviderAction.php:107-111 | saving the request touches no other session key |
| LoginAction.StateKeySeparate | src/LoginWithAuthorizationProviderAction.php:108-110 | the state key differs from the provider-name, URL and tree keys |
| LoginAction.SaveOrLoadProviderName | src/LoginWithAuthorizationProviderAction.php:107-114 | a non-empty provider name is saved with the URL and tree; an empty one is read back from the session |
| LoginAction.ExchangeOutcome | src/LoginWithAuthorizationProviderAction.php:160-177 | the exchange succeeds iff a token and a resource owner arrive and, for Google, the id is readable; the token is then unchanged and the data is the provider's mapping |
| LoginAction.ResizeUserData | src/LoginWithAuthorizationProviderAction.php:315-332 | returns `Resize`, and adds the "was reduced" message exactly when it is asked for and the value is too long |
| LoginAction.Resized | src/LoginWithAuthorizationProviderAction.php:184-186 | the truncated user name, real name and email are prefixes within 32, 64 and 64 characters |
| LoginAction.ResizeFlashesExactly | src/LoginWithAuthorizationProviderAction.php:184-187 | a truncation is reported exactly for a field over its limit, never for the access token |
| LoginAction.IdentifierIsPrimaryField | src/LoginWithAuthorizationProviderAction.php:190-198 | for a key map that validates, the identifier is the value of its only primary field |
| LoginAction.ProviderIdentifier | src/LoginWithAuthorizationProviderAction.php:190-198 | WordPress and Joomla identify users by user name, Google and Generic by email |
| LoginAction.ConcludedOutcomes | src/LoginWithAuthorizationProviderAction.php:207-253 | `doLogin` never refuses for a missing account; the target URL is reached only by a verified and approved account; registration only for an unknown identifier with registration open |
| LoginAction.RegisterFormWithinLimits | src/LoginWithAuthorizationProviderAction.php:217-228 | the registration page gets prefixes of the provider's data and token within the column sizes, the provider name, and no tree |
| LoginAction.ResizeAll | src/LoginWithAuthorizationProviderAction.php:184-187 | the four resizes, with the warnings of the three user-data fields in order |
| LoginAction.SignIn | src/LoginWithAuthorizationProviderAction.php:233-253 | refusal: the reason as a flash message and the login page; success: the account is updated from the provider data and the target URL is reached |
| LoginAction.ConcludedAsWrittenNeverSignsIn | src/LoginWithAuthorizationProviderAction.php:233-296 | as written, no accepted callback reaches the target URL; it differs from `Concluded` exactly on the logins `doLogin` lets through |
| LoginAction.SignInAsWritten | src/LoginWithAuthorizationProviderAction.php:233-296 | as written: refusal as in `SignIn`; a login that passes the checks leaves the user signed in, logged and time-stamped, the account otherwise untouched and the session unchanged, and ends in the uncaught Error |
| LoginAction.Conclude | src/LoginWithAuthorizationProviderAction.php:180-253 | empty identifier: login page and message; unknown account: registration page, or not-found when registration is off; otherwise `SignIn`; accounts, log and sign-in change only in `SignIn`, as `ConcludedState` spells out |
| LoginAction.ValidateProvider | src/LoginWithAuthorizationProviderAction.php:128-132 | a key map that does not validate sends its message and the user back to the login page |
| LoginAction.MakeSelected | src/LoginWithAuthorizationProviderAction.php:119 | the factory builds the selected provider with the redirect URI and the configured options |
| LoginAction.MakeProvider | src/LoginWithAuthorizationProviderAction.php:119-132 | an unknown or unconfigured provider gives the not-found message and the login page; an unknown one with entries is the uncaught error; otherwise a new provider of the selected kind |
| LoginAction.Callback | src/LoginWithAuthorizationProviderAction.php:135-253 | the grant, then for an accepted callback the conclusion over the restored URL and tree (`GrantOutcome`): response, session, flash messages and library calls on every path; the first leg, a rejection and a provider failure leave the accounts, the log and the signed-in user alone; an accepted login changes exactly what `SignIn` changes |
| LoginAction.HandleNamed | src/LoginWithAuthorizationProviderAction.php:119-253 | an unknown provider or the option error ends before any library call with the accounts untouched; a made provider then has the `GrantOutcome` of its kind |
| LoginAction.Handle | src/LoginWithAuthorizationProviderAction.php:97-254 | every path of `handle`: no provider name, the option error and an unknown provider end before any library call with the accounts untouched; otherwise `GrantOutcome` on the session with the request saved, including the sign-in and the account update of an accepted login; a user is signed in only with a redirect to a URL |
| LegacyLoginAction.PostfixedUserName | LoginWithAuthorizationProviderAction.php:182 | the user name, '(', the provider name, ')' |
| LegacyLoginAction.PostfixedUserNameInjective | LoginWithAuthorizationProviderAction.php:182 | for provider names without '(', different (user name, provider) pairs give different webtrees user names |
| LegacyLoginAction.LegacyRealName | LoginWithAuthorizationProviderAction.php:185 | a non-empty real name is kept; an empty one falls back, and the result is empty only when the user name is too |
| LegacyLoginAction.LegacyConcludedOutcomes | LoginWithAuthorizationProviderAction.php:169-201 | the no-valid-data message iff user name or email is empty; the registration page gets the postfixed name, a non-empty real name, the email and the token; the target URL only after a successful login |
| LegacyLoginAction.LegacyConclude | LoginWithAuthorizationProviderAction.php:169-222 | the checks of the data, then the registration page or `doLogin` with the postfixed name; a login changes the log, the signed-in user, the activity time and the session's language and theme, never the account's fields (`LegacyConcludedState`) |
| LegacyLoginAction.LegacyAccepted | LoginWithAuthorizationProviderAction.php:147-201 | corrected: an accepted callback ends in an alert iff the token or the resource owner fails, and never uncaught |
| LegacyLoginAction.LegacyAcceptedAsWritten | LoginWithAuthorizationProviderAction.php:147-164 | as written: `Thrown(NonIntegerUserId)` iff the provider is Joomla, the token and resource owner are obtained and the owner's `id` is not an int; otherwise the corrected response |
| LegacyLoginAction.LegacyJoomlaWithoutIdThrows | Provider/JoomlaAuthoriationProvider.php:91-92 | a Joomla owner without an id: uncaught as written, the registration page as intended |
| LegacyLoginAction.LegacyCallback | LoginWithAuthorizationProviderAction.php:135-222 | the grant, then for an accepted callback `LegacyConclude` (`LegacyGrantOutcome`): response, session, flash messages and library calls on every path; only an accepted login touches the log, the sign-in or an account |
| LegacyLoginAction.LegacyHandle | LoginWithAuthorizationProviderAction.php:97-223 | every path of the earlier `handle`: no provider name and an unknown provider (an alert naming it) end before any library call with the accounts untouched; otherwise `LegacyGrantOutcome` on the session with the name saved |

## Left out

- The OAuth2 library (League) and the Google and Facebook SDKs are not part of this model. Their answers are inputs:
  - the authorization URL;
  - the random new state;
  - the token, or its exception;
  - the resource owner's data and getters.

  `getState` only delegates (src/Provider/AbstractAuthoriationProvider.php:72-75), so it is the `newState` input.
- I/O and the framework are parameters: the INI file's parsing, `$_COOKIE`, `time()`, `Auth::login`, the site preferences and `findByIdentifier`.
  - `findByIdentifier` is a map from identifier to account.
  - The administrator/upgrade check is one boolean.
- I18N texts and view rendering are left out. Flash messages, log entries and alerts are tags, and the captcha is not modelled.
- The numeric user id after the `(int)` cast is not modelled. Neither handler uses it. Whether the earlier Joomla's raw `id` is an int is modelled, because as written it decides between a result and a TypeError (see Findings).
- LegacyProviders.LegacyJoomlaUserData: models the `(int)` cast the other providers apply, not the TypeError the code as written raises; the as-written behaviour is `LegacyJoomlaUserDataAsWritten` (see Findings).
- `getRedirectUrl` and the `isLocalUrl` validation are inputs: the model receives the redirect URI and the validated URL.
- The tree that the session stores is its name, and a missing tree unsets the key. `Session::get` gives null either way.
- `$tree instanceof Tree` is always false in both handlers, because `Tree` is not imported there. So the registration page and the login-failure redirect carry no tree.
- The Joomla and Generic providers of the current tree derive from the misspelt `AbstractAuthoriationProvider`, which lacks the following:
  - `validate()`;
  - `getRequiredOptions()`;
  - `updateUserData()`;
  - the key-level constants.

  Their own lists are `getOptionNames()` and `getUserKeyInformation()`. The handler model gives them the shared interface of `AbstractAuthorizationProvider`, as the factory and the handler expect, with their own option lists and key maps. The reflection error the code as written raises for these two providers is a finding (see Findings). The missing `validate()` and `updateUserData()` are not modelled as errors, because the reflection error comes first.
- `OAuth2Client::USER_PREF_LOGIN_WITH_OAUTH2_PROVIDER` is not defined in the module class the current handler refers to (see Findings). The corrected model stores the flag under its own preference.
- The earlier root factory (`AuthorizationProviderFactory.php` at the top level) and the Github provider are not part of this model. The earlier handler receives, as a map, which providers the factory builds.
- The module's own `handle` works against a fixed generic provider. Its hard-coded credentials and URLs are not modelled.
- The WordPress constructor's `signInButtonLabel` is set through `setLoginButtonLabel` (see Findings).
- `ProviderFactory.Make`: the class to instantiate is identified by its kind. The namespace string handling of `$name_space` is not modelled.

## Findings

| source | as written | input that shows it | evidently intended | confidence | as-written member | corrected member |
|---|---|---|---|---|---|---|
| src/Provider/WordPressAuthorizationProvider.php:65-67 | the constructor calls `$this->setSignInButtonLabel(...)`, which neither the class nor its base defines | any configuration with all six WordPress options (they include `signInButtonLabel`): `make('WordPress', …)` reaches the undefined method | set the label with `setLoginButtonLabel` (src/Provider/AbstractAuthorizationProvider.php:78-81) | high, by reading; not executed | Providers.WordPressAsWrittenFails | Providers.WordPressLabelConfigured |
| src/LoginWithAuthorizationProviderAction.php:296 | `doLogin` sets the OAuth2 flag through `OAuth2Client::USER_PREF_LOGIN_WITH_OAUTH2_PROVIDER`, a constant the module class does not define; the resulting Error is not an `Exception`, so the `catch` at line 245 lets it through | any callback that passes the state check, for an account with a verified email and an approved account and with session cookies: the user is signed in, logged and time-stamped (lines 291-293), then the Error ends the request with no language, theme, account update or redirect | define the constant in the module class, so that the login ends with the redirect to the target URL | high, by reading; not executed | LoginAction.SignInAsWritten | LoginAction.SignIn |
| src/Factories/AuthorizationProviderFactory.php:124 | the factory reflects on `getRequiredOptions()` of the class found for the name, before the file check; the Joomla and Generic classes extend the misspelt `AbstractAuthoriationProvider`, and neither they nor it define that method | `make('Joomla', …)` or `make('Generic', …)`, with any configuration: a ReflectionException from line 124, and the handler calls `make` outside its `try` (line 119) | give these classes `getRequiredOptions()`, as the WordPress and Google classes have through `AbstractAuthorizationProvider` | medium: by reading, assuming both classes are declared when the factory lists the declared classes; the class loader is not part of this model; not executed | LoginAction.JoomlaGenericAsWrittenFail | LoginAction.JoomlaGenericSelected |
| Provider/JoomlaAuthoriationProvider.php:91-92 | under `declare(strict_types=1)` (line 34), the earlier Joomla passes `$user_data['id'] ?? ''` uncast to the `int` parameter of webtrees' `User` constructor; the resulting TypeError is not an `IdentityProviderException`, so the `catch` at LoginWithAuthorizationProviderAction.php:157 lets it through | an accepted callback whose resource owner has no `id` entry, or one that is not an int (a numeric string, say): the request ends uncaught instead of reaching the user-data checks | cast the id with `(int) $resourceOwner->getId()`, as the Facebook provider (Provider/FacebookAuthoriationProvider.php:84) and every provider of the current tree do | high, by reading; not executed | LegacyLoginAction.LegacyAcceptedAsWritten | LegacyLoginAction.LegacyAccepted |
