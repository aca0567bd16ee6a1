/**
 * The `Works` facade: picks the routing key of a URI, finds the first
 * provider whose scheme matches it ignoring case, and delegates to it, or
 * fails with the not-found error naming the key.
 */
module Works {
  import opened Wrappers
  import opened CaseFold
  import opened WorkTypes
  import opened WorkProvider

  /** The key `getWork` routes on: the scheme, or the scheme-specific part when there is none. */
  function RoutingKey(uri: Uri): (key: string)
    ensures uri.scheme.Some? ==> key == uri.scheme.value
    ensures uri.scheme.None? ==> key == uri.ssp
  {
    if uri.scheme.Some? then uri.scheme.value else uri.ssp
  }

  /** The position of the first provider whose scheme equals `key` ignoring case, if any. */
  function FirstMatch(providers: seq<Provider>, key: string): (r: Option<nat>)
    ensures r.Some? ==> r.value < |providers| && EqualsIgnoreCase(key, providers[r.value].scheme)
    ensures r.Some? ==> forall j :: 0 <= j < r.value ==> !EqualsIgnoreCase(key, providers[j].scheme)
    ensures r.None? <==> forall j :: 0 <= j < |providers| ==> !EqualsIgnoreCase(key, providers[j].scheme)
  {
    if |providers| == 0 then None
    else if EqualsIgnoreCase(key, providers[0].scheme) then Some(0)
    else match FirstMatch(providers[1..], key)
      case None => None
      case Some(i) => Some(i + 1)
  }

  /** The for-each scan over the installed providers, leaving at the first match. */
  method FindInstalled(installed: seq<Provider>, key: string) returns (r: Option<nat>)
    ensures r == FirstMatch(installed, key)
  {
    var i := 0;
    while i < |installed|
      invariant 0 <= i <= |installed|
      invariant forall j :: 0 <= j < i ==> !EqualsIgnoreCase(key, installed[j].scheme)
    {
      if EqualsIgnoreCase(key, installed[i].scheme) {
        return Some(i);
      }
      i := i + 1;
    }
    return None;
  }

  /** Iterating a provider source stops at a malformed entry or at a provider matching `key`. */
  predicate Stops(entry: Entry, key: string)
  {
    entry.Malformed? || EqualsIgnoreCase(key, entry.provider.scheme)
  }

  /** The position where a scan of a provider source for `key` stops, if it does. */
  function FirstStop(entries: seq<Entry>, key: string): (r: Option<nat>)
    ensures r.Some? ==> r.value < |entries| && Stops(entries[r.value], key)
    ensures r.Some? ==> forall j :: 0 <= j < r.value ==> !Stops(entries[j], key)
    ensures r.None? <==> forall j :: 0 <= j < |entries| ==> !Stops(entries[j], key)
  {
    if |entries| == 0 then None
    else if Stops(entries[0], key) then Some(0)
    else match FirstStop(entries[1..], key)
      case None => None
      case Some(i) => Some(i + 1)
  }

  /** The for-each scan over the providers of a supplementary source, leaving at the first match. */
  method ScanSource(entries: seq<Entry>, key: string) returns (r: Option<nat>)
    ensures r == FirstStop(entries, key)
  {
    var i := 0;
    while i < |entries|
      invariant 0 <= i <= |entries|
      invariant forall j :: 0 <= j < i ==> !Stops(entries[j], key)
    {
      if entries[i].Malformed? {
        return Some(i);
      }
      if EqualsIgnoreCase(key, entries[i].provider.scheme) {
        return Some(i);
      }
      i := i + 1;
    }
    return None;
  }

  /** What `getWork(uri)` does once it holds the installed snapshot. */
  function ResolveGet(installed: seq<Provider>, uri: Uri): (r: Result<Call, Error>)
    ensures r.Failure? <==> forall j :: 0 <= j < |installed| ==> !EqualsIgnoreCase(RoutingKey(uri), installed[j].scheme)
    ensures r.Failure? ==> r.error == ProviderNotFound(NotFoundMessage(RoutingKey(uri)))
    ensures r.Success? ==>
      exists i :: (&& 0 <= i < |installed|
                   && r.value == GetWorkOn(installed[i], uri)
                   && EqualsIgnoreCase(RoutingKey(uri), installed[i].scheme)
                   && forall j :: 0 <= j < i ==> !EqualsIgnoreCase(RoutingKey(uri), installed[j].scheme))
  {
    var key := RoutingKey(uri);
    match FirstMatch(installed, key)
    case Some(i) => Success(GetWorkOn(installed[i], uri))
    case None => Failure(ProviderNotFound(NotFoundMessage(key)))
  }

  /**
   * What `newWork(uri, env, loader)` does once it holds the installed
   * snapshot; `loader` is `None` for a `null` class loader, otherwise what the
   * providers found through it yield.
   */
  function ResolveNew(installed: seq<Provider>, uri: Uri, env: Env, loader: Option<seq<Entry>>): (r: Result<Call, Error>)
    requires uri.scheme.Some?
    ensures r.Success? ==> r.value.NewWorkOn? && r.value.uri == uri && r.value.env == env
    ensures r.Success? ==> EqualsIgnoreCase(uri.scheme.value, r.value.provider.scheme)
    ensures FirstMatch(installed, uri.scheme.value).Some? ==>
      r == Success(NewWorkOn(installed[FirstMatch(installed, uri.scheme.value).value], uri, env))
    ensures r.Failure? ==> forall j :: 0 <= j < |installed| ==> !EqualsIgnoreCase(uri.scheme.value, installed[j].scheme)
    ensures loader.None? ==> (r.Failure? <==> FirstMatch(installed, uri.scheme.value).None?)
    ensures r.Failure? && (loader.None? || r.error.ProviderNotFound?) ==>
      r.error == ProviderNotFound(NotFoundMessage(uri.scheme.value))
    ensures r.Success? && r.value.provider !in installed ==>
      && loader.Some?
      && exists i :: (&& 0 <= i < |loader.value|
                      && loader.value[i] == Instance(r.value.provider)
                      && forall j :: 0 <= j < i ==> !Stops(loader.value[j], uri.scheme.value))
    ensures r == Failure(ProviderNotFound(NotFoundMessage(uri.scheme.value))) <==>
      && FirstMatch(installed, uri.scheme.value).None?
      && (loader.None? || forall j :: 0 <= j < |loader.value| ==> !Stops(loader.value[j], uri.scheme.value))
    ensures FirstMatch(installed, uri.scheme.value).None? && loader.Some? ==>
      forall i :: (&& 0 <= i < |loader.value|
                   && Stops(loader.value[i], uri.scheme.value)
                   && (forall j :: 0 <= j < i ==> !Stops(loader.value[j], uri.scheme.value)))
        ==> r == (if loader.value[i].Malformed? then Failure(ServiceConfiguration(loader.value[i].message))
                  else Success(NewWorkOn(loader.value[i].provider, uri, env)))
  {
    var key := uri.scheme.value;
    match FirstMatch(installed, key)
    case Some(i) => Success(NewWorkOn(installed[i], uri, env))
    case None =>
      if loader.None? then Failure(ProviderNotFound(NotFoundMessage(key)))
      else match FirstStop(loader.value, key)
        case None => Failure(ProviderNotFound(NotFoundMessage(key)))
        case Some(i) =>
          match loader.value[i]
          case Malformed(message) => Failure(ServiceConfiguration(message))
          case Instance(provider) => Success(NewWorkOn(provider, uri, env))
  }

  /**
   * `Works.getWork(uri)`: loads the installed providers (which may fail),
   * routes on the scheme or else the scheme-specific part, and delegates
   * `getWork(uri)` to the first matching provider.
   */
  method GetWork(registry: Registry, uri: Uri) returns (r: Result<Call, Error>)
    requires registry.Valid()
    modifies registry
    ensures registry.Valid()
    ensures registry.installed == old(registry.SnapshotAfterCall())
    ensures old(registry.Outcome()).Failure? ==> r == Failure(old(registry.Outcome()).error)
    ensures registry.loadingProviders
    ensures old(registry.Outcome()).Success? ==> r == ResolveGet(old(registry.Outcome()).value, uri)
  {
    var scheme: string;
    if uri.scheme.None? {
      scheme := uri.ssp;
    } else {
      scheme := uri.scheme.value;
    }
    var installed := registry.InstalledProviders();
    if installed.Failure? {
      return Failure(installed.error);
    }
    var found := FindInstalled(installed.value, scheme);
    if found.Some? {
      return Success(GetWorkOn(installed.value[found.value], uri));
    }
    return Failure(ProviderNotFound(NotFoundMessage(scheme)));
  }

  /**
   * `Works.newWork(uri, env, loader)`: the installed providers first, then,
   * only when none matches and a loader is given, the providers found through
   * it; those are never added to the installed snapshot.
   */
  method NewWorkWithLoader(registry: Registry, uri: Uri, env: Env, loader: Option<seq<Entry>>) returns (r: Result<Call, Error>)
    requires uri.scheme.Some?
    requires registry.Valid()
    modifies registry
    ensures registry.Valid()
    ensures registry.installed == old(registry.SnapshotAfterCall())
    ensures old(registry.Outcome()).Failure? ==> r == Failure(old(registry.Outcome()).error)
    ensures registry.loadingProviders
    ensures old(registry.Outcome()).Success? ==> r == ResolveNew(old(registry.Outcome()).value, uri, env, loader)
  {
    var scheme := uri.scheme.value;
    var installed := registry.InstalledProviders();
    if installed.Failure? {
      return Failure(installed.error);
    }
    var found := FindInstalled(installed.value, scheme);
    if found.Some? {
      return Success(NewWorkOn(installed.value[found.value], uri, env));
    }
    if loader.Some? {
      var stop := ScanSource(loader.value, scheme);
      if stop.Some? {
        match loader.value[stop.value] {
          case Malformed(message) =>
            return Failure(ServiceConfiguration(message));
          case Instance(provider) =>
            return Success(NewWorkOn(provider, uri, env));
        }
      }
    }
    return Failure(ProviderNotFound(NotFoundMessage(scheme)));
  }

  /** `Works.newWork(uri, env)`: exactly `newWork(uri, env, null)`. */
  method NewWork(registry: Registry, uri: Uri, env: Env) returns (r: Result<Call, Error>)
    requires uri.scheme.Some?
    requires registry.Valid()
    modifies registry
    ensures registry.Valid()
    ensures registry.installed == old(registry.SnapshotAfterCall())
    ensures old(registry.Outcome()).Failure? ==> r == Failure(old(registry.Outcome()).error)
    ensures registry.loadingProviders
    ensures old(registry.Outcome()).Success? ==> r == ResolveNew(old(registry.Outcome()).value, uri, env, None)
  {
    r := NewWorkWithLoader(registry, uri, env, None);
  }

  /** Without a loader, `newWork` picks the provider `getWork` picks for a URI with a scheme. */
  lemma NewWorkAgreesWithGetWork(installed: seq<Provider>, uri: Uri, env: Env)
    requires uri.scheme.Some?
    ensures ResolveNew(installed, uri, env, None).Success? <==> ResolveGet(installed, uri).Success?
    ensures ResolveGet(installed, uri).Success? ==>
      ResolveNew(installed, uri, env, None).value.provider == ResolveGet(installed, uri).value.provider
    ensures ResolveGet(installed, uri).Failure? ==>
      ResolveNew(installed, uri, env, None).error == ResolveGet(installed, uri).error
  {
  }

  /** A URI with no scheme routes on its scheme-specific part, as if that were its scheme. */
  lemma AbsentSchemeFallback(installed: seq<Provider>, key: string, ssp: string)
    ensures ResolveGet(installed, Uri(None, key)).Success? <==> ResolveGet(installed, Uri(Some(key), ssp)).Success?
    ensures ResolveGet(installed, Uri(None, key)).Success? ==>
      ResolveGet(installed, Uri(None, key)).value.provider == ResolveGet(installed, Uri(Some(key), ssp)).value.provider
    ensures ResolveGet(installed, Uri(None, key)).Failure? ==>
      ResolveGet(installed, Uri(None, key)).error == ResolveGet(installed, Uri(Some(key), ssp)).error
  {
  }

  /** Matching ignores case: among providers, which one is picked depends only on the key's case-folded form. */
  lemma {:induction false} FirstMatchIgnoresKeyCase(installed: seq<Provider>, key: string, key': string)
    requires EqualsIgnoreCase(key, key')
    ensures FirstMatch(installed, key) == FirstMatch(installed, key')
  {
    if |installed| > 0 {
      EqualsIgnoreCaseIffSameUpper(key, key');
      EqualsIgnoreCaseIffSameUpper(key, installed[0].scheme);
      EqualsIgnoreCaseIffSameUpper(key', installed[0].scheme);
      FirstMatchIgnoresKeyCase(installed[1..], key, key');
    }
  }

  /** Scheme `HELLO` is dispatched to the installed provider with scheme `hello`. */
  lemma CaseInsensitiveDispatch(other: Provider, uri: Uri)
    requires other.scheme == "other"
    requires uri.scheme == Some("HELLO")
    ensures ResolveGet([other, Provider(7, "hello")], uri) == Success(GetWorkOn(Provider(7, "hello"), uri))
  {
    var hello := Provider(7, "hello");
    EqualsIgnoreCaseExamples();
    assert !EqualsIgnoreCase("HELLO", "other") by {
      assert ToUpperAscii('o') == 'O';
    }
    assert [other, hello][1..] == [hello];
    assert FirstMatch([hello], "HELLO") == Some(0);
    assert FirstMatch([other, hello], "HELLO") == Some(1);
  }

  /** Scheme `nope`, no provider for it: the not-found error names `nope`. */
  lemma NotFoundNamesScheme(uri: Uri)
    requires uri.scheme == Some("nope")
    ensures ResolveGet([Provider(7, "hello")], uri) == Failure(ProviderNotFound("Provider \"nope\" not found"))
  {
    EqualsIgnoreCaseExamples();
    assert FirstMatch([Provider(7, "hello")], "nope") == None;
    assert NotFoundMessage("nope") == "Provider \"nope\" not found";
  }
}
