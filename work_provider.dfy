/**
 * The provider registry of `WorkProvider`: first-wins deduplication of the
 * discovered providers by case-insensitive scheme, and the one-shot snapshot
 * published by `installedProviders`.
 */
module WorkProvider {
  import opened Wrappers
  import opened CaseFold
  import opened WorkTypes

  /** Some provider of `list` has a scheme equal to `scheme` ignoring case. */
  predicate HasScheme(list: seq<Provider>, scheme: string)
  {
    exists k | 0 <= k < |list| :: EqualsIgnoreCase(list[k].scheme, scheme)
  }

  /** No two providers of `list` have schemes equal ignoring case. */
  ghost predicate NoDuplicateSchemes(list: seq<Provider>)
  {
    forall i, j :: 0 <= i < j < |list| ==> !EqualsIgnoreCase(list[i].scheme, list[j].scheme)
  }

  /**
   * The providers kept from `discovered`: each is appended unless a provider
   * already kept has its scheme, ignoring case.
   */
  function Dedup(discovered: seq<Provider>): (kept: seq<Provider>)
  {
    if |discovered| == 0 then []
    else
      var kept := Dedup(discovered[..|discovered| - 1]);
      var p := discovered[|discovered| - 1];
      if HasScheme(kept, p.scheme) then kept else kept + [p]
  }

  /** The positions in `discovered` of the providers `Dedup` keeps, in order. */
  ghost function KeptIndices(discovered: seq<Provider>): (positions: seq<nat>)
  {
    if |discovered| == 0 then []
    else
      var kept := Dedup(discovered[..|discovered| - 1]);
      var p := discovered[|discovered| - 1];
      if HasScheme(kept, p.scheme) then KeptIndices(discovered[..|discovered| - 1])
      else KeptIndices(discovered[..|discovered| - 1]) + [|discovered| - 1]
  }

  /** The provider at `i` is the first one of `discovered` with its scheme, ignoring case. */
  ghost predicate FirstOfItsScheme(discovered: seq<Provider>, i: nat)
    requires i < |discovered|
  {
    forall j :: 0 <= j < i ==> !EqualsIgnoreCase(discovered[j].scheme, discovered[i].scheme)
  }

  /**
   * The result is an order-preserving subsequence of the input: the kept
   * providers sit at strictly increasing positions of `discovered`.
   */
  lemma {:induction false} DedupKeepsOrder(discovered: seq<Provider>)
    ensures var ks := KeptIndices(discovered);
      && |ks| == |Dedup(discovered)| <= |discovered|
      && (forall k :: 0 <= k < |ks| ==> ks[k] < |discovered| && Dedup(discovered)[k] == discovered[ks[k]])
      && (forall k, l :: 0 <= k < l < |ks| ==> ks[k] < ks[l])
  {
    if |discovered| > 0 {
      var init := discovered[..|discovered| - 1];
      DedupKeepsOrder(init);
      forall k | 0 <= k < |KeptIndices(init)|
        ensures init[KeptIndices(init)[k]] == discovered[KeptIndices(init)[k]]
      {
      }
    }
  }

  /** No two kept providers share a scheme, ignoring case. */
  lemma {:induction false} DedupNoDuplicates(discovered: seq<Provider>)
    ensures NoDuplicateSchemes(Dedup(discovered))
  {
    if |discovered| > 0 {
      DedupNoDuplicates(discovered[..|discovered| - 1]);
    }
  }

  /** The kept schemes are exactly the discovered schemes, up to case. */
  lemma {:induction false} DedupSameSchemes(discovered: seq<Provider>, scheme: string)
    ensures HasScheme(Dedup(discovered), scheme) <==> HasScheme(discovered, scheme)
  {
    DedupKeepsOrder(discovered);
    var d := Dedup(discovered);
    var ks := KeptIndices(discovered);
    if HasScheme(d, scheme) {
      var k :| 0 <= k < |d| && EqualsIgnoreCase(d[k].scheme, scheme);
      assert discovered[ks[k]] == d[k];
    }
    if HasScheme(discovered, scheme) {
      var i :| 0 <= i < |discovered| && EqualsIgnoreCase(discovered[i].scheme, scheme);
      DedupCovers(discovered, i);
      var k :| 0 <= k < |d| && EqualsIgnoreCase(d[k].scheme, discovered[i].scheme);
      EqualsIgnoreCaseTransitive(d[k].scheme, discovered[i].scheme, scheme);
    }
  }

  /** Every discovered provider's scheme is represented by a kept provider. */
  lemma {:induction false} DedupCovers(discovered: seq<Provider>, i: nat)
    requires i < |discovered|
    ensures HasScheme(Dedup(discovered), discovered[i].scheme)
  {
    var n := |discovered|;
    var init := discovered[..n - 1];
    var kept := Dedup(init);
    var p := discovered[n - 1];
    if i < n - 1 {
      DedupCovers(init, i);
      assert init[i] == discovered[i];
      var k :| 0 <= k < |kept| && EqualsIgnoreCase(kept[k].scheme, discovered[i].scheme);
      assert Dedup(discovered)[k] == kept[k];
    } else if !HasScheme(kept, p.scheme) {
      EqualsIgnoreCaseReflexive(p.scheme);
      assert Dedup(discovered)[|kept|] == p;
    }
  }

  /**
   * First occurrence wins: the provider at position `i` is kept exactly when
   * no earlier provider has its scheme, ignoring case.
   */
  lemma {:induction false} DedupFirstWins(discovered: seq<Provider>, i: nat)
    requires i < |discovered|
    ensures i in KeptIndices(discovered) <==> FirstOfItsScheme(discovered, i)
  {
    var n := |discovered|;
    var init := discovered[..n - 1];
    var p := discovered[n - 1];
    if i < n - 1 {
      DedupFirstWins(init, i);
      assert forall j :: 0 <= j <= i ==> init[j] == discovered[j];
    } else {
      DedupSameSchemes(init, p.scheme);
      if HasScheme(init, p.scheme) {
        var j :| 0 <= j < |init| && EqualsIgnoreCase(init[j].scheme, p.scheme);
        assert discovered[j] == init[j];
        DedupKeepsOrder(init);
      } else {
        forall j | 0 <= j < i
          ensures !EqualsIgnoreCase(discovered[j].scheme, discovered[i].scheme)
        {
          assert init[j] == discovered[j];
        }
      }
    }
  }

  /** A list without duplicate schemes is its own deduplication. */
  lemma {:induction false} DedupOfDistinct(list: seq<Provider>)
    requires NoDuplicateSchemes(list)
    ensures Dedup(list) == list
  {
    if |list| > 0 {
      var init := list[..|list| - 1];
      assert NoDuplicateSchemes(init) by {
        assert forall i :: 0 <= i < |init| ==> init[i] == list[i];
      }
      DedupOfDistinct(init);
      var p := list[|list| - 1];
      assert !HasScheme(init, p.scheme) by {
        assert forall k :: 0 <= k < |init| ==> init[k] == list[k];
      }
      assert init + [p] == list;
    }
  }

  /** Deduplicating an already deduplicated list changes nothing. */
  lemma DedupIdempotent(discovered: seq<Provider>)
    ensures Dedup(Dedup(discovered)) == Dedup(discovered)
  {
    DedupNoDuplicates(discovered);
    DedupOfDistinct(Dedup(discovered));
  }

  /** Discovered schemes `a`, `A`, `b`: the first `a` instance and `b` are kept, `A` is discarded. */
  lemma DedupExample()
    ensures Dedup([Provider(0, "a"), Provider(1, "A"), Provider(2, "b")])
         == [Provider(0, "a"), Provider(2, "b")]
  {
    var a, a', b := Provider(0, "a"), Provider(1, "A"), Provider(2, "b");
    assert [a, a', b][..2] == [a, a'];
    assert [a, a'][..1] == [a];
    assert [a][..0] == [];
    assert Dedup([a]) == [a];
    assert EqualsIgnoreCase("a", "A") by {
      assert "a"[1..] == "" && "A"[1..] == "";
    }
    assert [a][0].scheme == "a";
    assert HasScheme([a], "A");
    assert Dedup([a, a']) == [a];
    assert !EqualsIgnoreCase("a", "b");
    assert !HasScheme([a], "b");
  }

  /**
   * `loadInstalledProviders` after the provider source has yielded
   * `discovered`: each provider is added unless a provider already in the
   * list has its scheme, ignoring case.
   */
  method LoadInstalledProviders(discovered: seq<Provider>) returns (list: seq<Provider>)
    ensures list == Dedup(discovered)
    ensures NoDuplicateSchemes(list)
  {
    list := [];
    var i := 0;
    while i < |discovered|
      invariant 0 <= i <= |discovered|
      invariant list == Dedup(discovered[..i])
    {
      var provider := discovered[i];
      var scheme := provider.scheme;
      var found := false;
      var j := 0;
      while j < |list|
        invariant 0 <= j <= |list|
        invariant found ==> HasScheme(list, scheme)
        invariant !found ==> forall k :: 0 <= k < j ==> !EqualsIgnoreCase(list[k].scheme, scheme)
      {
        if EqualsIgnoreCase(list[j].scheme, scheme) {
          found := true;
          break;
        }
        j := j + 1;
      }
      if !found {
        list := list + [provider];
      }
      assert discovered[..i + 1][..i] == discovered[..i];
      i := i + 1;
    }
    assert discovered[..i] == discovered;
    DedupNoDuplicates(discovered);
  }

  /**
   * What the provider source does when the installed providers are loaded:
   * it yields `providers`, or reports a malformed provider declaration, or
   * constructs a provider whose constructor itself asks for the installed
   * providers.
   */
  datatype Discovery =
    | Completed(providers: seq<Provider>)
    | ConfigurationError(message: string)
    | ReentrantConstruction

  /**
   * The static state of `WorkProvider`: the published snapshot (`None` while
   * it is `null`) and the `loadingProviders` flag. `discovery` is what the
   * host's provider source does; `discoveryRuns` counts how often it was run.
   */
  class Registry {
    const discovery: Discovery
    var installed: Option<seq<Provider>>
    var loadingProviders: bool
    ghost var discoveryRuns: nat

    ghost predicate Valid()
      reads this
    {
      && discoveryRuns == (if loadingProviders then 1 else 0)
      && (installed.Some? ==>
            && loadingProviders
            && discovery.Completed?
            && installed.value == Dedup(discovery.providers)
            && NoDuplicateSchemes(installed.value))
    }

    constructor (discovery: Discovery)
      ensures Valid()
      ensures this.discovery == discovery && installed == None && !loadingProviders
    {
      this.discovery := discovery;
      installed := None;
      loadingProviders := false;
      discoveryRuns := 0;
    }

    /** The result a call to `InstalledProviders` gives in the current state. */
    function Outcome(): (r: Result<seq<Provider>, Error>)
      reads this
    {
      if installed.Some? then Success(installed.value)
      else if loadingProviders then Failure(CircularLoading)
      else match discovery
        case Completed(providers) => Success(Dedup(providers))
        case ConfigurationError(message) => Failure(ServiceConfiguration(message))
        case ReentrantConstruction => Failure(CircularLoading)
    }

    /** The snapshot a call to `InstalledProviders` leaves published, from the current state. */
    function SnapshotAfterCall(): (snapshot: Option<seq<Provider>>)
      reads this
    {
      if installed.Some? then installed
      else if !loadingProviders && discovery.Completed? then Some(Dedup(discovery.providers))
      else None
    }

    /**
     * `installedProviders`: returns the published snapshot; otherwise fails
     * when loading is already under way, and else sets the flag, runs
     * discovery once and publishes its deduplicated result.
     */
    method InstalledProviders() returns (r: Result<seq<Provider>, Error>)
      requires Valid()
      modifies this
      decreases if loadingProviders then 0 else 1
      ensures Valid()
      ensures r == old(Outcome())
      ensures installed == old(SnapshotAfterCall())
      ensures loadingProviders && discoveryRuns == 1
      ensures old(installed).Some? ==> discoveryRuns == old(discoveryRuns)
    {
      if installed.None? {
        if loadingProviders {
          return Failure(CircularLoading);
        }
        loadingProviders := true;
        discoveryRuns := discoveryRuns + 1;
        match discovery {
          case Completed(providers) =>
            var list := LoadInstalledProviders(providers);
            installed := Some(list);
          case ConfigurationError(message) =>
            return Failure(ServiceConfiguration(message));
          case ReentrantConstruction =>
            // the provider's constructor calls back into the registry
            r := InstalledProviders();
            return;
        }
      }
      r := Success(installed.value);
    }
  }

  /** Whatever the registry returns as its snapshot holds no two providers with the same scheme. */
  lemma OutcomeHasNoDuplicates(reg: Registry)
    requires reg.Valid()
    ensures reg.Outcome().Success? ==> NoDuplicateSchemes(reg.Outcome().value)
    ensures reg.Outcome().Success? ==> reg.discovery.Completed? && |reg.Outcome().value| <= |reg.discovery.providers|
  {
    if reg.discovery.Completed? {
      DedupNoDuplicates(reg.discovery.providers);
      DedupKeepsOrder(reg.discovery.providers);
    }
  }

  /**
   * Two calls in a row: once the first has published a snapshot the second
   * returns the same one without running discovery again; once the first has
   * failed, the flag stays set and the second reports circular loading.
   */
  method CallTwice(reg: Registry) returns (first: Result<seq<Provider>, Error>, second: Result<seq<Provider>, Error>)
    requires reg.Valid()
    modifies reg
    ensures reg.Valid() && reg.discoveryRuns == 1
    ensures first.Success? ==> second == first && reg.installed == Some(first.value)
    ensures first.Failure? ==> second == Failure(CircularLoading) && reg.installed == None
  {
    first := reg.InstalledProviders();
    second := reg.InstalledProviders();
  }
}
