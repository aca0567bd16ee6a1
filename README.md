# Work provider registry — a Dafny model

This project models the core of a small Java service-provider registry built
after `java.nio.file.spi.FileSystemProvider`:

- **`WorkProvider`** (module `WorkProvider`): the installed providers are
  discovered once, deduplicated by scheme ignoring case (the first provider
  discovered for a scheme wins, later ones are dropped), and published as a
  snapshot that every later call returns. A `loadingProviders` flag guards
  against circular loading. `LoadInstalledProviders` is the nested scan with
  a `found` flag, proved equal to the specification function `Dedup`, and
  the lemmas about `Dedup` state what the registry promises. `Registry` is
  the class with the two static fields, `installed` and `loadingProviders`,
  plus the injected behaviour of the provider source. A ghost counter shows
  that discovery runs at most once.
- **`Works`** (module `Works`): the facade. `getWork` routes on the URI's
  scheme, or on its scheme-specific part when the URI has no scheme.
  `newWork` routes on the scheme, looks at the installed providers first and
  then, only if a class loader is given, at the providers found through it.
  Both scans stop at the first provider whose scheme equals the key ignoring
  case. When nothing matches, the call fails with
  `ProviderNotFound("Provider \"<key>\" not found")`. Delegating to the
  selected provider is represented by the `Call` value it returns: which
  provider, which of its two operations, and with which URI and properties.
- **`HelloWorkProvider`** (module `WorkExtension`): the sample provider. It
  holds a `works` map from URI to work. `newWork` inserts a work only when
  none is stored for the URI. `getWork` falls back to `newWork(uri, null)`
  on a miss.
- Shared pieces: `CaseFold` holds `equalsIgnoreCase` with ASCII case
  folding, plus its characterisation by upper-casing. `WorkTypes` holds the
  URI, provider, source-entry, error and call values. `Wrappers` holds
  Option and Result.

Two behaviours of the code worth noting:

- The not-found error of `getWork` names the routing key, so it names the
  scheme-specific part when the URI has no scheme.
- `loadingProviders` is never reset. After a discovery that fails with a
  configuration error, every later call reports circular loading rather than
  the original error.

## Model

| member | source | states |
|---|---|---|
| `CaseFold.EqualsIgnoreCase` | src/work/WorkProvider.java:114 | `equalsIgnoreCase` on schemes: same length and the same characters once ASCII case is folded; only strings of equal length can be equal, and every string equals itself |
| `CaseFold.EqualsIgnoreCaseIffSameUpper` | src/work/WorkProvider.java:114 | comparing schemes character by character ignoring case is the same as comparing their upper-cased forms |
| `CaseFold.EqualsIgnoreCaseReflexive` | src/work/WorkProvider.java:114 | every scheme equals itself ignoring case |
| `CaseFold.EqualsIgnoreCaseSymmetric` | src/work/Works.java:96 | the comparison does not depend on argument order, so `key.equalsIgnoreCase(scheme)` and `scheme.equalsIgnoreCase(key)` agree |
| `CaseFold.EqualsIgnoreCaseTransitive` | src/work/WorkProvider.java:112-121 | equality ignoring case is transitive, which is what makes "one provider per scheme" well defined |
| `CaseFold.EqualsIgnoreCaseExamples` | src/work/Works.java:96 | `HELLO` equals `hello`; `nope` and `hell` do not |
| `WorkTypes.NotFoundMessage` | src/work/Works.java:100 | the not-found message starts with `Provider "`, ends with `" not found`, and is exactly as long as both plus the key |
| `WorkTypes.NotFoundMessageNamesKey` | src/work/Works.java:100 | the not-found message is `Provider "` + key + `" not found`, and the key can be read back from it |
| `WorkTypes.NotFoundMessageInjective` | src/work/Works.java:205 | different keys give different not-found messages |
| `WorkProvider.LoadInstalledProviders` | src/work/WorkProvider.java:102-125 | the nested scan with the `found` flag builds exactly `Dedup(discovered)`, and the result holds no two schemes equal ignoring case |
| `WorkProvider.DedupNoDuplicates` | src/work/WorkProvider.java:112-121 | no two kept providers have schemes equal ignoring case |
| `WorkProvider.DedupKeepsOrder` | src/work/WorkProvider.java:103-123 | the kept providers sit at strictly increasing positions of the input (an order-preserving subsequence), so there are at most as many as were discovered |
| `WorkProvider.DedupCovers` | src/work/WorkProvider.java:109-121 | every discovered provider's scheme is represented by a kept provider, ignoring case |
| `WorkProvider.DedupSameSchemes` | src/work/WorkProvider.java:109-121 | a scheme is represented among the kept providers exactly when it is represented among the discovered ones |
| `WorkProvider.DedupFirstWins` | src/work/WorkProvider.java:113-120 | a discovered provider is kept exactly when no earlier provider has its scheme ignoring case; later duplicates are dropped |
| `WorkProvider.DedupOfDistinct` | src/work/WorkProvider.java:109-123 | a list without duplicate schemes passes through unchanged |
| `WorkProvider.DedupIdempotent` | src/work/WorkProvider.java:109-123 | deduplicating the result again returns it unchanged |
| `WorkProvider.DedupExample` | src/work/WorkProvider.java:113-120 | for discovered schemes `a`, `A`, `b` the result is the first `a` instance followed by `b` |
| `WorkProvider.Registry.constructor` | src/work/WorkProvider.java:70-74 | the snapshot starts out `null` and the loading flag clear |
| `WorkProvider.Registry.InstalledProviders` | src/work/WorkProvider.java:136-159 | with a published snapshot, returns it and changes nothing. With none and the flag set, fails with the circular-loading error. Otherwise sets the flag, runs discovery once, and publishes `Dedup` of what it found or propagates its error; a provider whose construction re-enters the registry gets the circular-loading error |
| `WorkProvider.OutcomeHasNoDuplicates` | src/work/WorkProvider.java:136-159 | whatever snapshot the registry returns is free of duplicate schemes and no longer than the discovered list |
| `WorkProvider.CallTwice` | src/work/WorkProvider.java:136-159 | after a successful call the next returns the same snapshot without a second discovery; after a failed one the flag stays set and the next reports circular loading |
| `Works.RoutingKey` | src/work/Works.java:91-94 | the routing key of `getWork` is the URI's scheme when it has one, and its scheme-specific part otherwise |
| `Works.FirstMatch` | src/work/Works.java:95-99 | the position returned matches the key ignoring case and no earlier provider does; `None` exactly when no provider matches |
| `Works.FindInstalled` | src/work/Works.java:95-99 | the for-each scan with early return finds exactly `FirstMatch` |
| `Works.FirstStop` | src/work/Works.java:198-202 | the scan of a supplementary source stops at the first malformed entry or matching provider; `None` exactly when neither occurs |
| `Works.ScanSource` | src/work/Works.java:196-203 | the loop over the supplementary source finds exactly `FirstStop` |
| `Works.ResolveGet` | src/work/Works.java:90-101 | fails exactly when no installed provider matches the routing key, with `ProviderNotFound` naming the key; otherwise delegates `getWork(uri)` to the first matching provider in snapshot order |
| `Works.ResolveNew` | src/work/Works.java:182-206 | an installed match always wins; the supplementary providers are used only when none matches; every delegate's scheme matches the scheme; when no installed provider matches and a loader is given, the first entry where the scan stops decides: a malformed declaration fails with `ServiceConfiguration` carrying its message, a matching provider is delegated to; a supplementary delegate is always such a first stop; it fails with `ProviderNotFound` naming the scheme exactly when neither tier matches |
| `Works.GetWork` | src/work/Works.java:90-101 | propagates a registry failure, otherwise behaves as `ResolveGet` on the snapshot; afterwards the snapshot is what one `installedProviders` call publishes and the loading flag is set |
| `Works.NewWorkWithLoader` | src/work/Works.java:182-206 | propagates a registry failure, otherwise behaves as `ResolveNew`; supplementary providers never enter the snapshot, and the loading flag is set afterwards |
| `Works.NewWork` | src/work/Works.java:142-146 | behaves exactly as `NewWorkWithLoader` with no loader |
| `Works.NewWorkAgreesWithGetWork` | src/work/Works.java:182-192 | without a loader, `newWork` on a URI with a scheme selects the provider `getWork` selects, and fails with the same error when there is none |
| `Works.AbsentSchemeFallback` | src/work/Works.java:91-94 | a URI without a scheme whose scheme-specific part is `k` resolves like a URI with scheme `k` |
| `Works.FirstMatchIgnoresKeyCase` | src/work/Works.java:95-98 | keys equal ignoring case select the same provider |
| `Works.CaseInsensitiveDispatch` | src/work/Works.java:95-98 | scheme `HELLO` is delegated to the installed provider with scheme `hello`, skipping a provider with another scheme |
| `Works.NotFoundNamesScheme` | src/work/Works.java:100 | scheme `nope` with only a `hello` provider installed fails with `Provider "nope" not found` |
| `WorkExtension.HelloWorkProvider.constructor` | src/workExtension/HelloWorkProvider.java:15 | the provider starts with an empty `works` map |
| `WorkExtension.HelloWorkProvider.GetScheme` | src/workExtension/HelloWorkProvider.java:17-20 | the scheme is always `hello` |
| `WorkExtension.HelloWorkProvider.NewWork` | src/workExtension/HelloWorkProvider.java:22-32 | for a stored URI, returns its work and leaves the map unchanged; otherwise adds exactly one entry, from the URI to a fresh work, and returns that work. Afterwards the URI is in the map, `env` plays no part, and no two URIs share a work |
| `WorkExtension.HelloWorkProvider.GetWork` | src/workExtension/HelloWorkProvider.java:34-42 | for a stored URI, returns its work without changing the map; otherwise behaves exactly like `newWork(uri, null)` |
| `WorkExtension.NewWorkTwice` | src/workExtension/HelloWorkProvider.java:23-31 | a second `newWork` with the same URI returns the identical work and leaves the map as the first call left it |
| `WorkExtension.NewThenGet` | src/workExtension/HelloWorkProvider.java:23-42 | `newWork(uri, env)` followed by `getWork(uri)` returns the identical work |

## Left out

- Provider discovery through `ServiceLoader` and class loaders is replaced
  by values. The installed providers come from the registry's `discovery`
  constant: a completed list, a configuration error, or a provider whose
  constructor calls back into the registry. The supplementary providers of
  `newWork` are a sequence of entries, each a provider or a malformed
  declaration, scanned lazily as `ServiceLoader` iterates.
- `WorkProvider.Registry.InstalledProviders`: when a provider's constructor
  re-enters the registry, the nested circular-loading error reaches the
  caller as it is. `ServiceLoader`'s wrapping of constructor failures in a
  `ServiceConfigurationError` is not modelled.
- The lock, the `volatile` field and the double-checked publication exist
  only for thread safety. The model is sequential.
- `checkPermission`, `SecurityManager` and `AccessController.doPrivileged`
  are JVM security plumbing with no behaviour to model.
- `java.net.URI` parsing is not modelled: a URI is an optional scheme plus a
  scheme-specific part. Map keys compare structurally, so the case-insensitive
  scheme and host comparison of `URI.equals` is not modelled.
- `String.equalsIgnoreCase` is modelled with ASCII case folding only. Full
  Unicode case mapping is not modelled.
- `Works.NewWorkWithLoader`, `Works.NewWork` and `Works.ResolveNew` require
  the URI to have a scheme. In the source a missing scheme raises a
  `NullPointerException` at the first comparison, or gives
  `Provider "null" not found` when there is no provider to compare against;
  neither outcome is modelled.
- Delegation stops at the selected provider: the facade returns the call it
  would make. A provider's own `getWork`/`newWork` are abstract in the
  registry, so their results and their argument errors (`IllegalArgumentException`)
  are not modelled. The sample provider models one such implementation.
- `Work` (`execute`, `provider`) has no behaviour; a `HelloWork` is an
  object with identity only.
- `ProviderNotFoundException` is the `ProviderNotFound` error value carrying
  its message.
- `Collections.unmodifiableList` is implied by the immutable `seq`.
- `Main` (the entry point that calls `getWork` and `execute`) is not part of
  this model.
