/**
 * The values the registry and the facade exchange: URIs, provider descriptors,
 * the entries a provider source yields, the errors, and the call the facade
 * delegates to the provider it selects.
 */
module WorkTypes {
  import opened Wrappers

  /**
   * An opaque URI: its optional scheme and its scheme-specific part. Nothing
   * else of a URI is inspected by the registry or the facade.
   */
  datatype Uri = Uri(scheme: Option<string>, ssp: string)

  /** The provider-specific properties passed to `newWork`; `None` stands for `null`. */
  type Env = Option<map<string, string>>

  /**
   * A provider instance: `id` stands for the object's identity (two instances
   * that report the same scheme are still different providers), `scheme` is
   * what its `getScheme` returns.
   */
  datatype Provider = Provider(id: nat, scheme: string)

  /**
   * What one step of a provider source yields: a constructed provider, or a
   * malformed provider declaration (a `ServiceConfigurationError`).
   */
  datatype Entry = Instance(provider: Provider) | Malformed(message: string)

  datatype Error =
    | ProviderNotFound(message: string)      // ProviderNotFoundException
    | ServiceConfiguration(message: string)  // ServiceConfigurationError from the provider source
    | Fatal(message: string)                 // java.lang.Error

  /** The error raised when installed providers are loaded re-entrantly. */
  const CircularLoading: Error := Fatal("Circular loading of installed providers detected")

  /** The call the facade hands to the provider it selected. */
  datatype Call =
    | GetWorkOn(provider: Provider, uri: Uri)
    | NewWorkOn(provider: Provider, uri: Uri, env: Env)

  const NotFoundPrefix: string := "Provider \""
  const NotFoundSuffix: string := "\" not found"

  /** The message of the not-found error for routing key `key`. */
  function NotFoundMessage(key: string): (message: string)
    ensures |message| == |NotFoundPrefix| + |key| + |NotFoundSuffix|
    ensures message[..|NotFoundPrefix|] == NotFoundPrefix
    ensures message[|message| - |NotFoundSuffix|..] == NotFoundSuffix
  {
    NotFoundPrefix + key + NotFoundSuffix
  }

  /** The message names the key: it can be read back, so different keys give different messages. */
  lemma NotFoundMessageNamesKey(key: string)
    ensures var m := NotFoundMessage(key);
      m[|NotFoundPrefix|..|m| - |NotFoundSuffix|] == key
  {
  }

  lemma NotFoundMessageInjective(a: string, b: string)
    requires NotFoundMessage(a) == NotFoundMessage(b)
    ensures a == b
  {
    NotFoundMessageNamesKey(a);
    NotFoundMessageNamesKey(b);
  }
}
