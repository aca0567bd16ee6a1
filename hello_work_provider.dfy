/**
 * The sample "hello" provider: a map from URI to work with insert-if-absent
 * creation, and retrieval that falls back to creation on a miss.
 */
module WorkExtension {
  import opened Wrappers
  import opened WorkTypes

  /** A work created by the hello provider; only its identity matters here. */
  class HelloWork {
    constructor ()
    {
    }
  }

  class HelloWorkProvider {
    var works: map<Uri, HelloWork>

    /** Every work in the map was created for exactly one URI. */
    ghost predicate Valid()
      reads this
    {
      forall u, v :: u in works && v in works && u != v ==> works[u] != works[v]
    }

    constructor ()
      ensures Valid() && works == map[]
    {
      works := map[];
    }

    /** The scheme this provider is identified by. */
    function GetScheme(): (scheme: string)
      ensures scheme == "hello"
    {
      "hello"
    }

    /**
     * `newWork(uri, env)`: the work already stored for `uri`, or else a new
     * work stored for `uri`; `env` is not consulted.
     */
    method NewWork(uri: Uri, env: Env) returns (work: HelloWork)
      requires Valid()
      modifies this
      ensures Valid()
      ensures uri in works && works[uri] == work
      ensures uri in old(works) ==> work == old(works)[uri] && works == old(works)
      ensures uri !in old(works) ==> fresh(work) && works == old(works)[uri := work]
    {
      if uri in works {
        work := works[uri];
      } else {
        work := new HelloWork();
        works := works[uri := work];
      }
    }

    /**
     * `getWork(uri)`: the work stored for `uri`, or else what
     * `newWork(uri, null)` gives.
     */
    method GetWork(uri: Uri) returns (work: HelloWork)
      requires Valid()
      modifies this
      ensures Valid()
      ensures uri in works && works[uri] == work
      ensures uri in old(works) ==> work == old(works)[uri] && works == old(works)
      ensures uri !in old(works) ==> fresh(work) && works == old(works)[uri := work]
    {
      if uri in works {
        work := works[uri];
      } else {
        work := NewWork(uri, None);
      }
    }
  }

  /** `newWork` twice for one URI: the same work both times, and the second call changes nothing. */
  method NewWorkTwice(provider: HelloWorkProvider, uri: Uri, env: Env, env': Env) returns (first: HelloWork, second: HelloWork)
    requires provider.Valid()
    modifies provider
    ensures provider.Valid()
    ensures first == second
    ensures provider.works == old(provider.works)[uri := first]
  {
    first := provider.NewWork(uri, env);
    ghost var between := provider.works;
    second := provider.NewWork(uri, env');
    assert provider.works == between;
  }

  /** `newWork(uri, env)` followed by `getWork(uri)` gives back the identical work. */
  method NewThenGet(provider: HelloWorkProvider, uri: Uri, env: Env) returns (created: HelloWork, retrieved: HelloWork)
    requires provider.Valid()
    modifies provider
    ensures provider.Valid()
    ensures created == retrieved
    ensures provider.works == old(provider.works)[uri := created]
    ensures uri !in old(provider.works) ==> fresh(created)
  {
    created := provider.NewWork(uri, env);
    retrieved := provider.GetWork(uri);
  }
}
