/** Providers and the provider registry of the logging engine, seen from the
    outside: a provider is an opaque handle, and the registry maps a provider
    type name to the constructor that builds one from an options string. */
module Providers {

  /** A provider handle: `Built` is what a registered constructor returns
      for an options string, `Mix` is `provider.NewMixProvider(first,
      others...)` over its children, in the order given. */
  datatype Provider = Built(creator: Creator, options: string) | Mix(children: seq<Provider>)

  /** A registered constructor, known only by its identity: two calls of
      the same constructor with the same options build the same handle. */
  datatype Creator = Creator(id: nat)

  /** Calling constructor `c` with options `opts`. */
  function Create(c: Creator, opts: string): (p: Provider) { Built(c, opts) }

  /** `logger.Lookup`'s table, passed explicitly: type name to constructor. */
  type Registry = map<string, Creator>

  /** The providers the registry builds for `names`, in that order, each
      from the same options string. */
  function Construct(registry: Registry, names: seq<string>, opts: string): (ps: seq<Provider>)
    requires forall i :: 0 <= i < |names| ==> names[i] in registry
    ensures |ps| == |names|
    ensures forall i :: 0 <= i < |names| ==> ps[i] == Create(registry[names[i]], opts)
  {
    if names == [] then []
    else Construct(registry, names[..|names| - 1], opts) + [Create(registry[names[|names| - 1]], opts)]
  }
}
