/**
 * The service's cache of descriptor instances, one per descriptor label,
 * created on first use (python/smqtk/web/descriptor_service/server.py,
 * lines 97-99 and 203-213). Requests are taken one after another; the lock
 * that guards the map is not modelled.
 */
module DescriptorCache {

  /** The cache after a lookup, the instance found or created, and whether the constructor ran. */
  datatype Lookup<E> = Lookup(cache: map<string, E>, engine: E, constructed: bool)

  /**
   * Fetches the instance for `descriptorLabel`, building it with `newInst` and adding
   * it to the cache when the label has none yet.
   */
  function GetOrCreate<E>(cache: map<string, E>, descriptorLabel: string, newInst: string -> E): (r: Lookup<E>)
    ensures descriptorLabel in r.cache && r.engine == r.cache[descriptorLabel]
    ensures r.constructed <==> descriptorLabel !in cache
    ensures descriptorLabel in cache ==> r.cache == cache
    ensures descriptorLabel !in cache ==> r.engine == newInst(descriptorLabel)
    ensures r.cache.Keys == cache.Keys + {descriptorLabel}
    ensures forall l :: l in cache ==> r.cache[l] == cache[l]
  {
    var cache' := if descriptorLabel !in cache then cache[descriptorLabel := newInst(descriptorLabel)] else cache;
    Lookup(cache', cache'[descriptorLabel], descriptorLabel !in cache)
  }

  /** A second lookup of the same label hands back the same instance and builds nothing. */
  lemma GetOrCreateTwice<E>(cache: map<string, E>, descriptorLabel: string, newInst: string -> E)
    ensures var first := GetOrCreate(cache, descriptorLabel, newInst);
      var second := GetOrCreate(first.cache, descriptorLabel, newInst);
      && !second.constructed
      && second.cache == first.cache
      && second.engine == first.engine
  {
  }

  /** The cache after looking up every label of a run of lookups (requests that resolved a file) in turn, and how many instances that built. */
  datatype Run<E> = Run(cache: map<string, E>, built: nat)

  function GetOrCreateAll<E>(cache: map<string, E>, labels: seq<string>, newInst: string -> E): Run<E>
    decreases |labels|
  {
    if labels == [] then Run(cache, 0)
    else
      var first := GetOrCreate(cache, labels[0], newInst);
      var rest := GetOrCreateAll(first.cache, labels[1..], newInst);
      Run(rest.cache, rest.built + if first.constructed then 1 else 0)
  }

  function LabelSet(labels: seq<string>): set<string>
  {
    set l | l in labels
  }

  /** After a run of lookups the cache holds exactly the labels it held before and those requested; cached instances are kept. */
  lemma {:induction false} RunKeepsAndAdds<E>(cache: map<string, E>, labels: seq<string>, newInst: string -> E)
    ensures GetOrCreateAll(cache, labels, newInst).cache.Keys == cache.Keys + LabelSet(labels)
    ensures forall l :: l in cache ==> GetOrCreateAll(cache, labels, newInst).cache[l] == cache[l]
    decreases |labels|
  {
    if labels != [] {
      var first := GetOrCreate(cache, labels[0], newInst);
      RunKeepsAndAdds(first.cache, labels[1..], newInst);
      LabelSetCons(labels);
    }
  }

  /**
   * Over any run of lookups the constructor runs exactly once for each
   * label that was not cached at the start, and never for a cached one.
   */
  lemma {:induction false} ConstructedOncePerLabel<E>(cache: map<string, E>, labels: seq<string>, newInst: string -> E)
    ensures GetOrCreateAll(cache, labels, newInst).built == |LabelSet(labels) - cache.Keys|
    decreases |labels|
  {
    if labels != [] {
      var first := GetOrCreate(cache, labels[0], newInst);
      ConstructedOncePerLabel(first.cache, labels[1..], newInst);
      LabelSetCons(labels);
      NewLabelsStep(cache.Keys, labels[0], LabelSet(labels[1..]));
    }
  }

  /** How the set of labels still to be built changes when the first lookup of a run is made. */
  lemma NewLabelsStep(cached: set<string>, first: string, rest: set<string>)
    ensures first in cached ==> ({first} + rest) - cached == rest - cached
    ensures first !in cached ==> |({first} + rest) - cached| == |rest - (cached + {first})| + 1
  {
    if first !in cached {
      assert ({first} + rest) - cached == {first} + (rest - (cached + {first}));
    }
  }

  lemma LabelSetCons(labels: seq<string>)
    requires labels != []
    ensures LabelSet(labels) == {labels[0]} + LabelSet(labels[1..])
  {
    assert labels == [labels[0]] + labels[1..];
  }
}
