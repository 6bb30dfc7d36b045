/** How the shared method cache behaves across calls of the two finders and
    `clearCaches`. */
module CacheProperties {
  import opened Wrappers
  import opened Reflection
  import opened SubscriberMethods
  import opened Finder

  /** Asking the annotation-based finder twice gives the same answer and the
      same cache as asking once: a non-empty answer is served from the cache
      the second time, an empty one is recomputed identically. */
  lemma FindIsIdempotent(cache: MethodCache, chain: ClassChain)
    ensures var first := FindSubscriberMethods(cache, chain);
            FindSubscriberMethods(first.cache, chain) == first
  {
  }

  /** The same holds for the naming-convention finder, failures included. */
  lemma FindByNameIsIdempotent(cache: MethodCache, chain: ClassChain)
    ensures var first := FindSubscriberMethodsByName(cache, chain);
            FindSubscriberMethodsByName(first.cache, chain) == first
  {
  }

  /** After `clearCaches` every class is scanned again, whatever was cached. */
  lemma ClearCachesForcesRescan(cache: MethodCache, chain: ClassChain)
    requires chain != []
    ensures FindSubscriberMethods(ClearCaches(cache), chain).result == Some(ScanByAnnotation(chain))
    ensures var byName := FindSubscriberMethodsByName(ClearCaches(cache), chain).result;
            if ScanByName(chain) == [] then byName == Failure(NoSubscriberMethods(chain[0].name))
            else byName == Success(ScanByName(chain))
  {
  }

  /** The cache is keyed by class name only: whatever the naming-convention
      finder stored is what the annotation-based finder then returns. */
  lemma NamedEntryServesAnnotatedLookup(cache: MethodCache, chain: ClassChain)
    requires FindSubscriberMethodsByName(cache, chain).result.Success?
    ensures var first := FindSubscriberMethodsByName(cache, chain);
            FindSubscriberMethods(first.cache, chain) == Lookup(Some(first.result.value), first.cache)
  {
  }

  /** And the other way round: a non-empty annotation-based answer is what
      the naming-convention finder then returns, without scanning. */
  lemma AnnotatedEntryServesNamedLookup(cache: MethodCache, chain: ClassChain)
    requires var r := FindSubscriberMethods(cache, chain).result; r.Some? && r.value != []
    ensures var first := FindSubscriberMethods(cache, chain);
            FindSubscriberMethodsByName(first.cache, chain) == Lookup(Success(first.result.value), first.cache)
  {
  }
}
