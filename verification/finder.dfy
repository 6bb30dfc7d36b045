/** The subscriber-method resolver: given a subscriber's class hierarchy,
    finds the methods that receive events and memoizes the answer per class
    name in a cache shared by its two variants. The cache is threaded through
    every operation as an explicit value. */
module Finder {
  import opened Wrappers
  import opened Strings
  import opened Reflection
  import opened SubscriberMethods

  /** The ACC_BRIDGE and ACC_SYNTHETIC method access flags of section 4.6
      of the Java Virtual Machine Specification (Java SE 7). */
  const BRIDGE: bv32 := 0x40
  const SYNTHETIC: bv32 := 0x1000

  /** Modifier bits that disqualify a method in the naming-convention finder. */
  const MODIFIERS_IGNORE: bv32 := ABSTRACT | STATIC | BRIDGE | SYNTHETIC

  const ON_EVENT_METHOD_NAME: string := "onEvent"

  /** Superclasses at which the annotation-based walk stops without scanning
      them: `Object`, `Activity`, `Service`, `BroadcastReceiver`,
      `Application`. */
  const BOUNDARY_CLASSES: set<string> := {
    "java.lang.Object",
    "android.app.Activity",
    "android.app.Service",
    "android.content.BroadcastReceiver",
    "android.app.Application"
  }

  /** Class name -> subscriber methods found for that class. */
  type MethodCache = map<string, seq<SubscriberMethod>>

  /** Which of the two finders is scanning. */
  datatype Convention = Annotation | NamingConvention

  /** What `__findSubscriberMethods` throws. */
  datatype FinderError =
    | NullPointer                                // `subscriberClass.getName()` on null
    | NoSubscriberMethods(subscriberClass: string) // the `EventBusException`

  /** A finder's answer together with the cache after the call. */
  datatype Lookup<+R> = Lookup(result: R, cache: MethodCache)

  /** The scan state the Java loops keep: the methods found so far and the
      set of `name>paramType` keys already added. */
  datatype Scan = Scan(found: seq<SubscriberMethod>, seen: set<string>)

  predicate IsBoundaryClass(name: string)
  {
    name in BOUNDARY_CLASSES
  }

  /** Classes the naming-convention walk never enters. */
  predicate IsSystemClass(name: string)
  {
    StartsWith(name, "java.") || StartsWith(name, "javax.") || StartsWith(name, "android.")
  }

  /** Every cached list is non-empty; both finders only ever store non-empty lists. */
  predicate NoEmptyEntries(cache: MethodCache)
  {
    forall k :: k in cache ==> cache[k] != []
  }

  /** The suffix after `onEvent` that names each thread mode in the legacy
      naming convention. */
  function LegacySuffix(mode: ThreadMode): string
  {
    match mode
    case PostThread => ""
    case MainThread => "MainThread"
    case BackgroundThread => "BackgroundThread"
    case Async => "Async"
  }

  /** The thread mode named by what follows `onEvent` in a legacy method name;
      `None` (Java `null`) for any other suffix. */
  function ThreadModeForSuffix(suffix: string): (r: Option<ThreadMode>)
    ensures r.Some? ==> LegacySuffix(r.value) == suffix
    ensures r.None? <==> forall mode: ThreadMode :: LegacySuffix(mode) != suffix
  {
    if suffix == "" then Some(PostThread)
    else if suffix == "MainThread" then Some(MainThread)
    else if suffix == "BackgroundThread" then Some(BackgroundThread)
    else if suffix == "Async" then Some(Async)
    else None
  }

  /** The suffix of a name that starts with `onEvent` selects a mode exactly
      when the name is `onEvent` followed by that mode's legacy suffix. */
  lemma SuffixSelectsMode(name: string)
    requires StartsWith(name, ON_EVENT_METHOD_NAME)
    ensures forall mode: ThreadMode ::
              ThreadModeForSuffix(After(name, ON_EVENT_METHOD_NAME)) == Some(mode) <==>
              name == ON_EVENT_METHOD_NAME + LegacySuffix(mode)
  {
    forall mode: ThreadMode
      ensures ThreadModeForSuffix(After(name, ON_EVENT_METHOD_NAME)) == Some(mode) <==>
              name == ON_EVENT_METHOD_NAME + LegacySuffix(mode)
    {
      if name == ON_EVENT_METHOD_NAME + LegacySuffix(mode) {
        AfterConcat(ON_EVENT_METHOD_NAME, LegacySuffix(mode));
      }
    }
  }

  /** The annotation-based filter: public, annotated, one parameter. */
  predicate SubscribesByAnnotation(m: MethodDecl)
  {
    IsPublic(m.modifiers) && m.subscribe.Some? && |m.parameterTypes| == 1
  }

  /** The naming-convention filter: named `onEvent...`, public, none of the
      ignored modifier bits, one parameter. */
  predicate SubscribesByName(m: MethodDecl)
  {
    && StartsWith(m.name, ON_EVENT_METHOD_NAME)
    && m.modifiers & PUBLIC != 0
    && m.modifiers & MODIFIERS_IGNORE == 0
    && |m.parameterTypes| == 1
  }

  predicate Subscribes(conv: Convention, m: MethodDecl)
  {
    match conv
    case Annotation => SubscribesByAnnotation(m)
    case NamingConvention => SubscribesByName(m)
  }

  /** The subscriber method a declared method of class `cls` contributes, if
      it passes the finder's filter. */
  function Candidate(conv: Convention, cls: string, m: MethodDecl): (r: Option<SubscriberMethod>)
    ensures r.Some? <==> Subscribes(conv, m)
    ensures r.Some? ==> r.value.decl == m && r.value.declaringClass == cls
                        && m.parameterTypes == [r.value.eventType]
    ensures r.Some? && conv == Annotation ==> r.value.threadMode == Some(m.subscribe.value.tmode)
    ensures r.Some? && conv == NamingConvention ==>
              forall mode: ThreadMode :: r.value.threadMode == Some(mode) <==>
                m.name == ON_EVENT_METHOD_NAME + LegacySuffix(mode)
  {
    if !Subscribes(conv, m) then None
    else if conv == Annotation then
      Some(SubscriberMethod(m, cls, Some(m.subscribe.value.tmode), m.parameterTypes[0]))
    else
      SuffixSelectsMode(m.name);
      var mode := ThreadModeForSuffix(After(m.name, ON_EVENT_METHOD_NAME));
      Some(SubscriberMethod(m, cls, mode, m.parameterTypes[0]))
  }

  /** One iteration of the inner loop: a candidate is added unless
      `eventTypesFound.add(methodKey)` reports its key as already present. */
  function Visit(acc: Scan, candidate: Option<SubscriberMethod>): (r: Scan)
    ensures candidate.Some? && MethodKey(candidate.value) !in acc.seen ==>
              r.found == acc.found + [candidate.value] && MethodKey(candidate.value) in r.seen
    ensures candidate.None? || MethodKey(candidate.value) in acc.seen ==> r.found == acc.found
    ensures r.seen == acc.seen + (if candidate.Some? then {MethodKey(candidate.value)} else {})
  {
    match candidate
    case None => acc
    case Some(e) =>
      if MethodKey(e) in acc.seen then acc
      else Scan(acc.found + [e], acc.seen + {MethodKey(e)})
  }

  /** The inner `for (Method method : methods)` loop over one class's
      declared methods, in order. */
  function ScanMethods(conv: Convention, cls: string, ms: seq<MethodDecl>, acc: Scan): (r: Scan)
    ensures acc.found <= r.found && acc.seen <= r.seen
    ensures forall i :: |acc.found| <= i < |r.found| ==>
              r.found[i].declaringClass == cls && r.found[i].decl in ms && Subscribes(conv, r.found[i].decl)
    decreases |ms|
  {
    if ms == [] then acc
    else ScanMethods(conv, cls, ms[1..], Visit(acc, Candidate(conv, cls, ms[0])))
  }

  /** The annotation-based `while (clazz != null)` walk: scan the current
      class with a fresh key set, then move to the superclass unless there is
      none or it is a boundary class. */
  function WalkAnnotated(chain: ClassChain, found: seq<SubscriberMethod>): (r: seq<SubscriberMethod>)
    ensures found <= r
    ensures forall i :: |found| <= i < |r| ==> SubscribesByAnnotation(r[i].decl)
    decreases |chain|
  {
    if chain == [] then found
    else
      var found' := ScanMethods(Annotation, chain[0].name, chain[0].declaredMethods, Scan(found, {})).found;
      if |chain| == 1 || IsBoundaryClass(chain[1].name) then found'
      else WalkAnnotated(chain[1..], found')
  }

  /** The naming-convention walk: stop before any system class, otherwise
      scan the class with the key set shared across the whole walk. */
  function WalkNamed(chain: ClassChain, acc: Scan): (r: Scan)
    ensures acc.found <= r.found && acc.seen <= r.seen
    ensures forall i :: |acc.found| <= i < |r.found| ==> SubscribesByName(r.found[i].decl)
    decreases |chain|
  {
    if chain == [] || IsSystemClass(chain[0].name) then acc
    else WalkNamed(chain[1..], ScanMethods(NamingConvention, chain[0].name, chain[0].declaredMethods, acc))
  }

  /** What a cache miss of `findSubscriberMethods` computes. */
  function ScanByAnnotation(chain: ClassChain): (r: seq<SubscriberMethod>)
    ensures forall i :: 0 <= i < |r| ==> SubscribesByAnnotation(r[i].decl)
  {
    WalkAnnotated(chain, [])
  }

  /** What a cache miss of `__findSubscriberMethods` computes. */
  function ScanByName(chain: ClassChain): (r: seq<SubscriberMethod>)
    ensures forall i :: 0 <= i < |r| ==> SubscribesByName(r[i].decl)
  {
    WalkNamed(chain, Scan([], {})).found
  }

  /** `findSubscriberMethods(subscriberClass)`. */
  function FindSubscriberMethods(cache: MethodCache, subscriberClass: ClassChain)
    : (r: Lookup<Option<seq<SubscriberMethod>>>)
    // a null class gives a null list and leaves the cache alone
    ensures subscriberClass == [] <==> r.result.None?
    ensures subscriberClass == [] ==> r.cache == cache
    // a cache hit returns the stored list without scanning
    ensures subscriberClass != [] && subscriberClass[0].name in cache ==>
              r.result == Some(cache[subscriberClass[0].name]) && r.cache == cache
    // a miss returns a fresh scan
    ensures subscriberClass != [] && subscriberClass[0].name !in cache ==>
              r.result == Some(ScanByAnnotation(subscriberClass))
    // only the subscriber's own entry can be added, and only a non-empty one
    ensures forall k :: k in cache ==> k in r.cache && r.cache[k] == cache[k]
    ensures forall k :: k in r.cache && k !in cache ==>
              subscriberClass != [] && k == subscriberClass[0].name && r.result == Some(r.cache[k]) && r.cache[k] != []
    ensures subscriberClass != [] && r.result.value != [] ==>
              subscriberClass[0].name in r.cache && r.cache[subscriberClass[0].name] == r.result.value
    ensures NoEmptyEntries(cache) ==> NoEmptyEntries(r.cache)
  {
    if subscriberClass == [] then Lookup(None, cache)
    else
      var key := subscriberClass[0].name;
      if key in cache then Lookup(Some(cache[key]), cache)
      else
        var found := ScanByAnnotation(subscriberClass);
        if found != [] then Lookup(Some(found), cache[key := found])
        else Lookup(Some(found), cache)
  }

  /** The deprecated `__findSubscriberMethods(subscriberClass)`. */
  function FindSubscriberMethodsByName(cache: MethodCache, subscriberClass: ClassChain)
    : (r: Lookup<Result<seq<SubscriberMethod>, FinderError>>)
    // a null class fails on `getName()`
    ensures subscriberClass == [] ==> r.result == Failure(NullPointer)
    // every failure leaves the cache alone
    ensures r.result.Failure? ==> r.cache == cache
    // a cache hit, whichever finder stored it, is returned as it is
    ensures subscriberClass != [] && subscriberClass[0].name in cache ==>
              r.result == Success(cache[subscriberClass[0].name]) && r.cache == cache
    // a miss either finds something or throws
    ensures subscriberClass != [] && subscriberClass[0].name !in cache ==>
              if ScanByName(subscriberClass) == []
              then r.result == Failure(NoSubscriberMethods(subscriberClass[0].name))
              else r.result == Success(ScanByName(subscriberClass))
    // a success is what the cache now holds for the class
    ensures r.result.Success? ==>
              subscriberClass != [] && r.cache == cache[subscriberClass[0].name := r.result.value]
    ensures NoEmptyEntries(cache) ==> NoEmptyEntries(r.cache)
    ensures NoEmptyEntries(cache) && r.result.Success? ==> r.result.value != []
  {
    if subscriberClass == [] then Lookup(Failure(NullPointer), cache)
    else
      var key := subscriberClass[0].name;
      if key in cache then Lookup(Success(cache[key]), cache)
      else
        var found := ScanByName(subscriberClass);
        if found == [] then Lookup(Failure(NoSubscriberMethods(key)), cache)
        else Lookup(Success(found), cache[key := found])
  }

  /** `clearCaches()`: forgets every class. */
  function ClearCaches(cache: MethodCache): (r: MethodCache)
    ensures forall k :: k !in r
    ensures NoEmptyEntries(r)
  {
    map[]
  }
}
