# Subscriber-method resolver of ZtoneBus, modelled in Dafny

ZtoneBus is an in-process publish/subscribe event bus for Android. Before a
subscriber object can receive events, the bus asks `SubscriberMethodFinder`
which of the methods of the subscriber's class are event handlers. The finder
walks the class and its superclasses, keeps the qualifying methods, removes
duplicates, and caches the answer per class name. It comes in two variants
that share one cache:

- `findSubscriberMethods` is annotation-based. It keeps public methods that
  carry `@EventSubscribe` and take one parameter. It de-duplicates them per
  class and stops before `Object`, `Activity`, `Service`,
  `BroadcastReceiver` and `Application`. A null class gives a null list, and
  an empty answer is not cached.
- `__findSubscriberMethods` is deprecated and name-based. It keeps public,
  non-abstract, non-static, non-bridge, non-synthetic `onEvent...` methods
  with one parameter, and derives the thread mode from the name's suffix. It
  de-duplicates across the whole hierarchy, never enters `java.`, `javax.` or
  `android.` classes, and throws `EventBusException` when it finds nothing.

Reflection is replaced by data. A class is a `ClassDecl`: its name plus the
`MethodDecl`s that `getDeclaredMethods()` reports, in that order. A method
record holds its name, its modifier bits (`bv32`, a Java `int`), its
`@EventSubscribe` annotation if any, and its parameter type names. A subscriber
class is given as its superclass chain (`seq<ClassDecl>`), and the empty chain
is a null `Class`. The cache is a `map<string, seq<SubscriberMethod>>`. Each
operation takes the cache and returns its answer together with the new cache.

Files:

- `wrappers.dfy`: `Option` and `Result`, which stand for Java's null and thrown exceptions.
- `strings.dfy`: `startsWith` and `substring`.
- `reflection.dfy`: modifier bits, `ThreadMode`, `@EventSubscribe`, methods, classes.
- `subscriber_methods.dfy`: `SubscriberMethod`, the `name>paramType` key, first-occurrence de-duplication.
- `finder.dfy`: both finders and `clearCaches`, written to follow the Java loops.
- `finder_proofs.dfy`: what the loops compute, stated without loops, with soundness, completeness, de-duplication and ordering.
- `cache_properties.dfy`: behaviour across calls (idempotence, rescan after clearing, the shared cache).
- `examples_hierarchies.dfy`: concrete hierarchies on which the two variants differ.

Where the code and its surrounding documentation disagree, the model follows the code:

- The annotation-based filter checks only `Modifier.isPublic`
  (SubscriberMethodFinder.java line 82). Static, abstract, bridge and
  synthetic methods are therefore accepted there, although the comment
  above `BRIDGE` and `SYNTHETIC` (lines 36-39) says the bus must ignore
  bridge and synthetic methods. `ExampleHierarchies.FiltersDiffer` shows a static
  handler accepted by this variant and rejected by the other.
- The comment on `findSubscriberMethods` (line 50) says superclasses are not
  traversed. The code walks up the hierarchy until a boundary class
  (lines 72 and 105-110), and the model does the same.

## Model

All source paths are under `ztone.bus/src/main/java/android/bus/`.

| member | source | states |
|---|---|---|
| Finder.FindSubscriberMethods | ztone.bus/src/main/java/android/bus/SubscriberMethodFinder.java:57-124 | A null class gives `None` (not an empty list) and the cache is unchanged. A cache hit returns the stored list and leaves the cache alone. A miss returns a fresh scan. The only entry that can be added is the subscriber's own class name, and only with the non-empty list it returned. Existing entries never change. A cache without empty lists stays without them. |
| Finder.FindSubscriberMethodsByName | ztone.bus/src/main/java/android/bus/SubscriberMethodFinder.java:126-194 | A null class fails with `NullPointer`. A cache hit, whichever variant stored it, is returned as it is. On a miss, an empty scan fails with `NoSubscriberMethods` (the `EventBusException`) and a non-empty one succeeds. Every failure leaves the cache unchanged. A success is exactly what the cache then holds for the class. Under the no-empty-entries invariant a success is never empty. |
| Finder.ClearCaches | ztone.bus/src/main/java/android/bus/SubscriberMethodFinder.java:196-200 | The cache afterwards holds no class at all. |
| Finder.Candidate | ztone.bus/src/main/java/android/bus/SubscriberMethodFinder.java:79-168 | A declared method contributes an entry iff it passes the variant's filter: the annotation test of lines 82-86 or the naming test of lines 153-157. The entry records that method and the class being scanned, and its event type is the single parameter type. The annotation variant's thread mode is the annotation's `tmode` (line 93). The naming variant's thread mode is a given mode exactly when the name is `onEvent` followed by that mode's legacy suffix, and null otherwise (lines 158-168). |
| Finder.Visit | ztone.bus/src/main/java/android/bus/SubscriberMethodFinder.java:87-95 | One inner-loop step. A candidate whose key is not yet seen is appended. A missing candidate or a seen key leaves the list as it was. The seen set gains exactly the candidate's key and nothing else, as one `eventTypesFound.add` does. |
| Finder.ScanMethods | ztone.bus/src/main/java/android/bus/SubscriberMethodFinder.java:79-100 | The per-class loop only appends to the list and the seen set. Every entry it appends is declared by the scanned class, is one of its declared methods, and passes the variant's filter. `FinderProofs.ScanMethodsIsKeepFirst` gives its exact result. |
| Finder.WalkAnnotated | ztone.bus/src/main/java/android/bus/SubscriberMethodFinder.java:72-111 | The annotation-based walk keeps what was found before it, and every entry it adds passes the annotation filter. `FinderProofs.WalkAnnotatedBlocks` and `FinderProofs.AnnotatedDepth` give its exact result and depth. |
| Finder.WalkNamed | ztone.bus/src/main/java/android/bus/SubscriberMethodFinder.java:139-183 | The name-based walk keeps what was found before it and never forgets a seen key, and every entry it adds passes the naming filter. `FinderProofs.WalkNamedFlat` and `FinderProofs.NamedDepth` give its exact result and depth. |
| Finder.ThreadModeForSuffix | ztone.bus/src/main/java/android/bus/SubscriberMethodFinder.java:158-168 | The suffix is mapped to a mode only when it is that mode's legacy suffix (`""`, `MainThread`, `BackgroundThread`, `Async`). It is mapped to null exactly when it is the legacy suffix of no mode. |
| Finder.SuffixSelectsMode | ztone.bus/src/main/java/android/bus/SubscriberMethodFinder.java:158-168 | For a name starting with `onEvent`, the text after the prefix selects a mode exactly when the name is `onEvent` followed by that mode's legacy suffix. |
| Finder.IsBoundaryClass | ztone.bus/src/main/java/android/bus/SubscriberMethodFinder.java:106-107 | The five classes (`java.lang.Object`, `android.app.Activity`, `android.app.Service`, `android.content.BroadcastReceiver`, `android.app.Application`) at which the annotation-based walk stops. `FinderProofs.AnnotatedDepth` shows that the walk scans up to, and not including, the first of them above the start class. |
| Finder.IsSystemClass | ztone.bus/src/main/java/android/bus/SubscriberMethodFinder.java:144 | A class name starting with `java.`, `javax.` or `android.`. `FinderProofs.NamedDepth` shows that the name-based walk scans exactly the classes before the first such name, the start class included. |
| Finder.ScanByAnnotation | ztone.bus/src/main/java/android/bus/SubscriberMethodFinder.java:70-111 | The annotation-based scan on a cache miss: every entry passes the annotation filter. `FinderProofs.WalkAnnotatedBlocks` gives its exact result, one de-duplicated block per scanned class. |
| Finder.ScanByName | ztone.bus/src/main/java/android/bus/SubscriberMethodFinder.java:138-183 | The name-based scan on a cache miss: every entry passes the naming filter. `FinderProofs.ScanByNameIsKeepFirst` gives its exact result, the first-occurrence de-duplication of all scanned classes' candidates. |
| Finder.SubscribesByAnnotation | ztone.bus/src/main/java/android/bus/SubscriberMethodFinder.java:82-86 | The annotation-based filter: public, carries `@EventSubscribe`, one parameter. It does not look at the static, abstract, bridge or synthetic bits. `Finder.Candidate` and `FinderProofs.CandidatesComplete` tie it to the scan. |
| Finder.SubscribesByName | ztone.bus/src/main/java/android/bus/SubscriberMethodFinder.java:153-157 | The naming filter: name starts with `onEvent`, public, no bit of `MODIFIERS_IGNORE`, one parameter. `FinderProofs.IgnoreMaskBits` spells out the mask bit by bit. |
| SubscriberMethods.MethodKey | ztone.bus/src/main/java/android/bus/SubscriberMethodFinder.java:87-90 | The `name>paramType` key. `SubscriberMethods.MethodKeyInjective` shows that it identifies the pair of method name and event type. |
| SubscriberMethods.KeepFirst | ztone.bus/src/main/java/android/bus/SubscriberMethodFinder.java:91-95 | The reference for the `eventTypesFound.add` guard (lines 91 and 174): never longer than its input. `KeepFirstSound`, `KeepFirstKeys`, `KeepFirstDistinct`, `KeepFirstFirstWins` and `KeepFirstOrdered` together fix its contents and order. |
| FinderProofs.LegacyNameSelectsMode | ztone.bus/src/main/java/android/bus/SubscriberMethodFinder.java:151-168 | A public, one-parameter method with no ignored bit, named `onEvent` followed by a mode's legacy suffix, is found by the naming variant and is delivered on that mode. |
| FinderProofs.AnnotatedSound | ztone.bus/src/main/java/android/bus/SubscriberMethodFinder.java:82-94 | Every entry the annotation-based scan returns comes from a method declared by a scanned class. That method is public, carries `@EventSubscribe`, and has exactly one parameter, which is the entry's event type. The entry's thread mode is the annotation's `tmode`. |
| FinderProofs.AnnotatedComplete | ztone.bus/src/main/java/android/bus/SubscriberMethodFinder.java:79-100 | Every qualifying method of every scanned class is represented: an entry of that class carries its `name>paramType` key. |
| FinderProofs.AnnotatedDistinctPerClass | ztone.bus/src/main/java/android/bus/SubscriberMethodFinder.java:76-95 | No two entries of the same declaring class share a key, because the key set is recreated for each class. |
| FinderProofs.AnnotatedDepth | ztone.bus/src/main/java/android/bus/SubscriberMethodFinder.java:105-110 | The annotation-based walk always scans the start class. It then scans superclasses in order, stopping at the end of the chain or just before the first boundary class, which is not scanned. |
| FinderProofs.WalkAnnotatedBlocks | ztone.bus/src/main/java/android/bus/SubscriberMethodFinder.java:72-111 | The annotation-based result has one block per scanned class, subclass first. Each block is that class's candidates de-duplicated from an empty key set. |
| FinderProofs.AnnotatedSubclassFirst | ztone.bus/src/main/java/android/bus/SubscriberMethodFinder.java:72-111 | No entry of a superclass precedes an entry of one of its subclasses. |
| FinderProofs.ScanMethodsIsKeepFirst | ztone.bus/src/main/java/android/bus/SubscriberMethodFinder.java:79-100 | One pass over a class's declared methods appends the class's candidates with already-seen keys dropped, first occurrence winning. It records all their keys as seen. |
| FinderProofs.CandidatesSound | ztone.bus/src/main/java/android/bus/SubscriberMethodFinder.java:82-157 | For either variant (the annotation test of lines 82-86, the naming test of lines 153-157), every candidate comes from a declared method of the class that passes the filter. |
| FinderProofs.CandidatesComplete | ztone.bus/src/main/java/android/bus/SubscriberMethodFinder.java:82-157 | For either variant (the annotation test of lines 82-86, the naming test of lines 153-157), every declared method that passes the filter is a candidate. |
| FinderProofs.NamedDepth | ztone.bus/src/main/java/android/bus/SubscriberMethodFinder.java:142-147 | The name-based walk scans exactly the classes before the first one whose name starts with `java.`, `javax.` or `android.`, and that may be the start class itself. |
| FinderProofs.WalkNamedFlat | ztone.bus/src/main/java/android/bus/SubscriberMethodFinder.java:138-183 | The name-based walk de-duplicates the candidates of all scanned classes, subclass first, as one list with one key set. |
| FinderProofs.NamedSound | ztone.bus/src/main/java/android/bus/SubscriberMethodFinder.java:150-177 | Every name-based entry comes from a method of a scanned class. The method's name starts with `onEvent`, it is public, it has none of the `ABSTRACT\|STATIC\|BRIDGE\|SYNTHETIC` bits, and it has one parameter, the event type. The entry's thread mode is the one the name suffix spells. |
| FinderProofs.NamedComplete | ztone.bus/src/main/java/android/bus/SubscriberMethodFinder.java:151-181 | Every qualifying `onEvent` method of a scanned class has its key among the result's keys. |
| FinderProofs.NamedDistinct | ztone.bus/src/main/java/android/bus/SubscriberMethodFinder.java:170-177 | No two name-based entries share a key anywhere in the hierarchy. |
| FinderProofs.NamedSubclassWins | ztone.bus/src/main/java/android/bus/SubscriberMethodFinder.java:139-177 | An entry of a superclass never has a key that a qualifying method of a scanned subclass already has. |
| FinderProofs.ThreadModeForSuffixInverts | ztone.bus/src/main/java/android/bus/SubscriberMethodFinder.java:158-168 | The suffix after `onEvent` yields a thread mode iff it is that mode's legacy suffix: `""` gives PostThread, and `MainThread`, `BackgroundThread` and `Async` give the mode of the same name. Any other suffix yields null. |
| FinderProofs.IgnoreMaskBits | ztone.bus/src/main/java/android/bus/SubscriberMethodFinder.java:41-44 | `MODIFIERS_IGNORE` is 0x1448. A modifier word passes the mask test iff it has none of the ABSTRACT, STATIC, BRIDGE (0x40) and SYNTHETIC (0x1000) bits. |
| SubscriberMethods.MethodKeyInjective | ztone.bus/src/main/java/android/bus/SubscriberMethodFinder.java:87-90 | When method names contain no `>`, two entries share a `name>paramType` key iff they have the same method name and event type. |
| SubscriberMethods.KeepFirstSound | ztone.bus/src/main/java/android/bus/SubscriberMethodFinder.java:91-95 | De-duplication keeps only input elements whose key was not already seen. |
| SubscriberMethods.KeepFirstKeys | ztone.bus/src/main/java/android/bus/SubscriberMethodFinder.java:91-95 | De-duplication loses no key: the kept keys are exactly the input keys minus those already seen. |
| SubscriberMethods.KeepFirstDistinct | ztone.bus/src/main/java/android/bus/SubscriberMethodFinder.java:91-95 | No two kept elements share a key. |
| SubscriberMethods.KeepFirstFirstWins | ztone.bus/src/main/java/android/bus/SubscriberMethodFinder.java:174-177 | Each kept element is the first input element with its key. |
| SubscriberMethods.KeepFirstOrdered | ztone.bus/src/main/java/android/bus/SubscriberMethodFinder.java:174-177 | Kept elements come in the order in which their keys first occur in the input. |
| SubscriberMethods.KeepFirstAppend | ztone.bus/src/main/java/android/bus/SubscriberMethodFinder.java:140-183 | With one key set shared by consecutive scans, the second scan keeps only keys the first did not have. |
| SubscriberMethods.FirstIndex | ztone.bus/src/main/java/android/bus/SubscriberMethodFinder.java:174-177 | The position returned holds the key, and no earlier position does. |
| Strings.After | ztone.bus/src/main/java/android/bus/SubscriberMethodFinder.java:158 | `substring(prefix.length())` of a string that starts with the prefix gives the text that, appended to the prefix, rebuilds the string. |
| CacheProperties.FindIsIdempotent | ztone.bus/src/main/java/android/bus/SubscriberMethodFinder.java:63-119 | Calling the annotation-based finder twice gives the same answer and cache as calling it once. |
| CacheProperties.FindByNameIsIdempotent | ztone.bus/src/main/java/android/bus/SubscriberMethodFinder.java:130-193 | Calling the name-based finder twice gives the same outcome and cache as calling it once, failures included. |
| CacheProperties.ClearCachesForcesRescan | ztone.bus/src/main/java/android/bus/SubscriberMethodFinder.java:196-200 | After `clearCaches`, both finders rescan, whatever had been cached. |
| CacheProperties.NamedEntryServesAnnotatedLookup | ztone.bus/src/main/java/android/bus/SubscriberMethodFinder.java:63-69 | After a name-based success, the annotation-based finder returns that same list from the cache. |
| CacheProperties.AnnotatedEntryServesNamedLookup | ztone.bus/src/main/java/android/bus/SubscriberMethodFinder.java:130-137 | After a non-empty annotation-based answer, the name-based finder returns that same list without scanning. |
| ExampleHierarchies.AnnotatedKeepsOnePerClass | ztone.bus/src/main/java/android/bus/SubscriberMethodFinder.java:76-95 | A handler declared by both a class and its superclass is found twice by the annotation-based walk, once per class. |
| ExampleHierarchies.NamedKeepsOnePerHierarchy | ztone.bus/src/main/java/android/bus/SubscriberMethodFinder.java:140-177 | In the same hierarchy, the name-based walk keeps only the subclass's copy. |
| ExampleHierarchies.StartClassInSystemPackage | ztone.bus/src/main/java/android/bus/SubscriberMethodFinder.java:142-147 | Take a subscriber whose own class is in an `android.` package. The annotation-based finder scans it, while the name-based finder skips it and throws. |
| ExampleHierarchies.FiltersDiffer | ztone.bus/src/main/java/android/bus/SubscriberMethodFinder.java:153-168 | A public static annotated handler passes only the annotation-based filter. An unannotated `onEventFoo` passes only the name-based filter, with a null thread mode. |

## Left out

- Java reflection (`getDeclaredMethods`, `getAnnotation`, `getModifiers`, `getParameterTypes`, `getSuperclass`): classes and methods are plain data given as input.
- Class identity: classes are identified by fully qualified name throughout. The boundary tests (`clazz == Object.class` and the others) compare names. A found method's declaring class and its event type (the `Class<?>` of lines 93-94 and 169) are stored as class names.
- The `methods != null` and `method != null` guards (lines 75 and 80): `getDeclaredMethods()` yields neither a null array nor null elements. An empty array scans nothing, as an empty sequence does.
- `synchronized (methodCache)`: the cache is a single value threaded through the calls in sequence. Concurrent interleavings are not modelled.
- `Log.i` calls: I/O with no effect on the result.
- The `EventBusException` message text: the error carries only the class name.
- Aliasing: Java returns the cached `ArrayList` itself, which a caller could mutate. Here lists are immutable values.
- `EventBusUtils.java` (lazy process-wide singleton and tag-keyed instance map, concurrency-driven global state) and `EventBusProxy.java` (one-line delegation): both forward to `EventBus`, and `EventBus` is not part of this model.
- The subscription registry, dispatch, thread-mode posters and sticky-event store: `EventBus` and the poster classes are not part of this model.
- AnnotatedDistinctPerClass: identifies a class by its name, so it requires the chain's class names to be distinct. This holds for a real superclass chain within one class loader.
- AnnotatedSubclassFirst: requires distinct class names in the chain, for the same reason.
- NamedSubclassWins: requires distinct class names in the chain, for the same reason.
