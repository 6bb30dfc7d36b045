/** The part of Java reflection the finder reads, as plain data: a class is
    its name plus the methods `getDeclaredMethods()` reports, in that order,
    and a class hierarchy is the chain of `getSuperclass()` results. */
module Reflection {
  import opened Wrappers

  /** Bits of `java.lang.reflect.Modifier` (a Java `int`). */
  const PUBLIC: bv32 := 0x1
  const STATIC: bv32 := 0x8
  const ABSTRACT: bv32 := 0x400

  /** `Modifier.isPublic(modifiers)`. */
  predicate IsPublic(modifiers: bv32)
  {
    modifiers & PUBLIC != 0
  }

  /** The execution context a delivery is routed to. */
  datatype ThreadMode = PostThread | MainThread | BackgroundThread | Async

  /** The `@EventSubscribe` annotation and its `tmode()` element. */
  datatype EventSubscribe = EventSubscribe(tmode: ThreadMode)

  /** A `java.lang.reflect.Method`: its name, its modifier bits, its
      `@EventSubscribe` annotation if any, and the names of its parameter
      types in declaration order. */
  datatype MethodDecl = MethodDecl(
    name: string,
    modifiers: bv32,
    subscribe: Option<EventSubscribe>,
    parameterTypes: seq<string>)

  /** A `java.lang.Class`: its fully qualified name and its declared methods. */
  datatype ClassDecl = ClassDecl(name: string, declaredMethods: seq<MethodDecl>)

  /** A class followed by its superclass, that one's superclass, and so on;
      `getSuperclass()` of the last element is `null`. The empty chain is a
      `null` class reference. */
  type ClassChain = seq<ClassDecl>

  /** Every class of the chain has its own name, as classes of one class
      loader do. */
  predicate DistinctNames(chain: ClassChain)
  {
    forall i, j :: 0 <= i < j < |chain| ==> chain[i].name != chain[j].name
  }
}
