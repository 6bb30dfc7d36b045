/** Small concrete hierarchies on which the two finders visibly differ. */
module ExampleHierarchies {
  import opened Wrappers
  import opened Strings
  import opened Reflection
  import opened SubscriberMethods
  import opened Finder

  const EVT: string := "com.example.Evt"

  /** `@EventSubscribe(tmode = MainThread) public void onEventMainThread(Evt)`. */
  const HANDLER: MethodDecl :=
    MethodDecl("onEventMainThread", PUBLIC, Some(EventSubscribe(MainThread)), [EVT])

  /** `Sub extends Base extends Object`, both declaring the same handler. */
  const SUB: ClassDecl := ClassDecl("com.example.Sub", [HANDLER])
  const BASE: ClassDecl := ClassDecl("com.example.Base", [HANDLER])
  const OBJECT: ClassDecl := ClassDecl("java.lang.Object", [])
  const OVERRIDING: ClassChain := [SUB, BASE, OBJECT]

  /** A name that starts with neither 'j' nor 'a' is no system class. */
  lemma NotSystemClass(name: string)
    requires |name| > 0 && name[0] != 'j' && name[0] != 'a'
    ensures !IsSystemClass(name)
  {
    assert "java."[0] == 'j' && "javax."[0] == 'j' && "android."[0] == 'a';
  }

  const SUB_ENTRY: SubscriberMethod := SubscriberMethod(HANDLER, "com.example.Sub", Some(MainThread), EVT)
  const BASE_ENTRY: SubscriberMethod := SubscriberMethod(HANDLER, "com.example.Base", Some(MainThread), EVT)

  /** The annotation-based finder keeps the handler once per class: its key
      set starts empty for every class. */
  lemma AnnotatedKeepsOnePerClass()
    ensures ScanByAnnotation(OVERRIDING) == [SUB_ENTRY, BASE_ENTRY]
  {
    assert Candidate(Annotation, SUB.name, HANDLER) == Some(SUB_ENTRY);
    assert Candidate(Annotation, BASE.name, HANDLER) == Some(BASE_ENTRY);
    assert ScanMethods(Annotation, SUB.name, [HANDLER], Scan([], {})).found == [SUB_ENTRY];
    assert ScanMethods(Annotation, BASE.name, [HANDLER], Scan([SUB_ENTRY], {})).found == [SUB_ENTRY, BASE_ENTRY];
    assert !IsBoundaryClass(BASE.name) by {
      assert BASE.name[0] == 'c';
    }
    assert IsBoundaryClass(OBJECT.name);
    assert OVERRIDING[1..] == [BASE, OBJECT];
    assert WalkAnnotated([BASE, OBJECT], [SUB_ENTRY]) == [SUB_ENTRY, BASE_ENTRY];
  }

  /** `onEventMainThread` is a naming-convention handler on the main thread. */
  lemma HandlerByName(cls: string)
    ensures Candidate(NamingConvention, cls, HANDLER) ==
            Some(SubscriberMethod(HANDLER, cls, Some(MainThread), EVT))
  {
    assert StartsWith(HANDLER.name, ON_EVENT_METHOD_NAME) by {
      assert HANDLER.name[..7] == ON_EVENT_METHOD_NAME;
    }
    assert After(HANDLER.name, ON_EVENT_METHOD_NAME) == "MainThread";
    assert ThreadModeForSuffix("MainThread") == Some(MainThread);
  }

  /** The naming-convention finder keeps only the subclass's copy: its key
      set spans the hierarchy. */
  lemma NamedKeepsOnePerHierarchy()
    ensures ScanByName(OVERRIDING) == [SUB_ENTRY]
  {
    assert IsSystemClass(OBJECT.name) by {
      assert OBJECT.name[..5] == "java.";
    }
    NotSystemClass(SUB.name);
    NotSystemClass(BASE.name);
    HandlerByName(SUB.name);
    HandlerByName(BASE.name);
    assert Candidate(NamingConvention, SUB.name, HANDLER) == Some(SUB_ENTRY);
    assert Candidate(NamingConvention, BASE.name, HANDLER) == Some(BASE_ENTRY);
    assert MethodKey(BASE_ENTRY) == MethodKey(SUB_ENTRY);
    var s1 := Scan([SUB_ENTRY], {MethodKey(SUB_ENTRY)});
    assert ScanMethods(NamingConvention, SUB.name, [HANDLER], Scan([], {})) == s1;
    assert ScanMethods(NamingConvention, BASE.name, [HANDLER], s1) == s1;
    assert OVERRIDING[1..] == [BASE, OBJECT];
    assert [BASE, OBJECT][1..] == [OBJECT];
    assert WalkNamed([OBJECT], s1) == s1;
    assert WalkNamed([BASE, OBJECT], s1) == s1;
  }

  /** A subscriber whose own class is in an `android.` package. */
  const WIDGET: ClassDecl := ClassDecl("android.demo.Widget", [HANDLER])
  const WIDGET_ENTRY: SubscriberMethod := SubscriberMethod(HANDLER, "android.demo.Widget", Some(MainThread), EVT)

  /** The annotation-based finder always scans the start class; the
      naming-convention finder skips it and then throws. */
  lemma StartClassInSystemPackage()
    ensures FindSubscriberMethods(map[], [WIDGET]).result == Some([WIDGET_ENTRY])
    ensures FindSubscriberMethodsByName(map[], [WIDGET]) ==
            Lookup(Failure(NoSubscriberMethods("android.demo.Widget")), map[])
  {
    assert IsSystemClass(WIDGET.name) by {
      assert WIDGET.name[..8] == "android.";
    }
    assert Candidate(Annotation, WIDGET.name, HANDLER) == Some(WIDGET_ENTRY);
    assert ScanMethods(Annotation, WIDGET.name, [HANDLER], Scan([], {})).found == [WIDGET_ENTRY];
    assert ScanByAnnotation([WIDGET]) == [WIDGET_ENTRY];
  }

  /** `@EventSubscribe public static void onEvent(Evt)`, and a public
      `onEventFoo(Evt)` whose suffix names no thread mode. */
  const STATIC_HANDLER: MethodDecl :=
    MethodDecl("onEvent", PUBLIC | STATIC, Some(EventSubscribe(PostThread)), [EVT])
  const TYPO_HANDLER: MethodDecl := MethodDecl("onEventFoo", PUBLIC, None, [EVT])
  const MIXED: ClassDecl := ClassDecl("com.example.Mixed", [STATIC_HANDLER, TYPO_HANDLER])
  const STATIC_ENTRY: SubscriberMethod := SubscriberMethod(STATIC_HANDLER, "com.example.Mixed", Some(PostThread), EVT)
  const TYPO_ENTRY: SubscriberMethod := SubscriberMethod(TYPO_HANDLER, "com.example.Mixed", None, EVT)

  /** The annotation-based filter lets a static method through and ignores
      the unannotated one; the naming-convention filter rejects the static
      method and keeps the misspelt one with no thread mode. */
  lemma FiltersDiffer()
    ensures ScanByAnnotation([MIXED]) == [STATIC_ENTRY]
    ensures ScanByName([MIXED]) == [TYPO_ENTRY]
  {
    NotSystemClass(MIXED.name);
    assert StartsWith(TYPO_HANDLER.name, ON_EVENT_METHOD_NAME) by {
      assert TYPO_HANDLER.name[..7] == ON_EVENT_METHOD_NAME;
    }
    assert After(TYPO_HANDLER.name, ON_EVENT_METHOD_NAME) == "Foo";
    assert STATIC_HANDLER.modifiers & MODIFIERS_IGNORE != 0;
    assert Candidate(Annotation, MIXED.name, STATIC_HANDLER) == Some(STATIC_ENTRY);
    assert Candidate(Annotation, MIXED.name, TYPO_HANDLER) == None;
    assert Candidate(NamingConvention, MIXED.name, STATIC_HANDLER) == None;
    assert Candidate(NamingConvention, MIXED.name, TYPO_HANDLER) == Some(TYPO_ENTRY);
    var ms := MIXED.declaredMethods;
    assert ms[1..] == [TYPO_HANDLER];
    var a1 := Scan([STATIC_ENTRY], {MethodKey(STATIC_ENTRY)});
    assert ms[0] == STATIC_HANDLER;
    assert [] + [STATIC_ENTRY] == [STATIC_ENTRY];
    assert Visit(Scan([], {}), Candidate(Annotation, MIXED.name, ms[0])) == a1;
    assert ScanMethods(Annotation, MIXED.name, ms, Scan([], {})) ==
           ScanMethods(Annotation, MIXED.name, [TYPO_HANDLER], a1);
    assert ScanMethods(Annotation, MIXED.name, [TYPO_HANDLER], a1) == a1;
    var n1 := Scan([TYPO_ENTRY], {MethodKey(TYPO_ENTRY)});
    assert ScanMethods(NamingConvention, MIXED.name, ms, Scan([], {})) ==
           ScanMethods(NamingConvention, MIXED.name, [TYPO_HANDLER], Scan([], {}));
    assert ScanMethods(NamingConvention, MIXED.name, [TYPO_HANDLER], Scan([], {})) == n1;
    assert WalkNamed([MIXED], Scan([], {})) == WalkNamed([], n1);
  }
}
