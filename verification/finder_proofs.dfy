/** What the two finders compute, stated without their loops: the
    candidates each class contributes, how far each walk goes up the
    hierarchy, and how the found methods relate to the declared ones. */
module FinderProofs {
  import opened Wrappers
  import opened Strings
  import opened Reflection
  import opened SubscriberMethods
  import opened Finder

  /** The subscriber methods the declared methods `ms` of class `cls`
      contribute before de-duplication, in declaration order. */
  function Candidates(conv: Convention, cls: string, ms: seq<MethodDecl>): seq<SubscriberMethod>
    decreases |ms|
  {
    if ms == [] then []
    else
      var c := Candidate(conv, cls, ms[0]);
      if c.Some? then [c.value] + Candidates(conv, cls, ms[1..]) else Candidates(conv, cls, ms[1..])
  }

  /** Every candidate is what a declared method of the class contributes. */
  lemma {:induction false} CandidatesSound(conv: Convention, cls: string, ms: seq<MethodDecl>)
    ensures forall e :: e in Candidates(conv, cls, ms) ==>
              e.decl in ms && Candidate(conv, cls, e.decl) == Some(e)
    decreases |ms|
  {
    if ms != [] {
      CandidatesSound(conv, cls, ms[1..]);
      assert forall m :: m in ms[1..] ==> m in ms;
    }
  }

  /** Every declared method that passes the filter is a candidate. */
  lemma {:induction false} CandidatesComplete(conv: Convention, cls: string, ms: seq<MethodDecl>)
    ensures forall m :: m in ms && Subscribes(conv, m) ==>
              Candidate(conv, cls, m).value in Candidates(conv, cls, ms)
    decreases |ms|
  {
    if ms != [] {
      CandidatesComplete(conv, cls, ms[1..]);
      assert forall m :: m in ms ==> m == ms[0] || m in ms[1..];
    }
  }

  function ClassCandidates(conv: Convention, c: ClassDecl): seq<SubscriberMethod>
  {
    Candidates(conv, c.name, c.declaredMethods)
  }

  /** The candidates of a run of classes, subclass first. */
  function ChainCandidates(conv: Convention, cs: ClassChain): seq<SubscriberMethod>
    decreases |cs|
  {
    if cs == [] then [] else ClassCandidates(conv, cs[0]) + ChainCandidates(conv, cs[1..])
  }

  /** Each class's candidates de-duplicated on their own, subclass first. */
  function PerClassKeepFirst(cs: ClassChain): seq<SubscriberMethod>
    decreases |cs|
  {
    if cs == [] then []
    else KeepFirst(ClassCandidates(Annotation, cs[0]), {}) + PerClassKeepFirst(cs[1..])
  }

  /** How many classes of the chain the annotation-based walk scans: the
      start class always, then superclasses up to the first boundary class. */
  function AnnotatedDepth(chain: ClassChain): (n: nat)
    ensures n <= |chain|
    ensures chain != [] ==> 1 <= n
    ensures forall i :: 1 <= i < n ==> !IsBoundaryClass(chain[i].name)
    ensures 0 < n < |chain| ==> IsBoundaryClass(chain[n].name)
    decreases |chain|
  {
    if chain == [] then 0
    else if |chain| == 1 || IsBoundaryClass(chain[1].name) then 1
    else 1 + AnnotatedDepth(chain[1..])
  }

  /** How many classes of the chain the naming-convention walk scans: all
      of them up to the first system class, which may be the start class. */
  function NamedDepth(chain: ClassChain): (n: nat)
    ensures n <= |chain|
    ensures forall i :: 0 <= i < n ==> !IsSystemClass(chain[i].name)
    ensures n < |chain| ==> IsSystemClass(chain[n].name)
    decreases |chain|
  {
    if chain == [] || IsSystemClass(chain[0].name) then 0
    else 1 + NamedDepth(chain[1..])
  }

  /** No two found methods of the same declaring class share a key. */
  ghost predicate DistinctKeysPerClass(r: seq<SubscriberMethod>)
  {
    forall i, j :: 0 <= i < j < |r| && r[i].declaringClass == r[j].declaringClass ==>
      MethodKey(r[i]) != MethodKey(r[j])
  }

  // ---------------------------------------------------------------------
  // The loops, restated

  /** Scanning one class's methods appends the de-duplicated candidates and
      records all of their keys as seen. */
  lemma {:induction false} ScanMethodsIsKeepFirst(conv: Convention, cls: string, ms: seq<MethodDecl>, acc: Scan)
    ensures var cs := Candidates(conv, cls, ms);
            ScanMethods(conv, cls, ms, acc) ==
              Scan(acc.found + KeepFirst(cs, acc.seen), acc.seen + KeysOf(cs))
    decreases |ms|
  {
    var cs := Candidates(conv, cls, ms);
    if ms == [] {
      assert KeysOf(cs) == {};
      assert acc.found + [] == acc.found;
    } else {
      var rest := Candidates(conv, cls, ms[1..]);
      var c := Candidate(conv, cls, ms[0]);
      var acc' := Visit(acc, c);
      assert ScanMethods(conv, cls, ms, acc) == ScanMethods(conv, cls, ms[1..], acc');
      ScanMethodsIsKeepFirst(conv, cls, ms[1..], acc');
      if c.Some? {
        var e := c.value;
        assert cs == [e] + rest;
        KeysOfCons(e, rest);
        if MethodKey(e) !in acc.seen {
          assert acc' == Scan(acc.found + [e], acc.seen + {MethodKey(e)});
          SeqAssoc(acc.found, [e], KeepFirst(rest, acc'.seen));
        } else {
          assert acc' == acc;
        }
      } else {
        assert cs == rest && acc' == acc;
      }
    }
  }

  /** The annotation-based walk yields, subclass first, one block per
      scanned class, each that class's candidates de-duplicated with a
      fresh key set. */
  lemma {:induction false} WalkAnnotatedBlocks(chain: ClassChain, found: seq<SubscriberMethod>)
    ensures WalkAnnotated(chain, found) == found + PerClassKeepFirst(chain[..AnnotatedDepth(chain)])
    decreases |chain|
  {
    if chain == [] {
      assert chain[..0] == [];
    } else {
      var c := chain[0];
      ScanMethodsIsKeepFirst(Annotation, c.name, c.declaredMethods, Scan(found, {}));
      var block := KeepFirst(ClassCandidates(Annotation, c), {});
      var found' := found + block;
      assert ScanMethods(Annotation, c.name, c.declaredMethods, Scan(found, {})).found == found';
      if |chain| == 1 || IsBoundaryClass(chain[1].name) {
        assert WalkAnnotated(chain, found) == found';
        PerClassStep(chain, 0);
      } else {
        assert WalkAnnotated(chain, found) == WalkAnnotated(chain[1..], found');
        WalkAnnotatedBlocks(chain[1..], found');
        var d := AnnotatedDepth(chain[1..]);
        PerClassStep(chain, d);
        SeqAssoc(found, block, PerClassKeepFirst(chain[1..][..d]));
      }
    }
  }

  /** The blocks of the first `1 + d` classes are the first class's block
      followed by those of the next `d`. */
  lemma PerClassStep(chain: ClassChain, d: nat)
    requires d < |chain|
    ensures PerClassKeepFirst(chain[..1 + d]) ==
            KeepFirst(ClassCandidates(Annotation, chain[0]), {}) + PerClassKeepFirst(chain[1..][..d])
  {
    assert chain[..1 + d][1..] == chain[1..][..d];
    if d == 0 {
      assert chain[1..][..0] == [];
    }
  }

  /** The naming-convention walk de-duplicates the candidates of all
      scanned classes as one list, with one key set for the whole walk. */
  lemma {:induction false} WalkNamedFlat(chain: ClassChain, acc: Scan)
    ensures var cs := ChainCandidates(NamingConvention, chain[..NamedDepth(chain)]);
            WalkNamed(chain, acc) == Scan(acc.found + KeepFirst(cs, acc.seen), acc.seen + KeysOf(cs))
    decreases |chain|
  {
    if chain == [] || IsSystemClass(chain[0].name) {
      assert chain[..NamedDepth(chain)] == [];
      assert KeysOf([]) == {};
      assert acc.found + [] == acc.found;
    } else {
      var c := chain[0];
      var c0 := ClassCandidates(NamingConvention, c);
      ScanMethodsIsKeepFirst(NamingConvention, c.name, c.declaredMethods, acc);
      var acc' := Scan(acc.found + KeepFirst(c0, acc.seen), acc.seen + KeysOf(c0));
      assert WalkNamed(chain, acc) == WalkNamed(chain[1..], acc');
      WalkNamedFlat(chain[1..], acc');
      var d := NamedDepth(chain[1..]);
      var rest := ChainCandidates(NamingConvention, chain[1..][..d]);
      ChainCandidatesStep(NamingConvention, chain, d);
      KeepFirstAppend(c0, rest, acc.seen);
      KeysOfAppend(c0, rest);
      SeqAssoc(acc.found, KeepFirst(c0, acc.seen), KeepFirst(rest, acc'.seen));
    }
  }

  lemma SeqAssoc(a: seq<SubscriberMethod>, b: seq<SubscriberMethod>, c: seq<SubscriberMethod>)
    ensures a + b + c == a + (b + c)
  {
  }

  /** The candidates of the first `1 + d` classes are the first class's
      followed by those of the next `d`. */
  lemma ChainCandidatesStep(conv: Convention, chain: ClassChain, d: nat)
    requires d < |chain|
    ensures ChainCandidates(conv, chain[..1 + d]) ==
            ClassCandidates(conv, chain[0]) + ChainCandidates(conv, chain[1..][..d])
  {
    assert chain[..1 + d][1..] == chain[1..][..d];
  }

  /** A cache miss of the naming-convention finder keeps the first
      occurrence of every key among all scanned classes' candidates. */
  lemma ScanByNameIsKeepFirst(chain: ClassChain)
    ensures ScanByName(chain) == KeepFirst(ChainCandidates(NamingConvention, chain[..NamedDepth(chain)]), {})
  {
    WalkNamedFlat(chain, Scan([], {}));
  }

  // ---------------------------------------------------------------------
  // Membership in the concatenated lists

  lemma {:induction false} PerClassMember(cs: ClassChain, e: SubscriberMethod)
    requires e in PerClassKeepFirst(cs)
    ensures exists i :: 0 <= i < |cs| && e in KeepFirst(ClassCandidates(Annotation, cs[i]), {})
    decreases |cs|
  {
    if e !in KeepFirst(ClassCandidates(Annotation, cs[0]), {}) {
      PerClassMember(cs[1..], e);
      var i :| 0 <= i < |cs[1..]| && e in KeepFirst(ClassCandidates(Annotation, cs[1..][i]), {});
      assert cs[1..][i] == cs[i + 1];
    }
  }

  lemma {:induction false} BlockInPerClass(cs: ClassChain, i: nat, e: SubscriberMethod)
    requires i < |cs| && e in KeepFirst(ClassCandidates(Annotation, cs[i]), {})
    ensures e in PerClassKeepFirst(cs)
    decreases i
  {
    if i > 0 {
      assert cs[1..][i - 1] == cs[i];
      BlockInPerClass(cs[1..], i - 1, e);
    }
  }

  lemma {:induction false} ChainMember(conv: Convention, cs: ClassChain, e: SubscriberMethod)
    requires e in ChainCandidates(conv, cs)
    ensures exists i :: 0 <= i < |cs| && e in ClassCandidates(conv, cs[i])
    decreases |cs|
  {
    if e !in ClassCandidates(conv, cs[0]) {
      ChainMember(conv, cs[1..], e);
      var i :| 0 <= i < |cs[1..]| && e in ClassCandidates(conv, cs[1..][i]);
      assert cs[1..][i] == cs[i + 1];
    }
  }

  lemma {:induction false} ClassInChain(conv: Convention, cs: ClassChain, i: nat, e: SubscriberMethod)
    requires i < |cs| && e in ClassCandidates(conv, cs[i])
    ensures e in ChainCandidates(conv, cs)
    decreases i
  {
    if i > 0 {
      assert cs[1..][i - 1] == cs[i];
      ClassInChain(conv, cs[1..], i - 1, e);
    }
  }

  lemma {:induction false} ChainCandidatesAppend(conv: Convention, xs: ClassChain, ys: ClassChain)
    ensures ChainCandidates(conv, xs + ys) == ChainCandidates(conv, xs) + ChainCandidates(conv, ys)
    decreases |xs|
  {
    if xs == [] {
      assert xs + ys == ys;
    } else {
      assert (xs + ys)[1..] == xs[1..] + ys;
      ChainCandidatesAppend(conv, xs[1..], ys);
    }
  }

  /** Every candidate of a run of classes comes from a declared method of
      one of them. */
  lemma ChainCandidateOrigin(conv: Convention, cs: ClassChain, e: SubscriberMethod)
    requires e in ChainCandidates(conv, cs)
    ensures exists k :: 0 <= k < |cs| && e.declaringClass == cs[k].name &&
              e.decl in cs[k].declaredMethods && Candidate(conv, cs[k].name, e.decl) == Some(e)
  {
    ChainMember(conv, cs, e);
    var k :| 0 <= k < |cs| && e in ClassCandidates(conv, cs[k]);
    CandidatesSound(conv, cs[k].name, cs[k].declaredMethods);
  }

  /** Every method the per-class scan keeps comes from a declared method of
      one of the classes. */
  lemma PerClassOrigin(cs: ClassChain, e: SubscriberMethod)
    requires e in PerClassKeepFirst(cs)
    ensures exists k :: 0 <= k < |cs| && e.declaringClass == cs[k].name &&
              e.decl in cs[k].declaredMethods && Candidate(Annotation, cs[k].name, e.decl) == Some(e)
  {
    PerClassMember(cs, e);
    var k :| 0 <= k < |cs| && e in KeepFirst(ClassCandidates(Annotation, cs[k]), {});
    KeepFirstSound(ClassCandidates(Annotation, cs[k]), {});
    CandidatesSound(Annotation, cs[k].name, cs[k].declaredMethods);
  }

  /** A qualifying method of one of the classes puts its key among the
      run's candidate keys. */
  lemma QualifyingKeyInChain(conv: Convention, cs: ClassChain, i: nat, m: MethodDecl)
    requires i < |cs| && m in cs[i].declaredMethods && Subscribes(conv, m)
    ensures DeclKey(m) in KeysOf(ChainCandidates(conv, cs))
  {
    var x := Candidate(conv, cs[i].name, m).value;
    CandidatesComplete(conv, cs[i].name, cs[i].declaredMethods);
    ClassInChain(conv, cs, i, x);
    assert MethodKey(x) == DeclKey(m);
  }

  // ---------------------------------------------------------------------
  // The annotation-based finder

  /** Every method a scan finds is a public, `@EventSubscribe`-annotated,
      one-parameter method declared by one of the scanned classes; its event
      type is that parameter's type and its thread mode the annotation's. */
  lemma AnnotatedSound(chain: ClassChain, e: SubscriberMethod)
    requires e in ScanByAnnotation(chain)
    ensures exists i :: 0 <= i < AnnotatedDepth(chain) &&
              e.declaringClass == chain[i].name && e.decl in chain[i].declaredMethods
    ensures IsPublic(e.decl.modifiers) && e.decl.subscribe.Some?
    ensures e.decl.parameterTypes == [e.eventType]
    ensures e.threadMode == Some(e.decl.subscribe.value.tmode)
  {
    var cs := chain[..AnnotatedDepth(chain)];
    WalkAnnotatedBlocks(chain, []);
    PerClassOrigin(cs, e);
    var k :| 0 <= k < |cs| && e.declaringClass == cs[k].name &&
             e.decl in cs[k].declaredMethods && Candidate(Annotation, cs[k].name, e.decl) == Some(e);
    assert cs[k] == chain[k];
  }

  /** Every qualifying method of a scanned class is represented: some found
      method of that class carries its `name>paramType` key. */
  lemma AnnotatedComplete(chain: ClassChain, i: nat, m: MethodDecl)
    requires i < AnnotatedDepth(chain)
    requires m in chain[i].declaredMethods && SubscribesByAnnotation(m)
    ensures exists e :: e in ScanByAnnotation(chain) &&
              e.declaringClass == chain[i].name && MethodKey(e) == DeclKey(m)
  {
    var cs := chain[..AnnotatedDepth(chain)];
    var cands := ClassCandidates(Annotation, chain[i]);
    var x := Candidate(Annotation, chain[i].name, m).value;
    CandidatesComplete(Annotation, chain[i].name, chain[i].declaredMethods);
    assert MethodKey(x) in KeysOf(cands);
    KeepFirstKeys(cands, {});
    var block := KeepFirst(cands, {});
    assert MethodKey(x) in KeysOf(block);
    var e :| e in block && MethodKey(e) == MethodKey(x);
    KeepFirstSound(cands, {});
    CandidatesSound(Annotation, chain[i].name, chain[i].declaredMethods);
    assert cs[i] == chain[i];
    BlockInPerClass(cs, i, e);
    WalkAnnotatedBlocks(chain, []);
  }

  /** The key set is recreated for every class: within one class no two found
      methods share a key, while the same key may come back once per class. */
  lemma {:induction false} PerClassKeepFirstDistinct(cs: ClassChain)
    requires DistinctNames(cs)
    ensures DistinctKeysPerClass(PerClassKeepFirst(cs))
    decreases |cs|
  {
    if cs != [] {
      var cands := ClassCandidates(Annotation, cs[0]);
      var block := KeepFirst(cands, {});
      var rest := PerClassKeepFirst(cs[1..]);
      var r := block + rest;
      KeepFirstDistinct(cands, {});
      KeepFirstSound(cands, {});
      CandidatesSound(Annotation, cs[0].name, cs[0].declaredMethods);
      PerClassKeepFirstDistinct(cs[1..]);
      forall i, j | 0 <= i < j < |r| && r[i].declaringClass == r[j].declaringClass
        ensures MethodKey(r[i]) != MethodKey(r[j])
      {
        if j < |block| {
          assert r[i] == block[i] && r[j] == block[j];
        } else if i >= |block| {
          assert r[i] == rest[i - |block|] && r[j] == rest[j - |block|];
        } else {
          assert r[i] == block[i] && block[i] in block;
          assert r[j] == rest[j - |block|] && rest[j - |block|] in rest;
          PerClassOrigin(cs[1..], r[j]);
          assert false;
        }
      }
    }
  }

  /** The annotation-based result never repeats a key within one class. */
  lemma AnnotatedDistinctPerClass(chain: ClassChain)
    requires DistinctNames(chain)
    ensures DistinctKeysPerClass(ScanByAnnotation(chain))
  {
    WalkAnnotatedBlocks(chain, []);
    PerClassKeepFirstDistinct(chain[..AnnotatedDepth(chain)]);
  }

  /** No method of `r` follows a method of a class that comes later in
      `chain` (a superclass). */
  ghost predicate SubclassFirst(chain: ClassChain, r: seq<SubscriberMethod>)
  {
    forall i, j, a, b ::
      && 0 <= i < j < |r| && 0 <= a < |chain| && 0 <= b < |chain|
      && r[i].declaringClass == chain[a].name && r[j].declaringClass == chain[b].name
      ==> a <= b
  }

  /** Blocks come subclass first. */
  lemma {:induction false} PerClassKeepFirstOrdered(cs: ClassChain)
    requires DistinctNames(cs)
    ensures SubclassFirst(cs, PerClassKeepFirst(cs))
    decreases |cs|
  {
    if cs != [] {
      var cands := ClassCandidates(Annotation, cs[0]);
      var block := KeepFirst(cands, {});
      var rest := PerClassKeepFirst(cs[1..]);
      var r := block + rest;
      KeepFirstSound(cands, {});
      CandidatesSound(Annotation, cs[0].name, cs[0].declaredMethods);
      PerClassKeepFirstOrdered(cs[1..]);
      forall i, j, a, b |
        && 0 <= i < j < |r| && 0 <= a < |cs| && 0 <= b < |cs|
        && r[i].declaringClass == cs[a].name && r[j].declaringClass == cs[b].name
        ensures a <= b
      {
        if i < |block| {
          assert r[i] == block[i] && block[i] in block;
          assert cs[a].name == cs[0].name;
        } else if a > 0 {
          var i', j' := i - |block|, j - |block|;
          assert r[i] == rest[i'] && r[j] == rest[j'];
          if b == 0 {
            assert rest[j'] in rest;
            PerClassOrigin(cs[1..], r[j]);
            assert false;
          }
          assert cs[1..][a - 1] == cs[a] && cs[1..][b - 1] == cs[b];
          assert SubclassFirst(cs[1..], rest);
          assert rest[i'].declaringClass == cs[1..][a - 1].name;
          assert rest[j'].declaringClass == cs[1..][b - 1].name;
        }
      }
      assert SubclassFirst(cs, r);
    }
  }

  /** An ordering stated against the first `d` classes of a chain of
      distinct names holds against the whole chain, when every method of `r`
      is declared by one of those `d` classes. */
  lemma SubclassFirstWiden(chain: ClassChain, d: nat, r: seq<SubscriberMethod>)
    requires DistinctNames(chain) && d <= |chain|
    requires SubclassFirst(chain[..d], r)
    requires forall e :: e in r ==> exists k :: 0 <= k < d && e.declaringClass == chain[..d][k].name
    ensures SubclassFirst(chain, r)
  {
    var cs := chain[..d];
    forall i, j, a, b |
      && 0 <= i < j < |r| && 0 <= a < |chain| && 0 <= b < |chain|
      && r[i].declaringClass == chain[a].name && r[j].declaringClass == chain[b].name
      ensures a <= b
    {
      assert r[i] in r && r[j] in r;
      var ka :| 0 <= ka < d && r[i].declaringClass == cs[ka].name;
      var kb :| 0 <= kb < d && r[j].declaringClass == cs[kb].name;
      assert cs[ka] == chain[ka] && cs[kb] == chain[kb];
      assert a == ka && b == kb;
      assert cs[a] == chain[a] && cs[b] == chain[b];
    }
  }

  /** The annotation-based result lists a class's methods before those of
      its superclasses. */
  lemma AnnotatedSubclassFirst(chain: ClassChain)
    requires DistinctNames(chain)
    ensures SubclassFirst(chain, ScanByAnnotation(chain))
  {
    var d := AnnotatedDepth(chain);
    var r := ScanByAnnotation(chain);
    WalkAnnotatedBlocks(chain, []);
    assert r == PerClassKeepFirst(chain[..d]);
    PerClassKeepFirstOrdered(chain[..d]);
    forall e | e in r
      ensures exists k :: 0 <= k < d && e.declaringClass == chain[..d][k].name
    {
      PerClassOrigin(chain[..d], e);
    }
    SubclassFirstWiden(chain, d, r);
  }

  // ---------------------------------------------------------------------
  // The naming-convention finder

  /** Every method a legacy scan finds is named `onEvent...`, public,
      free of the ignored modifier bits, has one parameter (its event type)
      and is declared by a scanned class; its thread mode is the one its
      name's suffix spells. */
  lemma NamedSound(chain: ClassChain, e: SubscriberMethod)
    requires e in ScanByName(chain)
    ensures exists i :: 0 <= i < NamedDepth(chain) &&
              e.declaringClass == chain[i].name && e.decl in chain[i].declaredMethods
    ensures StartsWith(e.decl.name, ON_EVENT_METHOD_NAME)
    ensures e.decl.modifiers & PUBLIC != 0 && e.decl.modifiers & MODIFIERS_IGNORE == 0
    ensures e.decl.parameterTypes == [e.eventType]
    ensures e.threadMode == ThreadModeForSuffix(After(e.decl.name, ON_EVENT_METHOD_NAME))
  {
    var cs := chain[..NamedDepth(chain)];
    ScanByNameIsKeepFirst(chain);
    KeepFirstSound(ChainCandidates(NamingConvention, cs), {});
    ChainCandidateOrigin(NamingConvention, cs, e);
    var k :| 0 <= k < |cs| && e.declaringClass == cs[k].name &&
             e.decl in cs[k].declaredMethods && Candidate(NamingConvention, cs[k].name, e.decl) == Some(e);
    assert cs[k] == chain[k];
  }

  /** Every qualifying method of a scanned class has its key among the
      found methods. */
  lemma NamedComplete(chain: ClassChain, i: nat, m: MethodDecl)
    requires i < NamedDepth(chain)
    requires m in chain[i].declaredMethods && SubscribesByName(m)
    ensures DeclKey(m) in KeysOf(ScanByName(chain))
  {
    var cs := chain[..NamedDepth(chain)];
    assert cs[i] == chain[i];
    QualifyingKeyInChain(NamingConvention, cs, i, m);
    ScanByNameIsKeepFirst(chain);
    KeepFirstKeys(ChainCandidates(NamingConvention, cs), {});
  }

  /** The legacy key set spans the whole hierarchy: no key occurs twice in
      the result. */
  lemma NamedDistinct(chain: ClassChain)
    ensures DistinctKeys(ScanByName(chain))
  {
    ScanByNameIsKeepFirst(chain);
    KeepFirstDistinct(ChainCandidates(NamingConvention, chain[..NamedDepth(chain)]), {});
  }

  /** A superclass method whose key a scanned subclass already has is
      dropped. */
  lemma NamedSubclassWins(chain: ClassChain, i: nat, j: nat, m: MethodDecl, e: SubscriberMethod)
    requires DistinctNames(chain)
    requires i < j < NamedDepth(chain)
    requires m in chain[i].declaredMethods && SubscribesByName(m)
    requires e in ScanByName(chain) && e.declaringClass == chain[j].name
    ensures MethodKey(e) != DeclKey(m)
  {
    var cs := chain[..NamedDepth(chain)];
    var sub, sup := cs[..j], cs[j..];
    assert cs == sub + sup;
    var subC := ChainCandidates(NamingConvention, sub);
    var supC := ChainCandidates(NamingConvention, sup);
    ChainCandidatesAppend(NamingConvention, sub, sup);
    ScanByNameIsKeepFirst(chain);
    KeepFirstAppend(subC, supC, {});
    if e in KeepFirst(subC, {}) {
      KeepFirstSound(subC, {});
      ChainCandidateOrigin(NamingConvention, sub, e);
      assert false;
    } else {
      assert e in KeepFirst(supC, {} + KeysOf(subC));
      KeepFirstSound(supC, {} + KeysOf(subC));
      assert sub[i] == chain[i];
      QualifyingKeyInChain(NamingConvention, sub, i, m);
    }
  }

  /** The ignore mask is exactly the four bits ABSTRACT, STATIC, BRIDGE and
      SYNTHETIC: a method passes the mask test iff it has none of them. */
  lemma IgnoreMaskBits(modifiers: bv32)
    ensures MODIFIERS_IGNORE == 0x1448
    ensures modifiers & MODIFIERS_IGNORE == 0 <==>
              modifiers & ABSTRACT == 0 && modifiers & STATIC == 0 &&
              modifiers & BRIDGE == 0 && modifiers & SYNTHETIC == 0
  {
  }

  /** A name suffix selects a thread mode exactly when it is that mode's
      legacy suffix; every other suffix gives no thread mode. */
  lemma ThreadModeForSuffixInverts(suffix: string, mode: ThreadMode)
    ensures ThreadModeForSuffix(suffix) == Some(mode) <==> suffix == LegacySuffix(mode)
    ensures ThreadModeForSuffix(LegacySuffix(mode)) == Some(mode)
  {
  }

  /** A public, one-parameter method with none of the ignored modifier bits,
      named `onEvent` followed by a mode's legacy suffix, is a
      naming-convention handler delivered on that mode. */
  lemma {:induction false} LegacyNameSelectsMode(cls: string, m: MethodDecl, mode: ThreadMode)
    requires m.name == ON_EVENT_METHOD_NAME + LegacySuffix(mode)
    requires IsPublic(m.modifiers) && m.modifiers & MODIFIERS_IGNORE == 0 && |m.parameterTypes| == 1
    ensures Candidate(NamingConvention, cls, m).Some?
    ensures Candidate(NamingConvention, cls, m).value.threadMode == Some(mode)
  {
    AfterConcat(ON_EVENT_METHOD_NAME, LegacySuffix(mode));
  }
}
