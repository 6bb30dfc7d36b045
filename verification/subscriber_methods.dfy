/** Subscriber-method records and the "first occurrence wins" de-duplication
    the finder applies to them. */
module SubscriberMethods {
  import opened Wrappers
  import opened Reflection

  /** One method that receives events: the reflected method (`decl`), the class that
      declares it, its thread mode (`None` is the Java `null` the
      naming-convention finder can produce) and its event type, named by
      the class name of its single parameter. */
  datatype SubscriberMethod = SubscriberMethod(
    decl: MethodDecl,
    declaringClass: string,
    threadMode: Option<ThreadMode>,
    eventType: string)

  /** The de-duplication key `methodName + '>' + paramTypeName`. */
  function MethodKey(e: SubscriberMethod): string
  {
    e.decl.name + ">" + e.eventType
  }

  /** The key a one-parameter declared method would be filed under. */
  function DeclKey(m: MethodDecl): string
    requires |m.parameterTypes| == 1
  {
    m.name + ">" + m.parameterTypes[0]
  }

  function KeysOf(xs: seq<SubscriberMethod>): set<string>
  {
    set e | e in xs :: MethodKey(e)
  }

  predicate DistinctKeys(xs: seq<SubscriberMethod>)
  {
    forall i, j :: 0 <= i < j < |xs| ==> MethodKey(xs[i]) != MethodKey(xs[j])
  }

  /** The key is a faithful encoding of the pair (method name, event type)
      as long as method names contain no '>', which section 4.2.2 of the
      Java Virtual Machine Specification forbids for method names. */
  lemma {:induction false} MethodKeyInjective(a: SubscriberMethod, b: SubscriberMethod)
    requires '>' !in a.decl.name && '>' !in b.decl.name
    ensures MethodKey(a) == MethodKey(b) <==>
            a.decl.name == b.decl.name && a.eventType == b.eventType
  {
    var na, nb := a.decl.name, b.decl.name;
    if MethodKey(a) == MethodKey(b) {
      if |na| < |nb| {
        KeyDiffersAtSeparator(na, nb, a.eventType, b.eventType);
      } else if |nb| < |na| {
        KeyDiffersAtSeparator(nb, na, b.eventType, a.eventType);
      } else {
        assert na == MethodKey(a)[..|na|];
        assert nb == MethodKey(b)[..|nb|];
        assert a.eventType == MethodKey(a)[|na| + 1..];
        assert b.eventType == MethodKey(b)[|nb| + 1..];
      }
    }
  }

  /** A shorter name cannot produce the same key as a longer one: the
      separator of the shorter sits where the longer has a name character. */
  lemma KeyDiffersAtSeparator(short: string, long: string, t1: string, t2: string)
    requires |short| < |long| && '>' !in long
    ensures short + ">" + t1 != long + ">" + t2
  {
    var x, y := short + ">" + t1, long + ">" + t2;
    assert x[|short|] == '>';
    assert y[|short|] == long[|short|];
    assert long[|short|] in long;
  }

  lemma KeysOfCons(e: SubscriberMethod, xs: seq<SubscriberMethod>)
    ensures KeysOf([e] + xs) == {MethodKey(e)} + KeysOf(xs)
  {
    forall k | k in KeysOf([e] + xs)
      ensures k in {MethodKey(e)} + KeysOf(xs)
    {
      var x :| x in [e] + xs && MethodKey(x) == k;
      if x != e {
        assert x in xs;
      }
    }
    forall k | k in KeysOf(xs)
      ensures k in KeysOf([e] + xs)
    {
      var x :| x in xs && MethodKey(x) == k;
      assert x in [e] + xs;
    }
  }

  lemma {:induction false} KeysOfAppend(xs: seq<SubscriberMethod>, ys: seq<SubscriberMethod>)
    ensures KeysOf(xs + ys) == KeysOf(xs) + KeysOf(ys)
    decreases |xs|
  {
    if xs == [] {
      assert xs + ys == ys;
    } else {
      assert xs + ys == [xs[0]] + (xs[1..] + ys);
      assert xs == [xs[0]] + xs[1..];
      KeysOfCons(xs[0], xs[1..] + ys);
      KeysOfCons(xs[0], xs[1..]);
      KeysOfAppend(xs[1..], ys);
    }
  }

  /** Keeps, in order, every element whose key is neither in `seen` nor the
      key of an earlier element: the `HashSet.add(methodKey)` guard of the
      finder's loops. */
  function KeepFirst(xs: seq<SubscriberMethod>, seen: set<string>): (r: seq<SubscriberMethod>)
    ensures |r| <= |xs|
    decreases |xs|
  {
    if xs == [] then []
    else if MethodKey(xs[0]) in seen then KeepFirst(xs[1..], seen)
    else [xs[0]] + KeepFirst(xs[1..], seen + {MethodKey(xs[0])})
  }

  /** The position of the first element carrying key `k`. */
  function FirstIndex(xs: seq<SubscriberMethod>, k: string): (i: nat)
    requires k in KeysOf(xs)
    ensures i < |xs| && MethodKey(xs[i]) == k
    ensures forall j :: 0 <= j < i ==> MethodKey(xs[j]) != k
    decreases |xs|
  {
    if MethodKey(xs[0]) == k then 0
    else
      KeysOfCons(xs[0], xs[1..]);
      assert xs == [xs[0]] + xs[1..];
      1 + FirstIndex(xs[1..], k)
  }

  /** Past a first element with another key, the first position of `k` is
      one more than its first position in the tail. */
  lemma FirstIndexTail(xs: seq<SubscriberMethod>, k: string)
    requires k in KeysOf(xs) && MethodKey(xs[0]) != k
    ensures k in KeysOf(xs[1..]) && FirstIndex(xs, k) == 1 + FirstIndex(xs[1..], k)
  {
    KeysOfCons(xs[0], xs[1..]);
    assert xs == [xs[0]] + xs[1..];
  }

  /** Every kept element is an element of the input whose key was not
      already seen. */
  lemma {:induction false} KeepFirstSound(xs: seq<SubscriberMethod>, seen: set<string>)
    ensures forall e :: e in KeepFirst(xs, seen) ==> e in xs && MethodKey(e) !in seen
    decreases |xs|
  {
    if xs != [] {
      if MethodKey(xs[0]) in seen {
        KeepFirstSound(xs[1..], seen);
      } else {
        KeepFirstSound(xs[1..], seen + {MethodKey(xs[0])});
      }
    }
  }

  /** Exactly the keys of the input that were not already seen survive. */
  lemma {:induction false} KeepFirstKeys(xs: seq<SubscriberMethod>, seen: set<string>)
    ensures KeysOf(KeepFirst(xs, seen)) == KeysOf(xs) - seen
    decreases |xs|
  {
    if xs == [] {
    } else {
      var k := MethodKey(xs[0]);
      assert xs == [xs[0]] + xs[1..];
      KeysOfCons(xs[0], xs[1..]);
      if k in seen {
        KeepFirstKeys(xs[1..], seen);
      } else {
        KeepFirstKeys(xs[1..], seen + {k});
        KeysOfCons(xs[0], KeepFirst(xs[1..], seen + {k}));
      }
    }
  }

  /** No two kept elements share a key. */
  lemma {:induction false} KeepFirstDistinct(xs: seq<SubscriberMethod>, seen: set<string>)
    ensures DistinctKeys(KeepFirst(xs, seen))
    decreases |xs|
  {
    if xs != [] {
      var k := MethodKey(xs[0]);
      if k in seen {
        KeepFirstDistinct(xs[1..], seen);
      } else {
        var rest := KeepFirst(xs[1..], seen + {k});
        KeepFirstDistinct(xs[1..], seen + {k});
        KeepFirstSound(xs[1..], seen + {k});
        var r := [xs[0]] + rest;
        forall i, j | 0 <= i < j < |r|
          ensures MethodKey(r[i]) != MethodKey(r[j])
        {
          if i == 0 {
            assert r[j] == rest[j - 1];
            assert rest[j - 1] in rest;
          } else {
            assert r[i] == rest[i - 1] && r[j] == rest[j - 1];
          }
        }
      }
    }
  }

  /** Every kept element is the first element of the input with its key. */
  lemma {:induction false} KeepFirstFirstWins(xs: seq<SubscriberMethod>, seen: set<string>)
    ensures forall e :: e in KeepFirst(xs, seen) ==>
              MethodKey(e) in KeysOf(xs) && e == xs[FirstIndex(xs, MethodKey(e))]
    decreases |xs|
  {
    KeepFirstSound(xs, seen);
    if xs != [] {
      var k := MethodKey(xs[0]);
      var seen' := if k in seen then seen else seen + {k};
      KeepFirstSound(xs[1..], seen');
      KeepFirstFirstWins(xs[1..], seen');
      forall e | e in KeepFirst(xs[1..], seen')
        ensures MethodKey(e) in KeysOf(xs) && e == xs[FirstIndex(xs, MethodKey(e))]
      {
        assert MethodKey(e) != k;
        assert e in xs;
      }
    }
  }

  /** The keys of `r` occur in `xs`, and in `r` they come in the order of
      their first occurrence in `xs`. */
  ghost predicate InFirstOccurrenceOrder(xs: seq<SubscriberMethod>, r: seq<SubscriberMethod>)
  {
    forall i, j :: 0 <= i < j < |r| ==> KeyOccursEarlier(xs, r[i], r[j])
  }

  /** Both keys occur in `xs`, the key of `a` first. */
  ghost predicate KeyOccursEarlier(xs: seq<SubscriberMethod>, a: SubscriberMethod, b: SubscriberMethod)
  {
    MethodKey(a) in KeysOf(xs) && MethodKey(b) in KeysOf(xs) &&
    FirstIndex(xs, MethodKey(a)) < FirstIndex(xs, MethodKey(b))
  }

  /** An ordering stated against the tail of `xs` carries over to `xs`
      itself when none of the keys is the key of `xs[0]`. */
  lemma OrderPastHead(xs: seq<SubscriberMethod>, r: seq<SubscriberMethod>)
    requires xs != [] && InFirstOccurrenceOrder(xs[1..], r)
    requires forall e :: e in r ==> MethodKey(e) != MethodKey(xs[0])
    ensures InFirstOccurrenceOrder(xs, r)
  {
    forall i, j | 0 <= i < j < |r|
      ensures KeyOccursEarlier(xs, r[i], r[j])
    {
      KeysOfCons(xs[0], xs[1..]);
      assert xs == [xs[0]] + xs[1..];
      assert r[i] in r && r[j] in r;
      FirstIndexTail(xs, MethodKey(r[i]));
      FirstIndexTail(xs, MethodKey(r[j]));
    }
  }

  /** Putting `xs[0]` in front keeps the ordering when no other element has
      its key. */
  lemma OrderWithHead(xs: seq<SubscriberMethod>, r: seq<SubscriberMethod>)
    requires xs != [] && InFirstOccurrenceOrder(xs, r)
    requires forall e :: e in r ==> e in xs && MethodKey(e) != MethodKey(xs[0])
    ensures InFirstOccurrenceOrder(xs, [xs[0]] + r)
  {
    var r' := [xs[0]] + r;
    assert xs[0] in xs;
    forall i, j | 0 <= i < j < |r'|
      ensures KeyOccursEarlier(xs, r'[i], r'[j])
    {
      assert r'[j] == r[j - 1] && r[j - 1] in r;
      if i == 0 {
        if j == 1 {
          assert 0 <= 0 < |r|;
        }
      } else {
        assert r'[i] == r[i - 1];
      }
    }
    assert InFirstOccurrenceOrder(xs, r');
  }

  /** Kept elements appear in the order their keys first occur in the input. */
  lemma {:induction false} KeepFirstOrdered(xs: seq<SubscriberMethod>, seen: set<string>)
    ensures InFirstOccurrenceOrder(xs, KeepFirst(xs, seen))
    decreases |xs|
  {
    if xs != [] {
      var k := MethodKey(xs[0]);
      var seen' := if k in seen then seen else seen + {k};
      var rest := KeepFirst(xs[1..], seen');
      KeepFirstSound(xs[1..], seen');
      KeepFirstOrdered(xs[1..], seen');
      OrderPastHead(xs, rest);
      if k !in seen {
        assert xs == [xs[0]] + xs[1..];
        OrderWithHead(xs, rest);
      }
    }
  }

  /** De-duplicating a concatenation is de-duplicating the first part and
      then the second part with the first part's keys already seen. */
  lemma {:induction false} KeepFirstAppend(xs: seq<SubscriberMethod>, ys: seq<SubscriberMethod>, seen: set<string>)
    ensures KeepFirst(xs + ys, seen) == KeepFirst(xs, seen) + KeepFirst(ys, seen + KeysOf(xs))
    decreases |xs|
  {
    if xs == [] {
      assert xs + ys == ys;
      assert KeysOf(xs) == {};
      assert seen + KeysOf(xs) == seen;
    } else {
      var k := MethodKey(xs[0]);
      assert xs + ys == [xs[0]] + (xs[1..] + ys);
      assert xs == [xs[0]] + xs[1..];
      KeysOfCons(xs[0], xs[1..]);
      if k in seen {
        KeepFirstAppend(xs[1..], ys, seen);
        assert seen + KeysOf(xs) == seen + KeysOf(xs[1..]);
      } else {
        KeepFirstAppend(xs[1..], ys, seen + {k});
        assert seen + {k} + KeysOf(xs[1..]) == seen + KeysOf(xs);
      }
    }
  }
}
