/** The caching utilities of `utils/cache.py`: the cache key built from a
    prefix and a call's arguments, the cache-aside wrapper around the widgets'
    `get_context_data`, and the invalidation of one key. The cache backend is
    a map from keys to stored values, where a stored `None` is
    indistinguishable from a missing entry. */
module Cache {
  import opened Common

  // ------------------------------------------------------------ string order

  /** Python's `<` on strings: code points compared from the left, a proper
      prefix coming first. */
  predicate Less(a: string, b: string)
    decreases |a|
  {
    if |a| == 0 then |b| > 0
    else if |b| == 0 then false
    else if a[0] == b[0] then Less(a[1..], b[1..])
    else a[0] < b[0]
  }

  lemma {:induction false} LessIrreflexive(a: string)
    ensures !Less(a, a)
    decreases |a|
  {
    if |a| > 0 {
      LessIrreflexive(a[1..]);
    }
  }

  lemma {:induction false} LessTransitive(a: string, b: string, c: string)
    requires Less(a, b) && Less(b, c)
    ensures Less(a, c)
    decreases |a|
  {
    if |a| > 0 && a[0] == b[0] && b[0] == c[0] {
      LessTransitive(a[1..], b[1..], c[1..]);
    }
  }

  lemma {:induction false} LessTotal(a: string, b: string)
    ensures a == b || Less(a, b) || Less(b, a)
    decreases |a|
  {
    if |a| > 0 && |b| > 0 && a[0] == b[0] {
      LessTotal(a[1..], b[1..]);
      if a[1..] == b[1..] {
        assert a == [a[0]] + a[1..] && b == [b[0]] + b[1..];
      }
    }
  }

  // ---------------------------------------------------------- keyword items

  /** A keyword argument, its value already turned into text by `str`. */
  datatype KeywordArg = KeywordArg(name: string, value: string)

  /** The order `sorted` puts `(name, value)` pairs in. */
  predicate ItemLess(a: KeywordArg, b: KeywordArg)
  {
    Less(a.name, b.name) || (a.name == b.name && Less(a.value, b.value))
  }

  lemma ItemIrreflexive(a: KeywordArg)
    ensures !ItemLess(a, a)
  {
    LessIrreflexive(a.name);
    LessIrreflexive(a.value);
  }

  lemma ItemTransitive(a: KeywordArg, b: KeywordArg, c: KeywordArg)
    requires ItemLess(a, b) && ItemLess(b, c)
    ensures ItemLess(a, c)
  {
    if Less(a.name, b.name) && Less(b.name, c.name) {
      LessTransitive(a.name, b.name, c.name);
    } else if a.name == b.name && b.name == c.name {
      LessTransitive(a.value, b.value, c.value);
    }
  }

  lemma ItemTotal(a: KeywordArg, b: KeywordArg)
    ensures a == b || ItemLess(a, b) || ItemLess(b, a)
  {
    LessTotal(a.name, b.name);
    LessTotal(a.value, b.value);
  }

  /** No item is ever followed by a smaller one. */
  predicate Sorted(s: seq<KeywordArg>)
  {
    forall i, j :: 0 <= i < j < |s| ==> !ItemLess(s[j], s[i])
  }

  /** Inserting `x` before the first item not below it. */
  function Insert(x: KeywordArg, s: seq<KeywordArg>): (r: seq<KeywordArg>)
    ensures multiset(r) == multiset(s) + multiset{x}
  {
    if |s| == 0 then [x]
    else if ItemLess(s[0], x) then
      assert s == [s[0]] + s[1..];
      [s[0]] + Insert(x, s[1..])
    else [x] + s
  }

  /** `sorted(kwargs.items())` */
  function SortItems(s: seq<KeywordArg>): (r: seq<KeywordArg>)
    ensures multiset(r) == multiset(s)
  {
    if |s| == 0 then []
    else
      assert s == [s[0]] + s[1..];
      Insert(s[0], SortItems(s[1..]))
  }

  /** The first item of a sorted list is below none of the others. */
  lemma SortedHead(s: seq<KeywordArg>, x: KeywordArg)
    requires Sorted(s) && |s| > 0 && x in multiset(s)
    ensures !ItemLess(x, s[0])
  {
    var j :| 0 <= j < |s| && s[j] == x;
    if j > 0 {
      assert !ItemLess(s[j], s[0]);
    } else {
      ItemIrreflexive(x);
    }
  }

  lemma {:induction false} InsertSorted(x: KeywordArg, s: seq<KeywordArg>)
    requires Sorted(s)
    ensures Sorted(Insert(x, s))
    decreases |s|
  {
    if |s| > 0 {
      if ItemLess(s[0], x) {
        InsertSorted(x, s[1..]);
        InsertAfterHead(x, s);
      } else {
        InsertAtHead(x, s);
      }
    }
  }

  /** An item above the head goes into the tail, and the head stays below
      everything that follows it. */
  lemma InsertAfterHead(x: KeywordArg, s: seq<KeywordArg>)
    requires Sorted(s) && |s| > 0 && ItemLess(s[0], x) && Sorted(Insert(x, s[1..]))
    ensures Sorted(Insert(x, s))
  {
    var r := Insert(x, s);
    var rest := Insert(x, s[1..]);
    assert r == [s[0]] + rest;
    forall j | 0 < j < |r| ensures !ItemLess(r[j], s[0]) {
      assert r[j] == rest[j - 1];
      assert r[j] in multiset(rest);
      if r[j] == x {
        if ItemLess(x, s[0]) {
          ItemTransitive(x, s[0], x);
          ItemIrreflexive(x);
        }
      } else {
        assert r[j] in multiset(s[1..]);
        var k :| 0 <= k < |s[1..]| && s[1..][k] == r[j];
        assert s[k + 1] == r[j];
      }
    }
  }

  /** An item not above the head goes in front of the whole list. */
  lemma InsertAtHead(x: KeywordArg, s: seq<KeywordArg>)
    requires Sorted(s) && |s| > 0 && !ItemLess(s[0], x)
    ensures Sorted(Insert(x, s))
  {
    var r := Insert(x, s);
    assert r == [x] + s;
    ItemTotal(s[0], x);
    forall j | 0 < j < |r| ensures !ItemLess(r[j], x) {
      assert r[j] == s[j - 1];
      if ItemLess(r[j], x) {
        if j - 1 > 0 {
          assert !ItemLess(s[j - 1], s[0]);
        }
        if x != s[0] {
          ItemTransitive(r[j], x, s[0]);
        }
      }
    }
  }

  lemma {:induction false} SortItemsSorted(s: seq<KeywordArg>)
    ensures Sorted(SortItems(s))
    decreases |s|
  {
    if |s| > 0 {
      SortItemsSorted(s[1..]);
      InsertSorted(s[0], SortItems(s[1..]));
    }
  }

  lemma HeadMultiset(s: seq<KeywordArg>)
    requires |s| > 0
    ensures multiset(s[1..]) == multiset(s) - multiset{s[0]}
  {
    assert s == [s[0]] + s[1..];
  }

  lemma SortedTail(s: seq<KeywordArg>)
    requires Sorted(s) && |s| > 0
    ensures Sorted(s[1..])
  {
    forall i, j | 0 <= i < j < |s[1..]| ensures !ItemLess(s[1..][j], s[1..][i]) {
      assert s[1..][j] == s[j + 1] && s[1..][i] == s[i + 1];
    }
  }

  /** Two sorted lists of the same items are the same list. */
  lemma {:induction false} SortedUnique(a: seq<KeywordArg>, b: seq<KeywordArg>)
    requires Sorted(a) && Sorted(b) && multiset(a) == multiset(b)
    ensures a == b
    decreases |a|
  {
    if |a| == 0 {
      EmptyMultiset(b);
    } else {
      assert |b| == |multiset(b)| == |multiset(a)| == |a|;
      assert a[0] in multiset(b) && b[0] in multiset(a);
      SortedHead(b, a[0]);
      SortedHead(a, b[0]);
      ItemTotal(a[0], b[0]);
      HeadMultiset(a);
      HeadMultiset(b);
      SortedTail(a);
      SortedTail(b);
      SortedUnique(a[1..], b[1..]);
    }
  }

  // -------------------------------------------------------------------- keys

  /** `":".join(parts)` */
  function Join(parts: seq<string>): string
  {
    if |parts| == 0 then ""
    else if |parts| == 1 then parts[0]
    else Join(parts[..|parts| - 1]) + ":" + parts[|parts| - 1]
  }

  /** `f"{k}:{v}"` */
  function Item(kw: KeywordArg): string
  {
    kw.name + ":" + kw.value
  }

  /** The parts of a key: the prefix, each positional argument as `str`
      writes it, then each keyword argument as `name:value`, by name. */
  function KeyParts(prefix: string, args: seq<string>, kwargs: seq<KeywordArg>): seq<string>
  {
    [prefix] + args + MapList(SortItems(kwargs), Item)
  }

  /** `get_cache_key(prefix, *args, **kwargs)` */
  function CacheKey(prefix: string, args: seq<string>, kwargs: seq<KeywordArg>): string
  {
    Join(KeyParts(prefix, args, kwargs))
  }

  /** Joining a first part in front of more parts puts a separator after it. */
  lemma {:induction false} JoinFront(p: string, rest: seq<string>)
    requires |rest| > 0
    ensures Join([p] + rest) == p + ":" + Join(rest)
    decreases |rest|
  {
    if |rest| > 1 {
      var front := rest[..|rest| - 1];
      assert ([p] + rest)[..|rest|] == [p] + front;
      JoinFront(p, front);
    }
  }

  /** `part in s` for strings: `part` starts `s` or some later suffix of it. */
  predicate Occurs(part: string, s: string)
    decreases |s|
  {
    part <= s || (|s| > 0 && Occurs(part, s[1..]))
  }

  lemma {:induction false} OccursAfter(u: string, part: string, s: string)
    requires Occurs(part, s)
    ensures Occurs(part, u + s)
    decreases |u|
  {
    if |u| > 0 {
      assert (u + s)[1..] == u[1..] + s;
      OccursAfter(u[1..], part, s);
    } else {
      assert u + s == s;
    }
  }

  lemma {:induction false} OccursBefore(part: string, s: string, w: string)
    requires Occurs(part, s)
    ensures Occurs(part, s + w)
    decreases |s|
  {
    if part <= s {
      assert (s + w)[..|part|] == s[..|part|];
    } else {
      assert (s + w)[1..] == s[1..] + w;
      OccursBefore(part, s[1..], w);
    }
  }

  /** Every part can be found in the joined string. */
  lemma {:induction false} JoinContains(parts: seq<string>, i: nat)
    requires i < |parts|
    ensures Occurs(parts[i], Join(parts))
    decreases |parts|
  {
    var n := |parts|;
    assert Occurs(parts[i], parts[i]) by {
      assert parts[i] <= parts[i];
    }
    if n > 1 {
      var front := parts[..n - 1];
      if i == n - 1 {
        OccursAfter(Join(front) + ":", parts[i], parts[i]);
      } else {
        assert parts[i] == front[i];
        JoinContains(front, i);
        OccursBefore(parts[i], Join(front), ":" + parts[n - 1]);
        assert Join(front) + (":" + parts[n - 1]) == Join(parts);
      }
    }
  }

  /** The key holds the prefix, every positional argument and every keyword
      argument as `name:value`. */
  lemma KeyHoldsEveryPart(prefix: string, args: seq<string>, kwargs: seq<KeywordArg>)
    ensures Occurs(prefix, CacheKey(prefix, args, kwargs))
    ensures forall i :: 0 <= i < |args| ==> Occurs(args[i], CacheKey(prefix, args, kwargs))
    ensures forall kw :: kw in kwargs ==> Occurs(Item(kw), CacheKey(prefix, args, kwargs))
  {
    JoinContains(KeyParts(prefix, args, kwargs), 0);
    forall i | 0 <= i < |args| ensures Occurs(args[i], CacheKey(prefix, args, kwargs)) {
      ArgOccurs(prefix, args, kwargs, i);
    }
    forall kw | kw in kwargs ensures Occurs(Item(kw), CacheKey(prefix, args, kwargs)) {
      KeywordOccurs(prefix, args, kwargs, kw);
    }
  }

  lemma ArgOccurs(prefix: string, args: seq<string>, kwargs: seq<KeywordArg>, i: nat)
    requires i < |args|
    ensures Occurs(args[i], CacheKey(prefix, args, kwargs))
  {
    var parts := KeyParts(prefix, args, kwargs);
    assert parts[1 + i] == args[i];
    JoinContains(parts, 1 + i);
  }

  lemma KeywordOccurs(prefix: string, args: seq<string>, kwargs: seq<KeywordArg>, kw: KeywordArg)
    requires kw in kwargs
    ensures Occurs(Item(kw), CacheKey(prefix, args, kwargs))
  {
    var parts := KeyParts(prefix, args, kwargs);
    var sorted := SortItems(kwargs);
    assert kw in multiset(sorted);
    var j :| 0 <= j < |sorted| && sorted[j] == kw;
    assert parts[1 + |args| + j] == Item(kw);
    JoinContains(parts, 1 + |args| + j);
  }

  /** The key of `get_cache_key("test", "arg1", "arg2", kwarg1="value1")`. */
  lemma ExampleKey()
    ensures CacheKey("test", ["arg1", "arg2"], [KeywordArg("kwarg1", "value1")]) == "test:arg1:arg2:kwarg1:value1"
  {
    var kwargs := [KeywordArg("kwarg1", "value1")];
    assert SortItems(kwargs) == kwargs;
    assert Item(kwargs[0]) == "kwarg1:value1";
    assert MapList(kwargs, Item) == ["kwarg1:value1"];
    assert KeyParts("test", ["arg1", "arg2"], kwargs) == ["test", "arg1", "arg2", "kwarg1:value1"];
    ExampleJoin();
  }

  lemma ExampleJoin()
    ensures Join(["test", "arg1", "arg2", "kwarg1:value1"]) == "test:arg1:arg2:kwarg1:value1"
  {
    var p1: seq<string> := ["test"];
    var p2 := p1 + ["arg1"];
    var p3 := p2 + ["arg2"];
    var p4 := p3 + ["kwarg1:value1"];
    JoinSnoc(p1, "arg1");
    JoinSnoc(p2, "arg2");
    JoinSnoc(p3, "kwarg1:value1");
    assert p4 == ["test", "arg1", "arg2", "kwarg1:value1"];
    assert "test" + ":" + "arg1" + ":" + "arg2" + ":" + "kwarg1:value1" == "test:arg1:arg2:kwarg1:value1";
  }

  /** Appending one more part adds it after a colon. */
  lemma JoinSnoc(parts: seq<string>, last: string)
    requires |parts| > 0
    ensures Join(parts + [last]) == Join(parts) + ":" + last
  {
    assert (parts + [last])[..|parts|] == parts;
  }

  /** The key does not depend on the order in which the keyword arguments
      were supplied. */
  lemma KeyOrderIndependent(prefix: string, args: seq<string>, kwargs: seq<KeywordArg>, reordered: seq<KeywordArg>)
    requires multiset(reordered) == multiset(kwargs)
    ensures CacheKey(prefix, args, reordered) == CacheKey(prefix, args, kwargs)
  {
    SortItemsSorted(kwargs);
    SortItemsSorted(reordered);
    SortedUnique(SortItems(reordered), SortItems(kwargs));
  }

  /** Without arguments the key is the prefix; with any, the prefix and a
      separator start it. */
  lemma KeyShape(prefix: string, args: seq<string>, kwargs: seq<KeywordArg>)
    ensures |args| == 0 && |kwargs| == 0 ==> CacheKey(prefix, args, kwargs) == prefix
    ensures |args| + |kwargs| > 0 ==> prefix + ":" <= CacheKey(prefix, args, kwargs)
  {
    var rest := args + MapList(SortItems(kwargs), Item);
    assert KeyParts(prefix, args, kwargs) == [prefix] + rest;
    assert |SortItems(kwargs)| == |multiset(SortItems(kwargs))| == |kwargs|;
    if |rest| > 0 {
      JoinFront(prefix, rest);
    } else {
      assert [prefix] + rest == [prefix];
    }
  }

  // ------------------------------------------------------------- the wrapper

  /** What one wrapped call returns, whether it ran the wrapped function, and
      the cache afterwards. */
  datatype Outcome<V> = Outcome(data: Option<V>, called: bool, entries: map<string, Option<V>>)

  /** The wrapper's decision for a call under `key`, where `computed` is what
      the wrapped function returns when it runs. */
  function CachedCall<V>(entries: map<string, Option<V>>, enabled: bool, key: string, computed: Option<V>)
    : (o: Outcome<V>)
    ensures !enabled ==> o.called && o.entries == entries
    ensures o.called ==> o.data == computed
    ensures !o.called ==> key in entries && o.data == entries[key] && o.entries == entries
    ensures o.data.None? ==> o.called
    ensures enabled && o.called ==> o.entries == entries[key := computed]
    ensures o.entries - {key} == entries - {key}
  {
    if !enabled then Outcome(computed, true, entries)
    else if key in entries && entries[key].Some? then Outcome(entries[key], false, entries)
    else Outcome(computed, true, entries[key := computed])
  }

  /** Once a call has stored a result, the next call under the same key is
      served from the cache, whatever the function would return now. */
  lemma SecondCallHits<V>(entries: map<string, Option<V>>, key: string, first: Option<V>, second: Option<V>)
    requires first.Some?
    ensures var o1 := CachedCall(entries, true, key, first);
            var o2 := CachedCall(o1.entries, true, key, second);
            !o2.called && o2.data == o1.data && o2.entries == o1.entries
  {
  }

  /** A `None` result is stored but never served: the next call runs the
      function again. */
  lemma NoneIsRecomputed<V>(entries: map<string, Option<V>>, key: string, second: Option<V>)
    ensures var o1 := CachedCall(entries, true, key, None);
            o1.called ==> CachedCall(o1.entries, true, key, second).called
  {
  }

  /** `invalidate_cache(pattern)`: the entry under `insights:pattern` goes,
      every other entry stays. */
  function Invalidated<V>(entries: map<string, Option<V>>, pattern: string): (r: map<string, Option<V>>)
    ensures "insights:" + pattern !in r
    ensures forall k :: k != "insights:" + pattern ==> (k in r <==> k in entries)
    ensures forall k :: k in r ==> r[k] == entries[k]
  {
    entries - {"insights:" + pattern}
  }

  /** After invalidation, a call under the invalidated key runs the function. */
  lemma InvalidatedMisses<V>(entries: map<string, Option<V>>, pattern: string, computed: Option<V>)
    ensures CachedCall(Invalidated(entries, pattern), true, "insights:" + pattern, computed).called
  {
  }

  /** The wrapper's key for a function named `funcName` is the one
      `invalidate_cache(funcName)` removes only when the call has no
      arguments; a widget's `get_context_data` always passes the widget. */
  lemma InvalidateReachesBareCallsOnly(funcName: string, args: seq<string>, kwargs: seq<KeywordArg>)
    ensures CacheKey("insights:" + funcName, args, kwargs) == "insights:" + funcName <==> |args| + |kwargs| == 0
  {
    KeyShape("insights:" + funcName, args, kwargs);
  }

  /** The cache backend behind the wrapper. */
  class WidgetCache<V> {
    var entries: map<string, Option<V>>

    constructor ()
      ensures entries == map[]
    {
      entries := map[];
    }

    /** The `cached_widget_data` wrapper around one call of the function named
        `funcName`; `computed` is what that function returns if it runs, and
        `called` tells whether it ran. The timeout is not modelled. */
    method Call(enabled: bool, funcName: string, args: seq<string>, kwargs: seq<KeywordArg>, computed: Option<V>)
      returns (data: Option<V>, called: bool)
      modifies this
      ensures var o := CachedCall(old(entries), enabled, CacheKey("insights:" + funcName, args, kwargs), computed);
              data == o.data && called == o.called && entries == o.entries
    {
      if !enabled {
        return computed, true;
      }
      var cacheKey := CacheKey("insights:" + funcName, args, kwargs);
      if cacheKey in entries && entries[cacheKey].Some? {
        return entries[cacheKey], false;
      }
      entries := entries[cacheKey := computed];
      return computed, true;
    }

    /** `invalidate_cache(pattern)`; it never fails. */
    method Invalidate(pattern: string)
      modifies this
      ensures entries == Invalidated(old(entries), pattern)
    {
      entries := entries - {"insights:" + pattern};
    }
  }
}
