/**
 * The plugin registry's ordering discipline (src/plugins.js): descriptors are kept
 * sorted by ascending priority with `Array.prototype.sort`, which is stable.
 */
module Registry {

  import opened Values
  import opened PluginModules
  import opened Sequences

  /** `{pluginModule, config, priority}` */
  datatype Descriptor = Descriptor(pluginModule: PluginModule, config: Value, priority: int)

  /** Non-decreasing in priority. */
  predicate Sorted(s: seq<Descriptor>) {
    forall i, j :: 0 <= i < j < |s| ==> s[i].priority <= s[j].priority
  }

  /** The descriptors of priority `p`, in their order in `s`. */
  function WithPriority(s: seq<Descriptor>, p: int): seq<Descriptor> {
    if s == [] then []
    else WithPriority(s[..|s| - 1], p) + (if s[|s| - 1].priority == p then [s[|s| - 1]] else [])
  }

  /** Places `d` after every trailing element of higher priority. */
  function Insert(s: seq<Descriptor>, d: Descriptor): (r: seq<Descriptor>)
    ensures |r| == |s| + 1
    ensures multiset(r) == multiset(s) + multiset{d}
  {
    if s == [] || s[|s| - 1].priority <= d.priority then s + [d]
    else
      assert s == s[..|s| - 1] + [s[|s| - 1]];
      Insert(s[..|s| - 1], d) + [s[|s| - 1]]
  }

  /** Insertion sort: the arrangement `Array.prototype.sort` gives a priority comparator. */
  function StableSort(s: seq<Descriptor>): (r: seq<Descriptor>)
    ensures |r| == |s|
    ensures multiset(r) == multiset(s)
  {
    if s == [] then []
    else
      assert s == s[..|s| - 1] + [s[|s| - 1]];
      Insert(StableSort(s[..|s| - 1]), s[|s| - 1])
  }

  /** The registry after inserting each of `ds` in turn. */
  function InsertAll(s: seq<Descriptor>, ds: seq<Descriptor>): (r: seq<Descriptor>)
    ensures |r| == |s| + |ds|
  {
    if ds == [] then s else Insert(InsertAll(s, ds[..|ds| - 1]), ds[|ds| - 1])
  }

  /** The number of leading elements of a sorted `s` that `d` goes after. */
  function InsertionPoint(s: seq<Descriptor>, d: Descriptor): (k: nat)
    ensures k <= |s|
  {
    if s == [] || s[|s| - 1].priority <= d.priority then |s| else InsertionPoint(s[..|s| - 1], d)
  }

  /** What the ECMAScript specification demands of a stable sort by ascending priority. */
  ghost predicate IsStableSortOf(r: seq<Descriptor>, s: seq<Descriptor>) {
    Sorted(r) && forall p :: WithPriority(r, p) == WithPriority(s, p)
  }

  lemma {:induction false} WithPriorityMembers(s: seq<Descriptor>, p: int)
    ensures forall e :: e in WithPriority(s, p) ==> e in s && e.priority == p
  {
    if s != [] {
      WithPriorityMembers(s[..|s| - 1], p);
    }
  }

  lemma WithPrioritySnoc(s: seq<Descriptor>, d: Descriptor, p: int)
    ensures WithPriority(s + [d], p) == WithPriority(s, p) + (if d.priority == p then [d] else [])
  {
    assert (s + [d])[..|s|] == s;
  }

  /** Inserting into a sorted registry keeps it sorted. */
  lemma {:induction false} InsertSorted(s: seq<Descriptor>, d: Descriptor)
    requires Sorted(s)
    ensures Sorted(Insert(s, d))
  {
    if s == [] || s[|s| - 1].priority <= d.priority {
    } else {
      var t := s[..|s| - 1];
      var last := s[|s| - 1];
      InsertSorted(t, d);
      var r := Insert(t, d);
      forall i | 0 <= i < |r|
        ensures r[i].priority <= last.priority
      {
        assert r[i] in multiset(r);
        assert r[i] == d || r[i] in multiset(t);
      }
    }
  }

  lemma {:induction false} InsertShape(s: seq<Descriptor>, d: Descriptor)
    ensures var k := InsertionPoint(s, d);
      && Insert(s, d) == s[..k] + [d] + s[k..]
      && (forall i :: k <= i < |s| ==> d.priority < s[i].priority)
      && (0 < k ==> s[k - 1].priority <= d.priority)
  {
    if s == [] || s[|s| - 1].priority <= d.priority {
      assert s[..|s|] == s;
    } else {
      var t, last := s[..|s| - 1], s[|s| - 1];
      InsertShape(t, d);
      var k := InsertionPoint(t, d);
      assert InsertionPoint(s, d) == k;
      assert Insert(s, d) == Insert(t, d) + [last];
      InitSlices(s, k);
      AppendAssoc(t[..k] + [d], t[k..], [last]);
      forall i | k <= i < |s|
        ensures d.priority < s[i].priority
      {
        if i < |t| {
          assert s[i] == t[i];
        }
      }
      if 0 < k {
        assert s[k - 1] == t[k - 1];
      }
    }
  }

  /** Slicing `s` at `k` before its last element, through its prefix `t`. */
  lemma InitSlices(s: seq<Descriptor>, k: nat)
    requires k < |s|
    ensures s[..k] == s[..|s| - 1][..k]
    ensures s[k..] == s[..|s| - 1][k..] + [s[|s| - 1]]
  {
  }

  /**
   * The new descriptor lands after every element with priority at most its own
   * and before every element with a greater priority; the others keep their order.
   */
  lemma InsertAt(s: seq<Descriptor>, d: Descriptor)
    requires Sorted(s)
    ensures var k := InsertionPoint(s, d);
      && Insert(s, d) == s[..k] + [d] + s[k..]
      && (forall i :: 0 <= i < k ==> s[i].priority <= d.priority)
      && (forall i :: k <= i < |s| ==> d.priority < s[i].priority)
  {
    InsertShape(s, d);
    var k := InsertionPoint(s, d);
    if 0 < k {
      SortedPrefixAtMost(s, k, d.priority);
    }
  }

  /** In a sorted list, everything before position `k` is at most the priority at `k - 1`. */
  lemma SortedPrefixAtMost(s: seq<Descriptor>, k: nat, p: int)
    requires Sorted(s) && 0 < k <= |s| && s[k - 1].priority <= p
    ensures forall i :: 0 <= i < k ==> s[i].priority <= p
  {
    forall i | 0 <= i < k
      ensures s[i].priority <= p
    {
      assert s[i].priority <= s[k - 1].priority;
    }
  }

  /** Descriptors of equal priority keep their relative order when one is inserted. */
  lemma {:induction false} InsertKeepsPriorityOrder(s: seq<Descriptor>, d: Descriptor, p: int)
    requires Sorted(s)
    ensures WithPriority(Insert(s, d), p) == WithPriority(s, p) + (if d.priority == p then [d] else [])
  {
    if s == [] || s[|s| - 1].priority <= d.priority {
      WithPrioritySnoc(s, d, p);
    } else {
      var t := s[..|s| - 1];
      var last := s[|s| - 1];
      SortedInit(s);
      InsertKeepsPriorityOrder(t, d, p);
      assert Insert(s, d) == Insert(t, d) + [last];
      WithPrioritySnoc(Insert(t, d), last, p);
      assert s == t + [last];
      WithPrioritySnoc(t, last, p);
      SwapEmpty(WithPriority(t, p), if d.priority == p then [d] else [], if last.priority == p then [last] else []);
    }
  }

  lemma SortedInit(s: seq<Descriptor>)
    requires Sorted(s) && s != []
    ensures Sorted(s[..|s| - 1])
  {
  }

  /** When one of `x` and `y` is empty, the order in which they are appended does not matter. */
  lemma SwapEmpty(a: seq<Descriptor>, x: seq<Descriptor>, y: seq<Descriptor>)
    requires x == [] || y == []
    ensures a + x + y == a + y + x
  {
  }

  /** StableSort is a stable sort by ascending priority, and a permutation. */
  lemma {:induction false} StableSortSorts(s: seq<Descriptor>)
    ensures IsStableSortOf(StableSort(s), s)
    ensures multiset(StableSort(s)) == multiset(s)
  {
    if s != [] {
      var t := s[..|s| - 1];
      var last := s[|s| - 1];
      StableSortSorts(t);
      InsertSorted(StableSort(t), last);
      forall p
        ensures WithPriority(StableSort(s), p) == WithPriority(s, p)
      {
        InsertKeepsPriorityOrder(StableSort(t), last, p);
        assert s == t + [last];
        WithPrioritySnoc(t, last, p);
      }
    }
  }

  /** The last element of `s` closes its own priority class. */
  lemma LastClosesClass(s: seq<Descriptor>)
    requires s != []
    ensures WithPriority(s, s[|s| - 1].priority) == WithPriority(s[..|s| - 1], s[|s| - 1].priority) + [s[|s| - 1]]
  {
  }

  /** In a sorted `s`, every non-empty priority class is at most the last priority. */
  lemma ClassBelowLast(s: seq<Descriptor>, p: int)
    requires Sorted(s) && s != []
    requires WithPriority(s, p) != []
    ensures p <= s[|s| - 1].priority
  {
    WithPriorityMembers(s, p);
    var e := WithPriority(s, p)[0];
    assert e in WithPriority(s, p);
    var i :| 0 <= i < |s| && s[i] == e;
    assert s[i].priority <= s[|s| - 1].priority;
  }

  /** Removing the same last element from equal classes leaves equal classes. */
  lemma DropLastClasses(a: seq<Descriptor>, b: seq<Descriptor>, p: int)
    requires a != [] && b != [] && a[|a| - 1] == b[|b| - 1]
    requires WithPriority(a, p) == WithPriority(b, p)
    ensures WithPriority(a[..|a| - 1], p) == WithPriority(b[..|b| - 1], p)
  {
    var x := a[|a| - 1];
    var wa, wb := WithPriority(a[..|a| - 1], p), WithPriority(b[..|b| - 1], p);
    if x.priority == p {
      assert WithPriority(a, p) == wa + [x];
      assert WithPriority(b, p) == wb + [x];
      assert (wa + [x])[..|wa|] == wa;
      assert (wb + [x])[..|wb|] == wb;
    } else {
      assert WithPriority(a, p) == wa;
      assert WithPriority(b, p) == wb;
    }
  }

  /** Two sorted arrangements with the same priority classes are equal. */
  lemma {:induction false} SortedClassesDetermine(a: seq<Descriptor>, b: seq<Descriptor>)
    requires Sorted(a) && Sorted(b)
    requires forall p :: WithPriority(a, p) == WithPriority(b, p)
    ensures a == b
    decreases |a| + |b|
  {
    if a == [] && b == [] {
    } else if a == [] {
      LastClosesClass(b);
    } else if b == [] {
      LastClosesClass(a);
    } else {
      var x, y := a[|a| - 1], b[|b| - 1];
      LastClosesClass(a);
      LastClosesClass(b);
      assert WithPriority(a, y.priority) != [];
      assert WithPriority(b, x.priority) != [];
      ClassBelowLast(a, y.priority);
      ClassBelowLast(b, x.priority);
      var c := WithPriority(a, x.priority);
      assert c[|c| - 1] == x;
      assert c == WithPriority(b, y.priority);
      assert x == y;
      var a', b' := a[..|a| - 1], b[..|b| - 1];
      forall p
        ensures WithPriority(a', p) == WithPriority(b', p)
      {
        DropLastClasses(a, b, p);
      }
      SortedClassesDetermine(a', b');
      assert a == a' + [x] && b == b' + [y];
    }
  }

  /** StableSort is exactly the stable sort: no other arrangement meets the specification. */
  lemma StableSortIsTheStableSort(s: seq<Descriptor>, r: seq<Descriptor>)
    ensures IsStableSortOf(r, s) <==> r == StableSort(s)
  {
    StableSortSorts(s);
    if IsStableSortOf(r, s) {
      SortedClassesDetermine(r, StableSort(s));
    }
  }

  /** Sorting an already sorted registry changes nothing. */
  lemma SortedIsFixed(s: seq<Descriptor>)
    requires Sorted(s)
    ensures StableSort(s) == s
  {
    StableSortIsTheStableSort(s, s);
  }

  /** Push-then-sort on a sorted registry is insertion. */
  lemma PushThenSortIsInsert(s: seq<Descriptor>, d: Descriptor)
    requires Sorted(s)
    ensures StableSort(s + [d]) == Insert(s, d)
  {
    assert (s + [d])[..|s|] == s;
    SortedIsFixed(s);
  }

  /** Any sequence of insertions into a sorted registry is the stable sort of all of them. */
  lemma {:induction false} InsertAllIsStableSort(s: seq<Descriptor>, ds: seq<Descriptor>)
    requires Sorted(s)
    ensures InsertAll(s, ds) == StableSort(s + ds)
    ensures Sorted(InsertAll(s, ds))
  {
    if ds == [] {
      assert s + ds == s;
      SortedIsFixed(s);
    } else {
      var t := ds[..|ds| - 1];
      InsertAllIsStableSort(s, t);
      assert (s + ds)[..|s + ds| - 1] == s + t;
      InsertSorted(InsertAll(s, t), ds[|ds| - 1]);
    }
  }

  /** Registering descriptors of one common priority into an empty registry keeps registration order. */
  lemma EqualPrioritiesKeepRegistrationOrder(ds: seq<Descriptor>, p: int)
    requires forall i :: 0 <= i < |ds| ==> ds[i].priority == p
    ensures InsertAll([], ds) == ds
  {
    assert Sorted(ds) by {
      forall i, j | 0 <= i < j < |ds|
        ensures ds[i].priority <= ds[j].priority
      {
      }
    }
    InsertAllIsStableSort([], ds);
    assert [] + ds == ds;
    SortedIsFixed(ds);
  }

  /** Inserting `a` and then `b` is inserting `a + b`. */
  lemma {:induction false} InsertAllAppend(s: seq<Descriptor>, a: seq<Descriptor>, b: seq<Descriptor>)
    ensures InsertAll(InsertAll(s, a), b) == InsertAll(s, a + b)
  {
    if b == [] {
      assert a + b == a;
    } else {
      InsertAllAppend(s, a, b[..|b| - 1]);
      assert (a + b)[..|a + b| - 1] == a + b[..|b| - 1];
    }
  }

  lemma InsertAllSnoc(s: seq<Descriptor>, ds: seq<Descriptor>, d: Descriptor)
    ensures InsertAll(s, ds + [d]) == Insert(InsertAll(s, ds), d)
  {
    assert (ds + [d])[..|ds|] == ds;
  }
}
