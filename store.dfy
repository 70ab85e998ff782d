/**
 * The count store: a trie keyed by coerced tag values, one level per tag in
 * schema order, ending in leaf counters; the recursive query over it; the
 * increment done by a successful record; and the abstract meaning of a store,
 * the log of tuples recorded into it.
 */
module Store {
  import opened Values

  /**
   * A level of the nested dictionary. A Branch is a dictionary whose entries are
   * kept in insertion order, as Python keeps them; a Leaf is the innermost
   * dictionary, holding only the count.
   */
  datatype Node = Leaf(count: nat) | Branch(entries: seq<Entry>)

  datatype Entry = Entry(key: Value, child: Node)

  /**
   * One position of a query: a wildcard (the tag is not given, or given as None),
   * a union (a list or tuple of values) or an exact value.
   */
  datatype Filter = Wild | AnyOf(values: seq<Value>) | Exactly(value: Value)

  /** The index of the entry with this key, or `|es|` when the key is absent. */
  function IndexOf(es: seq<Entry>, key: Value): (k: nat)
    ensures k <= |es|
    ensures k < |es| ==> es[k].key == key
    ensures forall j | 0 <= j < k :: es[j].key != key
  {
    if es == [] then 0
    else if es[0].key == key then 0
    else 1 + IndexOf(es[1..], key)
  }

  predicate DistinctKeys(es: seq<Entry>)
  {
    forall i, j | 0 <= i < j < |es| :: es[i].key != es[j].key
  }

  /** Every path from the root to a leaf has exactly d edges; keys are distinct at every level. */
  ghost predicate WF(node: Node, d: nat)
    decreases d
  {
    if d == 0 then node.Leaf?
    else
      && node.Branch?
      && DistinctKeys(node.entries)
      && forall i | 0 <= i < |node.entries| :: WF(node.entries[i].child, d - 1)
  }

  /** The level a record creates where none exists: a fresh dictionary, or a count of 0 at the bottom. */
  function Empty(d: nat): (r: Node)
    ensures WF(r, d)
  {
    if d == 0 then Leaf(0) else Branch([])
  }

  /**
   * `_get_count` on a node that exists. A missing node counts 0: an exact value
   * with no entry and every absent member of a union contribute nothing.
   */
  function Query(node: Node, f: seq<Filter>): nat
    decreases node, 1
  {
    if f == [] then
      (if node.Leaf? then node.count else 0)
    else if node.Leaf? then
      0
    else
      match f[0]
      case Wild => SumFrom(node, 0, f[1..])
      case AnyOf(vs) => SumUnion(node, vs, f[1..])
      case Exactly(v) => QueryChild(node, v, f[1..])
  }

  /** The sum, over the entries from index i on, of the children's counts. */
  function SumFrom(node: Node, i: nat, f: seq<Filter>): nat
    requires node.Branch? && i <= |node.entries|
    decreases node, 0, |node.entries| - i
  {
    if i == |node.entries| then 0
    else Query(node.entries[i].child, f) + SumFrom(node, i + 1, f)
  }

  /** `_get_count(current_data.get(v), rest)`. */
  function QueryChild(node: Node, v: Value, f: seq<Filter>): nat
    requires node.Branch?
    decreases node, 0, 0
  {
    var k := IndexOf(node.entries, v);
    if k == |node.entries| then 0 else Query(node.entries[k].child, f)
  }

  /** The sum, over the listed values in order, of the matching child's count. */
  function SumUnion(node: Node, vs: seq<Value>, f: seq<Filter>): nat
    requires node.Branch?
    decreases node, 0, |vs| + 1
  {
    if vs == [] then 0 else QueryChild(node, vs[0], f) + SumUnion(node, vs[1..], f)
  }

  /** `node[key] = child`: replace the entry with that key in place, or append one. */
  function Put(node: Node, key: Value, child: Node): (r: Node)
    requires node.Branch?
    ensures r.Branch?
  {
    var es := node.entries;
    var k := IndexOf(es, key);
    if k < |es| then Branch(es[k := Entry(key, child)]) else Branch(es + [Entry(key, child)])
  }

  /** The child under `key`, or the level a record would create there. */
  function ChildOrEmpty(node: Node, key: Value, d: nat): Node
    requires node.Branch?
  {
    var k := IndexOf(node.entries, key);
    if k < |node.entries| then node.entries[k].child else Empty(d)
  }

  /**
   * The store after recording the coerced tuple p: the leaf at path p goes up by
   * one, the levels and the leaf that are missing being created on the way.
   */
  function Increment(node: Node, p: seq<Value>): (r: Node)
    requires WF(node, |p|)
    ensures WF(r, |p|)
    decreases |p|
  {
    if p == [] then Leaf(node.count + 1)
    else
      var c := ChildOrEmpty(node, p[0], |p| - 1);
      var c' := Increment(c, p[1..]);
      PutPreservesWF(node, p[0], c', |p|);
      Put(node, p[0], c')
  }

  lemma PutPreservesWF(node: Node, key: Value, child: Node, d: nat)
    requires d > 0 && WF(node, d) && WF(child, d - 1)
    ensures WF(Put(node, key, child), d)
  {
    var es := node.entries;
    var k := IndexOf(es, key);
    var es' := Put(node, key, child).entries;
    if k < |es| {
      assert forall i | 0 <= i < |es'| :: es'[i].key == es[i].key;
    } else {
      assert forall i | 0 <= i < |es| :: es'[i] == es[i];
    }
  }

  lemma ChildOrEmptyWF(node: Node, key: Value, d: nat)
    requires WF(node, d + 1)
    ensures WF(ChildOrEmpty(node, key, d), d)
  {
  }

  // ---------------------------------------------------------------------------
  // How Put changes the three sums of a query
  // ---------------------------------------------------------------------------

  lemma {:induction false} IndexOfPut(node: Node, key: Value, child: Node, w: Value)
    requires node.Branch? && DistinctKeys(node.entries) && w != key
    ensures var es' := Put(node, key, child).entries;
      var j := IndexOf(node.entries, w);
      (j < |node.entries| ==> IndexOf(es', w) == j && es'[j] == node.entries[j]) &&
      (j == |node.entries| ==> IndexOf(es', w) == |es'|)
  {
    var es := node.entries;
    var es' := Put(node, key, child).entries;
    var k := IndexOf(es, key);
    var j := IndexOf(es, w);
    assert |es| <= |es'|;
    assert forall i | 0 <= i < |es| :: es'[i].key == es[i].key;
    if j < |es| {
      assert j != k;
      IndexOfUnique(es', w, j);
    } else {
      IndexOfUnique(es', w, |es'|);
    }
  }

  /** A key first found at position j is found there by `IndexOf`. */
  lemma {:induction false} IndexOfUnique(es: seq<Entry>, w: Value, j: nat)
    requires j <= |es| && (j < |es| ==> es[j].key == w)
    requires forall i | 0 <= i < j :: es[i].key != w
    ensures IndexOf(es, w) == j
  {
  }

  lemma QueryChildPut(node: Node, key: Value, child: Node, w: Value, f: seq<Filter>)
    requires node.Branch? && DistinctKeys(node.entries)
    ensures QueryChild(Put(node, key, child), w, f) ==
            if w == key then Query(child, f) else QueryChild(node, w, f)
  {
    if w != key {
      IndexOfPut(node, key, child, w);
    } else {
      var es := node.entries;
      var k := IndexOf(es, key);
      var es' := Put(node, key, child).entries;
      assert es'[k] == Entry(key, child);
      assert forall j | 0 <= j < k :: es'[j] == es[j];
    }
  }

  function Occurrences(vs: seq<Value>, x: Value): nat
  {
    if vs == [] then 0 else (if vs[0] == x then 1 else 0) + Occurrences(vs[1..], x)
  }

  lemma {:induction false} SumUnionPut(node: Node, key: Value, child: Node, vs: seq<Value>, f: seq<Filter>, delta: nat)
    requires node.Branch? && DistinctKeys(node.entries)
    requires Query(child, f) == QueryChild(node, key, f) + delta
    ensures SumUnion(Put(node, key, child), vs, f) == SumUnion(node, vs, f) + Occurrences(vs, key) * delta
  {
    if vs != [] {
      QueryChildPut(node, key, child, vs[0], f);
      SumUnionPut(node, key, child, vs[1..], f, delta);
      var o := Occurrences(vs[1..], key);
      if vs[0] == key {
        calc {
          Occurrences(vs, key) * delta;
          (1 + o) * delta;
          delta + o * delta;
        }
      }
    }
  }

  lemma {:induction false} SumFromReplace(node: Node, k: nat, e: Entry, i: nat, f: seq<Filter>)
    requires node.Branch? && k < |node.entries| && i <= |node.entries|
    ensures var n' := Branch(node.entries[k := e]);
      SumFrom(n', i, f) + (if i <= k then Query(node.entries[k].child, f) else 0) ==
      SumFrom(node, i, f) + (if i <= k then Query(e.child, f) else 0)
    decreases |node.entries| - i
  {
    if i < |node.entries| {
      SumFromReplace(node, k, e, i + 1, f);
    }
  }

  lemma {:induction false} SumFromAppend(node: Node, e: Entry, i: nat, f: seq<Filter>)
    requires node.Branch? && i <= |node.entries|
    ensures SumFrom(Branch(node.entries + [e]), i, f) == SumFrom(node, i, f) + Query(e.child, f)
    decreases |node.entries| - i
  {
    var n' := Branch(node.entries + [e]);
    if i < |node.entries| {
      assert n'.entries[i] == node.entries[i];
      SumFromAppend(node, e, i + 1, f);
    } else {
      assert n'.entries[i] == e;
    }
  }

  lemma SumFromPut(node: Node, key: Value, child: Node, f: seq<Filter>, delta: nat)
    requires node.Branch? && DistinctKeys(node.entries)
    requires Query(child, f) == QueryChild(node, key, f) + delta
    ensures SumFrom(Put(node, key, child), 0, f) == SumFrom(node, 0, f) + delta
  {
    var es := node.entries;
    var k := IndexOf(es, key);
    if k < |es| {
      SumFromReplace(node, k, Entry(key, child), 0, f);
    } else {
      SumFromAppend(node, Entry(key, child), 0, f);
    }
  }

  lemma {:induction false} SumUnionOfEmpty(vs: seq<Value>, f: seq<Filter>)
    ensures SumUnion(Branch([]), vs, f) == 0
  {
    if vs != [] {
      SumUnionOfEmpty(vs[1..], f);
    }
  }

  /** A level created empty counts nothing, whatever the query. */
  lemma QueryEmpty(d: nat, f: seq<Filter>)
    ensures Query(Empty(d), f) == 0
  {
    if d > 0 && f != [] && f[0].AnyOf? {
      SumUnionOfEmpty(f[0].values, f[1..]);
    }
  }

  lemma QueryChildOrEmpty(node: Node, key: Value, d: nat, f: seq<Filter>)
    requires node.Branch?
    ensures Query(ChildOrEmpty(node, key, d), f) == QueryChild(node, key, f)
  {
    if IndexOf(node.entries, key) == |node.entries| {
      QueryEmpty(d, f);
    }
  }

  // ---------------------------------------------------------------------------
  // The dictionary operations, stated without positions
  // ---------------------------------------------------------------------------

  /**
   * `current_data.get(v)` followed by `_get_count`: a key with no entry counts
   * 0, and a key with an entry counts that entry's child.
   */
  lemma QueryChildGet(node: Node, v: Value, f: seq<Filter>)
    requires node.Branch?
    ensures (forall i | 0 <= i < |node.entries| :: node.entries[i].key != v) ==> QueryChild(node, v, f) == 0
    ensures DistinctKeys(node.entries) ==>
      forall i | 0 <= i < |node.entries| && node.entries[i].key == v ::
        QueryChild(node, v, f) == Query(node.entries[i].child, f)
  {
    if DistinctKeys(node.entries) {
      forall i | 0 <= i < |node.entries| && node.entries[i].key == v
        ensures QueryChild(node, v, f) == Query(node.entries[i].child, f)
      {
        IndexOfUnique(node.entries, v, i);
      }
    }
  }

  /** The sum over a list of values is additive: a concatenated list counts both parts, a single value its child. */
  lemma {:induction false} SumUnionConcat(node: Node, vs: seq<Value>, ws: seq<Value>, f: seq<Filter>)
    requires node.Branch?
    ensures SumUnion(node, vs + ws, f) == SumUnion(node, vs, f) + SumUnion(node, ws, f)
    ensures forall v :: SumUnion(node, [v], f) == QueryChild(node, v, f)
    decreases |vs|
  {
    if vs != [] {
      assert (vs + ws)[1..] == vs[1..] + ws;
      SumUnionConcat(node, vs[1..], ws, f);
    } else {
      assert vs + ws == ws;
    }
    forall v
      ensures SumUnion(node, [v], f) == QueryChild(node, v, f)
    {
      assert [v][1..] == [];
    }
  }

  /**
   * `node[key] = child` on a dictionary: an existing key keeps its position and
   * takes the new child, a new key goes last, every other entry stays where it
   * was, and the keys stay distinct.
   */
  lemma PutEntries(node: Node, key: Value, child: Node)
    requires node.Branch? && DistinctKeys(node.entries)
    ensures var es, es' := node.entries, Put(node, key, child).entries;
      && DistinctKeys(es')
      && (forall i | 0 <= i < |es| :: es'[i].key == es[i].key && (es[i].key != key ==> es'[i] == es[i]))
      && (forall i | 0 <= i < |es| && es[i].key == key :: es'[i] == Entry(key, child))
      && ((exists i | 0 <= i < |es| :: es[i].key == key) ==> |es'| == |es|)
      && ((forall i | 0 <= i < |es| :: es[i].key != key) ==> es' == es + [Entry(key, child)])
  {
    var es, es' := node.entries, Put(node, key, child).entries;
    var k := IndexOf(es, key);
    if k < |es| {
      assert forall i | 0 <= i < |es| && es[i].key == key :: i == k;
    } else {
      assert forall i | 0 <= i < |es| :: es'[i] == es[i];
    }
  }

  // ---------------------------------------------------------------------------
  // What a store means: the tuples recorded into it
  // ---------------------------------------------------------------------------

  /** How much one filter position lets the value x count: a union counts x once per listing. */
  function Weight(g: Filter, x: Value): nat
  {
    match g
    case Wild => 1
    case AnyOf(vs) => Occurrences(vs, x)
    case Exactly(v) => if v == x then 1 else 0
  }

  /** How many times the recorded tuple p is counted by the query f. */
  function MatchWeight(p: seq<Value>, f: seq<Filter>): nat
    requires |p| == |f|
  {
    if p == [] then 1 else Weight(f[0], p[0]) * MatchWeight(p[1..], f[1..])
  }

  ghost predicate Shaped(log: seq<seq<Value>>, n: nat)
  {
    forall k | 0 <= k < |log| :: |log[k]| == n
  }

  /** The number of recorded tuples the query f counts, each with its weight. */
  function CountMatches(log: seq<seq<Value>>, f: seq<Filter>): nat
    requires Shaped(log, |f|)
  {
    if log == [] then 0
    else CountMatches(log[..|log| - 1], f) + MatchWeight(log[|log| - 1], f)
  }

  /** The store obtained by recording the tuples of the log, in order, into an empty store of depth n. */
  ghost function Build(n: nat, log: seq<seq<Value>>): (r: Node)
    requires Shaped(log, n)
    ensures WF(r, n)
  {
    if log == [] then Empty(n)
    else Increment(Build(n, log[..|log| - 1]), log[|log| - 1])
  }

  /**
   * Recording p adds to every query exactly the weight with which it counts p,
   * and leaves the store well formed.
   */
  lemma {:induction false} IncrementQuery(node: Node, p: seq<Value>, f: seq<Filter>)
    requires WF(node, |p|) && |f| == |p|
    ensures Query(Increment(node, p), f) == Query(node, f) + MatchWeight(p, f)
    decreases |p|
  {
    if p != [] {
      var c := ChildOrEmpty(node, p[0], |p| - 1);
      var c' := Increment(c, p[1..]);
      IncrementQuery(c, p[1..], f[1..]);
      QueryChildOrEmpty(node, p[0], |p| - 1, f[1..]);
      var delta := MatchWeight(p[1..], f[1..]);
      assert Query(c', f[1..]) == QueryChild(node, p[0], f[1..]) + delta;
      match f[0]
      case Wild =>
        SumFromPut(node, p[0], c', f[1..], delta);
      case AnyOf(vs) =>
        SumUnionPut(node, p[0], c', vs, f[1..], delta);
      case Exactly(w) =>
        QueryChildPut(node, p[0], c', w, f[1..]);
    }
  }

  /** The count a store gives any query is the count of the recorded tuples it matches. */
  lemma {:induction false} BuildQuery(n: nat, log: seq<seq<Value>>, f: seq<Filter>)
    requires Shaped(log, n) && |f| == n
    ensures Query(Build(n, log), f) == CountMatches(log, f)
  {
    if log == [] {
      QueryEmpty(n, f);
    } else {
      BuildQuery(n, log[..|log| - 1], f);
      IncrementQuery(Build(n, log[..|log| - 1]), log[|log| - 1], f);
    }
  }

  // ---------------------------------------------------------------------------
  // Leaves: a record changes exactly one
  // ---------------------------------------------------------------------------

  function Exacts(q: seq<Value>): (f: seq<Filter>)
    ensures |f| == |q| && forall i | 0 <= i < |q| :: f[i] == Exactly(q[i])
  {
    seq(|q|, i requires 0 <= i < |q| => Exactly(q[i]))
  }

  /** The count at the leaf of path q (0 when the path is missing). */
  function Lookup(node: Node, q: seq<Value>): nat
  {
    Query(node, Exacts(q))
  }

  lemma {:induction false} MatchWeightExacts(p: seq<Value>, q: seq<Value>)
    requires |p| == |q|
    ensures MatchWeight(p, Exacts(q)) == if p == q then 1 else 0
  {
    if p != [] {
      assert Exacts(q)[1..] == Exacts(q[1..]);
      MatchWeightExacts(p[1..], q[1..]);
      if p[0] == q[0] && p[1..] == q[1..] {
        assert p == [p[0]] + p[1..] && q == [q[0]] + q[1..];
      }
    }
  }

  /**
   * Recording p adds one to the leaf at path p (a missing leaf counting 0) and
   * changes no other leaf.
   */
  lemma IncrementLookup(node: Node, p: seq<Value>, q: seq<Value>)
    requires WF(node, |p|) && |q| == |p|
    ensures Lookup(Increment(node, p), q) == Lookup(node, q) + (if q == p then 1 else 0)
  {
    IncrementQuery(node, p, Exacts(q));
    MatchWeightExacts(p, q);
  }

  // ---------------------------------------------------------------------------
  // Laws of the query, stated on the recorded tuples
  // ---------------------------------------------------------------------------

  function AllWild(n: nat): (f: seq<Filter>)
    ensures |f| == n && forall i | 0 <= i < n :: f[i] == Wild
  {
    seq(n, _ => Wild)
  }

  lemma {:induction false} MatchWeightAllWild(p: seq<Value>)
    ensures MatchWeight(p, AllWild(|p|)) == 1
  {
    if p != [] {
      assert AllWild(|p|)[1..] == AllWild(|p| - 1);
      MatchWeightAllWild(p[1..]);
    }
  }

  /** A query with every position a wildcard counts every recorded tuple once. */
  lemma {:induction false} CountAllWild(log: seq<seq<Value>>, n: nat)
    requires Shaped(log, n)
    ensures CountMatches(log, AllWild(n)) == |log|
  {
    if log != [] {
      CountAllWild(log[..|log| - 1], n);
      MatchWeightAllWild(log[|log| - 1]);
    }
  }

  /** The weight of p under f with position i set to g factors into g's weight and the rest. */
  lemma {:induction false} MatchWeightAt(p: seq<Value>, f: seq<Filter>, i: nat, g: Filter)
    requires |p| == |f| && i < |f|
    ensures MatchWeight(p, f[i := g]) == Weight(g, p[i]) * MatchWeight(p, f[i := Wild])
  {
    if i == 0 {
      assert f[0 := g][1..] == f[0 := Wild][1..];
    } else {
      var fg, fw := f[i := g], f[i := Wild];
      assert fg[0] == f[0] && fw[0] == f[0];
      assert fg[1..] == f[1..][i - 1 := g];
      assert fw[1..] == f[1..][i - 1 := Wild];
      MatchWeightAt(p[1..], f[1..], i - 1, g);
      var a := Weight(f[0], p[0]);
      var b := Weight(g, p[i]);
      var c := MatchWeight(p[1..], fw[1..]);
      assert MatchWeight(p, fg) == a * (b * c);
      assert MatchWeight(p, fw) == a * c;
      MulSwap(a, b, c);
    }
  }

  lemma MulSwap(a: nat, b: nat, c: nat)
    ensures a * (b * c) == b * (a * c)
  {
  }

  /** The sum, over the listed values, of the weight of p with position i set to each. */
  function SumWeights(p: seq<Value>, f: seq<Filter>, i: nat, vs: seq<Value>): nat
    requires |p| == |f| && i < |f|
  {
    if vs == [] then 0 else MatchWeight(p, f[i := Exactly(vs[0])]) + SumWeights(p, f, i, vs[1..])
  }

  lemma {:induction false} WeightUnion(p: seq<Value>, f: seq<Filter>, i: nat, vs: seq<Value>)
    requires |p| == |f| && i < |f|
    ensures MatchWeight(p, f[i := AnyOf(vs)]) == SumWeights(p, f, i, vs)
  {
    var r := MatchWeight(p, f[i := Wild]);
    MatchWeightAt(p, f, i, AnyOf(vs));
    if vs == [] {
      assert Weight(AnyOf(vs), p[i]) == 0;
    } else {
      MatchWeightAt(p, f, i, Exactly(vs[0]));
      MatchWeightAt(p, f, i, AnyOf(vs[1..]));
      WeightUnion(p, f, i, vs[1..]);
      var o := Occurrences(vs[1..], p[i]);
      var h := if vs[0] == p[i] then 1 else 0;
      assert Weight(AnyOf(vs), p[i]) == h + o;
      assert Weight(Exactly(vs[0]), p[i]) == h;
      assert Weight(AnyOf(vs[1..]), p[i]) == o;
      Distribute(h, o, r);
    }
  }

  lemma Distribute(a: nat, b: nat, c: nat)
    ensures (a + b) * c == a * c + b * c
  {
  }

  /** The sum, over the listed values, of the count with position i set to each exact value. */
  function SumExact(log: seq<seq<Value>>, f: seq<Filter>, i: nat, vs: seq<Value>): nat
    requires Shaped(log, |f|) && i < |f|
  {
    if vs == [] then 0 else CountMatches(log, f[i := Exactly(vs[0])]) + SumExact(log, f, i, vs[1..])
  }

  lemma {:induction false} SumExactSnoc(log: seq<seq<Value>>, f: seq<Filter>, i: nat, vs: seq<Value>)
    requires Shaped(log, |f|) && log != [] && i < |f|
    ensures SumExact(log, f, i, vs) ==
            SumExact(log[..|log| - 1], f, i, vs) + SumWeights(log[|log| - 1], f, i, vs)
  {
    if vs != [] {
      SumExactSnoc(log, f, i, vs[1..]);
    }
  }

  lemma {:induction false} SumExactNoLog(f: seq<Filter>, i: nat, vs: seq<Value>)
    requires i < |f|
    ensures SumExact([], f, i, vs) == 0
  {
    if vs != [] {
      SumExactNoLog(f, i, vs[1..]);
    }
  }

  /**
   * A union at one position counts the sum of the exact counts of the listed
   * values, each value as often as it is listed.
   */
  lemma {:induction false} UnionSplit(log: seq<seq<Value>>, f: seq<Filter>, i: nat, vs: seq<Value>)
    requires Shaped(log, |f|) && i < |f|
    ensures CountMatches(log, f[i := AnyOf(vs)]) == SumExact(log, f, i, vs)
  {
    if log == [] {
      SumExactNoLog(f, i, vs);
    } else {
      UnionSplit(log[..|log| - 1], f, i, vs);
      SumExactSnoc(log, f, i, vs);
      WeightUnion(log[|log| - 1], f, i, vs);
    }
  }

  predicate DistinctValues(vs: seq<Value>)
  {
    forall a, b | 0 <= a < b < |vs| :: vs[a] != vs[b]
  }

  lemma {:induction false} OccurrencesOfDistinct(vs: seq<Value>, x: Value)
    requires DistinctValues(vs) && x in vs
    ensures Occurrences(vs, x) == 1
  {
    if vs[0] == x {
      OccurrencesAbsent(vs[1..], x);
    } else {
      OccurrencesOfDistinct(vs[1..], x);
    }
  }

  lemma {:induction false} OccurrencesAbsent(vs: seq<Value>, x: Value)
    requires x !in vs
    ensures Occurrences(vs, x) == 0
  {
    if vs != [] {
      OccurrencesAbsent(vs[1..], x);
    }
  }

  lemma {:induction false} WildIsFullUnion(log: seq<seq<Value>>, f: seq<Filter>, i: nat, vs: seq<Value>)
    requires Shaped(log, |f|) && i < |f| && DistinctValues(vs)
    requires forall k | 0 <= k < |log| :: log[k][i] in vs
    ensures CountMatches(log, f[i := Wild]) == CountMatches(log, f[i := AnyOf(vs)])
  {
    if log != [] {
      var p := log[|log| - 1];
      WildIsFullUnion(log[..|log| - 1], f, i, vs);
      MatchWeightAt(p, f, i, AnyOf(vs));
      OccurrencesOfDistinct(vs, p[i]);
    }
  }

  /**
   * Marginal identity: summing the exact counts over a list of distinct values
   * that covers every value recorded at position i gives the count with that
   * position a wildcard.
   */
  lemma Marginal(log: seq<seq<Value>>, f: seq<Filter>, i: nat, vs: seq<Value>)
    requires Shaped(log, |f|) && i < |f| && DistinctValues(vs)
    requires forall k | 0 <= k < |log| :: log[k][i] in vs
    ensures CountMatches(log, f[i := Wild]) == SumExact(log, f, i, vs)
  {
    WildIsFullUnion(log, f, i, vs);
    UnionSplit(log, f, i, vs);
  }

  /** A value never recorded at position i counts 0 there. */
  lemma {:induction false} Unrecorded(log: seq<seq<Value>>, f: seq<Filter>, i: nat, v: Value)
    requires Shaped(log, |f|) && i < |f|
    requires forall k | 0 <= k < |log| :: log[k][i] != v
    ensures CountMatches(log, f[i := Exactly(v)]) == 0
  {
    if log != [] {
      Unrecorded(log[..|log| - 1], f, i, v);
      MatchWeightAt(log[|log| - 1], f, i, Exactly(v));
    }
  }
}
