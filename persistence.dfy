/**
 * Reading the count store back from a saved document: the store as JSON spells
 * it (every dictionary key a string), and the rebuild of `_construct_matrix`
 * that walks it level by level and turns each key back into a tag value.
 */
module Persistence {
  import opened Wrappers
  import opened Values
  import opened Schema
  import opened Store

  /**
   * A level of the store as a JSON document holds it: an object whose keys are
   * strings, in the order they were written, or the innermost object holding
   * only the count.
   */
  datatype Doc = DocLeaf(count: nat) | DocObject(members: seq<Member>)

  datatype Member = Member(key: string, child: Doc)

  /**
   * Why a rebuild raises: a key `int()` rejects (or, in the corrected rebuild,
   * a BOOL key other than "true" and "false"), or a document whose nesting
   * does not match the number of tags.
   */
  datatype LoadError = BadKey(key: string) | Malformed

  /** How `json.dumps` spells a dictionary key. */
  function KeyString(v: Value): (r: string)
    ensures v.IntV? ==> ParseInt(r) == Some(v.i)
    ensures v.StrV? ==> r == v.s
    ensures v.BoolV? ==> r == (if v.b then "true" else "false")
  {
    match v
    case IntV(i) => ParseShowInt(i); ShowInt(i)
    case StrV(s) => s
    case BoolV(b) => if b then "true" else "false"
    case NoneV => "null"
  }

  /** The store as `json.dumps` writes it, every key spelled as a string. */
  function Stringify(node: Node): Doc
    decreases node
  {
    match node
    case Leaf(n) => DocLeaf(n)
    case Branch(es) =>
      DocObject(seq(|es|, i requires 0 <= i < |es| => Member(KeyString(es[i].key), Stringify(es[i].child))))
  }

  /** The store as it is saved and read back: the same shape and order, the same counts, every key spelled as a string. */
  lemma StringifyShape(node: Node)
    ensures var d := Stringify(node);
      && (node.Leaf? <==> d.DocLeaf?)
      && (node.Leaf? ==> d.count == node.count)
      && (node.Branch? ==>
            && |d.members| == |node.entries|
            && forall i | 0 <= i < |node.entries| ::
                 d.members[i] == Member(KeyString(node.entries[i].key), Stringify(node.entries[i].child)))
  {
  }

  /**
   * A store whose every level holds keys of its tag's type: a leaf after as
   * many levels as there are types, distinct keys at every level. Such a
   * store is well formed.
   */
  ghost predicate Typed(node: Node, types: seq<ValueType>): (b: bool)
    ensures b ==> WF(node, |types|)
    decreases node
  {
    if types == [] then node.Leaf?
    else
      && node.Branch?
      && DistinctKeys(node.entries)
      && forall i | 0 <= i < |node.entries| ::
           HasType(node.entries[i].key, types[0]) && Typed(node.entries[i].child, types[1..])
  }

  /**
   * The key a level of type t gets back for a saved key: `int(key)` for INT,
   * the string itself for STR, the boolean JSON spelled for BOOL; None when
   * the key cannot be read at that type.
   */
  function ParseKey(t: ValueType, key: string): (r: Option<Value>)
    ensures r.Some? ==> HasType(r.value, t)
    ensures t == Int ==> (r.Some? <==> ParseInt(key).Some?) && (r.Some? ==> r.value.i == ParseInt(key).value)
    ensures t == Str ==> r == Some(StrV(key))
    ensures t == Bool ==> (r.Some? <==> key == "true" || key == "false")
  {
    match t
    case Int => (match ParseInt(key) case Some(n) => Some(IntV(n)) case None => None)
    case Str => Some(StrV(key))
    case Bool =>
      if key == "true" then Some(BoolV(true))
      else if key == "false" then Some(BoolV(false))
      else None
  }

  /** A key of the level's type reads back as itself. */
  lemma ParseKeyString(t: ValueType, v: Value)
    requires HasType(v, t)
    ensures ParseKey(t, KeyString(v)) == Some(v)
  {
    if t == Int {
      ParseShowInt(v.i);
    }
  }

  /** Two keys of one type that `json.dumps` spells alike are the same key. */
  lemma KeyStringInjective(t: ValueType, a: Value, b: Value)
    requires HasType(a, t) && HasType(b, t) && KeyString(a) == KeyString(b)
    ensures a == b
  {
    ParseKeyString(t, a);
    ParseKeyString(t, b);
  }

  /**
   * The saved object of a typed dictionary has pairwise distinct member keys:
   * distinct keys of one type stay distinct once spelled as strings.
   */
  lemma SavedKeysDistinct(node: Node, types: seq<ValueType>)
    requires types != [] && Typed(node, types)
    ensures Stringify(node).DocObject?
    ensures var ms := Stringify(node).members;
      forall i, j | 0 <= i < j < |ms| :: ms[i].key != ms[j].key
  {
    StringifyShape(node);
    var es := node.entries;
    forall i, j | 0 <= i < j < |es|
      ensures KeyString(es[i].key) != KeyString(es[j].key)
    {
      if KeyString(es[i].key) == KeyString(es[j].key) {
        KeyStringInjective(types[0], es[i].key, es[j].key);
      }
    }
  }

  /**
   * The rebuild of `_construct_matrix` with the key types given: each level
   * reads its keys at its own type. A successful rebuild is a typed store.
   */
  function ReadLevel(types: seq<ValueType>, doc: Doc): (r: Result<Node, LoadError>)
    ensures r.Success? ==> Typed(r.value, types)
    decreases doc, 1
  {
    if types == [] then
      (match doc case DocLeaf(n) => Success(Leaf(n)) case DocObject(_) => Failure(Malformed))
    else if doc.DocLeaf? then
      Failure(Malformed)
    else
      ReadMembers(types, doc, 0, Branch([]))
  }

  /**
   * The dictionary comprehension over the members from index i on, adding each
   * to acc: the key is read first, then the value rebuilt; a later duplicate
   * key replaces the value of the first in its place.
   */
  function ReadMembers(types: seq<ValueType>, doc: Doc, i: nat, acc: Node): (r: Result<Node, LoadError>)
    requires types != [] && doc.DocObject? && i <= |doc.members|
    requires Typed(acc, types)
    ensures r.Success? ==> Typed(r.value, types)
    decreases doc, 0, |doc.members| - i
  {
    if i == |doc.members| then Success(acc)
    else
      var m := doc.members[i];
      match ParseKey(types[0], m.key)
      case None => Failure(BadKey(m.key))
      case Some(k) =>
        match ReadLevel(types[1..], m.child)
        case Failure(e) => Failure(e)
        case Success(c) =>
          PutTyped(acc, k, c, types);
          ReadMembers(types, doc, i + 1, Put(acc, k, c))
  }

  /** The key types `_construct_matrix` uses as written: `int(key)` at INT levels, the string key everywhere else. */
  function AsWrittenTypes(types: seq<ValueType>): (r: seq<ValueType>)
    ensures |r| == |types|
    ensures forall i | 0 <= i < |types| :: r[i] == if types[i] == Int then Int else Str
  {
    seq(|types|, i requires 0 <= i < |types| => if types[i] == Int then Int else Str)
  }

  /** The corrected rebuild: every level reads its keys at its own tag's type, BOOL levels included. */
  function RestoreMatrix(types: seq<ValueType>, doc: Doc): (r: Result<Node, LoadError>)
    ensures r.Success? ==> WF(r.value, |types|)
  {
    ReadLevel(types, doc)
  }

  /** `_construct_matrix` as written: BOOL levels keep the keys as the strings JSON spelled. */
  function ConstructMatrix(types: seq<ValueType>, doc: Doc): (r: Result<Node, LoadError>)
    ensures r.Success? ==> WF(r.value, |types|)
  {
    ReadLevel(AsWrittenTypes(types), doc)
  }

  /** Adding a key of the level's type with a typed child keeps a store typed. */
  lemma PutTyped(node: Node, key: Value, child: Node, types: seq<ValueType>)
    requires types != [] && Typed(node, types)
    requires HasType(key, types[0]) && Typed(child, types[1..])
    ensures Typed(Put(node, key, child), types)
  {
    var es := node.entries;
    var k := IndexOf(es, key);
    var es' := Put(node, key, child).entries;
    if k < |es| {
      assert forall i | 0 <= i < |es'| :: es'[i].key == es[i].key;
    } else {
      assert forall i | 0 <= i < |es| :: es'[i] == es[i];
    }
  }

  /** Recording a tuple of the tags' types keeps the store typed. */
  lemma {:induction false} IncrementTyped(node: Node, p: seq<Value>, types: seq<ValueType>)
    requires Typed(node, types) && |p| == |types|
    requires forall i | 0 <= i < |p| :: HasType(p[i], types[i])
    ensures Typed(Increment(node, p), types)
    decreases |p|
  {
    if p != [] {
      var c := ChildOrEmpty(node, p[0], |p| - 1);
      assert Typed(c, types[1..]);
      IncrementTyped(c, p[1..], types[1..]);
      PutTyped(node, p[0], Increment(c, p[1..]), types);
    }
  }

  /** A store replayed from tuples of the tags' types is typed. */
  lemma {:induction false} BuildTyped(log: seq<seq<Value>>, types: seq<ValueType>)
    requires Shaped(log, |types|)
    requires forall k, i | 0 <= k < |log| && 0 <= i < |types| :: HasType(log[k][i], types[i])
    ensures Typed(Build(|types|, log), types)
  {
    if log != [] {
      BuildTyped(log[..|log| - 1], types);
      IncrementTyped(Build(|types|, log[..|log| - 1]), log[|log| - 1], types);
    }
  }

  /**
   * Rebuilding the saved members of a branch from index i on, starting from the
   * entries before i, gives back the branch.
   */
  lemma {:induction false} ReadMembersPrefix(node: Node, types: seq<ValueType>, i: nat)
    requires types != [] && Typed(node, types) && i <= |node.entries|
    ensures Typed(Branch(node.entries[..i]), types)
    ensures ReadMembers(types, Stringify(node), i, Branch(node.entries[..i])) == Success(node)
    decreases node, 0, |node.entries| - i
  {
    var es := node.entries;
    var doc := Stringify(node);
    StringifyShape(node);
    var acc := Branch(es[..i]);
    assert forall j | 0 <= j < i :: acc.entries[j] == es[j];
    if i == |es| {
      assert es[..i] == es;
    } else {
      var e := es[i];
      assert e.child < node;
      ParseKeyString(types[0], e.key);
      RestoreRoundTrip(e.child, types[1..]);
      assert IndexOf(acc.entries, e.key) == i;
      assert Put(acc, e.key, e.child) == Branch(es[..i + 1]);
      ReadMembersPrefix(node, types, i + 1);
    }
  }

  /** The corrected rebuild reads a saved typed store back exactly: same keys, same order, same counts. */
  lemma {:induction false} RestoreRoundTrip(node: Node, types: seq<ValueType>)
    requires Typed(node, types)
    ensures ReadLevel(types, Stringify(node)) == Success(node)
    ensures RestoreMatrix(types, Stringify(node)) == Success(node)
    decreases node, 1
  {
    if types != [] {
      ReadMembersPrefix(node, types, 0);
      assert node.entries[..0] == [];
    }
  }

  /** No level of the store has type BOOL. */
  predicate NoBoolLevels(types: seq<ValueType>)
  {
    forall i | 0 <= i < |types| :: types[i] != Bool
  }

  /** Without BOOL tags, `_construct_matrix` as written reads a saved typed store back exactly. */
  lemma ConstructRoundTrip(node: Node, types: seq<ValueType>)
    requires Typed(node, types)
    requires NoBoolLevels(types)
    ensures ConstructMatrix(types, Stringify(node)) == Success(node)
  {
    assert AsWrittenTypes(types) == types;
    RestoreRoundTrip(node, types);
  }

  /** One record of True under a single BOOL tag, and that store as saved. */
  lemma OneTrueStore()
    ensures Increment(Empty(1), [BoolV(true)]) == Branch([Entry(BoolV(true), Leaf(1))])
    ensures Stringify(Branch([Entry(BoolV(true), Leaf(1))])) == DocObject([Member("true", DocLeaf(1))])
  {
    var node := Branch([Entry(BoolV(true), Leaf(1))]);
    assert Stringify(node).members[0] == Member("true", DocLeaf(1));
  }

  /** The rebuild reading the saved key at type t gets back the key `ParseKey` gives. */
  lemma RestoreOneKey(t: ValueType, k: Value)
    requires ParseKey(t, "true") == Some(k)
    ensures ReadLevel([t], DocObject([Member("true", DocLeaf(1))])) == Success(Branch([Entry(k, Leaf(1))]))
  {
    var doc := DocObject([Member("true", DocLeaf(1))]);
    assert ReadLevel([t][1..], DocLeaf(1)) == Success(Leaf(1));
    var acc := Put(Branch([]), k, Leaf(1));
    assert acc == Branch([Entry(k, Leaf(1))]);
    assert ReadMembers([t], doc, 1, acc) == Success(acc);
  }

  /**
   * With one BOOL tag and one record of True, the count of True is 1 before
   * saving and 0 once `_construct_matrix` as written has rebuilt the store: the
   * key comes back as the string "true". The corrected rebuild keeps the count.
   */
  lemma BoolKeysLostOnReload()
    ensures var node := Increment(Empty(1), [BoolV(true)]);
      && Query(node, [Exactly(BoolV(true))]) == 1
      && ConstructMatrix([Bool], Stringify(node)) == Success(Branch([Entry(StrV("true"), Leaf(1))]))
      && Query(ConstructMatrix([Bool], Stringify(node)).value, [Exactly(BoolV(true))]) == 0
      && Query(RestoreMatrix([Bool], Stringify(node)).value, [Exactly(BoolV(true))]) == 1
  {
    OneTrueStore();
    assert AsWrittenTypes([Bool]) == [Str];
    RestoreOneKey(Str, StrV("true"));
    RestoreOneKey(Bool, BoolV(true));
    var saved := Branch([Entry(StrV("true"), Leaf(1))]);
    assert IndexOf(saved.entries, BoolV(true)) == 1;
    var node := Branch([Entry(BoolV(true), Leaf(1))]);
    assert IndexOf(node.entries, BoolV(true)) == 0;
  }
}
