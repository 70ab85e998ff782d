/**
 * The engine object: its schema, the nested count store, the raw values seen
 * per tag and the payload log, with the operations that record, count, resolve
 * a tag's range and build a pivot table.
 */
module Engine {
  import opened Wrappers
  import opened Values
  import opened Schema
  import opened Store
  import opened Persistence

  // ---------------------------------------------------------------------------
  // Queries
  // ---------------------------------------------------------------------------

  /** What a keyword argument of a query holds: one value (None: not given) or a list or tuple of values. */
  datatype Arg = One(v: Value) | Many(vs: seq<Value>)

  /**
   * The key a dictionary lookup of v finds at a level whose keys all have type t:
   * Python's `==` makes True the same key as 1 and False the same key as 0.
   */
  function Align(t: ValueType, v: Value): (k: Value)
    ensures forall x | HasType(x, t) :: PyEq(v, x) <==> x == k
  {
    match v
    case BoolV(b) => if t == Int then IntV(if b then 1 else 0) else v
    case IntV(i) => if t == Bool && (i == 0 || i == 1) then BoolV(i == 1) else v
    case _ => v
  }

  function AlignAll(t: ValueType, vs: seq<Value>): seq<Value>
  {
    seq(|vs|, k requires 0 <= k < |vs| => Align(t, vs[k]))
  }

  /** How `_get_count` reads one query position of a tag of type t. */
  function ToFilter(t: ValueType, a: Arg): Filter
  {
    match a
    case One(v) => if v == NoneV then Wild else Exactly(Align(t, v))
    case Many(vs) => AnyOf(AlignAll(t, vs))
  }

  /**
   * The positional query `get_count` builds: one position per tag in schema
   * order, a wildcard where the tag is not named.
   */
  function QueryVector(tags: seq<TagDef>, kw: map<string, Arg>): (q: seq<Filter>)
    ensures |q| == |tags|
  {
    seq(|tags|, i requires 0 <= i < |tags| =>
      if tags[i].name in kw then ToFilter(tags[i].typ, kw[tags[i].name]) else Wild)
  }

  /** How many of the listed values Python's `==` makes equal to x. */
  function PyOccurrences(vs: seq<Value>, x: Value): nat
  {
    if vs == [] then 0 else (if PyEq(vs[0], x) then 1 else 0) + PyOccurrences(vs[1..], x)
  }

  /**
   * How many times `_get_count` counts a stored key x for one argument: None
   * counts every key once, a single value the key equal to it, a list or tuple
   * a key once for each listed value equal to it.
   */
  function ArgWeight(a: Arg, x: Value): nat
  {
    match a
    case One(v) => if v == NoneV || PyEq(v, x) then 1 else 0
    case Many(vs) => PyOccurrences(vs, x)
  }

  lemma {:induction false} AlignAllOccurrences(t: ValueType, vs: seq<Value>, x: Value)
    requires HasType(x, t)
    ensures Occurrences(AlignAll(t, vs), x) == PyOccurrences(vs, x)
    decreases |vs|
  {
    if vs != [] {
      assert AlignAll(t, vs)[1..] == AlignAll(t, vs[1..]);
      AlignAllOccurrences(t, vs[1..], x);
    }
  }

  /** A query position weighs every key of the level's type exactly as the argument does under Python's `==`. */
  lemma ToFilterWeight(t: ValueType, a: Arg)
    ensures forall x | HasType(x, t) :: Weight(ToFilter(t, a), x) == ArgWeight(a, x)
  {
    forall x | HasType(x, t)
      ensures Weight(ToFilter(t, a), x) == ArgWeight(a, x)
    {
      if a.Many? {
        AlignAllOccurrences(t, a.vs, x);
      }
    }
  }

  /** `get_count` reads only the declared tags: an argument under an undeclared name changes no position. */
  lemma QueryVectorIgnoresUndeclared(tags: seq<TagDef>, kw: map<string, Arg>, n: string, a: Arg)
    requires forall i | 0 <= i < |tags| :: tags[i].name != n
    ensures QueryVector(tags, kw[n := a]) == QueryVector(tags, kw)
  {
    var q, q' := QueryVector(tags, kw[n := a]), QueryVector(tags, kw);
    forall i | 0 <= i < |tags|
      ensures q[i] == q'[i]
    {
      assert tags[i].name in kw[n := a] <==> tags[i].name in kw;
    }
  }

  // ---------------------------------------------------------------------------
  // Records
  // ---------------------------------------------------------------------------

  /** `tags.get(name)` on the keyword arguments of a record. */
  function Get(kw: map<string, Value>, name: string): Value
  {
    if name in kw then kw[name] else NoneV
  }

  /**
   * The list comprehension of `set_data`: clean the value of every tag in schema
   * order, raising the first error met.
   */
  function CleanAll(tags: seq<TagDef>, order: seq<string>, kw: map<string, Value>): (r: Result<seq<Value>, RecordError>)
    ensures r.Success? <==> forall i | 0 <= i < |order| :: CleanValue(tags, order[i], Get(kw, order[i])).Success?
    ensures r.Success? ==>
      |r.value| == |order| &&
      forall i | 0 <= i < |order| :: CleanValue(tags, order[i], Get(kw, order[i])) == Success(r.value[i])
    ensures r.Failure? ==> exists i | 0 <= i < |order| :: FirstFailure(tags, order, kw, i, r.error)
  {
    if order == [] then Success([])
    else
      match CleanValue(tags, order[0], Get(kw, order[0]))
      case Failure(e) =>
        assert FirstFailure(tags, order, kw, 0, e);
        Failure(e)
      case Success(v) =>
        assert forall i | 1 <= i < |order| :: order[i] == order[1..][i - 1];
        match CleanAll(tags, order[1..], kw)
        case Failure(e) =>
          FirstFailureShift(tags, order, kw, e);
          Failure(e)
        case Success(rest) => Success([v] + rest)
  }

  /** A first failure among the later tags stays the first once a tag that cleans is put ahead. */
  lemma FirstFailureShift(tags: seq<TagDef>, order: seq<string>, kw: map<string, Value>, e: RecordError)
    requires order != [] && CleanValue(tags, order[0], Get(kw, order[0])).Success?
    ensures forall i | 0 <= i < |order| - 1 ::
      FirstFailure(tags, order[1..], kw, i, e) ==> FirstFailure(tags, order, kw, i + 1, e)
  {
    assert forall i | 1 <= i < |order| :: order[i] == order[1..][i - 1];
  }

  /** Tag `order[i]` is the first whose value does not clean, and e is its error. */
  ghost predicate FirstFailure(tags: seq<TagDef>, order: seq<string>, kw: map<string, Value>, i: nat, e: RecordError)
    requires i < |order|
  {
    && CleanValue(tags, order[i], Get(kw, order[i])) == Failure(e)
    && forall j | 0 <= j < i :: CleanValue(tags, order[j], Get(kw, order[j])).Success?
  }

  function NameSet(tags: seq<TagDef>): (r: set<string>)
    ensures forall n :: n in r <==> exists k | 0 <= k < |tags| :: tags[k].name == n
  {
    if tags == [] then {}
    else
      assert forall k | 1 <= k < |tags| :: tags[k] == tags[1..][k - 1];
      {tags[0].name} + NameSet(tags[1..])
  }

  /**
   * What `set_data` does with its keyword arguments before touching the store:
   * every name must be declared, every tag given, every value coercible.
   */
  function Record(tags: seq<TagDef>, kw: map<string, Value>): Result<seq<Value>, RecordError>
  {
    if !(kw.Keys <= NameSet(tags)) then Failure(UndeclaredTag)
    else if |kw| != |tags| then Failure(TagCountMismatch)
    else CleanAll(tags, Names(tags), kw)
  }

  /** The tuple has, position by position, the types the schema declares. */
  predicate Conforms(p: seq<Value>, tags: seq<TagDef>)
  {
    |p| == |tags| && forall i | 0 <= i < |p| :: HasType(p[i], tags[i].typ)
  }

  /** A successful record yields one value per tag, each coerced to its tag's type from the given value. */
  lemma {:induction false} RecordConforms(tags: seq<TagDef>, kw: map<string, Value>)
    requires ValidSchema(tags) && Record(tags, kw).Success?
    ensures Conforms(Record(tags, kw).value, tags)
    ensures forall i | 0 <= i < |tags| ::
      Coerce(tags[i].typ, Get(kw, tags[i].name)) == Some(Record(tags, kw).value[i])
  {
    var p := Record(tags, kw).value;
    forall i | 0 <= i < |tags|
      ensures HasType(p[i], tags[i].typ) && Coerce(tags[i].typ, Get(kw, tags[i].name)) == Some(p[i])
    {
      FindTagAt(tags, i);
    }
  }

  /** The values of a record are cleaned only after both name checks: cleaning never raises their errors. */
  lemma {:induction false} CleanAllErrors(tags: seq<TagDef>, kw: map<string, Value>)
    ensures CleanAll(tags, Names(tags), kw) != Failure(UndeclaredTag)
    ensures CleanAll(tags, Names(tags), kw) != Failure(TagCountMismatch)
  {
    var r := CleanAll(tags, Names(tags), kw);
    if r.Failure? {
      var i :| 0 <= i < |Names(tags)| && FirstFailure(tags, Names(tags), kw, i, r.error);
      assert r.error.InvalidTagName? || r.error.InvalidValue?;
    }
  }

  /** `set_data` raises "not in defined tag" iff some keyword name is not declared. */
  lemma RecordUndeclared(tags: seq<TagDef>, kw: map<string, Value>)
    ensures Record(tags, kw) == Failure(UndeclaredTag) <==> exists n | n in kw :: n !in NameSet(tags)
  {
    CleanAllErrors(tags, kw);
  }

  /** When `set_data` raises "must be tag to all defined tags", some declared tag was left out. */
  lemma RecordMissingTag(tags: seq<TagDef>, kw: map<string, Value>)
    requires ValidSchema(tags)
    ensures Record(tags, kw) == Failure(TagCountMismatch) ==> kw.Keys < NameSet(tags)
  {
    if Record(tags, kw) == Failure(TagCountMismatch) {
      CleanAllErrors(tags, kw);
      assert kw.Keys <= NameSet(tags) && |kw| != |tags|;
      NameSetSize(tags);
      assert |kw.Keys| != |NameSet(tags)| by {
        assert |kw.Keys| == |kw|;
      }
      assert kw.Keys != NameSet(tags);
    }
  }

  /** A record succeeds iff it names exactly the declared tags and every value converts to its tag's type. */
  lemma RecordSucceeds(tags: seq<TagDef>, kw: map<string, Value>)
    requires ValidSchema(tags)
    ensures Record(tags, kw).Success? <==>
      && kw.Keys == NameSet(tags)
      && forall i | 0 <= i < |tags| :: Coerce(tags[i].typ, Get(kw, tags[i].name)).Some?
  {
    if Record(tags, kw).Success? {
      RecordConforms(tags, kw);
      AllTagsGiven(tags, kw);
    } else if kw.Keys == NameSet(tags) {
      NameSetSize(tags);
      assert |kw.Keys| == |kw|;
      var order := Names(tags);
      if forall i | 0 <= i < |tags| :: Coerce(tags[i].typ, Get(kw, tags[i].name)).Some? {
        forall i | 0 <= i < |order|
          ensures CleanValue(tags, order[i], Get(kw, order[i])).Success?
        {
          FindTagAt(tags, i);
        }
        assert false;
      }
    }
  }

  /** A record that passes the name and count checks gives every declared tag. */
  lemma {:induction false} AllTagsGiven(tags: seq<TagDef>, kw: map<string, Value>)
    requires ValidSchema(tags) && kw.Keys <= NameSet(tags) && |kw| == |tags|
    ensures kw.Keys == NameSet(tags)
  {
    NameSetSize(tags);
    SubsetOfSameSize(kw.Keys, NameSet(tags));
  }

  /** One entry of the payload log: the payload and the keyword arguments it was recorded with. */
  datatype LogEntry = LogEntry(data: Value, tags: map<string, Value>)

  /** Some member of s equals x under Python's `==`. */
  predicate HasEqual(s: set<Value>, x: Value)
  {
    exists y | y in s :: PyEq(y, x)
  }

  /**
   * `s.add(x)` on a Python set: nothing changes when an equal member is already
   * there; otherwise x itself is added, and nothing else.
   */
  function Add(s: set<Value>, x: Value): (r: set<Value>)
    ensures s <= r && HasEqual(r, x)
    ensures forall y | y in r :: y in s || y == x
    ensures HasEqual(s, x) ==> r == s
    ensures !HasEqual(s, x) ==> r == s + {x}
  {
    if HasEqual(s, x) then s
    else
      assert PyEq(x, x);
      s + {x}
  }

  /** The raw values seen per tag after a record with these keyword arguments. */
  function Track(tv: map<string, set<Value>>, kw: map<string, Value>): (r: map<string, set<Value>>)
    ensures r.Keys == tv.Keys
    ensures forall n | n in tv :: tv[n] <= r[n]
  {
    map n | n in tv :: if n in kw then Add(tv[n], kw[n]) else tv[n]
  }

  /** The set of values the raw values S coerce to. */
  ghost function CoercedSet(t: ValueType, S: set<Value>): set<Value>
  {
    set raw | raw in S && Coerce(t, raw).Some? :: Coerce(t, raw).value
  }

  /** One level of the descent of `set_data`: the dictionary passed through and the key taken in it. */
  datatype Frame = Frame(node: Node, key: Value)

  /** The store seen from the root once the level reached by the descent holds t. */
  function Plug(ctx: seq<Frame>, t: Node): Node
    requires forall k | 0 <= k < |ctx| :: ctx[k].node.Branch?
  {
    if ctx == [] then t
    else Plug(ctx[..|ctx| - 1], Put(ctx[|ctx| - 1].node, ctx[|ctx| - 1].key, t))
  }

  // ---------------------------------------------------------------------------
  // The engine invariant
  // ---------------------------------------------------------------------------

  /**
   * The engine invariant: a valid schema in declaration order, one tracked set
   * per tag, recorded tuples that conform to the schema, a store that is the
   * replay of the recorded tuples, and tracked raw values that all coerce and
   * cover every recorded value.
   */
  ghost predicate Inv(tags: seq<TagDef>, tagOrder: seq<string>, matrix: Node,
                      tagValues: map<string, set<Value>>, recorded: seq<seq<Value>>)
  {
    && ValidSchema(tags)
    && tagOrder == Names(tags)
    && tagValues.Keys == NameSet(tags)
    && (forall k | 0 <= k < |recorded| :: Conforms(recorded[k], tags))
    && Shaped(recorded, |tags|)
    && matrix == Build(|tags|, recorded)
    && TrackedCoerce(tags, tagValues)
    && TrackedCover(tags, tagValues, recorded)
  }

  /** Every tracked raw value of a tag coerces to the tag's type. */
  ghost predicate TrackedCoerce(tags: seq<TagDef>, tv: map<string, set<Value>>)
    requires tv.Keys == NameSet(tags)
  {
    forall i | 0 <= i < |tags| :: forall raw | raw in tv[tags[i].name] :: Coerce(tags[i].typ, raw).Some?
  }

  /** Every recorded value is the coercion of a tracked raw value of its tag. */
  ghost predicate TrackedCover(tags: seq<TagDef>, tv: map<string, set<Value>>, log: seq<seq<Value>>)
    requires tv.Keys == NameSet(tags) && Shaped(log, |tags|)
  {
    forall k, i | 0 <= k < |log| && 0 <= i < |tags| :: log[k][i] in CoercedSet(tags[i].typ, tv[tags[i].name])
  }

  /**
   * What a successful record yields: a tuple of the tags' types, every tag
   * given, entry i the conversion of the value given for tag i.
   */
  ghost predicate Cleaned(tags: seq<TagDef>, kw: map<string, Value>, p: seq<Value>)
  {
    && |p| == |tags|
    && kw.Keys == NameSet(tags)
    && forall i | 0 <= i < |tags| :: HasType(p[i], tags[i].typ) && Coerce(tags[i].typ, Get(kw, tags[i].name)) == Some(p[i])
  }

  lemma {:induction false} RecordCleaned(tags: seq<TagDef>, kw: map<string, Value>)
    requires ValidSchema(tags) && Record(tags, kw).Success?
    ensures Cleaned(tags, kw, Record(tags, kw).value)
  {
    RecordConforms(tags, kw);
    AllTagsGiven(tags, kw);
  }

  /** The tracked set of tag i after a record gains the value given for it. */
  lemma {:induction false} TrackedPerTag(tags: seq<TagDef>, tv: map<string, set<Value>>, kw: map<string, Value>,
                                         p: seq<Value>, i: nat)
    requires tv.Keys == NameSet(tags) && Cleaned(tags, kw, p) && i < |tags|
    ensures tags[i].name in tv && tags[i].name in kw
    ensures Track(tv, kw)[tags[i].name] == Add(tv[tags[i].name], kw[tags[i].name])
    ensures Coerce(tags[i].typ, kw[tags[i].name]) == Some(p[i])
  {
    assert tags[i].name in NameSet(tags);
  }

  /** Tracked raw values of every tag still coerce after a successful record. */
  lemma {:induction false} TrackedStillCoerce(tags: seq<TagDef>, tv: map<string, set<Value>>, kw: map<string, Value>,
                                              p: seq<Value>)
    requires tv.Keys == NameSet(tags) && Cleaned(tags, kw, p)
    requires TrackedCoerce(tags, tv)
    ensures TrackedCoerce(tags, Track(tv, kw))
  {
    var tv' := Track(tv, kw);
    forall i | 0 <= i < |tags|
      ensures forall raw | raw in tv'[tags[i].name] :: Coerce(tags[i].typ, raw).Some?
    {
      TrackedPerTag(tags, tv, kw, p, i);
    }
  }

  /** Every recorded value, the new tuple's included, is covered by a tracked raw value. */
  lemma {:induction false} TrackedStillCover(tags: seq<TagDef>, tv: map<string, set<Value>>, kw: map<string, Value>,
                                             log: seq<seq<Value>>, p: seq<Value>)
    requires tv.Keys == NameSet(tags) && Cleaned(tags, kw, p)
    requires Shaped(log, |tags|) && Shaped(log + [p], |tags|)
    requires TrackedCover(tags, tv, log)
    ensures TrackedCover(tags, Track(tv, kw), log + [p])
  {
    var tv' := Track(tv, kw);
    var log' := log + [p];
    forall k, i | 0 <= k < |log'| && 0 <= i < |tags|
      ensures log'[k][i] in CoercedSet(tags[i].typ, tv'[tags[i].name])
    {
      TrackedPerTag(tags, tv, kw, p, i);
      var n := tags[i].name;
      var t := tags[i].typ;
      if k < |log| {
        assert log'[k] == log[k];
        CoercedSetGrows(t, tv[n], tv'[n]);
      } else {
        assert log'[k] == p;
        var y :| y in tv'[n] && PyEq(y, kw[n]);
        CoerceRespectsPyEq(t, y, kw[n]);
        assert Coerce(t, y).value == p[i];
      }
    }
  }

  /**
   * A successful record keeps the engine invariant: with p the cleaned tuple,
   * the store after incrementing at p, the tracked sets after adding the raw
   * values and the log after appending p satisfy it again.
   */
  lemma {:induction false} RecordKeepsInv(tags: seq<TagDef>, tagOrder: seq<string>, matrix: Node,
                                          tagValues: map<string, set<Value>>, recorded: seq<seq<Value>>,
                                          kw: map<string, Value>, p: seq<Value>, matrix': Node,
                                          tagValues': map<string, set<Value>>, recorded': seq<seq<Value>>)
    requires Inv(tags, tagOrder, matrix, tagValues, recorded)
    requires Record(tags, kw) == Success(p) && |p| == |tags|
    requires matrix' == Increment(matrix, p) && tagValues' == Track(tagValues, kw) && recorded' == recorded + [p]
    ensures Inv(tags, tagOrder, matrix', tagValues', recorded')
  {
    RecordCleaned(tags, kw);
    InvAfterRecord(tags, tagOrder, matrix, tagValues, recorded, kw, p);
  }

  /** The invariant after recording the cleaned tuple p of the keyword arguments kw. */
  lemma {:induction false} InvAfterRecord(tags: seq<TagDef>, tagOrder: seq<string>, matrix: Node,
                                          tagValues: map<string, set<Value>>, recorded: seq<seq<Value>>,
                                          kw: map<string, Value>, p: seq<Value>)
    requires Inv(tags, tagOrder, matrix, tagValues, recorded)
    requires Cleaned(tags, kw, p)
    ensures Inv(tags, tagOrder, Increment(matrix, p), Track(tagValues, kw), recorded + [p])
  {
    var r' := recorded + [p];
    assert forall k | 0 <= k < |r'| :: r'[k] == if k < |recorded| then recorded[k] else p;
    TrackedStillCoerce(tags, tagValues, kw, p);
    TrackedStillCover(tags, tagValues, kw, recorded, p);
    InvSnoc(tags, tagOrder, matrix, tagValues, Track(tagValues, kw), recorded, p);
  }

  /** The invariant for one more conforming tuple, once the tracked sets are shown to cover it. */
  lemma {:induction false} InvSnoc(tags: seq<TagDef>, tagOrder: seq<string>, matrix: Node,
                                   tv: map<string, set<Value>>, tv': map<string, set<Value>>,
                                   recorded: seq<seq<Value>>, p: seq<Value>)
    requires Inv(tags, tagOrder, matrix, tv, recorded)
    requires Conforms(p, tags) && Shaped(recorded + [p], |tags|)
    requires tv'.Keys == NameSet(tags) && TrackedCoerce(tags, tv') && TrackedCover(tags, tv', recorded + [p])
    ensures Inv(tags, tagOrder, Increment(matrix, p), tv', recorded + [p])
  {
    var r' := recorded + [p];
    assert forall k | 0 <= k < |r'| :: r'[k] == if k < |recorded| then recorded[k] else p;
    assert r'[..|r'| - 1] == recorded;
  }


  // ---------------------------------------------------------------------------
  // Ranges and tables
  // ---------------------------------------------------------------------------

  datatype RangeError = UnknownTag(name: string) | NoValues | NotIntegers

  /** A value `sort` and `range` treat as an integer: an int, or a bool. */
  predicate Numeric(v: Value)
  {
    v.IntV? || v.BoolV?
  }

  function IntOf(v: Value): int
    requires Numeric(v)
  {
    if v.IntV? then v.i else if v.b then 1 else 0
  }

  /** `list(range(lo, hi + 1))`. */
  function Interval(lo: int, hi: int): (r: seq<Value>)
    requires lo <= hi
    ensures |r| == hi - lo + 1 && forall k | 0 <= k < |r| :: r[k] == IntV(lo + k)
  {
    seq(hi - lo + 1, k => IntV(lo + k))
  }

  ghost predicate AllNumeric(S: set<Value>)
  {
    forall v | v in S :: Numeric(v)
  }

  /** vs lists every integer from the least to the greatest value of S, in increasing order. */
  ghost predicate IsIntervalOf(vs: seq<Value>, S: set<Value>)
    requires AllNumeric(S)
  {
    && |vs| > 0 && vs[0].IntV?
    && (forall k | 0 <= k < |vs| :: vs[k] == IntV(vs[0].i + k))
    && (forall v | v in S :: vs[0].i <= IntOf(v) <= vs[0].i + |vs| - 1)
    && (exists v | v in S :: IntOf(v) == vs[0].i)
    && (exists v | v in S :: IntOf(v) == vs[0].i + |vs| - 1)
  }

  /** vs lists each member of S exactly once, in some order. */
  ghost predicate Enumerates(vs: seq<Value>, S: set<Value>)
  {
    DistinctValues(vs) && forall v :: v in vs <==> v in S
  }

  /** A declared name has a tracked set. */
  lemma TrackedName(tags: seq<TagDef>, tv: map<string, set<Value>>, name: string)
    requires tv.Keys == NameSet(tags) && FindTag(tags, name).Some?
    ensures name in tv
  {
    assert name in NameSet(tags);
  }

  /** `get_range` raises: the tag is unknown, or a RANGE tag has no values or values that are not all integers. */
  ghost predicate RangeFails(tags: seq<TagDef>, tv: map<string, set<Value>>, name: string)
    requires tv.Keys == NameSet(tags)
  {
    match FindTag(tags, name)
    case None => true
    case Some(tag) =>
      TrackedName(tags, tv, name);
      tag.domain == Range && (tv[name] == {} || !AllNumeric(tv[name]))
  }

  /**
   * What `get_range(name, raise_error)` may return: for an unknown tag an error
   * or None; for a DISTINCT tag a listing of its tracked values, in the order
   * Python's set yields; for a RANGE tag the integers from its least to its
   * greatest tracked value, or an error when there is none or they are not all
   * integers.
   */
  ghost predicate IsRange(tags: seq<TagDef>, tv: map<string, set<Value>>, name: string, raiseError: bool,
                          r: Result<Option<seq<Value>>, RangeError>)
    requires tv.Keys == NameSet(tags)
  {
    match FindTag(tags, name)
    case None => r == if raiseError then Failure(UnknownTag(name)) else Success(None)
    case Some(tag) =>
      TrackedName(tags, tv, name);
      var S := tv[name];
      if tag.domain == Distinct then r.Success? && r.value.Some? && Enumerates(r.value.value, S)
      else if S == {} then r == Failure(NoValues)
      else if !AllNumeric(S) then r == Failure(NotIntegers)
      else r.Success? && r.value.Some? && IsIntervalOf(r.value.value, S)
  }

  /** A row or column specification: a tag name, or a tag name with an explicit list of values. */
  datatype Axis = Field(name: string) | Explicit(name: string, values: seq<Value>)

  /** A cell of a pivot table: a label (a value, None or "total") or a count. */
  datatype Cell = Label(v: Value) | Count(n: nat)

  function Labels(vs: seq<Value>): seq<Cell>
  {
    seq(|vs|, k requires 0 <= k < |vs| => Label(vs[k]))
  }

  const TotalLabel := Label(StrV("total"))

  /** The header row: a blank corner, the column values and, if asked, "total". */
  function HeaderRow(cols: seq<Value>, columnTotal: bool): seq<Cell>
  {
    [Label(NoneV)] + Labels(cols) + (if columnTotal then [TotalLabel] else [])
  }

  /** The sum of the counts in a row of cells (labels add nothing). */
  function CellSum(cells: seq<Cell>): nat
  {
    if cells == [] then 0
    else (match cells[0] case Count(n) => n case Label(_) => 0) + CellSum(cells[1..])
  }

  /** The counts of a table row: one per column value cn takes, the filters f fixed. */
  function CountRow(log: seq<seq<Value>>, tags: seq<TagDef>, f: map<string, Arg>, cn: string, cols: seq<Value>): seq<Cell>
    requires Shaped(log, |tags|)
  {
    if cols == [] then []
    else [Count(CountMatches(log, QueryVector(tags, f[cn := One(cols[0])])))] + CountRow(log, tags, f, cn, cols[1..])
  }

  /** A row of `generate_table`: its label cells, the counts across the columns, then, if asked, the count with f alone. */
  function TableRow(log: seq<seq<Value>>, tags: seq<TagDef>, lead: seq<Cell>, f: map<string, Arg>, cn: string,
                    cols: seq<Value>, withTotal: bool): seq<Cell>
    requires Shaped(log, |tags|)
  {
    lead + CountRow(log, tags, f, cn, cols) +
    (if withTotal then [Count(CountMatches(log, QueryVector(tags, f)))] else [])
  }

  /** The label cell of a row, present only when the table has a header. */
  function RowLabel(withLabel: bool, c: Cell): seq<Cell>
  {
    if withLabel then [c] else []
  }

  /**
   * The table `generate_table` builds once both axes are resolved: an
   * optional header row, one data row per row value, an optional total row.
   */
  ghost predicate IsTable(log: seq<seq<Value>>, tags: seq<TagDef>, t: seq<seq<Cell>>, rn: string, rs: seq<Value>,
                          cn: string, cs: seq<Value>, withHeader: bool, withRowTotal: bool, withColumnTotal: bool,
                          filters: map<string, Arg>)
    requires Shaped(log, |tags|)
  {
    var h := if withHeader then 1 else 0;
    && |t| == h + |rs| + (if withRowTotal then 1 else 0)
    && (withHeader ==> t[0] == HeaderRow(cs, withColumnTotal))
    && (forall i | 0 <= i < |rs| ::
          t[h + i] == TableRow(log, tags, RowLabel(withHeader, Label(rs[i])), filters[rn := One(rs[i])],
                               cn, cs, withColumnTotal))
    && (withRowTotal ==>
          t[|t| - 1] == TableRow(log, tags, RowLabel(withHeader, TotalLabel), filters, cn, cs, withColumnTotal))
  }

  /** Header, data rows and footer laid end to end make the table. */
  lemma {:induction false} TableLayout(log: seq<seq<Value>>, tags: seq<TagDef>, header: seq<seq<Cell>>,
                                       body: seq<seq<Cell>>, footer: seq<seq<Cell>>, rn: string, rs: seq<Value>,
                                       cn: string, cs: seq<Value>, withHeader: bool, withRowTotal: bool,
                                       withColumnTotal: bool, filters: map<string, Arg>)
    requires Shaped(log, |tags|)
    requires header == if withHeader then [HeaderRow(cs, withColumnTotal)] else []
    requires |body| == |rs|
    requires forall k | 0 <= k < |rs| ::
      body[k] == TableRow(log, tags, RowLabel(withHeader, Label(rs[k])), filters[rn := One(rs[k])], cn, cs,
                          withColumnTotal)
    requires footer == if withRowTotal then [TableRow(log, tags, RowLabel(withHeader, TotalLabel), filters, cn, cs,
                                                      withColumnTotal)] else []
    ensures IsTable(log, tags, header + body + footer, rn, rs, cn, cs, withHeader, withRowTotal, withColumnTotal,
                    filters)
  {
    var t := header + body + footer;
    assert forall k | 0 <= k < |rs| :: t[|header| + k] == body[k];
  }

  // ---------------------------------------------------------------------------
  // The engine
  // ---------------------------------------------------------------------------

  class DataMatrix {
    var tags: seq<TagDef>
    var tagOrder: seq<string>
    var datas: seq<LogEntry>
    var matrix: Node
    var tagValues: map<string, set<Value>>
    /** The coerced tuples of the successful records, in order. */
    ghost var recorded: seq<seq<Value>>

    ghost predicate Valid()
      reads this
    {
      Inv(tags, tagOrder, matrix, tagValues, recorded)
    }

    /** The values an axis spans, or the error `get_range` raises for it. */
    ghost predicate AxisOk(a: Axis, r: Result<seq<Value>, RangeError>)
      reads this
      requires Valid()
    {
      match a
      case Explicit(_, vs) => r == Success(vs)
      case Field(name) =>
        match r
        case Success(vs) => IsRange(tags, tagValues, name, true, Success(Some(vs)))
        case Failure(e) => IsRange(tags, tagValues, name, true, Failure(e))
    }

    ghost predicate AxisFails(a: Axis)
      reads this
      requires Valid()
    {
      a.Field? && RangeFails(tags, tagValues, a.name)
    }

    /** `_init_tags` once the tags have passed validation. */
    constructor InitTags(schema: seq<TagDef>)
      requires ValidSchema(schema)
      ensures Valid()
      ensures tags == schema && datas == [] && recorded == []
      ensures forall n | n in tagValues :: tagValues[n] == {}
    {
      tags := schema;
      datas := [];
      matrix := Empty(|schema|);
      tagOrder := Names(schema);
      tagValues := map n | n in NameSet(schema) :: {};
      recorded := [];
    }

    /** `DataMatrix(tags)`: validate every tag, then build an empty engine, or raise. */
    static method Create(defs: seq<RawTag>) returns (r: Result<DataMatrix, SchemaError>)
      requires RawNamesDistinct(defs)
      ensures r.Failure? <==> ValidateTags(defs).Failure?
      ensures r.Failure? ==> r.error == ValidateTags(defs).error
      ensures r.Success? ==>
        && fresh(r.value) && r.value.Valid()
        && r.value.tags == ValidateTags(defs).value
        && r.value.datas == [] && r.value.recorded == []
        && forall n | n in r.value.tagValues :: r.value.tagValues[n] == {}
    {
      var checked := ValidateTags(defs);
      if checked.Failure? {
        return Failure(checked.error);
      }
      ValidatedSchemaIsValid(defs);
      var m := new DataMatrix.InitTags(checked.value);
      r := Success(m);
    }

    /**
     * The descent of `set_data`: walk down the nested dictionaries along p,
     * creating each missing level, and add one to the count at the bottom.
     */
    static method IncrementPath(m: Node, p: seq<Value>) returns (updated: Node)
      requires WF(m, |p|)
      ensures updated == Increment(m, p)
    {
      var current := m;
      var ctx: seq<Frame> := [];
      var i := 0;
      while i < |p|
        invariant 0 <= i <= |p|
        invariant WF(current, |p| - i)
        invariant forall k | 0 <= k < |ctx| :: ctx[k].node.Branch?
        invariant Plug(ctx, Increment(current, p[i..])) == Increment(m, p)
      {
        var k := IndexOf(current.entries, p[i]);
        var next := if k < |current.entries| then current.entries[k].child else Empty(|p| - i - 1);
        assert p[i..][1..] == p[i + 1..];
        assert (ctx + [Frame(current, p[i])])[..|ctx|] == ctx;
        ctx := ctx + [Frame(current, p[i])];
        current := next;
        i := i + 1;
      }
      assert p[i..] == [];
      updated := Plug(ctx, Leaf(current.count + 1));
    }

    /** The loop of `set_data` that adds each given raw value to its tag's set. */
    static method TrackValues(tv: map<string, set<Value>>, kw: map<string, Value>) returns (tv': map<string, set<Value>>)
      ensures tv' == Track(tv, kw)
    {
      tv' := tv;
      var pending := kw.Keys;
      while pending != {}
        invariant pending <= kw.Keys
        invariant tv'.Keys == tv.Keys
        invariant forall n | n in tv' ::
          tv'[n] == if n in kw && n !in pending then Add(tv[n], kw[n]) else tv[n]
        decreases pending
      {
        var n :| n in pending;
        if n in tv' {
          tv' := tv'[n := Add(tv'[n], kw[n])];
        }
        pending := pending - {n};
      }
    }

    /**
     * `set_data(data, **kw)`. The payload is logged first, even when the record
     * then fails; a failing record leaves the store, the tracked values and the
     * recorded tuples as they were. A successful one increments the leaf at the
     * path of coerced values and adds the raw values to the tracked sets.
     */
    method SetData(data: Value, kw: map<string, Value>) returns (res: Outcome<RecordError>)
      requires Valid()
      modifies this
      ensures Valid()
      ensures tags == old(tags) && tagOrder == old(tagOrder)
      ensures datas == old(datas) + (if data != NoneV then [LogEntry(data, kw)] else [])
      ensures res.Fail? <==> Record(tags, kw).Failure?
      ensures res.Fail? ==>
        && res.error == Record(tags, kw).error
        && matrix == old(matrix) && tagValues == old(tagValues) && recorded == old(recorded)
      ensures res.Pass? ==>
        && |Record(tags, kw).value| == |tags|
        && recorded == old(recorded) + [Record(tags, kw).value]
        && matrix == Increment(old(matrix), Record(tags, kw).value)
        && tagValues == Track(old(tagValues), kw)
    {
      if data != NoneV {
        datas := datas + [LogEntry(data, kw)];
      }
      if !(kw.Keys <= NameSet(tags)) {
        return Fail(UndeclaredTag);
      }
      if |kw| != |tags| {
        return Fail(TagCountMismatch);
      }
      var cleaned := CleanAll(tags, tagOrder, kw);
      if cleaned.Failure? {
        return Fail(cleaned.error);
      }
      var ordered := cleaned.value;
      assert Record(tags, kw) == Success(ordered);
      ghost var matrix0, tagValues0, recorded0 := matrix, tagValues, recorded;
      var updated := IncrementPath(matrix, ordered);
      var tv := TrackValues(tagValues, kw);
      matrix := updated;
      tagValues := tv;
      recorded := recorded + [ordered];
      RecordKeepsInv(tags, tagOrder, matrix0, tagValues0, recorded0, kw, ordered, matrix, tagValues, recorded);
      res := Pass;
    }

    /**
     * `get_count(**kw)`: build the positional query in schema order, ignoring
     * names that are not tags, and count. The count is that of the recorded
     * tuples the query matches.
     */
    method GetCount(kw: map<string, Arg>) returns (r: nat)
      requires Valid()
      ensures r == CountMatches(recorded, QueryVector(tags, kw))
    {
      var q := QueryOf(tags, tagOrder, kw);
      BuildQuery(|tags|, recorded, q);
      r := Query(matrix, q);
    }

    /** The loop of `get_count` over `_tag_order`: the given argument of each tag, or a wildcard. */
    static method QueryOf(tags: seq<TagDef>, order: seq<string>, kw: map<string, Arg>) returns (q: seq<Filter>)
      requires order == Names(tags)
      ensures q == QueryVector(tags, kw)
    {
      ghost var full := QueryVector(tags, kw);
      q := [];
      var i := 0;
      while i < |order|
        invariant 0 <= i <= |order|
        invariant |q| == i && forall k | 0 <= k < i :: q[k] == full[k]
      {
        var name := order[i];
        var g := if name in kw then ToFilter(tags[i].typ, kw[name]) else Wild;
        assert g == full[i];
        ghost var prev := q;
        q := q + [g];
        assert forall k | 0 <= k < i :: q[k] == prev[k];
        i := i + 1;
      }
      assert q == full;
    }

    /** `list(s)`: each member of the set once, in an order the model leaves open. */
    static method ListSet(s: set<Value>) returns (vs: seq<Value>)
      ensures Enumerates(vs, s)
    {
      vs := [];
      var rest := s;
      while rest != {}
        invariant rest <= s
        invariant DistinctValues(vs)
        invariant forall v :: v in vs <==> v in s && v !in rest
        decreases rest
      {
        var v :| v in rest;
        assert forall k | 0 <= k < |vs| :: vs[k] != v;
        vs := vs + [v];
        rest := rest - {v};
      }
    }

    /** The RANGE branch of `get_range`: sort, take the least and greatest value, list the integers between. */
    static method Span(s: set<Value>) returns (r: Result<seq<Value>, RangeError>)
      ensures s == {} ==> r == Failure(NoValues)
      ensures s != {} && !AllNumeric(s) ==> r == Failure(NotIntegers)
      ensures s != {} && AllNumeric(s) ==> r.Success? && IsIntervalOf(r.value, s)
    {
      if s == {} {
        return Failure(NoValues);
      }
      var lo := 0;
      var hi := 0;
      var seen: set<Value> := {};
      var rest := s;
      while rest != {}
        invariant rest <= s && seen == s - rest
        invariant AllNumeric(seen)
        invariant seen != {} ==>
          && (forall v | v in seen :: lo <= IntOf(v) <= hi)
          && (exists v | v in seen :: IntOf(v) == lo)
          && (exists v | v in seen :: IntOf(v) == hi)
        decreases rest
      {
        var v :| v in rest;
        if !Numeric(v) {
          return Failure(NotIntegers);
        }
        var x := IntOf(v);
        if seen == {} {
          lo, hi := x, x;
        } else {
          if x < lo { lo := x; }
          if x > hi { hi := x; }
        }
        seen := seen + {v};
        rest := rest - {v};
      }
      r := Success(Interval(lo, hi));
    }

    /**
     * `_set_matrix(doc)` as written: rebuild the store from a saved document
     * with `_construct_matrix` at the types of the tags in `_tag_order`, which
     * keeps the keys of a BOOL level as strings. When the rebuild raises
     * nothing changes; nothing but the store ever does. Without BOOL tags the
     * document saved from this very store reads back as the store itself, so
     * the engine is left as it was; `BoolKeysLostOnReload` shows a BOOL store
     * that does not read back.
     */
    method SetMatrix(doc: Doc) returns (r: Outcome<LoadError>)
      requires Valid()
      modifies this
      ensures tags == old(tags) && tagOrder == old(tagOrder) && datas == old(datas)
      ensures tagValues == old(tagValues) && recorded == old(recorded)
      ensures forall k | 0 <= k < |tagOrder| :: FindTag(tags, tagOrder[k]).Some?
      ensures var built := ConstructMatrix(LevelTypes(tags, tagOrder), doc);
        && (built.Failure? ==> r == Fail(built.error) && matrix == old(matrix))
        && (built.Success? ==> r == Pass && matrix == built.value)
      ensures NoBoolTags(tags) && doc == Stringify(old(matrix)) ==>
        r == Pass && unchanged(this)
    {
      SavedStoreTyped(tags, tagOrder, matrix, tagValues, recorded);
      var m;
      r, m := Construct(LevelTypes(tags, tagOrder), doc, matrix);
      matrix := m;
    }

    /**
     * `_set_matrix(doc)` with the corrected rebuild, which reads every level's
     * keys at its own tag's type: the document saved from this very store reads
     * back as the store itself whatever the tag types, so the engine is left as
     * it was.
     */
    method SetMatrixCorrected(doc: Doc) returns (r: Outcome<LoadError>)
      requires Valid()
      modifies this
      ensures tags == old(tags) && tagOrder == old(tagOrder) && datas == old(datas)
      ensures tagValues == old(tagValues) && recorded == old(recorded)
      ensures forall k | 0 <= k < |tagOrder| :: FindTag(tags, tagOrder[k]).Some?
      ensures var restored := RestoreMatrix(LevelTypes(tags, tagOrder), doc);
        && (restored.Failure? ==> r == Fail(restored.error) && matrix == old(matrix))
        && (restored.Success? ==> r == Pass && matrix == restored.value)
      ensures doc == Stringify(old(matrix)) ==> r == Pass && unchanged(this)
    {
      SavedStoreTyped(tags, tagOrder, matrix, tagValues, recorded);
      var m;
      r, m := Restore(LevelTypes(tags, tagOrder), doc, matrix);
      matrix := m;
    }

    /**
     * `_construct_matrix` as written, with the store m0 kept when it raises.
     * Without BOOL levels a typed store reads back from its saved document as itself.
     */
    static method Construct(types: seq<ValueType>, doc: Doc, m0: Node) returns (r: Outcome<LoadError>, m: Node)
      ensures var built := ConstructMatrix(types, doc);
        && (built.Failure? ==> r == Fail(built.error) && m == m0)
        && (built.Success? ==> r == Pass && m == built.value)
      ensures Typed(m0, types) && NoBoolLevels(types) && doc == Stringify(m0) ==>
        r == Pass && m == m0
    {
      if Typed(m0, types) && NoBoolLevels(types) && doc == Stringify(m0) {
        ConstructRoundTrip(m0, types);
      }
      var built := ConstructMatrix(types, doc);
      if built.Failure? {
        return Fail(built.error), m0;
      }
      return Pass, built.value;
    }

    /** The corrected rebuild, with the store m0 kept when it raises. A typed store reads back from its saved document as itself. */
    static method Restore(types: seq<ValueType>, doc: Doc, m0: Node) returns (r: Outcome<LoadError>, m: Node)
      ensures var restored := RestoreMatrix(types, doc);
        && (restored.Failure? ==> r == Fail(restored.error) && m == m0)
        && (restored.Success? ==> r == Pass && m == restored.value)
      ensures Typed(m0, types) && doc == Stringify(m0) ==> r == Pass && m == m0
    {
      if Typed(m0, types) && doc == Stringify(m0) {
        RestoreRoundTrip(m0, types);
      }
      var restored := RestoreMatrix(types, doc);
      if restored.Failure? {
        return Fail(restored.error), m0;
      }
      return Pass, restored.value;
    }

    /** `get_range(tag_name, raise_error)`. */
    method GetRange(name: string, raiseError: bool) returns (r: Result<Option<seq<Value>>, RangeError>)
      requires Valid()
      ensures IsRange(tags, tagValues, name, raiseError, r)
    {
      var tag := FindTag(tags, name);
      if tag.None? {
        if raiseError {
          return Failure(UnknownTag(name));
        }
        return Success(None);
      }
      TrackedName(tags, tagValues, name);
      var s := tagValues[name];
      if tag.value.domain == Distinct {
        var vs := ListSet(s);
        return Success(Some(vs));
      }
      var span := Span(s);
      r := match span case Success(vs) => Success(Some(vs)) case Failure(e) => Failure(e);
    }

    /** The values a row or column of `generate_table` iterates over. */
    method AxisValues(a: Axis) returns (r: Result<seq<Value>, RangeError>)
      requires Valid()
      ensures AxisOk(a, r)
      ensures r.Failure? <==> AxisFails(a)
    {
      if a.Explicit? {
        return Success(a.values);
      }
      var range := GetRange(a.name, true);
      r := match range case Success(vs) => Success(vs.value) case Failure(e) => Failure(e);
    }

    /** The counts of one row across the column values. */
    method CountAcross(f: map<string, Arg>, cn: string, cols: seq<Value>) returns (cells: seq<Cell>)
      requires Valid()
      ensures cells == CountRow(recorded, tags, f, cn, cols)
    {
      cells := [];
      var j := 0;
      while j < |cols|
        invariant 0 <= j <= |cols|
        invariant cells + CountRow(recorded, tags, f, cn, cols[j..]) == CountRow(recorded, tags, f, cn, cols)
      {
        assert cols[j..][1..] == cols[j + 1..];
        var n := GetCount(f[cn := One(cols[j])]);
        cells := cells + [Count(n)];
        j := j + 1;
      }
      assert cols[j..] == [];
    }

    /** One row of `generate_table`: the label cells, the counts across the columns and, if asked, the total. */
    method RowOf(lead: seq<Cell>, f: map<string, Arg>, cn: string, cols: seq<Value>, withTotal: bool)
      returns (row: seq<Cell>)
      requires Valid()
      ensures row == TableRow(recorded, tags, lead, f, cn, cols, withTotal)
    {
      var cells := CountAcross(f, cn, cols);
      row := lead + cells;
      if withTotal {
        var n := GetCount(f);
        row := row + [Count(n)];
      }
    }

    /** The data rows of `generate_table`, one per row value, in order. */
    method DataRows(rn: string, rs: seq<Value>, cn: string, cs: seq<Value>, withLabel: bool, withTotal: bool,
                    filters: map<string, Arg>) returns (out: seq<seq<Cell>>)
      requires Valid()
      ensures |out| == |rs|
      ensures forall k | 0 <= k < |rs| ::
        out[k] == TableRow(recorded, tags, RowLabel(withLabel, Label(rs[k])), filters[rn := One(rs[k])], cn, cs, withTotal)
    {
      out := [];
      var i := 0;
      while i < |rs|
        invariant 0 <= i <= |rs|
        invariant |out| == i
        invariant forall k | 0 <= k < i ::
          out[k] == TableRow(recorded, tags, RowLabel(withLabel, Label(rs[k])), filters[rn := One(rs[k])], cn, cs, withTotal)
      {
        var row := RowOf(RowLabel(withLabel, Label(rs[i])), filters[rn := One(rs[i])], cn, cs, withTotal);
        ghost var prev := out;
        out := out + [row];
        assert forall k | 0 <= k < i :: out[k] == prev[k];
        i := i + 1;
      }
    }

    /** Lay out the header, the data rows and the total row. */
    method Assemble(rn: string, rs: seq<Value>, cn: string, cs: seq<Value>, withHeader: bool, withRowTotal: bool,
                    withColumnTotal: bool, filters: map<string, Arg>) returns (t: seq<seq<Cell>>)
      requires Valid()
      ensures IsTable(recorded, tags, t, rn, rs, cn, cs, withHeader, withRowTotal, withColumnTotal, filters)
    {
      var header: seq<seq<Cell>> := if withHeader then [HeaderRow(cs, withColumnTotal)] else [];
      var body := DataRows(rn, rs, cn, cs, withHeader, withColumnTotal, filters);
      var footer: seq<seq<Cell>> := [];
      if withRowTotal {
        var row := RowOf(RowLabel(withHeader, TotalLabel), filters, cn, cs, withColumnTotal);
        footer := [row];
      }
      t := header + body + footer;
      TableLayout(recorded, tags, header, body, footer, rn, rs, cn, cs, withHeader, withRowTotal, withColumnTotal,
                  filters);
    }

    /**
     * `generate_table(row_field, column_field, include_header, include_row_total,
     * include_column_total, **filters)`. The row axis is resolved first, then
     * the column axis; either raising makes the whole call raise. Otherwise
     * the table has an optional header row, one data row per row value and an
     * optional total row, each cell the count of `get_count` with the filters
     * and the row and column values fixed.
     */
    method GenerateTable(rowField: Axis, columnField: Axis, includeHeader: bool, includeRowTotal: bool,
                         includeColumnTotal: bool, filters: map<string, Arg>)
      returns (r: Result<seq<seq<Cell>>, RangeError>, ghost rows: seq<Value>, ghost cols: seq<Value>)
      requires Valid()
      ensures AxisFails(rowField) ==> r.Failure? && AxisOk(rowField, Failure(r.error))
      ensures !AxisFails(rowField) && AxisFails(columnField) ==>
        r.Failure? && AxisOk(columnField, Failure(r.error))
      ensures !AxisFails(rowField) && !AxisFails(columnField) ==>
        && r.Success?
        && AxisOk(rowField, Success(rows)) && AxisOk(columnField, Success(cols))
        && IsTable(recorded, tags, r.value, rowField.name, rows, columnField.name, cols, includeHeader,
                   includeRowTotal, includeColumnTotal, filters)
    {
      var rv := AxisValues(rowField);
      if rv.Failure? {
        return Failure(rv.error), [], [];
      }
      var cv := AxisValues(columnField);
      if cv.Failure? {
        return Failure(cv.error), rv.value, [];
      }
      var rs, cs := rv.value, cv.value;
      rows, cols := rs, cs;
      var rn, cn := rowField.name, columnField.name;
      var output := Assemble(rn, rs, cn, cs, includeHeader, includeRowTotal, includeColumnTotal, filters);
      r := Success(output);
    }
  }

  // ---------------------------------------------------------------------------
  // Reading a saved store back
  // ---------------------------------------------------------------------------

  /** The types of `[self.tags.get(n) for n in self._tag_order]`. */
  function LevelTypes(tags: seq<TagDef>, order: seq<string>): (r: seq<ValueType>)
    requires forall k | 0 <= k < |order| :: FindTag(tags, order[k]).Some?
    ensures |r| == |order|
  {
    seq(|order|, k requires 0 <= k < |order| && FindTag(tags, order[k]).Some? => FindTag(tags, order[k]).value.typ)
  }

  /** In a valid schema the level types of the declaration order are the tags' own types. */
  lemma {:induction false} SchemaLevelTypes(tags: seq<TagDef>)
    requires ValidSchema(tags)
    ensures forall k | 0 <= k < |tags| :: FindTag(tags, Names(tags)[k]) == Some(tags[k])
    ensures var types := LevelTypes(tags, Names(tags));
      |types| == |tags| && forall k | 0 <= k < |tags| :: types[k] == tags[k].typ
  {
    forall k | 0 <= k < |tags|
      ensures FindTag(tags, Names(tags)[k]) == Some(tags[k])
    {
      FindTagAt(tags, k);
    }
  }

  /** Tuples that conform to the schema have, position by position, the types given. */
  lemma {:induction false} ConformingLogTyped(tags: seq<TagDef>, types: seq<ValueType>, log: seq<seq<Value>>)
    requires |types| == |tags| && forall k | 0 <= k < |tags| :: types[k] == tags[k].typ
    requires Shaped(log, |types|) && forall k | 0 <= k < |log| :: Conforms(log[k], tags)
    ensures forall k, i | 0 <= k < |log| && 0 <= i < |types| :: HasType(log[k][i], types[i])
  {
  }

  /**
   * Under the engine invariant the tags in `_tag_order` are all declared, the
   * store is typed at their types, and those types are the tags' own.
   */
  lemma {:induction false} SavedStoreTyped(tags: seq<TagDef>, tagOrder: seq<string>, matrix: Node,
                                           tv: map<string, set<Value>>, log: seq<seq<Value>>)
    requires Inv(tags, tagOrder, matrix, tv, log)
    ensures forall k | 0 <= k < |tagOrder| :: FindTag(tags, tagOrder[k]).Some?
    ensures var types := LevelTypes(tags, tagOrder);
      && Typed(matrix, types)
      && |types| == |tags|
      && (forall k | 0 <= k < |tags| :: types[k] == tags[k].typ)
      && (NoBoolTags(tags) ==> NoBoolLevels(types))
  {
    SchemaLevelTypes(tags);
    var types := LevelTypes(tags, tagOrder);
    ConformingLogTyped(tags, types, log);
    BuildTyped(log, types);
  }

  /** Under the engine invariant, the saved store reads back as itself at the tags' types. */
  lemma {:induction false} SavedStoreRestores(tags: seq<TagDef>, tagOrder: seq<string>, matrix: Node,
                                              tv: map<string, set<Value>>, log: seq<seq<Value>>)
    requires Inv(tags, tagOrder, matrix, tv, log)
    ensures forall k | 0 <= k < |tagOrder| :: FindTag(tags, tagOrder[k]).Some?
    ensures RestoreMatrix(LevelTypes(tags, tagOrder), Stringify(matrix)) == Success(matrix)
  {
    SavedStoreTyped(tags, tagOrder, matrix, tv, log);
    RestoreRoundTrip(matrix, LevelTypes(tags, tagOrder));
  }

  /** No tag of the schema has type BOOL. */
  predicate NoBoolTags(tags: seq<TagDef>)
  {
    forall k | 0 <= k < |tags| :: tags[k].typ != Bool
  }

  /** Under the engine invariant and without BOOL tags, `_construct_matrix` as written reads the saved store back as itself. */
  lemma {:induction false} SavedStoreReloads(tags: seq<TagDef>, tagOrder: seq<string>, matrix: Node,
                                             tv: map<string, set<Value>>, log: seq<seq<Value>>)
    requires Inv(tags, tagOrder, matrix, tv, log) && NoBoolTags(tags)
    ensures forall k | 0 <= k < |tagOrder| :: FindTag(tags, tagOrder[k]).Some?
    ensures ConstructMatrix(LevelTypes(tags, tagOrder), Stringify(matrix)) == Success(matrix)
  {
    SavedStoreTyped(tags, tagOrder, matrix, tv, log);
    ConstructRoundTrip(matrix, LevelTypes(tags, tagOrder));
  }

  // ---------------------------------------------------------------------------
  // What the counts mean
  // ---------------------------------------------------------------------------

  /** With no keyword arguments `get_count` counts every successful record. */
  lemma {:induction false} CountWithoutFilters(tags: seq<TagDef>, log: seq<seq<Value>>)
    requires Shaped(log, |tags|)
    ensures CountMatches(log, QueryVector(tags, map[])) == |log|
  {
    assert QueryVector(tags, map[]) == AllWild(|tags|);
    CountAllWild(log, |tags|);
  }

  /** Setting tag i's argument changes its query position, and no other. */
  lemma {:induction false} QueryVectorAt(tags: seq<TagDef>, kw: map<string, Arg>, i: nat, a: Arg)
    requires ValidSchema(tags) && i < |tags|
    ensures QueryVector(tags, kw[tags[i].name := a]) == QueryVector(tags, kw)[i := ToFilter(tags[i].typ, a)]
  {
    var q := QueryVector(tags, kw[tags[i].name := a]);
    var q' := QueryVector(tags, kw)[i := ToFilter(tags[i].typ, a)];
    forall j | 0 <= j < |tags|
      ensures q[j] == q'[j]
    {
      if j != i {
        assert tags[j].name != tags[i].name;
      }
    }
  }

  /** The sum of the counts with tag i fixed to each listed value in turn. */
  function SumOverValues(log: seq<seq<Value>>, tags: seq<TagDef>, kw: map<string, Arg>, i: nat, vs: seq<Value>): nat
    requires Shaped(log, |tags|) && i < |tags|
  {
    if vs == [] then 0
    else CountMatches(log, QueryVector(tags, kw[tags[i].name := One(vs[0])]))
         + SumOverValues(log, tags, kw, i, vs[1..])
  }

  lemma {:induction false} SumOverValuesExact(log: seq<seq<Value>>, tags: seq<TagDef>, kw: map<string, Arg>,
                                              i: nat, vs: seq<Value>)
    requires ValidSchema(tags) && Shaped(log, |tags|) && i < |tags| && NoneV !in vs
    ensures SumOverValues(log, tags, kw, i, vs) ==
            SumExact(log, QueryVector(tags, kw), i, AlignAll(tags[i].typ, vs))
  {
    if vs != [] {
      QueryVectorAt(tags, kw, i, One(vs[0]));
      assert AlignAll(tags[i].typ, vs)[1..] == AlignAll(tags[i].typ, vs[1..]);
      SumOverValuesExact(log, tags, kw, i, vs[1..]);
    }
  }

  /**
   * A list or tuple for a tag counts the sum of the counts of its members, each
   * as often as it is listed. None must not be listed: alone it means "any value",
   * inside a list it matches nothing.
   */
  lemma {:induction false} UnionCountsEachListed(log: seq<seq<Value>>, tags: seq<TagDef>, kw: map<string, Arg>,
                                                 i: nat, vs: seq<Value>)
    requires ValidSchema(tags) && Shaped(log, |tags|) && i < |tags| && NoneV !in vs
    ensures CountMatches(log, QueryVector(tags, kw[tags[i].name := Many(vs)])) ==
            SumOverValues(log, tags, kw, i, vs)
  {
    QueryVectorAt(tags, kw, i, Many(vs));
    UnionSplit(log, QueryVector(tags, kw), i, AlignAll(tags[i].typ, vs));
    SumOverValuesExact(log, tags, kw, i, vs);
  }

  /** A value Python never saw as equal to a recorded value of tag i counts 0 there. */
  lemma {:induction false} UnseenValueCountsZero(log: seq<seq<Value>>, tags: seq<TagDef>, kw: map<string, Arg>,
                                                 i: nat, v: Value)
    requires ValidSchema(tags) && Shaped(log, |tags|) && i < |tags| && v != NoneV
    requires forall k | 0 <= k < |log| :: Conforms(log[k], tags)
    requires forall k | 0 <= k < |log| :: !PyEq(v, log[k][i])
    ensures CountMatches(log, QueryVector(tags, kw[tags[i].name := One(v)])) == 0
  {
    QueryVectorAt(tags, kw, i, One(v));
    forall k | 0 <= k < |log|
      ensures log[k][i] != Align(tags[i].typ, v)
    {
      assert HasType(log[k][i], tags[i].typ);
    }
    Unrecorded(log, QueryVector(tags, kw), i, Align(tags[i].typ, v));
  }

  /** Every raw value tracked for tag i already has the tag's type, so its coercion is the value itself. */
  ghost predicate TrackedTyped(tags: seq<TagDef>, tv: map<string, set<Value>>, i: nat)
    requires i < |tags| && tags[i].name in tv
  {
    forall raw | raw in tv[tags[i].name] :: HasType(raw, tags[i].typ)
  }

  /** cols lists values of tag i's type without repeats, and every tracked value of the tag among them. */
  ghost predicate CoversTracked(tags: seq<TagDef>, tv: map<string, set<Value>>, i: nat, cols: seq<Value>)
    requires i < |tags| && tags[i].name in tv
  {
    && DistinctValues(cols)
    && (forall k | 0 <= k < |cols| :: HasType(cols[k], tags[i].typ))
    && (forall raw | raw in tv[tags[i].name] :: raw in cols)
  }

  /**
   * For a tag whose tracked values already have its type, and a listing that
   * covers them, the count with the tag not named is the sum of the counts
   * with the tag fixed to each listed value.
   */
  lemma {:induction false} TrackedMarginal(tags: seq<TagDef>, tagOrder: seq<string>, matrix: Node,
                                           tv: map<string, set<Value>>, log: seq<seq<Value>>,
                                           kw: map<string, Arg>, i: nat, cols: seq<Value>)
    requires Inv(tags, tagOrder, matrix, tv, log)
    requires i < |tags| && TrackedTyped(tags, tv, i) && tags[i].name !in kw
    requires CoversTracked(tags, tv, i, cols)
    ensures CountMatches(log, QueryVector(tags, kw)) == SumOverValues(log, tags, kw, i, cols)
  {
    var n, t := tags[i].name, tags[i].typ;
    var q := QueryVector(tags, kw);
    forall k | 0 <= k < |cols|
      ensures Align(t, cols[k]) == cols[k] && cols[k] != NoneV
    {
      assert HasType(cols[k], t);
    }
    forall k | 0 <= k < |log|
      ensures log[k][i] in cols
    {
      var raw :| raw in tv[n] && Coerce(t, raw).Some? && Coerce(t, raw).value == log[k][i];
      assert HasType(raw, t);
    }
    assert AlignAll(t, cols) == cols;
    assert q[i := Wild] == q;
    Marginal(log, q, i, cols);
    SumOverValuesExact(log, tags, kw, i, cols);
  }

  /** A STR tag tracks only strings, so the marginal identity holds for every STR tag left unnamed. */
  lemma {:induction false} StrMarginal(tags: seq<TagDef>, tagOrder: seq<string>, matrix: Node,
                                       tv: map<string, set<Value>>, log: seq<seq<Value>>,
                                       kw: map<string, Arg>, i: nat, cols: seq<Value>)
    requires Inv(tags, tagOrder, matrix, tv, log)
    requires i < |tags| && tags[i].typ == Str && tags[i].name !in kw
    requires Enumerates(cols, tv[tags[i].name])
    ensures TrackedTyped(tags, tv, i)
    ensures CountMatches(log, QueryVector(tags, kw)) == SumOverValues(log, tags, kw, i, cols)
  {
    var n := tags[i].name;
    forall raw | raw in tv[n]
      ensures HasType(raw, Str)
    {
      assert Coerce(Str, raw).Some?;
    }
    forall k | 0 <= k < |cols|
      ensures HasType(cols[k], Str)
    {
      assert cols[k] in tv[n];
    }
    TrackedMarginal(tags, tagOrder, matrix, tv, log, kw, i, cols);
  }

  /** Count cell j of a row counts the row's filters with the column tag fixed to the j-th column value. */
  lemma {:induction false} CountRowCells(log: seq<seq<Value>>, tags: seq<TagDef>, f: map<string, Arg>, cn: string,
                                         cols: seq<Value>)
    requires Shaped(log, |tags|)
    ensures |CountRow(log, tags, f, cn, cols)| == |cols|
    ensures forall j | 0 <= j < |cols| ::
      CountRow(log, tags, f, cn, cols)[j] == Count(CountMatches(log, QueryVector(tags, f[cn := One(cols[j])])))
  {
    if cols != [] {
      CountRowCells(log, tags, f, cn, cols[1..]);
      assert forall j | 1 <= j < |cols| :: cols[j] == cols[1..][j - 1];
    }
  }

  /**
   * The layout of a row of `generate_table`: its label cells, one count per
   * column value, and, when asked, the count of the row's filters alone.
   */
  lemma {:induction false} TableRowCells(log: seq<seq<Value>>, tags: seq<TagDef>, lead: seq<Cell>,
                                         f: map<string, Arg>, cn: string, cols: seq<Value>, withTotal: bool)
    requires Shaped(log, |tags|)
    ensures var row := TableRow(log, tags, lead, f, cn, cols, withTotal);
      && |row| == |lead| + |cols| + (if withTotal then 1 else 0)
      && row[..|lead|] == lead
      && (forall j | 0 <= j < |cols| ::
            row[|lead| + j] == Count(CountMatches(log, QueryVector(tags, f[cn := One(cols[j])]))))
      && (withTotal ==> row[|row| - 1] == Count(CountMatches(log, QueryVector(tags, f))))
  {
    CountRowCells(log, tags, f, cn, cols);
  }

  /** The sum of a row of count cells is the sum of the counts. */
  lemma {:induction false} CellSumOfCounts(log: seq<seq<Value>>, tags: seq<TagDef>, f: map<string, Arg>,
                                           i: nat, cols: seq<Value>)
    requires Shaped(log, |tags|) && i < |tags|
    ensures CellSum(CountRow(log, tags, f, tags[i].name, cols)) == SumOverValues(log, tags, f, i, cols)
  {
    if cols != [] {
      var row := CountRow(log, tags, f, tags[i].name, cols);
      assert row[1..] == CountRow(log, tags, f, tags[i].name, cols[1..]);
      CellSumOfCounts(log, tags, f, i, cols[1..]);
    }
  }

  /**
   * What `get_range` lists for a tag whose tracked values have its type covers
   * them: a DISTINCT tag lists them all, a RANGE tag every integer from the
   * least to the greatest.
   */
  lemma {:induction false} RangeCoversTracked(tags: seq<TagDef>, tv: map<string, set<Value>>, i: nat, cols: seq<Value>)
    requires ValidSchema(tags) && tv.Keys == NameSet(tags)
    requires i < |tags| && tags[i].name in tv && TrackedTyped(tags, tv, i)
    requires IsRange(tags, tv, tags[i].name, true, Success(Some(cols)))
    ensures CoversTracked(tags, tv, i, cols)
  {
    FindTagAt(tags, i);
    var n, t := tags[i].name, tags[i].typ;
    if tags[i].domain == Distinct {
      forall k | 0 <= k < |cols|
        ensures HasType(cols[k], t)
      {
        assert cols[k] in tv[n];
      }
    } else {
      assert t == Int;
      var lo := cols[0].i;
      forall raw | raw in tv[n]
        ensures raw in cols
      {
        assert HasType(raw, Int);
        assert cols[raw.i - lo] == raw;
      }
    }
  }

  /**
   * In a table whose column axis is a tag listed by `get_range` whose tracked
   * values already have its type (every STR tag, by `StrMarginal`), a row whose
   * filters f do not name that tag has the sum of its count cells as its total:
   * f is `filters` with the row value fixed for a data row, `filters` alone for
   * the total row.
   */
  lemma {:induction false} RowTotalIsSum(tags: seq<TagDef>, tagOrder: seq<string>, matrix: Node,
                                         tv: map<string, set<Value>>, log: seq<seq<Value>>,
                                         f: map<string, Arg>, i: nat, cols: seq<Value>)
    requires Inv(tags, tagOrder, matrix, tv, log)
    requires i < |tags| && TrackedTyped(tags, tv, i) && tags[i].name !in f
    requires IsRange(tags, tv, tags[i].name, true, Success(Some(cols)))
    ensures CellSum(CountRow(log, tags, f, tags[i].name, cols)) == CountMatches(log, QueryVector(tags, f))
  {
    RangeCoversTracked(tags, tv, i, cols);
    CellSumOfCounts(log, tags, f, i, cols);
    TrackedMarginal(tags, tagOrder, matrix, tv, log, f, i, cols);
  }

  // ---------------------------------------------------------------------------
  // Set arithmetic
  // ---------------------------------------------------------------------------

  lemma {:induction false} CoercedSetGrows(t: ValueType, S: set<Value>, S': set<Value>)
    requires S <= S'
    ensures CoercedSet(t, S) <= CoercedSet(t, S')
  {
  }

  lemma {:induction false} NameSetSize(tags: seq<TagDef>)
    requires ValidSchema(tags)
    ensures |NameSet(tags)| == |tags|
  {
    if tags != [] {
      var rest := tags[1..];
      assert forall k | 0 <= k < |rest| :: rest[k] == tags[k + 1];
      NameSetSize(rest);
      assert tags[0].name !in NameSet(rest);
    }
  }

  lemma {:induction false} SubsetSize<T>(a: set<T>, b: set<T>)
    requires a <= b
    ensures |a| <= |b|
    decreases a
  {
    if a != {} {
      var y :| y in a;
      SubsetSize(a - {y}, b - {y});
    }
  }

  lemma {:induction false} SubsetOfSameSize<T>(a: set<T>, b: set<T>)
    requires a <= b && |a| == |b|
    ensures a == b
  {
    if a != b {
      assert !(b <= a);
      var x :| x in b && x !in a;
      SubsetSize(a, b - {x});
    }
  }
}
