/**
 * The tag schema: the declared dimensions, each with a value type and a domain
 * kind, the validation done when the engine is constructed, and the per-tag
 * coercion of a recorded value.
 */
module Schema {
  import opened Wrappers
  import opened Values

  datatype ValueType = Int | Str | Bool

  datatype DomainKind = Range | Distinct

  /** A validated tag: its name, value type and domain kind. */
  datatype TagDef = TagDef(name: string, typ: ValueType, domain: DomainKind)

  /**
   * One entry of the dictionary given to the constructor: the tag name and the
   * raw "type" and "range" fields (None when the field is absent).
   */
  datatype RawTag = RawTag(name: string, typ: Option<string>, range: Option<string>)

  datatype SchemaError =
    | InvalidType(typ: Option<string>)
    | InvalidRange(range: Option<string>, typ: Option<string>)

  /** The string constants INT, STR and BOOL. */
  function TypeCode(t: ValueType): string
  {
    match t
    case Int => "INT"
    case Str => "STR"
    case Bool => "BOOL"
  }

  /** The string constants RANGE and DISTINCT. */
  function DomainCode(d: DomainKind): string
  {
    match d
    case Range => "RANGE"
    case Distinct => "DISTINCT"
  }

  /** INT tags may be RANGE or DISTINCT; STR and BOOL tags only DISTINCT. */
  predicate Allowed(t: ValueType, d: DomainKind)
  {
    t == Int || d == Distinct
  }

  /** `_assert_type`: the raw type must be one of INT, STR, BOOL. */
  function AssertType(t: Option<string>): (r: Result<ValueType, SchemaError>)
    ensures r.Success? ==> t == Some(TypeCode(r.value))
    ensures r.Failure? ==> r.error == InvalidType(t) && forall vt: ValueType :: t != Some(TypeCode(vt))
  {
    if t == Some("INT") then Success(Int)
    else if t == Some("STR") then Success(Str)
    else if t == Some("BOOL") then Success(Bool)
    else Failure(InvalidType(t))
  }

  /** `_assert_range`: the raw range must be among those the raw type allows. */
  function AssertRange(range: Option<string>, t: Option<string>): (r: Result<DomainKind, SchemaError>)
    ensures r.Success? ==>
      range == Some(DomainCode(r.value)) && exists vt: ValueType :: t == Some(TypeCode(vt)) && Allowed(vt, r.value)
    ensures r.Failure? ==>
      r.error == InvalidRange(range, t) &&
      forall vt: ValueType, d: DomainKind :: !(t == Some(TypeCode(vt)) && range == Some(DomainCode(d)) && Allowed(vt, d))
  {
    var valid := if t == Some("INT") then [Range, Distinct]
                 else if t == Some("STR") || t == Some("BOOL") then [Distinct]
                 else [];
    if range == Some("RANGE") && Range in valid then
      assert t == Some(TypeCode(Int));
      Success(Range)
    else if range == Some("DISTINCT") && Distinct in valid then
      assert t == Some(TypeCode(Int)) || t == Some(TypeCode(Str)) || t == Some(TypeCode(Bool));
      Success(Distinct)
    else
      Failure(InvalidRange(range, t))
  }

  /** The checks `_init_tags` makes of one tag. */
  predicate TagOk(d: RawTag)
  {
    AssertType(d.typ).Success? && AssertRange(d.range, d.typ).Success?
  }

  /** The exception `_init_tags` raises for a tag that fails its checks. */
  function TagError(d: RawTag): SchemaError
  {
    if AssertType(d.typ).Failure? then InvalidType(d.typ) else InvalidRange(d.range, d.typ)
  }

  predicate RawNamesDistinct(defs: seq<RawTag>)
  {
    forall j, k | 0 <= j < k < |defs| :: defs[j].name != defs[k].name
  }

  /**
   * `_init_tags`: check every tag in dictionary order and stop at the first that
   * fails; on success the tags, in that order, become the schema.
   */
  function ValidateTags(defs: seq<RawTag>): (r: Result<seq<TagDef>, SchemaError>)
    ensures r.Success? <==> forall k | 0 <= k < |defs| :: TagOk(defs[k])
    ensures r.Success? ==>
      |r.value| == |defs| &&
      forall k | 0 <= k < |defs| ::
        && r.value[k].name == defs[k].name
        && defs[k].typ == Some(TypeCode(r.value[k].typ))
        && defs[k].range == Some(DomainCode(r.value[k].domain))
        && Allowed(r.value[k].typ, r.value[k].domain)
    ensures r.Failure? ==> exists k | 0 <= k < |defs| :: FirstBadTag(defs, k, r.error)
  {
    if defs == [] then Success([])
    else
      var d := defs[0];
      match AssertType(d.typ)
      case Failure(e) =>
        assert FirstBadTag(defs, 0, e);
        Failure(e)
      case Success(vt) =>
        match AssertRange(d.range, d.typ)
        case Failure(e) =>
          assert FirstBadTag(defs, 0, e);
          Failure(e)
        case Success(dk) =>
          assert Allowed(vt, dk);
          match ValidateTags(defs[1..])
          case Failure(e) =>
            assert forall k | 1 <= k < |defs| :: defs[k] == defs[1..][k - 1];
            assert forall k | 0 <= k < |defs| - 1 :: FirstBadTag(defs[1..], k, e) ==> FirstBadTag(defs, k + 1, e);
            Failure(e)
          case Success(rest) =>
            assert forall k | 1 <= k < |defs| :: defs[k] == defs[1..][k - 1];
            Success([TagDef(d.name, vt, dk)] + rest)
  }

  /** defs[k] is the first tag that fails its checks, and e is the exception it raises. */
  predicate FirstBadTag(defs: seq<RawTag>, k: nat, e: SchemaError)
    requires k < |defs|
  {
    && !TagOk(defs[k])
    && (forall j | 0 <= j < k :: TagOk(defs[j]))
    && e == TagError(defs[k])
  }

  function Names(tags: seq<TagDef>): (r: seq<string>)
    ensures |r| == |tags| && forall k | 0 <= k < |tags| :: r[k] == tags[k].name
  {
    if tags == [] then [] else [tags[0].name] + Names(tags[1..])
  }

  /** A schema the constructor accepts: distinct names, allowed (type, domain) pairs. */
  predicate ValidSchema(tags: seq<TagDef>)
  {
    && (forall j, k | 0 <= j < k < |tags| :: tags[j].name != tags[k].name)
    && (forall k | 0 <= k < |tags| :: Allowed(tags[k].typ, tags[k].domain))
  }

  lemma ValidatedSchemaIsValid(defs: seq<RawTag>)
    requires RawNamesDistinct(defs) && ValidateTags(defs).Success?
    ensures ValidSchema(ValidateTags(defs).value)
  {
  }

  /** `self.tags.get(name)`. */
  function FindTag(tags: seq<TagDef>, name: string): (r: Option<TagDef>)
    ensures r.Some? <==> exists k | 0 <= k < |tags| :: tags[k].name == name
    ensures r.Some? ==> r.value in tags && r.value.name == name
  {
    if tags == [] then None
    else if tags[0].name == name then Some(tags[0])
    else
      var r := FindTag(tags[1..], name);
      assert forall k | 1 <= k < |tags| :: tags[k] == tags[1..][k - 1];
      r
  }

  /** The tag `name` is declared at position k of a schema with distinct names. */
  lemma FindTagAt(tags: seq<TagDef>, k: nat)
    requires ValidSchema(tags) && k < |tags|
    ensures FindTag(tags, tags[k].name) == Some(tags[k])
  {
    var r := FindTag(tags, tags[k].name);
    var j :| 0 <= j < |tags| && tags[j] == r.value;
    assert j == k;
  }

  /** The value has the Python type of the tag type. */
  predicate HasType(v: Value, t: ValueType)
  {
    match t
    case Int => v.IntV?
    case Str => v.StrV?
    case Bool => v.BoolV?
  }

  /**
   * The conversion `_clean_value_for_tag` applies for a tag type: `int(v)` for
   * INT, the value itself if it is a `str` for STR, `bool(v)` for BOOL; None when
   * the source raises.
   */
  function Coerce(t: ValueType, v: Value): (r: Option<Value>)
    ensures r.Some? ==> HasType(r.value, t)
    ensures HasType(v, t) ==> r == Some(v)
    ensures t == Int ==> (r.Some? <==> ToInt(v).Some?) && (r.Some? ==> r.value.i == ToInt(v).value)
    ensures t == Str ==> (r.Some? <==> v.StrV?)
    ensures t == Bool ==> r == Some(BoolV(ToBool(v)))
  {
    match t
    case Int => (match ToInt(v) case None => None case Some(n) => Some(IntV(n)))
    case Str => if v.StrV? then Some(v) else None
    case Bool => Some(BoolV(ToBool(v)))
  }

  /** Coercing an already coerced value changes nothing. */
  lemma CoerceIdempotent(t: ValueType, v: Value)
    requires Coerce(t, v).Some?
    ensures Coerce(t, Coerce(t, v).value) == Coerce(t, v)
  {
  }

  /** Values Python considers equal convert alike. */
  lemma CoerceRespectsPyEq(t: ValueType, x: Value, y: Value)
    requires PyEq(x, y)
    ensures Coerce(t, x) == Coerce(t, y)
  {
  }

  datatype RecordError =
    | UndeclaredTag
    | TagCountMismatch
    | InvalidTagName(name: string)
    | InvalidValue(name: string, value: Value)

  /** `_clean_value_for_tag`: look the tag up, then coerce the value to its type. */
  function CleanValue(tags: seq<TagDef>, name: string, value: Value): (r: Result<Value, RecordError>)
    ensures FindTag(tags, name).None? ==> r == Failure(InvalidTagName(name))
    ensures FindTag(tags, name).Some? ==>
      var t := FindTag(tags, name).value.typ;
      && (r.Success? <==> Coerce(t, value).Some?)
      && (r.Success? ==> r.value == Coerce(t, value).value && HasType(r.value, t))
      && (r.Failure? ==> r.error == InvalidValue(name, value))
  {
    match FindTag(tags, name)
    case None => Failure(InvalidTagName(name))
    case Some(tag) =>
      match Coerce(tag.typ, value)
      case None => Failure(InvalidValue(name, value))
      case Some(c) => Success(c)
  }
}
