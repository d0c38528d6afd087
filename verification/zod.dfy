/**
 * The part of the Zod schema library (version 3) that the deck schema is built from.
 *
 * A `Schema` value is one of the combinators `z.string()`, `z.number()`, `z.number().int()`,
 * `z.boolean()`, `z.literal(..)`, `z.enum([..])`, `z.any()`, `z.record(z.any())`, `z.array(..)`,
 * `z.object({..})`, `z.union([..])`, `z.intersection(.., ..)`, `.optional()` and `z.lazy(..)`.
 *
 * `Parse` follows Zod's own evaluation: every parse ends in one of three states (valid, dirty =
 * issues were raised but parsing went on, aborted), collects its issues in traversal order, and
 * produces the output value, in which a plain `z.object` keeps only its declared keys.
 * `Accepts` and `Strip` say the same thing declaratively; `ParseMeaning` proves that they agree.
 */
module Zod {
  import opened Json

  datatype Schema =
    | ZString                           // z.string()
    | ZNumber(integer: bool)            // z.number(), or z.number().int() when `integer`
    | ZBoolean                          // z.boolean()
    | ZLiteral(literal: string)         // z.literal('..')
    | ZEnum(values: seq<string>)        // z.enum([..])
    | ZAny                              // z.any()
    | ZRecordOfAny                      // z.record(z.any())
    | ZArray(element: Schema)           // z.array(element)
    | ZObject(shape: seq<Field>)        // z.object({..}) with the default "strip" policy
    | ZUnion(options: seq<Schema>)      // z.union([..])
    | ZIntersection(left: Schema, right: Schema)  // z.intersection(left, right)
    | ZOptional(inner: Schema)          // inner.optional()
    | ZLazy(body: Schema)               // z.lazy(() => body)

  /** One declared key of a `z.object` shape. */
  datatype Field = Field(key: string, schema: Schema)

  /** A step of an issue path: an object key or an array index. */
  datatype Segment = Key(name: string) | Index(index: nat)
  type Path = seq<Segment>

  /** Zod's parsed-type names, plus the "expected" forms used by `.int()` and `z.enum`. */
  datatype TypeName =
    | StringType | NumberType | IntegerType | FloatType | BooleanType
    | ArrayType | ObjectType | NullType | UndefinedType
    | EnumType(values: seq<string>)

  datatype IssueCode =
    | InvalidType(expected: TypeName, received: TypeName)
    | InvalidLiteral(literal: string)
    | InvalidEnumValue(options: seq<string>)
    | InvalidUnion(unionErrors: seq<seq<Issue>>)
    | InvalidIntersectionTypes

  datatype Issue = Issue(path: Path, code: IssueCode)

  /** Zod's parse status: "valid", "dirty" (issues raised, value still produced) or "aborted". */
  datatype Status = Valid | Dirty | Aborted

  /** The result of parsing one value; `value` is None for `undefined` and for an aborted parse. */
  datatype Outcome = Outcome(status: Status, value: Option<Json>, issues: seq<Issue>)

  /** The result of parsing a suffix of an array's items. */
  datatype ItemsOutcome = ItemsOutcome(status: Status, items: seq<Json>, issues: seq<Issue>)

  /** The result of parsing a suffix of an object shape's fields. */
  datatype FieldsOutcome = FieldsOutcome(status: Status, fields: map<string, Json>, issues: seq<Issue>)

  /** Zod's parsed type of a value. */
  function TypeOf(v: Option<Json>): TypeName {
    match v
    case None => UndefinedType
    case Some(j) =>
      match j
      case JNull => NullType
      case JBool(_) => BooleanType
      case JNumber(_) => NumberType
      case JString(_) => StringType
      case JArray(_) => ArrayType
      case JObject(_) => ObjectType
  }

  /** How two statuses combine when a container merges its parts. */
  function Worse(a: Status, b: Status): Status {
    if a == Aborted || b == Aborted then Aborted
    else if a == Dirty || b == Dirty then Dirty
    else Valid
  }

  function Ok(v: Option<Json>): Outcome {
    Outcome(Valid, v, [])
  }

  function Abort(path: Path, code: IssueCode): Outcome {
    Outcome(Aborted, None, [Issue(path, code)])
  }

  /** The outcome of a type check that fails. */
  function Mismatch(expected: TypeName, v: Option<Json>, path: Path): Outcome {
    Abort(path, InvalidType(expected, TypeOf(v)))
  }

  /** JSON.stringify writes an `undefined` array element as null. */
  function Defined(v: Option<Json>): Json {
    if v.Some? then v.value else JNull
  }

  predicate SharedKeysAgree(a: map<string, Json>, b: map<string, Json>) {
    forall k :: k in a && k in b ==> a[k] == b[k]
  }

  /**
   * Zod's mergeValues for the two sides of an intersection: equal values merge to themselves, two
   * objects merge to the union of their entries (the right side's entries last). Objects whose shared
   * keys hold different values do not merge here (see README, "Left out").
   */
  function Merge(a: Option<Json>, b: Option<Json>): (r: Option<Option<Json>>)
    ensures a == b ==> r == Some(a)
    ensures r.Some? && r.value.Some? && r.value.value.JObject? && a != b ==>
      a.Some? && b.Some? && a.value.JObject? && b.value.JObject? &&
      r.value.value.fields.Keys == a.value.fields.Keys + b.value.fields.Keys
  {
    if a == b then Some(a)
    else if a.Some? && b.Some? && a.value.JObject? && b.value.JObject?
         && SharedKeysAgree(a.value.fields, b.value.fields)
    then Some(Some(JObject(a.value.fields + b.value.fields)))
    else None
  }

  // ---------------------------------------------------------------------------------------------
  // Operational parse

  /**
   * Zod's `schema._parse` of value `v` (None is `undefined`) found at `path`. The status is valid
   * exactly when no issue was raised, an aborted parse has no value, and a defined value that is
   * not rejected outright stays defined.
   */
  function Parse(s: Schema, v: Option<Json>, path: Path): (o: Outcome)
    ensures o.status == Valid <==> o.issues == []
    ensures o.status == Aborted ==> o.value.None?
    ensures v.Some? && o.status != Aborted ==> o.value.Some?
    decreases s, 1
  {
    match s
    case ZString =>
      if v.Some? && v.value.JString? then Ok(v) else Mismatch(StringType, v, path)
    case ZNumber(integer) =>
      if !(v.Some? && v.value.JNumber?) then Mismatch(NumberType, v, path)
      else if integer && !IsInteger(v.value.n) then
        Outcome(Dirty, v, [Issue(path, InvalidType(IntegerType, FloatType))])
      else Ok(v)
    case ZBoolean =>
      if v.Some? && v.value.JBool? then Ok(v) else Mismatch(BooleanType, v, path)
    case ZLiteral(literal) =>
      if v == Some(JString(literal)) then Ok(v) else Abort(path, InvalidLiteral(literal))
    case ZEnum(values) =>
      if !(v.Some? && v.value.JString?) then Mismatch(EnumType(values), v, path)
      else if v.value.s in values then Ok(v)
      else Abort(path, InvalidEnumValue(values))
    case ZAny =>
      Ok(v)
    case ZRecordOfAny =>
      if v.Some? && v.value.JObject? then Ok(v) else Mismatch(ObjectType, v, path)
    case ZArray(_) =>
      if v.Some? && v.value.JArray? then
        var r := ParseItems(s, v.value.items, path, 0);
        Outcome(r.status, if r.status == Aborted then None else Some(JArray(r.items)), r.issues)
      else Mismatch(ArrayType, v, path)
    case ZObject(_) =>
      if v.Some? && v.value.JObject? then
        var r := ParseFields(s, v.value.fields, path, 0);
        Outcome(r.status, if r.status == Aborted then None else Some(JObject(r.fields)), r.issues)
      else Mismatch(ObjectType, v, path)
    case ZUnion(_) =>
      ParseUnion(s, v, path, 0, None, [])
    case ZIntersection(left, right) =>
      var a := Parse(left, v, path);
      var b := Parse(right, v, path);
      if a.status == Aborted || b.status == Aborted then
        Outcome(Aborted, None, a.issues + b.issues)
      else
        var merged := Merge(a.value, b.value);
        if merged.None? then
          Outcome(Aborted, None, a.issues + b.issues + [Issue(path, InvalidIntersectionTypes)])
        else
          Outcome(Worse(a.status, b.status), merged.value, a.issues + b.issues)
    case ZOptional(inner) =>
      if v.None? then Ok(None) else Parse(inner, v, path)
    case ZLazy(body) =>
      Parse(body, v, path)
  }

  /** Parses `items[i..]` with the element schema of array schema `s`; aborted if any item is. */
  function ParseItems(s: Schema, items: seq<Json>, path: Path, i: nat): (r: ItemsOutcome)
    requires s.ZArray? && i <= |items|
    ensures r.status == Valid <==> r.issues == []
    ensures r.status != Aborted ==> |r.items| == |items| - i
    decreases s, 0, |items| - i
  {
    if i == |items| then ItemsOutcome(Valid, [], [])
    else
      var o := Parse(s.element, Some(items[i]), path + [Index(i)]);
      var rest := ParseItems(s, items, path, i + 1);
      ItemsOutcome(Worse(o.status, rest.status), [Defined(o.value)] + rest.items, o.issues + rest.issues)
  }

  /**
   * Parses the fields `shape[i..]` of object schema `s` against the object's entries `m`. A field
   * whose output is `undefined` is not set; keys of `m` outside the shape are dropped.
   */
  function ParseFields(s: Schema, m: map<string, Json>, path: Path, i: nat): (r: FieldsOutcome)
    requires s.ZObject? && i <= |s.shape|
    ensures r.status == Valid <==> r.issues == []
    decreases s, 0, |s.shape| - i
  {
    if i == |s.shape| then FieldsOutcome(Valid, map[], [])
    else
      var f := s.shape[i];
      var o := Parse(f.schema, Get(m, f.key), path + [Key(f.key)]);
      var rest := ParseFields(s, m, path, i + 1);
      FieldsOutcome(Worse(o.status, rest.status),
                    if o.value.Some? then rest.fields[f.key := o.value.value] else rest.fields,
                    o.issues + rest.issues)
  }

  /**
   * Tries the options `options[i..]` of union schema `s` in order: the first valid one wins;
   * otherwise the first dirty one (`dirty`) is returned; otherwise one invalid_union issue carries
   * the issue lists of all options (`errors` holds those of the options before `i`).
   */
  function ParseUnion(s: Schema, v: Option<Json>, path: Path, i: nat,
                      dirty: Option<Outcome>, errors: seq<seq<Issue>>): (o: Outcome)
    requires s.ZUnion? && i <= |s.options|
    requires dirty.Some? ==> dirty.value.status == Dirty && dirty.value.issues != []
                             && (v.Some? ==> dirty.value.value.Some?)
    ensures o.status == Valid <==> o.issues == []
    ensures o.status == Aborted ==> o.value.None?
    ensures v.Some? && o.status != Aborted ==> o.value.Some?
    decreases s, 0, |s.options| - i
  {
    if i == |s.options| then
      if dirty.Some? then dirty.value else Abort(path, InvalidUnion(errors))
    else
      var o := Parse(s.options[i], v, path);
      if o.status == Valid then o
      else
        ParseUnion(s, v, path, i + 1,
                   if o.status == Dirty && dirty.None? then Some(o) else dirty,
                   if o.issues != [] then errors + [o.issues] else errors)
  }

  // ---------------------------------------------------------------------------------------------
  // Declarative meaning

  /** The values schema `s` accepts (None is `undefined`). */
  predicate Accepts(s: Schema, v: Option<Json>)
    decreases s, 1
  {
    match s
    case ZString => v.Some? && v.value.JString?
    case ZNumber(integer) => v.Some? && v.value.JNumber? && (integer ==> IsInteger(v.value.n))
    case ZBoolean => v.Some? && v.value.JBool?
    case ZLiteral(literal) => v == Some(JString(literal))
    case ZEnum(values) => v.Some? && v.value.JString? && v.value.s in values
    case ZAny => true
    case ZRecordOfAny => v.Some? && v.value.JObject?
    case ZArray(element) =>
      v.Some? && v.value.JArray?
      && forall k | 0 <= k < |v.value.items| :: Accepts(element, Some(v.value.items[k]))
    case ZObject(_) =>
      v.Some? && v.value.JObject? && AcceptsFields(s, v.value.fields, 0)
    case ZUnion(options) =>
      exists k | 0 <= k < |options| :: Accepts(options[k], v)
    case ZIntersection(left, right) =>
      Accepts(left, v) && Accepts(right, v) && Merge(Strip(left, v), Strip(right, v)).Some?
    case ZOptional(inner) => v.None? || Accepts(inner, v)
    case ZLazy(body) => Accepts(body, v)
  }

  /** Every field `shape[i..]` of object schema `s` accepts its entry of `m`. */
  predicate AcceptsFields(s: Schema, m: map<string, Json>, i: nat)
    requires s.ZObject? && i <= |s.shape|
    decreases s, 0, |s.shape| - i
  {
    i == |s.shape|
    || (Accepts(s.shape[i].schema, Get(m, s.shape[i].key)) && AcceptsFields(s, m, i + 1))
  }

  /** The output Zod produces for a value that `s` accepts. */
  function Strip(s: Schema, v: Option<Json>): Option<Json>
    decreases s, 1
  {
    match s
    case ZArray(element) =>
      if v.Some? && v.value.JArray? then
        Some(JArray(seq(|v.value.items|, k requires 0 <= k < |v.value.items| =>
          Defined(Strip(element, Some(v.value.items[k]))))))
      else None
    case ZObject(_) =>
      if v.Some? && v.value.JObject? then Some(JObject(StripFields(s, v.value.fields, 0))) else None
    case ZUnion(_) => StripUnion(s, v, 0)
    case ZIntersection(left, right) =>
      var merged := Merge(Strip(left, v), Strip(right, v));
      if merged.Some? then merged.value else None
    case ZOptional(inner) => if v.None? then None else Strip(inner, v)
    case ZLazy(body) => Strip(body, v)
    case _ => v
  }

  /** The output entries of the fields `shape[i..]` of object schema `s`. */
  function StripFields(s: Schema, m: map<string, Json>, i: nat): map<string, Json>
    requires s.ZObject? && i <= |s.shape|
    decreases s, 0, |s.shape| - i
  {
    if i == |s.shape| then map[]
    else
      var f := s.shape[i];
      var out := Strip(f.schema, Get(m, f.key));
      var rest := StripFields(s, m, i + 1);
      if out.Some? then rest[f.key := out.value] else rest
  }

  /** The output of the first of `options[i..]` that accepts `v`. */
  function StripUnion(s: Schema, v: Option<Json>, i: nat): Option<Json>
    requires s.ZUnion? && i <= |s.options|
    decreases s, 0, |s.options| - i
  {
    if i == |s.options| then None
    else if Accepts(s.options[i], v) then Strip(s.options[i], v)
    else StripUnion(s, v, i + 1)
  }

  // ---------------------------------------------------------------------------------------------
  // The operational parse and the declarative meaning agree

  /**
   * Zod's parse of `v` with `s` is valid exactly when `s` accepts `v`, and then its output is
   * `Strip(s, v)`.
   */
  lemma {:induction false} ParseMeaning(s: Schema, v: Option<Json>, path: Path)
    ensures Parse(s, v, path).status == Valid <==> Accepts(s, v)
    ensures Accepts(s, v) ==> Parse(s, v, path).value == Strip(s, v)
    decreases s, 1
  {
    match s
    case ZArray(element) =>
      if v.Some? && v.value.JArray? {
        ArrayMeaning(s, v.value.items, path);
      }
    case ZObject(_) =>
      if v.Some? && v.value.JObject? {
        FieldsMeaning(s, v.value.fields, path, 0);
      }
    case ZUnion(_) =>
      UnionMeaning(s, v, path, 0, None, []);
    case ZIntersection(left, right) =>
      ParseMeaning(left, v, path);
      ParseMeaning(right, v, path);
    case ZOptional(inner) =>
      if v.Some? {
        ParseMeaning(inner, v, path);
      }
    case ZLazy(body) =>
      ParseMeaning(body, v, path);
    case _ =>
  }

  lemma {:induction false} ArrayMeaning(s: Schema, items: seq<Json>, path: Path)
    requires s.ZArray?
    ensures Parse(s, Some(JArray(items)), path).status == Valid <==> Accepts(s, Some(JArray(items)))
    ensures Accepts(s, Some(JArray(items))) ==>
      Parse(s, Some(JArray(items)), path).value == Strip(s, Some(JArray(items)))
    decreases s, 0, |items| + 1
  {
    ItemsMeaning(s, items, path, 0);
    if Accepts(s, Some(JArray(items))) {
      var r := ParseItems(s, items, path, 0);
      assert r.items == seq(|items|, k requires 0 <= k < |items| => Defined(Strip(s.element, Some(items[k]))));
    }
  }

  lemma {:induction false} ItemsMeaning(s: Schema, items: seq<Json>, path: Path, i: nat)
    requires s.ZArray? && i <= |items|
    ensures ParseItems(s, items, path, i).status == Valid <==>
      forall k | i <= k < |items| :: Accepts(s.element, Some(items[k]))
    ensures ParseItems(s, items, path, i).status == Valid ==>
      forall k | i <= k < |items| ::
        ParseItems(s, items, path, i).items[k - i] == Defined(Strip(s.element, Some(items[k])))
    decreases s, 0, |items| - i
  {
    if i < |items| {
      var o := Parse(s.element, Some(items[i]), path + [Index(i)]);
      var rest := ParseItems(s, items, path, i + 1);
      ParseMeaning(s.element, Some(items[i]), path + [Index(i)]);
      ItemsMeaning(s, items, path, i + 1);
      var r := ParseItems(s, items, path, i);
      assert r.status == Worse(o.status, rest.status);
      assert r.items == [Defined(o.value)] + rest.items;
      if r.status == Valid {
        forall k | i <= k < |items|
          ensures r.items[k - i] == Defined(Strip(s.element, Some(items[k])))
        {
          if k > i {
            assert r.items[k - i] == rest.items[k - (i + 1)];
          }
        }
      }
    }
  }

  lemma {:induction false} FieldsMeaning(s: Schema, m: map<string, Json>, path: Path, i: nat)
    requires s.ZObject? && i <= |s.shape|
    ensures ParseFields(s, m, path, i).status == Valid <==> AcceptsFields(s, m, i)
    ensures ParseFields(s, m, path, i).status == Valid ==>
      ParseFields(s, m, path, i).fields == StripFields(s, m, i)
    decreases s, 0, |s.shape| - i
  {
    if i < |s.shape| {
      var f := s.shape[i];
      ParseMeaning(f.schema, Get(m, f.key), path + [Key(f.key)]);
      FieldsMeaning(s, m, path, i + 1);
    }
  }

  lemma {:induction false} UnionMeaning(s: Schema, v: Option<Json>, path: Path, i: nat,
                                        dirty: Option<Outcome>, errors: seq<seq<Issue>>)
    requires s.ZUnion? && i <= |s.options|
    requires dirty.Some? ==> dirty.value.status == Dirty && dirty.value.issues != []
                             && (v.Some? ==> dirty.value.value.Some?)
    ensures ParseUnion(s, v, path, i, dirty, errors).status == Valid <==>
      exists k | i <= k < |s.options| :: Accepts(s.options[k], v)
    ensures ParseUnion(s, v, path, i, dirty, errors).status == Valid ==>
      ParseUnion(s, v, path, i, dirty, errors).value == StripUnion(s, v, i)
    decreases s, 0, |s.options| - i
  {
    if i < |s.options| {
      var o := Parse(s.options[i], v, path);
      ParseMeaning(s.options[i], v, path);
      if o.status != Valid {
        UnionMeaning(s, v, path, i + 1,
                     if o.status == Dirty && dirty.None? then Some(o) else dirty,
                     if o.issues != [] then errors + [o.issues] else errors);
      }
    }
  }

  // ---------------------------------------------------------------------------------------------
  // Failures

  /** An object's parse aborts as soon as one of its fields aborts. */
  lemma {:induction false} FieldsAbort(s: Schema, m: map<string, Json>, path: Path, j: nat, i: nat)
    requires s.ZObject? && j <= i < |s.shape|
    requires Parse(s.shape[i].schema, Get(m, s.shape[i].key), path + [Key(s.shape[i].key)]).status == Aborted
    ensures ParseFields(s, m, path, j).status == Aborted
    decreases i - j
  {
    if j < i {
      FieldsAbort(s, m, path, j + 1, i);
    }
  }

  /** An array's parse aborts as soon as one of its items aborts. */
  lemma {:induction false} ItemsAbort(s: Schema, items: seq<Json>, path: Path, j: nat, i: nat)
    requires s.ZArray? && j <= i < |items|
    requires Parse(s.element, Some(items[i]), path + [Index(i)]).status == Aborted
    ensures ParseItems(s, items, path, j).status == Aborted
    decreases i - j
  {
    if j < i {
      ItemsAbort(s, items, path, j + 1, i);
    }
  }

  /** An array's parse reports every issue of every item. */
  lemma {:induction false} ItemsIssues(s: Schema, items: seq<Json>, path: Path, j: nat, i: nat)
    requires s.ZArray? && j <= i < |items|
    ensures forall e | e in Parse(s.element, Some(items[i]), path + [Index(i)]).issues ::
      e in ParseItems(s, items, path, j).issues
    decreases i - j
  {
    if j < i {
      ItemsIssues(s, items, path, j + 1, i);
    }
  }

  /** An object's parse reports every issue of every field. */
  lemma {:induction false} FieldsIssues(s: Schema, m: map<string, Json>, path: Path, j: nat, i: nat)
    requires s.ZObject? && j <= i < |s.shape|
    ensures forall e | e in Parse(s.shape[i].schema, Get(m, s.shape[i].key), path + [Key(s.shape[i].key)]).issues ::
      e in ParseFields(s, m, path, j).issues
    decreases i - j
  {
    if j < i {
      FieldsIssues(s, m, path, j + 1, i);
    }
  }

  /**
   * A union none of whose options gets past an abort reports exactly one issue, an invalid_union
   * at the union's own path that carries one issue list per option.
   */
  lemma {:induction false} UnionAllAbort(s: Schema, v: Option<Json>, path: Path, i: nat, errors: seq<seq<Issue>>)
    requires s.ZUnion? && i <= |s.options|
    requires forall k | i <= k < |s.options| :: Parse(s.options[k], v, path).status == Aborted
    ensures var o := ParseUnion(s, v, path, i, None, errors);
      o.status == Aborted && |o.issues| == 1 && o.issues[0].path == path
      && o.issues[0].code.InvalidUnion? && |o.issues[0].code.unionErrors| == |errors| + |s.options| - i
    decreases |s.options| - i
  {
    if i < |s.options| {
      var o := Parse(s.options[i], v, path);
      assert o.issues != [];
      UnionAllAbort(s, v, path, i + 1, errors + [o.issues]);
    }
  }

  // ---------------------------------------------------------------------------------------------
  // Outputs

  /** A union outputs what its first accepting option outputs. */
  lemma {:induction false} StripUnionAt(s: Schema, v: Option<Json>, i: nat, k: nat)
    requires s.ZUnion? && i <= k < |s.options| && Accepts(s.options[k], v)
    requires forall j | i <= j < k :: !Accepts(s.options[j], v)
    ensures StripUnion(s, v, i) == Strip(s.options[k], v)
    decreases k - i
  {
    if i < k {
      StripUnionAt(s, v, i + 1, k);
    }
  }


  /** A schema that returns what it accepts: no object or intersection anywhere inside it. */
  predicate Passthrough(s: Schema) {
    match s
    case ZArray(element) => Passthrough(element)
    case ZObject(_) => false
    case ZUnion(options) => forall k | 0 <= k < |options| :: Passthrough(options[k])
    case ZIntersection(_, _) => false
    case ZOptional(inner) => Passthrough(inner)
    case ZLazy(body) => Passthrough(body)
    case _ => true
  }

  /** Only objects (and intersections of them) change the value they accept. */
  lemma {:induction false} PassthroughStrip(s: Schema, v: Option<Json>)
    requires Passthrough(s) && Accepts(s, v)
    ensures Strip(s, v) == v
    decreases s, 1
  {
    match s
    case ZArray(element) =>
      var items := v.value.items;
      forall k | 0 <= k < |items| ensures Defined(Strip(element, Some(items[k]))) == items[k] {
        PassthroughStrip(element, Some(items[k]));
      }
      assert seq(|items|, k requires 0 <= k < |items| => Defined(Strip(element, Some(items[k])))) == items;
    case ZUnion(options) =>
      PassthroughStripUnion(s, v, 0);
    case ZOptional(inner) =>
      if v.Some? {
        PassthroughStrip(inner, v);
      }
    case ZLazy(body) =>
      PassthroughStrip(body, v);
    case _ =>
  }

  lemma {:induction false} PassthroughStripUnion(s: Schema, v: Option<Json>, i: nat)
    requires s.ZUnion? && i <= |s.options| && Passthrough(s)
    requires exists k | i <= k < |s.options| :: Accepts(s.options[k], v)
    ensures StripUnion(s, v, i) == v
    decreases s, 0, |s.options| - i
  {
    if Accepts(s.options[i], v) {
      PassthroughStrip(s.options[i], v);
    } else {
      PassthroughStripUnion(s, v, i + 1);
    }
  }

  /** The keys of the fields `shape[i..j]`. */
  function KeysBetween(shape: seq<Field>, i: nat, j: nat): set<string>
    requires i <= j <= |shape|
  {
    set k | i <= k < j :: shape[k].key
  }

  lemma KeysBetweenSplit(shape: seq<Field>, i: nat, k: nat, j: nat)
    requires i <= k <= j <= |shape|
    ensures KeysBetween(shape, i, j) == KeysBetween(shape, i, k) + KeysBetween(shape, k, j)
  {
  }

  /**
   * When the fields `shape[i..j]` pass their values through and accept them, their part of the
   * output is the input restricted to their keys.
   */
  lemma {:induction false} StripFlatFields(s: Schema, m: map<string, Json>, i: nat, j: nat)
    requires s.ZObject? && i <= j <= |s.shape|
    requires AcceptsFields(s, m, i)
    requires forall k | i <= k < j :: Passthrough(s.shape[k].schema)
    ensures StripFields(s, m, i) == StripFields(s, m, j) + Restrict(m, KeysBetween(s.shape, i, j))
    decreases j - i
  {
    if i < j {
      var f := s.shape[i];
      var keys := KeysBetween(s.shape, i + 1, j);
      StripFlatFields(s, m, i + 1, j);
      PassthroughStrip(f.schema, Get(m, f.key));
      assert KeysBetween(s.shape, i, j) == {f.key} + keys;
      RestrictInsert(StripFields(s, m, j), m, f.key, keys);
    } else {
      assert KeysBetween(s.shape, i, j) == {};
    }
  }

  lemma RestrictInsert(tail: map<string, Json>, m: map<string, Json>, key: string, keys: set<string>)
    ensures (if key in m then (tail + Restrict(m, keys))[key := m[key]] else tail + Restrict(m, keys))
         == tail + Restrict(m, {key} + keys)
  {
  }

  /** Every field of the shape passes its value through. */
  predicate FlatShape(shape: seq<Field>) {
    forall k | 0 <= k < |shape| :: Passthrough(shape[k].schema)
  }

  /** An object of pass-through fields outputs the accepted object restricted to its declared keys. */
  lemma FlatObjectStrip(s: Schema, m: map<string, Json>)
    requires s.ZObject? && FlatShape(s.shape) && Accepts(s, Some(JObject(m)))
    ensures Strip(s, Some(JObject(m))) == Some(JObject(Restrict(m, KeysBetween(s.shape, 0, |s.shape|))))
  {
    StripFlatFields(s, m, 0, |s.shape|);
    assert StripFields(s, m, |s.shape|) == map[];
    assert map[] + Restrict(m, KeysBetween(s.shape, 0, |s.shape|)) == Restrict(m, KeysBetween(s.shape, 0, |s.shape|));
  }

  /** Two restrictions of one object always merge, to the restriction to both key sets. */
  lemma MergeRestrictions(m: map<string, Json>, a: set<string>, b: set<string>)
    ensures Merge(Some(JObject(Restrict(m, a))), Some(JObject(Restrict(m, b))))
         == Some(Some(JObject(Restrict(m, a + b))))
  {
    if Restrict(m, a) == Restrict(m, b) {
      assert Restrict(m, a + b) == Restrict(m, a);
    } else {
      assert Restrict(m, a) + Restrict(m, b) == Restrict(m, a + b);
    }
  }
}
