/** Declarative record schemas in the manner of pydantic `BaseModel` classes,
    and the validator that turns a raw dictionary into a record keyed by
    canonical field names or into the list of every problem found. */
module Validation {
  import opened Json

  /** The annotation of a field. `TNumber` is `int | float`, which keeps an
      integer an integer; `TFloat` is `float`, which also takes an integer and
      turns it into a float. */
  datatype FieldType =
    | TStr
    | TInt
    | TFloat
    | TNumber
    | TBool
    | TList(elem: FieldType)
    | TDict(value: FieldType)
    | TModel(schema: seq<FieldSpec>)

  /** One line of a model class. The value is read from `rawKey` (the alias, or
      the field's own name when it has none) and exposed under `name`.
      `keyRequired` is false exactly for a field with a default, and the only
      default in these models is `None`; `nullable` says that `None` is an
      accepted value (`Optional[...]`, `... | None`). */
  datatype FieldSpec = FieldSpec(name: string, rawKey: string, ty: FieldType, keyRequired: bool, nullable: bool)

  type Schema = seq<FieldSpec>

  /** A validated record as `model_dump()` returns it: canonical names in
      declaration order. */
  type Record = seq<(string, Json)>

  /** `x: T` */
  function Required(name: string, ty: FieldType): FieldSpec { FieldSpec(name, name, ty, true, false) }
  /** `x: T = Field(..., alias="raw")` */
  function Aliased(name: string, raw: string, ty: FieldType): FieldSpec { FieldSpec(name, raw, ty, true, false) }
  /** `x: T | None` with no default: the key must be there, its value may be null. */
  function Nullable(name: string, ty: FieldType): FieldSpec { FieldSpec(name, name, ty, true, true) }
  /** `x: T | None = Field(..., alias="raw")` */
  function NullableAliased(name: string, raw: string, ty: FieldType): FieldSpec { FieldSpec(name, raw, ty, true, true) }
  /** `x: Optional[T] = None`: the key may be missing, and then the value is `None`. */
  function Defaulted(name: string, ty: FieldType): FieldSpec { FieldSpec(name, name, ty, false, true) }

  function Names(s: Schema): seq<string>
  {
    seq(|s|, j requires 0 <= j < |s| => s[j].name)
  }

  /** The keys of a dumped record, in order. */
  function DumpKeys(r: Record): seq<string>
  {
    seq(|r|, j requires 0 <= j < |r| => r[j].0)
  }

  function RawKeys(s: Schema): set<string>
  {
    set j | 0 <= j < |s| :: s[j].rawKey
  }

  // Vocabulary for stating what a record class accepts, in JSON terms

  predicate IsNumber(v: Json) { v.JInt? || v.JFloat? }

  /** What `float` makes of an accepted value: an integer becomes a float. */
  function AsFloat(v: Json): Json { if v.JInt? then JFloat(v.i as real) else v }

  /** The value of a key, or `None` when it is missing. */
  function Lookup(m: map<string, Json>, k: string): Json { if k in m then m[k] else JNull }

  predicate Str(m: map<string, Json>, k: string) { k in m && m[k].JStr? }
  predicate Int(m: map<string, Json>, k: string) { k in m && m[k].JInt? }
  predicate Number(m: map<string, Json>, k: string) { k in m && IsNumber(m[k]) }
  predicate Bool(m: map<string, Json>, k: string) { k in m && m[k].JBool? }
  /** Present, and a number or null. */
  predicate NumberOrNull(m: map<string, Json>, k: string) { k in m && (m[k].JNull? || IsNumber(m[k])) }
  /** Missing, null, or a string. */
  predicate OptionalStr(m: map<string, Json>, k: string) { k !in m || m[k].JNull? || m[k].JStr? }
  /** Missing, null, or a number. */
  predicate OptionalNumber(m: map<string, Json>, k: string) { k !in m || m[k].JNull? || IsNumber(m[k]) }

  // ---------------------------------------------------------------------
  // Errors

  datatype Loc = Key(key: string) | Index(index: nat)
  datatype IssueKind = Missing | WrongType(shouldBe: string)
  /** One entry of a `ValidationError`: where, and what is wrong there. */
  datatype Issue = Issue(loc: seq<Loc>, kind: IssueKind)

  datatype Result<+T> = Ok(value: T) | Err(issues: seq<Issue>)

  /** An error result always reports at least one issue. */
  predicate Reported<T>(r: Result<T>)
  {
    r.Err? ==> |r.issues| > 0
  }

  function Mismatch<T>(shouldBe: string): (r: Result<T>)
  {
    Err([Issue([], WrongType(shouldBe))])
  }

  function Under(l: Loc, issues: seq<Issue>): (r: seq<Issue>)
    ensures |r| == |issues|
  {
    seq(|issues|, k requires 0 <= k < |issues| => Issue([l] + issues[k].loc, issues[k].kind))
  }

  /** Validation carries on past a failure so that every problem is reported. */
  function Cons<T>(head: Result<T>, tail: Result<seq<T>>): (r: Result<seq<T>>)
    ensures r.Ok? <==> head.Ok? && tail.Ok?
    ensures r.Ok? ==> r.value == [head.value] + tail.value
    ensures Reported(head) && Reported(tail) ==> Reported(r)
  {
    match (head, tail)
    case (Ok(h), Ok(t)) => Ok([h] + t)
    case (Ok(_), Err(e)) => Err(e)
    case (Err(e), Ok(_)) => Err(e)
    case (Err(e1), Err(e2)) => Err(e1 + e2)
  }

  /** Decimal digits of a number. */
  function NatToString(n: nat): string
  {
    if n < 10 then ["0123456789"[n]] else NatToString(n / 10) + ["0123456789"[n % 10]]
  }

  function Join(sep: string, parts: seq<string>): string
  {
    if |parts| == 0 then ""
    else if |parts| == 1 then parts[0]
    else parts[0] + sep + Join(sep, parts[1..])
  }

  function LocText(loc: seq<Loc>): string
  {
    Join(".", seq(|loc|, k requires 0 <= k < |loc| => match loc[k] case Key(key) => key case Index(n) => NatToString(n)))
  }

  function KindText(kind: IssueKind): string
  {
    match kind
    case Missing => "Field required"
    case WrongType(shouldBe) => "Input should be " + shouldBe
  }

  /** The text of a `ValidationError` for model `title`: a count, then every
      issue as its location followed by an indented message. */
  function Render(title: string, issues: seq<Issue>): string
  {
    NatToString(|issues|) + " validation error" + (if |issues| == 1 then "" else "s") + " for " + title + "\n"
      + Join("\n", seq(|issues|, k requires 0 <= k < |issues| => LocText(issues[k].loc) + "\n  " + KindText(issues[k].kind)))
  }

  // ---------------------------------------------------------------------
  // The validator

  /** Checks one value against an annotation and returns it normalised. */
  function CheckValue(t: FieldType, v: Json): (r: Result<Json>)
    ensures Reported(r)
    decreases t, 1, 0
  {
    match t
    case TStr => if v.JStr? then Ok(v) else Mismatch("a valid string")
    case TInt => if v.JInt? then Ok(v) else Mismatch("a valid integer")
    case TFloat =>
      if v.JFloat? then Ok(v)
      else if v.JInt? then Ok(JFloat(v.i as real))
      else Mismatch("a valid number")
    case TNumber => if v.JInt? || v.JFloat? then Ok(v) else Mismatch("a valid number")
    case TBool => if v.JBool? then Ok(v) else Mismatch("a valid boolean")
    case TList(e) =>
      if v.JArr? then
        match CheckList(e, v.items, 0)
        case Ok(xs) => Ok(JArr(xs))
        case Err(es) => Err(es)
      else Mismatch("a valid list")
    case TDict(e) =>
      if v.JObj? then
        match CheckEntries(e, DictItems(v.fields), 0)
        case Ok(fs) => Ok(JObj(fs))
        case Err(es) => Err(es)
      else Mismatch("a valid dictionary")
    case TModel(s) =>
      if v.JObj? then
        match ValidateFields(s, ToMap(v.fields), 0)
        case Ok(fs) => Ok(JObj(fs))
        case Err(es) => Err(es)
      else Mismatch("a valid dictionary or instance of a model")
  }

  /** The elements of a list from position `i` on. */
  function CheckList(e: FieldType, xs: seq<Json>, i: nat): (r: Result<seq<Json>>)
    requires i <= |xs|
    ensures Reported(r)
    decreases e, 2, |xs| - i
  {
    if i == |xs| then Ok([])
    else
      var head := match CheckValue(e, xs[i])
        case Ok(x) => Ok(x)
        case Err(es) => Err(Under(Index(i), es));
      Cons(head, CheckList(e, xs, i + 1))
  }

  /** The entries of a `dict[str, T]` from position `i` on. */
  function CheckEntries(e: FieldType, fs: seq<(string, Json)>, i: nat): (r: Result<seq<(string, Json)>>)
    requires i <= |fs|
    ensures Reported(r)
    decreases e, 2, |fs| - i
  {
    if i == |fs| then Ok([])
    else
      var head := match CheckValue(e, fs[i].1)
        case Ok(x) => Ok((fs[i].0, x))
        case Err(es) => Err(Under(Key(fs[i].0), es));
      Cons(head, CheckEntries(e, fs, i + 1))
  }

  /** One field: looked up by its raw key only. */
  function CheckField(f: FieldSpec, m: map<string, Json>): (r: Result<(string, Json)>)
    ensures Reported(r)
    decreases f.ty, 2, 0
  {
    if f.rawKey in m then
      var v := m[f.rawKey];
      if v.JNull? && f.nullable then Ok((f.name, JNull))
      else
        match CheckValue(f.ty, v)
        case Ok(x) => Ok((f.name, x))
        case Err(es) => Err(Under(Key(f.rawKey), es))
    else if f.keyRequired then Err([Issue([Key(f.rawKey)], Missing)])
    else Ok((f.name, JNull))
  }

  /** The fields of a schema from position `i` on. */
  function ValidateFields(s: Schema, m: map<string, Json>, i: nat): (r: Result<Record>)
    requires i <= |s|
    ensures Reported(r)
    decreases TModel(s), 0, |s| - i
  {
    if i == |s| then Ok([])
    else Cons(CheckField(s[i], m), ValidateFields(s, m, i + 1))
  }

  /** `Model(**m).model_dump()`, or the `ValidationError` it raises. */
  function ValidateRecord(s: Schema, m: map<string, Json>): (r: Result<Record>)
    ensures Reported(r)
  {
    ValidateFields(s, m, 0)
  }

  // ---------------------------------------------------------------------
  // Reference definitions: which values are accepted, and what comes out

  /** The values an annotation accepts. */
  predicate Conforms(t: FieldType, v: Json)
    decreases t, 1
  {
    match t
    case TStr => v.JStr?
    case TInt => v.JInt?
    case TFloat => v.JFloat? || v.JInt?
    case TNumber => v.JFloat? || v.JInt?
    case TBool => v.JBool?
    case TList(e) => v.JArr? && forall k :: 0 <= k < |v.items| ==> Conforms(e, v.items[k])
    case TDict(e) => v.JObj? && forall k :: 0 <= k < |DictItems(v.fields)| ==> Conforms(e, DictItems(v.fields)[k].1)
    case TModel(s) => v.JObj? && RecordConforms(s, ToMap(v.fields))
  }

  /** A field is fine when its key is missing and it has a default, or when its
      value is null and it is nullable, or when its value conforms. */
  predicate FieldConforms(f: FieldSpec, m: map<string, Json>)
    decreases f.ty, 2
  {
    if f.rawKey in m then (m[f.rawKey].JNull? && f.nullable) || Conforms(f.ty, m[f.rawKey])
    else !f.keyRequired
  }

  predicate RecordConforms(s: Schema, m: map<string, Json>)
    decreases TModel(s), 0
  {
    forall j :: 0 <= j < |s| ==> FieldConforms(s[j], m)
  }

  /** The normalised form of an accepted value. */
  function Convert(t: FieldType, v: Json): Json
    decreases t, 1
  {
    match t
    case TFloat => if v.JInt? then JFloat(v.i as real) else v
    case TList(e) =>
      if v.JArr? then JArr(seq(|v.items|, k requires 0 <= k < |v.items| => Convert(e, v.items[k]))) else v
    case TDict(e) =>
      if v.JObj? then
        var items := DictItems(v.fields);
        JObj(seq(|items|, k requires 0 <= k < |items| => (items[k].0, Convert(e, items[k].1))))
      else v
    case TModel(s) => if v.JObj? then JObj(RecordValue(s, ToMap(v.fields))) else v
    case _ => v
  }

  /** What a field contributes to the dump: its canonical name, and its
      converted value, or `None` when the key is missing or the value is null. */
  function FieldValue(f: FieldSpec, m: map<string, Json>): (string, Json)
    decreases f.ty, 2
  {
    if f.rawKey in m && !(m[f.rawKey].JNull? && f.nullable) then (f.name, Convert(f.ty, m[f.rawKey]))
    else (f.name, JNull)
  }

  function RecordValue(s: Schema, m: map<string, Json>): Record
    decreases TModel(s), 0
  {
    seq(|s|, j requires 0 <= j < |s| => FieldValue(s[j], m))
  }

  /** A `float` field whose key is present dumps its value as a float, a
      null as `None`. */
  lemma FloatFieldValue(f: FieldSpec, m: map<string, Json>)
    requires f.ty == TFloat && f.rawKey in m
    ensures FieldValue(f, m) == (f.name, AsFloat(m[f.rawKey]))
  {
  }

  /** A class of `float` fields only, every key present: each field dumps its
      value as a float under its canonical name. */
  lemma FloatRecordValue(s: Schema, m: map<string, Json>)
    requires forall j :: 0 <= j < |s| ==> s[j].ty == TFloat && s[j].rawKey in m
    ensures RecordValue(s, m) == seq(|s|, j requires 0 <= j < |s| => (s[j].name, AsFloat(m[s[j].rawKey])))
  {
    forall j | 0 <= j < |s| ensures FieldValue(s[j], m) == (s[j].name, AsFloat(m[s[j].rawKey])) {
      FloatFieldValue(s[j], m);
    }
  }

  // ---------------------------------------------------------------------
  // The validator against the reference definitions

  lemma {:induction false} CheckValueCorrect(t: FieldType, v: Json)
    ensures CheckValue(t, v).Ok? <==> Conforms(t, v)
    ensures CheckValue(t, v).Ok? ==> CheckValue(t, v).value == Convert(t, v)
    decreases t, 1, 0
  {
    match t
    case TList(e) => CheckListValueCorrect(e, v);
    case TDict(e) => CheckDictValueCorrect(e, v);
    case TModel(s) => CheckModelValueCorrect(s, v);
    case _ =>
  }

  lemma {:induction false} CheckListValueCorrect(e: FieldType, v: Json)
    ensures CheckValue(TList(e), v).Ok? <==> Conforms(TList(e), v)
    ensures CheckValue(TList(e), v).Ok? ==> CheckValue(TList(e), v).value == Convert(TList(e), v)
    decreases TList(e), 0, 0
  {
    if v.JArr? {
      CheckListCorrect(e, v.items, 0);
      if CheckList(e, v.items, 0).Ok? {
        assert CheckList(e, v.items, 0).value == seq(|v.items|, k requires 0 <= k < |v.items| => Convert(e, v.items[k]));
      }
    }
  }

  lemma {:induction false} CheckDictValueCorrect(e: FieldType, v: Json)
    ensures CheckValue(TDict(e), v).Ok? <==> Conforms(TDict(e), v)
    ensures CheckValue(TDict(e), v).Ok? ==> CheckValue(TDict(e), v).value == Convert(TDict(e), v)
    decreases TDict(e), 0, 0
  {
    if v.JObj? {
      var items := DictItems(v.fields);
      CheckEntriesCorrect(e, items, 0);
      if CheckEntries(e, items, 0).Ok? {
        assert CheckEntries(e, items, 0).value == seq(|items|, k requires 0 <= k < |items| => (items[k].0, Convert(e, items[k].1)));
      }
    }
  }

  lemma {:induction false} CheckModelValueCorrect(s: Schema, v: Json)
    ensures CheckValue(TModel(s), v).Ok? <==> Conforms(TModel(s), v)
    ensures CheckValue(TModel(s), v).Ok? ==> CheckValue(TModel(s), v).value == Convert(TModel(s), v)
    decreases TModel(s), 0, |s| + 1
  {
    if v.JObj? {
      ValidateFieldsCorrect(s, ToMap(v.fields), 0);
      if ValidateFields(s, ToMap(v.fields), 0).Ok? {
        assert ValidateFields(s, ToMap(v.fields), 0).value == RecordValue(s, ToMap(v.fields));
      }
    }
  }

  lemma {:induction false} CheckListCorrect(e: FieldType, xs: seq<Json>, i: nat)
    requires i <= |xs|
    ensures CheckList(e, xs, i).Ok? <==> forall k :: i <= k < |xs| ==> Conforms(e, xs[k])
    ensures CheckList(e, xs, i).Ok? ==>
      |CheckList(e, xs, i).value| == |xs| - i &&
      forall k :: i <= k < |xs| ==> CheckList(e, xs, i).value[k - i] == Convert(e, xs[k])
    decreases e, 2, |xs| - i
  {
    if i < |xs| {
      CheckValueCorrect(e, xs[i]);
      CheckListCorrect(e, xs, i + 1);
    }
  }

  lemma {:induction false} CheckEntriesCorrect(e: FieldType, fs: seq<(string, Json)>, i: nat)
    requires i <= |fs|
    ensures CheckEntries(e, fs, i).Ok? <==> forall k :: i <= k < |fs| ==> Conforms(e, fs[k].1)
    ensures CheckEntries(e, fs, i).Ok? ==>
      |CheckEntries(e, fs, i).value| == |fs| - i &&
      forall k :: i <= k < |fs| ==> CheckEntries(e, fs, i).value[k - i] == (fs[k].0, Convert(e, fs[k].1))
    decreases e, 2, |fs| - i
  {
    if i < |fs| {
      CheckValueCorrect(e, fs[i].1);
      CheckEntriesCorrect(e, fs, i + 1);
    }
  }

  lemma {:induction false} CheckFieldCorrect(f: FieldSpec, m: map<string, Json>)
    ensures CheckField(f, m).Ok? <==> FieldConforms(f, m)
    ensures CheckField(f, m).Ok? ==> CheckField(f, m).value == FieldValue(f, m)
    decreases f.ty, 2, 0
  {
    if f.rawKey in m {
      CheckValueCorrect(f.ty, m[f.rawKey]);
    }
  }

  lemma {:induction false} ValidateFieldsCorrect(s: Schema, m: map<string, Json>, i: nat)
    requires i <= |s|
    ensures ValidateFields(s, m, i).Ok? <==> forall j :: i <= j < |s| ==> FieldConforms(s[j], m)
    ensures ValidateFields(s, m, i).Ok? ==>
      |ValidateFields(s, m, i).value| == |s| - i &&
      forall j :: i <= j < |s| ==> ValidateFields(s, m, i).value[j - i] == FieldValue(s[j], m)
    decreases TModel(s), 0, |s| - i
  {
    if i < |s| {
      CheckFieldCorrect(s[i], m);
      ValidateFieldsCorrect(s, m, i + 1);
    }
  }

  /** A record validates exactly when every field conforms, and then the dump
      is the converted value of every field, in declaration order. */
  lemma ValidateRecordCorrect(s: Schema, m: map<string, Json>)
    ensures ValidateRecord(s, m).Ok? <==> RecordConforms(s, m)
    ensures ValidateRecord(s, m).Ok? ==> ValidateRecord(s, m).value == RecordValue(s, m)
  {
    ValidateFieldsCorrect(s, m, 0);
    if ValidateRecord(s, m).Ok? {
      assert ValidateRecord(s, m).value == RecordValue(s, m);
    }
  }

  /** The dump has one entry per declared field, under its canonical name. */
  lemma DumpHasCanonicalNames(s: Schema, m: map<string, Json>)
    requires ValidateRecord(s, m).Ok?
    ensures |ValidateRecord(s, m).value| == |s|
    ensures forall j :: 0 <= j < |s| ==> ValidateRecord(s, m).value[j].0 == s[j].name
    ensures DumpKeys(ValidateRecord(s, m).value) == Names(s)
  {
    ValidateRecordCorrect(s, m);
  }

  /** Accepted records have every required key, and no null where the value
      may not be null. */
  lemma AcceptedHasRequiredKeys(s: Schema, m: map<string, Json>, j: nat)
    requires ValidateRecord(s, m).Ok?
    requires j < |s|
    ensures s[j].keyRequired ==> s[j].rawKey in m
    ensures s[j].rawKey in m && !s[j].nullable ==> !m[s[j].rawKey].JNull?
  {
    ValidateRecordCorrect(s, m);
    assert FieldConforms(s[j], m);
    NullConformsToNothing(s[j].ty);
  }

  /** A null value is accepted only through a field's nullability. */
  lemma NullConformsToNothing(t: FieldType)
    ensures !Conforms(t, JNull)
  {
    match t
    case _ =>
  }

  /** Only the raw keys of the schema are read: two dictionaries that agree on
      them validate alike. */
  lemma {:induction false} ValidateFieldsReadsRawKeys(s: Schema, m1: map<string, Json>, m2: map<string, Json>, i: nat)
    requires i <= |s|
    requires forall j :: 0 <= j < |s| ==> (s[j].rawKey in m1 <==> s[j].rawKey in m2)
    requires forall j :: 0 <= j < |s| && s[j].rawKey in m1 ==> m1[s[j].rawKey] == m2[s[j].rawKey]
    ensures ValidateFields(s, m1, i) == ValidateFields(s, m2, i)
    decreases |s| - i
  {
    if i < |s| {
      assert CheckField(s[i], m1) == CheckField(s[i], m2);
      ValidateFieldsReadsRawKeys(s, m1, m2, i + 1);
    }
  }

  /** Any key the schema does not declare is ignored, whatever its value. */
  lemma ExtraKeyIgnored(s: Schema, m: map<string, Json>, k: string, v: Json)
    requires k !in RawKeys(s)
    ensures ValidateRecord(s, m[k := v]) == ValidateRecord(s, m)
  {
    forall j | 0 <= j < |s| ensures s[j].rawKey != k {
      assert s[j].rawKey in RawKeys(s);
    }
    ValidateFieldsReadsRawKeys(s, m[k := v], m, 0);
  }

  // ---------------------------------------------------------------------
  // Refinement: a stricter schema for the same records

  /** `t1` accepts no more than `t2`, and what both accept is converted alike. */
  predicate TypeRefines(t1: FieldType, t2: FieldType)
    decreases t1, 1
  {
    match t1
    case TInt => t2 == TInt || t2 == TNumber
    case TList(e1) => t2.TList? && TypeRefines(e1, t2.elem)
    case TDict(e1) => t2.TDict? && TypeRefines(e1, t2.value)
    case TModel(s1) => t2.TModel? && SchemaRefines(s1, t2.schema)
    case _ => t2 == t1
  }

  /** Same canonical name and alias; the stricter field needs its key whenever
      the laxer one does and is nullable only if the laxer one is. */
  predicate FieldRefines(f1: FieldSpec, f2: FieldSpec)
    decreases f1.ty, 2
  {
    && f1.name == f2.name
    && f1.rawKey == f2.rawKey
    && (f2.keyRequired ==> f1.keyRequired)
    && (f1.nullable ==> f2.nullable)
    && TypeRefines(f1.ty, f2.ty)
  }

  predicate SchemaRefines(s1: Schema, s2: Schema)
    decreases TModel(s1), 0
  {
    |s1| == |s2| && forall j :: 0 <= j < |s1| ==> FieldRefines(s1[j], s2[j])
  }

  lemma {:induction false} TypeRefinesReflexive(t: FieldType)
    ensures TypeRefines(t, t)
    decreases t, 1
  {
    match t
    case TList(e) => TypeRefinesReflexive(e);
    case TDict(e) => TypeRefinesReflexive(e);
    case TModel(s) => SchemaRefinesReflexive(s);
    case _ =>
  }

  lemma {:induction false} SchemaRefinesReflexive(s: Schema)
    ensures SchemaRefines(s, s)
    decreases TModel(s), 0
  {
    forall j | 0 <= j < |s| ensures FieldRefines(s[j], s[j]) {
      TypeRefinesReflexive(s[j].ty);
    }
  }

  lemma {:induction false} ConformsRefines(t1: FieldType, t2: FieldType, v: Json)
    requires TypeRefines(t1, t2) && Conforms(t1, v)
    ensures Conforms(t2, v) && Convert(t2, v) == Convert(t1, v)
    decreases t1, 1
  {
    match t1
    case TList(e1) =>
      var e2 := t2.elem;
      forall k | 0 <= k < |v.items| ensures Conforms(e2, v.items[k]) && Convert(e2, v.items[k]) == Convert(e1, v.items[k]) {
        ConformsRefines(e1, e2, v.items[k]);
      }
    case TDict(e1) =>
      var e2 := t2.value;
      var items := DictItems(v.fields);
      forall k | 0 <= k < |items| ensures Conforms(e2, items[k].1) && Convert(e2, items[k].1) == Convert(e1, items[k].1) {
        ConformsRefines(e1, e2, items[k].1);
      }
    case TModel(s1) =>
      RecordRefines(s1, t2.schema, ToMap(v.fields));
    case _ =>
  }

  lemma {:induction false} FieldConformsRefines(f1: FieldSpec, f2: FieldSpec, m: map<string, Json>)
    requires FieldRefines(f1, f2) && FieldConforms(f1, m)
    ensures FieldConforms(f2, m) && FieldValue(f2, m) == FieldValue(f1, m)
    decreases f1.ty, 2
  {
    if f1.rawKey in m && !(m[f1.rawKey].JNull? && f1.nullable) {
      ConformsRefines(f1.ty, f2.ty, m[f1.rawKey]);
    }
  }

  lemma {:induction false} RecordRefines(s1: Schema, s2: Schema, m: map<string, Json>)
    requires SchemaRefines(s1, s2) && RecordConforms(s1, m)
    ensures RecordConforms(s2, m) && RecordValue(s2, m) == RecordValue(s1, m)
    decreases TModel(s1), 0
  {
    forall j | 0 <= j < |s1| ensures FieldConforms(s2[j], m) && FieldValue(s2[j], m) == FieldValue(s1[j], m) {
      FieldConformsRefines(s1[j], s2[j], m);
    }
  }

  /** Whatever the stricter schema accepts, the laxer one accepts too, with the
      same dump. */
  lemma ValidateRefines(s1: Schema, s2: Schema, m: map<string, Json>)
    requires SchemaRefines(s1, s2)
    requires ValidateRecord(s1, m).Ok?
    ensures ValidateRecord(s2, m) == ValidateRecord(s1, m)
  {
    ValidateRecordCorrect(s1, m);
    ValidateRecordCorrect(s2, m);
    RecordRefines(s1, s2, m);
  }

  // ---------------------------------------------------------------------
  // Lists of records, as `list[Model]`

  /** A JSON list every element of which is an object the schema accepts. */
  predicate RecordsValid(s: Schema, v: Json)
  {
    v.JArr? && forall k :: 0 <= k < |v.items| ==> v.items[k].JObj? && ValidateRecord(s, ToMap(v.items[k].fields)).Ok?
  }

  /** The dumps of all the records of such a list, in list order. */
  function DumpAll(s: Schema, v: Json): Json
    requires RecordsValid(s, v)
  {
    JArr(seq(|v.items|, k requires 0 <= k < |v.items| => JObj(ValidateRecord(s, ToMap(v.items[k].fields)).value)))
  }

  lemma ListOfModelsCorrect(s: Schema, v: Json)
    ensures Conforms(TList(TModel(s)), v) <==> RecordsValid(s, v)
    ensures RecordsValid(s, v) ==> Convert(TList(TModel(s)), v) == DumpAll(s, v)
  {
    if v.JArr? {
      forall k | 0 <= k < |v.items| && v.items[k].JObj?
        ensures ValidateRecord(s, ToMap(v.items[k].fields)).Ok? <==> RecordConforms(s, ToMap(v.items[k].fields))
        ensures ValidateRecord(s, ToMap(v.items[k].fields)).Ok? ==> ValidateRecord(s, ToMap(v.items[k].fields)).value == RecordValue(s, ToMap(v.items[k].fields))
      {
        ValidateRecordCorrect(s, ToMap(v.items[k].fields));
      }
    }
  }

  /** A required `list[Model]` field holds a list of valid records. */
  lemma ModelListField(name: string, s: Schema, m: map<string, Json>)
    ensures FieldConforms(Required(name, TList(TModel(s))), m) <==> name in m && RecordsValid(s, m[name])
  {
    if name in m { ListOfModelsCorrect(s, m[name]); }
  }

  /** A `list[Model]` field refines another of the same name when its model does. */
  lemma ModelListRefines(name: string, s1: Schema, s2: Schema)
    requires SchemaRefines(s1, s2)
    ensures FieldRefines(Required(name, TList(TModel(s1))), Required(name, TList(TModel(s2))))
  {
  }

  lemma ModelConforms(s: Schema, v: Json)
    ensures Conforms(TModel(s), v) <==> v.JObj? && ValidateRecord(s, ToMap(v.fields)).Ok?
    ensures Conforms(TModel(s), v) ==> Convert(TModel(s), v) == JObj(ValidateRecord(s, ToMap(v.fields)).value)
  {
    if v.JObj? { ValidateRecordCorrect(s, ToMap(v.fields)); }
  }

  // ---------------------------------------------------------------------
  // `dict[str, T]` fields see the object as Python decodes it

  /** A `dict[str, T]` value conforms exactly when every value of the decoded
      dict does, a value overridden by a later duplicate key included in none. */
  lemma DictConformsByMap(e: FieldType, v: Json)
    requires v.JObj?
    ensures Conforms(TDict(e), v) <==> forall k :: k in ToMap(v.fields) ==> Conforms(e, ToMap(v.fields)[k])
  {
    var items := DictItems(v.fields);
    DictItemsLookup(v.fields);
    if Conforms(TDict(e), v) {
      forall k | k in ToMap(v.fields) ensures Conforms(e, ToMap(v.fields)[k]) {
        var i :| 0 <= i < |items| && items[i].0 == k;
      }
    } else {
      var i :| 0 <= i < |items| && !Conforms(e, items[i].1);
      assert items[i].0 in ToMap(v.fields) && !Conforms(e, ToMap(v.fields)[items[i].0]);
    }
  }

  /** The dump of a `dict[str, T]` value is the decoded dict with every value
      converted, its keys once each. */
  lemma DictConvertByMap(e: FieldType, v: Json)
    requires v.JObj?
    ensures Convert(TDict(e), v).JObj? && DistinctKeys(Convert(TDict(e), v).fields)
    ensures Keys(Convert(TDict(e), v).fields) == Keys(v.fields)
    ensures forall i :: 0 <= i < |Convert(TDict(e), v).fields| ==>
      Convert(TDict(e), v).fields[i].1 == Convert(e, ToMap(v.fields)[Convert(TDict(e), v).fields[i].0])
  {
    var items := DictItems(v.fields);
    DictItemsKeys(v.fields);
    DictItemsLookup(v.fields);
    DictConvertItems(e, v);
    SameKeys(items, Convert(TDict(e), v).fields);
  }

  lemma DictConvertItems(e: FieldType, v: Json)
    requires v.JObj?
    ensures Convert(TDict(e), v).JObj?
    ensures |Convert(TDict(e), v).fields| == |DictItems(v.fields)|
    ensures forall i :: 0 <= i < |DictItems(v.fields)| ==>
      Convert(TDict(e), v).fields[i] == (DictItems(v.fields)[i].0, Convert(e, DictItems(v.fields)[i].1))
  {
  }

  /** A later duplicate key overrides an earlier one: a string under `a`
      followed by a number under `a` is a valid `dict[str, float]`. */
  lemma DuplicateKeyLaterWins()
    ensures CheckValue(TDict(TFloat), JObj([("a", JStr("x")), ("a", JInt(1))])) == Ok(JObj([("a", JFloat(1.0))]))
  {
    var fs := [("a", JStr("x")), ("a", JInt(1))];
    assert FirstKeys(fs, {}) == ["a"] by {
      assert fs[1..] == [("a", JInt(1))];
      assert fs[1..][1..] == [];
    }
    assert ToMap(fs) == map["a" := JInt(1)] by {
      assert fs[..1] == [("a", JStr("x"))];
      assert fs[..1][..0] == [];
    }
    var items := [("a", JInt(1))];
    assert DictItems(fs) == items;
    assert CheckEntries(TFloat, items, 1) == Ok([]);
    assert CheckValue(TFloat, items[0].1) == Ok(JFloat(1.0));
    assert [("a", JFloat(1.0))] + [] == [("a", JFloat(1.0))];
    assert CheckEntries(TFloat, items, 0) == Ok([("a", JFloat(1.0))]);
  }
}
