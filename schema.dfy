/** Declarative field validation, as the configuration models perform it
    when they are built from a parsed YAML document.

    A model is described by a sequence of field specifications (name, scalar
    kind, range constraint, and whether the field is required, has a default,
    or may be null). Validating a dictionary against it checks every field,
    in declaration order, and either yields every field's value or reports
    every field that failed, each with its location and the problem. */
module Schema {
  import opened Wrappers

  /** A value as the YAML loader produces it. */
  datatype Value =
    | VNull
    | VBool(b: bool)
    | VInt(i: int)
    | VFloat(f: real)
    | VStr(s: string)
    | VDict(fields: map<string, Value>)

  /** The scalar types a model field can declare: float, int, bool, str. */
  datatype Kind = FloatKind | IntKind | BoolKind | StrKind

  /** A validated scalar field value. */
  datatype Scalar = SFloat(f: real) | SInt(i: int) | SBool(b: bool) | SStr(s: string)

  predicate HasKind(s: Scalar, k: Kind)
  {
    match k
    case FloatKind => s.SFloat?
    case IntKind => s.SInt?
    case BoolKind => s.SBool?
    case StrKind => s.SStr?
  }

  /** The constrained float types: a longitude lies in [-180, 180), a
      latitude in (-90, 90), and a resolution is at least 0.001. */
  predicate IsLongitude(x: real) { -180.0 <= x < 180.0 }
  predicate IsLatitude(y: real) { -90.0 < y < 90.0 }
  predicate IsResolution(r: real) { r >= 0.001 }

  type Longitude = x: real | IsLongitude(x) witness 0.0
  type Latitude = y: real | IsLatitude(y) witness 0.0
  type Resolution = r: real | IsResolution(r) witness 0.001

  datatype Constraint = Unconstrained | LongitudeRange | LatitudeRange | ResolutionFloor

  predicate Satisfies(c: Constraint, s: Scalar)
  {
    match c
    case Unconstrained => true
    case LongitudeRange => s.SFloat? && IsLongitude(s.f)
    case LatitudeRange => s.SFloat? && IsLatitude(s.f)
    case ResolutionFloor => s.SFloat? && IsResolution(s.f)
  }

  /** How a field treats absence and null: a required field must be given
      and not null; a field with a plain default takes it when absent but
      still refuses null; an optional field takes its default (possibly
      None) when absent and None when null. Defaults are not validated. */
  datatype Presence =
    | Required
    | Defaulted(default: Scalar)
    | Nullable(fallback: Option<Scalar>)

  datatype FieldSpec = FieldSpec(name: string, kind: Kind, constraint: Constraint, presence: Presence)

  datatype Problem =
    | FieldRequired
    | NoneNotAllowed
    | WrongType(expected: Kind)
    | OutOfRange(constraint: Constraint)
    | NotADict
    | NotAnEnumMember

  /** One validation error: where (the path of field names) and what. */
  datatype Violation = Violation(loc: seq<string>, problem: Problem)

  predicate IsNumber(v: Value)
  {
    v.VInt? || v.VFloat?
  }

  function AsNumber(v: Value): real
    requires IsNumber(v)
  {
    if v.VInt? then v.i as real else v.f
  }

  /** The values a field of kind `k` accepts: a float field takes any
      number, the others only their own type. */
  predicate Fits(v: Value, k: Kind)
  {
    match k
    case FloatKind => IsNumber(v)
    case IntKind => v.VInt?
    case BoolKind => v.VBool?
    case StrKind => v.VStr?
  }

  /** Reads a non-null value as a scalar of kind `k`. A float field also
      takes an integer, which becomes the equal float. */
  function Coerce(v: Value, k: Kind): (r: Option<Scalar>)
    ensures r.Some? <==> Fits(v, k)
    ensures r.Some? ==> HasKind(r.value, k)
    ensures k == FloatKind ==> (r.Some? <==> IsNumber(v)) && (r.Some? ==> r.value.f == AsNumber(v))
    ensures k == IntKind ==> (r.Some? <==> v.VInt?) && (r.Some? ==> r.value.i == v.i)
    ensures k == BoolKind ==> (r.Some? <==> v.VBool?) && (r.Some? ==> r.value.b == v.b)
    ensures k == StrKind ==> (r.Some? <==> v.VStr?) && (r.Some? ==> r.value.s == v.s)
  {
    match (k, v)
    case (FloatKind, VFloat(f)) => Some(SFloat(f))
    case (FloatKind, VInt(i)) => Some(SFloat(i as real))
    case (IntKind, VInt(i)) => Some(SInt(i))
    case (BoolKind, VBool(b)) => Some(SBool(b))
    case (StrKind, VStr(s)) => Some(SStr(s))
    case _ => None
  }

  function DefaultOf(p: Presence): Option<Scalar>
    requires !p.Required?
  {
    match p
    case Defaulted(d) => Some(d)
    case Nullable(d) => d
  }

  /** The field's default, if it has one, has the field's kind. */
  predicate DefaultFits(f: FieldSpec)
  {
    f.presence.Required? || DefaultOf(f.presence).None? || HasKind(DefaultOf(f.presence).value, f.kind)
  }

  /** Validates one field of the dictionary `m`. Success carries the field's
      value, None standing for Python's None. */
  function ValidateField(m: map<string, Value>, f: FieldSpec): (r: Result<Option<Scalar>, Problem>)
    ensures f.name !in m ==> (r.Success? <==> !f.presence.Required?)
    ensures f.name !in m && r.Success? ==> r.value == DefaultOf(f.presence)
    ensures f.name in m && m[f.name] == VNull ==> r == (if f.presence.Nullable? then Success(None) else Failure(NoneNotAllowed))
    ensures f.name in m && m[f.name] != VNull ==>
              (r.Success? <==> Coerce(m[f.name], f.kind).Some? && Satisfies(f.constraint, Coerce(m[f.name], f.kind).value))
    ensures f.name in m && m[f.name] != VNull && r.Success? ==>
              r.value.Some? && HasKind(r.value.value, f.kind) && Satisfies(f.constraint, r.value.value)
    ensures r.Success? && !f.presence.Nullable? ==> r.value.Some?
    ensures r.Success? && r.value.Some? && DefaultFits(f) ==> HasKind(r.value.value, f.kind)
  {
    if f.name !in m then
      if f.presence.Required? then Failure(FieldRequired) else Success(DefaultOf(f.presence))
    else if m[f.name] == VNull then
      if f.presence.Nullable? then Success(None) else Failure(NoneNotAllowed)
    else
      match Coerce(m[f.name], f.kind)
      case None => Failure(WrongType(f.kind))
      case Some(s) => if Satisfies(f.constraint, s) then Success(Some(s)) else Failure(OutOfRange(f.constraint))
  }

  /** A required float field is accepted exactly when it is present, a
      number, and within its range; its value is then that number. */
  lemma RequiredFloat(m: map<string, Value>, f: FieldSpec)
    requires f.kind == FloatKind && f.presence.Required?
    ensures ValidateField(m, f).Success? <==>
              f.name in m && IsNumber(m[f.name]) && Satisfies(f.constraint, SFloat(AsNumber(m[f.name])))
    ensures ValidateField(m, f).Success? ==> ValidateField(m, f).value == Some(SFloat(AsNumber(m[f.name])))
  {
  }

  /** An optional field without a range is accepted exactly when it is
      absent, null, or of its kind. */
  lemma OptionalField(m: map<string, Value>, f: FieldSpec)
    requires f.presence.Nullable? && f.constraint == Unconstrained
    ensures ValidateField(m, f).Success? <==> f.name !in m || m[f.name] == VNull || Fits(m[f.name], f.kind)
    ensures f.name in m && m[f.name] != VNull && Fits(m[f.name], f.kind) ==>
              ValidateField(m, f).value == Coerce(m[f.name], f.kind)
  {
  }

  /** Validates every field of `schema` in order. The dictionary is accepted
      exactly when every field is; then the result holds each field's value
      at its position. Otherwise it lists one violation per failing field,
      and nothing else. Keys that the schema does not name are ignored. */
  function ValidateFields(m: map<string, Value>, schema: seq<FieldSpec>): (r: Result<seq<Option<Scalar>>, seq<Violation>>)
    ensures r.Success? <==> forall i :: 0 <= i < |schema| ==> ValidateField(m, schema[i]).Success?
    ensures r.Success? ==> |r.value| == |schema|
    ensures r.Success? ==> forall i :: 0 <= i < |schema| ==> r.value[i] == ValidateField(m, schema[i]).value
    ensures r.Failure? ==> |r.error| > 0
    ensures r.Failure? ==> forall i :: 0 <= i < |schema| && ValidateField(m, schema[i]).Failure? ==>
              Violation([schema[i].name], ValidateField(m, schema[i]).error) in r.error
    ensures r.Failure? ==> forall e :: e in r.error ==>
              exists i :: 0 <= i < |schema| && ValidateField(m, schema[i]).Failure? &&
                          e == Violation([schema[i].name], ValidateField(m, schema[i]).error)
  {
    if schema == [] then Success([])
    else
      var head := ValidateField(m, schema[0]);
      var rest := ValidateFields(m, schema[1..]);
      assert forall i :: 1 <= i < |schema| ==> schema[i] == schema[1..][i - 1];
      match (head, rest)
      case (Success(v), Success(vs)) => Success([v] + vs)
      case (Success(_), Failure(es)) => Failure(es)
      case (Failure(p), Success(_)) => Failure([Violation([schema[0].name], p)])
      case (Failure(p), Failure(es)) => Failure([Violation([schema[0].name], p)] + es)
  }

  /** Keys that no field of the schema names do not affect validation:
      unknown keys are ignored. */
  lemma {:induction false} ValidateFieldsIgnoresOthers(m: map<string, Value>, k: string, x: Value, schema: seq<FieldSpec>)
    requires forall i :: 0 <= i < |schema| ==> schema[i].name != k
    ensures ValidateFields(m[k := x], schema) == ValidateFields(m, schema)
  {
    if schema != [] {
      assert forall i :: 1 <= i < |schema| ==> schema[1..][i - 1] == schema[i];
      ValidateFieldsIgnoresOthers(m, k, x, schema[1..]);
      assert ValidateField(m[k := x], schema[0]) == ValidateField(m, schema[0]);
    }
  }

  /** Puts the name of the enclosing field in front of each nested error's
      location, as errors of a nested model are reported. */
  function Nest(name: string, es: seq<Violation>): (r: seq<Violation>)
    ensures |r| == |es|
    ensures forall i :: 0 <= i < |es| ==> r[i] == Violation([name] + es[i].loc, es[i].problem)
  {
    seq(|es|, i requires 0 <= i < |es| => Violation([name] + es[i].loc, es[i].problem))
  }

  /** The violations of a result, none when it succeeded. */
  function ErrorsOf<T>(r: Result<T, seq<Violation>>): seq<Violation>
  {
    if r.Success? then [] else r.error
  }
}
