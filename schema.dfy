/** Pydantic-style validation of one model field at a time: the field dictionary a model is built
    from, the errors a field can raise, and one decoder per kind of field declaration used by the
    Patient and Report schemas. Values arrive already typed; pydantic's lax coercions (a string
    parsed as a date, a number written as a string) are not part of this model. */
module Schema {
  import opened Wrappers
  import opened Calendar

  /** A value of a model's field dictionary: the keyword arguments a model is built from, or what
      its `.dict()` returns. */
  datatype Value = Str(s: string) | Num(x: real) | DateVal(d: Date) | DateTimeVal(t: DateTime) | Null

  /** Pydantic's error types for the constraints these schemas use. */
  datatype ErrorKind =
    | Missing
    | StringType
    | FloatType
    | DateType
    | DatetimeType
    | StringTooShort(minLength: nat)
    | PatternMismatch
    | GreaterThanEqual(ge: real)
    | LessThanEqual(le: real)

  /** An error and the field it is reported under (its `loc`). */
  datatype FieldError = FieldError(field: string, kind: ErrorKind)

  /** One field's outcome. */
  datatype Field<+T> = Accepted(value: T) | Rejected(error: FieldError)

  /** A whole model's outcome: the model, or every field's error in declaration order. */
  datatype Validated<+T> = Valid(value: T) | Invalid(errors: seq<FieldError>)

  function Errors<T>(f: Field<T>): (es: seq<FieldError>)
    ensures es == [] <==> f.Accepted?
    ensures f.Rejected? ==> es == [f.error]
  {
    if f.Accepted? then [] else [f.error]
  }

  /** `name: str = Field(..., min_length=n)` (a plain `name: str` is n = 0). */
  function RequiredString(m: map<string, Value>, key: string, minLength: nat): (r: Field<string>)
    ensures r.Accepted? <==> key in m && m[key].Str? && |m[key].s| >= minLength
    ensures r.Accepted? ==> r.value == m[key].s
    ensures r.Rejected? ==> r.error.field == key
    ensures key !in m ==> r == Rejected(FieldError(key, Missing))
    ensures key in m && !m[key].Str? ==> r == Rejected(FieldError(key, StringType))
    ensures key in m && m[key].Str? && |m[key].s| < minLength ==> r.error.kind == StringTooShort(minLength)
  {
    if key !in m then Rejected(FieldError(key, Missing))
    else
      match m[key]
      case Str(s) => if |s| >= minLength then Accepted(s) else Rejected(FieldError(key, StringTooShort(minLength)))
      case _ => Rejected(FieldError(key, StringType))
  }

  /** `name: str = Field(..., pattern="^(a|b|c)$")`: the whole string is one of the alternatives. */
  function RequiredChoice(m: map<string, Value>, key: string, choices: seq<string>): (r: Field<string>)
    ensures r.Accepted? <==> key in m && m[key].Str? && m[key].s in choices
    ensures r.Accepted? ==> r.value == m[key].s
    ensures r.Rejected? ==> r.error.field == key
    ensures key !in m ==> r == Rejected(FieldError(key, Missing))
    ensures key in m && !m[key].Str? ==> r == Rejected(FieldError(key, StringType))
    ensures key in m && m[key].Str? && m[key].s !in choices ==> r.error.kind == PatternMismatch
  {
    if key !in m then Rejected(FieldError(key, Missing))
    else
      match m[key]
      case Str(s) => if s in choices then Accepted(s) else Rejected(FieldError(key, PatternMismatch))
      case _ => Rejected(FieldError(key, StringType))
  }

  predicate InBounds(x: real, ge: Option<real>, le: Option<real>)
  {
    (ge.Some? ==> x >= ge.value) && (le.Some? ==> x <= le.value)
  }

  function BoundsError(key: string, x: real, ge: Option<real>, le: Option<real>): FieldError
    requires !InBounds(x, ge, le)
  {
    if ge.Some? && x < ge.value then FieldError(key, GreaterThanEqual(ge.value))
    else FieldError(key, LessThanEqual(le.value))
  }

  /** `name: float = Field(..., ge=lo, le=hi)`, either bound optional. */
  function RequiredFloat(m: map<string, Value>, key: string, ge: Option<real>, le: Option<real>): (r: Field<real>)
    ensures r.Accepted? <==> key in m && m[key].Num? && InBounds(m[key].x, ge, le)
    ensures r.Accepted? ==> r.value == m[key].x
    ensures r.Rejected? ==> r.error.field == key
    ensures key !in m ==> r == Rejected(FieldError(key, Missing))
    ensures key in m && !m[key].Num? ==> r == Rejected(FieldError(key, FloatType))
    ensures key in m && m[key].Num? && ge.Some? && m[key].x < ge.value ==> r.error.kind == GreaterThanEqual(ge.value)
    ensures key in m && m[key].Num? && (ge.None? || m[key].x >= ge.value) && le.Some? && m[key].x > le.value ==>
              r.error.kind == LessThanEqual(le.value)
  {
    if key !in m then Rejected(FieldError(key, Missing))
    else
      match m[key]
      case Num(x) => if InBounds(x, ge, le) then Accepted(x) else Rejected(BoundsError(key, x, ge, le))
      case _ => Rejected(FieldError(key, FloatType))
  }

  /** `name: date`. */
  function RequiredDate(m: map<string, Value>, key: string): (r: Field<Date>)
    ensures r.Accepted? <==> key in m && m[key].DateVal?
    ensures r.Accepted? ==> r.value == m[key].d
    ensures r.Rejected? ==> r.error.field == key
    ensures key !in m ==> r == Rejected(FieldError(key, Missing))
    ensures key in m && !m[key].DateVal? ==> r == Rejected(FieldError(key, DateType))
  {
    if key !in m then Rejected(FieldError(key, Missing))
    else if m[key].DateVal? then Accepted(m[key].d)
    else Rejected(FieldError(key, DateType))
  }

  /** `name: Optional[str] = None`: absent or None gives None. */
  function OptionalString(m: map<string, Value>, key: string): (r: Field<Option<string>>)
    ensures r.Accepted? <==> key !in m || m[key].Null? || m[key].Str?
    ensures r.Accepted? ==> r.value == (if key in m && m[key].Str? then Some(m[key].s) else None)
    ensures r.Rejected? ==> r.error == FieldError(key, StringType)
  {
    if key !in m || m[key].Null? then Accepted(None)
    else if m[key].Str? then Accepted(Some(m[key].s))
    else Rejected(FieldError(key, StringType))
  }

  /** `name: Optional[float] = Field(None, ge=lo)`: the bound applies only to a number. */
  function OptionalFloat(m: map<string, Value>, key: string, ge: Option<real>): (r: Field<Option<real>>)
    ensures r.Accepted? <==> key !in m || m[key].Null? || (m[key].Num? && InBounds(m[key].x, ge, None))
    ensures r.Accepted? ==> r.value == (if key in m && m[key].Num? then Some(m[key].x) else None)
    ensures r.Rejected? ==> r.error.field == key
    ensures key in m && !m[key].Null? && !m[key].Num? ==> r == Rejected(FieldError(key, FloatType))
    ensures key in m && m[key].Num? && ge.Some? && m[key].x < ge.value ==> r.error.kind == GreaterThanEqual(ge.value)
  {
    if key !in m || m[key].Null? then Accepted(None)
    else
      match m[key]
      case Num(x) => if InBounds(x, ge, None) then Accepted(Some(x)) else Rejected(BoundsError(key, x, ge, None))
      case _ => Rejected(FieldError(key, FloatType))
  }

  /** `name: Optional[datetime] = None`. */
  function OptionalDateTime(m: map<string, Value>, key: string): (r: Field<Option<DateTime>>)
    ensures r.Accepted? <==> key !in m || m[key].Null? || m[key].DateTimeVal?
    ensures r.Accepted? ==> r.value == (if key in m && m[key].DateTimeVal? then Some(m[key].t) else None)
    ensures r.Rejected? ==> r.error == FieldError(key, DatetimeType)
  {
    if key !in m || m[key].Null? then Accepted(None)
    else if m[key].DateTimeVal? then Accepted(Some(m[key].t))
    else Rejected(FieldError(key, DatetimeType))
  }

  /** `name: datetime = Field(default_factory=...)`: the factory's reading `now` is used only when
      the field is absent; an explicit None is an error. */
  function DateTimeWithDefault(m: map<string, Value>, key: string, now: DateTime): (r: Field<DateTime>)
    ensures r.Accepted? <==> key !in m || m[key].DateTimeVal?
    ensures r.Accepted? ==> r.value == (if key in m then m[key].t else now)
    ensures r.Rejected? ==> r.error == FieldError(key, DatetimeType)
  {
    if key !in m then Accepted(now)
    else if m[key].DateTimeVal? then Accepted(m[key].t)
    else Rejected(FieldError(key, DatetimeType))
  }

  function OptionalStringValue(o: Option<string>): Value
  {
    if o.Some? then Str(o.value) else Null
  }

  function OptionalNumValue(o: Option<real>): Value
  {
    if o.Some? then Num(o.value) else Null
  }

  function OptionalDateTimeValue(o: Option<DateTime>): Value
  {
    if o.Some? then DateTimeVal(o.value) else Null
  }

  /** Two field dictionaries that agree on one key: both lack it, or both hold the same value. */
  predicate AgreeAt(m1: map<string, Value>, m2: map<string, Value>, key: string)
  {
    (key in m1 <==> key in m2) && (key in m1 ==> m1[key] == m2[key])
  }

  /** Two field dictionaries that agree on every key of a schema. */
  predicate AgreeOn(m1: map<string, Value>, m2: map<string, Value>, keys: seq<string>)
  {
    forall i :: 0 <= i < |keys| ==> AgreeAt(m1, m2, keys[i])
  }

  /** Every decoder of a required field reads only its own key. */
  lemma RequiredDecodersReadOnlyTheirKey(m1: map<string, Value>, m2: map<string, Value>, key: string)
    requires AgreeAt(m1, m2, key)
    ensures forall n :: RequiredString(m1, key, n) == RequiredString(m2, key, n)
    ensures forall cs :: RequiredChoice(m1, key, cs) == RequiredChoice(m2, key, cs)
    ensures forall ge, le :: RequiredFloat(m1, key, ge, le) == RequiredFloat(m2, key, ge, le)
    ensures RequiredDate(m1, key) == RequiredDate(m2, key)
  {
  }

  /** Every decoder of an optional or defaulted field reads only its own key. */
  lemma OptionalDecodersReadOnlyTheirKey(m1: map<string, Value>, m2: map<string, Value>, key: string)
    requires AgreeAt(m1, m2, key)
    ensures OptionalString(m1, key) == OptionalString(m2, key)
    ensures forall ge :: OptionalFloat(m1, key, ge) == OptionalFloat(m2, key, ge)
    ensures OptionalDateTime(m1, key) == OptionalDateTime(m2, key)
    ensures forall now :: DateTimeWithDefault(m1, key, now) == DateTimeWithDefault(m2, key, now)
  {
  }
}
