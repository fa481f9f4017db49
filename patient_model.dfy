/** models/patient_model.py: the `Patient` schema's field constraints, its `.dict()`, and the
    document `PatientModel.create` builds from it before the insert. */
module PatientModel {
  import opened Wrappers
  import opened Calendar
  import opened Schema

  const Genders: seq<string> := ["male", "female", "other"]

  /** The fields of `Patient`, in declaration order (the order of its dictionary). */
  const PatientFields: seq<string> := ["patient_name", "patient_id", "date_of_birth", "gender",
    "vision_problems", "visual_acuity_right", "visual_acuity_left", "dr_detection_result",
    "blood_sugar_fasting", "blood_pressure", "created_at", "updated_at", "image_url"]

  const PatientNameKey := PatientFields[0]
  const PatientIdKey := PatientFields[1]
  const DateOfBirthKey := PatientFields[2]
  const GenderKey := PatientFields[3]
  const VisionProblemsKey := PatientFields[4]
  const VisualAcuityRightKey := PatientFields[5]
  const VisualAcuityLeftKey := PatientFields[6]
  const DrDetectionResultKey := PatientFields[7]
  const BloodSugarFastingKey := PatientFields[8]
  const BloodPressureKey := PatientFields[9]
  const CreatedAtKey := PatientFields[10]
  const UpdatedAtKey := PatientFields[11]
  const ImageUrlKey := PatientFields[12]

  datatype Patient = Patient(
    patientName: string,
    patientId: string,
    dateOfBirth: Date,
    gender: string,
    visionProblems: Option<string>,
    visualAcuityRight: real,
    visualAcuityLeft: real,
    drDetectionResult: Option<string>,
    bloodSugarFasting: Option<real>,
    bloodPressure: Option<string>,
    createdAt: Option<DateTime>,
    updatedAt: Option<DateTime>,
    imageUrl: Option<string>)

  /** The declared constraints: a name of at least two characters, a non-empty id, a gender that is
      exactly one of the three words, both visual acuities in [0, 1], and a fasting blood sugar that
      is absent or not negative. The other fields are unconstrained. */
  predicate SatisfiesConstraints(p: Patient)
  {
    && |p.patientName| >= 2
    && |p.patientId| >= 1
    && p.gender in Genders
    && 0.0 <= p.visualAcuityRight <= 1.0
    && 0.0 <= p.visualAcuityLeft <= 1.0
    && (p.bloodSugarFasting.Some? ==> p.bloodSugarFasting.value >= 0.0)
  }

  /** The model pydantic builds from the thirteen field outcomes: the patient when every field was
      accepted, otherwise every field's error in declaration order. */
  function AssemblePatient(name: Field<string>, id: Field<string>, born: Field<Date>, gender: Field<string>,
                           vision: Field<Option<string>>, right: Field<real>, left: Field<real>,
                           dr: Field<Option<string>>, sugar: Field<Option<real>>, pressure: Field<Option<string>>,
                           created: Field<Option<DateTime>>, updated: Field<Option<DateTime>>,
                           image: Field<Option<string>>): Validated<Patient>
  {
    if && name.Accepted? && id.Accepted? && born.Accepted? && gender.Accepted? && vision.Accepted?
       && right.Accepted? && left.Accepted? && dr.Accepted? && sugar.Accepted? && pressure.Accepted?
       && created.Accepted? && updated.Accepted? && image.Accepted?
    then
      Valid(Patient(name.value, id.value, born.value, gender.value, vision.value, right.value, left.value,
        dr.value, sugar.value, pressure.value, created.value, updated.value, image.value))
    else
      Invalid(Errors(name) + Errors(id) + Errors(born) + Errors(gender) + Errors(vision)
        + Errors(right) + Errors(left) + Errors(dr) + Errors(sugar) + Errors(pressure)
        + Errors(created) + Errors(updated) + Errors(image))
  }

  /** `Patient(**m)`: every field decoded on its own, keys outside the schema ignored. */
  function ValidatePatient(m: map<string, Value>): (r: Validated<Patient>)
    ensures r.Valid? ==> SatisfiesConstraints(r.value)
  {
    AssemblePatient(
      RequiredString(m, PatientNameKey, 2),
      RequiredString(m, PatientIdKey, 1),
      RequiredDate(m, DateOfBirthKey),
      RequiredChoice(m, GenderKey, Genders),
      OptionalString(m, VisionProblemsKey),
      RequiredFloat(m, VisualAcuityRightKey, Some(0.0), Some(1.0)),
      RequiredFloat(m, VisualAcuityLeftKey, Some(0.0), Some(1.0)),
      OptionalString(m, DrDetectionResultKey),
      OptionalFloat(m, BloodSugarFastingKey, Some(0.0)),
      OptionalString(m, BloodPressureKey),
      OptionalDateTime(m, CreatedAtKey),
      OptionalDateTime(m, UpdatedAtKey),
      OptionalString(m, ImageUrlKey))
  }

  lemma PatientFieldsDistinct()
    ensures forall i, j :: 0 <= i < j < |PatientFields| ==> PatientFields[i] != PatientFields[j]
  {
  }

  /** The values `.dict()` stores under the fields, in field order; None becomes Null. */
  function FieldValues(p: Patient): (vs: seq<Value>)
    ensures |vs| == |PatientFields|
  {
    [Str(p.patientName), Str(p.patientId), DateVal(p.dateOfBirth), Str(p.gender),
     OptionalStringValue(p.visionProblems), Num(p.visualAcuityRight), Num(p.visualAcuityLeft),
     OptionalStringValue(p.drDetectionResult), OptionalNumValue(p.bloodSugarFasting),
     OptionalStringValue(p.bloodPressure), OptionalDateTimeValue(p.createdAt),
     OptionalDateTimeValue(p.updatedAt), OptionalStringValue(p.imageUrl)]
  }

  /** `Patient.dict()`: every field under its name, None as Null, and no other key. */
  function PatientDict(p: Patient): (d: map<string, Value>)
    ensures forall i :: 0 <= i < |PatientFields| ==> PatientFields[i] in d && d[PatientFields[i]] == FieldValues(p)[i]
  {
    PatientFieldsDistinct();
    map i | 0 <= i < |PatientFields| :: PatientFields[i] := FieldValues(p)[i]
  }

  lemma DictRequiredFields(p: Patient)
    requires SatisfiesConstraints(p)
    ensures RequiredString(PatientDict(p), PatientNameKey, 2) == Accepted(p.patientName)
    ensures RequiredString(PatientDict(p), PatientIdKey, 1) == Accepted(p.patientId)
    ensures RequiredDate(PatientDict(p), DateOfBirthKey) == Accepted(p.dateOfBirth)
    ensures RequiredChoice(PatientDict(p), GenderKey, Genders) == Accepted(p.gender)
  {
  }

  lemma DictNumberFields(p: Patient)
    requires SatisfiesConstraints(p)
    ensures RequiredFloat(PatientDict(p), VisualAcuityRightKey, Some(0.0), Some(1.0)) == Accepted(p.visualAcuityRight)
    ensures RequiredFloat(PatientDict(p), VisualAcuityLeftKey, Some(0.0), Some(1.0)) == Accepted(p.visualAcuityLeft)
    ensures OptionalFloat(PatientDict(p), BloodSugarFastingKey, Some(0.0)) == Accepted(p.bloodSugarFasting)
  {
  }

  lemma DictFindings(p: Patient)
    ensures OptionalString(PatientDict(p), VisionProblemsKey) == Accepted(p.visionProblems)
    ensures OptionalString(PatientDict(p), DrDetectionResultKey) == Accepted(p.drDetectionResult)
  {
  }

  lemma DictExtras(p: Patient)
    ensures OptionalString(PatientDict(p), BloodPressureKey) == Accepted(p.bloodPressure)
    ensures OptionalString(PatientDict(p), ImageUrlKey) == Accepted(p.imageUrl)
  {
  }

  lemma DictTimestamps(p: Patient)
    ensures OptionalDateTime(PatientDict(p), CreatedAtKey) == Accepted(p.createdAt)
    ensures OptionalDateTime(PatientDict(p), UpdatedAtKey) == Accepted(p.updatedAt)
  {
  }

  /** Validation and `.dict()` are inverse: a patient that meets the constraints is rebuilt exactly
      from its own dictionary. */
  lemma ValidatePatientDict(p: Patient)
    requires SatisfiesConstraints(p)
    ensures ValidatePatient(PatientDict(p)) == Valid(p)
  {
    DictRequiredFields(p);
    DictNumberFields(p);
    DictFindings(p);
    DictExtras(p);
    DictTimestamps(p);
  }

  /** What a dictionary holds under a key, with an absent key read as None. */
  function Lookup(m: map<string, Value>, key: string): Value
  {
    if key in m then m[key] else Null
  }

  /** The required fields of a validated patient are the input's values. */
  lemma ValidatedRequiredFields(m: map<string, Value>)
    requires ValidatePatient(m).Valid?
    ensures FieldValues(ValidatePatient(m).value)[0] == Lookup(m, PatientFields[0])
    ensures FieldValues(ValidatePatient(m).value)[1] == Lookup(m, PatientFields[1])
    ensures FieldValues(ValidatePatient(m).value)[2] == Lookup(m, PatientFields[2])
    ensures FieldValues(ValidatePatient(m).value)[3] == Lookup(m, PatientFields[3])
  {
  }

  /** So are the vision fields and the screening result. */
  lemma ValidatedFindings(m: map<string, Value>)
    requires ValidatePatient(m).Valid?
    ensures FieldValues(ValidatePatient(m).value)[4] == Lookup(m, PatientFields[4])
    ensures FieldValues(ValidatePatient(m).value)[5] == Lookup(m, PatientFields[5])
    ensures FieldValues(ValidatePatient(m).value)[6] == Lookup(m, PatientFields[6])
    ensures FieldValues(ValidatePatient(m).value)[7] == Lookup(m, PatientFields[7])
  {
  }

  /** So are the health fields, the timestamps and the image path; absent ones are None. */
  lemma ValidatedHealthFields(m: map<string, Value>)
    requires ValidatePatient(m).Valid?
    ensures FieldValues(ValidatePatient(m).value)[8] == Lookup(m, PatientFields[8])
    ensures FieldValues(ValidatePatient(m).value)[9] == Lookup(m, PatientFields[9])
    ensures FieldValues(ValidatePatient(m).value)[10] == Lookup(m, PatientFields[10])
    ensures FieldValues(ValidatePatient(m).value)[11] == Lookup(m, PatientFields[11])
    ensures FieldValues(ValidatePatient(m).value)[12] == Lookup(m, PatientFields[12])
  {
  }

  /** A validated patient is the input read back: its dictionary holds, under every field, what the
      input held there, and None where the input had nothing. */
  lemma ValidatedPatientIsInput(m: map<string, Value>)
    requires ValidatePatient(m).Valid?
    ensures forall i :: 0 <= i < |PatientFields| ==>
              FieldValues(ValidatePatient(m).value)[i] == Lookup(m, PatientFields[i])
  {
    ValidatedRequiredFields(m);
    ValidatedFindings(m);
    ValidatedHealthFields(m);
    forall i | 0 <= i < |PatientFields|
      ensures FieldValues(ValidatePatient(m).value)[i] == Lookup(m, PatientFields[i])
    {
      if i < 4 {
      } else if i < 8 {
      } else {
      }
    }
  }

  /** Keys outside the schema have no effect. */
  lemma ExtraKeysIgnored(m1: map<string, Value>, m2: map<string, Value>)
    requires AgreeOn(m1, m2, PatientFields)
    ensures ValidatePatient(m1) == ValidatePatient(m2)
  {
    assert RequiredString(m1, PatientNameKey, 2) == RequiredString(m2, PatientNameKey, 2) by {
      RequiredDecodersReadOnlyTheirKey(m1, m2, PatientNameKey);
    }
    assert RequiredString(m1, PatientIdKey, 1) == RequiredString(m2, PatientIdKey, 1) by {
      RequiredDecodersReadOnlyTheirKey(m1, m2, PatientIdKey);
    }
    assert RequiredDate(m1, DateOfBirthKey) == RequiredDate(m2, DateOfBirthKey) by {
      RequiredDecodersReadOnlyTheirKey(m1, m2, DateOfBirthKey);
    }
    assert RequiredChoice(m1, GenderKey, Genders) == RequiredChoice(m2, GenderKey, Genders) by {
      RequiredDecodersReadOnlyTheirKey(m1, m2, GenderKey);
    }
    assert OptionalString(m1, VisionProblemsKey) == OptionalString(m2, VisionProblemsKey) by {
      OptionalDecodersReadOnlyTheirKey(m1, m2, VisionProblemsKey);
    }
    assert RequiredFloat(m1, VisualAcuityRightKey, Some(0.0), Some(1.0)) == RequiredFloat(m2, VisualAcuityRightKey, Some(0.0), Some(1.0)) by {
      RequiredDecodersReadOnlyTheirKey(m1, m2, VisualAcuityRightKey);
    }
    assert RequiredFloat(m1, VisualAcuityLeftKey, Some(0.0), Some(1.0)) == RequiredFloat(m2, VisualAcuityLeftKey, Some(0.0), Some(1.0)) by {
      RequiredDecodersReadOnlyTheirKey(m1, m2, VisualAcuityLeftKey);
    }
    assert OptionalString(m1, DrDetectionResultKey) == OptionalString(m2, DrDetectionResultKey) by {
      OptionalDecodersReadOnlyTheirKey(m1, m2, DrDetectionResultKey);
    }
    assert OptionalFloat(m1, BloodSugarFastingKey, Some(0.0)) == OptionalFloat(m2, BloodSugarFastingKey, Some(0.0)) by {
      OptionalDecodersReadOnlyTheirKey(m1, m2, BloodSugarFastingKey);
    }
    assert OptionalString(m1, BloodPressureKey) == OptionalString(m2, BloodPressureKey) by {
      OptionalDecodersReadOnlyTheirKey(m1, m2, BloodPressureKey);
    }
    assert OptionalDateTime(m1, CreatedAtKey) == OptionalDateTime(m2, CreatedAtKey) by {
      OptionalDecodersReadOnlyTheirKey(m1, m2, CreatedAtKey);
    }
    assert OptionalDateTime(m1, UpdatedAtKey) == OptionalDateTime(m2, UpdatedAtKey) by {
      OptionalDecodersReadOnlyTheirKey(m1, m2, UpdatedAtKey);
    }
    assert OptionalString(m1, ImageUrlKey) == OptionalString(m2, ImageUrlKey) by {
      OptionalDecodersReadOnlyTheirKey(m1, m2, ImageUrlKey);
    }
  }

  /** The name and id constraints are enforced: a dictionary that breaks one of them is refused,
      with the error pydantic reports under that field. */
  lemma ConstraintsEnforced(m: map<string, Value>)
    ensures PatientNameKey in m && m[PatientNameKey].Str? && |m[PatientNameKey].s| < 2 ==>
              ValidatePatient(m).Invalid? && FieldError(PatientNameKey, StringTooShort(2)) in ValidatePatient(m).errors
    ensures PatientIdKey !in m ==>
              ValidatePatient(m).Invalid? && FieldError(PatientIdKey, Missing) in ValidatePatient(m).errors
    ensures PatientIdKey in m && m[PatientIdKey] == Str("") ==>
              ValidatePatient(m).Invalid? && FieldError(PatientIdKey, StringTooShort(1)) in ValidatePatient(m).errors
  {
    assert RequiredString(m, PatientNameKey, 2).Rejected? ==> RequiredString(m, PatientNameKey, 2).error in ValidatePatient(m).errors;
    assert RequiredString(m, PatientIdKey, 1).Rejected? ==> RequiredString(m, PatientIdKey, 1).error in ValidatePatient(m).errors;
  }

  /** The gender must be one of the three words in full, and a fasting blood sugar must not be
      negative; each breach is refused with its error under the field. */
  lemma GenderAndBloodSugarEnforced(m: map<string, Value>)
    ensures GenderKey in m && m[GenderKey].Str? && m[GenderKey].s !in Genders ==>
              ValidatePatient(m).Invalid? && FieldError(GenderKey, PatternMismatch) in ValidatePatient(m).errors
    ensures BloodSugarFastingKey in m && m[BloodSugarFastingKey].Num? && m[BloodSugarFastingKey].x < 0.0 ==>
              ValidatePatient(m).Invalid? && FieldError(BloodSugarFastingKey, GreaterThanEqual(0.0)) in ValidatePatient(m).errors
  {
    assert RequiredChoice(m, GenderKey, Genders).Rejected? ==> RequiredChoice(m, GenderKey, Genders).error in ValidatePatient(m).errors;
    assert OptionalFloat(m, BloodSugarFastingKey, Some(0.0)).Rejected? ==>
      OptionalFloat(m, BloodSugarFastingKey, Some(0.0)).error in ValidatePatient(m).errors;
  }

  /** Both visual acuities are bounded on both sides: a value below 0 or above 1 is refused with the
      bound it breaks. */
  lemma AcuityBoundsEnforced(m: map<string, Value>)
    ensures VisualAcuityRightKey in m && m[VisualAcuityRightKey].Num? && m[VisualAcuityRightKey].x < 0.0 ==>
              ValidatePatient(m).Invalid? && FieldError(VisualAcuityRightKey, GreaterThanEqual(0.0)) in ValidatePatient(m).errors
    ensures VisualAcuityRightKey in m && m[VisualAcuityRightKey].Num? && m[VisualAcuityRightKey].x > 1.0 ==>
              ValidatePatient(m).Invalid? && FieldError(VisualAcuityRightKey, LessThanEqual(1.0)) in ValidatePatient(m).errors
    ensures VisualAcuityLeftKey in m && m[VisualAcuityLeftKey].Num? && m[VisualAcuityLeftKey].x < 0.0 ==>
              ValidatePatient(m).Invalid? && FieldError(VisualAcuityLeftKey, GreaterThanEqual(0.0)) in ValidatePatient(m).errors
    ensures VisualAcuityLeftKey in m && m[VisualAcuityLeftKey].Num? && m[VisualAcuityLeftKey].x > 1.0 ==>
              ValidatePatient(m).Invalid? && FieldError(VisualAcuityLeftKey, LessThanEqual(1.0)) in ValidatePatient(m).errors
  {
    var right := RequiredFloat(m, VisualAcuityRightKey, Some(0.0), Some(1.0));
    var left := RequiredFloat(m, VisualAcuityLeftKey, Some(0.0), Some(1.0));
    assert right.Rejected? ==> right.error in ValidatePatient(m).errors;
    assert left.Rejected? ==> left.error in ValidatePatient(m).errors;
  }

  /** Which dictionaries make a patient, stated key by key: the six required fields present with the
      right type and within their bounds, and each optional field absent, None, or of its type (a
      fasting blood sugar also not negative). */
  lemma PatientValidIff(m: map<string, Value>)
    ensures ValidatePatient(m).Valid? <==>
              && PatientNameKey in m && m[PatientNameKey].Str? && |m[PatientNameKey].s| >= 2
              && PatientIdKey in m && m[PatientIdKey].Str? && |m[PatientIdKey].s| >= 1
              && DateOfBirthKey in m && m[DateOfBirthKey].DateVal?
              && GenderKey in m && m[GenderKey].Str? && m[GenderKey].s in Genders
              && (VisionProblemsKey !in m || m[VisionProblemsKey].Null? || m[VisionProblemsKey].Str?)
              && VisualAcuityRightKey in m && m[VisualAcuityRightKey].Num? && 0.0 <= m[VisualAcuityRightKey].x <= 1.0
              && VisualAcuityLeftKey in m && m[VisualAcuityLeftKey].Num? && 0.0 <= m[VisualAcuityLeftKey].x <= 1.0
              && (DrDetectionResultKey !in m || m[DrDetectionResultKey].Null? || m[DrDetectionResultKey].Str?)
              && (BloodSugarFastingKey !in m || m[BloodSugarFastingKey].Null?
                  || (m[BloodSugarFastingKey].Num? && m[BloodSugarFastingKey].x >= 0.0))
              && (BloodPressureKey !in m || m[BloodPressureKey].Null? || m[BloodPressureKey].Str?)
              && (CreatedAtKey !in m || m[CreatedAtKey].Null? || m[CreatedAtKey].DateTimeVal?)
              && (UpdatedAtKey !in m || m[UpdatedAtKey].Null? || m[UpdatedAtKey].DateTimeVal?)
              && (ImageUrlKey !in m || m[ImageUrlKey].Null? || m[ImageUrlKey].Str?)
  {
  }

  /** Only the six required fields need be given: with every optional key left out, the patient
      holds the given values and None everywhere else. */
  lemma RequiredFieldsSuffice(m: map<string, Value>, name: string, id: string, born: Date, gender: string,
                              right: real, left: real)
    requires |name| >= 2 && |id| >= 1 && gender in Genders && 0.0 <= right <= 1.0 && 0.0 <= left <= 1.0
    requires PatientNameKey in m && m[PatientNameKey] == Str(name) && PatientIdKey in m && m[PatientIdKey] == Str(id)
    requires DateOfBirthKey in m && m[DateOfBirthKey] == DateVal(born) && GenderKey in m && m[GenderKey] == Str(gender)
    requires VisualAcuityRightKey in m && m[VisualAcuityRightKey] == Num(right)
    requires VisualAcuityLeftKey in m && m[VisualAcuityLeftKey] == Num(left)
    requires VisionProblemsKey !in m && DrDetectionResultKey !in m && BloodSugarFastingKey !in m
    requires BloodPressureKey !in m && CreatedAtKey !in m && UpdatedAtKey !in m && ImageUrlKey !in m
    ensures ValidatePatient(m) == Valid(Patient(name, id, born, gender, None, right, left, None, None, None, None, None, None))
  {
  }

  /** Each of the seven optional fields defaults to None when absent. */
  lemma OptionalFieldsDefaultToNone(m: map<string, Value>)
    requires ValidatePatient(m).Valid?
    ensures VisionProblemsKey !in m ==> ValidatePatient(m).value.visionProblems == None
    ensures DrDetectionResultKey !in m ==> ValidatePatient(m).value.drDetectionResult == None
    ensures BloodPressureKey !in m ==> ValidatePatient(m).value.bloodPressure == None
    ensures ImageUrlKey !in m ==> ValidatePatient(m).value.imageUrl == None
    ensures BloodSugarFastingKey !in m ==> ValidatePatient(m).value.bloodSugarFasting == None
    ensures CreatedAtKey !in m ==> ValidatePatient(m).value.createdAt == None
    ensures UpdatedAtKey !in m ==> ValidatePatient(m).value.updatedAt == None
  {
  }

  /** Whether `isinstance(value, date)` holds; a Python `datetime` is a `date` too. */
  predicate IsDateLike(v: Value)
  {
    v.DateVal? || v.DateTimeVal?
  }

  /** The loop body of `create`: a date or datetime becomes its `isoformat()` string; any other
      value is kept. */
  function IsoRewrite(v: Value): (r: Value)
    ensures !IsDateLike(v) ==> r == v
    ensures IsDateLike(v) ==> r.Str?
  {
    match v
    case DateVal(d) => Str(IsoDate(d))
    case DateTimeVal(t) => Str(IsoDateTime(t))
    case _ => v
  }

  /** The rewritten text reads back as the same date; a datetime's text starts with its date's. */
  lemma IsoRewriteReadsBack(v: Value)
    ensures v.DateVal? ==> ParseFullDate(IsoRewrite(v).s) == Some(v.d)
    ensures v.DateTimeVal? ==> |IsoRewrite(v).s| >= 10 && IsoRewrite(v).s[..10] == IsoDate(v.t.date)
  {
    if v.DateVal? {
      ParseIsoDate(v.d);
    }
  }

  /** The dictionary after the rewrite loop of `create`: every entry passed through `IsoRewrite`. */
  function IsoDocument(p: Patient): (d: map<string, Value>)
    ensures forall i :: 0 <= i < |PatientFields| ==>
              PatientFields[i] in d && d[PatientFields[i]] == IsoRewrite(FieldValues(p)[i])
  {
    PatientFieldsDistinct();
    map i | 0 <= i < |PatientFields| :: PatientFields[i] := IsoRewrite(FieldValues(p)[i])
  }

  /** The document `create` inserts: the rewritten dictionary with both timestamps replaced by the
      two clock readings. */
  function CreatedDocument(p: Patient, firstReading: DateTime, secondReading: DateTime): map<string, Value>
  {
    IsoDocument(p)[CreatedAtKey := DateTimeVal(firstReading)][UpdatedAtKey := DateTimeVal(secondReading)]
  }

  /** The only date-valued entries of a patient's dictionary are the birth date and the two
      timestamps. */
  lemma DateEntries(p: Patient, i: nat)
    requires i < |PatientFields|
    ensures IsDateLike(FieldValues(p)[i]) ==> i == 2 || i == 10 || i == 11
  {
  }

  /** The inserted document has exactly the patient's fields. */
  lemma CreatedDocumentKeys(p: Patient, firstReading: DateTime, secondReading: DateTime)
    ensures forall k :: k in CreatedDocument(p, firstReading, secondReading) <==> k in PatientFields
  {
  }

  /** The birth date is stored as its ISO text, which reads back as the same date, and the two
      timestamps are the clock readings, in order. */
  lemma CreatedDocumentDates(p: Patient, firstReading: DateTime, secondReading: DateTime)
    ensures var doc := CreatedDocument(p, firstReading, secondReading);
            && DateOfBirthKey in doc
            && doc[DateOfBirthKey] == Str(IsoDate(p.dateOfBirth))
            && ParseFullDate(doc[DateOfBirthKey].s) == Some(p.dateOfBirth)
            && doc[CreatedAtKey] == DateTimeVal(firstReading)
            && doc[UpdatedAtKey] == DateTimeVal(secondReading)
  {
    IsoBirthDate(p);
    TimestampKeysApart();
    ParseIsoDate(p.dateOfBirth);
  }

  /** The rewritten dictionary holds the birth date as its ISO text. */
  lemma IsoBirthDate(p: Patient)
    ensures DateOfBirthKey in IsoDocument(p) && IsoDocument(p)[DateOfBirthKey] == Str(IsoDate(p.dateOfBirth))
  {
    assert FieldValues(p)[2] == DateVal(p.dateOfBirth);
  }

  /** The birth date and the two timestamps are three different keys. */
  lemma TimestampKeysApart()
    ensures DateOfBirthKey != CreatedAtKey && DateOfBirthKey != UpdatedAtKey && CreatedAtKey != UpdatedAtKey
  {
    PatientFieldsDistinct();
  }

  /** Every entry other than the timestamps is the patient's own passed through `IsoRewrite`; with
      `DateEntries`, only the birth date changes. */
  lemma CreatedDocumentEntries(p: Patient, firstReading: DateTime, secondReading: DateTime)
    ensures forall i :: 0 <= i < |PatientFields| && i != 10 && i != 11 ==>
              CreatedDocument(p, firstReading, secondReading)[PatientFields[i]] == IsoRewrite(PatientDict(p)[PatientFields[i]])
  {
    PatientFieldsDistinct();
  }

  /** A dictionary with the patient's keys holding the rewritten values is the rewritten document. */
  lemma IsIsoDocument(doc: map<string, Value>, p: Patient)
    requires doc.Keys == PatientDict(p).Keys
    requires forall j :: 0 <= j < |PatientFields| ==> doc[PatientFields[j]] == IsoRewrite(FieldValues(p)[j])
    ensures doc == IsoDocument(p)
  {
    var iso := IsoDocument(p);
    assert forall k :: k in doc <==> k in iso;
    forall k | k in doc
      ensures doc[k] == iso[k]
    {
      var j :| 0 <= j < |PatientFields| && PatientFields[j] == k;
    }
  }

  /** The state of the rewrite loop of `create` after `i` iterations: the first `i` entries are
      rewritten, the others are still the patient's own. */
  ghost predicate RewrittenUpTo(doc: map<string, Value>, p: Patient, i: nat)
  {
    && doc.Keys == PatientDict(p).Keys
    && forall j :: 0 <= j < |PatientFields| ==>
         doc[PatientFields[j]] == if j < i then IsoRewrite(FieldValues(p)[j]) else FieldValues(p)[j]
  }

  /** An iteration that meets a date rewrites entry `i` and touches no other. */
  lemma RewriteDateEntry(doc: map<string, Value>, p: Patient, i: nat)
    requires i < |PatientFields| && RewrittenUpTo(doc, p, i)
    requires PatientFields[i] in doc && IsDateLike(doc[PatientFields[i]])
    ensures RewrittenUpTo(doc[PatientFields[i] := IsoRewrite(doc[PatientFields[i]])], p, i + 1)
  {
    var key := PatientFields[i];
    var next := doc[key := IsoRewrite(doc[key])];
    assert next.Keys == doc.Keys;
    forall j | 0 <= j < |PatientFields| && j != i
      ensures next[PatientFields[j]] == doc[PatientFields[j]]
    {
      assert PatientFields[j] != key by {
        PatientFieldsDistinct();
      }
    }
  }

  /** An iteration that meets any other value leaves the dictionary as it is. */
  lemma KeepOtherEntry(doc: map<string, Value>, p: Patient, i: nat)
    requires i < |PatientFields| && RewrittenUpTo(doc, p, i)
    requires PatientFields[i] in doc && !IsDateLike(doc[PatientFields[i]])
    ensures RewrittenUpTo(doc, p, i + 1)
  {
    forall j | 0 <= j < |PatientFields|
      ensures doc[PatientFields[j]] == if j < i + 1 then IsoRewrite(FieldValues(p)[j]) else FieldValues(p)[j]
    {
      if j == i {
        assert IsoRewrite(FieldValues(p)[i]) == FieldValues(p)[i];
      }
    }
  }

  /** Every key of the loop's dictionary is one of the patient's fields. */
  lemma RewrittenHasField(doc: map<string, Value>, p: Patient, i: nat)
    requires i < |PatientFields| && RewrittenUpTo(doc, p, i)
    ensures PatientFields[i] in doc
  {
  }

  /** `PatientModel.create` up to the insert: rewrite every date-valued entry of `patient.dict()` in
      place, in field order, then stamp `created_at` and `updated_at` with two separate clock
      readings. */
  method Create(patient: Patient, firstReading: DateTime, secondReading: DateTime) returns (doc: map<string, Value>)
    ensures doc == CreatedDocument(patient, firstReading, secondReading)
  {
    doc := PatientDict(patient);
    var i := 0;
    while i < |PatientFields|
      invariant 0 <= i <= |PatientFields|
      invariant RewrittenUpTo(doc, patient, i)
    {
      RewrittenHasField(doc, patient, i);
      var key := PatientFields[i];
      var value := doc[key];
      if IsDateLike(value) {
        RewriteDateEntry(doc, patient, i);
        doc := doc[key := IsoRewrite(value)];
      } else {
        KeepOtherEntry(doc, patient, i);
      }
      i := i + 1;
    }
    IsIsoDocument(doc, patient);
    doc := doc[CreatedAtKey := DateTimeVal(firstReading)];
    doc := doc[UpdatedAtKey := DateTimeVal(secondReading)];
  }
}
