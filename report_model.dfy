/** models/report_model.py: the `Report` schema's field constraints and defaults, and its `.dict()`,
    which `ReportModel.create` inserts as it is. */
module ReportModel {
  import opened Wrappers
  import opened Calendar
  import opened Schema

  /** The fields of `Report`, in declaration order. */
  const ReportFields: seq<string> := ["report_id", "patient_id", "dr_status", "severity_level",
    "confidence", "patient_medical_assessment", "dr_status_analysis", "classification_details",
    "vulnerable_areas_analysis", "risk_assessment", "recommendations", "follow_up_plan", "image_url",
    "created_at"]

  const ReportIdKey := ReportFields[0]
  const PatientIdKey := ReportFields[1]
  const DrStatusKey := ReportFields[2]
  const SeverityLevelKey := ReportFields[3]
  const ConfidenceKey := ReportFields[4]
  const PatientMedicalAssessmentKey := ReportFields[5]
  const DrStatusAnalysisKey := ReportFields[6]
  const ClassificationDetailsKey := ReportFields[7]
  const VulnerableAreasAnalysisKey := ReportFields[8]
  const RiskAssessmentKey := ReportFields[9]
  const RecommendationsKey := ReportFields[10]
  const FollowUpPlanKey := ReportFields[11]
  const ImageUrlKey := ReportFields[12]
  const CreatedAtKey := ReportFields[13]

  datatype Report = Report(
    reportId: string,
    patientId: string,
    drStatus: string,
    severityLevel: string,
    confidence: real,
    patientMedicalAssessment: string,
    drStatusAnalysis: string,
    classificationDetails: string,
    vulnerableAreasAnalysis: string,
    riskAssessment: string,
    recommendations: string,
    followUpPlan: string,
    imageUrl: Option<string>,
    createdAt: DateTime)

  /** The declared constraints: both ids are non-empty. Every other text is any string and the
      confidence is any number; no range is imposed on it. */
  predicate SatisfiesConstraints(r: Report)
  {
    |r.reportId| >= 1 && |r.patientId| >= 1
  }

  /** The model pydantic builds from the fourteen field outcomes. */
  function AssembleReport(reportId: Field<string>, patientId: Field<string>, drStatus: Field<string>,
                          severityLevel: Field<string>, confidence: Field<real>, assessment: Field<string>,
                          statusAnalysis: Field<string>, classification: Field<string>,
                          vulnerableAreas: Field<string>, risk: Field<string>, recommendations: Field<string>,
                          followUp: Field<string>, imageUrl: Field<Option<string>>,
                          createdAt: Field<DateTime>): Validated<Report>
  {
    if && reportId.Accepted? && patientId.Accepted? && drStatus.Accepted? && severityLevel.Accepted?
       && confidence.Accepted? && assessment.Accepted? && statusAnalysis.Accepted? && classification.Accepted?
       && vulnerableAreas.Accepted? && risk.Accepted? && recommendations.Accepted? && followUp.Accepted?
       && imageUrl.Accepted? && createdAt.Accepted?
    then
      Valid(Report(reportId.value, patientId.value, drStatus.value, severityLevel.value, confidence.value,
        assessment.value, statusAnalysis.value, classification.value, vulnerableAreas.value, risk.value,
        recommendations.value, followUp.value, imageUrl.value, createdAt.value))
    else
      Invalid(Errors(reportId) + Errors(patientId) + Errors(drStatus) + Errors(severityLevel)
        + Errors(confidence) + Errors(assessment) + Errors(statusAnalysis) + Errors(classification)
        + Errors(vulnerableAreas) + Errors(risk) + Errors(recommendations) + Errors(followUp)
        + Errors(imageUrl) + Errors(createdAt))
  }

  /** `Report(**m)`, with `now` the reading `datetime.utcnow()` would give if `created_at` is left
      out. */
  function ValidateReport(m: map<string, Value>, now: DateTime): (r: Validated<Report>)
    ensures r.Valid? ==> SatisfiesConstraints(r.value)
  {
    AssembleReport(
      RequiredString(m, ReportIdKey, 1),
      RequiredString(m, PatientIdKey, 1),
      RequiredString(m, DrStatusKey, 0),
      RequiredString(m, SeverityLevelKey, 0),
      RequiredFloat(m, ConfidenceKey, None, None),
      RequiredString(m, PatientMedicalAssessmentKey, 0),
      RequiredString(m, DrStatusAnalysisKey, 0),
      RequiredString(m, ClassificationDetailsKey, 0),
      RequiredString(m, VulnerableAreasAnalysisKey, 0),
      RequiredString(m, RiskAssessmentKey, 0),
      RequiredString(m, RecommendationsKey, 0),
      RequiredString(m, FollowUpPlanKey, 0),
      OptionalString(m, ImageUrlKey),
      DateTimeWithDefault(m, CreatedAtKey, now))
  }

  /** Whether `key` is present and holds a string. */
  predicate IsText(m: map<string, Value>, key: string)
  {
    key in m && m[key].Str?
  }

  /** Which dictionaries make a report, stated key by key: both ids non-empty strings, the other
      eleven texts any strings, the confidence any number, the image path absent, None or a string,
      and the creation time absent or a datetime. */
  lemma ReportValidIff(m: map<string, Value>, now: DateTime)
    ensures ValidateReport(m, now).Valid? <==>
              && IsText(m, ReportIdKey) && |m[ReportIdKey].s| >= 1
              && IsText(m, PatientIdKey) && |m[PatientIdKey].s| >= 1
              && IsText(m, DrStatusKey) && IsText(m, SeverityLevelKey)
              && ConfidenceKey in m && m[ConfidenceKey].Num?
              && IsText(m, PatientMedicalAssessmentKey) && IsText(m, DrStatusAnalysisKey)
              && IsText(m, ClassificationDetailsKey) && IsText(m, VulnerableAreasAnalysisKey)
              && IsText(m, RiskAssessmentKey) && IsText(m, RecommendationsKey) && IsText(m, FollowUpPlanKey)
              && (ImageUrlKey !in m || m[ImageUrlKey].Null? || m[ImageUrlKey].Str?)
              && (CreatedAtKey !in m || m[CreatedAtKey].DateTimeVal?)
  {
  }

  /** The defaults: a missing image path is None and a missing creation time is the clock reading. */
  lemma ReportDefaults(m: map<string, Value>, now: DateTime)
    requires ValidateReport(m, now).Valid?
    ensures ImageUrlKey !in m ==> ValidateReport(m, now).value.imageUrl == None
    ensures CreatedAtKey !in m ==> ValidateReport(m, now).value.createdAt == now
    ensures CreatedAtKey in m ==> ValidateReport(m, now).value.createdAt == m[CreatedAtKey].t
  {
  }

  /** The default applies only to a missing key: an explicit None creation time is refused. */
  lemma ExplicitNoneCreatedAtRejected(m: map<string, Value>, now: DateTime)
    requires CreatedAtKey in m && m[CreatedAtKey].Null?
    ensures ValidateReport(m, now).Invalid?
    ensures FieldError(CreatedAtKey, DatetimeType) in ValidateReport(m, now).errors
  {
  }

  /** An empty report id or patient id is refused with a length error naming that field. */
  lemma EmptyIdsRejected(m: map<string, Value>, now: DateTime)
    ensures ReportIdKey in m && m[ReportIdKey] == Str("") ==>
              ValidateReport(m, now).Invalid? && FieldError(ReportIdKey, StringTooShort(1)) in ValidateReport(m, now).errors
    ensures PatientIdKey in m && m[PatientIdKey] == Str("") ==>
              ValidateReport(m, now).Invalid? && FieldError(PatientIdKey, StringTooShort(1)) in ValidateReport(m, now).errors
  {
  }

  lemma ReportFieldsDistinct()
    ensures forall i, j :: 0 <= i < j < |ReportFields| ==> ReportFields[i] != ReportFields[j]
  {
  }

  /** The values `.dict()` stores under the fields, in field order. */
  function FieldValues(r: Report): (vs: seq<Value>)
    ensures |vs| == |ReportFields|
  {
    [Str(r.reportId), Str(r.patientId), Str(r.drStatus), Str(r.severityLevel), Num(r.confidence),
     Str(r.patientMedicalAssessment), Str(r.drStatusAnalysis), Str(r.classificationDetails),
     Str(r.vulnerableAreasAnalysis), Str(r.riskAssessment), Str(r.recommendations), Str(r.followUpPlan),
     OptionalStringValue(r.imageUrl), DateTimeVal(r.createdAt)]
  }

  /** `Report.dict()`, the document `ReportModel.create` inserts: every field under its name. */
  function ReportDict(r: Report): (d: map<string, Value>)
    ensures forall i :: 0 <= i < |ReportFields| ==> ReportFields[i] in d && d[ReportFields[i]] == FieldValues(r)[i]
  {
    ReportFieldsDistinct();
    map i | 0 <= i < |ReportFields| :: ReportFields[i] := FieldValues(r)[i]
  }

  lemma DictHeader(r: Report, now: DateTime)
    requires SatisfiesConstraints(r)
    ensures RequiredString(ReportDict(r), ReportIdKey, 1) == Accepted(r.reportId)
    ensures RequiredString(ReportDict(r), PatientIdKey, 1) == Accepted(r.patientId)
    ensures RequiredString(ReportDict(r), DrStatusKey, 0) == Accepted(r.drStatus)
    ensures RequiredString(ReportDict(r), SeverityLevelKey, 0) == Accepted(r.severityLevel)
    ensures RequiredFloat(ReportDict(r), ConfidenceKey, None, None) == Accepted(r.confidence)
  {
  }

  lemma DictSections(r: Report)
    ensures RequiredString(ReportDict(r), PatientMedicalAssessmentKey, 0) == Accepted(r.patientMedicalAssessment)
    ensures RequiredString(ReportDict(r), DrStatusAnalysisKey, 0) == Accepted(r.drStatusAnalysis)
    ensures RequiredString(ReportDict(r), ClassificationDetailsKey, 0) == Accepted(r.classificationDetails)
    ensures RequiredString(ReportDict(r), VulnerableAreasAnalysisKey, 0) == Accepted(r.vulnerableAreasAnalysis)
  {
  }

  lemma DictAdvice(r: Report)
    ensures RequiredString(ReportDict(r), RiskAssessmentKey, 0) == Accepted(r.riskAssessment)
    ensures RequiredString(ReportDict(r), RecommendationsKey, 0) == Accepted(r.recommendations)
    ensures RequiredString(ReportDict(r), FollowUpPlanKey, 0) == Accepted(r.followUpPlan)
  {
  }

  lemma DictTrailer(r: Report, now: DateTime)
    ensures OptionalString(ReportDict(r), ImageUrlKey) == Accepted(r.imageUrl)
    ensures DateTimeWithDefault(ReportDict(r), CreatedAtKey, now) == Accepted(r.createdAt)
  {
  }

  /** Validation and `.dict()` are inverse: a report that meets the constraints is rebuilt exactly
      from its own dictionary, whatever the clock reads. */
  lemma ValidateReportDict(r: Report, now: DateTime)
    requires SatisfiesConstraints(r)
    ensures ValidateReport(ReportDict(r), now) == Valid(r)
  {
    DictHeader(r, now);
    DictSections(r);
    DictAdvice(r);
    DictTrailer(r, now);
  }

  /** Keys outside the schema, such as the patient's own fields passed along with the report's,
      have no effect. */
  lemma ExtraKeysIgnored(m1: map<string, Value>, m2: map<string, Value>, now: DateTime)
    requires AgreeOn(m1, m2, ReportFields)
    ensures ValidateReport(m1, now) == ValidateReport(m2, now)
  {
    forall i | 0 <= i < |ReportFields|
      ensures AgreeAt(m1, m2, ReportFields[i])
    {
    }
    RequiredDecodersReadOnlyTheirKey(m1, m2, ReportIdKey);
    RequiredDecodersReadOnlyTheirKey(m1, m2, PatientIdKey);
    RequiredDecodersReadOnlyTheirKey(m1, m2, DrStatusKey);
    RequiredDecodersReadOnlyTheirKey(m1, m2, SeverityLevelKey);
    RequiredDecodersReadOnlyTheirKey(m1, m2, ConfidenceKey);
    RequiredDecodersReadOnlyTheirKey(m1, m2, PatientMedicalAssessmentKey);
    RequiredDecodersReadOnlyTheirKey(m1, m2, DrStatusAnalysisKey);
    RequiredDecodersReadOnlyTheirKey(m1, m2, ClassificationDetailsKey);
    RequiredDecodersReadOnlyTheirKey(m1, m2, VulnerableAreasAnalysisKey);
    RequiredDecodersReadOnlyTheirKey(m1, m2, RiskAssessmentKey);
    RequiredDecodersReadOnlyTheirKey(m1, m2, RecommendationsKey);
    RequiredDecodersReadOnlyTheirKey(m1, m2, FollowUpPlanKey);
    OptionalDecodersReadOnlyTheirKey(m1, m2, ImageUrlKey);
    OptionalDecodersReadOnlyTheirKey(m1, m2, CreatedAtKey);
  }
}
