# Diabetic-retinopathy screening service: a verified model of its deterministic core

The service takes a retinal photograph through a two-stage pipeline. A GAN generator enhances the
image, and a convolutional classifier grades the result into one of five diabetic-retinopathy
severities. It also stores patient and report records, validated by pydantic schemas, and splits a
language model's reply into the seven sections of a medical report.

This project models the parts of that service that are deterministic logic and proves what they
promise.

- **`PredictionService`** (`prediction_service.dfy`) covers `services/prediction_service.py`.
  - The shapes flowing through `enhance_image` and `predict_dr_grade`: the `transforms.Compose`
    pipeline, the batch axis, the generator, the conversion back to an image, and the
    classifier's 1×224×224×3 input with its pixels scaled into [0, 1].
  - The result record built from the classifier's scores: `np.argmax` (first maximum), the
    label, the status, the confidence and the zipped score map.
  - The wrapping of every failure behind "Error enhancing image: " and "Prediction error: ".
  - The class keeps the service's `device` and `transform`. Each pipeline is a method over shapes.
- **`Generator`** (`generator.dfy`) is the enhancement network of
  `models/architecture/generator.py` at the level of tensor shapes. Each layer is a
  shape-transfer function, using PyTorch's convolution output-size formula, and the residual
  add is a broadcast check. `Forward` is the loop over the residual blocks, with its invariant.
- **`OpenAIService`** (`openai_service.dfy`) covers the parsing half of `generate_report` in
  `services/openai_service.py`: strip the reply, split it on blank lines, take the first seven
  pieces as the named sections, and prefix failures with "OpenAI API error: ".
  - **`PyStr`** (`pystr.dfy`) models Python's `str.strip`, `str.split(sep)` and `sep.join`.
- **`Schema`** (`schema.dfy`) is field-by-field pydantic validation. There is one decoder per kind
  of field declaration the two schemas use, and each error is reported under its field.
  - Pydantic v2 semantics are assumed. `Field(pattern=...)` is a v2 keyword that v1 ignores. v2's
    regex `$` matches only at the end of the text, so a gender must be exactly one of the three
    words.
- **`PatientModel`** (`patient_model.dfy`) covers `models/patient_model.py`.
  - The `Patient` constraints, as a validation function over a field dictionary.
  - Its `.dict()`.
  - The document `PatientModel.create` builds. `Create` is the loop that rewrites every
    date-valued entry as its ISO string, followed by the two timestamp assignments.
- **`ReportModel`** (`report_model.dfy`) covers the `Report` constraints and defaults of
  `models/report_model.py`, and the `.dict()` its `create` inserts.
- **`Calendar`** (`calendar.dfy`) is Python's `date`/`datetime` as values. It includes
  `date.isoformat()`, which is the `full-date` format of section 5.6 of RFC 3339, a strict parser
  for that format, and `datetime.isoformat()`.
- **`Wrappers`** (`wrappers.dfy`) holds `Option`, `Outcome` (a value, or the message of the raised
  exception) and the message-prefixing `WithPrefix`.

Foreign calls are parameters of the methods that make them: the value each returned, or the
message it raised. These calls are opening the image file, fetching model weights, the
classifier's `predict`, cv2's resampled pixels, the chat completion, and the two clock readings.

The model follows the code in these places:

- The code has no model cache: `enhance_image` builds a new generator and fetches its weights on
  every call.
- The score vector's length is never checked, so `AssembleResult` takes a vector of any length.
  An empty vector makes the argmax raise. A first maximum past the fifth entry makes the label
  lookup raise. The zip keeps only as many labels as there are scores.
- The `Report` schema puts no [0, 1] bound on `confidence`.
- The failures are plain `Exception`s whose messages carry the prefixes above, not separate error
  kinds.

## Model

| member | source | states |
|---|---|---|
| Wrappers.WithPrefix | services/prediction_service.py:88-89 | a failure keeps its message behind the prefix; a success passes through unchanged |
| PredictionService.ResizedSize | services/prediction_service.py:16 | `Resize(256)`'s output size, shorter side first set to 256; no contract of its own, characterised by ResizeKeepsAspect |
| PredictionService.ResizeKeepsAspect | services/prediction_service.py:16 | `Resize(256)` makes the shorter side 256; the longer side is the floor of the aspect-preserving length, so it is at least 256 |
| PredictionService.ApplyStep | services/prediction_service.py:16-22 | one transform step on an image or a tensor, failing where `ToTensor` or `Normalize` gets the wrong input; no contract of its own, characterised through Compose by TransformShape |
| PredictionService.Compose | services/prediction_service.py:15-23 | `transforms.Compose`: the steps in order, a failing step failing the whole; no contract of its own, characterised by TransformShape for the service's own pipeline |
| PredictionService.TransformShape | services/prediction_service.py:15-18 | for every image of at least 1×1, resize, crop, to-tensor and normalise yield a 3×256×256 tensor |
| PredictionService.BatchAxisRoundTrip | services/prediction_service.py:40 | `squeeze(0)` undoes `unsqueeze(0)` |
| PredictionService.AddBatchAxis | services/prediction_service.py:30 | the new leading axis has length 1 and the old axes follow it unchanged |
| PredictionService.DropBatchAxis | services/prediction_service.py:40 | a leading axis of length 1 is removed; any other tensor is left unchanged |
| PredictionService.ScalePixels | services/prediction_service.py:67 | every uint8 pixel divided by 255 lies in [0, 1], and multiplying by 255 gives the pixel back |
| PredictionService.ArgMax | services/prediction_service.py:75 | the index of a maximal score, with every earlier score strictly smaller (numpy's first maximum) |
| PredictionService.ArgMaxIsFirstMaximum | services/prediction_service.py:75 | an index is ArgMax exactly when it is a maximum and every earlier score is strictly below it |
| PredictionService.ZipScores | services/prediction_service.py:83 | the keys are the first min(5, n) labels, and label i maps to score i |
| PredictionService.AssembleResult | services/prediction_service.py:74-84 | the result record built from the score vector, or the argmax or index error; no contract of its own, characterised by AssembleResultOkIff, SeverityIsACategory, NegativeIffNoDR, ConfidenceIsTopScore and FiveScores |
| PredictionService.AssembleResultOkIff | services/prediction_service.py:74-84 | a record is built exactly when the vector is non-empty and one of its first five entries is a maximum; otherwise the failure is numpy's empty-argmax error or Python's index error |
| PredictionService.SeverityIsACategory | services/prediction_service.py:78 | the severity is one of the five labels: the label of the first maximal score |
| PredictionService.NegativeIffNoDR | services/prediction_service.py:80-81 | the status is Negative or Positive; it is Negative exactly for class 0, which is exactly when the severity is "No DR" |
| PredictionService.ConfidenceIsTopScore | services/prediction_service.py:82-83 | the confidence is the score listed under the severity label; no listed score and no vector entry exceeds it |
| PredictionService.FiveScores | services/prediction_service.py:83 | a five-entry vector always gives a record whose map has exactly the five labels, label i holding score i |
| PredictionService.NoDRExample | services/prediction_service.py:74-84 | [0.9, 0.05, 0.02, 0.02, 0.01] gives Negative, "No DR", confidence 0.9 |
| PredictionService.SevereExample | services/prediction_service.py:74-84 | [0.01, 0.02, 0.05, 0.82, 0.10] gives Positive, "Severe DR", confidence 0.82 |
| PredictionService.TieExample | services/prediction_service.py:75 | a tie between the first and fourth labels goes to the first: Negative, "No DR" |
| PredictionService.PredictionService.EnhancementInput | services/prediction_service.py:30 | the generator's input is 1×3×256×256 whatever the image's size |
| PredictionService.AsShape | services/prediction_service.py:30-38 | the 1×3×256×256 generator input read as a (batch, channels, height, width) shape; no contract of its own, characterised through EnhanceImage |
| PredictionService.ToPicture | services/prediction_service.py:44 | `transforms.ToPILImage()` on a 3×H×W tensor, giving a W×H image; no contract of its own, characterised by EnhanceImage's `weights.Ok? ==> r == Ok(Picture(256, 256))` |
| PredictionService.PredictionService.EnhanceImage | services/prediction_service.py:25-53 | when the weights are fetched, the enhanced image is 256×256; a failed fetch is re-raised behind "Error enhancing image: " |
| PredictionService.CvResizedDims | services/prediction_service.py:66 | `cv2.resize(img, (224, 224))` on an H×W×C array, width given first; no contract of its own, characterised through ClassifierInput, whose input is 1×224×224×3 |
| PredictionService.PredictionService.ClassifierInput | services/prediction_service.py:65-68 | the classifier's input is 1×224×224×3, and its entries are the resampled pixels divided by 255, each in [0, 1] |
| PredictionService.PredictionService.PredictDrGrade | services/prediction_service.py:55-89 | each failing stage gives "Prediction error: " followed by its message, with an enhancement failure reading "Prediction error: Error enhancing image: …"; otherwise the result is the record built from the scores, with its own failures prefixed the same way |
| Generator.ConvOutSize | models/architecture/generator.py:11 | the output size is defined exactly when the padded input is at least the kernel, and it is then at least 1 |
| Generator.ConvOutSizeCountsPositions | models/architecture/generator.py:11 | the output size is the number of kernel positions, floor((size + 2·padding − kernel) / stride) + 1: the last position fits in the padded input and one stride further would not |
| Generator.SamePaddingKeepsSize | models/architecture/generator.py:11 | a 3×3 convolution with padding 1 and stride 1 keeps every non-zero spatial size |
| Generator.ApplyLayer | models/architecture/generator.py:11-16 | one convolution, batch norm or activation on a shape; no contract of its own, characterised through RunLayers by SequentialShape |
| Generator.RunLayers | models/architecture/generator.py:10-17 | `nn.Sequential`: the layers in order; no contract of its own, characterised by SequentialShape |
| Generator.SequentialShape | models/architecture/generator.py:10-17 | a stack of same-padding layers succeeds exactly when its channel counts chain; it then keeps batch and spatial size and ends at the final channel count |
| Generator.Encoder | models/architecture/generator.py:10-17 | the six encoder layers in order; no contract of its own, characterised by EncoderLayout and EncoderShape |
| Generator.EncoderLayout | models/architecture/generator.py:10-17 | every encoder convolution is 3×3, padding 1, stride 1, and the channel counts, batch-norm widths included, chain from 3 to 128 |
| Generator.Decoder | models/architecture/generator.py:25-35 | the nine decoder layers in order; no contract of its own, characterised by DecoderLayout and DecoderShape |
| Generator.DecoderLayout | models/architecture/generator.py:25-35 | every decoder convolution is 3×3, padding 1, stride 1, and its channel counts, batch-norm widths included, chain from 128 to 3 |
| Generator.NewResidualBlock | models/architecture/generator.py:45-50 | `ResidualBlock(c)`'s two 3×3 convolutions and batch norms of width c; no contract of its own, characterised by BlockLayout and ResidualBlockShape |
| Generator.BlockLayout | models/architecture/generator.py:45-50 | a residual block of width c uses same-padding convolutions and chains c to c |
| Generator.GeneratorBlocks | models/architecture/generator.py:20-22 | there are exactly three residual blocks, each of width 128 |
| Generator.BroadcastsTo | models/architecture/generator.py:59 | the rule `out += residual` needs: each dimension of the residual equals out's or is 1; no contract of its own, characterised through AddInPlace by ResidualBlockShape |
| Generator.AddInPlace | models/architecture/generator.py:59 | `out += residual`: allowed when the residual broadcasts to out, which keeps its shape; no contract of its own, characterised by ResidualBlockShape and ResidualBlockRejects |
| Generator.BlockBody | models/architecture/generator.py:54-58 | the layers `ResidualBlock.forward` applies before the add: conv1, bn1, ReLU, conv2, bn2; no contract of its own, characterised by BlockLayout and ResidualBlockShape |
| Generator.BlockForward | models/architecture/generator.py:52-60 | `ResidualBlock.forward`: the body, then the input added back; no contract of its own, characterised by ResidualBlockShape and ResidualBlockRejects |
| Generator.ResidualBlockShape | models/architecture/generator.py:52-59 | `ResidualBlock(c)` maps (N, c, H, W) to itself: the body's result has exactly the shape of the block's own input, so the in-place add is valid |
| Generator.ResidualBlockRejects | models/architecture/generator.py:54 | a block fed the wrong channel count fails |
| Generator.RunBlocks | models/architecture/generator.py:39-40 | the residual blocks in list order; no contract of its own, characterised by RunBlocksFailurePersists and UniformBlocksShape |
| Generator.RunBlocksFailurePersists | models/architecture/generator.py:39-40 | once a block fails, the loop's result is a failure |
| Generator.UniformBlocksShape | models/architecture/generator.py:39-40 | blocks of width c applied in list order keep an (N, c, H, W) shape |
| Generator.EncoderShape | models/architecture/generator.py:10-17 | the encoder maps (N, 3, H, W) to (N, 128, H, W) |
| Generator.DecoderShape | models/architecture/generator.py:25-35 | the decoder maps (N, 128, H, W) to (N, 3, H, W) |
| Generator.NewGenerator | models/architecture/generator.py:5-35 | `Generator()`: encoder, three residual blocks of width 128, decoder; no contract of its own, characterised by GeneratorBlocks and GeneratorPreservesShape |
| Generator.GeneratorForward | models/architecture/generator.py:37-42 | `Generator.forward` as a function of the network and the input shape; no contract of its own, characterised by GeneratorPreservesShape, and Forward's loop is proved equal to it |
| Generator.GeneratorPreservesShape | models/architecture/generator.py:37-42 | the network succeeds exactly on (N, 3, H, W) with H, W ≥ 1, and then returns that same shape |
| Generator.Forward | models/architecture/generator.py:37-42 | the loop that rebinds `x` over the blocks computes the network's composition |
| PyStr.IsSpace | services/openai_service.py:51 | the characters `str.isspace()` accepts, which `strip()` removes; no contract of its own, characterised through LStrip, RStrip and Strip |
| PyStr.LStrip | services/openai_service.py:51 | the result is a suffix, what was dropped is whitespace, and it does not start with whitespace |
| PyStr.RStrip | services/openai_service.py:51 | the result is a prefix, what was dropped is whitespace, and it does not end with whitespace |
| PyStr.Strip | services/openai_service.py:51 | the result is a slice with whitespace on both sides of it, and it neither starts nor ends with whitespace |
| PyStr.Split | services/openai_service.py:54 | `s.split(sep)` for a non-empty separator: at least one piece; pinned down by SplitWithoutSeparator and SplitAtFirstOccurrence, undone by Join (JoinSplit) |
| PyStr.Join | services/openai_service.py:54 | `sep.join(pieces)`, the inverse the split is checked against; no contract of its own, characterised by JoinSplit |
| PyStr.JoinSplit | services/openai_service.py:54 | joining the pieces with the separator gives the text back |
| PyStr.PiecesHaveNoSeparator | services/openai_service.py:54 | no piece contains the separator |
| PyStr.SplitWithoutSeparator | services/openai_service.py:54 | a text without the separator is one piece, itself |
| PyStr.SplitAtFirstOccurrence | services/openai_service.py:54 | a text is cut at the first occurrence of the separator |
| PyStr.LeadingSeparator | services/openai_service.py:54 | a leading separator gives an empty first piece |
| PyStr.FirstPieceIsPrefix | services/openai_service.py:54 | the first piece is a prefix of the text |
| OpenAIService.SectionAt | services/openai_service.py:57-63 | `sections[i] if len(sections) > i else ""`; no contract of its own, characterised through SectionsRecord and SectionsAreThePieces |
| OpenAIService.SectionsRecord | services/openai_service.py:56-64 | key i holds piece i when there is one and "" otherwise; there are no other keys |
| OpenAIService.Sections | services/openai_service.py:51-54 | the stripped reply split on blank lines; no contract of its own, characterised by SectionsAreThePieces, NoSeparatorFillsFirstSection and FirstSectionHasNoLeadingSpace |
| OpenAIService.ParseReport | services/openai_service.py:51-64 | the seven named sections of the reply; no contract of its own, characterised by ReportHasSevenKeys, SectionsAreThePieces and PiecesAfterSeventhDiscarded |
| OpenAIService.GenerateReport | services/openai_service.py:51-67 | the sections of the reply's content; a failed call or a missing content is re-raised behind "OpenAI API error: " |
| OpenAIService.ReportHasSevenKeys | services/openai_service.py:56-64 | the report has exactly the seven section keys |
| OpenAIService.SectionsAreThePieces | services/openai_service.py:54-63 | section i is piece i or ""; the pieces contain no separator, and joined with it they give back the stripped text |
| OpenAIService.PiecesAfterSeventhDiscarded | services/openai_service.py:57-63 | pieces after the seventh do not affect the report |
| OpenAIService.NoSeparatorFillsFirstSection | services/openai_service.py:54-63 | a text without a blank line lands wholly in the first section, and the other six are "" |
| OpenAIService.AdjacentSeparatorsSplit | services/openai_service.py:54 | two separators in a row give an empty piece between their neighbours |
| OpenAIService.AdjacentSeparatorsLeaveEmptySection | services/openai_service.py:54-63 | adjacent separators are not merged: the section between them is "" |
| OpenAIService.FirstSectionHasNoLeadingSpace | services/openai_service.py:51-57 | the first section never starts with whitespace |
| Schema.Errors | models/patient_model.py:8-32 | a field contributes no error exactly when it is accepted, and a rejected field contributes exactly its own error |
| Schema.RequiredString | models/patient_model.py:10-11 | accepted exactly when present as a string of at least the minimum length; missing, wrong-typed and too-short values are errors under the field |
| Schema.RequiredChoice | models/patient_model.py:13 | accepted exactly when present as a string that is one of the alternatives in full; a missing key is a Missing error, a non-string a string-type error, any other string a pattern error |
| Schema.RequiredFloat | models/patient_model.py:17-18 | accepted exactly when present as a number within both bounds; a missing key, a non-number, a value below the lower bound and a value above the upper bound each give their own error |
| Schema.RequiredDate | models/patient_model.py:12 | accepted exactly when present as a date; a missing key is a Missing error and any other value a date-type error |
| Schema.OptionalString | models/patient_model.py:16 | absent or None gives None; a string gives itself; anything else is an error |
| Schema.OptionalFloat | models/patient_model.py:24 | absent or None gives None; the bound applies only to a number |
| Schema.OptionalDateTime | models/patient_model.py:28-29 | absent or None gives None; a datetime gives itself |
| Schema.DateTimeWithDefault | models/report_model.py:21 | absent gives the factory's reading; a datetime gives itself; an explicit None is an error |
| Schema.RequiredDecodersReadOnlyTheirKey | models/patient_model.py:8-32 | every decoder of a required field depends only on its own key |
| Schema.OptionalDecodersReadOnlyTheirKey | models/patient_model.py:8-32 | every decoder of an optional or defaulted field depends only on its own key |
| PatientModel.AssemblePatient | models/patient_model.py:8-32 | the patient when all thirteen fields are accepted, otherwise every field's error in declaration order; no contract of its own, characterised through ValidatePatient by PatientValidIff, ValidatedPatientIsInput and the three Enforced lemmas |
| PatientModel.SatisfiesConstraints | models/patient_model.py:10-24 | the `Field` constraints of the patient schema: name at least 2 characters, id at least 1, gender one of the three words, both acuities in [0, 1], a fasting blood sugar absent or not negative; no contract of its own, characterised by ValidatePatient and ValidatePatientDict |
| PatientModel.ValidatePatient | models/patient_model.py:8-32 | a validated patient satisfies every declared constraint |
| PatientModel.ConstraintsEnforced | models/patient_model.py:10-11 | a name shorter than two characters, a missing id and an empty id are each rejected with their exact error under that field |
| PatientModel.GenderAndBloodSugarEnforced | models/patient_model.py:13-24 | a gender outside the three words is rejected with a pattern error, and a negative fasting blood sugar with a greater-than-or-equal-0 error |
| PatientModel.AcuityBoundsEnforced | models/patient_model.py:17-18 | an acuity below 0 is rejected with the lower-bound error and one above 1 with the upper-bound error, each under its own field |
| PatientModel.PatientValidIff | models/patient_model.py:8-32 | a dictionary validates exactly when the six required fields are present, of their type and within bounds, and each optional field is absent, None or of its type, with a blood sugar not negative |
| PatientModel.RequiredFieldsSuffice | models/patient_model.py:10-32 | a dictionary with only the six required fields, all valid, gives the patient with those values and None in every optional field |
| PatientModel.OptionalFieldsDefaultToNone | models/patient_model.py:16-32 | each of the seven optional fields (vision problems, DR result, fasting blood sugar, blood pressure, `created_at`, `updated_at`, image URL) left out of a valid input is None |
| PatientModel.ValidatedPatientIsInput | models/patient_model.py:8-32 | each field of a validated patient is the input's value under its key |
| PatientModel.ExtraKeysIgnored | models/patient_model.py:8-32 | inputs that agree on the thirteen fields validate alike |
| PatientModel.PatientDict | models/patient_model.py:64 | `.dict()` holds each field's value under its own name |
| PatientModel.ValidatePatientDict | models/patient_model.py:64 | a patient meeting the constraints is rebuilt exactly from its own dictionary |
| PatientModel.IsDateLike | models/patient_model.py:67 | `isinstance(value, date)`, true of a date and of a datetime, since `datetime` subclasses `date`; no contract of its own, characterised through IsoRewrite and DateEntries, and used by RewriteDateEntry, KeepOtherEntry and Create to pick the entries the loop rewrites |
| PatientModel.IsoRewrite | models/patient_model.py:66-68 | a value that is not a date is left as it is, and a date or datetime becomes a string |
| PatientModel.IsoRewriteReadsBack | models/patient_model.py:66-68 | a rewritten date parses back to itself, and a rewritten datetime starts with its date's ISO string |
| PatientModel.DateEntries | models/patient_model.py:66-68 | only the birth date and the two timestamps can hold dates |
| PatientModel.IsoDocument | models/patient_model.py:64-68 | `.dict()` with every date-valued entry replaced by its ISO string: each field holds its value passed through IsoRewrite |
| PatientModel.CreatedDocument | models/patient_model.py:64-71 | the rewritten dictionary with both timestamps set to the clock readings; no contract of its own, characterised by CreatedDocumentKeys, CreatedDocumentDates and CreatedDocumentEntries, and Create is proved to return it |
| PatientModel.CreatedDocumentKeys | models/patient_model.py:64-71 | the created document has exactly the patient's thirteen keys |
| PatientModel.CreatedDocumentDates | models/patient_model.py:66-71 | the birth date is stored as its ISO string, which parses back to it, and the two timestamps hold the two separate clock readings |
| PatientModel.CreatedDocumentEntries | models/patient_model.py:66-68 | every entry other than the timestamps is the patient's own value rewritten, so non-dates are unchanged |
| PatientModel.RewriteDateEntry | models/patient_model.py:67-68 | rewriting a date entry advances the loop's invariant by one key and changes no other entry |
| PatientModel.KeepOtherEntry | models/patient_model.py:67 | skipping a non-date entry advances the loop's invariant |
| PatientModel.Create | models/patient_model.py:64-71 | the loop and the two assignments produce the created document |
| Calendar.Pad | models/patient_model.py:68 | `%0Nd`: exactly N digits spelling the number |
| Calendar.PadDecimalValue | models/patient_model.py:68 | a digit string is the padding of its own value |
| Calendar.IsoDate | models/patient_model.py:68 | ten characters, `-` at indices 4 and 7, and digits everywhere else |
| Calendar.ParseFullDate | models/patient_model.py:68 | a strict reader of the YYYY-MM-DD text `date.isoformat()` writes, the partner of IsoDate; no contract of its own, characterised by ParseIsoDate and ParsedIsCanonical |
| Calendar.ParseIsoDate | models/patient_model.py:68 | parsing a date's ISO string gives the date back |
| Calendar.ParsedIsCanonical | models/patient_model.py:68 | whatever the parser accepts is the ISO string of its result |
| Calendar.IsoDateInjective | models/patient_model.py:68 | different dates have different ISO strings |
| Calendar.IsoDateTime | models/patient_model.py:68 | 19 characters, or 26 with microseconds; it starts with the date's ISO string followed by `T` |
| ReportModel.AssembleReport | models/report_model.py:7-21 | the report when all fourteen fields are accepted, otherwise every field's error in declaration order; no contract of its own, characterised through ValidateReport by ReportValidIff, ReportDefaults and EmptyIdsRejected |
| ReportModel.SatisfiesConstraints | models/report_model.py:8-9 | the `Field` constraints of the report schema: both ids at least 1 character; no contract of its own, characterised by ValidateReport and ValidateReportDict |
| ReportModel.ValidateReport | models/report_model.py:7-21 | a validated report satisfies both id constraints |
| ReportModel.ReportValidIff | models/report_model.py:7-21 | a dictionary validates exactly when both ids are non-empty strings, the other eleven texts are strings, the confidence is any number, the image path is absent, None or a string, and the creation time is absent or a datetime |
| ReportModel.EmptyIdsRejected | models/report_model.py:8-9 | an empty report id or patient id is rejected with a length error under that field |
| ReportModel.ReportDefaults | models/report_model.py:20-21 | a missing image path is None, and a missing creation time is the clock reading |
| ReportModel.ExplicitNoneCreatedAtRejected | models/report_model.py:21 | an explicit None creation time is rejected, not defaulted |
| ReportModel.ReportDict | models/report_model.py:52 | `.dict()` holds each field's value under its own name |
| ReportModel.ValidateReportDict | models/report_model.py:7-21 | a report meeting the constraints is rebuilt exactly from its own dictionary, whatever the clock reads |
| ReportModel.ExtraKeysIgnored | models/report_model.py:7-21 | inputs that agree on the fourteen fields validate alike |

## Left out

- Tensor values are not modelled. This covers every convolution, batch norm, ReLU and tanh; the
  ImageNet normalisation and denormalisation; `clamp`; the contrast and sharpness filters; and
  cv2's interpolation. Only shapes and sizes are modelled, because these are floating-point work
  inside foreign libraries.
- `enhance_image`'s conversion of a non-PIL input by `Image.fromarray` is not modelled. The only
  caller passes a PIL image.
- Images are RGB, as `convert('RGB')` makes them. Other modes and ToTensor's channel count for
  them are not modelled.
- Model fetching and loading (services/model_service.py) is not part of this model. It is S3 and
  file I/O; its outcome is a parameter.
- The OpenAI client call and the prompt built from the prediction are left out. They are a
  foreign call and float formatting; the reply is a parameter.
- Routes, app wiring, the MongoDB and Cloudinary services, the `initialize` methods, the
  `insert_one` calls and their "Database error: " wrapping are left out. They are I/O.
- NaN scores are left out: scores are real numbers.
- The result's `predictions` is a map. The key order of the Python dict is not modelled.
- Pydantic's lax coercions are left out. Field values arrive typed, so a string is not parsed as
  a date and a number written as a string is not accepted.
- PredictionService.PredictionService.EnhanceImage: the input must be at least 1×1, because PIL
  never decodes an empty image. A zero-size image's failure message is not modelled.
- PredictionService.PredictionService.PredictDrGrade: the resampled pixels are given as a
  parameter of the size cv2 returns, 224·224·3. The classifier's scores are a parameter and are
  not tied to the input array's values.
- Generator.ResidualBlockShape: the residual add is checked at the level of shapes only. That it
  adds the block's own input shows in `BlockForward` passing its argument `x` to `AddInPlace`.
- PatientModel.Create: the document is modelled for dictionaries that `.dict()` produced. Keys
  outside the patient's thirteen fields cannot occur there.
