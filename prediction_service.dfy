/** services/prediction_service.py: the shapes that flow through `enhance_image` and
    `predict_dr_grade`, the result record built from the classifier's scores, and the error
    wrapping. Tensor values, the networks' arithmetic and the image filters are not modelled; a
    foreign call (opening the file, fetching a model, the classifier's prediction, cv2's
    resampling) is a parameter holding what it returned or raised. */
module PredictionService {
  import opened Wrappers
  import opened Generator

  newtype byte = x: int | 0 <= x < 256

  /** An RGB PIL image, by its `size`. */
  datatype Picture = Picture(width: nat, height: nat)

  /** What flows through `transforms.Compose`: a PIL image or a tensor of the given dimensions. */
  datatype Stage = Pil(picture: Picture) | Tensor(dims: seq<nat>)

  datatype Step =
    | Resize(size: nat)
    | CenterCrop(size: nat)
    | ToTensor
    | Normalize(mean: seq<real>, std: seq<real>)

  /** The pipeline `PredictionService.__init__` stores as `self.transform`. */
  const StandardTransform: seq<Step> := [Resize(256), CenterCrop(256), ToTensor,
    Normalize([0.485, 0.456, 0.406], [0.229, 0.224, 0.225])]

  /** `Resize(size)` with an int size: the shorter side becomes `size`, the longer one
      `int(size * long / short)`. */
  function ResizedSize(width: nat, height: nat, size: nat): (nat, nat)
    requires width >= 1 && height >= 1
  {
    if width <= height then (size, size * height / width) else (size * width / height, size)
  }

  /** The shorter side becomes `size`, and the longer side is the largest length that does not
      stretch the image past its aspect ratio, hence at least `size`. */
  lemma ResizeKeepsAspect(width: nat, height: nat, size: nat)
    requires width >= 1 && height >= 1
    ensures var (w, h) := ResizedSize(width, height, size);
            && (width <= height ==> w == size && h * width <= size * height < (h + 1) * width && h >= size)
            && (height < width ==> h == size && w * height <= size * width < (w + 1) * height && w >= size)
  {
    var (w, h) := ResizedSize(width, height, size);
    if width <= height {
      assert size * height >= size * width by { MulMono(size, width, height); }
      DivBounds(size * height, width, h);
    } else {
      assert size * width >= size * height by { MulMono(size, height, width); }
      DivBounds(size * width, height, w);
    }
  }

  lemma MulMono(c: nat, a: nat, b: nat)
    requires a <= b
    ensures c * a <= c * b
  {
  }

  /** Floor division brackets its numerator, and it is at least c when the numerator is c times
      the divisor or more. */
  lemma DivBounds(n: nat, d: nat, q: nat)
    requires d >= 1 && q == n / d
    ensures q * d <= n < (q + 1) * d
    ensures forall c: nat :: n >= c * d ==> q >= c
  {
    forall c: nat | n >= c * d
      ensures q >= c
    {
      if q < c {
        assert (q + 1) * d <= c * d by { MulMono(d, q + 1, c); }
      }
    }
  }

  /** One step of the transform. Resize and CenterCrop act on an image or on a tensor's last two
      dimensions; ToTensor takes only an image, Normalize only a tensor with a channel dimension
      that its mean and standard deviation match (or broadcast over). */
  function ApplyStep(step: Step, x: Stage): Option<Stage>
  {
    match step
    case Resize(size) =>
      (match x
       case Pil(p) =>
         if p.width == 0 || p.height == 0 then None
         else var (w, h) := ResizedSize(p.width, p.height, size); Some(Pil(Picture(w, h)))
       case Tensor(d) =>
         if |d| < 2 || d[|d| - 1] == 0 || d[|d| - 2] == 0 then None
         else var (w, h) := ResizedSize(d[|d| - 1], d[|d| - 2], size); Some(Tensor(d[..|d| - 2] + [h, w])))
    case CenterCrop(size) =>
      (match x
       case Pil(_) => Some(Pil(Picture(size, size)))
       case Tensor(d) => if |d| < 2 then None else Some(Tensor(d[..|d| - 2] + [size, size])))
    case ToTensor =>
      (match x
       case Pil(p) => Some(Tensor([3, p.height, p.width]))
       case Tensor(_) => None)
    case Normalize(mean, std) =>
      (match x
       case Pil(_) => None
       case Tensor(d) =>
         if |d| < 3 || exists i :: 0 <= i < |std| && std[i] == 0.0 then None
         else if (|mean| == d[|d| - 3] || |mean| == 1) && (|std| == d[|d| - 3] || |std| == 1) then Some(x)
         else None)
  }

  /** `transforms.Compose`: the steps in order; a failing step fails the whole. */
  function Compose(steps: seq<Step>, x: Stage): Option<Stage>
    decreases |steps|
  {
    if steps == [] then Some(x)
    else
      match ApplyStep(steps[0], x)
      case None => None
      case Some(y) => Compose(steps[1..], y)
  }

  /** Whatever the image's size, the transform yields a 3×256×256 tensor. */
  lemma TransformShape(p: Picture)
    requires p.width >= 1 && p.height >= 1
    ensures Compose(StandardTransform, Pil(p)) == Some(Tensor([3, 256, 256]))
  {
    var (w, h) := ResizedSize(p.width, p.height, 256);
    ResizeKeepsAspect(p.width, p.height, 256);
    assert ApplyStep(StandardTransform[0], Pil(p)) == Some(Pil(Picture(w, h)));
    var rest := StandardTransform[1..];
    assert Compose(rest, Pil(Picture(w, h))) == Some(Tensor([3, 256, 256])) by {
      assert ApplyStep(rest[0], Pil(Picture(w, h))) == Some(Pil(Picture(256, 256)));
      assert Compose(rest[1..], Pil(Picture(256, 256))) == Some(Tensor([3, 256, 256])) by {
        var last := rest[1..];
        assert ApplyStep(last[0], Pil(Picture(256, 256))) == Some(Tensor([3, 256, 256]));
        assert ApplyStep(last[1], Tensor([3, 256, 256])) == Some(Tensor([3, 256, 256]));
        assert last[2..] == [];
      }
    }
  }

  /** `unsqueeze(0)` and `np.expand_dims(_, axis=0)`: a new leading axis of length 1. */
  function AddBatchAxis(d: seq<nat>): (r: seq<nat>)
    ensures |r| == |d| + 1 && r[0] == 1 && r[1..] == d
  {
    [1] + d
  }

  /** `squeeze(0)`: drops a leading axis of length 1 and leaves any other tensor as it is. */
  function DropBatchAxis(d: seq<nat>): (r: seq<nat>)
    ensures |d| >= 1 && d[0] == 1 ==> r == d[1..]
    ensures (|d| == 0 || d[0] != 1) ==> r == d
  {
    if |d| >= 1 && d[0] == 1 then d[1..] else d
  }

  /** Adding the batch axis and squeezing it off again gives the tensor back. */
  lemma BatchAxisRoundTrip(d: seq<nat>)
    ensures DropBatchAxis(AddBatchAxis(d)) == d
  {
  }

  /** `transforms.ToPILImage()` on a C×H×W tensor: an RGB image of width W and height H. */
  function ToPicture(d: seq<nat>): Option<Picture>
  {
    if |d| == 3 && d[0] == 3 then Some(Picture(d[2], d[1])) else None
  }

  /** The tensor shape of an enhancement input or output, as the generator reads it. */
  function AsShape(d: seq<nat>): Option<Shape>
  {
    if |d| == 4 then Some(Shape(d[0], d[1], d[2], d[3])) else None
  }

  /** An N-dimensional array: its dimensions and its entries in row-major order. */
  datatype NdArray = NdArray(dims: seq<nat>, data: seq<real>)

  /** `cv2.resize(img, (width, height))` on an H×W×C array: note that cv2 takes the width first. */
  function CvResizedDims(d: seq<nat>, width: nat, height: nat): Option<seq<nat>>
  {
    if |d| < 2 || d[0] == 0 || d[1] == 0 then None else Some([height, width] + d[2..])
  }

  /** `img_array / 255.0` on uint8 pixels. */
  function ScalePixels(px: seq<byte>): (r: seq<real>)
    ensures |r| == |px|
    ensures forall i :: 0 <= i < |px| ==> 0.0 <= r[i] <= 1.0
    ensures forall i :: 0 <= i < |px| ==> r[i] * 255.0 == px[i] as real
  {
    seq(|px|, i requires 0 <= i < |px| => px[i] as real / 255.0)
  }

  const Categories: seq<string> := ["No DR", "Mild DR", "Moderate DR", "Severe DR", "Proliferative DR"]

  lemma CategoriesDistinct()
    ensures forall i, j :: 0 <= i < j < |Categories| ==> Categories[i] != Categories[j]
  {
  }

  /** `np.argmax`: the first index of a maximal entry. */
  function ArgMax(s: seq<real>): (k: nat)
    requires |s| >= 1
    ensures k < |s|
    ensures forall i :: 0 <= i < |s| ==> s[i] <= s[k]
    ensures forall i :: 0 <= i < k ==> s[i] < s[k]
    decreases |s|
  {
    if |s| == 1 then 0
    else
      var k := ArgMax(s[..|s| - 1]);
      if s[|s| - 1] > s[k] then |s| - 1 else k
  }

  /** Being a maximum that no earlier entry reaches determines the index: ArgMax is the only one. */
  lemma ArgMaxIsFirstMaximum(s: seq<real>, k: nat)
    requires |s| >= 1 && k < |s|
    ensures (k == ArgMax(s)) <==>
              (forall i :: 0 <= i < |s| ==> s[i] <= s[k]) && (forall i :: 0 <= i < k ==> s[i] < s[k])
  {
  }

  /** The dictionary `{cat: float(pred) for cat, pred in zip(categories, predictions)}`: zip stops at
      the shorter of the two. */
  function ZipScores(scores: seq<real>): (m: map<string, real>)
    ensures forall c :: c in m <==> c in Categories[..Min(|Categories|, |scores|)]
    ensures forall i :: 0 <= i < Min(|Categories|, |scores|) ==> m[Categories[i]] == scores[i]
  {
    var n := Min(|Categories|, |scores|);
    CategoriesDistinct();
    map i | 0 <= i < n :: Categories[i] := scores[i]
  }

  /** The record `predict_dr_grade` returns. */
  datatype PredictionResult = PredictionResult(
    drStatus: string,
    severityLevel: string,
    confidence: real,
    predictions: map<string, real>)

  /** numpy's message for the argmax of an empty array. */
  const EmptyArgMaxMessage := "attempt to get argmax of an empty sequence"
  /** Python's message for `categories[i]` with `i >= 5`. */
  const IndexErrorMessage := "list index out of range"

  /** Lines 75-84: the result record built from the classifier's score vector. A vector of any
      length is taken as it comes, as the code does not check it: an empty one makes the argmax
      raise, and one whose first maximum lies past the fifth entry makes the label lookup raise. */
  function AssembleResult(scores: seq<real>): Outcome<PredictionResult>
  {
    if |scores| == 0 then Fail(EmptyArgMaxMessage)
    else
      var k := ArgMax(scores);
      if k >= |Categories| then Fail(IndexErrorMessage)
      else
        Ok(PredictionResult(if k == 0 then "Negative" else "Positive", Categories[k], scores[k],
          ZipScores(scores)))
  }

  /** A record is built exactly when the vector is non-empty and one of its first five entries is a
      maximum; otherwise the error says which lookup failed. */
  lemma AssembleResultOkIff(scores: seq<real>)
    ensures AssembleResult(scores).Ok? <==>
              |scores| >= 1 && exists i :: 0 <= i < Min(|Categories|, |scores|) && forall j :: 0 <= j < |scores| ==> scores[j] <= scores[i]
    ensures |scores| == 0 ==> AssembleResult(scores) == Fail(EmptyArgMaxMessage)
    ensures |scores| >= 1 && AssembleResult(scores).Fail? ==> AssembleResult(scores) == Fail(IndexErrorMessage)
  {
    if |scores| >= 1 {
      var k := ArgMax(scores);
      if k < |Categories| {
        assert 0 <= k < Min(|Categories|, |scores|) && forall j :: 0 <= j < |scores| ==> scores[j] <= scores[k];
      } else {
        forall i | 0 <= i < Min(|Categories|, |scores|)
          ensures !(forall j :: 0 <= j < |scores| ==> scores[j] <= scores[i])
        {
          assert scores[i] < scores[k];
        }
      }
    }
  }

  /** The severity is always one of the five labels: the label of the first maximal score. */
  lemma SeverityIsACategory(scores: seq<real>)
    requires AssembleResult(scores).Ok?
    ensures AssembleResult(scores).value.severityLevel in Categories
    ensures AssembleResult(scores).value.severityLevel == Categories[ArgMax(scores)]
  {
  }

  /** The status is Negative exactly for class 0, that is exactly for "No DR", and Positive
      otherwise. */
  lemma NegativeIffNoDR(scores: seq<real>)
    requires AssembleResult(scores).Ok?
    ensures var r := AssembleResult(scores).value;
            && (r.drStatus == "Negative" || r.drStatus == "Positive")
            && (r.drStatus == "Negative" <==> ArgMax(scores) == 0)
            && (r.drStatus == "Negative" <==> r.severityLevel == "No DR")
  {
    CategoriesDistinct();
  }

  /** The confidence is the score listed under the severity label, and no listed score exceeds it,
      nor does any entry of the vector. */
  lemma ConfidenceIsTopScore(scores: seq<real>)
    requires AssembleResult(scores).Ok?
    ensures var r := AssembleResult(scores).value;
            && r.severityLevel in r.predictions
            && r.confidence == r.predictions[r.severityLevel]
            && (forall c :: c in r.predictions ==> r.predictions[c] <= r.confidence)
            && (forall i :: 0 <= i < |scores| ==> scores[i] <= r.confidence)
  {
    var r := AssembleResult(scores).value;
    var k := ArgMax(scores);
    assert r.severityLevel == Categories[k];
    forall c | c in r.predictions
      ensures r.predictions[c] <= r.confidence
    {
      var i :| 0 <= i < Min(|Categories|, |scores|) && Categories[i] == c;
      assert r.predictions[c] == scores[i];
    }
  }

  /** For the classifier's five scores the record is always built, and it lists each label with
      its own score. */
  lemma FiveScores(scores: seq<real>)
    requires |scores| == |Categories|
    ensures AssembleResult(scores).Ok?
    ensures AssembleResult(scores).value.predictions.Keys == set c | c in Categories
    ensures forall i :: 0 <= i < |Categories| ==> AssembleResult(scores).value.predictions[Categories[i]] == scores[i]
  {
    var keys := AssembleResult(scores).value.predictions.Keys;
    assert keys == set c | c in Categories by {
      forall c | c in Categories
        ensures c in keys
      {
        var i :| 0 <= i < |Categories| && Categories[i] == c;
      }
    }
  }

  /** A vector led by its first entry gives a negative "No DR" record with that score. */
  lemma NoDRExample()
    ensures AssembleResult([0.9, 0.05, 0.02, 0.02, 0.01]).Ok?
    ensures AssembleResult([0.9, 0.05, 0.02, 0.02, 0.01]).value.drStatus == "Negative"
    ensures AssembleResult([0.9, 0.05, 0.02, 0.02, 0.01]).value.severityLevel == "No DR"
    ensures AssembleResult([0.9, 0.05, 0.02, 0.02, 0.01]).value.confidence == 0.9
  {
    var s: seq<real> := [0.9, 0.05, 0.02, 0.02, 0.01];
    assert ArgMax(s) == 0 by { ArgMaxIsFirstMaximum(s, 0); }
  }

  /** A vector led by its fourth entry gives a positive "Severe DR" record with that score. */
  lemma SevereExample()
    ensures AssembleResult([0.01, 0.02, 0.05, 0.82, 0.10]).Ok?
    ensures AssembleResult([0.01, 0.02, 0.05, 0.82, 0.10]).value.drStatus == "Positive"
    ensures AssembleResult([0.01, 0.02, 0.05, 0.82, 0.10]).value.severityLevel == "Severe DR"
    ensures AssembleResult([0.01, 0.02, 0.05, 0.82, 0.10]).value.confidence == 0.82
  {
    var s: seq<real> := [0.01, 0.02, 0.05, 0.82, 0.10];
    assert ArgMax(s) == 3 by { ArgMaxIsFirstMaximum(s, 3); }
  }

  /** A tie between "No DR" and "Severe DR" goes to the earlier label. */
  lemma TieExample()
    ensures AssembleResult([0.4, 0.1, 0.0, 0.4, 0.1]).Ok?
    ensures AssembleResult([0.4, 0.1, 0.0, 0.4, 0.1]).value.drStatus == "Negative"
    ensures AssembleResult([0.4, 0.1, 0.0, 0.4, 0.1]).value.severityLevel == "No DR"
  {
    var s: seq<real> := [0.4, 0.1, 0.0, 0.4, 0.1];
    assert ArgMax(s) == 0 by { ArgMaxIsFirstMaximum(s, 0); }
  }

  const EnhanceErrorPrefix := "Error enhancing image: "
  const PredictionErrorPrefix := "Prediction error: "

  /** The service. Its model-fetching collaborator is not modelled: what a fetch returns or raises
      is passed to each method instead. */
  class PredictionService {
    const device: string := "cpu"
    const transform: seq<Step> := StandardTransform

    /** The tensor `self.transform(image).unsqueeze(0)` fed to the generator: always
        1×3×256×256, whatever the image's size. */
    method EnhancementInput(image: Picture) returns (dims: seq<nat>)
      requires image.width >= 1 && image.height >= 1
      ensures dims == [1, 3, 256, 256]
    {
      TransformShape(image);
      var transformed := Compose(transform, Pil(image));
      dims := AddBatchAxis(transformed.value.dims);
    }

    /** `enhance_image` at the level of shapes: transform, add the batch axis, run the generator
        (whose weights are fetched anew on each call; `weights` is that fetch's outcome), drop the
        batch axis, denormalise and clamp (which keep the shape), convert back to an image and
        apply the contrast and sharpness filters (which keep the size). Any failure is re-raised
        behind "Error enhancing image: ". */
    method EnhanceImage(image: Picture, weights: Outcome<()>) returns (r: Outcome<Picture>)
      requires image.width >= 1 && image.height >= 1
      ensures weights.Ok? ==> r == Ok(Picture(256, 256))
      ensures weights.Fail? ==> r == Fail(EnhanceErrorPrefix + weights.error)
    {
      var input := EnhancementInput(image);
      if weights.Fail? {
        return Fail(EnhanceErrorPrefix + weights.error);
      }
      var x := AsShape(input).value;
      GeneratorPreservesShape(x);
      var enhanced := Forward(NewGenerator(), x);
      var out := enhanced.value;
      var squeezed := DropBatchAxis([out.batch, out.channels, out.height, out.width]);
      var picture := ToPicture(squeezed).value;
      r := Ok(picture);
    }

    /** Lines 65-68: the enhanced image as an array, resampled by cv2 to 224×224 (`resampled` holds
        the pixels cv2 returns), scaled into [0, 1], and given a batch axis. */
    method ClassifierInput(enhanced: Picture, resampled: seq<byte>) returns (input: NdArray)
      requires enhanced.width >= 1 && enhanced.height >= 1
      requires |resampled| == 224 * 224 * 3
      ensures input.dims == [1, 224, 224, 3]
      ensures input.data == ScalePixels(resampled)
      ensures forall i :: 0 <= i < |input.data| ==> 0.0 <= input.data[i] <= 1.0
    {
      var dims := [enhanced.height, enhanced.width, 3];
      dims := CvResizedDims(dims, 224, 224).value;
      var data := ScalePixels(resampled);
      input := NdArray(AddBatchAxis(dims), data);
    }

    /** `predict_dr_grade`: open the image (`loaded`), enhance it, prepare the classifier input,
        fetch the classifier (`classifier`), predict (`scores`, the first row it returns) and build
        the record; any failure is re-raised behind "Prediction error: ". */
    method PredictDrGrade(loaded: Outcome<Picture>, weights: Outcome<()>, resampled: seq<byte>,
                          classifier: Outcome<()>, scores: Outcome<seq<real>>)
      returns (r: Outcome<PredictionResult>)
      requires loaded.Ok? ==> loaded.value.width >= 1 && loaded.value.height >= 1
      requires |resampled| == 224 * 224 * 3
      ensures loaded.Fail? ==> r == Fail(PredictionErrorPrefix + loaded.error)
      ensures loaded.Ok? && weights.Fail? ==> r == Fail(PredictionErrorPrefix + EnhanceErrorPrefix + weights.error)
      ensures loaded.Ok? && weights.Ok? && classifier.Fail? ==> r == Fail(PredictionErrorPrefix + classifier.error)
      ensures loaded.Ok? && weights.Ok? && classifier.Ok? && scores.Fail? ==> r == Fail(PredictionErrorPrefix + scores.error)
      ensures loaded.Ok? && weights.Ok? && classifier.Ok? && scores.Ok? ==>
                r == WithPrefix(AssembleResult(scores.value), PredictionErrorPrefix)
    {
      var attempt: Outcome<PredictionResult>;
      if loaded.Fail? {
        attempt := Fail(loaded.error);
      } else {
        var enhanced := EnhanceImage(loaded.value, weights);
        if enhanced.Fail? {
          attempt := Fail(enhanced.error);
        } else {
          var input := ClassifierInput(enhanced.value, resampled);
          if classifier.Fail? {
            attempt := Fail(classifier.error);
          } else if scores.Fail? {
            attempt := Fail(scores.error);
          } else {
            attempt := AssembleResult(scores.value);
          }
        }
      }
      r := WithPrefix(attempt, PredictionErrorPrefix);
    }
  }
}
