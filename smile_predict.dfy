/** ml_model/predict.py: preparing a photo for the happy/sad MobileNetV2 model
    and reading its sigmoid output. PIL decoding and resizing and the TFLite
    interpreter are foreign: the resized pixels (or the exception) and the
    model's score for a tensor are inputs. Arithmetic is exact (no float32
    rounding). */
module SmilePredict {
  import opened Common

  /** predict.py:8-9 */
  const ImgHeight: nat := 224
  const ImgWidth: nat := 224
  /** predict.py:13: index 0 is 'happy', index 1 is 'sad'. */
  const ClassNames: seq<string> := ["happy", "sad"]

  type Byte = x: int | 0 <= x < 256

  /** One pixel after `convert('RGB')`. */
  datatype Rgb = Rgb(r: Byte, g: Byte, b: Byte)

  /** `Image.open(...).convert('RGB').resize(...)`: rows of pixels, or an
      exception (a missing file or any other error). */
  datatype ImageLoad = Resized(pixels: seq<seq<Rgb>>) | LoadFailed

  /** A NumPy array of rank 4: batch, height, width, channel. */
  type Tensor = seq<seq<seq<seq<real>>>>

  /** predict.py:22, the MobileNetV2 input scaling. */
  function Normalize(x: Byte): (y: real)
    ensures -1.0 <= y <= 1.0
  {
    x as real / 127.5 - 1.0
  }

  lemma NormalizeEndpoints()
    ensures Normalize(0) == -1.0 && Normalize(255) == 1.0
  {
  }

  lemma NormalizeStrictlyIncreasing(x: Byte, y: Byte)
    requires x < y
    ensures Normalize(x) < Normalize(y)
  {
  }

  function NormalizePixel(p: Rgb): (c: seq<real>)
  {
    [Normalize(p.r), Normalize(p.g), Normalize(p.b)]
  }

  /** The size `resize((IMG_WIDTH, IMG_HEIGHT))` produces. */
  predicate IsResized(pixels: seq<seq<Rgb>>)
  {
    |pixels| == ImgHeight && forall y :: 0 <= y < |pixels| ==> |pixels[y]| == ImgWidth
  }

  /** `t` has shape [b, h, w, c]. */
  predicate HasShape(t: Tensor, b: nat, h: nat, w: nat, c: nat)
  {
    && |t| == b
    && forall i :: 0 <= i < |t| ==>
         && |t[i]| == h
         && forall y :: 0 <= y < h ==>
              && |t[i][y]| == w
              && forall x :: 0 <= x < w ==> |t[i][y][x]| == c
  }

  /** `preprocess_image` (predict.py:15-31): None on any error, otherwise
      the normalised pixels under a leading batch dimension of 1. */
  function PreprocessImage(image: ImageLoad): (r: Option<Tensor>)
    ensures r.Some? <==> image.Resized?
    ensures r.Some? ==>
      && |r.value| == 1 && |r.value[0]| == |image.pixels|
      && forall y :: 0 <= y < |image.pixels| ==>
           && |r.value[0][y]| == |image.pixels[y]|
           && forall x :: 0 <= x < |image.pixels[y]| ==>
                && |r.value[0][y][x]| == 3
                && r.value[0][y][x][0] == Normalize(image.pixels[y][x].r)
                && r.value[0][y][x][1] == Normalize(image.pixels[y][x].g)
                && r.value[0][y][x][2] == Normalize(image.pixels[y][x].b)
  {
    match image
    case LoadFailed => None
    case Resized(pixels) =>
      var imgArray := seq(|pixels|, y requires 0 <= y < |pixels| =>
                        seq(|pixels[y]|, x requires 0 <= x < |pixels[y]| => NormalizePixel(pixels[y][x])));
      Some([imgArray])
  }

  /** A resized image becomes a [1, 224, 224, 3] tensor with every entry in [-1, 1]. */
  lemma PreprocessShape(pixels: seq<seq<Rgb>>)
    requires IsResized(pixels)
    ensures var t := PreprocessImage(Resized(pixels)).value;
      && HasShape(t, 1, ImgHeight, ImgWidth, 3)
      && forall y, x, c :: 0 <= y < ImgHeight && 0 <= x < ImgWidth && 0 <= c < 3 ==>
           -1.0 <= t[0][y][x][c] <= 1.0
  {
    var t := PreprocessImage(Resized(pixels)).value;
    forall y, x, c | 0 <= y < ImgHeight && 0 <= x < ImgWidth && 0 <= c < 3
      ensures -1.0 <= t[0][y][x][c] <= 1.0
    {
      assert t[0][y][x] == NormalizePixel(pixels[y][x]);
    }
  }

  datatype Prediction = Prediction(classIndex: nat, className: string, confidence: real, rawScore: real)

  function Max(a: real, b: real): real
  {
    if a >= b then a else b
  }

  /** predict.py:73-75: 'sad' (index 1) from 0.5 upwards, 'happy' below; the
      confidence is the score of the class reported, which is never below the
      other class's score. */
  function Classify(prediction: real): (p: Prediction)
    ensures p.classIndex == 1 <==> prediction >= 0.5
    ensures p.classIndex < |ClassNames| && p.className == ClassNames[p.classIndex]
    ensures p.confidence == (if p.classIndex == 1 then prediction else 1.0 - prediction)
    ensures p.confidence == Max(prediction, 1.0 - prediction)
    ensures 0.0 <= prediction <= 1.0 ==> 0.5 <= p.confidence <= 1.0
    ensures p.rawScore == prediction
  {
    var predictedClassIndex := if prediction >= 0.5 then 1 else 0;
    var confidence := if predictedClassIndex == 1 then prediction else 1.0 - prediction;
    Prediction(predictedClassIndex, ClassNames[predictedClassIndex], confidence, prediction)
  }

  /** What `predict` ends with: an early return after one of its error
      messages, or the printed classification. */
  datatype PredictOutcome = ModelNotFound | ModelLoadError | ImageError | Predicted(prediction: Prediction)

  /** `predict` (predict.py:33-80). `modelExists` is `os.path.exists(MODEL_PATH)`,
      `interpreterLoads` whether creating the interpreter and allocating its
      tensors succeeds, and `invoke` the model's output score `[0][0]` for an
      input tensor. */
  method Predict(modelExists: bool, interpreterLoads: bool, image: ImageLoad, invoke: Tensor -> real)
    returns (outcome: PredictOutcome)
    ensures !modelExists ==> outcome == ModelNotFound
    ensures modelExists && !interpreterLoads ==> outcome == ModelLoadError
    ensures modelExists && interpreterLoads && image.LoadFailed? ==> outcome == ImageError
    ensures modelExists && interpreterLoads && image.Resized? ==>
      outcome == Predicted(Classify(invoke(PreprocessImage(image).value)))
  {
    if !modelExists {
      return ModelNotFound;
    }
    if !interpreterLoads {
      return ModelLoadError;
    }
    var inputData := PreprocessImage(image);
    if inputData.None? {
      return ImageError;
    }
    var prediction := invoke(inputData.value);
    return Predicted(Classify(prediction));
  }
}
