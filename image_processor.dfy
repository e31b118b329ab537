/** The `ImageAnalyzer` helpers of the image service: decoding an upload,
    rescaling the statistics the image library reports into scores, and
    sorting the average score into a quality band.

    The library itself (decoding, grey-scale conversion, the Laplacian
    filter, mean and standard deviation) is not modelled: a decoder is a
    parameter and each statistic is an input whose range the library
    guarantees. Scores are exact reals, taken before rounding. */
module ImageProcessor {
  import opened Wrappers

  /** A decoded pixel grid, by its shape. The pixel values are not modelled:
      nothing downstream of the decoder inspects them in the modelled code. */
  datatype Image = Image(height: nat, width: nat)

  /** What the image library's decoder does with the upload's bytes: it
      yields an image, yields nothing (bytes that are not a supported raster
      format), or raises (an empty buffer, for one). */
  datatype Decoding = Decoded(image: Image) | NotAnImage | DecoderRaised(error: Exception)

  /** An abstract decoder. */
  type Decoder = seq<bv8> -> Decoding

  const InvalidImageFormat: string := "Invalid image format"

  /** `read_image`: decode the upload; no image is a ValueError, and an
      exception the decoder raises passes through unchanged. */
  function ReadImage(decode: Decoder, content: seq<bv8>): (r: Result<Image, Exception>)
    ensures r.Success? <==> decode(content).Decoded?
    ensures r.Success? ==> r.value == decode(content).image
    ensures decode(content).NotAnImage? ==> r == Failure(ValueError(InvalidImageFormat))
    ensures decode(content).DecoderRaised? ==> r == Failure(decode(content).error)
  {
    match decode(content)
    case NotAnImage => Failure(ValueError(InvalidImageFormat))
    case DecoderRaised(e) => Failure(e)
    case Decoded(image) => Success(image)
  }

  // ---------------------------------------------------------------------
  // Rescaling of library statistics
  // ---------------------------------------------------------------------

  /** Laplacian variance at and above which an image counts as fully sharp. */
  const SharpVariance: real := 500.0

  /** `calculate_blur_score`, unrounded: the Laplacian variance as a
      percentage of 500, capped at 100 by `min(100, ...)`. */
  function BlurScore(laplacianVariance: real): (score: real)
    requires laplacianVariance >= 0.0
    ensures 0.0 <= score <= 100.0
    ensures score == 100.0 <==> laplacianVariance >= SharpVariance
    ensures laplacianVariance == 0.0 ==> score == 0.0
  {
    var scaled := laplacianVariance / SharpVariance * 100.0;
    // Python's min(100, x) returns its first argument unless x is smaller.
    if scaled < 100.0 then scaled else 100.0
  }

  /** A sharper image (larger Laplacian variance) never scores lower, and
      below the cap it scores strictly higher. */
  lemma BlurScoreMonotone(v1: real, v2: real)
    requires 0.0 <= v1 <= v2
    ensures BlurScore(v1) <= BlurScore(v2)
    ensures v1 < v2 && v1 < SharpVariance ==> BlurScore(v1) < BlurScore(v2)
  {
  }

  /** `calculate_brightness`, unrounded: the mean grey level as a
      percentage of 255. */
  function Brightness(meanLuminance: real): (score: real)
    requires 0.0 <= meanLuminance <= 255.0
    ensures 0.0 <= score <= 100.0
    ensures score == 0.0 <==> meanLuminance == 0.0
    ensures score == 100.0 <==> meanLuminance == 255.0
  {
    meanLuminance / 255.0 * 100.0
  }

  /** Brightness is strictly increasing in the mean grey level. */
  lemma BrightnessStrictlyIncreasing(m1: real, m2: real)
    requires 0.0 <= m1 < m2 <= 255.0
    ensures Brightness(m1) < Brightness(m2)
  {
  }

  /** The test images are uniform, so their mean grey level is their single
      value: 200 reads as bright, 50 as dark, and the neutral grey 128 sits
      just above the middle. */
  lemma UniformImageBrightness()
    ensures Brightness(200.0) > 50.0
    ensures Brightness(50.0) < 50.0
    ensures 50.0 < Brightness(128.0) < 50.2
  {
  }

  /** `calculate_contrast`, unrounded: the grey-level standard deviation as
      a percentage of 128. There is no cap: a deviation above 128 scores
      above 100. */
  function Contrast(stdDeviation: real): (score: real)
    requires stdDeviation >= 0.0
    ensures score >= 0.0
    ensures score > 100.0 <==> stdDeviation > 128.0
    ensures score == 0.0 <==> stdDeviation == 0.0
  {
    stdDeviation / 128.0 * 100.0
  }

  /** The contrast score is not clamped: some admissible deviation scores
      above 100. */
  lemma ContrastNotClamped()
    ensures exists s: real :: s >= 0.0 && Contrast(s) > 100.0
  {
    assert Contrast(256.0) == 200.0;
  }

  /** Squaring is monotone on non-negative reals; used by
      `HighContrastFixture`. */
  lemma SquareMonotone(a: real, b: real)
    requires 0.0 <= a <= b
    ensures a * a <= b * b
  {
    assert a * a <= a * b;
  }

  /** The high-contrast fixture (a 50x50 white block on a 100x100 black
      image) has standard deviation s with s*s = 0.25*0.75*255*255; its
      contrast score exceeds 50. */
  lemma HighContrastFixture(s: real)
    requires s >= 0.0 && s * s == 0.25 * 0.75 * 255.0 * 255.0
    ensures Contrast(s) > 50.0
  {
    // s exceeds 64, the deviation at which the score is exactly 50
    if s <= 64.0 {
      // then s * s <= 64 * 64 = 4096, below the fixture's variance
      SquareMonotone(s, 64.0);
      assert false;
    }
  }

  // ---------------------------------------------------------------------
  // Quality rating
  // ---------------------------------------------------------------------

  datatype Rating = Excellent | Good | Fair | Poor

  /** The string `get_quality_rating` returns for each band. */
  function Label(r: Rating): string
  {
    match r
    case Excellent => "Excellent"
    case Good => "Good"
    case Fair => "Fair"
    case Poor => "Poor"
  }

  /** Bands ordered from worst (0) to best (3). */
  function Rank(r: Rating): nat
  {
    match r
    case Poor => 0
    case Fair => 1
    case Good => 2
    case Excellent => 3
  }

  function Average(blur: real, brightness: real, contrast: real): real
  {
    (blur + brightness + contrast) / 3.0
  }

  /** `get_quality_rating`: the band of the average score, with inclusive
      lower thresholds 70, 50 and 30 tried from the highest down. */
  function QualityRating(blur: real, brightness: real, contrast: real): (r: Rating)
    ensures r == Excellent <==> Average(blur, brightness, contrast) >= 70.0
    ensures r == Good <==> 50.0 <= Average(blur, brightness, contrast) < 70.0
    ensures r == Fair <==> 30.0 <= Average(blur, brightness, contrast) < 50.0
    ensures r == Poor <==> Average(blur, brightness, contrast) < 30.0
  {
    var score := Average(blur, brightness, contrast);
    if score >= 70.0 then Excellent
    else if score >= 50.0 then Good
    else if score >= 30.0 then Fair
    else Poor
  }

  /** The four labels are distinct, so the string the source returns
      determines the band. */
  lemma LabelInjective(r1: Rating, r2: Rating)
    ensures Label(r1) == Label(r2) <==> r1 == r2
  {
    if r1 != r2 {
      assert Label(r1)[0] != Label(r2)[0];
    }
  }

  /** Raising any score never moves the rating to a worse band. */
  lemma RatingMonotone(b1: real, l1: real, c1: real, b2: real, l2: real, c2: real)
    requires b1 <= b2 && l1 <= l2 && c1 <= c2
    ensures Rank(QualityRating(b1, l1, c1)) <= Rank(QualityRating(b2, l2, c2))
  {
  }

  /** The rating depends on the three scores only through their sum. */
  lemma RatingDependsOnSum(b1: real, l1: real, c1: real, b2: real, l2: real, c2: real)
    requires b1 + l1 + c1 == b2 + l2 + c2
    ensures QualityRating(b1, l1, c1) == QualityRating(b2, l2, c2)
  {
  }

  /** The cases the test suite checks, and the placeholder metrics of the
      analysis endpoint (70, 55, 40), whose hard-coded rating "Good" is the
      one the rule gives. */
  lemma RatingExamples()
    ensures Label(QualityRating(80.0, 80.0, 80.0)) == "Excellent"
    ensures Label(QualityRating(60.0, 60.0, 60.0)) == "Good"
    ensures Label(QualityRating(40.0, 40.0, 40.0)) == "Fair"
    ensures Label(QualityRating(20.0, 20.0, 20.0)) == "Poor"
    ensures Label(QualityRating(70.0, 55.0, 40.0)) == "Good"
  {
  }
}
