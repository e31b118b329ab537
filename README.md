# Image quality service: decision logic

A Dafny model of the decision logic of a small image web service that scores
an uploaded photo and transforms it. Three pieces are modelled:

- **`ImageProcessor`** (`wrappers.dfy`, `image_processor.dfy`): the
  `ImageAnalyzer` helpers. `read_image` is modelled over an abstract decoder
  that may yield an image, yield nothing, or raise. The blur, brightness
  and contrast scores are linear rescalings of a statistic the image library computes. The
  statistic is taken as an input with the range the library guarantees:
  Laplacian variance at least 0, mean grey level in [0, 255], standard
  deviation at least 0. `get_quality_rating` sorts the average of the three
  scores into Excellent, Good, Fair or Poor. All scores are exact `real`s.
- **`Analysis`** (`analysis.dfy`): `generate_recommendations`. The advice is
  specified as an ordered table of four rules (blurry, dark, bright, low
  contrast) whose messages are kept when the rule fires, with a "good"
  fallback. The method `GenerateRecommendations` builds the list by
  appending, as the source does, and is proved to give the table's answer.
- **`Transformations`** (`transformations.dfy`): the `/resize` and `/crop`
  handlers. Modelled are the Python-truthiness guards on the query
  parameters and the choice of resize mode. Also modelled are the reply's
  sizes, region, file name and download URL, and the mapping of
  exceptions to HTTP 400 and 500. The decoder, the resize and crop
  operations, the image writer, the generated file id and the clock are
  parameters. A handler returns the effects it performed (reading the
  upload, writing a file) with its reply. This is how the model states that
  a refused request never reads the upload.

Facts about the code that the model keeps as written:

- The `/resize` guard only checks which parameters are truthy. Zero counts
  as absent, and negative values pass (`NegativeParametersAccepted`).
- The `/crop` handler checks no bounds. The region is handed to the crop
  operation, which is a parameter here.
- The messages are the code's exact strings.

## Model

| member | source | states |
|---|---|---|
| ImageProcessor.ReadImage | src/core/image_processor.py:9-15 | succeeds exactly when the decoder yields an image, and returns it unchanged; no image is ValueError("Invalid image format"); an exception the decoder raises passes through unchanged |
| ImageProcessor.BlurScore | src/core/image_processor.py:18-23 | for a variance of at least 0 the score lies in [0, 100], is 100 exactly when the variance is at least 500, and is 0 for a variance of 0 |
| ImageProcessor.BlurScoreMonotone | src/core/image_processor.py:22 | a larger variance never lowers the score, and below the cap it strictly raises it |
| ImageProcessor.Brightness | src/core/image_processor.py:26-30 | for a mean in [0, 255] the score lies in [0, 100], with 0 only for mean 0 and 100 only for mean 255 |
| ImageProcessor.BrightnessStrictlyIncreasing | src/core/image_processor.py:30 | brightness is strictly increasing in the mean grey level |
| ImageProcessor.UniformImageBrightness | tests/test_analyzer.py:45-53 | a uniform 200 scores above 50, a uniform 50 below 50, and the neutral grey 128 between 50 and 50.2 |
| ImageProcessor.Contrast | src/core/image_processor.py:41-45 | for a deviation of at least 0 the score is at least 0, is 0 only for deviation 0, and exceeds 100 exactly when the deviation exceeds 128 (no clamp) |
| ImageProcessor.ContrastNotClamped | src/core/image_processor.py:45 | some admissible deviation gives a contrast score above 100 |
| ImageProcessor.HighContrastFixture | tests/test_analyzer.py:61-64 | the test image with a 50x50 white block on a 100x100 black background (a quarter white, three quarters black), whose deviation squared is 0.1875 x 255 x 255, scores above 50 |
| ImageProcessor.QualityRating | src/core/image_processor.py:66-76 | Excellent iff the average is at least 70, Good iff it is in [50, 70), Fair iff in [30, 50), Poor iff below 30 |
| ImageProcessor.LabelInjective | src/core/image_processor.py:69-76 | the four returned strings are distinct, so the string determines the band |
| ImageProcessor.RatingMonotone | src/core/image_processor.py:66-76 | raising any of the three scores never gives a worse band |
| ImageProcessor.RatingDependsOnSum | src/core/image_processor.py:68 | two score triples with the same sum get the same band |
| ImageProcessor.RatingExamples | tests/test_analyzer.py:78-96 | (80,80,80), (60,60,60), (40,40,40), (20,20,20) give Excellent, Good, Fair, Poor; the analysis endpoint's placeholders (70,55,40) give Good |
| Analysis.Recommendations | src/routers/analysis.py:31-42 | the advice is never empty, holds at most one message per rule, and each message is the "good" message or a rule's message |
| Analysis.Warnings | src/routers/analysis.py:31-40 | the warnings number at most the rules, and each is the message of some rule |
| Analysis.WarningsOfRules | src/routers/analysis.py:33-40 | the rule table yields the blur, dark, bright and contrast messages in that order, each exactly when its threshold is crossed |
| Analysis.GenerateRecommendations | src/routers/analysis.py:18-42 | appending step by step gives exactly the rule table's advice, of length 1 to 3 |
| Analysis.RecommendationsLength | src/routers/analysis.py:42 | the advice is never empty and has at most three messages |
| Analysis.GoodIffNoProblem | src/routers/analysis.py:33-42 | the advice is exactly ["Image quality is good!"] iff blur >= 40, 30 <= brightness <= 80 and contrast >= 20 |
| Analysis.GoodIsAlone | src/routers/analysis.py:42 | the "good" message never appears beside a warning |
| Analysis.BlurMessageFirst | src/routers/analysis.py:33-34 | the blur message is present iff blur < 40, and then it comes first |
| Analysis.BrightnessMessagesExclusive | src/routers/analysis.py:35-38 | "too dark" iff brightness < 30, "too bright" iff brightness > 80, never both |
| Analysis.ContrastMessageLast | src/routers/analysis.py:39-40 | the contrast message is present iff contrast < 20, and then it comes last |
| Analysis.RecommendationExamples | src/routers/analysis.py:58-73 | (30,20,10) gives the blur, dark and contrast messages in that order; the placeholders (70,55,40) give only the "good" message |
| Transformations.Truthy | src/routers/transformations.py:10-14 | `None` and `0` are falsy, and a truthy parameter has a value |
| Transformations.ResizeGuard | src/routers/transformations.py:10-14 | passes exactly when the percentage alone is truthy or width and height are both truthy without it; otherwise the "not both" or the "both width and height" ValueError |
| Transformations.GuardDependsOnlyOnTruthiness | src/routers/transformations.py:10-14 | the guard's verdict depends only on which parameters are truthy |
| Transformations.NegativeParametersAccepted | src/routers/transformations.py:10-14 | negative width and height, or a negative percentage alone, pass the guard |
| Transformations.ZeroIsAbsent | src/routers/transformations.py:10-14 | 0 counts as absent: zero dimensions beside a percentage pass, a zero width alone is refused |
| Transformations.ResizeModeOf | src/routers/transformations.py:19-24 | after the guard, percentage mode exactly when the percentage is truthy; otherwise width and height are truthy and requested as given |
| Transformations.ToHttpError | src/routers/transformations.py:39-43 | a ValueError becomes 400 with its message; any other exception becomes 500 with the fixed detail |
| Transformations.ServerErrorHidesDetail | src/routers/transformations.py:41-43 | two different non-ValueError exceptions give the same 500 reply |
| Transformations.OutputPath | src/routers/transformations.py:26-28 | the written path starts with the upload directory `uploads/` and ends with `{file_id}_{operation}.jpg` |
| Transformations.DownloadUrl | src/routers/transformations.py:36 | the download URL starts with `/download/` and ends with the same `{file_id}_{operation}.jpg` as the written path |
| Transformations.Resize | src/routers/transformations.py:1-43 | a refused request is a 400 with its guard message and no effect; a decode failure is mapped after the read, "Invalid image format" being a 400; otherwise the one resize operation the mode selects decides: its exception is mapped by ToHttpError, its success leads to the write of `uploads/{id}_resized.jpg`; a raising write is mapped by ToHttpError, and a successful one gives the reply with the original size, the requested size (or the resized image's in percentage mode) and the download URL |
| Transformations.Crop | src/routers/transformations.py:46-78 | the upload is read first; a decode failure is mapped, "Invalid image format" being a 400; the crop operation's exception is mapped by ToHttpError; after a crop the handler writes `uploads/{id}_cropped.jpg`; a raising write is mapped by ToHttpError, and a successful one gives the reply echoing (x, y, width, height) as the crop region, with the original and cropped sizes and the download URL |
| Transformations.RefusedResizeIgnoresUpload | src/routers/transformations.py:10-16 | a request the guard refuses gets the same reply whatever is uploaded and whatever the image operations do, and never reads the upload |
| Transformations.CropEchoesRegion | src/routers/transformations.py:68 | a successful crop reports exactly the requested (x, y, width, height) as its crop region |
| Transformations.StubResizeTo | src/core/image_processor.py:81-84 | the width/height resize always raises a non-ValueError exception |
| Transformations.StubResizeByPercentage | src/core/image_processor.py:86-89 | the percentage resize always raises a non-ValueError exception |
| Transformations.ResizeWithStubsNeverSucceeds | src/core/image_processor.py:81-89 | with those resize operations no request succeeds or writes a file; one that passes the guard with a decodable upload gets 500 "Image resize failed" |

## Left out

- Pixel data and the image library: decoding, grey-scale conversion, the Laplacian filter, mean, standard deviation, `count_objects` (thresholding and contour tracing) and the whole of `enhance_image`. These are calls into a foreign library. The decoder and the resize and crop operations are parameters. Each statistic is an input limited to the range the library guarantees.
- ImageProcessor.BlurScore: the score before `round(..., 2)`. The same holds for ImageProcessor.Brightness and ImageProcessor.Contrast. Floating-point arithmetic and half-even rounding are not modelled. At a band boundary, the source's float average may fall on the other side from the exact one used by ImageProcessor.QualityRating.
- ImageProcessor.BlurScore: at the cap, `min(100, ...)` returns the integer `100`, and `round` keeps it an integer, although the function is annotated as returning a float. The model has only reals, so that score is the real 100.
- ImageProcessor.Image: records only the shape (height, width). The replies use only the shape.
- The crop operation that the `/crop` handler calls is not part of this model. It does not appear among the image helpers, so it is a parameter that may fail.
- HTTP routing, the async upload read, `cv2.imwrite`'s boolean result, `uuid4`, `datetime.now`, and logging. The upload bytes, the file id and the timestamp are parameters. The write is an operation that may raise.
- FastAPI's own 422 reply for a non-integer or missing query parameter.
- The `/analyze` endpoint beyond its placeholder metrics. Its body is hard-coded values around `generate_recommendations`. The application setup (CORS, upload directory creation, health endpoints) is also left out. The upload directory name `uploads` comes from `main.py:11`. The transformation router imports nothing at all: `app`, `Query`, `ImageAnalyzer`, `uuid`, `cv2`, `datetime`, `logger`, `HTTPException` and `UPLOAD_DIR` are unbound in that file, and `main.py:35` and `main.py:50` include only the analysis router. The model assumes these names resolve to the obvious objects.
