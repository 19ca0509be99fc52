# TravelGameApp proof-of-visit, as a Dafny model

TravelGameApp is a React Native quest game. A player picks a city, walks to
its landmarks in order, and proves each visit with a photo. The photo counts
when the GPS position in its Exif block is close enough to the landmark. The
quest ends with a selfie, which is scored by a happy/sad classifier.

This project models the decision logic around the app's foreign calls:

- **Exif geotag decoding** (`Exif`). The GPS IFD's degrees/minutes/seconds
  RATIONALs and N/S, E/W reference tags become signed decimal degrees. The
  format is Exif 2.3 (JEITA CP-3451), section 4.6.6. The model also uses
  JavaScript's null/failure rules. JavaScript numbers are `Common.Number`: a
  finite real, or NaN/Infinity. So a zero denominator is modelled, not ruled
  out by a precondition.
- **The proof-of-visit decision** (`PhotoCheck.Verdict`). Both screens write
  it out inline. `CityView.CityScreen` uses a 0.1 km threshold and updates
  the `visitedLandmarks` and `selectedImageInfo` dictionaries.
  `LandmarkView.LandmarkScreen` uses a 0.5 km threshold and updates the
  `isVisited` flag and its stored string.
- **Quest progression** (`CityIntro`, `LandmarkView.NextAction`,
  `QuestFlow`). The quest starts at index 0 and steps forward one landmark at
  a time, then reaches QuestComplete.
- **The selfie screen's state machine** (`QuestComplete.QuestCompleteScreen`).
  It covers the permission gate, the camera, the analysis states
  `idle → analyzing → success | error`, and when Finish is enabled.
- **predict.py's mapping** (`SmilePredict`). This is the pixel normalisation,
  the batch shape, the sigmoid-to-class mapping and the early exits.
- **metro.config.js** (`MetroConfig`). These are the guarded appends to the
  resolver's extension lists.

Foreign calls are inputs of the operations, and their effects are state:

- The file read with `piexif.load` is an `Exif.ExifRead`.
- `calculateDistance` returns an `Option<Number>`.
- Picker and camera results are inputs.
- A storage write's success is `saveOk`.
- A storage read's failure is `readFails`.
- AsyncStorage is a `store` map field on each screen.
- Navigation is the `Places.NavAction` value a handler issues.

Each handler is one atomic step. The exception is `triggerAnalysis`, which is
split at its `await` into `StartAnalysis` and `CompleteAnalysis`.

Some facts about the app that shape the model:

- The app has no sharded-model assembler and no model cache.
- The screens record a status string (`error`/`warning`/`success`/`failed`),
  not a verdict carrying metres.
- `predict` prints its result and returns nothing, so `SmilePredict.Predict`
  returns what it prints.

## Model

| member | source | states |
|---|---|---|
| Exif.DmsToDecimal | TravelGameApp/src/utils/exifUtils.js:31-32 | a DMS triple in JavaScript arithmetic is finite exactly when all three denominators are nonzero, and then equals d0/d1 + (m0/m1)/60 + (s0/s1)/3600 exactly, which is never negative |
| Exif.HasAllGpsTags | TravelGameApp/src/utils/exifUtils.js:24 | JavaScript truthiness of the four tags: an empty reference string counts as missing, an empty coordinate list does not |
| Exif.ApplyRef | TravelGameApp/src/utils/exifUtils.js:35-36 | the magnitude is negated exactly under the given hemisphere letter, and NaN/Infinity stay non-finite |
| Exif.GetExifData | TravelGameApp/src/utils/exifUtils.js:4-48 | a read/parse failure gives null; for a parsed block, null exactly when all four tags are present and a coordinate list is too short to index (the caught TypeError); latitude and longitude are both null or both numbers, numbers exactly when the GPS IFD has all four tags; dateTimeOriginal is passed through either way |
| Exif.DecimalDegreesExact | TravelGameApp/src/utils/exifUtils.js:24-36 | with all four tags and nonzero denominators, latitude and longitude are the exact decimal degrees, negated only for 'S' and 'W' respectively |
| Exif.ZeroDenominatorNotNull | TravelGameApp/src/utils/exifUtils.js:31-32 | a zero denominator gives a non-null, non-finite latitude (NaN/Infinity), not null |
| Exif.MissingTagGivesNoCoordinates | TravelGameApp/src/utils/exifUtils.js:21-24 | no GPS IFD, or any one of the four tags missing, gives latitude = longitude = null with the time kept |
| Exif.HemisphereSign | TravelGameApp/src/utils/exifUtils.js:35-36 | a finite latitude is <= 0 under 'S' and >= 0 under any other reference; the same holds for longitude with 'W' |
| Exif.LatitudeIndependentOfLongitude | TravelGameApp/src/utils/exifUtils.js:31-35 | the latitude depends only on GPSLatitude and GPSLatitudeRef, not on the longitude tags or the time |
| Exif.EncodeDmsRoundTrip | TravelGameApp/src/utils/exifUtils.js:31-32 | encoding any non-negative rational n/d as whole degrees, whole minutes and rational seconds, then converting back, gives exactly n/d |
| Exif.CoordinateRoundTrip | TravelGameApp/src/utils/exifUtils.js:31-36 | a signed coordinate encoded as magnitude plus hemisphere letter decodes to itself |
| Exif.GpsRoundTrip | TravelGameApp/src/utils/exifUtils.js:24-43 | a GPS IFD written from signed coordinates decodes, through getExifData, back to those exact coordinates and the same time |
| PhotoCheck.Verdict | TravelGameApp/src/screens/CityScreen.js:104-149 | the decision table both screens write out (LandmarkScreen.js:76-99 too): error exactly when there is no Exif result, and success only for a finite distance within the threshold |
| PhotoCheck.HasAsset | TravelGameApp/src/screens/CityScreen.js:96 | the picker guard (also LandmarkScreen.js:73, QuestCompleteScreen.js:79): a cancelled pick is never used, and a used one has a first asset |
| PhotoCheck.VerdictCases | TravelGameApp/src/screens/CityScreen.js:104-149 | each status in its own terms: error iff no Exif; warning iff a null coordinate or a null distance; success iff both coordinates and a finite distance <= threshold (inclusive); failed iff a distance that is not <= threshold |
| PhotoCheck.VerdictOnPhotos | TravelGameApp/src/screens/LandmarkScreen.js:75-99 | an unreadable photo gives error; a readable photo missing any GPS tag gives warning, whatever the distance |
| PhotoCheck.VerdictMonotone | TravelGameApp/src/screens/CityScreen.js:125 | a success under a threshold stays a success under any larger threshold |
| CityView.VisitedStorageKey | TravelGameApp/src/screens/CityScreen.js:39 | the key is '@visitedLandmarks_' followed by the city id |
| CityView.VisitedStorageKeyInjective | TravelGameApp/src/screens/CityScreen.js:39 | different cities never share a visited dictionary |
| CityView.CityScreen.LoadVisited | TravelGameApp/src/screens/CityScreen.js:43-52 | a stored dictionary replaces visitedLandmarks; a missing key or a read/parse error leaves it unchanged |
| CityView.CityScreen.PickImage | TravelGameApp/src/screens/CityScreen.js:73-156 | an already-visited landmark or an empty/cancelled pick changes no state; otherwise the status is Verdict at 0.1 km and is recorded under this landmark only; only success sets visitedLandmarks[id] = true (other keys untouched) and persists the new dictionary when the write succeeds; visited landmarks stay visited |
| CityIntro.Landmarks | TravelGameApp/src/screens/CityIntroScreen.js:22 | a missing landmark list is the empty list |
| CityIntro.InitialRegion | TravelGameApp/src/screens/CityIntroScreen.js:24-29 | a region exists exactly when there are landmarks, and it is then centred on the first one |
| CityIntro.StartQuest | TravelGameApp/src/screens/CityIntroScreen.js:31-42 | navigation happens exactly when there are landmarks, to Landmark with index 0, the full list and the city's id (index in range); otherwise only the alert |
| LandmarkView.StatusStorageKey | TravelGameApp/src/screens/LandmarkScreen.js:35 | the key is '@visitedStatus_' followed by the city id, '_' and the landmark id |
| LandmarkView.StoredFlag | TravelGameApp/src/screens/LandmarkScreen.js:55 | `String(status)` is 'true' exactly for true, which is what loading compares against |
| LandmarkView.StatusStorageKeyCollision | TravelGameApp/src/screens/LandmarkScreen.js:35 | city 'a_b' with landmark 'c' and city 'a' with landmark 'b_c' share one storage key |
| LandmarkView.StatusStorageKeyInjective | TravelGameApp/src/screens/LandmarkScreen.js:35 | when city ids contain no '_', equal keys mean the same city and the same landmark |
| LandmarkView.NextAction | TravelGameApp/src/screens/LandmarkScreen.js:108-121 | it pushes exactly when currentIndex+1 is in range, to the next index with the same list and city (still in range); otherwise it replaces the screen with QuestComplete carrying cityId |
| LandmarkView.NextButtonLabel | TravelGameApp/src/screens/LandmarkScreen.js:173 | the label is 'Next Landmark' or 'Finish Quest', and 'Finish Quest' exactly on the last landmark |
| LandmarkView.NextLabelMatchesAction | TravelGameApp/src/screens/LandmarkScreen.js:173 | the label is 'Next Landmark' exactly when Next pushes another landmark, and 'Finish Quest' exactly when it goes to QuestComplete |
| LandmarkView.ActionButtons | TravelGameApp/src/screens/LandmarkScreen.js:151-176 | exactly one action button is shown: Validate when not visited, Next when visited |
| LandmarkView.LandmarkScreen.LoadVisitedStatus | TravelGameApp/src/screens/LandmarkScreen.js:39-48 | imageInfo is reset to null; isVisited holds exactly when the read succeeds and the stored string is 'true' |
| LandmarkView.LandmarkScreen.PickAndValidateImage | TravelGameApp/src/screens/LandmarkScreen.js:68-106 | no change when already visited or nothing was picked; otherwise imageInfo records Verdict at 0.5 km; isVisited becomes true exactly on success, and 'true' is stored under the landmark's key when the write succeeds |
| LandmarkView.SaveThenReload | TravelGameApp/src/screens/LandmarkScreen.js:40-59 | a successful, saved validation is read back as visited when the same landmark's screen mounts again |
| QuestFlow.Trail | TravelGameApp/src/screens/LandmarkScreen.js:108-121 | pressing Next repeatedly from index i shows indices i+1, ..., n−1 in order, with the same list and city, and then QuestComplete for that city |
| QuestFlow.QuestVisitsEveryLandmark | TravelGameApp/src/screens/CityIntroScreen.js:31-42 | a started quest shows Landmark screens at indices 0..n−1 in order, each with 0 <= index < n, and then QuestComplete right after index n−1 |
| QuestComplete.CompletionStorageKey | TravelGameApp/src/screens/QuestCompleteScreen.js:133 | the key is '@questCompletion_' + cityId, and 'undefined' takes the id's place when the route has none |
| QuestComplete.CompletionStorageKeyInjective | TravelGameApp/src/screens/QuestCompleteScreen.js:133 | different city ids never share a completion record |
| QuestComplete.MissingCityIdSharesKey | TravelGameApp/src/screens/QuestCompleteScreen.js:133 | a route without cityId stores under the same key as a city whose id is 'undefined' |
| QuestComplete.QuestCompleteScreen.ReceivePermission | TravelGameApp/src/screens/QuestCompleteScreen.js:41-44 | hasPermission becomes whether the status is 'granted'; nothing else changes |
| QuestComplete.QuestCompleteScreen.ShowCamera | TravelGameApp/src/screens/QuestCompleteScreen.js:59-69 | reachable, like its Take Selfie button (165-175), only while there is no selfie; the camera opens only when permission is known and granted; a pending or denied permission changes nothing |
| QuestComplete.QuestCompleteScreen.CloseCamera | TravelGameApp/src/screens/QuestCompleteScreen.js:148 | from the camera view, the view closes; nothing else changes |
| QuestComplete.QuestCompleteScreen.StartAnalysis | TravelGameApp/src/screens/QuestCompleteScreen.js:100-103 | the state becomes 'analyzing' and the previous prediction is cleared |
| QuestComplete.QuestCompleteScreen.CompleteAnalysis | TravelGameApp/src/screens/QuestCompleteScreen.js:106-120 | on success the prediction is the returned value and the state is 'success'; on failure the prediction is null and the state is 'error'; it completes the one pending analysis, and the held prediction is recorded as computed for the URI that analysis was started on; the invariant "prediction present iff success" is kept |
| QuestComplete.QuestCompleteScreen.PickImageFromLibrary | TravelGameApp/src/screens/QuestCompleteScreen.js:72-83 | reachable, like its Upload button (165-183), only while there is no selfie; it acts only on a result that is not cancelled and has an asset; then assets[0] becomes the selfie and its analysis starts |
| QuestComplete.QuestCompleteScreen.TakePicture | TravelGameApp/src/screens/QuestCompleteScreen.js:85-98 | from the camera view (142-147); with a camera ref, the camera always closes; a captured photo becomes the selfie, and its analysis starts on that same URI; a failed capture changes nothing else |
| QuestComplete.QuestCompleteScreen.EditNotes | TravelGameApp/src/screens/QuestCompleteScreen.js:204-214 | reachable only while a selfie is shown; the notes become the typed text; nothing else changes |
| QuestComplete.QuestCompleteScreen.FinishEnabled | TravelGameApp/src/screens/QuestCompleteScreen.js:156-158 | Finish is enabled exactly in 'success' with a prediction present, and so never while analysing |
| QuestComplete.QuestCompleteScreen.Finish | TravelGameApp/src/screens/QuestCompleteScreen.js:123-140 | reachable only with a selfie and with Finish enabled (204-223); the record (notes, selfie, prediction, time) is stored under the city's completion key when the write succeeds, and it then carries a prediction computed for that selfie; the app pops to the top either way |
| QuestComplete.FinishEnabledMeansAnalysed | TravelGameApp/src/screens/QuestCompleteScreen.js:156-158 | under the screen invariant, Finish is enabled exactly after a successful analysis, and the prediction then held was computed for the selfie shown |
| SmilePredict.Normalize | ml_model/predict.py:22 | (x/127.5) − 1 maps every byte into [−1, 1] |
| SmilePredict.NormalizeEndpoints | ml_model/predict.py:22 | 0 maps to −1 and 255 maps to 1 |
| SmilePredict.NormalizeStrictlyIncreasing | ml_model/predict.py:22 | the normalisation is strictly increasing |
| SmilePredict.PreprocessImage | ml_model/predict.py:15-31 | any load error gives None; otherwise the result is one batch with each pixel's R, G and B normalised in place |
| SmilePredict.PreprocessShape | ml_model/predict.py:19-24 | a resized image becomes a tensor of shape [1, 224, 224, 3] with every entry in [−1, 1] |
| SmilePredict.Classify | ml_model/predict.py:73-75 | class 1 ('sad') exactly when the score is >= 0.5 (0.5 is sad), otherwise 0 ('happy'); confidence is the reported class's score, which equals max(p, 1−p) and lies in [0.5, 1] for p in [0, 1] |
| SmilePredict.Predict | ml_model/predict.py:33-80 | a missing model file is checked first, then the interpreter, then preprocessing, and each failure returns with no prediction; otherwise the result is Classify of the model's score for the preprocessed tensor |
| MetroConfig.WithExtension | TravelGameApp/metro.config.js:7-9 | the extension is present afterwards; existing entries keep their order; the list grows by one (the extension, at the end) exactly when it was absent |
| MetroConfig.WithExtensionKeepsNoDuplicates | TravelGameApp/metro.config.js:7-9 | a list without duplicates keeps none |
| MetroConfig.WithExtensionIdempotent | TravelGameApp/metro.config.js:7-9 | appending the same extension twice is the same as once |
| MetroConfig.ConfiguredAssetExts | TravelGameApp/metro.config.js:7-14 | 'tflite' and 'bin' are present; the old list is a prefix; each is appended only when absent (the exact length), and nothing else is added |
| MetroConfig.ConfiguredSourceExts | TravelGameApp/metro.config.js:17-19 | 'json' is present; the old list is a prefix; it is appended only when absent (the exact length), and nothing else is added |
| MetroConfig.TfliteBeforeBin | TravelGameApp/metro.config.js:8-13 | when both are absent, the result is the old list followed by 'tflite' and then 'bin' |
| MetroConfig.ConfigureIdempotent | TravelGameApp/metro.config.js:7-19 | running the configuration on its own output changes nothing |
| MetroConfig.ConfigureKeepsNoDuplicates | TravelGameApp/metro.config.js:7-19 | no duplicates are introduced in either list |
| MetroConfig.Resolver.Configure | TravelGameApp/metro.config.js:7-19 | the in-place pushes leave assetExts and sourceExts equal to the configured lists of their old values |

## Left out

- `calculateDistance` (src/utils/locationUtils.js) is left out. It is haversine trigonometry on doubles with no Dafny counterpart. Its result is an input of type `Option<Number>`, and null stands for its null guard.
- JavaScript and NumPy floating point are left out. Coordinates, distances, scores and pixels are exact reals, so double and float32 rounding is not modelled. NaN and the infinities are one value, `NonFinite`, because no comparison the app makes tells them apart.
- Exif.GetExifData: the coordinates are exact rationals. A JavaScript double would round d0/d1 + (m0/m1)/60 + (s0/s1)/3600.
- Exif.GetExifData: a RATIONAL is always a well-formed pair of unsigned integers. piexifjs cannot produce a one-element pair, so that case is not modelled.
- These foreign calls are inputs, not models: FileSystem reads, `piexif.load`, ImagePicker, the Camera, AsyncStorage, `Alert`/`alert`, navigation, PIL decode/resize and the TFLite interpreter.
- JSON encoding of stored values is not modelled. Each screen's store holds the typed value written. A parse failure on load counts as `readFails`.
- Presentation is not modelled: `infoText` and alert strings, `toFixed` formatting, styles, colours and map zoom deltas. `ImageInfo` keeps only the status.
- React scheduling is not modelled. Effects run when called, and handlers do not interleave. For example, CityScreen's `loadVisited` can race a pick, and the model does not capture that.
- CityScreen's own `initialRegion` (CityScreen.js:66-71) is not modelled separately. It follows the same rule as CityIntro.InitialRegion.
- QuestCompleteScreen's model pre-load (QuestCompleteScreen.js:48-55) is left out. Its only effect is an alert on failure.
- `livenessResult` is left out. It is never set, so it is always null in the stored record.
- SmilePredict.Predict: the dtype cast (predict.py:58-59) is a no-op on float32 and is not modelled.
- SmilePredict.Predict: an exception from `invoke` is not caught by the source and is not modelled. Printing is not modelled either.
- src/utils/mlUtils.js is left out. It is a random placeholder. `SmileData` is the shape the screen expects and renders (status, confidence, rawScore). It is not what the placeholder `analyzeSmile` returns, which is `{score, status}`.
- ml_model/train_model.py is left out. It is model training.
- HomeScreen, QuestSelectionScreen and AppNavigator are left out. They only pass parameters to navigation.
- QuestComplete.QuestCompleteScreen: each handler can be called only while the render shows its button. Take Selfie and Upload need no selfie (QuestCompleteScreen.js:165-183). Capture and close need the camera view (142-147). The notes input and Finish need a selfie, and Finish must also be enabled (204-223). A tap that lands before React re-renders is not modelled.
