/** src/screens/QuestCompleteScreen.js: taking or uploading the closing selfie,
    its analysis, and saving the quest record. Camera, image picker, the
    analysis call and AsyncStorage are foreign: their outcomes are inputs,
    and the store is the field `store`. Each handler is one atomic step,
    except `triggerAnalysis`, whose part before its `await` (StartAnalysis)
    and whose continuation (CompleteAnalysis) are two steps, so that the
    'analyzing' state between them is visible. */
module QuestComplete {
  import opened Common
  import opened Places
  import PhotoCheck

  datatype AnalysisState = Idle | Analyzing | Success | Error

  /** The shape the screen expects `analyzeSmile` to resolve with (it renders
      these three fields); the screen only stores it. */
  datatype SmileData = SmileData(status: string, confidence: real, rawScore: real)

  datatype AnalysisOutcome = Analyzed(data: SmileData) | AnalysisFailed

  datatype CaptureOutcome = Captured(uri: string) | CaptureFailed

  /** The object `handleFinish` stores. */
  datatype QuestRecord = QuestRecord(notes: string, selfieUri: Option<string>,
                                     smilePrediction: Option<SmileData>, completedAt: string)

  const CompletionKeyPrefix: string := "@questCompletion_"

  /** QuestCompleteScreen.js:133; a template literal renders a missing cityId
      as "undefined". */
  function CompletionStorageKey(cityId: Option<string>): (k: string)
    ensures cityId.Some? ==> k == CompletionKeyPrefix + cityId.value
    ensures cityId.None? ==> k == CompletionKeyPrefix + "undefined"
  {
    CompletionKeyPrefix + (if cityId.Some? then cityId.value else "undefined")
  }

  /** Two cities with ids never share a completion record. */
  lemma CompletionStorageKeyInjective(a: string, b: string)
    requires CompletionStorageKey(Some(a)) == CompletionStorageKey(Some(b))
    ensures a == b
  {
    var k := CompletionStorageKey(Some(a));
    assert a == k[|CompletionKeyPrefix|..];
    assert b == k[|CompletionKeyPrefix|..];
  }

  /** A route without a cityId writes over the record of a city whose id is
      the text "undefined". */
  lemma MissingCityIdSharesKey()
    ensures CompletionStorageKey(None) == CompletionStorageKey(Some("undefined"))
  {
  }

  class QuestCompleteScreen {
    const cityId: Option<string>
    var notes: string
    var hasPermission: Option<bool>
    var selfieUri: Option<string>
    var showCamera: bool
    var smilePrediction: Option<SmileData>
    var analysisState: AnalysisState
    var store: map<string, QuestRecord>
    /** The URI handed to the analysis last started. */
    ghost var analyzedUri: Option<string>
    /** The URI the prediction held was computed for. */
    ghost var predictionUri: Option<string>

    /** A prediction is held exactly in the success state. */
    ghost predicate PredictionMatchesState()
      reads this
    {
      smilePrediction.Some? <==> analysisState == Success
    }

    /** ... an analysis is only ever started on the selfie shown, a prediction
        held is the one for that selfie, and the camera view (the only way
        besides Upload to set a selfie) is only open while there is none. */
    ghost predicate Valid()
      reads this
    {
      && PredictionMatchesState()
      && (analysisState != Idle ==> selfieUri.Some? && analyzedUri == selfieUri)
      && (smilePrediction.Some? ==> predictionUri == selfieUri)
      && (showCamera ==> selfieUri.None?)
    }

    constructor (cityId: Option<string>, store: map<string, QuestRecord>)
      ensures Valid()
      ensures this.cityId == cityId && this.store == store
      ensures notes == "" && hasPermission == None && selfieUri == None && !showCamera
      ensures smilePrediction == None && analysisState == Idle
    {
      this.cityId := cityId;
      this.store := store;
      notes := "";
      hasPermission := None;
      selfieUri := None;
      showCamera := false;
      smilePrediction := None;
      analysisState := Idle;
      analyzedUri := None;
      predictionUri := None;
    }

    /** The permission request's answer (QuestCompleteScreen.js:43-44). */
    method ReceivePermission(status: string)
      requires Valid()
      modifies this
      ensures Valid()
      ensures hasPermission == Some(status == "granted")
      ensures showCamera == old(showCamera) && selfieUri == old(selfieUri) && notes == old(notes)
      ensures analysisState == old(analysisState) && smilePrediction == old(smilePrediction)
      ensures store == old(store) && analyzedUri == old(analyzedUri)
      ensures predictionUri == old(predictionUri)
    {
      hasPermission := Some(status == "granted");
    }

    /** `handleShowCamera` (QuestCompleteScreen.js:59-69), behind the Take
        Selfie button that is shown only while there is no selfie
        (QuestCompleteScreen.js:165-175): the camera opens only once
        permission is known and granted. */
    method ShowCamera()
      requires Valid() && selfieUri.None? && !showCamera
      modifies this
      ensures Valid()
      ensures showCamera == (old(showCamera) || hasPermission == Some(true))
      ensures hasPermission == old(hasPermission) && selfieUri == old(selfieUri) && notes == old(notes)
      ensures analysisState == old(analysisState) && smilePrediction == old(smilePrediction)
      ensures store == old(store) && analyzedUri == old(analyzedUri)
      ensures predictionUri == old(predictionUri)
    {
      if hasPermission.None? {
        return;
      }
      if hasPermission.value {
        showCamera := true;
      }
    }

    /** The camera view's close button (QuestCompleteScreen.js:148). */
    method CloseCamera()
      requires Valid() && showCamera
      modifies this
      ensures Valid()
      ensures !showCamera
      ensures hasPermission == old(hasPermission) && selfieUri == old(selfieUri) && notes == old(notes)
      ensures analysisState == old(analysisState) && smilePrediction == old(smilePrediction)
      ensures store == old(store) && analyzedUri == old(analyzedUri)
      ensures predictionUri == old(predictionUri)
    {
      showCamera := false;
    }

    /** `triggerAnalysis` up to its `await` (QuestCompleteScreen.js:100-103). */
    method StartAnalysis(uri: string)
      requires PredictionMatchesState() && selfieUri == Some(uri) && !showCamera
      modifies this
      ensures Valid()
      ensures analysisState == Analyzing && smilePrediction == None && analyzedUri == Some(uri)
      ensures hasPermission == old(hasPermission) && selfieUri == old(selfieUri) && notes == old(notes)
      ensures showCamera == old(showCamera) && store == old(store) && predictionUri == old(predictionUri)
    {
      analyzedUri := Some(uri);
      analysisState := Analyzing;
      smilePrediction := None;
    }

    /** The continuation of `triggerAnalysis` once `analyzeSmile` settles
        (QuestCompleteScreen.js:106-120); it runs once per start, while the
        state is still 'analyzing'. */
    method CompleteAnalysis(outcome: AnalysisOutcome)
      requires Valid() && analysisState == Analyzing
      modifies this
      ensures Valid()
      ensures outcome.Analyzed? ==>
        analysisState == Success && smilePrediction == Some(outcome.data) && predictionUri == analyzedUri
      ensures outcome.AnalysisFailed? ==> predictionUri == old(predictionUri)
      ensures outcome.AnalysisFailed? ==> analysisState == Error && smilePrediction == None
      ensures hasPermission == old(hasPermission) && selfieUri == old(selfieUri) && notes == old(notes)
      ensures showCamera == old(showCamera) && store == old(store) && analyzedUri == old(analyzedUri)
    {
      match outcome
      case Analyzed(data) =>
        predictionUri := analyzedUri;
        smilePrediction := Some(data);
        analysisState := Success;
      case AnalysisFailed =>
        smilePrediction := None;
        analysisState := Error;
    }

    /** `pickImageFromLibrary` (QuestCompleteScreen.js:72-83), behind the
        Upload button that is shown only while there is no selfie
        (QuestCompleteScreen.js:165-183): acts only on a result that is not
        cancelled and has an asset, and uses the first. */
    method PickImageFromLibrary(result: PhotoCheck.PickerResult)
      requires Valid() && selfieUri.None? && !showCamera
      modifies this
      ensures Valid()
      ensures !PhotoCheck.HasAsset(result) ==>
        && selfieUri == old(selfieUri) && analysisState == old(analysisState)
        && smilePrediction == old(smilePrediction) && analyzedUri == old(analyzedUri)
      ensures PhotoCheck.HasAsset(result) ==>
        && selfieUri == Some(result.assets.value[0].uri) && analyzedUri == selfieUri
        && analysisState == Analyzing && smilePrediction == None
      ensures hasPermission == old(hasPermission) && showCamera == old(showCamera) && notes == old(notes)
      ensures store == old(store) && predictionUri == old(predictionUri)
    {
      if PhotoCheck.HasAsset(result) {
        var uri := result.assets.value[0].uri;
        selfieUri := Some(uri);
        StartAnalysis(uri);
      }
    }

    /** `takePicture` (QuestCompleteScreen.js:85-98), the capture button of
        the camera view (QuestCompleteScreen.js:142-147). `cameraReady` is
        whether the camera ref is set; with it, the camera always closes, and
        a captured photo becomes the selfie and is analysed. */
    method TakePicture(cameraReady: bool, capture: CaptureOutcome)
      requires Valid() && showCamera
      modifies this
      ensures Valid()
      ensures !cameraReady ==>
        && showCamera == old(showCamera) && selfieUri == old(selfieUri)
        && analysisState == old(analysisState) && smilePrediction == old(smilePrediction)
        && analyzedUri == old(analyzedUri)
      ensures cameraReady ==> !showCamera
      ensures cameraReady && capture.Captured? ==>
        && selfieUri == Some(capture.uri) && analyzedUri == Some(capture.uri)
        && analysisState == Analyzing && smilePrediction == None
      ensures cameraReady && capture.CaptureFailed? ==>
        && selfieUri == old(selfieUri) && analysisState == old(analysisState)
        && smilePrediction == old(smilePrediction) && analyzedUri == old(analyzedUri)
      ensures hasPermission == old(hasPermission) && notes == old(notes) && store == old(store)
      ensures predictionUri == old(predictionUri)
    {
      if cameraReady {
        match capture
        case Captured(uri) =>
          showCamera := false;
          selfieUri := Some(uri);
          StartAnalysis(uri);
        case CaptureFailed =>
          showCamera := false;
      }
    }

    /** The notes text input (QuestCompleteScreen.js:211), shown only while
        there is a selfie (QuestCompleteScreen.js:204). */
    method EditNotes(text: string)
      requires Valid() && selfieUri.Some?
      modifies this
      ensures Valid()
      ensures notes == text
      ensures hasPermission == old(hasPermission) && selfieUri == old(selfieUri)
      ensures showCamera == old(showCamera) && analysisState == old(analysisState)
      ensures smilePrediction == old(smilePrediction) && store == old(store) && analyzedUri == old(analyzedUri)
      ensures predictionUri == old(predictionUri)
    {
      notes := text;
    }

    /** The Finish button is enabled when `!(isAnalyzing || !analysisSuccess)`
        (QuestCompleteScreen.js:156-158, 219-223): exactly in the success state
        with a prediction, so never while analysing. */
    predicate FinishEnabled()
      reads this
      ensures FinishEnabled() <==> analysisState == Success && smilePrediction.Some?
      ensures FinishEnabled() ==> analysisState != Analyzing
    {
      var isAnalyzing := analysisState == Analyzing;
      var analysisSuccess := analysisState == Success && smilePrediction.Some?;
      !(isAnalyzing || !analysisSuccess)
    }

    /** `handleFinish` (QuestCompleteScreen.js:123-140), behind the Finish
        button that is shown only with a selfie and pressable only when
        enabled (QuestCompleteScreen.js:204, 215-223): the record is stored
        under the city's key when the write succeeds, and the app goes back to
        its first screen either way. */
    method Finish(completedAt: string, saveOk: bool) returns (action: NavAction)
      requires Valid() && selfieUri.Some? && FinishEnabled()
      modifies this
      ensures Valid()
      ensures action == PopToTop
      ensures store == if saveOk
        then old(store)[CompletionStorageKey(cityId) := QuestRecord(notes, selfieUri, smilePrediction, completedAt)]
        else old(store)
      // a saved record carries a prediction computed for the selfie it saves
      ensures saveOk ==>
        && CompletionStorageKey(cityId) in store
        && store[CompletionStorageKey(cityId)].selfieUri == selfieUri
        && store[CompletionStorageKey(cityId)].smilePrediction.Some?
        && predictionUri == selfieUri
      ensures hasPermission == old(hasPermission) && selfieUri == old(selfieUri) && notes == old(notes)
      ensures showCamera == old(showCamera) && analysisState == old(analysisState)
      ensures smilePrediction == old(smilePrediction) && analyzedUri == old(analyzedUri)
      ensures predictionUri == old(predictionUri)
    {
      if saveOk {
        var questData := QuestRecord(notes, selfieUri, smilePrediction, completedAt);
        store := store[CompletionStorageKey(cityId) := questData];
      }
      action := PopToTop;
    }
  }

  /** Under the screen's invariant Finish is enabled exactly after a
      successful analysis, and then the prediction to be saved was computed
      for the selfie shown. */
  lemma FinishEnabledMeansAnalysed(s: QuestCompleteScreen)
    requires s.Valid()
    ensures s.FinishEnabled() <==> s.analysisState == Success
    ensures s.FinishEnabled() ==>
      s.selfieUri.Some? && s.analyzedUri == s.selfieUri && s.predictionUri == s.selfieUri
  {
  }
}
