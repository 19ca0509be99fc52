/** src/screens/LandmarkScreen.js: one landmark of the quest, validated with a
    500 m threshold, its stored visited flag, and the step to the next
    landmark. AsyncStorage is the field `store`, holding the strings written. */
module LandmarkView {
  import opened Common
  import Exif
  import opened Places
  import opened PhotoCheck

  /** LandmarkScreen.js:26 */
  const ValidationThresholdKm: real := 0.5

  const StatusKeyPrefix: string := "@visitedStatus_"

  /** The storage key of one landmark's flag (LandmarkScreen.js:35). */
  function StatusStorageKey(cityId: string, landmarkId: string): (k: string)
    // the prefix, then the city id, '_' and the landmark id
    ensures StatusKeyPrefix <= k && k[|StatusKeyPrefix|..] == cityId + "_" + landmarkId
    ensures |k| == |StatusKeyPrefix| + |cityId| + 1 + |landmarkId|
  {
    StatusKeyPrefix + cityId + "_" + landmarkId
  }

  /** The key does not identify the pair once ids may contain '_': city "a_b"
      with landmark "c" and city "a" with landmark "b_c" share one flag. */
  lemma StatusStorageKeyCollision()
    ensures StatusStorageKey("a_b", "c") == StatusStorageKey("a", "b_c")
  {
  }

  /** The position of the first '_' in `s`, or |s| when there is none. */
  function FirstUnderscore(s: string): (i: nat)
    ensures i <= |s|
    ensures i < |s| ==> s[i] == '_'
    ensures '_' !in s[..i]
  {
    if |s| == 0 || s[0] == '_' then 0 else 1 + FirstUnderscore(s[1..])
  }

  lemma {:induction false} FirstUnderscoreAfter(c: string, l: string)
    requires '_' !in c
    ensures FirstUnderscore(c + "_" + l) == |c|
  {
    if |c| > 0 {
      assert (c + "_" + l)[1..] == c[1..] + "_" + l;
      FirstUnderscoreAfter(c[1..], l);
    }
  }

  /** With city ids free of '_', the key does identify the (city, landmark)
      pair: the first '_' after the prefix ends the city id. */
  lemma StatusStorageKeyInjective(c1: string, l1: string, c2: string, l2: string)
    requires '_' !in c1 && '_' !in c2
    requires StatusStorageKey(c1, l1) == StatusStorageKey(c2, l2)
    ensures c1 == c2 && l1 == l2
  {
    var k := StatusStorageKey(c1, l1);
    var p := |StatusKeyPrefix|;
    assert k == StatusKeyPrefix + (c1 + "_" + l1);
    assert k == StatusKeyPrefix + (c2 + "_" + l2);
    var s := k[p..];
    assert s == c1 + "_" + l1 == c2 + "_" + l2;
    FirstUnderscoreAfter(c1, l1);
    FirstUnderscoreAfter(c2, l2);
    assert c1 == s[..|c1|] == c2;
    assert l1 == s[|c1| + 1..] == l2;
  }

  /** `String(status)` as `saveVisitedStatus` writes it. */
  function StoredFlag(status: bool): (s: string)
    // `loadVisitedStatus` reads it back with `saved === 'true'`
    ensures s == "true" <==> status
  {
    if status then "true" else "false"
  }

  /** `handleNextLandmark` (LandmarkScreen.js:108-121): push the next landmark
      while there is one, otherwise replace the screen by QuestComplete. */
  function NextAction(p: LandmarkParams): (a: NavAction)
    ensures a.Push? <==> p.currentIndex + 1 < |p.allLandmarks|
    ensures a.Push? ==>
      a.screen == LandmarkScreen(p.(currentIndex := p.currentIndex + 1)) && ValidParams(a.screen.params)
    ensures !a.Push? ==> a == Replace(QuestComplete(Some(p.cityId)))
  {
    var nextIndex := p.currentIndex + 1;
    if nextIndex < |p.allLandmarks| then
      Push(LandmarkScreen(LandmarkParams(p.allLandmarks, nextIndex, p.cityId)))
    else
      Replace(QuestComplete(Some(p.cityId)))
  }

  /** The Next button's label (LandmarkScreen.js:173). */
  function NextButtonLabel(p: LandmarkParams): (l: string)
    ensures l == "Next Landmark" || l == "Finish Quest"
    // 'Finish Quest' exactly on the last landmark
    ensures ValidParams(p) ==> (l == "Finish Quest" <==> p.currentIndex == |p.allLandmarks| - 1)
  {
    if p.currentIndex + 1 < |p.allLandmarks| then "Next Landmark" else "Finish Quest"
  }

  /** The label announces what pressing the button does. */
  lemma NextLabelMatchesAction(p: LandmarkParams)
    ensures NextButtonLabel(p) == "Next Landmark" <==> NextAction(p).Push?
    ensures NextButtonLabel(p) == "Finish Quest" <==> NextAction(p).Replace?
  {
  }

  datatype Button = ValidatePhoto | NextLandmark

  /** The action buttons rendered (LandmarkScreen.js:151-176), in order. */
  function ActionButtons(isVisited: bool): (bs: seq<Button>)
    ensures |bs| == 1
    ensures bs[0] == (if isVisited then NextLandmark else ValidatePhoto)
  {
    (if !isVisited then [ValidatePhoto] else []) + (if isVisited then [NextLandmark] else [])
  }

  class LandmarkScreen {
    const params: LandmarkParams
    var imageInfo: Option<ImageInfo>
    var isVisited: bool
    var store: map<string, string>

    /** The screen is only mounted with an index inside the list. */
    constructor (params: LandmarkParams, store: map<string, string>)
      requires ValidParams(params)
      ensures this.params == params && this.store == store
      ensures imageInfo == None && !isVisited
    {
      this.params := params;
      this.store := store;
      imageInfo := None;
      isVisited := false;
    }

    function CurrentLandmark(): Landmark
      requires ValidParams(params)
    {
      params.allLandmarks[params.currentIndex]
    }

    function StorageKey(): string
      requires ValidParams(params)
    {
      StatusStorageKey(params.cityId, CurrentLandmark().id)
    }

    /** `loadVisitedStatus` (LandmarkScreen.js:39-48): clears the attempt, then
        the flag is set exactly when the stored string is 'true'; a read error
        gives false. */
    method LoadVisitedStatus(readFails: bool)
      requires ValidParams(params)
      modifies this
      ensures imageInfo == None
      ensures isVisited <==> !readFails && StorageKey() in store && store[StorageKey()] == "true"
      ensures store == old(store)
    {
      imageInfo := None;
      if readFails {
        isVisited := false;
      } else {
        var storedStatus: Option<string> := if StorageKey() in store then Some(store[StorageKey()]) else None;
        isVisited := storedStatus == Some("true");
      }
    }

    /** `pickAndValidateImage` (LandmarkScreen.js:68-106); the inputs are as for
        CityScreen.PickImage. */
    method PickAndValidateImage(picked: PickerResult, file: Exif.ExifRead,
                                distance: Option<Number>, saveOk: bool)
      requires ValidParams(params)
      modifies this
      ensures old(isVisited) || !HasAsset(picked) ==>
        isVisited == old(isVisited) && imageInfo == old(imageInfo) && store == old(store)
      ensures !old(isVisited) && HasAsset(picked) ==>
        var status := Verdict(Exif.GetExifData(file), distance, ValidationThresholdKm);
        && imageInfo == Some(ImageInfo(status))
        && (isVisited <==> status == Success)
        && store == (if status == Success && saveOk then old(store)[StorageKey() := StoredFlag(true)]
                     else old(store))
    {
      if isVisited {
        return;
      }
      if !HasAsset(picked) {
        return;
      }
      var exif := Exif.GetExifData(file);
      var validationStatus := Error;
      if exif.Some? {
        var photoLat, photoLon := exif.value.latitude, exif.value.longitude;
        if photoLat.Some? && photoLon.Some? {
          if distance.Some? {
            if AtMost(distance.value, ValidationThresholdKm) {
              validationStatus := Success;
              isVisited := true;
              if saveOk {
                store := store[StorageKey() := StoredFlag(true)];
              }
            } else {
              validationStatus := Failed;
            }
          } else {
            validationStatus := Warning;
          }
        } else {
          validationStatus := Warning;
        }
      }
      imageInfo := Some(ImageInfo(validationStatus));
    }
  }

  /** A flag saved by a successful validation is read back as visited when the
      screen for the same landmark is mounted again. */
  method SaveThenReload(params: LandmarkParams, store: map<string, string>, picked: PickerResult,
                        file: Exif.ExifRead, distance: Option<Number>) returns (visitedAfterReload: bool)
    requires ValidParams(params)
    requires HasAsset(picked)
    requires Verdict(Exif.GetExifData(file), distance, ValidationThresholdKm) == Success
    ensures visitedAfterReload
  {
    var first := new LandmarkScreen(params, store);
    first.PickAndValidateImage(picked, file, distance, true);
    var again := new LandmarkScreen(params, first.store);
    again.LoadVisitedStatus(false);
    visitedAfterReload := again.isVisited;
  }
}
