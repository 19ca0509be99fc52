/** src/screens/CityScreen.js: the per-landmark photo validation with a 100 m
    threshold and the `visitedLandmarks` / `selectedImageInfo` dictionaries.
    AsyncStorage is the field `store`, holding for each key the dictionary
    written under it (JSON encoding is not modelled). */
module CityView {
  import opened Common
  import Exif
  import opened Places
  import opened PhotoCheck

  /** CityScreen.js:14 */
  const ValidationThresholdKm: real := 0.1

  const VisitedKeyPrefix: string := "@visitedLandmarks_"

  /** The storage key of a city's visited dictionary (CityScreen.js:39). */
  function VisitedStorageKey(cityId: string): (k: string)
    ensures |k| == |VisitedKeyPrefix| + |cityId|
    ensures k[..|VisitedKeyPrefix|] == VisitedKeyPrefix && k[|VisitedKeyPrefix|..] == cityId
  {
    VisitedKeyPrefix + cityId
  }

  /** Different cities never share a visited dictionary. */
  lemma VisitedStorageKeyInjective(a: string, b: string)
    requires VisitedStorageKey(a) == VisitedStorageKey(b)
    ensures a == b
  {
    assert a == VisitedStorageKey(a)[|VisitedKeyPrefix|..];
  }

  /** `m` and `m'` agree on every key except possibly `k`. */
  ghost predicate AgreeExcept<V>(m: map<string, V>, m': map<string, V>, k: string)
  {
    forall j :: j != k ==> (j in m <==> j in m') && (j in m ==> m[j] == m'[j])
  }

  class CityScreen {
    const city: City
    var selectedImageInfo: map<string, ImageInfo>
    var visitedLandmarks: map<string, bool>
    var store: map<string, map<string, bool>>

    constructor (city: City, store: map<string, map<string, bool>>)
      ensures this.city == city && this.store == store
      ensures selectedImageInfo == map[] && visitedLandmarks == map[]
    {
      this.city := city;
      this.store := store;
      selectedImageInfo := map[];
      visitedLandmarks := map[];
    }

    function StorageKey(): string
    {
      VisitedStorageKey(city.id)
    }

    /** `visitedLandmarks[id]` is truthy. */
    predicate IsVisited(id: string)
      reads this
    {
      id in visitedLandmarks && visitedLandmarks[id]
    }

    /** `loadVisited` (CityScreen.js:43-52): a stored dictionary replaces the
        in-memory one; a missing key, a read error or a parse error (all
        `readFails`) leaves it as it was. */
    method LoadVisited(readFails: bool)
      modifies this
      ensures !readFails && StorageKey() in store ==> visitedLandmarks == store[StorageKey()]
      ensures readFails || StorageKey() !in store ==> visitedLandmarks == old(visitedLandmarks)
      ensures selectedImageInfo == old(selectedImageInfo) && store == old(store)
    {
      if !readFails && StorageKey() in store {
        visitedLandmarks := store[StorageKey()];
      }
    }

    /** `pickImage` (CityScreen.js:73-156). `picked` is the picker's result,
        `file` what reading and parsing its first asset gives, `distance` what
        `calculateDistance` returns for the photo and the landmark, and
        `saveOk` whether the AsyncStorage write succeeds. */
    method PickImage(landmark: Landmark, picked: PickerResult, file: Exif.ExifRead,
                     distance: Option<Number>, saveOk: bool)
      modifies this
      // already visited, or nothing picked: no state changes
      ensures old(IsVisited(landmark.id)) || !HasAsset(picked) ==>
        && visitedLandmarks == old(visitedLandmarks)
        && selectedImageInfo == old(selectedImageInfo)
        && store == old(store)
      ensures !old(IsVisited(landmark.id)) && HasAsset(picked) ==>
        var status := Verdict(Exif.GetExifData(file), distance, ValidationThresholdKm);
        // only a success marks the landmark visited (and persists the dictionary)
        && visitedLandmarks == (if status == Success then old(visitedLandmarks)[landmark.id := true]
                                else old(visitedLandmarks))
        && store == (if status == Success && saveOk then old(store)[StorageKey() := visitedLandmarks]
                     else old(store))
        // the attempt is recorded under this landmark only
        && selectedImageInfo == old(selectedImageInfo)[landmark.id := ImageInfo(status)]
      ensures AgreeExcept(old(visitedLandmarks), visitedLandmarks, landmark.id)
      ensures AgreeExcept(old(selectedImageInfo), selectedImageInfo, landmark.id)
      ensures forall id :: old(IsVisited(id)) ==> IsVisited(id)
    {
      var landmarkId := landmark.id;
      if IsVisited(landmarkId) {
        return;
      }
      if !HasAsset(picked) {
        return;
      }
      var exif := Exif.GetExifData(file);
      var validationStatus := Error;
      if exif.Some? {
        var photoLat, photoLon := exif.value.latitude, exif.value.longitude;
        if photoLat.Some? && photoLon.Some? {
          if distance.Some? {
            if AtMost(distance.value, ValidationThresholdKm) {
              validationStatus := Success;
              var updatedVisited := visitedLandmarks[landmarkId := true];
              visitedLandmarks := updatedVisited;
              if saveOk {
                store := store[StorageKey() := updatedVisited];
              }
            } else {
              validationStatus := Failed;
            }
          } else {
            validationStatus := Warning;
          }
        } else {
          validationStatus := Warning;
        }
      }
      selectedImageInfo := selectedImageInfo[landmarkId := ImageInfo(validationStatus)];
    }
  }
}
