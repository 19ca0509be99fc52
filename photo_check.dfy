/** The proof-of-visit decision that CityScreen.pickImage and
    LandmarkScreen.pickAndValidateImage both write out inline (they differ only
    in the threshold). `calculateDistance` is foreign: its result for the
    photo's and the landmark's coordinates is an input. */
module PhotoCheck {
  import opened Common
  import Exif

  /** The `validationStatus` values. */
  datatype Status = Error | Warning | Success | Failed

  /** What a screen records about the last attempt; the message text is
      presentation and is not modelled. */
  datatype ImageInfo = ImageInfo(status: Status)

  datatype Asset = Asset(uri: string)

  /** The result of `ImagePicker.launchImageLibraryAsync` (or of a camera capture). */
  datatype PickerResult = PickerResult(canceled: bool, assets: Option<seq<Asset>>)

  /** `!result.canceled && result.assets && result.assets.length > 0` */
  predicate HasAsset(r: PickerResult)
    // a cancelled pick is never used, and a used one has a first asset
    ensures r.canceled ==> !HasAsset(r)
    ensures HasAsset(r) ==> r.assets.Some? && |r.assets.value| > 0
  {
    !r.canceled && r.assets.Some? && |r.assets.value| > 0
  }

  /** The decision table as a specification: the status an attempt ends in,
      given the Exif result and the computed distance (km). */
  function Verdict(exif: Option<Exif.ExifData>, distance: Option<Number>, thresholdKm: real): (s: Status)
    // error exactly when there is no Exif result at all
    ensures s == Error <==> exif.None?
    // success only for a finite distance within the threshold
    ensures s == Success ==> distance.Some? && distance.value.Finite? && distance.value.value <= thresholdKm
  {
    if exif.None? then Error
    else if exif.value.latitude.None? || exif.value.longitude.None? then Warning
    else if distance.None? then Warning
    else if AtMost(distance.value, thresholdKm) then Success
    else Failed
  }

  /** The four outcomes, each characterised on its own. Success needs a finite
      distance within the threshold; the bound is inclusive. */
  lemma VerdictCases(exif: Option<Exif.ExifData>, distance: Option<Number>, t: real)
    ensures Verdict(exif, distance, t) == Error <==> exif.None?
    ensures Verdict(exif, distance, t) == Warning <==>
      exif.Some? && (exif.value.latitude.None? || exif.value.longitude.None? || distance.None?)
    ensures Verdict(exif, distance, t) == Success <==>
      && exif.Some? && exif.value.latitude.Some? && exif.value.longitude.Some?
      && distance.Some? && distance.value.Finite? && distance.value.value <= t
    ensures Verdict(exif, distance, t) == Failed <==>
      && exif.Some? && exif.value.latitude.Some? && exif.value.longitude.Some?
      && distance.Some? && !(distance.value.Finite? && distance.value.value <= t)
  {
  }

  /** A photo that cannot be read is an error; a readable photo without the GPS
      tags is a warning, whatever the distance. */
  lemma VerdictOnPhotos(read: Exif.ExifRead, distance: Option<Number>, t: real)
    ensures read.ReadFailed? ==> Verdict(Exif.GetExifData(read), distance, t) == Error
    ensures read.Parsed? && !Exif.HasAllGpsTags(read.block.gps) ==>
      Verdict(Exif.GetExifData(read), distance, t) == Warning
  {
  }

  /** Raising the threshold never turns a success into anything else. */
  lemma VerdictMonotone(exif: Option<Exif.ExifData>, distance: Option<Number>, t1: real, t2: real)
    requires t1 <= t2 && Verdict(exif, distance, t1) == Success
    ensures Verdict(exif, distance, t2) == Success
  {
  }
}
