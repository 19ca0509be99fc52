/** `getExifData` of src/utils/exifUtils.js: the GPS IFD of a photo's Exif
    block (Exif 2.3, JEITA CP-3451, section 4.6.6 "GPS Attribute
    Information") turned into signed decimal degrees. Reading the file and
    `piexif.load` are foreign; their outcome is the input `ExifRead`. */
module Exif {
  import opened Common

  /** An Exif RATIONAL: two unsigned LONGs, numerator and denominator. */
  datatype Rational = Rational(num: nat, den: nat)

  /** The four GPS tags the app reads; None when piexifjs reports no such tag.
      GPSLatitude and GPSLongitude are lists of RATIONALs (degrees, minutes,
      seconds); the two Ref tags are ASCII strings. */
  datatype GpsIfd = GpsIfd(
    latitude: Option<seq<Rational>>,
    longitude: Option<seq<Rational>>,
    latitudeRef: Option<string>,
    longitudeRef: Option<string>)

  /** What the app reads from `piexif.load`: the GPS IFD (None when absent) and
      `exifData['Exif']?.[DateTimeOriginal]` (None when the Exif IFD or the
      tag is absent). */
  datatype ExifBlock = ExifBlock(gps: Option<GpsIfd>, dateTimeOriginal: Option<string>)

  /** Outcome of reading the file as base64 and parsing it with piexifjs:
      a parsed block, or an exception from either step. */
  datatype ExifRead = Parsed(block: ExifBlock) | ReadFailed

  /** The object `getExifData` resolves with (the whole result is `null` on failure). */
  datatype ExifData = ExifData(latitude: Option<Number>, longitude: Option<Number>, dateTimeOriginal: Option<string>)

  /** JavaScript truthiness of an optional string: present and not "". */
  predicate Truthy(s: Option<string>)
  {
    s.Some? && s.value != ""
  }

  /** The guard at exifUtils.js:24: the GPS IFD and all four tags are truthy
      (an array, even an empty one, is truthy). */
  predicate HasAllGpsTags(gps: Option<GpsIfd>)
    // an empty reference string counts as missing
    ensures gps.Some? && (gps.value.latitudeRef == Some("") || gps.value.longitudeRef == Some("")) ==>
      !HasAllGpsTags(gps)
    // an empty coordinate list does not
    ensures gps.Some? && gps.value.latitude == Some([]) && gps.value.longitude.Some?
            && Truthy(gps.value.latitudeRef) && Truthy(gps.value.longitudeRef) ==>
      HasAllGpsTags(gps)
  {
    && gps.Some?
    && gps.value.latitude.Some?
    && gps.value.longitude.Some?
    && Truthy(gps.value.latitudeRef)
    && Truthy(gps.value.longitudeRef)
  }

  /** deg/1 + min/60 + sec/3600 on exact rationals. */
  function ExactDegrees(deg: Rational, min: Rational, sec: Rational): real
    requires deg.den != 0 && min.den != 0 && sec.den != 0
  {
    deg.num as real / deg.den as real
      + (min.num as real / min.den as real) / 60.0
      + (sec.num as real / sec.den as real) / 3600.0
  }

  /** The conversion at exifUtils.js:31-32, in JavaScript arithmetic. */
  function DmsToDecimal(dms: seq<Rational>): (r: Number)
    requires |dms| >= 3
    ensures r.Finite? <==> dms[0].den != 0 && dms[1].den != 0 && dms[2].den != 0
    ensures r.Finite? ==> r.value == ExactDegrees(dms[0], dms[1], dms[2])
    ensures r.Finite? ==> r.value >= 0.0
  {
    Plus(Plus(Quotient(dms[0].num, dms[0].den), DivBy(Quotient(dms[1].num, dms[1].den), 60.0)),
         DivBy(Quotient(dms[2].num, dms[2].den), 3600.0))
  }

  /** exifUtils.js:35-36: negate exactly when the reference is the given
      hemisphere letter ('S' for latitude, 'W' for longitude). */
  function ApplyRef(magnitude: Number, ref: string, negativeRef: string): (r: Number)
    // NaN and Infinity stay non-finite; a finite magnitude keeps its size
    ensures r.Finite? <==> magnitude.Finite?
    ensures r.Finite? && ref == negativeRef ==> r.value == -magnitude.value
    ensures r.Finite? && ref != negativeRef ==> r.value == magnitude.value
  {
    if ref == negativeRef then Neg(magnitude) else magnitude
  }

  function GetExifData(read: ExifRead): (r: Option<ExifData>)
    // a read or parse failure gives null
    ensures read.ReadFailed? ==> r.None?
    // the only other null, and always null: a coordinate list too short to
    // index [2] (a TypeError, caught)
    ensures read.Parsed? ==>
      (r.None? <==>
        && HasAllGpsTags(read.block.gps)
        && (|read.block.gps.value.latitude.value| < 3 || |read.block.gps.value.longitude.value| < 3))
    // latitude and longitude are both null or both numbers
    ensures r.Some? ==> (r.value.latitude.Some? <==> r.value.longitude.Some?)
    // they are numbers exactly when the GPS IFD has all four tags
    ensures r.Some? ==> (r.value.latitude.Some? <==> HasAllGpsTags(read.block.gps))
    // dateTimeOriginal is passed through whether or not there is GPS data
    ensures r.Some? ==> r.value.dateTimeOriginal == read.block.dateTimeOriginal
  {
    match read
    case ReadFailed => None
    case Parsed(block) =>
      if !HasAllGpsTags(block.gps) then
        Some(ExifData(None, None, block.dateTimeOriginal))
      else
        var g := block.gps.value;
        var lat, lon := g.latitude.value, g.longitude.value;
        if |lat| < 3 || |lon| < 3 then None
        else
          var latitude := ApplyRef(DmsToDecimal(lat), g.latitudeRef.value, "S");
          var longitude := ApplyRef(DmsToDecimal(lon), g.longitudeRef.value, "W");
          Some(ExifData(Some(latitude), Some(longitude), block.dateTimeOriginal))
  }

  /** With all four tags and nonzero denominators the coordinates are the exact
      decimal degrees, negated for 'S' and 'W' only. */
  lemma DecimalDegreesExact(gps: GpsIfd, time: Option<string>)
    requires HasAllGpsTags(Some(gps))
    requires |gps.latitude.value| >= 3 && |gps.longitude.value| >= 3
    requires forall k :: 0 <= k < 3 ==> gps.latitude.value[k].den != 0 && gps.longitude.value[k].den != 0
    ensures var r := GetExifData(Parsed(ExifBlock(Some(gps), time)));
      var lat, lon := gps.latitude.value, gps.longitude.value;
      var latAbs, lonAbs := ExactDegrees(lat[0], lat[1], lat[2]), ExactDegrees(lon[0], lon[1], lon[2]);
      && r.Some?
      && r.value.latitude == Some(Finite(if gps.latitudeRef.value == "S" then -latAbs else latAbs))
      && r.value.longitude == Some(Finite(if gps.longitudeRef.value == "W" then -lonAbs else lonAbs))
  {
    var lat, lon := gps.latitude.value, gps.longitude.value;
    assert lat[0].den != 0 && lat[1].den != 0 && lat[2].den != 0;
    assert lon[0].den != 0 && lon[1].den != 0 && lon[2].den != 0;
  }

  /** A zero denominator anywhere in a coordinate gives a non-null but
      non-finite number (NaN or Infinity), not null. */
  lemma ZeroDenominatorNotNull(gps: GpsIfd, time: Option<string>, k: nat)
    requires HasAllGpsTags(Some(gps))
    requires |gps.latitude.value| >= 3 && |gps.longitude.value| >= 3
    requires k < 3 && gps.latitude.value[k].den == 0
    ensures GetExifData(Parsed(ExifBlock(Some(gps), time))).Some?
    ensures GetExifData(Parsed(ExifBlock(Some(gps), time))).value.latitude == Some(NonFinite)
  {
  }

  /** A missing GPS IFD or any one missing tag gives both coordinates null. */
  lemma MissingTagGivesNoCoordinates(block: ExifBlock)
    requires || block.gps.None?
             || block.gps.value.latitude.None?
             || block.gps.value.longitude.None?
             || block.gps.value.latitudeRef.None?
             || block.gps.value.longitudeRef.None?
    ensures GetExifData(Parsed(block)) == Some(ExifData(None, None, block.dateTimeOriginal))
  {
  }

  /** The latitude's sign follows latRef alone: 'S' gives a value <= 0, any
      other reference a value >= 0 (Exif RATIONALs are unsigned). */
  lemma HemisphereSign(block: ExifBlock)
    requires GetExifData(Parsed(block)).Some?
    ensures var r := GetExifData(Parsed(block)).value;
      && (r.latitude.Some? && r.latitude.value.Finite? ==>
            (block.gps.value.latitudeRef.value == "S" ==> r.latitude.value.value <= 0.0)
            && (block.gps.value.latitudeRef.value != "S" ==> r.latitude.value.value >= 0.0))
      && (r.longitude.Some? && r.longitude.value.Finite? ==>
            (block.gps.value.longitudeRef.value == "W" ==> r.longitude.value.value <= 0.0)
            && (block.gps.value.longitudeRef.value != "W" ==> r.longitude.value.value >= 0.0))
  {
  }

  /** The latitude depends only on GPSLatitude and GPSLatitudeRef: changing the
      longitude tags (keeping them present) or the time leaves it as it was. */
  lemma LatitudeIndependentOfLongitude(g1: GpsIfd, g2: GpsIfd, t1: Option<string>, t2: Option<string>)
    requires HasAllGpsTags(Some(g1)) && HasAllGpsTags(Some(g2))
    requires g1.latitude == g2.latitude && g1.latitudeRef == g2.latitudeRef
    requires |g1.longitude.value| >= 3 && |g2.longitude.value| >= 3
    requires |g1.latitude.value| >= 3
    ensures GetExifData(Parsed(ExifBlock(Some(g1), t1))).value.latitude
         == GetExifData(Parsed(ExifBlock(Some(g2), t2))).value.latitude
  {
  }

  // ---- A reference encoder: the inverse of the conversion ----

  /** Encodes the non-negative rational n/d as whole degrees, whole minutes and
      a rational number of seconds, as a camera writes GPSLatitude. */
  function EncodeDms(n: nat, d: nat): (dms: seq<Rational>)
    requires d > 0
    ensures |dms| == 3 && dms[0].den != 0 && dms[1].den != 0 && dms[2].den != 0
  {
    var deg, rem := n / d, n % d;
    var min, rem2 := (rem * 60) / d, (rem * 60) % d;
    [Rational(deg, 1), Rational(min, 1), Rational(rem2 * 60, d)]
  }

  lemma {:induction false} EncodeDmsRoundTrip(n: nat, d: nat)
    requires d > 0
    ensures DmsToDecimal(EncodeDms(n, d)) == Finite(n as real / d as real)
  {
    var deg, rem := n / d, n % d;
    var min, rem2 := (rem * 60) / d, (rem * 60) % d;
    assert n == deg * d + rem;
    assert rem * 60 == min * d + rem2;
    var D := d as real;
    assert (rem2 * 60) as real / D / 3600.0 == rem2 as real / (60.0 * D);
    assert min as real / 60.0 + rem2 as real / (60.0 * D) == (min * d + rem2) as real / (60.0 * D);
    assert (min * d + rem2) as real / (60.0 * D) == rem as real / D;
    assert deg as real + rem as real / D == (deg * d + rem) as real / D;
  }

  /** Encodes a signed coordinate n/d with its hemisphere letters. */
  function EncodeCoordinate(n: int, d: nat, positiveRef: string, negativeRef: string): (dms: (seq<Rational>, string))
    requires d > 0
  {
    (EncodeDms(if n < 0 then -n else n, d), if n < 0 then negativeRef else positiveRef)
  }

  function EncodeGps(latN: int, lonN: int, d: nat): GpsIfd
    requires d > 0
  {
    var (lat, latRef) := EncodeCoordinate(latN, d, "N", "S");
    var (lon, lonRef) := EncodeCoordinate(lonN, d, "E", "W");
    GpsIfd(Some(lat), Some(lon), Some(latRef), Some(lonRef))
  }

  /** One coordinate: decoding the encoded magnitude and applying its letter
      gives back n/d. */
  lemma {:induction false} CoordinateRoundTrip(n: int, d: nat, positiveRef: string, negativeRef: string)
    requires d > 0 && positiveRef != negativeRef
    ensures var (dms, ref) := EncodeCoordinate(n, d, positiveRef, negativeRef);
      ApplyRef(DmsToDecimal(dms), ref, negativeRef) == Finite(n as real / d as real)
  {
    var m := if n < 0 then -n else n;
    EncodeDmsRoundTrip(m, d);
    if n < 0 {
      assert m as real / d as real == -(n as real / d as real);
    }
  }

  /** Decoding what the encoder wrote gives back the signed coordinates exactly,
      and the time unchanged. */
  lemma {:induction false} GpsRoundTrip(latN: int, lonN: int, d: nat, time: Option<string>)
    requires d > 0
    ensures GetExifData(Parsed(ExifBlock(Some(EncodeGps(latN, lonN, d)), time)))
         == Some(ExifData(Some(Finite(latN as real / d as real)), Some(Finite(lonN as real / d as real)), time))
  {
    CoordinateRoundTrip(latN, d, "N", "S");
    CoordinateRoundTrip(lonN, d, "E", "W");
  }
}
