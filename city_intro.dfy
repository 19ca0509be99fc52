/** src/screens/CityIntroScreen.js: the map's initial region and the start of
    the quest. The region's zoom deltas are presentation and are not modelled. */
module CityIntro {
  import opened Common
  import opened Places

  datatype Region = Region(latitude: real, longitude: real)

  /** `city.landmarks || []` (CityIntroScreen.js:22). */
  function Landmarks(city: City): (ls: seq<Landmark>)
    ensures city.landmarks.None? ==> ls == []
    ensures city.landmarks.Some? ==> ls == city.landmarks.value
  {
    if city.landmarks.Some? then city.landmarks.value else []
  }

  /** CityIntroScreen.js:24-29: a region only when there are landmarks, then
      centred on the first one. */
  function InitialRegion(city: City): (r: Option<Region>)
    ensures r.Some? <==> |Landmarks(city)| > 0
    ensures r.Some? ==>
      r.value.latitude == Landmarks(city)[0].latitude && r.value.longitude == Landmarks(city)[0].longitude
  {
    var landmarks := Landmarks(city);
    if |landmarks| > 0 then Some(Region(landmarks[0].latitude, landmarks[0].longitude)) else None
  }

  /** `handleStartQuest` (CityIntroScreen.js:31-42): None stands for the
      "no landmarks" alert, which navigates nowhere. */
  function StartQuest(city: City): (a: Option<NavAction>)
    ensures a.Some? <==> |Landmarks(city)| > 0
    ensures a.Some? ==>
      && a.value == Navigate(LandmarkScreen(LandmarkParams(Landmarks(city), 0, city.id)))
      && ValidParams(a.value.screen.params)
  {
    var landmarks := Landmarks(city);
    if |landmarks| > 0 then
      Some(Navigate(LandmarkScreen(LandmarkParams(landmarks, 0, city.id))))
    else
      None
  }
}
