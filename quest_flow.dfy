/** The quest as a whole: CityIntroScreen's `handleStartQuest` followed by
    LandmarkScreen's `handleNextLandmark`, pressed once on every screen. */
module QuestFlow {
  import opened Common
  import opened Places
  import CityIntro
  import LandmarkView

  /** The screens reached by pressing Next repeatedly, starting on the Landmark
      screen with parameters `p`: each later landmark in order, then
      QuestComplete for the same city. */
  function Trail(p: LandmarkParams): (t: seq<Screen>)
    requires ValidParams(p)
    ensures |t| == |p.allLandmarks| - p.currentIndex
    ensures forall k :: 0 <= k < |t| - 1 ==>
      t[k] == LandmarkScreen(p.(currentIndex := p.currentIndex + 1 + k))
    ensures t[|t| - 1] == QuestComplete(Some(p.cityId))
    decreases |p.allLandmarks| - p.currentIndex
  {
    var a := LandmarkView.NextAction(p);
    if a.Push? then [a.screen] + Trail(a.screen.params) else [a.screen]
  }

  /** A started quest shows every landmark of the city once, at indices
      0, 1, ..., n-1 in that order and always inside the list, and then
      QuestComplete for the city. */
  lemma {:induction false} QuestVisitsEveryLandmark(city: City)
    requires CityIntro.StartQuest(city).Some?
    ensures var ls := CityIntro.Landmarks(city);
      var run := [CityIntro.StartQuest(city).value.screen] + Trail(CityIntro.StartQuest(city).value.screen.params);
      && |run| == |ls| + 1
      && (forall k :: 0 <= k < |ls| ==>
            run[k] == LandmarkScreen(LandmarkParams(ls, k, city.id)) && ValidParams(run[k].params))
      && run[|ls|] == QuestComplete(Some(city.id))
  {
    var ls := CityIntro.Landmarks(city);
    var p := CityIntro.StartQuest(city).value.screen.params;
    var run := [LandmarkScreen(p)] + Trail(p);
    forall k | 0 <= k < |ls|
      ensures run[k] == LandmarkScreen(LandmarkParams(ls, k, city.id))
    {
      if k > 0 {
        assert run[k] == Trail(p)[k - 1];
      }
    }
  }
}
