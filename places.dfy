/** The quest's entities and the navigation values the screens produce.
    Navigation itself is foreign: a handler's call to `navigation.navigate`,
    `push`, `replace` or `popToTop` is modelled as the action value it issues. */
module Places {
  import opened Common

  datatype Landmark = Landmark(id: string, name: string, latitude: real, longitude: real)

  /** A city as HomeScreen passes it; `landmarks` may be missing. */
  datatype City = City(id: string, name: string, landmarks: Option<seq<Landmark>>)

  /** The route parameters of the Landmark screen. */
  datatype LandmarkParams = LandmarkParams(allLandmarks: seq<Landmark>, currentIndex: nat, cityId: string)

  /** A screen with its route parameters; QuestComplete's `cityId` is None when
      the route carries no parameters. */
  datatype Screen = LandmarkScreen(params: LandmarkParams) | QuestComplete(cityId: Option<string>)

  datatype NavAction = Navigate(screen: Screen) | Push(screen: Screen) | Replace(screen: Screen) | PopToTop

  /** The Landmark screen reads `allLandmarks[currentIndex]`; it is only
      well-defined inside the list. */
  predicate ValidParams(p: LandmarkParams)
  {
    p.currentIndex < |p.allLandmarks|
  }
}
