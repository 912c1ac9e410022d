/** The kid's home screen: the demo kid log-in, the kid shown, and the static
    lesson table whose locked entries cannot be opened. */
module KidDashboard {
  import opened Wrappers
  import opened AppContext
  import opened DemoLogin
  import LessonVoices
  import LessonFamousPeople
  import LessonBraveSpeaking

  datatype DashLesson = DashLesson(id: nat, title: string, points: nat, status: string, premium: bool, route: string)

  /** The lesson table the home screen lists. */
  const Lessons: seq<DashLesson> := [
    DashLesson(1, "Why Voices Are Different", 50, "available", false, "/kid/lesson/voices"),
    DashLesson(2, "Famous People Who Stutter", 50, "completed", false, "/kid/lesson/famous-people"),
    DashLesson(3, "Brave Speaking Practice", 100, "locked", true, "/kid/lesson/brave-speaking")
  ]

  /** `lesson.status !== 'locked' && navigate(lesson.route)`: the route a click
      opens, or `None` for a locked lesson. */
  function ClickTarget(l: DashLesson): (r: Option<string>)
    ensures r.None? <==> l.status == "locked"
    ensures r.Some? ==> r.value == l.route
  {
    if l.status != "locked" then Some(l.route) else None
  }

  /** In the table, the voices and famous-people lessons open their routes and the
      brave-speaking lesson, the only premium one, opens nothing. */
  lemma TableClicks()
    ensures ClickTarget(Lessons[0]) == Some("/kid/lesson/voices")
    ensures ClickTarget(Lessons[1]) == Some("/kid/lesson/famous-people")
    ensures ClickTarget(Lessons[2]) == None
    ensures forall l :: l in Lessons ==> (ClickTarget(l).None? <==> l.premium)
  {
  }

  /** The points the table advertises are the points each lesson's handler adds. */
  lemma AdvertisedPointsMatchRewards(k: Kid)
    ensures Merge(k, LessonVoices.VoicesUpdate(k)).points == k.points + Lessons[0].points
    ensures Merge(k, LessonFamousPeople.FamousUpdate(k)).points == k.points + Lessons[1].points
    ensures Merge(k, LessonBraveSpeaking.BraveUpdate(k)).points == k.points + Lessons[2].points
  {
  }

  /** Rendering the page: the demo kid log-in, and the kid the render saw. */
  method Open(store: Store) returns (kid: Option<Kid>)
    modifies store
    ensures store.State() == KidAutoLogin(old(store.State()))
    ensures kid == DisplayedKid(old(store.State()))
    ensures kid.None? <==> old(store.currentKid).None? && old(store.kids) == []
  {
    kid := DisplayedKid(store.State());
    AutoLoginKid(store);
  }
}
