/** The parent dashboard: a demo log-in, roster totals, per-kid figures and the
    greeting. */
module ParentDashboard {
  import opened Wrappers
  import opened AppContext
  import opened Text
  import opened DemoLogin
  import LessonVoices
  import LessonFamousPeople
  import LessonBraveSpeaking
  import CreateKidProfile

  /** `kids.reduce((acc, kid) => acc + kid.points, 0)`. */
  function TotalPoints(kids: seq<Kid>): (t: int)
    ensures kids == [] ==> t == 0
    ensures |kids| == 1 ==> t == kids[0].points
    ensures (forall i :: 0 <= i < |kids| ==> kids[i].points >= 0) ==> t >= 0
  {
    if kids == [] then 0
    else
      var rest := TotalPoints(kids[1..]);
      assert forall i :: 1 <= i < |kids| ==> kids[i] == kids[1..][i - 1];
      kids[0].points + rest
  }

  /** Adding a kid raises the total by that kid's points. */
  lemma {:induction false} TotalPointsAppend(kids: seq<Kid>, k: Kid)
    ensures TotalPoints(kids + [k]) == TotalPoints(kids) + k.points
  {
    if kids == [] {
      assert [k][1..] == [];
    } else {
      assert (kids + [k])[1..] == kids[1..] + [k];
      TotalPointsAppend(kids[1..], k);
    }
  }

  /** Updating the one entry with `id` moves the total by that entry's change. */
  lemma {:induction false} TotalPointsUpdate(kids: seq<Kid>, id: string, u: KidUpdate, i: nat)
    requires i < |kids| && kids[i].id == id
    requires forall j :: 0 <= j < |kids| && j != i ==> kids[j].id != id
    ensures TotalPoints(UpdateRoster(kids, id, u)) == TotalPoints(kids) - kids[i].points + Merge(kids[i], u).points
  {
    var r := UpdateRoster(kids, id, u);
    assert r[1..] == UpdateRoster(kids[1..], id, u);
    if i == 0 {
      assert !HasId(kids[1..], id) by {
        forall j | 0 <= j < |kids[1..]| ensures kids[1..][j].id != id {
          assert kids[1..][j] == kids[j + 1];
        }
      }
      UpdateRosterUnknownId(kids[1..], id, u);
    } else {
      forall j | 0 <= j < |kids[1..]| && j != i - 1 ensures kids[1..][j].id != id {
        assert kids[1..][j] == kids[j + 1];
      }
      TotalPointsUpdate(kids[1..], id, u, i - 1);
    }
  }

  /** Completing a lesson raises the dashboard's total by exactly the lesson's
      points, provided the current kid is on the roster and ids are unique. */
  lemma LessonRaisesTotal(s: Session)
    requires KidSessionConsistent(s) && UniqueIds(s.kids) && s.currentKid.Some?
    ensures TotalPoints(RewardCurrentKid(s, LessonVoices.VoicesUpdate).kids) == TotalPoints(s.kids) + 50
    ensures TotalPoints(RewardCurrentKid(s, LessonFamousPeople.FamousUpdate).kids) == TotalPoints(s.kids) + 50
    ensures TotalPoints(RewardCurrentKid(s, LessonBraveSpeaking.BraveUpdate).kids) == TotalPoints(s.kids) + 100
  {
    var k := s.currentKid.value;
    var i :| 0 <= i < |s.kids| && s.kids[i] == k;
    TotalPointsUpdate(s.kids, k.id, LessonVoices.VoicesUpdate(k), i);
    TotalPointsUpdate(s.kids, k.id, LessonFamousPeople.FamousUpdate(k), i);
    TotalPointsUpdate(s.kids, k.id, LessonBraveSpeaking.BraveUpdate(k), i);
  }

  /** `kid.lastActive.includes('hour') || kid.lastActive === 'Just now'`. */
  function RecentlyActive(k: Kid): (b: bool)
    ensures b <==> k.lastActive == "Just now" || exists i :: OccursAt(k.lastActive, "hour", i)
  {
    Contains(k.lastActive, "hour") || k.lastActive == "Just now"
  }

  /** The number of kids active this week: never more than the roster. */
  function ActiveThisWeek(kids: seq<Kid>): (n: nat)
    ensures n <= |kids|
  {
    if kids == [] then 0 else (if RecentlyActive(kids[0]) then 1 else 0) + ActiveThisWeek(kids[1..])
  }

  /** Adding a kid raises the count by one exactly when that kid is active. */
  lemma {:induction false} ActiveThisWeekAppend(kids: seq<Kid>, k: Kid)
    ensures ActiveThisWeek(kids + [k]) == ActiveThisWeek(kids) + (if RecentlyActive(k) then 1 else 0)
  {
    if kids == [] {
      assert [k][1..] == [];
    } else {
      assert (kids + [k])[1..] == kids[1..] + [k];
      ActiveThisWeekAppend(kids[1..], k);
    }
  }

  /** A freshly created profile counts as active and adds no points. */
  lemma NewProfileOnDashboard(kids: seq<Kid>, id: string, name: string, age: int, avatar: string, goals: seq<string>)
    ensures var k := CreateKidProfile.NewKid(id, name, age, avatar, goals);
      && ActiveThisWeek(kids + [k]) == ActiveThisWeek(kids) + 1
      && TotalPoints(kids + [k]) == TotalPoints(kids)
  {
    var k := CreateKidProfile.NewKid(id, name, age, avatar, goals);
    ActiveThisWeekAppend(kids, k);
    TotalPointsAppend(kids, k);
  }

  /** Both roster figures of a two-kid roster. */
  lemma PairAggregates(a: Kid, b: Kid)
    ensures TotalPoints([a, b]) == a.points + b.points
    ensures ActiveThisWeek([a, b]) == (if RecentlyActive(a) then 1 else 0) + (if RecentlyActive(b) then 1 else 0)
  {
    assert [a, b][1..] == [b] && [b][1..] == [];
    assert TotalPoints([b]) == b.points + TotalPoints([]);
    assert ActiveThisWeek([b]) == (if RecentlyActive(b) then 1 else 0) + ActiveThisWeek([]);
  }

  /** "2 hours ago" counts as recent activity and "Yesterday" does not. */
  lemma SampleActivity()
    ensures RecentlyActive(SampleKids[0])
    ensures !RecentlyActive(SampleKids[1])
  {
    assert "2 hours ago"[2..6] == "hour";
    assert OccursAt(SampleKids[0].lastActive, "hour", 2);
    NotContainsFirstAbsent(SampleKids[1].lastActive, "hour");
  }

  /** The sample roster: 300 points, and only Emma active. */
  lemma SampleAggregates()
    ensures TotalPoints(SampleKids) == 300
    ensures ActiveThisWeek(SampleKids) == 1
  {
    assert SampleKids == [SampleKids[0], SampleKids[1]];
    PairAggregates(SampleKids[0], SampleKids[1]);
    SampleActivity();
  }

  /** The per-kid minutes figure: a quarter hour per completed lesson. */
  function MinutesThisWeek(k: Kid): (m: int)
    ensures k.lessonsCompleted >= 0 ==> m >= 0
    ensures k.lessonsCompleted == 0 ==> m == 0
  {
    k.lessonsCompleted * 15
  }

  /** Each lesson's reward moves the minutes figure: by 15 for the voices lesson,
      up to at least 30 and 45 for the other two. */
  lemma MinutesAfterLessons(k: Kid)
    ensures k.lessonsCompleted == 0 ==> MinutesThisWeek(k) == 0
    ensures MinutesThisWeek(Merge(k, LessonVoices.VoicesUpdate(k))) == MinutesThisWeek(k) + 15
    ensures MinutesThisWeek(Merge(k, LessonFamousPeople.FamousUpdate(k))) >= 30
    ensures MinutesThisWeek(Merge(k, LessonFamousPeople.FamousUpdate(k))) >= MinutesThisWeek(k)
    ensures MinutesThisWeek(Merge(k, LessonBraveSpeaking.BraveUpdate(k))) >= 45
    ensures MinutesThisWeek(Merge(k, LessonBraveSpeaking.BraveUpdate(k))) >= MinutesThisWeek(k)
  {
  }

  /** `currentParent?.name?.split(' ')[0] || 'Sarah'`: the first word of the
      parent's name, or "Sarah" when there is no parent or the first word is empty. */
  function WelcomeName(p: Option<Parent>): (r: string)
    ensures r != [] && ' ' !in r
    ensures r == "Sarah" || (p.Some? && IsPrefix(r, p.value.name))
    ensures p.Some? && BeforeFirst(p.value.name, ' ') != [] ==> r == BeforeFirst(p.value.name, ' ')
  {
    if p.None? then "Sarah"
    else
      var first := BeforeFirst(p.value.name, ' ');
      if first == [] then "Sarah" else first
  }

  lemma WelcomeNameExamples()
    ensures WelcomeName(Some(SampleParent)) == "Sarah"
    ensures WelcomeName(Some(Parent("1", " padded", "x@y"))) == "Sarah"
    ensures WelcomeName(None) == "Sarah"
  {
    var n := "Sarah Johnson";
    assert n[..5] == "Sarah";
    BeforeFirstAt(n, ' ', 5);
    assert " padded"[..0] == [];
    BeforeFirstAt(" padded", ' ', 0);
  }

  /** `currentParent?.name?.[0] || 'S'`: the avatar letter. */
  function AvatarLetter(p: Option<Parent>): (r: string)
    ensures |r| == 1
    ensures p.Some? && p.value.name != [] ==> r == [p.value.name[0]]
    ensures p.None? || p.value.name == [] ==> r == "S"
  {
    if p.Some? && p.value.name != [] then [p.value.name[0]] else "S"
  }

  /** `currentParent?.name || 'Sarah Johnson'`: the name in the menu button. */
  function MenuName(p: Option<Parent>): (r: string)
    ensures r != []
    ensures p.Some? && p.value.name != [] ==> r == p.value.name
    ensures p.None? || p.value.name == [] ==> r == "Sarah Johnson"
  {
    if p.Some? && p.value.name != [] then p.value.name else "Sarah Johnson"
  }

  /** Rendering the dashboard: the demo log-in, then the two roster figures. */
  method Open(store: Store) returns (totalPoints: int, activeThisWeek: nat)
    modifies store
    ensures store.State() == ParentAutoLogin(old(store.State()))
    ensures totalPoints == TotalPoints(store.kids) && activeThisWeek == ActiveThisWeek(store.kids)
    ensures activeThisWeek <= |store.kids|
  {
    AutoLoginParent(store);
    totalPoints := TotalPoints(store.kids);
    activeThisWeek := ActiveThisWeek(store.kids);
  }

  /** The log-out menu item: the store's `logout`. */
  method HandleLogout(store: Store)
    modifies store
    ensures store.State() == LoggedOut(old(store.State()))
  {
    store.Logout();
  }
}
