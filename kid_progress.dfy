/** A parent's view of one child's progress: the kid chosen by the route id, the
    static lessons table with its labels, and the static badges table. */
module KidProgress {
  import opened Wrappers
  import opened AppContext
  import opened Text
  import opened SeqUtil
  import opened DemoLogin
  import KidBadges
  import LessonVoices

  /** `kids.find(k => k.id === kidId) || kids[0]`; a missing route id matches no
      kid, and `None` is the "Kid not found" screen. */
  function LookupKid(kids: seq<Kid>, kidId: Option<string>): (r: Option<Kid>)
    ensures r.None? <==> kids == []
    ensures r.Some? ==> r.value in kids
    ensures kidId.Some? && HasId(kids, kidId.value) ==>
      r.Some? && r.value.id == kidId.value
      && exists i :: 0 <= i < |kids| && kids[i] == r.value && forall j :: 0 <= j < i ==> kids[j].id != kidId.value
    ensures (kidId.None? || !HasId(kids, kidId.value)) && kids != [] ==> r == Some(kids[0])
  {
    var found := if kidId.Some? then FindById(kids, kidId.value) else None;
    if found.Some? then found
    else if kids != [] then Some(kids[0])
    else None
  }

  /** On the sample roster, id "2" finds Jake and an unknown id falls back to Emma. */
  lemma LookupKidExamples()
    ensures LookupKid(SampleKids, Some("2")) == Some(SampleKids[1])
    ensures LookupKid(SampleKids, Some("7")) == Some(SampleKids[0])
    ensures LookupKid(SampleKids, None) == Some(SampleKids[0])
    ensures LookupKid([], Some("1")) == None
  {
    assert HasId(SampleKids, "2") by { assert SampleKids[1].id == "2"; }
  }

  datatype ProgressLesson = ProgressLesson(id: nat, title: string, status: string, points: nat, premium: bool)

  /** The lessons tab's table. */
  const Lessons: seq<ProgressLesson> := [
    ProgressLesson(1, "Why Voices Are Different", "completed", 50, false),
    ProgressLesson(2, "Famous People Who Stutter", "completed", 50, false),
    ProgressLesson(3, "Brave Speaking Practice", "in-progress", 100, true),
    ProgressLesson(4, "Breathing Techniques", "locked", 75, true),
    ProgressLesson(5, "Confident Conversations", "locked", 100, true)
  ]

  /** The status line under a lesson title: each label is shown in exactly one case. */
  function StatusLabel(l: ProgressLesson): (r: string)
    ensures r == "Completed" <==> l.status == "completed"
    ensures r == "In Progress" <==> l.status == "in-progress"
    ensures r == "Premium" <==> l.status != "completed" && l.status != "in-progress" && l.premium
    ensures r == "Locked" <==> l.status != "completed" && l.status != "in-progress" && !l.premium
  {
    if l.status == "completed" then "Completed"
    else if l.status == "in-progress" then "In Progress"
    else if l.premium then "Premium"
    else "Locked"
  }

  /** The points badge: `+N` for a completed lesson, `N pts` otherwise; either way
      the digits in it denote the lesson's points. */
  function PointsLabel(l: ProgressLesson): (r: string)
    ensures l.status == "completed" ==>
      |r| >= 2 && r[0] == '+' && AllDigits(r[1..]) && DigitsValue(r[1..]) == l.points
      && (r[1] == '0' <==> l.points == 0) && (|r| == 2 || r[1] != '0')
    ensures l.status != "completed" ==>
      |r| >= 5 && r[|r| - 4..] == " pts" && AllDigits(r[..|r| - 4]) && DigitsValue(r[..|r| - 4]) == l.points
      && (r[0] == '0' <==> l.points == 0) && (|r| == 5 || r[0] != '0')
  {
    var n := NatToString(l.points);
    if l.status == "completed" then
      assert ("+" + n)[1..] == n;
      "+" + n
    else
      assert (n + " pts")[..|n|] == n;
      assert (n + " pts")[|n|..] == " pts";
      n + " pts"
  }

  /** The lessons tab as shown: two completed, one in progress, two premium. */
  lemma LessonTableLabels()
    ensures |Lessons| == 5
    ensures StatusLabel(Lessons[0]) == "Completed" && StatusLabel(Lessons[1]) == "Completed"
    ensures StatusLabel(Lessons[2]) == "In Progress"
    ensures StatusLabel(Lessons[3]) == "Premium" && StatusLabel(Lessons[4]) == "Premium"
    ensures forall l :: l in Lessons ==> StatusLabel(l) != "Locked"
  {
  }

  /** The points badges of the first and fourth lessons. */
  lemma PointsLabelExamples()
    ensures PointsLabel(Lessons[0]) == "+50"
    ensures PointsLabel(Lessons[3]) == "75 pts"
  {
    var fifty, seventyFive := NatToString(50), NatToString(75);
    assert fifty == "50" by {
      assert fifty == NatToString(5) + [DigitChar(0)];
    }
    assert seventyFive == "75" by {
      assert seventyFive == NatToString(7) + [DigitChar(5)];
    }
    var first, fourth := Lessons[0], Lessons[3];
    assert first == ProgressLesson(1, "Why Voices Are Different", "completed", 50, false);
    assert fourth == ProgressLesson(4, "Breathing Techniques", "locked", 75, true);
  }

  datatype ProgressBadge = ProgressBadge(id: string, name: string, earned: bool)

  /** The badges tab's table, with its fixed earned flags. */
  const Badges: seq<ProgressBadge> := [
    ProgressBadge("voice-explorer", "Voice Explorer", true),
    ProgressBadge("inspiration-seeker", "Inspiration Seeker", true),
    ProgressBadge("brave-speaker", "Brave Speaker", false),
    ProgressBadge("streak-master", "Streak Master", false),
    ProgressBadge("confidence-builder", "Confidence Builder", false),
    ProgressBadge("practice-champion", "Practice Champion", false)
  ]

  /** `badges.filter(b => b.earned).length`. */
  function EarnedShown(bs: seq<ProgressBadge>): (n: nat)
    ensures n <= |bs|
    ensures n == 0 <==> forall i :: 0 <= i < |bs| ==> !bs[i].earned
  {
    if bs == [] then 0
    else
      var rest := EarnedShown(bs[1..]);
      assert forall i :: 1 <= i < |bs| ==> bs[i] == bs[1..][i - 1];
      (if bs[0].earned then 1 else 0) + rest
  }

  /** "2 of 6 badges earned"; the table lists the same six ids, in the same order,
      as the kid's badge page. Its flags are fixed, not read from the kid. */
  lemma BadgesTabSummary()
    ensures EarnedShown(Badges) == 2 && |Badges| == 6
    ensures forall i :: 0 <= i < 6 ==> Badges[i].id == KidBadges.AllBadges[i]
  {
    assert forall i :: 0 <= i < |Badges[2..]| ==> !Badges[2..][i].earned;
    assert Badges[1..][1..] == Badges[2..];
  }

  /** The "Badges earned" figure on the progress tab is `kid.badges.length`, which
      counts every copy: a second voices lesson raises it although the badge page's
      count stays the same. */
  lemma BadgeFigureCountsCopies(k: Kid)
    ensures var once := Merge(k, LessonVoices.VoicesUpdate(k));
      var twice := Merge(once, LessonVoices.VoicesUpdate(once));
      && |twice.badges| == |once.badges| + 1
      && KidBadges.EarnedCount(KidBadges.AllBadges, twice.badges) == KidBadges.EarnedCount(KidBadges.AllBadges, once.badges)
  {
    KidBadges.VoicesBadgeOnPage(k);
  }

  /** Rendering the page for the route id: the demo parent log-in, then the lookup
      in the roster the render saw. */
  method Open(store: Store, kidId: Option<string>) returns (kid: Option<Kid>)
    modifies store
    ensures store.State() == ParentAutoLogin(old(store.State()))
    ensures kid == LookupKid(old(store.kids), kidId)
    ensures kid.None? <==> store.kids == []
  {
    var kids := store.kids;
    AutoLoginParent(store);
    kid := LookupKid(kids, kidId);
  }
}
