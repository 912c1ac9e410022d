/** The "Famous People Who Stutter" lesson: five cards, a heart per card, and a
    reward when the deck is finished. */
module LessonFamousPeople {
  import opened Wrappers
  import opened AppContext
  import opened SeqUtil

  const CardCount := 5
  const LastCard := CardCount - 1
  const InspirationSeeker := "inspiration-seeker"
  const FamousPoints := 50
  const FamousLessons := 2

  /** The partial record passed to `updateKid` when the deck is finished. */
  function FamousUpdate(k: Kid): (u: KidUpdate)
    ensures u.(points := None, lessonsCompleted := None, badges := None) == NoFields
    ensures KeepsId(u, k.id)
    ensures Merge(k, u).points == k.points + FamousPoints
    ensures Merge(k, u).lessonsCompleted >= FamousLessons && Merge(k, u).lessonsCompleted >= k.lessonsCompleted
    ensures InspirationSeeker in Merge(k, u).badges && |k.badges| <= |Merge(k, u).badges| && Merge(k, u).badges[..|k.badges|] == k.badges
  {
    NoFields.(
      points := Some(k.points + FamousPoints),
      lessonsCompleted := Some(Max(k.lessonsCompleted, FamousLessons)),
      badges := Some(AppendIfAbsent(k.badges, InspirationSeeker)))
  }

  /** The reward: 50 more points, at least two lessons (never fewer than
      before), the badge held, the old badges kept in order with at most the new
      one after them, and no other field touched. */
  lemma FamousRewardEffect(k: Kid)
    ensures var r := Merge(k, FamousUpdate(k));
      && r.points == k.points + 50
      && r.lessonsCompleted >= 2 && r.lessonsCompleted >= k.lessonsCompleted
      && (r.lessonsCompleted == 2 || r.lessonsCompleted == k.lessonsCompleted)
      && "inspiration-seeker" in r.badges
      && (InspirationSeeker in k.badges ==> r.badges == k.badges)
      && (InspirationSeeker !in k.badges ==> r.badges == k.badges + [InspirationSeeker])
      && r.(points := k.points, lessonsCompleted := k.lessonsCompleted, badges := k.badges) == k
  {
  }

  /** Finishing the deck again only adds points: lessons and badges are as after
      the first time. */
  lemma FamousRepeated(k: Kid)
    ensures var once := Merge(k, FamousUpdate(k));
      var twice := Merge(once, FamousUpdate(once));
      && twice.badges == once.badges
      && twice.lessonsCompleted == once.lessonsCompleted
      && twice.points == k.points + 100
  {
    AppendIfAbsentIdempotent(k.badges, InspirationSeeker);
  }

  /** Unlike the voices lesson, this reward never duplicates a badge. */
  lemma FamousKeepsBadgesDistinct(k: Kid)
    requires Distinct(k.badges)
    ensures Distinct(Merge(k, FamousUpdate(k)).badges)
  {
    AppendIfAbsentDistinct(k.badges, InspirationSeeker);
  }

  /** The page's own state. */
  class FamousPage {
    var currentCard: int
    var inspired: seq<int>
    var showCompletion: bool

    /** The card index stays on a card; `inspired` holds card indices, each once. */
    predicate Valid()
      reads this
    {
      && 0 <= currentCard <= LastCard
      && Distinct(inspired)
      && forall c :: c in inspired ==> 0 <= c <= LastCard
    }

    constructor ()
      ensures Valid() && currentCard == 0 && inspired == [] && !showCompletion
    {
      currentCard := 0;
      inspired := [];
      showCompletion := false;
    }

    /** Next card, or on the last card the reward and the completion screen. */
    method HandleNext(store: Store)
      requires Valid()
      modifies this, store
      ensures Valid()
      ensures inspired == old(inspired)
      ensures old(currentCard) < LastCard ==>
        currentCard == old(currentCard) + 1 && showCompletion == old(showCompletion) && store.State() == old(store.State())
      ensures old(currentCard) == LastCard ==>
        currentCard == LastCard && showCompletion && store.State() == RewardCurrentKid(old(store.State()), FamousUpdate)
    {
      if currentCard < CardCount - 1 {
        currentCard := currentCard + 1;
      } else {
        if store.currentKid.Some? {
          var k := store.currentKid.value;
          store.UpdateKid(k.id, FamousUpdate(k));
        }
        showCompletion := true;
      }
    }

    /** Previous card; nothing on the first one. */
    method HandlePrev()
      requires Valid()
      modifies this
      ensures Valid()
      ensures currentCard == if old(currentCard) > 0 then old(currentCard) - 1 else 0
      ensures inspired == old(inspired) && showCompletion == old(showCompletion)
    {
      if currentCard > 0 {
        currentCard := currentCard - 1;
      }
    }

    /** The heart: records the current card once. */
    method HandleInspire()
      requires Valid()
      modifies this
      ensures Valid()
      ensures inspired == AppendIfAbsent(old(inspired), currentCard)
      ensures currentCard == old(currentCard) && showCompletion == old(showCompletion)
      ensures |inspired| <= CardCount
    {
      if currentCard !in inspired {
        inspired := inspired + [currentCard];
      }
      InspiredBound(inspired);
    }
  }

  /** At most one heart per card: never more hearts than cards. */
  lemma InspiredBound(inspired: seq<int>)
    requires Distinct(inspired)
    requires forall c :: c in inspired ==> 0 <= c <= LastCard
    ensures |inspired| <= CardCount
  {
    DistinctBelowBound(inspired, CardCount);
  }
}
