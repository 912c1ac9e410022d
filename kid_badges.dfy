/** The kid's badge collection: the fixed catalogue, each badge shown earned or not. */
module KidBadges {
  import opened Wrappers
  import opened AppContext
  import opened SeqUtil
  import opened DemoLogin
  import LessonVoices

  /** The ids of the six badges the page lists. */
  const AllBadges: seq<string> := [
    "voice-explorer", "inspiration-seeker", "brave-speaker",
    "streak-master", "confidence-builder", "practice-champion"
  ]

  /** `isEarned` for each catalogue entry in order: a badge is shown earned
      exactly when its id is among the kid's badges. */
  function EarnedFlags(catalogue: seq<string>, badges: seq<string>): (r: seq<bool>)
    ensures |r| == |catalogue|
    ensures forall i :: 0 <= i < |catalogue| ==> (r[i] <==> catalogue[i] in badges)
  {
    if catalogue == [] then [] else [catalogue[0] in badges] + EarnedFlags(catalogue[1..], badges)
  }

  /** `allBadges.filter(b => kid.badges.includes(b.id)).length`. */
  function EarnedCount(catalogue: seq<string>, badges: seq<string>): (n: nat)
    ensures n <= |catalogue|
  {
    if catalogue == [] then 0
    else (if catalogue[0] in badges then 1 else 0) + EarnedCount(catalogue[1..], badges)
  }

  /** The count in the header is the number of badges shown earned. */
  lemma {:induction false} EarnedCountIsShownCount(catalogue: seq<string>, badges: seq<string>)
    ensures EarnedCount(catalogue, badges) == Count(EarnedFlags(catalogue, badges), true)
  {
    if catalogue != [] {
      assert EarnedFlags(catalogue, badges)[1..] == EarnedFlags(catalogue[1..], badges);
      EarnedCountIsShownCount(catalogue[1..], badges);
    }
  }

  /** The count sees only which catalogue ids are held: two badge lists with the
      same catalogue members give the same count, whatever their order, duplicates
      or other ids. */
  lemma {:induction false} EarnedCountByMembership(catalogue: seq<string>, a: seq<string>, b: seq<string>)
    requires forall c :: c in catalogue ==> (c in a <==> c in b)
    ensures EarnedCount(catalogue, a) == EarnedCount(catalogue, b)
  {
    if catalogue != [] {
      assert catalogue[0] in catalogue;
      EarnedCountByMembership(catalogue[1..], a, b);
    }
  }

  /** A duplicate or an id outside the catalogue does not change the count. */
  lemma EarnedCountIgnores(badges: seq<string>, x: string)
    requires x !in AllBadges || x in badges
    ensures EarnedCount(AllBadges, badges + [x]) == EarnedCount(AllBadges, badges)
  {
    EarnedCountByMembership(AllBadges, badges + [x], badges);
  }

  /** A catalogue badge not yet held adds exactly one. */
  lemma {:induction false} EarnedCountNew(catalogue: seq<string>, badges: seq<string>, x: string)
    requires Distinct(catalogue) && x in catalogue && x !in badges
    ensures EarnedCount(catalogue, badges + [x]) == EarnedCount(catalogue, badges) + 1
  {
    if catalogue[0] == x {
      assert x !in catalogue[1..];
      EarnedCountByMembership(catalogue[1..], badges + [x], badges);
    } else {
      EarnedCountNew(catalogue[1..], badges, x);
    }
  }

  /** The first voices lesson shows one more earned badge; repeating it, although
      it appends the badge again, shows none more. */
  lemma VoicesBadgeOnPage(k: Kid)
    ensures var once := Merge(k, LessonVoices.VoicesUpdate(k));
      && (LessonVoices.VoiceExplorer !in k.badges ==> EarnedCount(AllBadges, once.badges) == EarnedCount(AllBadges, k.badges) + 1)
      && EarnedCount(AllBadges, Merge(once, LessonVoices.VoicesUpdate(once)).badges) == EarnedCount(AllBadges, once.badges)
  {
    var once := Merge(k, LessonVoices.VoicesUpdate(k));
    if LessonVoices.VoiceExplorer !in k.badges {
      EarnedCountNew(AllBadges, k.badges, LessonVoices.VoiceExplorer);
    }
    EarnedCountIgnores(once.badges, LessonVoices.VoiceExplorer);
  }

  /** Rendering the page: the demo kid log-in, and the kid the render saw with its
      earned count (`None` is the "please log in" screen). */
  method Open(store: Store) returns (kid: Option<Kid>, earned: nat)
    modifies store
    ensures store.State() == KidAutoLogin(old(store.State()))
    ensures kid == DisplayedKid(old(store.State()))
    ensures kid.Some? ==> earned == EarnedCount(AllBadges, kid.value.badges) && earned <= 6
    ensures kid.None? ==> earned == 0
  {
    kid := DisplayedKid(store.State());
    AutoLoginKid(store);
    earned := if kid.Some? then EarnedCount(AllBadges, kid.value.badges) else 0;
  }
}
