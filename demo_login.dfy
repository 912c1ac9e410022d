/** The demo logins several pages run while they render, and the fallback the
    kid pages share for the kid they show (`currentKid || kids[0]`). The pages
    repeat this code; it is written once here and each page calls it. */
module DemoLogin {
  import opened Wrappers
  import opened AppContext

  /** The parent record the parent pages write; the same value as the store's
      sample parent. */
  const DemoParent := Parent("1", "Sarah Johnson", "sarah@example.com")

  /** `if (!isParentLoggedIn) { setIsParentLoggedIn(true); setCurrentParent(Sarah) }` */
  function ParentAutoLogin(s: Session): (t: Session)
    ensures t.isParentLoggedIn
    ensures s.isParentLoggedIn ==> t == s
    ensures !s.isParentLoggedIn ==> t.currentParent == Some(DemoParent)
    ensures t.kids == s.kids && t.currentKid == s.currentKid && t.isKidLoggedIn == s.isKidLoggedIn
  {
    if !s.isParentLoggedIn then s.(isParentLoggedIn := true, currentParent := Some(DemoParent)) else s
  }

  /** `if (!isKidLoggedIn && kids.length > 0) loginAsKid(kids[0])` */
  function KidAutoLogin(s: Session): (t: Session)
    ensures s.kids != [] ==> t.isKidLoggedIn
    ensures s.isKidLoggedIn || s.kids == [] ==> t == s
    ensures !s.isKidLoggedIn && s.kids != [] ==> t.currentKid == Some(s.kids[0])
    ensures t.kids == s.kids && t.isParentLoggedIn == s.isParentLoggedIn && t.currentParent == s.currentParent
  {
    if !s.isKidLoggedIn && |s.kids| > 0 then LoginAsKidIn(s, s.kids[0]) else s
  }

  /** `currentKid || kids[0]`; `None` is the "please log in" screen. */
  function DisplayedKid(s: Session): (r: Option<Kid>)
    ensures r.None? <==> s.currentKid.None? && s.kids == []
    ensures s.currentKid.Some? ==> r == s.currentKid
    ensures s.currentKid.None? && s.kids != [] ==> r == Some(s.kids[0])
    ensures KidSessionConsistent(s) && r.Some? ==> r.value in s.kids
  {
    if s.currentKid.Some? then s.currentKid
    else if |s.kids| > 0 then Some(s.kids[0])
    else None
  }

  /** After the parent auto-login the flag is set; a logged-out session gets the
      demo parent and nothing else changes; a second run does nothing. */
  lemma ParentAutoLoginFacts(s: Session)
    ensures DemoParent == SampleParent
    ensures var t := ParentAutoLogin(s);
      && t.isParentLoggedIn
      && (!s.isParentLoggedIn ==> t == s.(isParentLoggedIn := true, currentParent := Some(DemoParent)))
      && (s.isParentLoggedIn ==> t == s)
      && t.kids == s.kids && t.currentKid == s.currentKid && t.isKidLoggedIn == s.isKidLoggedIn
      && (ParentSessionConsistent(s) ==> ParentSessionConsistent(t) && t.currentParent.Some?)
      && ParentAutoLogin(t) == t
  {
  }

  /** From a consistent session the kid auto-login stays consistent, and the page
      then shows the logged-in kid, a roster entry, unless the roster is empty. */
  lemma KidAutoLoginFacts(s: Session)
    requires KidSessionConsistent(s)
    ensures var t := KidAutoLogin(s);
      && KidSessionConsistent(t)
      && (!s.isKidLoggedIn && s.kids != [] ==> t == LoginAsKidIn(s, s.kids[0]))
      && (s.isKidLoggedIn || s.kids == [] ==> t == s)
      && (DisplayedKid(t).None? <==> s.kids == [])
      && (s.kids != [] ==> DisplayedKid(t) == t.currentKid && t.currentKid.value in t.kids)
      && KidAutoLogin(t) == t
  {
  }

  /** The pages pick the kid to show from the state their render saw, before the
      auto-login takes effect; in a consistent session that is the same kid the
      new state would give. */
  lemma DisplayedKidStable(s: Session)
    requires KidSessionConsistent(s)
    ensures DisplayedKid(KidAutoLogin(s)) == DisplayedKid(s)
  {
  }

  /** The parent auto-login as the pages perform it, on the live store. */
  method AutoLoginParent(store: Store)
    modifies store
    ensures store.State() == ParentAutoLogin(old(store.State()))
  {
    if !store.isParentLoggedIn {
      store.SetIsParentLoggedIn(true);
      store.SetCurrentParent(Some(DemoParent));
    }
  }

  /** The kid auto-login as the pages perform it, on the live store. */
  method AutoLoginKid(store: Store)
    modifies store
    ensures store.State() == KidAutoLogin(old(store.State()))
  {
    if !store.isKidLoggedIn && |store.kids| > 0 {
      store.LoginAsKid(store.kids[0]);
    }
  }
}
