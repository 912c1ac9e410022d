/** The kid's profile: the demo kid log-in, an avatar picker that writes the
    chosen avatar back through `updateKid`, and log-out. */
module KidProfile {
  import opened Wrappers
  import opened AppContext
  import opened DemoLogin
  import SeqUtil

  /** The avatars the picker offers. */
  const Avatars: seq<string> := [
    "\U{1F981}", "\U{1F43C}", "\U{1F98A}", "\U{1F428}",
    "\U{1F42F}", "\U{1F438}", "\U{1F989}", "\U{1F43B}"
  ]

  /** Eight different avatars, each one character. The sample kids' avatars, as
      written in the store, are four characters each, so neither is among them
      and the picker highlights nothing for Emma or Jake. */
  lemma AvatarChoices()
    ensures |Avatars| == 8 && SeqUtil.Distinct(Avatars)
    ensures forall i :: 0 <= i < |Avatars| ==> |Avatars[i]| == 1
    ensures SampleKids[0].avatar !in Avatars && SampleKids[1].avatar !in Avatars
  {
    assert |SampleKids[0].avatar| == 4 && |SampleKids[1].avatar| == 4;
  }

  /** `{ avatar }`: the partial record with only the avatar present. */
  function AvatarOnly(a: string): (u: KidUpdate)
    ensures forall k: Kid :: Merge(k, u) == k.(avatar := a)
  {
    NoFields.(avatar := Some(a))
  }

  /** Changing the avatar of kid `id` changes that field of every entry with that
      id, and of the current kid when it has that id, and nothing else. */
  lemma AvatarChangeOnlyAvatar(s: Session, id: string, a: string)
    ensures var t := UpdateKidIn(s, id, AvatarOnly(a));
      && |t.kids| == |s.kids|
      && (forall i :: 0 <= i < |s.kids| ==> t.kids[i] == if s.kids[i].id == id then s.kids[i].(avatar := a) else s.kids[i])
      && t.currentKid == (if s.currentKid.Some? && s.currentKid.value.id == id then Some(s.currentKid.value.(avatar := a)) else s.currentKid)
      && t.isKidLoggedIn == s.isKidLoggedIn && t.isParentLoggedIn == s.isParentLoggedIn
      && t.currentParent == s.currentParent
  {
  }

  /** The page's own state. */
  class ProfilePage {
    var showAvatarPicker: bool

    constructor ()
      ensures !showAvatarPicker
    {
      showAvatarPicker := false;
    }

    /** The avatar button flips the picker, so two presses restore it. */
    method ToggleAvatarPicker()
      modifies this
      ensures showAvatarPicker == !old(showAvatarPicker)
    {
      showAvatarPicker := !showAvatarPicker;
    }

    /** `handleAvatarChange`: the handler exists only while a kid is shown. It
        updates that kid's avatar in the store and closes the picker. */
    method HandleAvatarChange(store: Store, a: string)
      requires DisplayedKid(store.State()).Some?
      modifies this, store
      ensures !showAvatarPicker
      ensures store.State() == UpdateKidIn(old(store.State()), old(DisplayedKid(store.State())).value.id, AvatarOnly(a))
    {
      var kid := DisplayedKid(store.State()).value;
      store.UpdateKid(kid.id, AvatarOnly(a));
      showAvatarPicker := false;
    }

    /** `handleLogout`: the store's `logout`. */
    method HandleLogout(store: Store)
      modifies store
      ensures store.State() == LoggedOut(old(store.State()))
    {
      store.Logout();
    }
  }

  /** Rendering the page: the demo kid log-in, and the kid the render saw. */
  method Open(store: Store) returns (kid: Option<Kid>)
    modifies store
    ensures store.State() == KidAutoLogin(old(store.State()))
    ensures kid == DisplayedKid(old(store.State()))
  {
    kid := DisplayedKid(store.State());
    AutoLoginKid(store);
  }

  /** After the profile's own render, a picked avatar lands on the shown kid: the
      current kid then carries it, and so does its roster entry. */
  lemma AvatarChangeAfterOpen(s: Session, a: string)
    requires KidSessionConsistent(s) && s.kids != []
    ensures var t := KidAutoLogin(s);
      var k := DisplayedKid(t).value;
      var u := UpdateKidIn(t, k.id, AvatarOnly(a));
      && u.currentKid == Some(k.(avatar := a))
      && k.(avatar := a) in u.kids
  {
    var t := KidAutoLogin(s);
    KidAutoLoginFacts(s);
    var k := DisplayedKid(t).value;
    var i :| 0 <= i < |t.kids| && t.kids[i] == k;
    AvatarChangeOnlyAvatar(t, k.id, a);
    assert UpdateKidIn(t, k.id, AvatarOnly(a)).kids[i] == k.(avatar := a);
  }
}
