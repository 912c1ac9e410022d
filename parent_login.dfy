/** The parent log-in form. Nothing is checked: any address and password log the
    demo parent in under the address entered. */
module ParentLogin {
  import opened Wrappers
  import opened AppContext

  /** The parent recorded on log-in: the demo name with the entered address. */
  function LoggedInParent(email: string): Parent {
    Parent("1", "Sarah Johnson", email)
  }

  /** The session after a log-in. */
  function LoginSession(s: Session, email: string): (t: Session)
    ensures t.isParentLoggedIn && t.currentParent == Some(LoggedInParent(email))
    ensures t.kids == s.kids && t.currentKid == s.currentKid && t.isKidLoggedIn == s.isKidLoggedIn
  {
    s.(currentParent := Some(LoggedInParent(email)), isParentLoggedIn := true)
  }

  /** A log-in sets the parent flag and parent and nothing else. */
  lemma LoginSessionFacts(s: Session, email: string)
    ensures var t := LoginSession(s, email);
      && t.isParentLoggedIn && ParentSessionConsistent(t)
      && t.currentParent == Some(LoggedInParent(email))
      && t.currentParent.value.id == "1" && t.currentParent.value.name == "Sarah Johnson"
      && t.currentParent.value.email == email
      && t.kids == s.kids && t.currentKid == s.currentKid && t.isKidLoggedIn == s.isKidLoggedIn
      && (KidSessionConsistent(s) ==> KidSessionConsistent(t))
  {
  }

  /** `handleSubmit`: the password and the remember-me box play no part. */
  method HandleSubmit(store: Store, email: string, password: string, rememberMe: bool)
    modifies store
    ensures store.State() == LoginSession(old(store.State()), email)
  {
    store.SetCurrentParent(Some(LoggedInParent(email)));
    store.SetIsParentLoggedIn(true);
  }
}
