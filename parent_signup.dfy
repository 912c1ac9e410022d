/** The parent sign-up form: two checks in a fixed order, then a parent record
    built from the e-mail address. */
module ParentSignup {
  import opened Wrappers
  import opened AppContext
  import opened Text

  datatype SignupOutcome = PasswordMismatch | TermsRequired | SignedUp

  /** The order of the checks: a password mismatch is reported first, missing
      consent to the terms second. */
  function Validate(password: string, confirmPassword: string, agreeTerms: bool): (o: SignupOutcome)
    ensures o == PasswordMismatch <==> password != confirmPassword
    ensures o == TermsRequired <==> password == confirmPassword && !agreeTerms
    ensures o == SignedUp <==> password == confirmPassword && agreeTerms
  {
    if password != confirmPassword then PasswordMismatch
    else if !agreeTerms then TermsRequired
    else SignedUp
  }

  /** `email.split('@')[0]`. */
  function EmailName(email: string): (n: string)
    ensures '@' !in n && IsPrefix(n, email)
    ensures |n| < |email| ==> email[|n|] == '@'
  {
    BeforeFirst(email, '@')
  }

  /** The display name is the local part of the address: a prefix of it with no
      "@" in it, followed in the address by the first "@" if there is one, and
      the whole address when it has none. */
  lemma EmailNameFacts(email: string)
    ensures var n := EmailName(email);
      && '@' !in n
      && IsPrefix(n, email)
      && ('@' in email ==> |n| < |email| && email[|n|] == '@')
      && ('@' !in email ==> n == email)
  {
    if '@' !in email {
      BeforeFirstAbsent(email, '@');
    }
  }

  /** The sample parent's address gives the name "sarah". */
  lemma EmailNameExample()
    ensures EmailName("sarah@example.com") == "sarah"
  {
    var e := "sarah@example.com";
    assert e[..5] == "sarah";
    BeforeFirstAt(e, '@', 5);
  }

  /** The parent a successful sign-up records. */
  function SignedUpParent(email: string): Parent {
    Parent("1", EmailName(email), email)
  }

  /** The session after a successful sign-up. */
  function SignupSession(s: Session, email: string): (t: Session)
    ensures t.isParentLoggedIn && t.currentParent == Some(SignedUpParent(email))
    ensures t.kids == s.kids && t.currentKid == s.currentKid && t.isKidLoggedIn == s.isKidLoggedIn
  {
    s.(currentParent := Some(SignedUpParent(email)), isParentLoggedIn := true)
  }

  /** A sign-up logs the parent in with the derived name and touches neither the
      roster nor the kid session. */
  lemma SignupSessionFacts(s: Session, email: string)
    ensures var t := SignupSession(s, email);
      && t.isParentLoggedIn && ParentSessionConsistent(t)
      && t.currentParent == Some(SignedUpParent(email))
      && t.currentParent.value.id == "1" && t.currentParent.value.email == email
      && t.currentParent.value.name == BeforeFirst(email, '@')
      && t.kids == s.kids && t.currentKid == s.currentKid && t.isKidLoggedIn == s.isKidLoggedIn
  {
  }

  /** `handleSubmit`: any refused check leaves the store as it was. */
  method HandleSubmit(store: Store, email: string, password: string, confirmPassword: string, agreeTerms: bool)
    returns (outcome: SignupOutcome)
    modifies store
    ensures outcome == Validate(password, confirmPassword, agreeTerms)
    ensures outcome != SignedUp ==> store.State() == old(store.State())
    ensures outcome == SignedUp ==> store.State() == SignupSession(old(store.State()), email)
  {
    if password != confirmPassword {
      return PasswordMismatch;
    }
    if !agreeTerms {
      return TermsRequired;
    }
    store.SetCurrentParent(Some(SignedUpParent(email)));
    store.SetIsParentLoggedIn(true);
    return SignedUp;
  }
}
