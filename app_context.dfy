/** The application's session and roster store: two login flags, the current
    parent and kid, and the roster of kid profiles, with the operations every
    page uses to change them. */
module AppContext {
  import opened Wrappers

  /** A child's profile as the roster holds it. */
  datatype Kid = Kid(
    id: string,
    name: string,
    age: int,
    avatar: string,
    points: int,
    lessonsCompleted: int,
    totalLessons: int,
    streak: int,
    lastActive: string,
    badges: seq<string>,
    goals: seq<string>)

  datatype Parent = Parent(id: string, name: string, email: string)

  /** `Partial<Kid>`: each field is either present (`Some`) or absent (`None`). */
  datatype KidUpdate = KidUpdate(
    id: Option<string>,
    name: Option<string>,
    age: Option<int>,
    avatar: Option<string>,
    points: Option<int>,
    lessonsCompleted: Option<int>,
    totalLessons: Option<int>,
    streak: Option<int>,
    lastActive: Option<string>,
    badges: Option<seq<string>>,
    goals: Option<seq<string>>)

  /** The empty partial record `{}`. */
  const NoFields := KidUpdate(None, None, None, None, None, None, None, None, None, None, None)

  /** `{ ...k, ...u }`: a field present in `u` replaces the one in `k`, every
      absent field keeps its value, and `{}` changes nothing. */
  function Merge(k: Kid, u: KidUpdate): (r: Kid)
    ensures u == NoFields ==> r == k
    ensures (u.id.Some? ==> r.id == u.id.value) && (u.id.None? ==> r.id == k.id)
    ensures (u.name.Some? ==> r.name == u.name.value) && (u.name.None? ==> r.name == k.name)
    ensures (u.age.Some? ==> r.age == u.age.value) && (u.age.None? ==> r.age == k.age)
    ensures (u.avatar.Some? ==> r.avatar == u.avatar.value) && (u.avatar.None? ==> r.avatar == k.avatar)
    ensures (u.points.Some? ==> r.points == u.points.value) && (u.points.None? ==> r.points == k.points)
    ensures (u.lessonsCompleted.Some? ==> r.lessonsCompleted == u.lessonsCompleted.value) && (u.lessonsCompleted.None? ==> r.lessonsCompleted == k.lessonsCompleted)
    ensures (u.totalLessons.Some? ==> r.totalLessons == u.totalLessons.value) && (u.totalLessons.None? ==> r.totalLessons == k.totalLessons)
    ensures (u.streak.Some? ==> r.streak == u.streak.value) && (u.streak.None? ==> r.streak == k.streak)
    ensures (u.lastActive.Some? ==> r.lastActive == u.lastActive.value) && (u.lastActive.None? ==> r.lastActive == k.lastActive)
    ensures (u.badges.Some? ==> r.badges == u.badges.value) && (u.badges.None? ==> r.badges == k.badges)
    ensures (u.goals.Some? ==> r.goals == u.goals.value) && (u.goals.None? ==> r.goals == k.goals)
  {
    Kid(
      u.id.GetOr(k.id),
      u.name.GetOr(k.name),
      u.age.GetOr(k.age),
      u.avatar.GetOr(k.avatar),
      u.points.GetOr(k.points),
      u.lessonsCompleted.GetOr(k.lessonsCompleted),
      u.totalLessons.GetOr(k.totalLessons),
      u.streak.GetOr(k.streak),
      u.lastActive.GetOr(k.lastActive),
      u.badges.GetOr(k.badges),
      u.goals.GetOr(k.goals))
  }

  /** `{ ...u, ...v }`: the partial record that spreading `u` then `v` applies. */
  function Combine(u: KidUpdate, v: KidUpdate): KidUpdate {
    KidUpdate(
      if v.id.Some? then v.id else u.id,
      if v.name.Some? then v.name else u.name,
      if v.age.Some? then v.age else u.age,
      if v.avatar.Some? then v.avatar else u.avatar,
      if v.points.Some? then v.points else u.points,
      if v.lessonsCompleted.Some? then v.lessonsCompleted else u.lessonsCompleted,
      if v.totalLessons.Some? then v.totalLessons else u.totalLessons,
      if v.streak.Some? then v.streak else u.streak,
      if v.lastActive.Some? then v.lastActive else u.lastActive,
      if v.badges.Some? then v.badges else u.badges,
      if v.goals.Some? then v.goals else u.goals)
  }

  /** Merging `{}` changes nothing, merging the same record twice is merging it
      once, and two merges in a row are one merge of the combined record. */
  lemma MergeLaws(k: Kid, u: KidUpdate, v: KidUpdate)
    ensures Merge(k, NoFields) == k
    ensures Merge(Merge(k, u), u) == Merge(k, u)
    ensures Merge(Merge(k, u), v) == Merge(k, Combine(u, v))
  {
  }

  /** The roster after `prev.map(kid => kid.id === id ? { ...kid, ...u } : kid)`. */
  function UpdateRoster(kids: seq<Kid>, id: string, u: KidUpdate): (r: seq<Kid>)
    ensures |r| == |kids|
    ensures forall i :: 0 <= i < |kids| ==>
      r[i] == (if kids[i].id == id then Merge(kids[i], u) else kids[i])
  {
    if kids == [] then []
    else [if kids[0].id == id then Merge(kids[0], u) else kids[0]] + UpdateRoster(kids[1..], id, u)
  }

  /** Some roster entry carries `id`. */
  predicate HasId(kids: seq<Kid>, id: string) {
    exists i :: 0 <= i < |kids| && kids[i].id == id
  }

  /** No two roster entries share an id. */
  predicate UniqueIds(kids: seq<Kid>) {
    forall i, j :: 0 <= i < j < |kids| ==> kids[i].id != kids[j].id
  }

  /** `kids.find(k => k.id === id)`: the first entry with that id. */
  function FindById(kids: seq<Kid>, id: string): (r: Option<Kid>)
    ensures r.None? <==> !HasId(kids, id)
    ensures r.Some? ==> r.value.id == id
    ensures r.Some? ==> exists i :: 0 <= i < |kids| && kids[i] == r.value && (forall j :: 0 <= j < i ==> kids[j].id != id)
  {
    if kids == [] then None
    else if kids[0].id == id then Some(kids[0])
    else
      var r := FindById(kids[1..], id);
      assert HasId(kids, id) ==> HasId(kids[1..], id) by {
        if HasId(kids, id) {
          var i :| 0 <= i < |kids| && kids[i].id == id;
          assert kids[1..][i - 1].id == id;
        }
      }
      if r.Some? then
        var i :| 0 <= i < |kids[1..]| && kids[1..][i] == r.value && (forall j :: 0 <= j < i ==> kids[1..][j].id != id);
        assert kids[i + 1] == r.value && forall j :: 0 <= j < i + 1 ==> kids[j].id != id;
        r
      else
        r
  }

  /** The mirrored merge into `currentKid`: applied only when the current kid
      has id `id`. */
  function MergeCurrent(cur: Option<Kid>, id: string, u: KidUpdate): (r: Option<Kid>)
    ensures r.Some? <==> cur.Some?
    ensures cur.Some? && cur.value.id == id ==> r.value == Merge(cur.value, u)
    ensures cur.None? || cur.value.id != id ==> r == cur
  {
    if cur.Some? && cur.value.id == id then Some(Merge(cur.value, u)) else cur
  }

  /** Every value the store holds. */
  datatype Session = Session(
    isParentLoggedIn: bool,
    isKidLoggedIn: bool,
    currentParent: Option<Parent>,
    currentKid: Option<Kid>,
    kids: seq<Kid>)

  const SampleKids: seq<Kid> := [
    Kid("1", "Emma", 8, "\U{F8FF}\U{FC}\U{B6}\U{C5}", 250, 3, 10, 3, "2 hours ago",
        ["voice-explorer", "inspiration-seeker"], ["Building confidence", "Understanding their voice"]),
    Kid("2", "Jake", 10, "\U{F8FF}\U{FC}\U{EA}\U{BA}", 50, 1, 10, 1, "Yesterday",
        ["voice-explorer"], ["Speaking practice", "Learning from role models"])
  ]

  const SampleParent := Parent("1", "Sarah Johnson", "sarah@example.com")

  /** The state the provider starts in. */
  const InitialSession := Session(false, false, None, None, SampleKids)

  /** `addKid(k)`: append, with no check for an existing id. */
  function AddKidTo(s: Session, k: Kid): (t: Session)
    ensures |t.kids| == |s.kids| + 1 && t.kids[|s.kids|] == k && t.kids[..|s.kids|] == s.kids
    ensures t.(kids := s.kids) == s
  {
    s.(kids := s.kids + [k])
  }

  /** `updateKid(id, u)`: every roster entry with `id` and the current kid when it
      has `id` get the merge; the flags and the parent stay. */
  function UpdateKidIn(s: Session, id: string, u: KidUpdate): (t: Session)
    ensures |t.kids| == |s.kids|
    ensures forall i :: 0 <= i < |s.kids| ==>
      t.kids[i] == (if s.kids[i].id == id then Merge(s.kids[i], u) else s.kids[i])
    ensures s.currentKid.Some? && s.currentKid.value.id == id ==> t.currentKid == Some(Merge(s.currentKid.value, u))
    ensures s.currentKid.None? || s.currentKid.value.id != id ==> t.currentKid == s.currentKid
    ensures t.isParentLoggedIn == s.isParentLoggedIn && t.isKidLoggedIn == s.isKidLoggedIn
    ensures t.currentParent == s.currentParent
  {
    s.(kids := UpdateRoster(s.kids, id, u), currentKid := MergeCurrent(s.currentKid, id, u))
  }

  /** `loginAsKid(k)`: no check that `k` is on the roster. */
  function LoginAsKidIn(s: Session, k: Kid): (t: Session)
    ensures t.isKidLoggedIn && t.currentKid == Some(k)
    ensures t.kids == s.kids && t.isParentLoggedIn == s.isParentLoggedIn && t.currentParent == s.currentParent
  {
    s.(currentKid := Some(k), isKidLoggedIn := true)
  }

  /** `logout()`: both flags and both identities cleared; the roster stays. */
  function LoggedOut(s: Session): (t: Session)
    ensures !t.isParentLoggedIn && !t.isKidLoggedIn && t.currentParent.None? && t.currentKid.None?
    ensures t.kids == s.kids
  {
    s.(isParentLoggedIn := false, isKidLoggedIn := false, currentParent := None, currentKid := None)
  }

  /** The provider's effect: a parent flag without a parent gets the sample parent. */
  function SampleParentStep(s: Session): (t: Session)
    ensures t.isParentLoggedIn ==> t.currentParent.Some?
    ensures t.(currentParent := s.currentParent) == s
    ensures s.currentParent.Some? || !s.isParentLoggedIn ==> t == s
    ensures s.isParentLoggedIn && s.currentParent.None? ==> t.currentParent == Some(SampleParent)
  {
    if s.isParentLoggedIn && s.currentParent.None? then s.(currentParent := Some(SampleParent)) else s
  }

  /** The invariant the store operations keep: the kid flag is set exactly when
      there is a current kid, and the current kid is a roster entry. */
  predicate KidSessionConsistent(s: Session) {
    && (s.isKidLoggedIn <==> s.currentKid.Some?)
    && (s.currentKid.Some? ==> s.currentKid.value in s.kids)
  }

  /** The parent flag is set exactly when there is a current parent. */
  predicate ParentSessionConsistent(s: Session) {
    s.isParentLoggedIn <==> s.currentParent.Some?
  }

  lemma InitialSessionFacts()
    ensures !InitialSession.isParentLoggedIn && !InitialSession.isKidLoggedIn
    ensures InitialSession.currentParent.None? && InitialSession.currentKid.None?
    ensures |InitialSession.kids| == 2 && InitialSession.kids[0].id == "1" && InitialSession.kids[1].id == "2"
    ensures UniqueIds(InitialSession.kids)
    ensures KidSessionConsistent(InitialSession) && ParentSessionConsistent(InitialSession)
  {
  }

  /** `addKid` grows the roster by exactly `k` at the end, whatever its id. */
  lemma AddKidAppends(s: Session, k: Kid)
    ensures |AddKidTo(s, k).kids| == |s.kids| + 1
    ensures AddKidTo(s, k).kids[|s.kids|] == k && AddKidTo(s, k).kids[..|s.kids|] == s.kids
    ensures UniqueIds(AddKidTo(s, k).kids) <==> UniqueIds(s.kids) && !HasId(s.kids, k.id)
    ensures FindById(AddKidTo(s, k).kids, k.id).Some?
  {
    var r := s.kids + [k];
    assert r[|s.kids|].id == k.id;
    if UniqueIds(r) {
      assert forall i :: 0 <= i < |s.kids| ==> s.kids[i] == r[i];
    }
  }

  /** Entries with another id are untouched; entries with `id` get exactly the
      fields of `u`; so an id that is not on the roster leaves it as it was. */
  lemma UpdateRosterUnknownId(kids: seq<Kid>, id: string, u: KidUpdate)
    requires !HasId(kids, id)
    ensures UpdateRoster(kids, id, u) == kids
  {
    var r := UpdateRoster(kids, id, u);
    forall i | 0 <= i < |kids| ensures r[i] == kids[i] {
      assert kids[i].id != id;
    }
  }

  /** With the store's invariant, an unknown id leaves the whole session as it was,
      the current kid included. */
  lemma UpdateKidUnknownId(s: Session, id: string, u: KidUpdate)
    requires KidSessionConsistent(s)
    requires !HasId(s.kids, id)
    ensures UpdateKidIn(s, id, u) == s
  {
    UpdateRosterUnknownId(s.kids, id, u);
    if s.currentKid.Some? {
      var i :| 0 <= i < |s.kids| && s.kids[i] == s.currentKid.value;
      assert s.kids[i].id != id;
    }
  }

  /** An update that leaves `id` alone does not move any id. */
  predicate KeepsId(u: KidUpdate, id: string) {
    u.id.None? || u.id == Some(id)
  }

  /** Looking a kid up after an update finds the same entry, merged when it has `id`. */
  lemma {:induction false} FindAfterUpdate(kids: seq<Kid>, id: string, u: KidUpdate, x: string)
    requires KeepsId(u, id)
    ensures FindById(UpdateRoster(kids, id, u), x) ==
      (match FindById(kids, x)
       case None => None
       case Some(e) => Some(if e.id == id then Merge(e, u) else e))
  {
    if kids != [] {
      var r := UpdateRoster(kids, id, u);
      assert r[1..] == UpdateRoster(kids[1..], id, u);
      assert r[0].id == kids[0].id;
      FindAfterUpdate(kids[1..], id, u, x);
    }
  }

  /** The mirroring: a current kid equal to its roster entry stays equal to it. */
  lemma UpdateKidKeepsMirror(s: Session, id: string, u: KidUpdate)
    requires KeepsId(u, id)
    requires s.currentKid.Some? && FindById(s.kids, s.currentKid.value.id) == s.currentKid
    ensures var t := UpdateKidIn(s, id, u);
      t.currentKid.Some? && FindById(t.kids, t.currentKid.value.id) == t.currentKid
  {
    var c := s.currentKid.value;
    FindAfterUpdate(s.kids, id, u, c.id);
  }

  /** `updateKid` changes the current kid only when it has id `id`, and then by
      the same merge as its roster entries. */
  lemma UpdateKidCurrent(s: Session, id: string, u: KidUpdate)
    ensures var t := UpdateKidIn(s, id, u);
      && |t.kids| == |s.kids|
      && (s.currentKid.None? || s.currentKid.value.id != id ==> t.currentKid == s.currentKid)
      && (s.currentKid.Some? && s.currentKid.value.id == id ==> t.currentKid == Some(Merge(s.currentKid.value, u)))
      && t.isParentLoggedIn == s.isParentLoggedIn && t.isKidLoggedIn == s.isKidLoggedIn
      && t.currentParent == s.currentParent
  {
  }

  /** Each store operation keeps the kid-session invariant; logging a kid in keeps
      it when the kid comes from the roster, as the kid picker's always does. */
  lemma KidSessionPreserved(s: Session, k: Kid, id: string, u: KidUpdate)
    requires KidSessionConsistent(s)
    ensures KidSessionConsistent(AddKidTo(s, k))
    ensures KidSessionConsistent(UpdateKidIn(s, id, u))
    ensures KidSessionConsistent(LoggedOut(s))
    ensures k in s.kids ==> KidSessionConsistent(LoginAsKidIn(s, k))
    ensures KidSessionConsistent(SampleParentStep(s))
  {
    if s.currentKid.Some? {
      var i :| 0 <= i < |s.kids| && s.kids[i] == s.currentKid.value;
      var t := UpdateKidIn(s, id, u);
      assert t.kids[i] == t.currentKid.value;
    }
  }

  /** Logging out twice is logging out once; afterwards nobody is logged in. */
  lemma LogoutIdempotent(s: Session)
    ensures LoggedOut(LoggedOut(s)) == LoggedOut(s)
    ensures var t := LoggedOut(s);
      !t.isParentLoggedIn && !t.isKidLoggedIn && t.currentParent.None? && t.currentKid.None? && t.kids == s.kids
  {
  }

  /** The sample-parent step fills in a missing parent and does nothing else;
      afterwards a set parent flag always comes with a parent. */
  lemma SampleParentStepFacts(s: Session)
    ensures var t := SampleParentStep(s);
      && (s.isParentLoggedIn && s.currentParent.None? ==> t == s.(currentParent := Some(SampleParent)))
      && (!s.isParentLoggedIn || s.currentParent.Some? ==> t == s)
      && (t.isParentLoggedIn ==> t.currentParent.Some?)
      && SampleParentStep(t) == t
  {
  }

  /** updateKid('2', { points: 150 }) on the sample roster changes only Jake's points. */
  lemma SampleUpdateScenario()
    ensures UpdateRoster(SampleKids, "2", NoFields.(points := Some(150))) ==
      [SampleKids[0], SampleKids[1].(points := 150)]
  {
    var r := UpdateRoster(SampleKids, "2", NoFields.(points := Some(150)));
    assert r[0] == SampleKids[0];
    assert r[1] == SampleKids[1].(points := 150);
  }

  /** `if (currentKid) updateKid(currentKid.id, reward(currentKid))`: the step
      every lesson runs on completion; without a current kid nothing changes. */
  function RewardCurrentKid(s: Session, reward: Kid -> KidUpdate): (t: Session)
    ensures s.currentKid.None? ==> t == s
    ensures s.currentKid.Some? ==> t.currentKid == Some(Merge(s.currentKid.value, reward(s.currentKid.value)))
    ensures s.currentKid.Some? ==> t.kids == UpdateRoster(s.kids, s.currentKid.value.id, reward(s.currentKid.value))
    ensures |t.kids| == |s.kids|
    ensures t.isParentLoggedIn == s.isParentLoggedIn && t.isKidLoggedIn == s.isKidLoggedIn
    ensures t.currentParent == s.currentParent
  {
    if s.currentKid.Some? then UpdateKidIn(s, s.currentKid.value.id, reward(s.currentKid.value)) else s
  }

  /** A reward that keeps the kid's id reaches both the current kid and its roster
      entry: the current kid becomes the merged record and is still on the roster,
      and nothing but the roster and the current kid changes. */
  lemma RewardCurrentKidFacts(s: Session, reward: Kid -> KidUpdate)
    requires KidSessionConsistent(s)
    ensures var t := RewardCurrentKid(s, reward);
      && KidSessionConsistent(t)
      && (s.currentKid.None? ==> t == s)
      && (s.currentKid.Some? ==> t.currentKid == Some(Merge(s.currentKid.value, reward(s.currentKid.value))))
      && t.isParentLoggedIn == s.isParentLoggedIn && t.currentParent == s.currentParent
      && t.isKidLoggedIn == s.isKidLoggedIn && |t.kids| == |s.kids|
  {
    if s.currentKid.Some? {
      var k := s.currentKid.value;
      KidSessionPreserved(s, k, k.id, reward(k));
    }
  }

  /** The provider's state, updated in place by the operations it exposes. */
  class Store {
    var isParentLoggedIn: bool
    var isKidLoggedIn: bool
    var currentParent: Option<Parent>
    var currentKid: Option<Kid>
    var kids: seq<Kid>

    /** All five fields as one value. */
    function State(): Session
      reads this
    {
      Session(isParentLoggedIn, isKidLoggedIn, currentParent, currentKid, kids)
    }

    constructor ()
      ensures State() == InitialSession
    {
      isParentLoggedIn := false;
      isKidLoggedIn := false;
      currentParent := None;
      currentKid := None;
      kids := SampleKids;
    }

    method AddKid(k: Kid)
      modifies this
      ensures State() == AddKidTo(old(State()), k)
    {
      kids := kids + [k];
    }

    method UpdateKid(id: string, u: KidUpdate)
      modifies this
      ensures State() == UpdateKidIn(old(State()), id, u)
    {
      kids := UpdateRoster(kids, id, u);
      if currentKid.Some? && currentKid.value.id == id {
        currentKid := Some(Merge(currentKid.value, u));
      }
    }

    method LoginAsKid(k: Kid)
      modifies this
      ensures State() == LoginAsKidIn(old(State()), k)
    {
      currentKid := Some(k);
      isKidLoggedIn := true;
    }

    method Logout()
      modifies this
      ensures State() == LoggedOut(old(State()))
    {
      isParentLoggedIn := false;
      isKidLoggedIn := false;
      currentParent := None;
      currentKid := None;
    }

    /** The provider's effect, run after a change to the parent flag or parent. */
    method SampleParentEffect()
      modifies this
      ensures State() == SampleParentStep(old(State()))
    {
      if isParentLoggedIn && currentParent.None? {
        currentParent := Some(SampleParent);
      }
    }

    /** The raw setters the store also exposes. */
    method SetIsParentLoggedIn(v: bool)
      modifies this
      ensures State() == old(State()).(isParentLoggedIn := v)
    {
      isParentLoggedIn := v;
    }

    method SetIsKidLoggedIn(v: bool)
      modifies this
      ensures State() == old(State()).(isKidLoggedIn := v)
    {
      isKidLoggedIn := v;
    }

    method SetCurrentParent(p: Option<Parent>)
      modifies this
      ensures State() == old(State()).(currentParent := p)
    {
      currentParent := p;
    }

    method SetCurrentKid(k: Option<Kid>)
      modifies this
      ensures State() == old(State()).(currentKid := k)
    {
      currentKid := k;
    }

    method SetKids(ks: seq<Kid>)
      modifies this
      ensures State() == old(State()).(kids := ks)
    {
      kids := ks;
    }
  }
}
