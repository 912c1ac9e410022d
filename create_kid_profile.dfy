/** The form a parent fills in to add a child: name, age, avatar and goals. */
module CreateKidProfile {
  import opened Wrappers
  import opened AppContext
  import opened SeqUtil

  datatype Goal = Goal(id: string, caption: string)

  /** The goal catalogue the form offers. */
  const Goals: seq<Goal> := [
    Goal("confidence", "Building confidence"),
    Goal("understanding", "Understanding their voice"),
    Goal("practice", "Speaking practice"),
    Goal("role-models", "Learning from role models")
  ]

  /** `handleGoalToggle`: a selected goal is filtered out (every copy of it), an
      unselected one is appended; no other goal's membership changes. */
  function ToggleGoal(selected: seq<string>, goalId: string): (r: seq<string>)
    ensures goalId in selected ==> r == RemoveAll(selected, goalId) && goalId !in r && |r| < |selected|
    ensures goalId !in selected ==> r == selected + [goalId]
    ensures forall g :: g != goalId ==> (g in r <==> g in selected)
  {
    if goalId in selected then
      RemoveAllLength(selected, goalId);
      RemoveAll(selected, goalId)
    else
      selected + [goalId]
  }

  /** Toggling an unselected goal on and off again restores the selection exactly. */
  lemma ToggleTwiceRestores(selected: seq<string>, goalId: string)
    requires goalId !in selected
    ensures ToggleGoal(ToggleGoal(selected, goalId), goalId) == selected
  {
    RemoveAllAppended(selected, goalId);
  }

  /** Deselecting a goal chosen once drops just that entry and keeps the other
      goals in the order they were chosen. */
  lemma ToggleOffKeepsOrder(before: seq<string>, goalId: string, after: seq<string>)
    requires goalId !in before && goalId !in after
    ensures ToggleGoal(before + [goalId] + after, goalId) == before + after
  {
    RemoveAllConcat(before + [goalId], after, goalId);
    RemoveAllConcat(before, [goalId], goalId);
    RemoveAllSingle(goalId, goalId);
  }

  /** A selection without duplicates stays without duplicates. */
  lemma ToggleKeepsDistinct(selected: seq<string>, goalId: string)
    requires Distinct(selected)
    ensures Distinct(ToggleGoal(selected, goalId))
  {
    if goalId in selected {
      RemoveAllDistinct(selected, goalId);
    }
  }

  /** `goals.find(g => g.id === id)?.label || ''`: "" when no goal has the id;
      `LabelOfFirst` gives the label when one does. */
  function LabelOf(goals: seq<Goal>, id: string): (l: string)
    ensures (forall i :: 0 <= i < |goals| ==> goals[i].id != id) ==> l == ""
  {
    if goals == [] then ""
    else if goals[0].id == id then goals[0].caption
    else
      var l := LabelOf(goals[1..], id);
      assert forall i :: 1 <= i < |goals| ==> goals[i] == goals[1..][i - 1];
      l
  }

  /** `selectedGoals.map(id => label)`: one label per selected id, in selection
      order, looked up in the catalogue `goals`. */
  function GoalLabels(goals: seq<Goal>, selected: seq<string>): (r: seq<string>)
    ensures |r| == |selected|
    ensures forall i :: 0 <= i < |selected| ==> r[i] == LabelOf(goals, selected[i])
  {
    if selected == [] then []
    else
      var rest := GoalLabels(goals, selected[1..]);
      assert forall i :: 1 <= i < |selected| ==> selected[i] == selected[1..][i - 1];
      [LabelOf(goals, selected[0])] + rest
  }

  /** The label found is that of the first goal carrying the id. */
  lemma {:induction false} LabelOfFirst(goals: seq<Goal>, id: string, i: nat)
    requires i < |goals| && goals[i].id == id
    requires forall j :: 0 <= j < i ==> goals[j].id != id
    ensures LabelOf(goals, id) == goals[i].caption
  {
    if i > 0 {
      assert goals[1..][i - 1] == goals[i];
      LabelOfFirst(goals[1..], id, i - 1);
    }
  }

  /** Each catalogue id maps to its own label and an unknown id to "". */
  lemma CatalogueLabels()
    ensures forall i :: 0 <= i < |Goals| ==> LabelOf(Goals, Goals[i].id) == Goals[i].caption
    ensures LabelOf(Goals, "bravery") == ""
  {
    LabelOfFirst(Goals, "confidence", 0);
    LabelOfFirst(Goals, "understanding", 1);
    LabelOfFirst(Goals, "practice", 2);
    LabelOfFirst(Goals, "role-models", 3);
  }

  /** The record a successful submit adds to the roster. The id (the clock in the
      source) and the parsed age are supplied by the caller. */
  function NewKid(id: string, name: string, age: int, avatar: string, selected: seq<string>): (k: Kid)
    ensures k.id == id && k.name == name && k.age == age && k.avatar == avatar
    ensures k.points == 0 && k.lessonsCompleted == 0 && k.totalLessons == 10 && k.streak == 0
    ensures k.badges == [] && k.lastActive == "Just now"
    ensures |k.goals| == |selected| && forall i :: 0 <= i < |selected| ==> k.goals[i] == LabelOf(Goals, selected[i])
  {
    Kid(id, name, age, avatar, 0, 0, 10, 0, "Just now", [], GoalLabels(Goals, selected))
  }

  /** A new profile starts with nothing earned, ten lessons to go and one goal
      label per selected goal. */
  lemma NewKidStartsFresh(id: string, name: string, age: int, avatar: string, selected: seq<string>)
    ensures var k := NewKid(id, name, age, avatar, selected);
      && k.points == 0 && k.lessonsCompleted == 0 && k.totalLessons == 10 && k.streak == 0
      && k.badges == [] && k.lastActive == "Just now"
      && |k.goals| == |selected| && k.id == id && k.name == name && k.age == age && k.avatar == avatar
  {
  }

  /** The form's own state. */
  class CreateKidPage {
    var name: string
    var selectedAvatar: string
    var selectedGoals: seq<string>
    var isLoading: bool

    constructor ()
      ensures name == "" && selectedAvatar == "" && selectedGoals == [] && !isLoading
    {
      name := "";
      selectedAvatar := "";
      selectedGoals := [];
      isLoading := false;
    }

    method SetName(n: string)
      modifies this
      ensures name == n
      ensures selectedAvatar == old(selectedAvatar) && selectedGoals == old(selectedGoals) && isLoading == old(isLoading)
    {
      name := n;
    }

    method SelectAvatar(a: string)
      modifies this
      ensures selectedAvatar == a
      ensures name == old(name) && selectedGoals == old(selectedGoals) && isLoading == old(isLoading)
    {
      selectedAvatar := a;
    }

    method HandleGoalToggle(goalId: string)
      modifies this
      ensures selectedGoals == ToggleGoal(old(selectedGoals), goalId)
      ensures name == old(name) && selectedAvatar == old(selectedAvatar) && isLoading == old(isLoading)
    {
      selectedGoals := ToggleGoal(selectedGoals, goalId);
    }

    /** Without an avatar the submit is refused before anything else happens; with
        one it adds exactly the new profile through `addKid`. */
    method HandleSubmit(store: Store, id: string, age: int) returns (created: bool)
      modifies this, store
      ensures created <==> selectedAvatar != ""
      ensures name == old(name) && selectedAvatar == old(selectedAvatar) && selectedGoals == old(selectedGoals)
      ensures !created ==> store.State() == old(store.State()) && isLoading == old(isLoading)
      ensures created ==> !isLoading
      ensures created ==> store.State() == AddKidTo(old(store.State()), NewKid(id, name, age, selectedAvatar, selectedGoals))
    {
      if selectedAvatar == "" {
        return false;
      }
      isLoading := true;
      var k := NewKid(id, name, age, selectedAvatar, selectedGoals);
      store.AddKid(k);
      isLoading := false;
      return true;
    }
  }
}
