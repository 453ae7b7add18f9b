/** The older goal controller: create and list, and an update and a delete that tell a
    missing goal (404) from another user's goal (401). */
module GoalsCtrl {
  import opened Common
  import opened Seqs
  import opened Db

  /** `createGoal`: the acting user owns the new goal, which starts at 0. */
  method CreateGoal(st: Store, actor: Id, name: string, targetAmount: int, deadline: Date)
    returns (g: LegacyGoal)
    requires st.Valid()
    modifies st`legacyGoals, st`nextId
    ensures st.Valid()
    ensures g == LegacyGoal(old(st.nextId), actor, name, targetAmount, deadline, 0)
    ensures st.legacyGoals == old(st.legacyGoals) + [g]
  {
    g := LegacyGoal(st.nextId, actor, name, targetAmount, deadline, 0);
    AppendOk(st.legacyGoals, g, LegacyGoalId, st.nextId);
    st.TablesGrow(st.nextId, st.nextId + 1);
    st.legacyGoals := st.legacyGoals + [g];
    st.nextId := st.nextId + 1;
    assert st.TablesBelow(st.nextId);
  }

  /** `getGoals`: the acting user's goals, in stored order. */
  function GetGoals(goals: seq<LegacyGoal>, actor: Id): (r: seq<LegacyGoal>)
    ensures forall g :: g in r <==> g in goals && g.user == actor
  {
    var p := (g: LegacyGoal) => g.user == actor;
    FilterMembers(goals, p);
    Filter(goals, p)
  }

  function IndexOfGoal(goals: seq<LegacyGoal>, id: Id): (r: nat)
    ensures r <= |goals|
    ensures r < |goals| ==> goals[r].id == id
    ensures r == |goals| <==> forall i :: 0 <= i < |goals| ==> goals[i].id != id
  {
    FirstWhere(goals, (g: LegacyGoal) => g.id == id)
  }

  /** The fields of an update body, stored as given; `user` included. */
  datatype Patch = Patch(
    user: Option<Id>, name: Option<string>, targetAmount: Option<int>,
    deadline: Option<Date>, currentAmount: Option<int>)

  function Apply(g: LegacyGoal, p: Patch): (r: LegacyGoal)
    ensures r.id == g.id
    ensures r.user == (if p.user.Some? then p.user.value else g.user)
    ensures r.name == (if p.name.Some? then p.name.value else g.name)
    ensures r.targetAmount == (if p.targetAmount.Some? then p.targetAmount.value else g.targetAmount)
    ensures r.deadline == (if p.deadline.Some? then p.deadline.value else g.deadline)
    ensures r.currentAmount == (if p.currentAmount.Some? then p.currentAmount.value else g.currentAmount)
  {
    LegacyGoal(
      g.id,
      if p.user.Some? then p.user.value else g.user,
      if p.name.Some? then p.name.value else g.name,
      if p.targetAmount.Some? then p.targetAmount.value else g.targetAmount,
      if p.deadline.Some? then p.deadline.value else g.deadline,
      if p.currentAmount.Some? then p.currentAmount.value else g.currentAmount)
  }

  /** The 404 / 401 checks shared by update and delete: the index of the goal when it
      exists and the acting user owns it. */
  function Check(goals: seq<LegacyGoal>, actor: Id, id: Id): (r: Result<nat>)
    requires UniqueBy(goals, LegacyGoalId)
    ensures r.Ok? <==> exists i :: 0 <= i < |goals| && goals[i].id == id && goals[i].user == actor
    ensures r.Err? && (forall i :: 0 <= i < |goals| ==> goals[i].id != id) ==> r == Fail(404, "Goal not found")
    ensures r.Err? && (exists i :: 0 <= i < |goals| && goals[i].id == id) ==> r == Fail(401, "Not authorized")
    ensures r.Ok? ==> r.value < |goals| && goals[r.value].id == id && goals[r.value].user == actor
  {
    var i := IndexOfGoal(goals, id);
    if i == |goals| then Fail(404, "Goal not found")
    else if goals[i].user != actor then
      assert forall j :: 0 <= j < |goals| && goals[j].id == id ==> j == i by {
        forall j | 0 <= j < |goals| && goals[j].id == id ensures j == i {
          UniqueIndex(goals, LegacyGoalId, i, j);
        }
      }
      Fail(401, "Not authorized")
    else Ok(i)
  }

  /** `updateGoal`: the owned goal takes the body's fields. */
  method UpdateGoal(st: Store, actor: Id, id: Id, patch: Patch) returns (r: Result<LegacyGoal>)
    requires st.Valid()
    modifies st`legacyGoals
    ensures st.Valid()
    ensures r.Err? ==> st.legacyGoals == old(st.legacyGoals)
    ensures r.Err? ==> Err(r.failure) == Check(old(st.legacyGoals), actor, id)
    ensures r.Ok? <==> Check(old(st.legacyGoals), actor, id).Ok?
    ensures r.Ok? ==>
              var i := Check(old(st.legacyGoals), actor, id).value;
              r.value == Apply(old(st.legacyGoals)[i], patch) && st.legacyGoals == old(st.legacyGoals)[i := r.value]
  {
    var c := Check(st.legacyGoals, actor, id);
    if c.Err? {
      return Err(c.failure);
    }
    var i := c.value;
    var g := Apply(st.legacyGoals[i], patch);
    ReplaceOk(st.legacyGoals, i, g, LegacyGoalId, st.nextId);
    st.legacyGoals := st.legacyGoals[i := g];
    r := Ok(g);
  }

  /** The ownership check comes before the update, and the body may name another owner:
      an update hands the goal over to that user. */
  lemma UpdateMayTransfer(g: LegacyGoal, other: Id)
    ensures Apply(g, Patch(Some(other), None, None, None, None)).user == other
  {
  }

  const Removed: string := "Goal removed"

  /** `deleteGoal`: only an owned goal is removed. */
  method DeleteGoal(st: Store, actor: Id, id: Id) returns (r: Result<string>)
    requires st.Valid()
    modifies st`legacyGoals
    ensures st.Valid()
    ensures r.Err? ==> st.legacyGoals == old(st.legacyGoals)
    ensures r.Err? ==> Err(r.failure) == Check(old(st.legacyGoals), actor, id)
    ensures r.Ok? <==> Check(old(st.legacyGoals), actor, id).Ok?
    ensures r.Ok? ==>
              r.value == Removed && st.legacyGoals == RemoveAt(old(st.legacyGoals), Check(old(st.legacyGoals), actor, id).value)
    ensures r.Ok? ==> forall g :: g in st.legacyGoals ==> g.id != id
  {
    var c := Check(st.legacyGoals, actor, id);
    if c.Err? {
      return Err(c.failure);
    }
    RemoveOk(st.legacyGoals, c.value, LegacyGoalId, st.nextId);
    RemovedIdGone(st.legacyGoals, c.value, LegacyGoalId);
    st.legacyGoals := RemoveAt(st.legacyGoals, c.value);
    r := Ok(Removed);
  }
}
