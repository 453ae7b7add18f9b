/** The third goal controller: goals owned through a `userId` field, with a delete that
    matches id and owner in one query. */
module GoalController {
  import opened Common
  import opened Seqs
  import opened Db

  /** `addGoal`: the new goal is linked to the acting user. */
  method AddGoal(st: Store, actor: Id, description: string, targetAmount: int, targetDate: Date)
    returns (g: UserGoal)
    requires st.Valid()
    modifies st`userGoals, st`nextId
    ensures st.Valid()
    ensures g == UserGoal(old(st.nextId), actor, description, targetAmount, targetDate)
    ensures st.userGoals == old(st.userGoals) + [g]
  {
    g := UserGoal(st.nextId, actor, description, targetAmount, targetDate);
    AppendOk(st.userGoals, g, UserGoalId, st.nextId);
    st.TablesGrow(st.nextId, st.nextId + 1);
    st.userGoals := st.userGoals + [g];
    st.nextId := st.nextId + 1;
    assert st.TablesBelow(st.nextId);
  }

  /** `getGoals`: the goals whose `userId` is the acting user. */
  function GetGoals(goals: seq<UserGoal>, actor: Id): (r: seq<UserGoal>)
    ensures forall g :: g in r <==> g in goals && g.userId == actor
  {
    var p := (g: UserGoal) => g.userId == actor;
    FilterMembers(goals, p);
    Filter(goals, p)
  }

  predicate Owned(goals: seq<UserGoal>, actor: Id, id: Id) {
    exists i :: 0 <= i < |goals| && goals[i].id == id && goals[i].userId == actor
  }

  const Deleted: string := "Goal deleted"

  /** `deleteGoal`: `findOneAndDelete` on id and owner together; a missing goal and
      another user's goal give the same 404. */
  method DeleteGoal(st: Store, actor: Id, id: Id) returns (r: Result<string>)
    requires st.Valid()
    modifies st`userGoals
    ensures st.Valid()
    ensures r.Err? <==> !Owned(old(st.userGoals), actor, id)
    ensures r.Err? ==> r == Fail(404, "Goal not found or unauthorized") && st.userGoals == old(st.userGoals)
    ensures r.Ok? ==>
              r.value == Deleted &&
              exists i :: 0 <= i < |old(st.userGoals)| && old(st.userGoals)[i].id == id &&
                old(st.userGoals)[i].userId == actor && st.userGoals == RemoveAt(old(st.userGoals), i)
    ensures r.Ok? ==> forall g :: g in st.userGoals ==> g.id != id
  {
    var i := FirstWhere(st.userGoals, (g: UserGoal) => g.id == id && g.userId == actor);
    if i == |st.userGoals| {
      return Fail(404, "Goal not found or unauthorized");
    }
    RemoveOk(st.userGoals, i, UserGoalId, st.nextId);
    RemovedIdGone(st.userGoals, i, UserGoalId);
    st.userGoals := RemoveAt(st.userGoals, i);
    r := Ok(Deleted);
  }
}
