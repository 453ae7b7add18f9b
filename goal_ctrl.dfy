/** The goal controller: owner-scoped create, update and delete, the listing with its
    per-status statistics, and the progress update that completes a goal once its target
    is reached. */
module GoalCtrl {
  import opened Common
  import opened Seqs
  import opened Grouping
  import opened Sorting
  import opened Db

  const Ongoing: string := "ongoing"
  const Completed: string := "completed"

  /** `create`: a new goal starts at 0 and "ongoing". */
  method Create(st: Store, actor: Id, name: string, targetAmount: int, deadline: Date, description: string)
    returns (g: Goal)
    requires st.Valid()
    modifies st`goals, st`nextId
    ensures st.Valid()
    ensures g.id == old(st.nextId) && g.user == actor
    ensures g == Goal(g.id, actor, name, targetAmount, 0, deadline, description, Ongoing)
    ensures st.goals == old(st.goals) + [g]
  {
    g := Goal(st.nextId, actor, name, targetAmount, 0, deadline, description, Ongoing);
    AppendOk(st.goals, g, GoalId, st.nextId);
    st.TablesGrow(st.nextId, st.nextId + 1);
    st.goals := st.goals + [g];
    st.nextId := st.nextId + 1;
    assert st.TablesBelow(st.nextId);
  }

  function OfUser(goals: seq<Goal>, actor: Id): (r: seq<Goal>)
    ensures forall g :: g in r <==> g in goals && g.user == actor
  {
    var p := (g: Goal) => g.user == actor;
    FilterMembers(goals, p);
    Filter(goals, p)
  }

  function DeadlineKey(g: Goal): int {
    DateKey(g.deadline)
  }

  function CountPairs(goals: seq<Goal>): (r: seq<(string, int)>)
    ensures |r| == |goals| && forall i :: 0 <= i < |goals| ==> r[i] == (goals[i].status, 1)
  {
    seq(|goals|, i requires 0 <= i < |goals| => (goals[i].status, 1))
  }

  function TargetPairs(goals: seq<Goal>): (r: seq<(string, int)>)
    ensures |r| == |goals| && forall i :: 0 <= i < |goals| ==> r[i] == (goals[i].status, goals[i].targetAmount)
  {
    seq(|goals|, i requires 0 <= i < |goals| => (goals[i].status, goals[i].targetAmount))
  }

  function CurrentPairs(goals: seq<Goal>): (r: seq<(string, int)>)
    ensures |r| == |goals| && forall i :: 0 <= i < |goals| ==> r[i] == (goals[i].status, goals[i].currentAmount)
  {
    seq(|goals|, i requires 0 <= i < |goals| => (goals[i].status, goals[i].currentAmount))
  }

  lemma {:induction false} CountPairsTotal(goals: seq<Goal>)
    ensures Total(CountPairs(goals)) == |goals|
  {
    if goals != [] {
      var p := goals[..|goals| - 1];
      CountPairsTotal(p);
      assert CountPairs(goals) == CountPairs(p) + [(goals[|goals| - 1].status, 1)];
      TotalSnoc(CountPairs(p), (goals[|goals| - 1].status, 1));
    }
  }

  /** One bucket of `stats`. */
  datatype StatusStat = StatusStat(count: int, totalTarget: int, totalCurrent: int)

  /** The counts of a stats list, keyed by status. */
  function Counts(stats: seq<(string, StatusStat)>): (r: seq<(string, int)>)
    ensures |r| == |stats| && forall i :: 0 <= i < |stats| ==> r[i] == (stats[i].0, stats[i].1.count)
  {
    seq(|stats|, i requires 0 <= i < |stats| => (stats[i].0, stats[i].1.count))
  }

  function Targets(stats: seq<(string, StatusStat)>): (r: seq<(string, int)>)
    ensures |r| == |stats| && forall i :: 0 <= i < |stats| ==> r[i] == (stats[i].0, stats[i].1.totalTarget)
  {
    seq(|stats|, i requires 0 <= i < |stats| => (stats[i].0, stats[i].1.totalTarget))
  }

  function Statuses(mine: seq<Goal>): seq<string> {
    Distinct(KeysOf(CountPairs(mine)))
  }

  /** `stats`: one bucket per status present, holding the number of goals and the sums of
      their targets and current amounts. Each status present gets exactly one bucket, the
      counts add up to the number of goals and the targets to the sum of all targets. */
  function Stats(mine: seq<Goal>): (r: seq<(string, StatusStat)>)
    ensures |r| == |Statuses(mine)|
    ensures forall i :: 0 <= i < |r| ==> r[i].0 == Statuses(mine)[i]
    ensures forall i :: 0 <= i < |r| ==>
              r[i].1 == StatusStat(SumFor(CountPairs(mine), r[i].0), SumFor(TargetPairs(mine), r[i].0),
                                   SumFor(CurrentPairs(mine), r[i].0))
    ensures NoDup(KeysOf(Counts(r)))
    ensures forall s :: s in KeysOf(Counts(r)) <==> exists g :: g in mine && g.status == s
    ensures Total(Counts(r)) == |mine|
    ensures Total(Targets(r)) == Total(TargetPairs(mine))
  {
    var ds := Statuses(mine);
    var r := seq(|ds|, i requires 0 <= i < |ds| => (ds[i], Bucket(mine, ds[i])));
    BucketsAddUp(mine, r);
    r
  }

  function Bucket(mine: seq<Goal>, s: string): StatusStat {
    StatusStat(SumFor(CountPairs(mine), s), SumFor(TargetPairs(mine), s), SumFor(CurrentPairs(mine), s))
  }

  /** The keys and totals of the buckets built for every status present. */
  lemma BucketsAddUp(mine: seq<Goal>, r: seq<(string, StatusStat)>)
    requires |r| == |Statuses(mine)|
    requires forall i :: 0 <= i < |r| ==> r[i] == (Statuses(mine)[i], Bucket(mine, Statuses(mine)[i]))
    ensures NoDup(KeysOf(Counts(r)))
    ensures forall s :: s in KeysOf(Counts(r)) <==> exists g :: g in mine && g.status == s
    ensures Total(Counts(r)) == |mine|
    ensures Total(Targets(r)) == Total(TargetPairs(mine))
  {
    assert KeysOf(Counts(r)) == Statuses(mine);
    forall s | exists g :: g in mine && g.status == s ensures s in KeysOf(CountPairs(mine)) {
      var g :| g in mine && g.status == s;
      var i :| 0 <= i < |mine| && mine[i] == g;
      assert KeysOf(CountPairs(mine))[i] == s;
    }
    assert KeysOf(CountPairs(mine)) == KeysOf(TargetPairs(mine));
    assert Counts(r) == Grouped(CountPairs(mine));
    assert Targets(r) == Grouped(TargetPairs(mine));
    GroupedTotal(CountPairs(mine));
    GroupedTotal(TargetPairs(mine));
    CountPairsTotal(mine);
  }

  datatype Listing = Listing(goals: seq<Goal>, stats: seq<(string, StatusStat)>)

  /** `getAll`: the acting user's goals by deadline ascending, and their stats. */
  function GetAll(goals: seq<Goal>, actor: Id): (r: Listing)
    ensures forall g :: g in r.goals <==> g in goals && g.user == actor
    ensures multiset(r.goals) == multiset(OfUser(goals, actor))
    ensures SortedBy(r.goals, DeadlineKey)
    ensures r.stats == Stats(OfUser(goals, actor))
  {
    var mine := OfUser(goals, actor);
    var sorted := SortBy(mine, DeadlineKey);
    PermutationMembers(sorted, mine);
    Listing(sorted, Stats(mine))
  }

  /** The fields of an update body; None for a field the body leaves out. */
  datatype Patch = Patch(
    name: Option<string>, targetAmount: Option<int>, currentAmount: Option<int>,
    deadline: Option<Date>, description: Option<string>, status: Option<string>)

  /** The update overwrites what the body gives and recomputes nothing. */
  function Apply(g: Goal, p: Patch): (r: Goal)
    ensures r.id == g.id && r.user == g.user
    ensures r.status == (if p.status.Some? then p.status.value else g.status)
    ensures r.currentAmount == (if p.currentAmount.Some? then p.currentAmount.value else g.currentAmount)
    ensures r.targetAmount == (if p.targetAmount.Some? then p.targetAmount.value else g.targetAmount)
    ensures r.name == (if p.name.Some? then p.name.value else g.name)
    ensures r.deadline == (if p.deadline.Some? then p.deadline.value else g.deadline)
    ensures r.description == (if p.description.Some? then p.description.value else g.description)
  {
    Goal(
      g.id, g.user,
      if p.name.Some? then p.name.value else g.name,
      if p.targetAmount.Some? then p.targetAmount.value else g.targetAmount,
      if p.currentAmount.Some? then p.currentAmount.value else g.currentAmount,
      if p.deadline.Some? then p.deadline.value else g.deadline,
      if p.description.Some? then p.description.value else g.description,
      if p.status.Some? then p.status.value else g.status)
  }

  /** An update that sets the current amount past the target leaves the status as it was:
      "ongoing" survives a reached target. */
  lemma UpdateKeepsStatus(g: Goal, current: int)
    requires g.status == Ongoing && current >= g.targetAmount
    ensures Apply(g, Patch(None, None, Some(current), None, None, None)).status == Ongoing
  {
  }

  predicate Owned(goals: seq<Goal>, actor: Id, id: Id) {
    exists i :: 0 <= i < |goals| && goals[i].id == id && goals[i].user == actor
  }

  function FindOwned(goals: seq<Goal>, actor: Id, id: Id): (r: nat)
    ensures r <= |goals|
    ensures r < |goals| ==> goals[r].id == id && goals[r].user == actor
    ensures r == |goals| <==> !Owned(goals, actor, id)
  {
    FirstWhere(goals, (g: Goal) => g.id == id && g.user == actor)
  }

  method Update(st: Store, actor: Id, id: Id, patch: Patch) returns (r: Result<Goal>)
    requires st.Valid()
    modifies st`goals
    ensures st.Valid()
    ensures r.Err? <==> !Owned(old(st.goals), actor, id)
    ensures r.Err? ==> r == Fail(404, "Goal not found") && st.goals == old(st.goals)
    ensures r.Ok? ==>
              exists i :: 0 <= i < |old(st.goals)| && old(st.goals)[i].id == id && old(st.goals)[i].user == actor &&
                r.value == Apply(old(st.goals)[i], patch) && st.goals == old(st.goals)[i := r.value]
  {
    var i := FindOwned(st.goals, actor, id);
    if i == |st.goals| {
      return Fail(404, "Goal not found");
    }
    var g := Apply(st.goals[i], patch);
    ReplaceOk(st.goals, i, g, GoalId, st.nextId);
    st.goals := st.goals[i := g];
    r := Ok(g);
  }

  method Delete(st: Store, actor: Id, id: Id) returns (r: Result<Goal>)
    requires st.Valid()
    modifies st`goals
    ensures st.Valid()
    ensures r.Err? <==> !Owned(old(st.goals), actor, id)
    ensures r.Err? ==> r == Fail(404, "Goal not found") && st.goals == old(st.goals)
    ensures r.Ok? ==>
              exists i :: 0 <= i < |old(st.goals)| && old(st.goals)[i].id == id && old(st.goals)[i].user == actor &&
                r.value == old(st.goals)[i] && st.goals == RemoveAt(old(st.goals), i)
  {
    var i := FindOwned(st.goals, actor, id);
    if i == |st.goals| {
      return Fail(404, "Goal not found");
    }
    r := Ok(st.goals[i]);
    RemoveOk(st.goals, i, GoalId, st.nextId);
    st.goals := RemoveAt(st.goals, i);
  }

  /** The effect of `updateProgress` on one goal: `amount` is added to the current amount,
      and reaching the target marks the goal completed. */
  function Advance(g: Goal, amount: int): (r: Goal)
    ensures r.currentAmount == g.currentAmount + amount
    ensures r.currentAmount >= r.targetAmount ==> r.status == Completed
    ensures r.currentAmount < r.targetAmount ==> r.status == g.status
    ensures r.(currentAmount := g.currentAmount, status := g.status) == g
  {
    var g' := g.(currentAmount := g.currentAmount + amount);
    if g'.currentAmount >= g'.targetAmount then g'.(status := Completed) else g'
  }

  /** A non-negative amount never lowers the current amount; a completed goal stays
      completed whatever the amount; status never goes back to "ongoing". */
  lemma AdvanceMonotone(g: Goal, amount: int)
    ensures amount >= 0 ==> Advance(g, amount).currentAmount >= g.currentAmount
    ensures g.status == Completed ==> Advance(g, amount).status == Completed
    ensures Advance(g, amount).status == Ongoing ==> g.status == Ongoing
  {
  }

  /** The current amount may pass the target: nothing caps it. */
  lemma AdvanceMayOvershoot(g: Goal)
    requires g.currentAmount == 0 && g.targetAmount == 100
    ensures Advance(g, 150).currentAmount == 150 && Advance(g, 150).status == Completed
  {
  }

  /** `updateProgress`, step by step as the controller does it. */
  method UpdateProgress(st: Store, actor: Id, id: Id, amount: int) returns (r: Result<Goal>)
    requires st.Valid()
    modifies st`goals
    ensures st.Valid()
    ensures r.Err? <==> !Owned(old(st.goals), actor, id)
    ensures r.Err? ==> r == Fail(404, "Goal not found") && st.goals == old(st.goals)
    ensures r.Ok? ==>
              exists i :: 0 <= i < |old(st.goals)| && old(st.goals)[i].id == id && old(st.goals)[i].user == actor &&
                r.value == Advance(old(st.goals)[i], amount) && st.goals == old(st.goals)[i := r.value]
  {
    var i := FindOwned(st.goals, actor, id);
    if i == |st.goals| {
      return Fail(404, "Goal not found");
    }
    var g := st.goals[i];
    g := g.(currentAmount := g.currentAmount + amount);
    if g.currentAmount >= g.targetAmount {
      g := g.(status := Completed);
    }
    ReplaceOk(st.goals, i, g, GoalId, st.nextId);
    st.goals := st.goals[i := g];
    r := Ok(g);
  }
}
