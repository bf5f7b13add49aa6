/** The new-goal form: the submit check and the goal it builds, blanks taken as zero. */
module GoalForm {
  import opened Wrappers
  import opened Text
  import opened Records
  import opened GoalsList

  /** The goal `handleSubmit` hands to `addGoal`, or nothing when the name or the target is
      empty. The number inputs are `None` when empty; `now` is the clock reading that names
      the goal and `createdAt` its ISO time. */
  function SubmittedGoal(name: string, targetAmount: Option<real>, currentAmount: Option<real>,
                         monthlyContribution: Option<real>, now: nat, createdAt: string): (g: Option<Goal>)
    ensures g.None? <==> name == "" || targetAmount.None?
    ensures g.Some? ==> && g.value.id == NatText(now)
                        && g.value.name == name
                        && g.value.targetAmount == targetAmount.value
                        && g.value.currentAmount == currentAmount.GetOr(0.0)
                        && g.value.monthlyContribution == monthlyContribution.GetOr(0.0)
                        && g.value.createdAt == createdAt
  {
    if name == "" || targetAmount.None? then None
    else Some(Goal(NatText(now), name, targetAmount.value,
                   if currentAmount.Some? then currentAmount.value else 0.0,
                   if monthlyContribution.Some? then monthlyContribution.value else 0.0,
                   createdAt))
  }

  /** A goal created with the current amount left blank is listed as ongoing exactly when
      its target is positive; with the monthly contribution also blank, an ongoing one asks
      for a contribution. */
  lemma NewGoalPlacement(name: string, targetAmount: Option<real>, monthlyContribution: Option<real>,
                         now: nat, createdAt: string)
    requires SubmittedGoal(name, targetAmount, None, monthlyContribution, now, createdAt).Some?
    ensures var g := SubmittedGoal(name, targetAmount, None, monthlyContribution, now, createdAt).value;
            && (g in Ongoing([g]) <==> targetAmount.value > 0.0)
            && (g in Finished([g]) <==> targetAmount.value <= 0.0)
            && (monthlyContribution.None? && targetAmount.value > 0.0 ==>
                  TimeToTarget(g) == "Contribuição mensal necessária")
  {
    var g := SubmittedGoal(name, targetAmount, None, monthlyContribution, now, createdAt).value;
    TimeToTargetFixedMessages(g);
  }

  /** The state of `GoalForm`. */
  class GoalFormState {
    var name: string
    var targetAmount: Option<real>
    var currentAmount: Option<real>
    var monthlyContribution: Option<real>

    constructor ()
      ensures name == "" && targetAmount.None? && currentAmount.None? && monthlyContribution.None?
    {
      name, targetAmount, currentAmount, monthlyContribution := "", None, None, None;
    }

    /** `handleSubmit`: the goal for `addGoal` and all four fields cleared, or nothing and
        no change when the name or the target is missing. */
    method HandleSubmit(now: nat, createdAt: string) returns (goal: Option<Goal>)
      modifies this
      ensures goal == SubmittedGoal(old(name), old(targetAmount), old(currentAmount), old(monthlyContribution), now, createdAt)
      ensures goal.None? ==> unchanged(this)
      ensures goal.Some? ==> name == "" && targetAmount.None? && currentAmount.None? && monthlyContribution.None?
    {
      if name == "" || targetAmount.None? {
        return None;
      }
      var current := if currentAmount.Some? then currentAmount.value else 0.0;
      var monthly := if monthlyContribution.Some? then monthlyContribution.value else 0.0;
      goal := Some(Goal(NatText(now), name, targetAmount.value, current, monthly, createdAt));
      name, targetAmount, currentAmount, monthlyContribution := "", None, None, None;
    }
  }
}
