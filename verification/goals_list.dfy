/** The rules of the goals list: ongoing/finished split, contributions, the time-to-target
    message and the progress bar. */
module GoalsList {
  import opened Wrappers
  import opened Seqs
  import opened Text
  import opened Records

  // ---------------------------------------------------------------------------
  // Ongoing and finished goals

  predicate IsOngoing(g: Goal) { g.currentAmount < g.targetAmount }
  predicate IsFinished(g: Goal) { g.currentAmount >= g.targetAmount }

  /** `ongoing`. */
  function Ongoing(goals: seq<Goal>): (r: seq<Goal>)
    ensures forall g :: g in r <==> g in goals && g.currentAmount < g.targetAmount
  {
    Filter(IsOngoing, goals)
  }

  /** `finished`. */
  function Finished(goals: seq<Goal>): (r: seq<Goal>)
    ensures forall g :: g in r <==> g in goals && g.currentAmount >= g.targetAmount
  {
    Filter(IsFinished, goals)
  }

  /** Every goal is shown in exactly one of the two lists, as often as it occurs. */
  lemma OngoingFinishedPartition(goals: seq<Goal>)
    ensures multiset(Ongoing(goals)) + multiset(Finished(goals)) == multiset(goals)
    ensures forall g :: g in goals ==> (g in Ongoing(goals) <==> g !in Finished(goals))
  {
    FilterPartition(IsOngoing, IsFinished, goals);
  }

  // ---------------------------------------------------------------------------
  // Contributions

  /** What `handleAddToGoal` hands to `updateGoal`, and whether the goal is now complete. */
  datatype Contribution = Contribution(updated: Goal, completed: bool)

  /** `handleAddToGoal`: nothing for an unknown id; otherwise the first goal with that id,
      with `amount` added to its current amount. */
  function AddToGoal(goals: seq<Goal>, goalId: string, amount: real): (r: Option<Contribution>)
    ensures r.None? <==> forall g :: g in goals ==> g.id != goalId
    ensures r.Some? ==> exists k :: && 0 <= k < |goals| && goals[k].id == goalId
                                   && (forall j :: 0 <= j < k ==> goals[j].id != goalId)
                                   && r.value.updated.currentAmount == goals[k].currentAmount + amount
                                   && r.value.updated.(currentAmount := goals[k].currentAmount) == goals[k]
                                   && (r.value.completed <==> goals[k].currentAmount + amount >= goals[k].targetAmount)
  {
    match Find((g: Goal) => g.id == goalId, goals)
    case None => None
    case Some(goal) =>
      Some(Contribution(goal.(currentAmount := goal.currentAmount + amount),
                        goal.currentAmount + amount >= goal.targetAmount))
  }

  /** The `completed` flag says exactly that the updated goal moves to the finished list. */
  lemma CompletedIffFinished(goals: seq<Goal>, goalId: string, amount: real)
    requires AddToGoal(goals, goalId, amount).Some?
    ensures var c := AddToGoal(goals, goalId, amount).value;
            c.completed <==> c.updated in Finished([c.updated])
  {
  }

  /** The text `handleAddCustom` parses: the goal's input with its first "," made ".",
      or "0" when the input is missing or empty. */
  function CustomText(customContribution: map<string, string>, goalId: string): (text: string)
    ensures goalId !in customContribution || customContribution[goalId] == "" ==> text == "0"
    ensures text != "0" ==> ',' !in customContribution[goalId] ==> text == customContribution[goalId]
    ensures goalId in customContribution && customContribution[goalId] != "" ==>
              text == ReplaceFirst(customContribution[goalId], ',', '.')
  {
    var raw := if goalId in customContribution then ReplaceFirst(customContribution[goalId], ',', '.') else "";
    if raw == "" then "0" else raw
  }

  /** Only the first comma becomes a point: "1,2,5" is read as "1.2,5". */
  lemma CustomTextFirstCommaOnly(goalId: string)
    ensures CustomText(map[goalId := "1,2,5"], goalId) == "1.2,5"
  {
    ReplaceFirstExample();
  }

  /** The component's state: the text typed in each goal's "Outro valor" input. */
  class GoalsListState {
    var customContribution: map<string, string>

    constructor ()
      ensures customContribution == map[]
    {
      customContribution := map[];
    }

    /** `handleAddCustom`. `parse` stands for `parseFloat`, `None` for NaN. A value that is
        NaN or not positive is ignored; otherwise it is contributed and only this goal's
        input is cleared, even when no goal has that id. */
    method HandleAddCustom(goals: seq<Goal>, goalId: string, parse: string -> Option<real>)
      returns (update: Option<Contribution>)
      requires parse("0") == Some(0.0)
      modifies this
      ensures var v := parse(CustomText(old(customContribution), goalId));
              if v.None? || v.value <= 0.0 then
                update.None? && customContribution == old(customContribution)
              else
                update == AddToGoal(goals, goalId, v.value) &&
                customContribution == old(customContribution)[goalId := ""]
      ensures goalId !in old(customContribution) || old(customContribution)[goalId] == "" ==>
                update.None? && customContribution == old(customContribution)
    {
      var v := parse(CustomText(customContribution, goalId));
      if v.None? || v.value <= 0.0 {
        return None;
      }
      update := AddToGoal(goals, goalId, v.value);
      customContribution := customContribution[goalId := ""];
    }
  }

  // ---------------------------------------------------------------------------
  // Time to target

  /** `Math.ceil`. */
  function Ceil(x: real): (c: int)
    ensures c as real - 1.0 < x <= c as real
  {
    -((-x).Floor)
  }

  lemma ProductBelow(a: real, b: real, c: real)
    requires c > 0.0 && a < b / c
    ensures a * c < b
  {
  }

  lemma ProductAtLeast(a: real, b: real, c: real)
    requires c > 0.0 && b / c <= a
    ensures b <= a * c
  {
  }

  /** `Math.ceil(remaining / monthlyContribution)`: the fewest whole months of contributions
      that reach the remaining amount. */
  function MonthsNeeded(remaining: real, monthly: real): (months: int)
    requires remaining > 0.0 && monthly > 0.0
    ensures months >= 1
    ensures (months - 1) as real * monthly < remaining <= months as real * monthly
  {
    var m := Ceil(remaining / monthly);
    ProductBelow((m - 1) as real, remaining, monthly);
    ProductAtLeast(m as real, remaining, monthly);
    m
  }

  /** The cases of `calculateTimeToTarget`. */
  datatype Estimate =
    | GoalReached
    | ContributionNeeded
    | AboutOneMonth
    | AboutMonths(months: int)
    | AboutYears(years: int, extraMonths: int)

  /** Which message `calculateTimeToTarget` gives for a goal. */
  function EstimateFor(g: Goal): (e: Estimate)
    ensures e == GoalReached <==> g.currentAmount >= g.targetAmount
    ensures e == ContributionNeeded <==> g.currentAmount < g.targetAmount && g.monthlyContribution <= 0.0
    ensures e.AboutOneMonth? || e.AboutMonths? || e.AboutYears? ==>
              && g.currentAmount < g.targetAmount && g.monthlyContribution > 0.0
              && var m := MonthsNeeded(g.targetAmount - g.currentAmount, g.monthlyContribution);
                 && (e.AboutOneMonth? <==> m <= 1)
                 && (e.AboutMonths? ==> e.months == m && 2 <= m < 12)
                 && (e.AboutYears? ==> 12 <= m && e.years * 12 + e.extraMonths == m && e.years >= 1 && 0 <= e.extraMonths < 12)
  {
    if g.currentAmount >= g.targetAmount then GoalReached
    else if g.monthlyContribution <= 0.0 then ContributionNeeded
    else
      var months := MonthsNeeded(g.targetAmount - g.currentAmount, g.monthlyContribution);
      if months <= 1 then AboutOneMonth
      else if months < 12 then AboutMonths(months)
      else AboutYears(months / 12, months % 12)
  }

  /** `singular` for exactly one, `plural` otherwise. */
  function Unit(n: int, singular: string, plural: string): (w: string)
    requires singular != plural
    ensures w == singular <==> n == 1
    ensures w == plural <==> n != 1
  {
    if n == 1 then singular else plural
  }

  function Count(n: int): string
  {
    if n >= 0 then NatText(n) else "-" + NatText(-n)
  }

  /** The message shown for an estimate. */
  function EstimateText(e: Estimate): (text: string)
    ensures e.AboutOneMonth? ==> text == "Aproximadamente 1 mês"
    ensures e.AboutMonths? ==> text == "Aproximadamente " + Count(e.months) + " meses"
    ensures e.AboutYears? && e.extraMonths == 0 ==>
              text == "Aproximadamente " + Count(e.years) + " " + Unit(e.years, "ano", "anos")
    ensures e.AboutYears? && e.extraMonths != 0 ==>
              text == "Aproximadamente " + Count(e.years) + " " + Unit(e.years, "ano", "anos") +
                      " e " + Count(e.extraMonths) + " " + Unit(e.extraMonths, "mês", "meses")
  {
    match e
    case GoalReached => "Meta atingida!"
    case ContributionNeeded => "Contribuição mensal necessária"
    case AboutOneMonth => "Aproximadamente 1 mês"
    case AboutMonths(m) => "Aproximadamente " + Count(m) + " meses"
    case AboutYears(y, 0) => "Aproximadamente " + Count(y) + " " + Unit(y, "ano", "anos")
    case AboutYears(y, r) =>
      "Aproximadamente " + Count(y) + " " + Unit(y, "ano", "anos") + " e " + Count(r) + " " + Unit(r, "mês", "meses")
  }

  /** `calculateTimeToTarget`. */
  function TimeToTarget(g: Goal): string
  {
    EstimateText(EstimateFor(g))
  }

  /** The two fixed messages, by the goal's state alone. */
  lemma TimeToTargetFixedMessages(g: Goal)
    ensures g.currentAmount >= g.targetAmount ==> TimeToTarget(g) == "Meta atingida!"
    ensures g.currentAmount < g.targetAmount && g.monthlyContribution <= 0.0 ==>
              TimeToTarget(g) == "Contribuição mensal necessária"
  {
  }

  /** The month-count messages: with a positive contribution and something still to save,
      the text follows the number of months `Math.ceil` gives. */
  lemma TimeToTargetCountedMessages(g: Goal)
    requires g.currentAmount < g.targetAmount && g.monthlyContribution > 0.0
    ensures var m := MonthsNeeded(g.targetAmount - g.currentAmount, g.monthlyContribution);
            && (m <= 1 ==> TimeToTarget(g) == "Aproximadamente 1 mês")
            && (1 < m < 12 ==> TimeToTarget(g) == "Aproximadamente " + Count(m) + " meses")
            && (12 <= m && m % 12 == 0 ==>
                  TimeToTarget(g) == "Aproximadamente " + Count(m / 12) + " " + Unit(m / 12, "ano", "anos"))
            && (12 <= m && m % 12 != 0 ==>
                  TimeToTarget(g) == "Aproximadamente " + Count(m / 12) + " " + Unit(m / 12, "ano", "anos") +
                                     " e " + Count(m % 12) + " " + Unit(m % 12, "mês", "meses"))
  {
    var m := MonthsNeeded(g.targetAmount - g.currentAmount, g.monthlyContribution);
    var e := EstimateFor(g);
    if 12 <= m {
      assert e.years == m / 12 && e.extraMonths == m % 12;
    }
  }

  /** A worked case: 10 000 left at 500 a month takes 20 months, shown as one year and
      eight months. */
  lemma TimeToTargetExample()
    ensures TimeToTarget(Goal("g", "Viagem", 10000.0, 0.0, 500.0, "")) == "Aproximadamente 1 ano e 8 meses"
  {
    var g := Goal("g", "Viagem", 10000.0, 0.0, 500.0, "");
    assert MonthsNeeded(10000.0, 500.0) == 20 by {
      var m := MonthsNeeded(10000.0, 500.0);
      assert (m - 1) as real * 500.0 < 10000.0 <= m as real * 500.0;
    }
    assert EstimateFor(g) == AboutYears(1, 8);
    assert Count(1) == "1" && Count(8) == "8";
  }

  // ---------------------------------------------------------------------------
  // Progress bar

  lemma RatioOfSmaller(c: real, t: real)
    requires t != 0.0
    ensures t > 0.0 && c < t ==> c / t * 100.0 < 100.0
    ensures c / t * 100.0 * t == c * 100.0
  {
  }

  /** `Math.min(100, Math.max(0, current / target * 100))` for a goal of the ongoing list.
      A zero target with a negative current amount divides to -Infinity, which clamps to 0. */
  function Progress(g: Goal): (p: real)
    requires g.currentAmount < g.targetAmount
    ensures 0.0 <= p <= 100.0
    ensures g.targetAmount > 0.0 && g.currentAmount >= 0.0 ==> p * g.targetAmount == g.currentAmount * 100.0
    ensures g.targetAmount >= 0.0 && g.currentAmount < 0.0 ==> p == 0.0
    ensures g.targetAmount < 0.0 ==> p == 100.0
  {
    if g.targetAmount == 0.0 then 0.0
    else
      var ratio := g.currentAmount / g.targetAmount * 100.0;
      RatioOfSmaller(g.currentAmount, g.targetAmount);
      if ratio < 0.0 then 0.0 else if ratio > 100.0 then 100.0 else ratio
  }
}
