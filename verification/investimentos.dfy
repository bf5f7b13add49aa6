/** The investments page: the form that adds an investment, the per-row value update and
    the totals shown in the list header and the summary cards. */
module Investimentos {
  import opened Wrappers
  import opened Seqs
  import opened Text
  import opened FinanceContext

  // ---------------------------------------------------------------------------
  // Totals

  function Invested(inv: Investment): real { inv.value }

  /** `inv.currentValue || inv.value`: an absent current value, or one of 0, falls back to
      the invested value. */
  function CurrentOrValue(inv: Investment): (v: real)
    ensures inv.currentValue.Some? && inv.currentValue.value != 0.0 ==> v == inv.currentValue.value
    ensures inv.currentValue.None? || inv.currentValue.value == 0.0 ==> v == inv.value
  {
    match inv.currentValue
    case Some(c) => if c != 0.0 then c else inv.value
    case None => inv.value
  }

  /** `totalInvested`. */
  function TotalInvested(invs: seq<Investment>): real
  {
    Sum(Invested, invs)
  }

  /** `totalCurrent`. */
  function TotalCurrent(invs: seq<Investment>): real
  {
    Sum(CurrentOrValue, invs)
  }

  /** `totalGrowth`: the change in percent of what was invested, or 0 when nothing positive
      was invested. */
  function TotalGrowth(invs: seq<Investment>): (g: real)
    ensures TotalInvested(invs) <= 0.0 ==> g == 0.0
    ensures TotalInvested(invs) > 0.0 ==> g * TotalInvested(invs) == (TotalCurrent(invs) - TotalInvested(invs)) * 100.0
  {
    var invested, current := TotalInvested(invs), TotalCurrent(invs);
    if invested > 0.0 then
      GrowthTimesBase(current, invested);
      (current - invested) / invested * 100.0
    else 0.0
  }

  lemma GrowthTimesBase(current: real, invested: real)
    requires invested > 0.0
    ensures (current - invested) / invested * 100.0 * invested == (current - invested) * 100.0
  {
  }

  /** The figures of `InvestmentSummary`. */
  datatype Summary = Summary(totalInvested: real, totalCurrent: real, diff: real, isPositive: bool)

  function SummaryOf(invs: seq<Investment>): (s: Summary)
    ensures s.totalInvested == TotalInvested(invs) && s.totalCurrent == TotalCurrent(invs)
    ensures s.totalCurrent == s.totalInvested + s.diff
    ensures s.isPositive <==> s.totalCurrent >= s.totalInvested
  {
    var invested, current := TotalInvested(invs), TotalCurrent(invs);
    Summary(invested, current, current - invested, current - invested >= 0.0)
  }

  /** The list header and the summary cards agree: with something invested, the growth is
      non-negative exactly when the summary shows a gain. */
  lemma GrowthAgreesWithSummary(invs: seq<Investment>)
    requires TotalInvested(invs) > 0.0
    ensures TotalGrowth(invs) >= 0.0 <==> SummaryOf(invs).isPositive
  {
    var invested, current := TotalInvested(invs), TotalCurrent(invs);
    DivisionSign(current - invested, invested);
  }

  /** Revaluing investments never changes what was invested. */
  lemma RevaluedKeepsInvested(invs: seq<Investment>, id: string, newValue: real)
    ensures TotalInvested(Revalued(invs, id, newValue)) == TotalInvested(invs)
  {
    SumPointwise(Invested, Revalued(invs, id, newValue), invs);
  }

  /** With unique ids, revaluing one investment to a non-zero value replaces its term in
      the current total by the new value. */
  lemma RevaluedCurrent(invs: seq<Investment>, k: nat, newValue: real)
    requires k < |invs|
    requires forall j :: 0 <= j < |invs| && j != k ==> invs[j].id != invs[k].id
    requires newValue != 0.0
    ensures TotalCurrent(Revalued(invs, invs[k].id, newValue)) == TotalCurrent(invs) - CurrentOrValue(invs[k]) + newValue
  {
    var after := Revalued(invs, invs[k].id, newValue);
    assert after == invs[k := after[k]];
    SumUpdate(CurrentOrValue, invs, k, after[k]);
  }

  // ---------------------------------------------------------------------------
  // Adding an investment

  /** The investment the form hands to `addInvestment`, or nothing when a field is empty.
      `value` is the number input: `None` when it is empty. */
  function SubmittedInvestment(name: string, kind: string, value: Option<real>, initialDate: string): (d: Option<InvestmentDraft>)
    ensures d.None? <==> name == "" || kind == "" || value.None? || initialDate == ""
    ensures d.Some? ==> d.value.name == name && d.value.kind == kind && d.value.value == value.value
                        && d.value.initialDate == initialDate
  {
    if name == "" || kind == "" || value.None? || initialDate == "" then None
    else Some(InvestmentDraft(name, kind, value.value, initialDate, Some(value.value), Some(Finite(0.0))))
  }

  /** A new investment starts at its invested value with a growth of 0, which for a non-zero
      value is what `updateInvestmentValue` would record for that value; it leaves the
      summary's gain or loss as it was. */
  lemma NewInvestmentStartsFlat(name: string, kind: string, value: Option<real>, initialDate: string,
                                id: string, invs: seq<Investment>)
    requires SubmittedInvestment(name, kind, value, initialDate).Some?
    ensures var inv := SubmittedInvestment(name, kind, value, initialDate).value.WithId(id);
            && inv.currentValue == Some(inv.value)
            && inv.growth == Some(Finite(0.0))
            && (inv.value != 0.0 ==> inv.growth == Some(GrowthPercent(inv.value, inv.value)))
            && CurrentOrValue(inv) == inv.value
            && SummaryOf([inv] + invs).diff == SummaryOf(invs).diff
  {
    var inv := SubmittedInvestment(name, kind, value, initialDate).value.WithId(id);
    SumCons(Invested, inv, invs);
    SumCons(CurrentOrValue, inv, invs);
  }

  /** The state of `InvestmentForm`. */
  class InvestmentForm {
    var name: string
    var kind: string
    var value: Option<real>
    var initialDate: string

    /** `today` is `format(new Date(), "yyyy-MM-dd")`. */
    constructor (today: string)
      ensures name == "" && kind == "" && value.None? && initialDate == today
    {
      name, kind, value, initialDate := "", "", None, today;
    }

    /** `handleSubmit`: with every field filled the investment is added with id
        `"i" + now` and the fields are cleared, the date back to today; otherwise nothing
        changes. The result says whether it was added. */
    method HandleSubmit(store: Store, now: nat, today: string) returns (added: bool)
      modifies this, store
      ensures var d := SubmittedInvestment(old(name), old(kind), old(value), old(initialDate));
              && (added <==> d.Some?)
              && (d.None? ==> unchanged(this) && unchanged(store))
              && (d.Some? ==> store.investments == [d.value.WithId("i" + NatText(now))] + old(store.investments)
                              && store.transactions == old(store.transactions)
                              && name == "" && kind == "" && value.None? && initialDate == today)
    {
      var draft := SubmittedInvestment(name, kind, value, initialDate);
      if draft.None? {
        return false;
      }
      store.AddInvestment(draft.value, now);
      name, kind, value, initialDate := "", "", None, today;
      added := true;
    }
  }

  // ---------------------------------------------------------------------------
  // Updating a value

  /** `newValues[investment.id] || "0"`: the row's input, or "0" when it is missing or empty. */
  function ValueText(newValues: map<string, string>, id: string): (text: string)
    ensures id in newValues && newValues[id] != "" ==> text == newValues[id]
    ensures id !in newValues || newValues[id] == "" ==> text == "0"
  {
    if id in newValues && newValues[id] != "" then newValues[id] else "0"
  }

  /** The state of `InvestmentList`: the text typed in each row's "Novo valor" input. */
  class InvestmentList {
    var newValues: map<string, string>

    constructor ()
      ensures newValues == map[]
    {
      newValues := map[];
    }

    /** `handleUpdateValue`. `parse` stands for `parseFloat`, `None` for NaN. A value that
        is NaN or 0 is rejected and nothing changes; any other, negative ones included,
        revalues the investment and clears only its row's input. */
    method HandleUpdateValue(store: Store, investment: Investment, parse: string -> Option<real>)
      returns (updated: bool)
      requires parse("0") == Some(0.0)
      modifies this, store
      ensures var v := parse(ValueText(old(newValues), investment.id));
              && (updated <==> v.Some? && v.value != 0.0)
              && (!updated ==> unchanged(this) && unchanged(store))
              && (updated ==> store.investments == Revalued(old(store.investments), investment.id, v.value)
                              && store.transactions == old(store.transactions)
                              && newValues == old(newValues)[investment.id := ""])
      ensures investment.id !in old(newValues) || old(newValues)[investment.id] == "" ==> !updated
    {
      var newValue := parse(ValueText(newValues, investment.id));
      if newValue.None? || newValue.value == 0.0 {
        return false;
      }
      store.UpdateInvestmentValue(investment.id, newValue.value);
      newValues := newValues[investment.id := ""];
      updated := true;
    }
  }
}
