/** The finance store: the transactions and investments every screen reads, the aggregates
    derived from them, and the mutations the screens call. */
module FinanceContext {
  import opened Wrappers
  import opened Seqs
  import opened Text

  /** A transaction is income (`'receita'`) or an expense (`'despesa'`). */
  datatype TransactionType = Receita | Despesa

  /** A recorded transaction; `kind` is the source's `type` field. */
  datatype Transaction = Transaction(
    id: string,
    date: string,
    description: string,
    category: string,
    amount: real,
    kind: TransactionType)

  /** What a screen hands to `addTransaction`: a transaction without its id. */
  datatype TransactionDraft = TransactionDraft(
    date: string,
    description: string,
    category: string,
    amount: real,
    kind: TransactionType)
  {
    function WithId(id: string): (t: Transaction)
      ensures t.id == id
      ensures TransactionDraft(t.date, t.description, t.category, t.amount, t.kind) == this
    {
      Transaction(id, date, description, category, amount, kind)
    }
  }

  /** A JavaScript number as the model needs it: a real, or the NaN or Infinity that a
      division by zero produces. */
  datatype Number = Finite(value: real) | NotFinite

  /** An investment; `kind` is the source's `type` field. `currentValue` and `growth` are
      optional fields. */
  datatype Investment = Investment(
    id: string,
    name: string,
    kind: string,
    value: real,
    initialDate: string,
    currentValue: Option<real>,
    growth: Option<Number>)

  /** What a screen hands to `addInvestment`: an investment without its id. */
  datatype InvestmentDraft = InvestmentDraft(
    name: string,
    kind: string,
    value: real,
    initialDate: string,
    currentValue: Option<real>,
    growth: Option<Number>)
  {
    function WithId(id: string): (i: Investment)
      ensures i.id == id
      ensures InvestmentDraft(i.name, i.kind, i.value, i.initialDate, i.currentValue, i.growth) == this
    {
      Investment(id, name, kind, value, initialDate, currentValue, growth)
    }
  }

  // ---------------------------------------------------------------------------
  // Derived values

  function Amount(t: Transaction): real { t.amount }
  predicate IsIncome(t: Transaction) { t.kind == Receita }
  predicate IsExpense(t: Transaction) { t.kind == Despesa }

  /** `income`: the amounts of the `'receita'` transactions, summed. */
  function Income(ts: seq<Transaction>): real
  {
    Sum(Amount, Filter(IsIncome, ts))
  }

  /** `expenses`: the amounts of the `'despesa'` transactions, summed. */
  function Expenses(ts: seq<Transaction>): real
  {
    Sum(Amount, Filter(IsExpense, ts))
  }

  /** What one transaction contributes to `balance`: `receita` adds, anything else subtracts. */
  function SignedAmount(t: Transaction): real
  {
    if t.kind == Receita then t.amount else -t.amount
  }

  /** `balance`: one pass over the transactions adding incomes and subtracting the rest. */
  function Balance(ts: seq<Transaction>): real
  {
    Sum(SignedAmount, ts)
  }

  /** `savingsRate`: 0 unless income is positive, otherwise the unrounded percentage of
      income left after expenses. */
  function SavingsRate(income: real, expenses: real): (rate: real)
    ensures income <= 0.0 ==> rate == 0.0
    ensures income > 0.0 ==> rate * income == (income - expenses) * 100.0
  {
    if income > 0.0 then (income - expenses) / income * 100.0 else 0.0
  }

  /** The balance computed in one pass is income minus expenses. */
  lemma {:induction false} BalanceIsIncomeMinusExpenses(ts: seq<Transaction>)
    ensures Balance(ts) == Income(ts) - Expenses(ts)
    decreases |ts|
  {
    if ts != [] {
      var init, last := ts[..|ts| - 1], ts[|ts| - 1];
      BalanceIsIncomeMinusExpenses(init);
      var incomes, outgoings := Filter(IsIncome, init), Filter(IsExpense, init);
      if last.kind == Receita {
        assert Filter(IsIncome, ts) == incomes + [last];
        assert Filter(IsExpense, ts) == outgoings;
        assert (incomes + [last])[..|incomes + [last]| - 1] == incomes;
      } else {
        assert Filter(IsIncome, ts) == incomes;
        assert Filter(IsExpense, ts) == outgoings + [last];
        assert (outgoings + [last])[..|outgoings + [last]| - 1] == outgoings;
      }
    }
  }

  /** With non-negative amounts the savings rate never exceeds 100, and it is non-negative
      exactly when expenses do not exceed a positive income. */
  lemma SavingsRateBounds(ts: seq<Transaction>)
    requires forall t :: t in ts ==> t.amount >= 0.0
    ensures SavingsRate(Income(ts), Expenses(ts)) <= 100.0
    ensures Income(ts) > 0.0 ==> (SavingsRate(Income(ts), Expenses(ts)) >= 0.0 <==> Expenses(ts) <= Income(ts))
  {
    SumNonNegative(Amount, Filter(IsExpense, ts));
    var i, e := Income(ts), Expenses(ts);
    if i > 0.0 {
      var r := SavingsRate(i, e);
      assert (r - 100.0) * i == -e * 100.0;
      NonPositiveFactor(r - 100.0, i);
      DivisionSign(i - e, i);
    }
  }

  lemma NonPositiveFactor(a: real, b: real)
    requires b > 0.0 && a * b <= 0.0
    ensures a <= 0.0
  {
  }

  lemma DivisionSign(a: real, b: real)
    requires b > 0.0
    ensures a / b >= 0.0 <==> a >= 0.0
  {
  }

  /** Putting a transaction in front adds its amount to income or to expenses according to
      its type, and changes the balance by its signed amount. */
  lemma AggregatesOfPrepend(t: Transaction, ts: seq<Transaction>)
    ensures Income([t] + ts) == Income(ts) + (if t.kind == Receita then t.amount else 0.0)
    ensures Expenses([t] + ts) == Expenses(ts) + (if t.kind == Despesa then t.amount else 0.0)
    ensures Balance([t] + ts) == Balance(ts) + SignedAmount(t)
  {
    FilterCons(IsIncome, t, ts);
    FilterCons(IsExpense, t, ts);
    var incomes, outgoings := Filter(IsIncome, ts), Filter(IsExpense, ts);
    if t.kind == Receita {
      assert Filter(IsExpense, [t] + ts) == outgoings;
      SumCons(Amount, t, incomes);
    } else {
      assert Filter(IsIncome, [t] + ts) == incomes;
      SumCons(Amount, t, outgoings);
    }
    SumCons(SignedAmount, t, ts);
  }

  // ---------------------------------------------------------------------------
  // The list transformations behind the mutations

  /** `prev.filter(t => t.id !== id)`. */
  function WithoutTransaction(ts: seq<Transaction>, id: string): (r: seq<Transaction>)
    ensures forall t :: t in r <==> t in ts && t.id != id
    ensures (forall t :: t in ts ==> t.id != id) ==> r == ts
  {
    if forall t :: t in ts ==> t.id != id then
      FilterKeepsAll((t: Transaction) => t.id != id, ts);
      Filter((t: Transaction) => t.id != id, ts)
    else
      Filter((t: Transaction) => t.id != id, ts)
  }

  /** `prev.filter(i => i.id !== id)`. */
  function WithoutInvestment(invs: seq<Investment>, id: string): (r: seq<Investment>)
    ensures forall i :: i in r <==> i in invs && i.id != id
    ensures (forall i :: i in invs ==> i.id != id) ==> r == invs
  {
    if forall i :: i in invs ==> i.id != id then
      FilterKeepsAll((i: Investment) => i.id != id, invs);
      Filter((i: Investment) => i.id != id, invs)
    else
      Filter((i: Investment) => i.id != id, invs)
  }

  /** Deleting twice with the same id is deleting once. */
  lemma DeleteTwiceIsDeleteOnce(ts: seq<Transaction>, invs: seq<Investment>, id: string)
    ensures WithoutTransaction(WithoutTransaction(ts, id), id) == WithoutTransaction(ts, id)
    ensures WithoutInvestment(WithoutInvestment(invs, id), id) == WithoutInvestment(invs, id)
  {
  }

  /** Deletion keeps the remaining entries in their order: deleting from a concatenation
      deletes from each part. */
  lemma DeleteKeepsOrder(a: seq<Transaction>, b: seq<Transaction>, c: seq<Investment>, d: seq<Investment>, id: string)
    ensures WithoutTransaction(a + b, id) == WithoutTransaction(a, id) + WithoutTransaction(b, id)
    ensures WithoutInvestment(c + d, id) == WithoutInvestment(c, id) + WithoutInvestment(d, id)
  {
    FilterConcat((t: Transaction) => t.id != id, a, b);
    FilterConcat((i: Investment) => i.id != id, c, d);
  }

  /** `((newValue - value) / value) * 100`; dividing by a zero `value` gives NaN or Infinity. */
  function GrowthPercent(newValue: real, value: real): (g: Number)
    ensures g.NotFinite? <==> value == 0.0
    ensures g.Finite? ==> g.value * value == (newValue - value) * 100.0
  {
    if value == 0.0 then NotFinite else Finite((newValue - value) / value * 100.0)
  }

  /** `prev.map(...)` in `updateInvestmentValue`: every investment with that id gets the new
      current value and its growth recomputed; every other one is left as it was. */
  function Revalued(invs: seq<Investment>, id: string, newValue: real): (r: seq<Investment>)
    ensures |r| == |invs|
    ensures forall k :: 0 <= k < |invs| && invs[k].id != id ==> r[k] == invs[k]
    ensures forall k :: 0 <= k < |invs| && invs[k].id == id ==>
              && r[k].currentValue == Some(newValue)
              && r[k].growth == Some(GrowthPercent(newValue, invs[k].value))
              && r[k].(currentValue := invs[k].currentValue, growth := invs[k].growth) == invs[k]
  {
    seq(|invs|, k requires 0 <= k < |invs| =>
      if invs[k].id == id
      then invs[k].(currentValue := Some(newValue), growth := Some(GrowthPercent(newValue, invs[k].value)))
      else invs[k])
  }

  // ---------------------------------------------------------------------------
  // Seed data, used when nothing was saved

  const MockTransactions: seq<Transaction> := [
    Transaction("t1", "2025-04-19", "Compras no Supermercado", "Alimentação", 156.89, Despesa),
    Transaction("t2", "2025-04-18", "Salário", "Renda", 4175.00, Receita),
    Transaction("t3", "2025-04-17", "Aluguel", "Moradia", 1800.00, Despesa),
    Transaction("t4", "2025-04-16", "Posto de Gasolina", "Transporte", 145.75, Despesa),
    Transaction("t5", "2025-04-15", "Cafeteria", "Alimentação", 12.50, Despesa)
  ]

  const MockInvestments: seq<Investment> := [
    Investment("i1", "Tesouro Direto", "Renda Fixa", 5000.0, "2025-01-10", Some(5250.0), Some(Finite(5.0))),
    Investment("i2", "Ações PETR4", "Renda Variável", 3000.0, "2025-02-15", Some(3240.0), Some(Finite(8.0))),
    Investment("i3", "CDB Banco XYZ", "Renda Fixa", 10000.0, "2025-03-20", Some(10300.0), Some(Finite(3.0)))
  ]

  /** Every seed investment's growth is what `updateInvestmentValue` would compute from its
      value and current value. */
  lemma SeedGrowthConsistent()
    ensures forall k :: 0 <= k < |MockInvestments| ==>
              MockInvestments[k].growth == Some(GrowthPercent(MockInvestments[k].currentValue.GetOr(0.0), MockInvestments[k].value))
  {
  }

  // ---------------------------------------------------------------------------
  // The provider's state

  /** The state `FinanceProvider` holds. The setters' functional updates (prepend, filter,
      map) become methods that reassign the two fields. */
  class Store {
    var transactions: seq<Transaction>
    var investments: seq<Investment>

    /** The lists read back from storage, or the seed data when nothing was saved. */
    constructor (savedTransactions: Option<seq<Transaction>>, savedInvestments: Option<seq<Investment>>)
      ensures transactions == savedTransactions.GetOr(MockTransactions)
      ensures investments == savedInvestments.GetOr(MockInvestments)
    {
      transactions := savedTransactions.GetOr(MockTransactions);
      investments := savedInvestments.GetOr(MockInvestments);
    }

    /** `addTransaction`: the transaction, with id `t<now>`, goes in front of the others. */
    method AddTransaction(draft: TransactionDraft, now: nat)
      modifies this
      ensures transactions == [draft.WithId("t" + NatText(now))] + old(transactions)
      ensures transactions[0].id == "t" + NatText(now) && transactions[1..] == old(transactions)
      ensures Income(transactions) == old(Income(transactions)) + (if draft.kind == Receita then draft.amount else 0.0)
      ensures Expenses(transactions) == old(Expenses(transactions)) + (if draft.kind == Despesa then draft.amount else 0.0)
      ensures investments == old(investments)
    {
      var t := draft.WithId("t" + NatText(now));
      AggregatesOfPrepend(t, transactions);
      transactions := [t] + transactions;
    }

    /** `addInvestment`: the investment, with id `i<now>`, goes in front of the others. */
    method AddInvestment(draft: InvestmentDraft, now: nat)
      modifies this
      ensures investments == [draft.WithId("i" + NatText(now))] + old(investments)
      ensures investments[1..] == old(investments)
      ensures transactions == old(transactions)
    {
      investments := [draft.WithId("i" + NatText(now))] + investments;
    }

    /** `deleteTransaction`: every transaction with that id goes; the rest keep their order. */
    method DeleteTransaction(id: string)
      modifies this
      ensures transactions == WithoutTransaction(old(transactions), id)
      ensures forall t :: t in transactions <==> t in old(transactions) && t.id != id
      ensures investments == old(investments)
    {
      transactions := WithoutTransaction(transactions, id);
    }

    /** `deleteInvestment`: every investment with that id goes; the rest keep their order. */
    method DeleteInvestment(id: string)
      modifies this
      ensures investments == WithoutInvestment(old(investments), id)
      ensures forall i :: i in investments <==> i in old(investments) && i.id != id
      ensures transactions == old(transactions)
    {
      investments := WithoutInvestment(investments, id);
    }

    /** `updateInvestmentValue`: same length, matching entries revalued, others untouched. */
    method UpdateInvestmentValue(id: string, newValue: real)
      modifies this
      ensures investments == Revalued(old(investments), id, newValue)
      ensures |investments| == |old(investments)|
      ensures transactions == old(transactions)
    {
      investments := Revalued(investments, id, newValue);
    }
  }

  const OutsideProviderMessage: string := "useFinance deve ser usado dentro de um FinanceProvider"

  /** `useFinance`: the provider's store, or an error when there is no provider. */
  function UseFinance(context: Option<Store>): (r: Result<Store, string>)
    ensures r.Failure? <==> context.None?
    ensures r.Failure? ==> r.error == OutsideProviderMessage
    ensures r.Success? ==> r.value == context.value
  {
    match context
    case None => Failure(OutsideProviderMessage)
    case Some(store) => Success(store)
  }
}
