/** The new-transaction form: categories by type, the type switch and the submit check. */
module TransactionForm {
  import opened Wrappers
  import opened Text
  import opened FinanceContext

  /** `categories[type]`: the categories the select offers for a type. */
  function Categories(kind: TransactionType): (cs: seq<string>)
    ensures |cs| == (if kind == Receita then 4 else 7)
    ensures cs[|cs| - 1] == "Outros"
    ensures "" !in cs
  {
    match kind
    case Receita => ["Salário", "Freelance", "Investimentos", "Outros"]
    case Despesa => ["Alimentação", "Moradia", "Transporte", "Lazer", "Saúde", "Educação", "Outros"]
  }

  /** The two lists share only "Outros", so a category other than it pins down the type. */
  lemma CategoriesShareOnlyOutros(c: string)
    ensures c in Categories(Receita) && c in Categories(Despesa) <==> c == "Outros"
  {
  }

  /** What `handleSubmit` hands to `addTransaction`, or nothing when a field is empty.
      `amount` is the number input: `None` when empty. `today` is
      `format(new Date(), "yyyy-MM-dd")`. */
  function SubmittedTransaction(kind: TransactionType, description: string, amount: Option<real>,
                                category: string, today: string): (d: Option<TransactionDraft>)
    ensures d.None? <==> description == "" || amount.None? || category == ""
    ensures d.Some? ==> d.value == TransactionDraft(today, description, category, amount.value, kind)
  {
    if description == "" || amount.None? || category == "" then None
    else Some(TransactionDraft(today, description, category, amount.value, kind))
  }

  /** An accepted transaction counts in the income when it is a receita and in the
      expenses otherwise, by its whole amount. */
  lemma SubmittedTransactionCounts(kind: TransactionType, description: string, amount: Option<real>,
                                   category: string, today: string, id: string, ts: seq<Transaction>)
    requires SubmittedTransaction(kind, description, amount, category, today).Some?
    ensures var t := SubmittedTransaction(kind, description, amount, category, today).value.WithId(id);
            && Income([t] + ts) == Income(ts) + (if kind == Receita then amount.value else 0.0)
            && Expenses([t] + ts) == Expenses(ts) + (if kind == Despesa then amount.value else 0.0)
  {
    var t := SubmittedTransaction(kind, description, amount, category, today).value.WithId(id);
    AggregatesOfPrepend(t, ts);
  }

  /** The state of `TransactionForm`. */
  class TransactionFormState {
    var kind: TransactionType
    var description: string
    var amount: Option<real>
    var category: string

    /** The category is empty or one the select offers for the current type. */
    predicate Valid()
      reads this
    {
      category == "" || category in Categories(kind)
    }

    constructor ()
      ensures kind == Receita && description == "" && amount.None? && category == ""
      ensures Valid()
    {
      kind, description, amount, category := Receita, "", None, "";
    }

    /** The type select's `onValueChange`: the type changes and the category is cleared. */
    method ChangeType(value: TransactionType)
      modifies this
      ensures kind == value && category == ""
      ensures description == old(description) && amount == old(amount)
      ensures Valid()
    {
      kind := value;
      category := "";
    }

    /** The category select's `onValueChange`, which offers only `categories[type]`. */
    method SelectCategory(value: string)
      requires value in Categories(kind)
      modifies this
      ensures category == value
      ensures kind == old(kind) && description == old(description) && amount == old(amount)
      ensures Valid()
    {
      category := value;
    }

    /** `handleSubmit`: with every field filled the transaction is added with id
        `"t" + now`; description, amount and category are cleared and the type is kept.
        Otherwise nothing changes. */
    method HandleSubmit(store: Store, today: string, now: nat) returns (added: bool)
      requires Valid()
      modifies this, store
      ensures Valid()
      ensures var d := SubmittedTransaction(old(kind), old(description), old(amount), old(category), today);
              && (added <==> d.Some?)
              && (d.None? ==> unchanged(this) && unchanged(store))
              && (d.Some? ==> store.transactions == [d.value.WithId("t" + NatText(now))] + old(store.transactions)
                              && store.investments == old(store.investments)
                              && kind == old(kind) && description == "" && amount.None? && category == "")
      ensures added ==> store.transactions[0].category in Categories(store.transactions[0].kind)
    {
      var draft := SubmittedTransaction(kind, description, amount, category, today);
      if draft.None? {
        return false;
      }
      store.AddTransaction(draft.value, now);
      description, amount, category := "", None, "";
      added := true;
    }
  }
}
