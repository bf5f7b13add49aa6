/** The new-payment form: the checks made on submit, the payment record it builds and the
    card selector. */
module PaymentsForm {
  import opened Wrappers
  import opened Text
  import opened Records
  import opened PaymentsList

  /** The ten fields of the form as one value. The number inputs are `None` when empty;
      otherwise they hold what `parseFloat`/`parseInt` read from them. */
  datatype PaymentDraft = PaymentDraft(
    description: string,
    amount: Option<real>,
    dueDay: Option<int>,
    isRecurring: bool,
    isInstallment: bool,
    totalInstallments: Option<int>,
    currentInstallment: Option<int>,
    cardName: string,
    newCardName: string,
    showNewCardField: bool)

  /** The form as it starts and as a successful submit leaves it. */
  const EmptyDraft := PaymentDraft("", None, None, false, false, None, None, "", "", false)

  /** What a submit hands to the store: the card name passed to `createNewCardIfNotExists`,
      if any, and the payment passed to `addPayment`, if any. */
  datatype Submission = Submission(cardRequest: Option<string>, payment: Option<Payment>)

  /** The required fields are filled. */
  predicate HasRequired(d: PaymentDraft)
  {
    d.description != "" && d.amount.Some? && d.dueDay.Some?
  }

  /** A new card is asked for. */
  predicate WantsNewCard(d: PaymentDraft)
  {
    d.showNewCardField && d.newCardName != ""
  }

  /** The installment checks pass, or the payment is not an installment one. */
  predicate InstallmentsValid(d: PaymentDraft)
  {
    d.isInstallment ==>
      d.totalInstallments.Some? && d.currentInstallment.Some? &&
      d.currentInstallment.value <= d.totalInstallments.value
  }

  /** `selectedCard || null`. */
  function CardOf(d: PaymentDraft): (card: Option<string>)
    ensures WantsNewCard(d) ==> card == Some(d.newCardName)
    ensures !WantsNewCard(d) ==> (card.None? <==> d.cardName == "")
    ensures !WantsNewCard(d) && d.cardName != "" ==> card == Some(d.cardName)
  {
    var selectedCard := if WantsNewCard(d) then d.newCardName else d.cardName;
    if selectedCard == "" then None else Some(selectedCard)
  }

  /** `handleSubmit` on a form in state `d`, with `now` the clock reading that names the
      payment and `createdAt` its ISO time. */
  function Submit(d: PaymentDraft, now: nat, createdAt: string): (r: Submission)
    ensures r.payment.Some? <==> HasRequired(d) && InstallmentsValid(d)
    ensures r.cardRequest.Some? <==> HasRequired(d) && WantsNewCard(d)
    ensures r.cardRequest.Some? ==> r.cardRequest.value == d.newCardName
    ensures r.payment.Some? ==>
              var p := r.payment.value;
              && p.id == NatText(now)
              && p.description == d.description
              && p.amount == d.amount.value
              && p.dueDay == d.dueDay.value
              && p.isRecurring == d.isRecurring
              && !p.isPaid
              && p.createdAt == createdAt
              && p.cardName == CardOf(d)
              && (p.installments.Some? <==> d.isInstallment)
              && (p.installments.Some? ==>
                    p.installments.value == Installments(d.totalInstallments.value, d.currentInstallment.value)
                    && p.installments.value.current <= p.installments.value.total)
  {
    if !HasRequired(d) then Submission(None, None)
    else
      var cardRequest := if WantsNewCard(d) then Some(d.newCardName) else None;
      if d.isInstallment && (d.totalInstallments.None? || d.currentInstallment.None?) then
        Submission(cardRequest, None)
      else if d.isInstallment && d.currentInstallment.value > d.totalInstallments.value then
        Submission(cardRequest, None)
      else
        var installments :=
          if d.isInstallment then Some(Installments(d.totalInstallments.value, d.currentInstallment.value)) else None;
        Submission(cardRequest, Some(Payment(NatText(now), d.description, d.amount.value, d.dueDay.value,
                                             d.isRecurring, false, createdAt, CardOf(d), installments)))
  }

  /** The card is asked for before the installment checks: a submit rejected for its
      installments can still have created a card. */
  lemma CardRequestedThenRejected(now: nat, createdAt: string)
    ensures var d := PaymentDraft("Geladeira", Some(300.0), Some(10), false, true, Some(3), Some(5), "", "Nubank", true);
            Submit(d, now, createdAt) == Submission(Some("Nubank"), None)
  {
  }

  /** A new payment starts unpaid, whatever day it is and whatever its due day. */
  lemma NewPaymentNotPaid(d: PaymentDraft, now: nat, createdAt: string, currentDay: int)
    requires Submit(d, now, createdAt).payment.Some?
    ensures PaymentStatus(Submit(d, now, createdAt).payment.value, currentDay) != Paid
    ensures TogglePaid([Submit(d, now, createdAt).payment.value], NatText(now)).value.isPaid
  {
  }

  /** Choosing "Nenhum" in the selector keeps the text "nenhum" as the card name, and the
      payment carries it; only an empty selection gives no card. */
  lemma NenhumIsKeptAsCardName(d: PaymentDraft, now: nat, createdAt: string)
    requires HasRequired(d) && InstallmentsValid(d)
    requires d.cardName == "nenhum" && !d.showNewCardField
    ensures Submit(d, now, createdAt).payment.value.cardName == Some("nenhum")
  {
  }

  /** The state of `PaymentsForm`. */
  class Form {
    var description: string
    var amount: Option<real>
    var dueDay: Option<int>
    var isRecurring: bool
    var isInstallment: bool
    var totalInstallments: Option<int>
    var currentInstallment: Option<int>
    var cardName: string
    var newCardName: string
    var showNewCardField: bool

    constructor ()
      ensures Draft() == EmptyDraft
    {
      description, amount, dueDay := "", None, None;
      isRecurring, isInstallment := false, false;
      totalInstallments, currentInstallment := None, None;
      cardName, newCardName, showNewCardField := "", "", false;
    }

    function Draft(): PaymentDraft
      reads this
    {
      PaymentDraft(description, amount, dueDay, isRecurring, isInstallment, totalInstallments,
                   currentInstallment, cardName, newCardName, showNewCardField)
    }

    /** `handleSubmit`: the early returns of the source, then the payment, then every field
        cleared. A rejected submit leaves the fields as they were. */
    method HandleSubmit(now: nat, createdAt: string) returns (cardRequest: Option<string>, payment: Option<Payment>)
      modifies this
      ensures Submission(cardRequest, payment) == Submit(old(Draft()), now, createdAt)
      ensures payment.Some? ==> Draft() == EmptyDraft
      ensures payment.None? ==> Draft() == old(Draft())
    {
      cardRequest, payment := None, None;
      if description == "" || amount.None? || dueDay.None? {
        return;
      }
      var selectedCard := cardName;
      if showNewCardField && newCardName != "" {
        cardRequest := Some(newCardName);
        selectedCard := newCardName;
      }
      if isInstallment {
        if totalInstallments.None? || currentInstallment.None? {
          return;
        }
        if currentInstallment.value > totalInstallments.value {
          return;
        }
      }
      var installments := None;
      if isInstallment {
        installments := Some(Installments(totalInstallments.value, currentInstallment.value));
      }
      var card := if selectedCard == "" then None else Some(selectedCard);
      payment := Some(Payment(NatText(now), description, amount.value, dueDay.value, isRecurring,
                              false, createdAt, card, installments));
      description, amount, dueDay := "", None, None;
      isRecurring, isInstallment := false, false;
      totalInstallments, currentInstallment := None, None;
      cardName, newCardName, showNewCardField := "", "", false;
    }

    /** The card selector's `onValueChange`: "new" shows the new-card field and clears the
        selection; any other value, "nenhum" included, is selected and hides the field. */
    method SelectCard(value: string)
      modifies this
      ensures value == "new" ==> showNewCardField && cardName == ""
      ensures value != "new" ==> !showNewCardField && cardName == value
      ensures Draft().(cardName := old(cardName), showNewCardField := old(showNewCardField)) == old(Draft())
    {
      if value == "new" {
        showNewCardField := true;
        cardName := "";
      } else {
        showNewCardField := false;
        cardName := value;
      }
    }
  }

  /** After choosing an existing card, a successful submit records exactly that card. */
  lemma SelectedCardIsRecorded(d: PaymentDraft, value: string, now: nat, createdAt: string)
    requires value != "new" && value != ""
    requires HasRequired(d) && InstallmentsValid(d)
    ensures var p := Submit(d.(cardName := value, showNewCardField := false), now, createdAt).payment;
            p.Some? && p.value.cardName == Some(value)
  {
  }
}
