/** The rules of the payments list: status of a payment on a given day of the month, the
    pending/paid filter and the paid toggle. */
module PaymentsList {
  import opened Wrappers
  import opened Seqs
  import opened Records

  /** The four statuses `getPaymentStatus` can give. */
  datatype Status = Paid | Late | DueToday | Pending
  {
    /** The label shown on the badge. */
    function Label(): string
    {
      match this
      case Paid => "Pago"
      case Late => "Atrasado"
      case DueToday => "Vence hoje"
      case Pending => "Pendente"
    }
  }

  /** `getPaymentStatus`: paid wins; an unpaid payment is late before, due on, and pending
      after its due day. */
  function PaymentStatus(p: Payment, currentDay: int): (s: Status)
    ensures p.isPaid <==> s == Paid
    ensures s == Late <==> !p.isPaid && p.dueDay < currentDay
    ensures s == DueToday <==> !p.isPaid && p.dueDay == currentDay
    ensures s == Pending <==> !p.isPaid && p.dueDay > currentDay
  {
    if p.isPaid then Paid
    else if p.dueDay < currentDay then Late
    else if p.dueDay == currentDay then DueToday
    else Pending
  }

  /** The red border of a row: unpaid and past its due day. */
  predicate IsLate(p: Payment, currentDay: int)
  {
    !p.isPaid && p.dueDay < currentDay
  }

  /** The red border and the "Atrasado" badge always agree. */
  lemma IsLateIffLateStatus(p: Payment, currentDay: int)
    ensures IsLate(p, currentDay) <==> PaymentStatus(p, currentDay) == Late
  {
  }

  /** Distinct statuses carry distinct labels. */
  lemma LabelsDistinct(s: Status, t: Status)
    ensures s.Label() == t.Label() <==> s == t
  {
  }

  /** The tab selected in the list. */
  datatype PaymentFilter = All | PendingOnly | PaidOnly

  function Shown(filter: PaymentFilter): Payment -> bool
  {
    match filter
    case PendingOnly => (p: Payment) => !p.isPaid
    case PaidOnly => (p: Payment) => p.isPaid
    case All => (p: Payment) => true
  }

  /** `filteredPayments`. */
  function FilteredPayments(payments: seq<Payment>, filter: PaymentFilter): (r: seq<Payment>)
    ensures forall p :: p in r <==> p in payments && (filter == PendingOnly ==> !p.isPaid) && (filter == PaidOnly ==> p.isPaid)
  {
    Filter(Shown(filter), payments)
  }

  /** "Todos" shows every payment; "Pendentes" and "Pagos" split them, each payment landing
      in exactly one, and every tab keeps the list's order. */
  lemma FilterTabs(payments: seq<Payment>, a: seq<Payment>, b: seq<Payment>, filter: PaymentFilter)
    ensures FilteredPayments(payments, All) == payments
    ensures multiset(FilteredPayments(payments, PendingOnly)) + multiset(FilteredPayments(payments, PaidOnly)) == multiset(payments)
    ensures forall p :: p in payments ==> (p in FilteredPayments(payments, PendingOnly) <==> p !in FilteredPayments(payments, PaidOnly))
    ensures FilteredPayments(a + b, filter) == FilteredPayments(a, filter) + FilteredPayments(b, filter)
  {
    FilterKeepsAll(Shown(All), payments);
    FilterPartition(Shown(PendingOnly), Shown(PaidOnly), payments);
    FilterConcat(Shown(filter), a, b);
  }

  /** The record `handleTogglePaid` builds from a payment. */
  function Toggled(p: Payment): (q: Payment)
    ensures q.isPaid == !p.isPaid
    ensures q.(isPaid := p.isPaid) == p
  {
    p.(isPaid := !p.isPaid)
  }

  /** `handleTogglePaid`: the record passed to `updatePayment`, built from the first payment
      with that id, or nothing when no payment has it. */
  function TogglePaid(payments: seq<Payment>, paymentId: string): (update: Option<Payment>)
    ensures update.None? <==> forall p :: p in payments ==> p.id != paymentId
    ensures update.Some? ==> exists k :: && 0 <= k < |payments| && payments[k].id == paymentId
                                        && (forall j :: 0 <= j < k ==> payments[j].id != paymentId)
                                        && update.value == Toggled(payments[k])
  {
    match Find((p: Payment) => p.id == paymentId, payments)
    case None => None
    case Some(p) => Some(Toggled(p))
  }

  /** Toggling twice gives back the original record. */
  lemma ToggleTwice(p: Payment)
    ensures Toggled(Toggled(p)) == p
  {
  }
}
