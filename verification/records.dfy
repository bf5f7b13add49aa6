/** The goal and payment records the screens build and hand to the store's `addGoal`,
    `updateGoal`, `addPayment` and `updatePayment`. */
module Records {
  import opened Wrappers

  /** A savings goal. Whether it is complete is derived, never stored. */
  datatype Goal = Goal(
    id: string,
    name: string,
    targetAmount: real,
    currentAmount: real,
    monthlyContribution: real,
    createdAt: string)

  /** The installment fields of a payment, present together or not at all. */
  datatype Installments = Installments(total: int, current: int)

  /** A recurring bill or subscription. `installments` holds `totalInstallments` and
      `currentInstallment`, present exactly when the source sets `isInstallment`. */
  datatype Payment = Payment(
    id: string,
    description: string,
    amount: real,
    dueDay: int,
    isRecurring: bool,
    isPaid: bool,
    createdAt: string,
    cardName: Option<string>,
    installments: Option<Installments>)
}
