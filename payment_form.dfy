/** The payment form of the accounts-receivable screen: the chain of guards that decides
    whether a payment is submitted, the status label of an account, and when the pay button
    is offered. Amounts are integer cents, like the server's. */
module PaymentForm {
  import opened Common
  import Receivables

  /** Why the form refuses to submit; each reason is one alert of the screen. */
  datatype Rejection = MissingFields | NonPositiveAmount | ExceedsRemaining(remaining: int)

  datatype PaymentOutcome = Reject(reason: Rejection) | Submit(payload: Receivables.PaymentRequest)

  /** The decision taken when the user confirms the form. `selected` is the account whose pay
      button opened the form; `amount` is `None` while the amount field is blank. */
  function HandlePayment(selected: Option<Receivables.Account>, amount: Option<int>,
                         paymentMethod: string, notes: string): PaymentOutcome
  {
    if selected.None? || amount.None? then Reject(MissingFields)
    else if amount.value <= 0 then Reject(NonPositiveAmount)
    else if amount.value > selected.value.Remaining() then Reject(ExceedsRemaining(selected.value.Remaining()))
    else Submit(Receivables.PaymentRequest(amount.value, paymentMethod, notes))
  }

  /** Each guard rejects exactly the inputs that reach it and fail it, and a submission carries
      the typed amount, the chosen method and the notes. */
  lemma PaymentValidationChain(selected: Option<Receivables.Account>, amount: Option<int>,
                               paymentMethod: string, notes: string)
    ensures HandlePayment(selected, amount, paymentMethod, notes) == Reject(MissingFields) <==>
      selected.None? || amount.None?
    ensures HandlePayment(selected, amount, paymentMethod, notes) == Reject(NonPositiveAmount) <==>
      selected.Some? && amount.Some? && amount.value <= 0
    ensures (HandlePayment(selected, amount, paymentMethod, notes).Reject?
             && HandlePayment(selected, amount, paymentMethod, notes).reason.ExceedsRemaining?) <==>
      selected.Some? && amount.Some? && 0 < amount.value && amount.value > selected.value.amount - selected.value.paidAmount
    ensures HandlePayment(selected, amount, paymentMethod, notes) == Reject(ExceedsRemaining(0)) ==>
      selected.value.amount == selected.value.paidAmount
    ensures HandlePayment(selected, amount, paymentMethod, notes).Submit? <==>
      selected.Some? && amount.Some? && 0 < amount.value <= selected.value.amount - selected.value.paidAmount
    ensures HandlePayment(selected, amount, paymentMethod, notes).Submit? ==>
      HandlePayment(selected, amount, paymentMethod, notes).payload ==
        Receivables.PaymentRequest(amount.value, paymentMethod, notes)
  {
  }

  /** A payment the form submits is one the server accepts: the server only refuses amounts
      above the remaining balance, which the form refuses first. The remaining balance then
      falls by the amount and never below zero. For a positive amount the two agree exactly. */
  lemma SubmittedPaymentIsAccepted(account: Receivables.Account, amount: int, paymentMethod: string, notes: string)
    ensures HandlePayment(Some(account), Some(amount), paymentMethod, notes).Submit? ==>
      && Receivables.AfterPayment(account, amount).Ok?
      && Receivables.AfterPayment(account, amount).value.Remaining() == account.Remaining() - amount
      && 0 <= Receivables.AfterPayment(account, amount).value.Remaining() < account.Remaining()
    ensures amount > 0 ==>
      (HandlePayment(Some(account), Some(amount), paymentMethod, notes).Submit? <==>
       Receivables.AfterPayment(account, amount).Ok?)
  {
    Receivables.PaymentSettlesBalance(account, amount);
  }

  /** The pay button is shown for an account exactly when something remains to be paid. */
  predicate PayOffered(account: Receivables.Account) {
    account.Remaining() > 0
  }

  /** The button is offered exactly when the form would accept some amount for the account,
      and paying the whole remaining balance withdraws it and marks the account paid. */
  lemma PayOfferedIffSomePaymentSubmits(account: Receivables.Account, paymentMethod: string, notes: string)
    ensures PayOffered(account) <==>
      exists amount: int :: HandlePayment(Some(account), Some(amount), paymentMethod, notes).Submit?
    ensures PayOffered(account) ==>
      && Receivables.AfterPayment(account, account.Remaining()).Ok?
      && !PayOffered(Receivables.AfterPayment(account, account.Remaining()).value)
      && StatusText(Receivables.AfterPayment(account, account.Remaining()).value.status) == "Pago"
  {
    if PayOffered(account) {
      assert HandlePayment(Some(account), Some(account.Remaining()), paymentMethod, notes).Submit?;
      Receivables.PaymentSettlesBalance(account, account.Remaining());
    }
  }

  /** The label shown for a status code; any code other than the three named ones reads as
      pending. */
  function StatusText(status: string): string {
    if status == Receivables.Paid then "Pago"
    else if status == Receivables.Partial then "Parcial"
    else if status == Receivables.Overdue then "Vencido"
    else "Pendente"
  }

  /** The label of a status the server recomputes names the condition that produced it. */
  lemma StatusTextOfRecomputed(paidAmount: int, amount: int, dueDate: int, now: int)
    ensures StatusText(Receivables.StatusFor(paidAmount, amount, dueDate, now)) == "Pago" <==> paidAmount >= amount
    ensures StatusText(Receivables.StatusFor(paidAmount, amount, dueDate, now)) == "Parcial" <==>
      0 < paidAmount < amount
    ensures StatusText(Receivables.StatusFor(paidAmount, amount, dueDate, now)) == "Vencido" <==>
      paidAmount < amount && paidAmount <= 0 && dueDate < now
    ensures StatusText(Receivables.StatusFor(paidAmount, amount, dueDate, now)) == "Pendente" <==>
      paidAmount < amount && paidAmount <= 0 && dueDate >= now
  {
    Receivables.StatusPriority(paidAmount, amount, dueDate, now);
    assert "Pago" != "Parcial" && "Pago" != "Vencido" && "Pago" != "Pendente" && "Parcial" != "Vencido"
      && "Parcial" != "Pendente" && "Vencido" != "Pendente" by {
      assert |"Pago"| == 4 && |"Parcial"| == 7 && |"Vencido"| == 7 && |"Pendente"| == 8;
      assert "Parcial"[0] == 'P' && "Vencido"[0] == 'V';
    }
  }
}
