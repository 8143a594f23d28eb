/** Billing (billing/models.py, billing/views.py): bills with their
    total, paid amount and discount, the balance, bill items, and the
    `add_payment` view that records a payment and moves the bill's status.
    All amounts are integer cents. */
module Billing {
  import opened Outcomes
  import RecordIds
  import Queries

  const StatusChoices: seq<string> := ["pending", "partial", "paid", "cancelled"]

  const PaymentMethodChoices: seq<string> := ["cash", "card", "mobile", "insurance"]

  const DefaultStatus: string := "pending"

  datatype Bill = Bill(
    billId: string, patientPk: nat,
    total: int, paid: int, discount: int,
    status: string, paymentMethod: string)

  /** The `balance` property: what remains after the payments and the discount. */
  function Balance(b: Bill): int {
    b.total - b.paid - b.discount
  }

  /** A bill as created: nothing paid, no discount, pending, and so the
      whole total outstanding. */
  function NewBill(patientPk: nat, total: int): (b: Bill)
    ensures b.billId == "" && b.patientPk == patientPk && b.total == total
    ensures b.paid == 0 && b.discount == 0
    ensures b.status == DefaultStatus && b.status in StatusChoices
    ensures Balance(b) == total
  {
    Bill("", patientPk, total, 0, 0, DefaultStatus, "")
  }

  /** `Bill.save()`: the next `BILL-` ID, only while the bill has none. */
  function SaveBill(b: Bill, last: Option<string>): (r: Result<Bill>)
    ensures r.Ok? ==> r.value == b.(billId := r.value.billId)
    ensures b.billId != "" ==> r == Ok(b)
    ensures b.billId == "" && last.None? ==> r == Ok(b.(billId := "BILL-000001"))
    ensures b.billId == "" && last.Some? ==> (r.Ok? <==> RecordIds.IdNumber(last.value).Ok?)
    ensures b.billId == "" && last.Some? && r.Ok? ==>
      RecordIds.IdNumber(r.value.billId) == Ok(RecordIds.IdNumber(last.value).value + 1)
  {
    RecordIds.FirstId(RecordIds.BillPrefix);
    assert RecordIds.BillPrefix + "-000001" == "BILL-000001";
    var id :- RecordIds.AssignId(b.billId, RecordIds.BillPrefix, last);
    Ok(b.(billId := id))
  }

  /** `bill_list`: a non-blank `status` parameter keeps the bills with
      exactly that status, in the stored order. */
  function BillList(bills: seq<Bill>, status: string): (r: seq<Bill>)
    ensures status == "" ==> r == bills
    ensures status != "" ==> forall b :: b in r <==> b in bills && b.status == status
  {
    if status == "" then bills else Queries.Filter(bills, (b: Bill) => b.status == status)
  }

  /** Filtering by a status no bill can hold (one outside the choices)
      lists nothing. */
  lemma BillListOutsideChoices(bills: seq<Bill>, status: string)
    requires status != "" && status !in StatusChoices
    requires forall i :: 0 <= i < |bills| ==> bills[i].status in StatusChoices
    ensures BillList(bills, status) == []
  {
    Queries.FilterKeepsNone(bills, (b: Bill) => b.status == status);
  }

  // ---------------------------------------------------------------------
  // Bill items

  datatype BillItem = BillItem(description: string, quantity: int, unitPrice: int, totalPrice: int)

  /** `BillItem.save()`: the stored line total is recomputed from the
      quantity and the unit price; nothing else changes. */
  function SaveBillItem(item: BillItem): (r: BillItem)
    ensures r.description == item.description
    ensures r.quantity == item.quantity && r.unitPrice == item.unitPrice
    ensures r.totalPrice == item.quantity * item.unitPrice
  {
    item.(totalPrice := item.quantity * item.unitPrice)
  }

  /** Whatever line total was supplied, saving gives the same item, and
      saving again changes nothing. */
  lemma SaveBillItemCanonical(item: BillItem, supplied: int)
    ensures SaveBillItem(item.(totalPrice := supplied)) == SaveBillItem(item)
    ensures SaveBillItem(SaveBillItem(item)) == SaveBillItem(item)
  {
  }

  // ---------------------------------------------------------------------
  // Payments

  datatype Payment = Payment(billPk: nat, amount: int, paymentMethod: string, transactionId: string)

  /** What the payment form posts. */
  datatype PaymentForm = PaymentForm(amount: int, paymentMethod: string, transactionId: string)

  /** The bill after `add_payment`, and the payment row it created. */
  datatype Recorded = Recorded(bill: Bill, payment: Payment)

  /** `add_payment` as written: the payment row is created from the posted
      amount, a float, and adding that float to the bill's decimal paid
      amount then raises TypeError. The request ends in a server error, the
      payment row stays (no per-request transaction), and the bill keeps its
      paid amount and status. */
  function AddPaymentAsWritten(b: Bill, billPk: nat, form: PaymentForm): (r: Recorded)
    ensures r.payment == Payment(billPk, form.amount, form.paymentMethod, form.transactionId)
    ensures r.bill == b
  {
    Recorded(b, Payment(billPk, form.amount, form.paymentMethod, form.transactionId))
  }

  /** As written, a payment is stored but never counted: the bill's paid
      amount no longer matches its payments, where converting the amount to
      a decimal first (`AddPayment`) keeps the two in step. */
  lemma PaymentStoredButNotCounted(patientPk: nat, total: int, billPk: nat, form: PaymentForm)
    requires form.amount != 0
    ensures var written := AddPaymentAsWritten(NewBill(patientPk, total), billPk, form);
            written.payment.amount == form.amount && written.bill.paid == 0
            && written.bill.status == DefaultStatus
    ensures var fixed := AddPayment(NewBill(patientPk, total), billPk, form);
            fixed.payment.amount == form.amount && fixed.bill.paid == form.amount
  {
  }

  /** `add_payment` with the amount read as a decimal: records one payment
      of the posted amount against the bill, adds it to the paid amount, and sets the status to paid once
      the paid amount reaches the total and to partial otherwise; the
      discount plays no part, and a cancelled bill is reopened as well. */
  function AddPayment(b: Bill, billPk: nat, form: PaymentForm): (r: Recorded)
    ensures r.payment == Payment(billPk, form.amount, form.paymentMethod, form.transactionId)
    ensures r.bill == b.(paid := b.paid + form.amount, status := r.bill.status)
    ensures r.bill.status == "paid" <==> b.paid + form.amount >= b.total
    ensures r.bill.status != "paid" ==> r.bill.status == "partial"
    ensures r.bill.status in StatusChoices
    ensures Balance(r.bill) == Balance(b) - form.amount
  {
    var paid := b.paid + form.amount;
    var status := if paid >= b.total then "paid" else "partial";
    Recorded(b.(paid := paid, status := status), Payment(billPk, form.amount, form.paymentMethod, form.transactionId))
  }

  /** The total of a run of payments. */
  function Paid(ps: seq<Payment>): int {
    if |ps| == 0 then 0 else Paid(ps[..|ps| - 1]) + ps[|ps| - 1].amount
  }

  /** A bill together with the payments recorded against it. */
  datatype Ledger = Ledger(bill: Bill, payments: seq<Payment>)

  /** A run of `add_payment` requests against one bill, in order, as the
      view is written: the last payment decides the status from the paid
      amount and the total alone. */
  function PayAll(b: Bill, billPk: nat, forms: seq<PaymentForm>): (r: Ledger)
    ensures |r.payments| == |forms|
    ensures forall i :: 0 <= i < |forms| ==> r.payments[i].amount == forms[i].amount && r.payments[i].billPk == billPk
    ensures r.bill.paid == b.paid + Paid(r.payments)
    ensures r.bill.total == b.total && r.bill.discount == b.discount && r.bill.billId == b.billId
    ensures |forms| == 0 ==> r.bill == b
    ensures |forms| > 0 ==> (r.bill.status == "paid" <==> r.bill.paid >= r.bill.total)
    ensures |forms| > 0 ==> r.bill.status in ["paid", "partial"]
  {
    if |forms| == 0 then Ledger(b, [])
    else
      var before := PayAll(b, billPk, forms[..|forms| - 1]);
      var step := AddPayment(before.bill, billPk, forms[|forms| - 1]);
      var payments := before.payments + [step.payment];
      assert payments[..|payments| - 1] == before.payments;
      Ledger(step.bill, payments)
  }

  /** The same run of payments with the discount counted, as
      `AddPaymentWithDiscount` below counts it: once any payment is
      recorded, the bill is paid exactly when nothing remains outstanding. */
  function PayAllCorrected(b: Bill, billPk: nat, forms: seq<PaymentForm>): (r: Ledger)
    ensures |r.payments| == |forms|
    ensures forall i :: 0 <= i < |forms| ==> r.payments[i].amount == forms[i].amount && r.payments[i].billPk == billPk
    ensures r.bill.paid == b.paid + Paid(r.payments)
    ensures r.bill.total == b.total && r.bill.discount == b.discount && r.bill.billId == b.billId
    ensures |forms| == 0 ==> r.bill == b
    ensures |forms| > 0 ==> (r.bill.status == "paid" <==> Balance(r.bill) <= 0)
    ensures |forms| > 0 ==> r.bill.status in ["paid", "partial"]
  {
    if |forms| == 0 then Ledger(b, [])
    else
      var before := PayAllCorrected(b, billPk, forms[..|forms| - 1]);
      var step := AddPaymentWithDiscount(before.bill, billPk, forms[|forms| - 1]);
      var payments := before.payments + [step.payment];
      assert payments[..|payments| - 1] == before.payments;
      Ledger(step.bill, payments)
  }

  /** Whether or not the discount is counted, a run records the same
      payments. */
  lemma {:induction false} PayAllSamePayments(b: Bill, billPk: nat, forms: seq<PaymentForm>)
    ensures PayAllCorrected(b, billPk, forms).payments == PayAll(b, billPk, forms).payments
    decreases |forms|
  {
    if |forms| > 0 {
      PayAllSamePayments(b, billPk, forms[..|forms| - 1]);
    }
  }

  /** On a bill without a discount the two runs end in the same bill. */
  lemma {:induction false} PayAllRunsAgree(b: Bill, billPk: nat, forms: seq<PaymentForm>)
    requires b.discount == 0
    ensures PayAllCorrected(b, billPk, forms) == PayAll(b, billPk, forms)
    decreases |forms|
  {
    if |forms| > 0 {
      PayAllRunsAgree(b, billPk, forms[..|forms| - 1]);
      DiscountFreeBillsAgree(PayAll(b, billPk, forms[..|forms| - 1]).bill, billPk, forms[|forms| - 1]);
    }
  }

  /** On a new bill the paid amount is always the sum of the payments
      recorded, and the balance is the total less that sum. */
  lemma NewBillPaidIsSumOfPayments(patientPk: nat, total: int, billPk: nat, forms: seq<PaymentForm>)
    ensures var l := PayAll(NewBill(patientPk, total), billPk, forms);
            l.bill.paid == Paid(l.payments) && Balance(l.bill) == total - Paid(l.payments)
  {
  }

  /** As written the discount is ignored: a bill with a discount whose
      payments cover the rest is left partial with nothing outstanding. */
  lemma PartialWithNothingOutstanding()
    ensures var b := NewBill(1, 10000).(discount := 2000);
            var r := AddPayment(b, 1, PaymentForm(8000, "cash", ""));
            r.bill.status == "partial" && Balance(r.bill) == 0
  {
  }

  /** A cancelled bill that receives a payment is reopened. */
  lemma CancelledBillReopened(b: Bill, billPk: nat, form: PaymentForm)
    requires b.status == "cancelled"
    ensures AddPayment(b, billPk, form).bill.status != "cancelled"
  {
  }

  /** `add_payment` with the discount counted: the bill is paid exactly when
      nothing remains outstanding. */
  function AddPaymentWithDiscount(b: Bill, billPk: nat, form: PaymentForm): (r: Recorded)
    ensures r.payment == Payment(billPk, form.amount, form.paymentMethod, form.transactionId)
    ensures r.bill == b.(paid := b.paid + form.amount, status := r.bill.status)
    ensures r.bill.status == "paid" <==> Balance(r.bill) <= 0
    ensures r.bill.status != "paid" ==> r.bill.status == "partial"
  {
    var paid := b.paid + form.amount;
    var status := if paid + b.discount >= b.total then "paid" else "partial";
    Recorded(b.(paid := paid, status := status), Payment(billPk, form.amount, form.paymentMethod, form.transactionId))
  }

  /** Without a discount, the corrected view and the view as written agree. */
  lemma DiscountFreeBillsAgree(b: Bill, billPk: nat, form: PaymentForm)
    requires b.discount == 0
    ensures AddPaymentWithDiscount(b, billPk, form) == AddPayment(b, billPk, form)
  {
  }
}
