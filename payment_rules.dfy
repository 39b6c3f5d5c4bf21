/** What POST /payments stores: the masked payment details and the paid
    order, and how a paid order counts towards revenue. */
module PaymentRules {
  import opened Records
  import OrderRules

  /** `{ ...paymentDetails, cardNumber: '****' }`. */
  function Masked(details: map<string, string>): (r: map<string, string>)
    ensures "cardNumber" in r && r["cardNumber"] == "****"
    ensures forall k :: k in details && k != "cardNumber" ==> k in r && r[k] == details[k]
    ensures forall k :: k in r ==> k in details || k == "cardNumber"
  {
    details["cardNumber" := "****"]
  }

  /** The order after a payment: paid, and processing whatever its status was. */
  function Paid(o: Order): Order {
    o.(paymentStatus := Completed, status := Processing)
  }

  /** Paying an order makes it count towards revenue with its full total. */
  lemma PaidCounts(o: Order)
    ensures OrderRules.Contribution(OrderV(Paid(o))) == o.total.GetOr(0)
    ensures Paid(o).status == Processing
  {
  }
}
