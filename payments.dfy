/** The data the queries read: payments, their items and their users. All are
    immutable values compared field by field, so equal payments collapse into
    one element when collected into a set. */
module Payments {
  import opened Calendar
  import opened Streams

  /** The owner of a payment; only the email address takes part in the queries. */
  datatype User = User(email: string)

  /** One product line of a payment. Prices are exact decimals (`BigDecimal`
      values), so they are modelled as exact `real`s; the final price is the
      one charged after discount. */
  datatype PaymentItem = PaymentItem(name: string, regularPrice: real, finalPrice: real)

  /** One checkout event: when, by whom, and the ordered items. */
  datatype Payment = Payment(paymentDate: Timestamp, user: User, paymentItems: seq<PaymentItem>)

  function Name(item: PaymentItem): string { item.name }

  function FinalPrice(item: PaymentItem): real { item.finalPrice }

  function RegularPrice(item: PaymentItem): real { item.regularPrice }

  /** `regularPrice.subtract(finalPrice)`: the discount granted on one item. */
  function Discount(item: PaymentItem): real { item.regularPrice - item.finalPrice }

  function Items(p: Payment): seq<PaymentItem> { p.paymentItems }

  /** The value of a payment: its items' final prices summed from zero. */
  function PaymentValue(p: Payment): real
  {
    Sum(Map(p.paymentItems, FinalPrice))
  }

  /** The summed discount of some items is their summed regular price minus
      their summed final price. */
  lemma {:induction false} SumOfDiscounts(items: seq<PaymentItem>)
    ensures Sum(Map(items, Discount)) == Sum(Map(items, RegularPrice)) - Sum(Map(items, FinalPrice))
  {
    if items != [] {
      var init, last := items[..|items| - 1], items[|items| - 1];
      assert items == init + [last];
      MapAppend(init, [last], Discount);
      MapAppend(init, [last], RegularPrice);
      MapAppend(init, [last], FinalPrice);
      SumAppend(Map(init, Discount), Map([last], Discount));
      SumAppend(Map(init, RegularPrice), Map([last], RegularPrice));
      SumAppend(Map(init, FinalPrice), Map([last], FinalPrice));
      SumSingleton(Discount(last));
      SumSingleton(RegularPrice(last));
      SumSingleton(FinalPrice(last));
      SumOfDiscounts(init);
    }
  }
}
