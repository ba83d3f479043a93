/** `PaymentService`: read-only queries over all payments of the repository.
    Each query receives the repository's payments as `payments` and, where it
    needs the clock, the single instant `now` that the clock returns. */
module PaymentService {
  import opened Calendar
  import opened Streams
  import opened Payments
  import opened DateSort

  /** A Java `int`. */
  type Int32 = x: int | -0x8000_0000 <= x < 0x8000_0000

  // ---------------------------------------------------------------------
  // Predicates the queries filter by

  function InMonth(yearMonth: YearMonth): Payment -> bool
  {
    (p: Payment) => YearMonthFrom(p.paymentDate) == yearMonth
  }

  function AfterDaysBefore(now: Timestamp, days: Int32): Payment -> bool
  {
    (p: Payment) => IsAfter(p.paymentDate, MinusDays(now, days))
  }

  predicate HasOneItem(p: Payment)
  {
    |p.paymentItems| == 1
  }

  function WithEmail(userEmail: string): Payment -> bool
  {
    (p: Payment) => p.user.email == userEmail
  }

  function ValueOver(value: Int32): Payment -> bool
  {
    (p: Payment) => PaymentValue(p) > value as real
  }

  /** The item names of one payment, in item order. */
  function ItemNames(p: Payment): (r: seq<string>)
    ensures forall name :: name in r <==> exists item :: item in p.paymentItems && item.name == name
  {
    assert forall name :: name in Map(p.paymentItems, Name) <==> exists item :: item in p.paymentItems && item.name == name by {
      forall name ensures name in Map(p.paymentItems, Name) <==> exists item :: item in p.paymentItems && Name(item) == name {
        MapMembership(p.paymentItems, Name, name);
      }
    }
    Map(p.paymentItems, Name)
  }

  // ---------------------------------------------------------------------
  // The queries

  /** All payments, latest first; payments with equal dates stay in source order. */
  function FindPaymentsSortedByDateDesc(payments: seq<Payment>): (r: seq<Payment>)
    ensures SortedByDateDesc(r)
    ensures multiset(r) == multiset(payments)
    ensures KeepsOrderOfEqualDates(r, payments)
  {
    SortByDateDescIsStable(payments);
    SortByDateDesc(payments)
  }

  /** The payments dated in `yearMonth` (same year and same month), in source order. */
  function FindPaymentsForGivenMonth(payments: seq<Payment>, yearMonth: YearMonth): (r: seq<Payment>)
    ensures forall p :: p in r <==> p in payments && YearMonthFrom(p.paymentDate) == yearMonth
  {
    Filter(payments, InMonth(yearMonth))
  }

  /** The payments dated in the clock's current month, in source order. */
  function FindPaymentsForCurrentMonth(payments: seq<Payment>, now: Timestamp): (r: seq<Payment>)
    ensures forall p :: p in r <==> p in payments && YearMonthFrom(p.paymentDate) == YearMonthFrom(now)
  {
    FindPaymentsForGivenMonth(payments, YearMonthFrom(now))
  }

  /** The payments dated strictly after `days` days before `now`, in source order. */
  function FindPaymentsForGivenLastDays(payments: seq<Payment>, now: Timestamp, days: Int32): (r: seq<Payment>)
    ensures forall p :: p in r <==> p in payments && p.paymentDate > MinusDays(now, days)
  {
    Filter(payments, AfterDaysBefore(now, days))
  }

  /** The distinct payments that have exactly one item. */
  function FindPaymentsWithOnePaymentItem(payments: seq<Payment>): (r: set<Payment>)
    ensures forall p :: p in r <==> p in payments && |p.paymentItems| == 1
    ensures |r| <= |payments|
  {
    ToSet(Filter(payments, HasOneItem))
  }

  /** The distinct names of the items of the current month's payments. */
  function FindProductsSoldInCurrentMonth(payments: seq<Payment>, now: Timestamp): (r: set<string>)
    ensures forall name :: name in r <==>
      exists p, item :: p in payments && YearMonthFrom(p.paymentDate) == YearMonthFrom(now)
        && item in p.paymentItems && item.name == name
  {
    ToSet(FlatMap(FindPaymentsForCurrentMonth(payments, now), ItemNames))
  }

  /** The summed final prices of the items of the payments dated in `yearMonth`. */
  function SumTotalForGivenMonth(payments: seq<Payment>, yearMonth: YearMonth): real
  {
    Sum(Map(FlatMap(FindPaymentsForGivenMonth(payments, yearMonth), Items), FinalPrice))
  }

  /** The summed discounts (regular minus final price) of the items of the
      payments dated in `yearMonth`. */
  function SumDiscountForGivenMonth(payments: seq<Payment>, yearMonth: YearMonth): real
  {
    Sum(Map(FlatMap(FindPaymentsForGivenMonth(payments, yearMonth), Items), Discount))
  }

  /** The items of the payments of the user with exactly this email address,
      payment after payment in source order. */
  function GetPaymentsForUserWithEmail(payments: seq<Payment>, userEmail: string): (r: seq<PaymentItem>)
    ensures forall item :: item in r <==>
      exists p :: p in payments && p.user.email == userEmail && item in p.paymentItems
  {
    FlatMap(Filter(payments, WithEmail(userEmail)), Items)
  }

  /** The distinct payments whose value exceeds `value`. */
  function FindPaymentsWithValueOver(payments: seq<Payment>, value: Int32): (r: set<Payment>)
    ensures forall p :: p in r <==> p in payments && PaymentValue(p) > value as real
  {
    ToSet(Filter(payments, ValueOver(value)))
  }

  // ---------------------------------------------------------------------
  // Properties of the queries

  /** The month query keeps source order: it distributes over concatenation
      and keeps a single payment exactly when its year and month match. */
  lemma FindPaymentsForGivenMonthKeepsSourceOrder(a: seq<Payment>, b: seq<Payment>, yearMonth: YearMonth, p: Payment)
    ensures FindPaymentsForGivenMonth(a + b, yearMonth)
         == FindPaymentsForGivenMonth(a, yearMonth) + FindPaymentsForGivenMonth(b, yearMonth)
    ensures FindPaymentsForGivenMonth([p], yearMonth)
         == if YearMonthFrom(p.paymentDate) == yearMonth then [p] else []
  {
    FilterAppend(a, b, InMonth(yearMonth));
    FilterSingleton(p, InMonth(yearMonth));
  }

  /** The last-days query keeps source order. */
  lemma FindPaymentsForGivenLastDaysKeepsSourceOrder(a: seq<Payment>, b: seq<Payment>, now: Timestamp, days: Int32, p: Payment)
    ensures FindPaymentsForGivenLastDays(a + b, now, days)
         == FindPaymentsForGivenLastDays(a, now, days) + FindPaymentsForGivenLastDays(b, now, days)
    ensures FindPaymentsForGivenLastDays([p], now, days)
         == if p.paymentDate > MinusDays(now, days) then [p] else []
  {
    FilterAppend(a, b, AfterDaysBefore(now, days));
    FilterSingleton(p, AfterDaysBefore(now, days));
  }

  /** The window is open at its start: a payment dated exactly `days` days
      before `now` is left out, and with `days == 0` only payments dated
      after `now` remain. */
  lemma FindPaymentsForGivenLastDaysExcludesBoundary(payments: seq<Payment>, now: Timestamp, days: Int32, p: Payment)
    requires p in payments
    ensures p.paymentDate == MinusDays(now, days) ==> p !in FindPaymentsForGivenLastDays(payments, now, days)
    ensures p in FindPaymentsForGivenLastDays(payments, now, 0) <==> p.paymentDate > now
  {
  }

  /** A shorter window keeps exactly the payments of a longer window that are
      recent enough, in the same order. */
  lemma FindPaymentsForGivenLastDaysNarrows(payments: seq<Payment>, now: Timestamp, fewer: Int32, more: Int32)
    requires fewer <= more
    ensures FindPaymentsForGivenLastDays(payments, now, fewer)
         == Filter(FindPaymentsForGivenLastDays(payments, now, more), AfterDaysBefore(now, fewer))
  {
    forall p ensures AfterDaysBefore(now, fewer)(p) ==> AfterDaysBefore(now, more)(p) {
      MinusDaysMonotone(now, fewer, more);
    }
    FilterNarrows(payments, AfterDaysBefore(now, more), AfterDaysBefore(now, fewer));
  }

  /** Summing the items of some payments is summing the payments' values. */
  lemma {:induction false} SumOverItemsIsSumOfPaymentValues(ps: seq<Payment>)
    ensures Sum(Map(FlatMap(ps, Items), FinalPrice)) == Sum(Map(ps, PaymentValue))
  {
    if ps != [] {
      var first, rest := ps[0], ps[1..];
      assert ps == [first] + rest;
      FlatMapAppend([first], rest, Items);
      FlatMapSingleton(first, Items);
      MapAppend(Items(first), FlatMap(rest, Items), FinalPrice);
      SumAppend(Map(Items(first), FinalPrice), Map(FlatMap(rest, Items), FinalPrice));
      MapAppend([first], rest, PaymentValue);
      SumAppend(Map([first], PaymentValue), Map(rest, PaymentValue));
      assert Map([first], PaymentValue) == [PaymentValue(first)];
      SumSingleton(PaymentValue(first));
      SumOverItemsIsSumOfPaymentValues(rest);
    }
  }

  /** The month's total is the sum of the values of the month's payments. */
  lemma SumTotalForGivenMonthIsSumOfPaymentValues(payments: seq<Payment>, yearMonth: YearMonth)
    ensures SumTotalForGivenMonth(payments, yearMonth)
         == Sum(Map(FindPaymentsForGivenMonth(payments, yearMonth), PaymentValue))
  {
    SumOverItemsIsSumOfPaymentValues(FindPaymentsForGivenMonth(payments, yearMonth));
  }

  /** A month without payments totals exactly zero. */
  lemma SumTotalForMonthWithoutPaymentsIsZero(payments: seq<Payment>, yearMonth: YearMonth)
    requires forall p :: p in payments ==> YearMonthFrom(p.paymentDate) != yearMonth
    ensures SumTotalForGivenMonth(payments, yearMonth) == 0.0
    ensures SumDiscountForGivenMonth(payments, yearMonth) == 0.0
  {
  }

  /** The total of a month over two sources is the sum of their totals. */
  lemma SumTotalForGivenMonthAppend(a: seq<Payment>, b: seq<Payment>, yearMonth: YearMonth)
    ensures SumTotalForGivenMonth(a + b, yearMonth)
         == SumTotalForGivenMonth(a, yearMonth) + SumTotalForGivenMonth(b, yearMonth)
  {
    var ma, mb := FindPaymentsForGivenMonth(a, yearMonth), FindPaymentsForGivenMonth(b, yearMonth);
    FilterAppend(a, b, InMonth(yearMonth));
    FlatMapAppend(ma, mb, Items);
    MapAppend(FlatMap(ma, Items), FlatMap(mb, Items), FinalPrice);
    SumAppend(Map(FlatMap(ma, Items), FinalPrice), Map(FlatMap(mb, Items), FinalPrice));
  }

  /** With non-negative final prices, the month's total is non-negative. */
  lemma SumTotalForGivenMonthNonNegative(payments: seq<Payment>, yearMonth: YearMonth)
    requires forall p, item :: p in payments && item in p.paymentItems ==> item.finalPrice >= 0.0
    ensures SumTotalForGivenMonth(payments, yearMonth) >= 0.0
  {
    var items := FlatMap(FindPaymentsForGivenMonth(payments, yearMonth), Items);
    var prices := Map(items, FinalPrice);
    forall i | 0 <= i < |prices| ensures prices[i] >= 0.0 {
      assert items[i] in items;
    }
    SumNonNegative(prices);
  }

  /** The month's discount is its summed regular prices minus its total. */
  lemma SumDiscountForGivenMonthIsRegularMinusTotal(payments: seq<Payment>, yearMonth: YearMonth)
    ensures SumDiscountForGivenMonth(payments, yearMonth)
         == Sum(Map(FlatMap(FindPaymentsForGivenMonth(payments, yearMonth), Items), RegularPrice))
          - SumTotalForGivenMonth(payments, yearMonth)
  {
    SumOfDiscounts(FlatMap(FindPaymentsForGivenMonth(payments, yearMonth), Items));
  }

  /** When no item of the month is sold above its regular price, the month's
      discount is non-negative. */
  lemma SumDiscountForGivenMonthNonNegative(payments: seq<Payment>, yearMonth: YearMonth)
    requires forall p, item ::
      (p in payments && YearMonthFrom(p.paymentDate) == yearMonth && item in p.paymentItems
       ==> item.finalPrice <= item.regularPrice)
    ensures SumDiscountForGivenMonth(payments, yearMonth) >= 0.0
  {
    var items := FlatMap(FindPaymentsForGivenMonth(payments, yearMonth), Items);
    var discounts := Map(items, Discount);
    forall i | 0 <= i < |discounts| ensures discounts[i] >= 0.0 {
      assert items[i] in items;
    }
    SumNonNegative(discounts);
  }

  /** The user's items come payment after payment in source order, each
      payment's items in their own order. */
  lemma GetPaymentsForUserWithEmailKeepsSourceOrder(a: seq<Payment>, b: seq<Payment>, userEmail: string, p: Payment)
    ensures GetPaymentsForUserWithEmail(a + b, userEmail)
         == GetPaymentsForUserWithEmail(a, userEmail) + GetPaymentsForUserWithEmail(b, userEmail)
    ensures GetPaymentsForUserWithEmail([p], userEmail)
         == if p.user.email == userEmail then p.paymentItems else []
  {
    FilterAppend(a, b, WithEmail(userEmail));
    FlatMapAppend(Filter(a, WithEmail(userEmail)), Filter(b, WithEmail(userEmail)), Items);
    FilterSingleton(p, WithEmail(userEmail));
    FlatMapSingleton(p, Items);
    assert FlatMap([], Items) == [];
  }

  /** No payment of that email address: no items. */
  lemma GetPaymentsForUnknownEmailIsEmpty(payments: seq<Payment>, userEmail: string)
    requires forall p :: p in payments ==> p.user.email != userEmail
    ensures GetPaymentsForUserWithEmail(payments, userEmail) == []
  {
  }

  /** The threshold is strict: a payment worth exactly `value` is left out,
      one worth a cent more is included. */
  lemma FindPaymentsWithValueOverIsStrict(payments: seq<Payment>, value: Int32, p: Payment)
    requires p in payments
    ensures PaymentValue(p) == value as real ==> p !in FindPaymentsWithValueOver(payments, value)
    ensures PaymentValue(p) == value as real + 0.01 ==> p in FindPaymentsWithValueOver(payments, value)
  {
  }

  /** Raising the threshold can only remove payments. */
  lemma FindPaymentsWithValueOverAntitone(payments: seq<Payment>, lower: Int32, higher: Int32)
    requires lower <= higher
    ensures FindPaymentsWithValueOver(payments, higher) <= FindPaymentsWithValueOver(payments, lower)
  {
  }
}
