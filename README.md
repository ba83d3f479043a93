# PaymentService — a verified model of the payment query engine

`PaymentService` answers read-only queries over every payment in a payment
repository: payments sorted by date (latest first), payments of a given or
the current month, payments of the last N days, payments with exactly one
item, names of products sold this month, the month's total sales and total
discount, the items bought by the user with a given email address, and
payments whose value exceeds a threshold. Each query reads the full list of
payments and runs one stream pipeline over it.

The model is pure, as the source is:

- `streams.dfy` (module `Streams`): the stream steps the queries use.
  `Filter` stands for `filter` + `collect(toList())`, `Map` for `map`,
  `FlatMap` for `flatMap`, `Sum` for `reduce(0, add)` (a left fold) and
  `ToSet` for `collect(toSet())`.
- `calendar.dfy` (module `Calendar`): a timestamp counts nanoseconds since
  1970-01-01T00:00 local time in one fixed zone offset. `YearMonthFrom` is
  `YearMonth.from`; it goes through the proleptic Gregorian calendar
  (`CivilFromDays`). `MinusDays` is `minusDays` and `IsAfter` is `isAfter`.
- `payments.dfy` (module `Payments`): `User`, `PaymentItem` and `Payment`
  as immutable values with structural equality. Two equal payments are
  therefore one element of a set. Prices are exact `real`s, i.e. the
  numeric value of a `BigDecimal`.
- `date_sort.dfy` (module `DateSort`): a stable insertion sort, latest first.
  It is proved sorted, a permutation and order-preserving on ties. It is
  also proved to be the ONLY sequence with those properties, so any stable
  sort (the JDK's included) returns exactly this list.
- `payment_service.dfy` (module `PaymentService`): the ten queries and their
  properties. The repository's `findAll()` becomes the parameter `payments`.
  The clock's `zonedDateTimeNow()` becomes the parameter `now`.
- `scenarios.dfy` (module `Scenarios`): worked examples on concrete dates
  and prices.

`findPaymentsWithValueOver` (PaymentService.java:127-133) does not compile
as written. Its `filter` lambda returns the `int` from `compareTo` rather
than a boolean. The `filter(` opened on line 130 is never closed: line 132
closes only `valueOf(` and `compareTo(`. The pipeline also never collects
into the declared `Set<Payment>`. The model follows the method's comment ("exceeds") and its
return type: the distinct payments whose final-price total is strictly
greater than `value`.

A negative `days` is not rejected: the code validates nothing, so `days` is
any Java `int`, and a negative `days` reaches into the future.

## Model

| member | source | states |
|---|---|---|
| `PaymentService.FindPaymentsSortedByDateDesc` | src/main/java/pl/javastart/streamsexercise/PaymentService.java:26-31 | the result is sorted latest first, is a permutation of the payments (same multiset), and lists the payments of every date in source order (stable sort) |
| `DateSort.SortByDateDesc` | src/main/java/pl/javastart/streamsexercise/PaymentService.java:29 | the insertion sort returns a sequence sorted by date, latest first, with the same multiset of payments |
| `DateSort.Insert` | src/main/java/pl/javastart/streamsexercise/PaymentService.java:29 | inserting into a sorted sequence keeps it sorted and adds exactly that payment |
| `DateSort.FilterInsert` | src/main/java/pl/javastart/streamsexercise/PaymentService.java:29 | an inserted payment goes before every payment of its own date; the order among other payments of each date is unchanged |
| `DateSort.SortByDateDescIsStable` | src/main/java/pl/javastart/streamsexercise/PaymentService.java:29 | for every date, the sorted result lists that date's payments in source order |
| `DateSort.SortedWithSameDateOrderAreEqual` | src/main/java/pl/javastart/streamsexercise/PaymentService.java:29 | two sequences sorted latest first that agree on the order of each date's payments are equal |
| `DateSort.StableSortIsUnique` | src/main/java/pl/javastart/streamsexercise/PaymentService.java:26-31 | every sequence that is sorted latest first and stable with respect to the source equals the model's sort, so the result does not depend on the sorting algorithm |
| `Calendar.YearMonthFrom` | src/main/java/pl/javastart/streamsexercise/PaymentService.java:38 | the (year, month) of a timestamp's local date in the proleptic Gregorian calendar; the month is always between 1 and 12 |
| `Calendar.CivilFromDays` | src/main/java/pl/javastart/streamsexercise/PaymentService.java:49 | the calendar date of a day count; its month is between 1 and 12 and its day between 1 and 31 |
| `Calendar.DayOfYearRange` | src/main/java/pl/javastart/streamsexercise/PaymentService.java:49 | every day of a 400-year era lands on day 0 to 365 of its March-based year |
| `PaymentService.FindPaymentsForGivenMonth` | src/main/java/pl/javastart/streamsexercise/PaymentService.java:46-51 | a payment is in the result iff it is in the source and its (year, month) equals the given pair |
| `PaymentService.FindPaymentsForGivenMonthKeepsSourceOrder` | src/main/java/pl/javastart/streamsexercise/PaymentService.java:46-51 | the month query distributes over concatenation of sources and keeps one payment iff its year and month match; so the result is the source's subsequence in source order |
| `PaymentService.FindPaymentsForCurrentMonth` | src/main/java/pl/javastart/streamsexercise/PaymentService.java:37-40 | a payment is in the result iff it is in the source and its (year, month) is the clock's current (year, month) |
| `PaymentService.FindPaymentsForGivenLastDays` | src/main/java/pl/javastart/streamsexercise/PaymentService.java:57-62 | a payment is in the result iff it is in the source and dated strictly after `days` days before `now` |
| `PaymentService.FindPaymentsForGivenLastDaysKeepsSourceOrder` | src/main/java/pl/javastart/streamsexercise/PaymentService.java:57-62 | the last-days query distributes over concatenation and keeps one payment iff it is dated after the window start, so it keeps source order |
| `PaymentService.FindPaymentsForGivenLastDaysExcludesBoundary` | src/main/java/pl/javastart/streamsexercise/PaymentService.java:60 | a payment dated exactly at `now` minus `days` days is left out; with 0 days only payments after `now` remain |
| `PaymentService.FindPaymentsForGivenLastDaysNarrows` | src/main/java/pl/javastart/streamsexercise/PaymentService.java:57-62 | the result for fewer days is the result for more days filtered to the shorter window, in the same order |
| `Calendar.MinusDaysMonotone` | src/main/java/pl/javastart/streamsexercise/PaymentService.java:60 | going back more days gives an earlier or equal window start |
| `PaymentService.FindPaymentsWithOnePaymentItem` | src/main/java/pl/javastart/streamsexercise/PaymentService.java:68-74 | a payment is in the set iff it is in the source and has exactly one item (none and two or more are left out); the set has no more elements than the source |
| `PaymentService.FindProductsSoldInCurrentMonth` | src/main/java/pl/javastart/streamsexercise/PaymentService.java:80-85 | a name is in the set iff some item of some current-month payment has exactly that name |
| `PaymentService.SumTotalForGivenMonth` | src/main/java/pl/javastart/streamsexercise/PaymentService.java:91-97 | defined as the left fold from zero of the final prices of the month's payments' items, flattened in source order; its properties are the lemmas in the rows below |
| `Payments.PaymentValue` | src/main/java/pl/javastart/streamsexercise/PaymentService.java:130-131 | defined as the left fold from zero of one payment's final prices; `SumOverItemsIsSumOfPaymentValues` ties it to the month's total and `FindPaymentsWithValueOver` compares it with the threshold |
| `PaymentService.SumTotalForGivenMonthIsSumOfPaymentValues` | src/main/java/pl/javastart/streamsexercise/PaymentService.java:91-97 | the month's total equals the sum, over the month's payments, of each payment's own final-price total |
| `PaymentService.SumOverItemsIsSumOfPaymentValues` | src/main/java/pl/javastart/streamsexercise/PaymentService.java:94-96 | summing the final prices of the flattened items equals summing the payments' values |
| `PaymentService.SumTotalForMonthWithoutPaymentsIsZero` | src/main/java/pl/javastart/streamsexercise/PaymentService.java:91-109 | a month with no payments has total and discount exactly zero |
| `PaymentService.SumTotalForGivenMonthAppend` | src/main/java/pl/javastart/streamsexercise/PaymentService.java:91-97 | the month's total over two concatenated sources is the sum of their totals |
| `PaymentService.SumTotalForGivenMonthNonNegative` | src/main/java/pl/javastart/streamsexercise/PaymentService.java:91-97 | with non-negative final prices the month's total is non-negative |
| `PaymentService.SumDiscountForGivenMonth` | src/main/java/pl/javastart/streamsexercise/PaymentService.java:103-109 | defined as the left fold from zero of regular minus final price over the month's items; its properties are the lemmas in the rows below |
| `PaymentService.SumDiscountForGivenMonthIsRegularMinusTotal` | src/main/java/pl/javastart/streamsexercise/PaymentService.java:103-109 | the month's discount equals the month's summed regular prices minus the month's total |
| `PaymentService.SumDiscountForGivenMonthNonNegative` | src/main/java/pl/javastart/streamsexercise/PaymentService.java:103-109 | when no item of the month has a final price above its regular price, the month's discount is non-negative |
| `Payments.SumOfDiscounts` | src/main/java/pl/javastart/streamsexercise/PaymentService.java:107-108 | summing per-item discounts equals summed regular prices minus summed final prices |
| `PaymentService.GetPaymentsForUserWithEmail` | src/main/java/pl/javastart/streamsexercise/PaymentService.java:115-122 | an item is in the result iff it is an item of some payment whose user's email equals the given one exactly |
| `PaymentService.GetPaymentsForUserWithEmailKeepsSourceOrder` | src/main/java/pl/javastart/streamsexercise/PaymentService.java:115-122 | the result distributes over concatenation of sources, and one payment contributes all its items in order iff its email matches; so the result is the matching payments' item lists concatenated in source order |
| `PaymentService.GetPaymentsForUnknownEmailIsEmpty` | src/main/java/pl/javastart/streamsexercise/PaymentService.java:115-122 | when no payment has that email, the result is empty |
| `PaymentService.FindPaymentsWithValueOver` | src/main/java/pl/javastart/streamsexercise/PaymentService.java:124-133 | a payment is in the set iff it is in the source and its final-price total is strictly greater than `value` |
| `PaymentService.FindPaymentsWithValueOverIsStrict` | src/main/java/pl/javastart/streamsexercise/PaymentService.java:124-133 | a payment worth exactly `value` is left out; one worth one cent more is in |
| `PaymentService.FindPaymentsWithValueOverAntitone` | src/main/java/pl/javastart/streamsexercise/PaymentService.java:124-133 | raising the threshold only removes payments |
| `Scenarios.MarchPayments` | src/main/java/pl/javastart/streamsexercise/PaymentService.java:46-51 | payments of 2024-03-05 and 2024-03-20 are both March 2024 payments, kept in source order |
| `Scenarios.MarchTotal` | src/main/java/pl/javastart/streamsexercise/PaymentService.java:91-97 | payments worth 100.00 and 50.00 in March 2024 total 150.00 |
| `Scenarios.MarchDiscount` | src/main/java/pl/javastart/streamsexercise/PaymentService.java:103-109 | the same payments, 200.00 at regular prices, give 50.00 of discounts |
| `Scenarios.ThresholdIsStrict` | src/main/java/pl/javastart/streamsexercise/PaymentService.java:124-133 | over 100 gives no payment (the 100.00 payment is equal, not greater); over 99 gives just that payment |
| `Scenarios.LastTenDays` | src/main/java/pl/javastart/streamsexercise/PaymentService.java:57-62 | with the clock at 2024-03-25, a ten-day window keeps a payment of 2024-03-16 and leaves out one of 2024-03-14 |
| `Scenarios.MonthComparesYear` | src/main/java/pl/javastart/streamsexercise/PaymentService.java:49 | a March 2023 payment is not in March 2024 |
| `Scenarios.SortKeepsTiesInSourceOrder` | src/main/java/pl/javastart/streamsexercise/PaymentService.java:29 | the later payment goes first and two payments of one date keep their source order |
| `Scenarios.DiscountCanBeNegative` | src/main/java/pl/javastart/streamsexercise/PaymentService.java:107 | an item sold above its regular price makes the month's discount negative; nothing clamps it |

## Left out

- The payment repository and the clock are collaborators whose code is not
  part of this model. They become the parameters `payments` and `now`.
  Line 60 asks the clock again for every payment; the model assumes every
  call returns the same `now`.
- Time zones and daylight saving time are left out. All timestamps share one
  fixed offset, so `minusDays` always moves back whole 24-hour days.
  `ZonedDateTime.compareTo` breaks ties between equal instants by local time
  and zone; with a single zone that tie-break never applies.
- `minusDays` throws `DateTimeException` beyond year ±999,999,999. The model
  has unbounded timestamps and never throws.
- `BigDecimal` scale is left out: the model keeps only the numeric value.
  Scale-sensitive `equals` and the scale of a sum are not modelled.
  Ordering and `compareTo` depend only on the value, so they are modelled.
- Set results use Dafny sets, not `HashSet`. Membership is modelled;
  hashing and iteration order are not.
- The Java classes `Payment`, `PaymentItem` and `User` are not part of this
  model; their `equals` and `hashCode` are not visible. The model assumes
  field-by-field equality, as in the datatypes of `payments.dfy`. With
  identity equality instead, two separately built but equal payments would be
  two elements of a `toSet()` result, while here they are one. `User` keeps
  only the email address the queries read. So two payments whose users differ
  only in other fields are one element of `FindPaymentsWithOnePaymentItem`
  and of `FindPaymentsWithValueOver` here.
- Null values (a null repository list, user, email or item list) and the
  `NullPointerException`s they would raise are not modelled.
- The unused import of `DoubleStream` (line 10) has no counterpart.
- The sort's `compareTo` sequence and the fold order of `reduce` are not
  modelled step by step. The uniqueness lemma shows that every stable sort
  gives the same result. Exact addition is associative, so the fold order
  does not change the sum.
