/** Worked examples on concrete payments: the month totals and the strict
    threshold, the open start of the last-days window, the full (year, month)
    comparison, a stable sort with a tie, and a discount that goes negative. */
module Scenarios {
  import opened Calendar
  import opened Streams
  import opened Payments
  import opened DateSort
  import opened PaymentService

  /** A time of day given in hours, minutes and seconds selects the calendar
      day it is on, so the timestamp lies in the date's year and month. */
  lemma YearMonthOfAt(date: Date, hour: int, minute: int, second: int, epochDay: int)
    requires DaysFromCivil(date) == epochDay && CivilFromDays(epochDay) == date
    requires 0 <= hour < 24 && 0 <= minute < 60 && 0 <= second < 60
    ensures YearMonthFrom(At(date, hour, minute, second)) == YearMonth(date.year, date.month)
  {
    var ofDay := ((hour * 60 + minute) * 60 + second) * 1_000_000_000;
    assert 0 <= ofDay < NanosPerDay;
    assert At(date, hour, minute, second) / NanosPerDay == epochDay by {
      DayOfTimestamp(epochDay, ofDay);
    }
  }

  /** A timestamp `ofDay` nanoseconds into day `epochDay` lies on that day. */
  lemma DayOfTimestamp(epochDay: int, ofDay: int)
    requires 0 <= ofDay < NanosPerDay
    ensures (epochDay * NanosPerDay + ofDay) / NanosPerDay == epochDay
  {
  }

  const Alice := User("alice@example.com")
  const Bob := User("bob@example.com")

  /** Worth 100.00: 80.00 (discounted from 120.00) plus 20.00. */
  const P1 := Payment(At(Date(2024, 3, 5), 10, 0, 0), Alice,
    [PaymentItem("keyboard", 120.0, 80.0), PaymentItem("mouse", 20.0, 20.0)])

  /** Worth 50.00 (discounted from 60.00). */
  const P2 := Payment(At(Date(2024, 3, 20), 15, 30, 0), Bob,
    [PaymentItem("cable", 60.0, 50.0)])

  /** Day `day` of March 2024 is day 19782 + `day` counted from 1970-01-01. */
  lemma DaysFromCivilMarch2024(day: int)
    ensures DaysFromCivil(Date(2024, 3, day)) == 19782 + day
  {
    assert 2024 / 400 == 5;
  }

  lemma CivilFromDays20240305()
    ensures CivilFromDays(19787) == Date(2024, 3, 5)
  {
    assert (19787 + 719468) / 146097 == 5 && (19787 + 719468) % 146097 == 8770;
    assert YearOfEra(8770) == 24;
    assert 8770 - (365 * 24 + 24 / 4 - 24 / 100) == 4;
  }

  lemma CivilFromDays20240320()
    ensures CivilFromDays(19802) == Date(2024, 3, 20)
  {
    assert (19802 + 719468) / 146097 == 5 && (19802 + 719468) % 146097 == 8785;
    assert YearOfEra(8785) == 24;
    assert 8785 - (365 * 24 + 24 / 4 - 24 / 100) == 19;
  }

  lemma DaysFromCivil20230305()
    ensures DaysFromCivil(Date(2023, 3, 5)) == 19421
  {
  }

  lemma CivilFromDays20230305()
    ensures CivilFromDays(19421) == Date(2023, 3, 5)
  {
    assert (19421 + 719468) / 146097 == 5 && (19421 + 719468) % 146097 == 8404;
    assert YearOfEra(8404) == 23;
    assert 8404 - (365 * 23 + 23 / 4 - 23 / 100) == 4;
  }

  lemma MarchDates()
    ensures YearMonthFrom(P1.paymentDate) == YearMonth(2024, 3)
    ensures YearMonthFrom(P2.paymentDate) == YearMonth(2024, 3)
  {
    DaysFromCivilMarch2024(5);
    CivilFromDays20240305();
    YearMonthOfAt(Date(2024, 3, 5), 10, 0, 0, 19787);
    DaysFromCivilMarch2024(20);
    CivilFromDays20240320();
    YearMonthOfAt(Date(2024, 3, 20), 15, 30, 0, 19802);
  }

  lemma PaymentValues()
    ensures PaymentValue(P1) == 100.0 && PaymentValue(P2) == 50.0
  {
    SumAppend([80.0], [20.0]);
    assert [80.0] + [20.0] == [80.0, 20.0];
    SumSingleton(80.0);
    SumSingleton(20.0);
    SumSingleton(50.0);
  }

  /** Both payments are March 2024 payments. */
  lemma MarchPayments()
    ensures FindPaymentsForGivenMonth([P1, P2], YearMonth(2024, 3)) == [P1, P2]
  {
    var march := YearMonth(2024, 3);
    assert FindPaymentsForGivenMonth([P1], march) == [P1] && FindPaymentsForGivenMonth([P2], march) == [P2] by {
      MarchDates();
      FindPaymentsForGivenMonthKeepsSourceOrder([], [], march, P1);
      FindPaymentsForGivenMonthKeepsSourceOrder([], [], march, P2);
    }
    FindPaymentsForGivenMonthKeepsSourceOrder([P1], [P2], march, P1);
    assert [P1] + [P2] == [P1, P2];
  }

  /** March 2024 totals 150.00. */
  lemma MarchTotal()
    ensures SumTotalForGivenMonth([P1, P2], YearMonth(2024, 3)) == 150.0
  {
    assert SumTotalForGivenMonth([P1, P2], YearMonth(2024, 3)) == Sum(Map([P1, P2], PaymentValue)) by {
      MarchPayments();
      SumTotalForGivenMonthIsSumOfPaymentValues([P1, P2], YearMonth(2024, 3));
    }
    PaymentValues();
    assert Map([P1, P2], PaymentValue) == [100.0, 50.0];
    SumAppend([100.0], [50.0]);
    assert [100.0] + [50.0] == [100.0, 50.0];
    SumSingleton(100.0);
    SumSingleton(50.0);
  }

  /** March 2024 grants 50.00 of discounts: 200.00 at regular prices minus 150.00 charged. */
  lemma MarchDiscount()
    ensures SumDiscountForGivenMonth([P1, P2], YearMonth(2024, 3)) == 50.0
  {
    var items := P1.paymentItems + P2.paymentItems;
    assert SumDiscountForGivenMonth([P1, P2], YearMonth(2024, 3)) == Sum(Map(items, RegularPrice)) - 150.0 by {
      MarchPayments();
      MarchTotal();
      SumDiscountForGivenMonthIsRegularMinusTotal([P1, P2], YearMonth(2024, 3));
      FlatMapAppend([P1], [P2], Items);
      FlatMapSingleton(P1, Items);
      FlatMapSingleton(P2, Items);
    }
    assert Map(items, RegularPrice) == [120.0, 20.0] + [60.0];
    SumAppend([120.0, 20.0], [60.0]);
    SumAppend([120.0], [20.0]);
    assert [120.0] + [20.0] == [120.0, 20.0];
    SumSingleton(120.0);
    SumSingleton(20.0);
    SumSingleton(60.0);
  }

  /** A payment worth exactly the threshold is left out; 99 lets P1 in. */
  lemma ThresholdIsStrict()
    ensures FindPaymentsWithValueOver([P1, P2], 100) == {}
    ensures FindPaymentsWithValueOver([P1, P2], 99) == {P1}
  {
    PaymentValues();
    assert forall p :: p in FindPaymentsWithValueOver([P1, P2], 99) <==> p == P1;
  }

  /** With the clock at 2024-03-25 noon, a ten-day window keeps a payment
      from 2024-03-16 and leaves out one from 2024-03-14. */
  lemma LastTenDays()
    ensures var now := At(Date(2024, 3, 25), 12, 0, 0);
      var recent := Payment(At(Date(2024, 3, 16), 12, 0, 0), Alice, []);
      var stale := Payment(At(Date(2024, 3, 14), 12, 0, 0), Alice, []);
      FindPaymentsForGivenLastDays([recent, stale], now, 10) == [recent]
  {
    var now := At(Date(2024, 3, 25), 12, 0, 0);
    var recent := Payment(At(Date(2024, 3, 16), 12, 0, 0), Alice, []);
    var stale := Payment(At(Date(2024, 3, 14), 12, 0, 0), Alice, []);
    TenDaysBack();
    FindPaymentsForGivenLastDaysKeepsSourceOrder([recent], [stale], now, 10, recent);
    FindPaymentsForGivenLastDaysKeepsSourceOrder([stale], [], now, 10, stale);
    assert [recent] + [stale] == [recent, stale];
  }

  /** Ten days before 2024-03-25 noon is 2024-03-15 noon: 2024-03-16 is
      after it and 2024-03-14 is not. */
  lemma TenDaysBack()
    ensures var start := MinusDays(At(Date(2024, 3, 25), 12, 0, 0), 10);
      IsAfter(At(Date(2024, 3, 16), 12, 0, 0), start) && !IsAfter(At(Date(2024, 3, 14), 12, 0, 0), start)
  {
    DaysFromCivilMarch2024(25);
    DaysFromCivilMarch2024(16);
    DaysFromCivilMarch2024(14);
  }

  /** 2023-03-05 lies in March 2023. */
  lemma MarchLastYearDate()
    ensures YearMonthFrom(At(Date(2023, 3, 5), 10, 0, 0)) == YearMonth(2023, 3)
  {
    DaysFromCivil20230305();
    CivilFromDays20230305();
    YearMonthOfAt(Date(2023, 3, 5), 10, 0, 0, 19421);
  }

  /** March 2023 is not March 2024: the whole (year, month) pair is compared. */
  lemma MonthComparesYear()
    ensures var lastYear := Payment(At(Date(2023, 3, 5), 10, 0, 0), Alice, []);
      FindPaymentsForGivenMonth([lastYear, P1], YearMonth(2024, 3)) == [P1]
  {
    var lastYear := Payment(At(Date(2023, 3, 5), 10, 0, 0), Alice, []);
    var march := YearMonth(2024, 3);
    assert FindPaymentsForGivenMonth([lastYear], march) == [] by {
      MarchLastYearDate();
      FindPaymentsForGivenMonthKeepsSourceOrder([], [], march, lastYear);
    }
    assert FindPaymentsForGivenMonth([P1], march) == [P1] by {
      MarchDates();
      FindPaymentsForGivenMonthKeepsSourceOrder([], [], march, P1);
    }
    FindPaymentsForGivenMonthKeepsSourceOrder([lastYear], [P1], march, P1);
    assert [lastYear] + [P1] == [lastYear, P1];
  }

  /** Latest first; two payments with the same date keep their source order. */
  lemma SortKeepsTiesInSourceOrder()
    ensures var early1 := Payment(0, Alice, []);
      var late := Payment(1, Bob, []);
      var early2 := Payment(0, Bob, []);
      FindPaymentsSortedByDateDesc([early1, late, early2]) == [late, early1, early2]
  {
    var early1 := Payment(0, Alice, []);
    var late := Payment(1, Bob, []);
    var early2 := Payment(0, Bob, []);
    var s, r := [early1, late, early2], [late, early1, early2];
    forall t ensures Filter(r, OnDate(t)) == Filter(s, OnDate(t)) {
      var f := OnDate(t);
      assert r == [late] + [early1, early2] && s == [early1] + ([late] + [early2]);
      FilterAppend([late], [early1, early2], f);
      FilterAppend([early1], [early2], f);
      FilterAppend([early1], [late] + [early2], f);
      FilterAppend([late], [early2], f);
      assert [early1] + [early2] == [early1, early2];
      FilterSingleton(late, f);
      FilterSingleton(early1, f);
      FilterSingleton(early2, f);
    }
    StableSortIsUnique(s, r);
  }

  /** An item sold above its regular price makes the discount negative; the
      sum is not clamped at zero. */
  lemma DiscountCanBeNegative()
    ensures var overpriced := Payment(P1.paymentDate, Alice, [PaymentItem("mouse", 10.0, 12.0)]);
      SumDiscountForGivenMonth([overpriced], YearMonth(2024, 3)) == -2.0
  {
    var overpriced := Payment(P1.paymentDate, Alice, [PaymentItem("mouse", 10.0, 12.0)]);
    assert FindPaymentsForGivenMonth([overpriced], YearMonth(2024, 3)) == [overpriced] by {
      MarchDates();
      FindPaymentsForGivenMonthKeepsSourceOrder([], [], YearMonth(2024, 3), overpriced);
    }
    FlatMapSingleton(overpriced, Items);
    SumSingleton(-2.0);
  }
}
