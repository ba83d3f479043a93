/** Ordering payments by date, latest first, as
    `sorted(Comparator.comparing(Payment::getPaymentDate).reversed())` does:
    a stable sort, so payments with equal dates keep their source order. The
    algorithm here is an insertion sort; `StableSortIsUnique` shows that every
    stable sort by this order yields the same sequence. */
module DateSort {
  import opened Calendar
  import opened Streams
  import opened Payments

  /** Dates never increase along `s`. */
  predicate SortedByDateDesc(s: seq<Payment>)
  {
    forall i, j :: 0 <= i < j < |s| ==> s[i].paymentDate >= s[j].paymentDate
  }

  /** The payments dated exactly `t`. */
  function OnDate(t: Timestamp): Payment -> bool
  {
    (p: Payment) => p.paymentDate == t
  }

  /** `r` lists, for every date, the payments of `s` of that date in the order `s` has them. */
  ghost predicate KeepsOrderOfEqualDates(r: seq<Payment>, s: seq<Payment>)
  {
    forall t :: Filter(r, OnDate(t)) == Filter(s, OnDate(t))
  }

  /** Inserts `p` in front of the first payment that is not later than it,
      so `p` precedes every payment of `s` that has its date. */
  function Insert(p: Payment, s: seq<Payment>): (r: seq<Payment>)
    requires SortedByDateDesc(s)
    ensures SortedByDateDesc(r)
    ensures multiset(r) == multiset(s) + multiset{p}
  {
    if s == [] || s[0].paymentDate <= p.paymentDate then
      [p] + s
    else
      var rest := Insert(p, s[1..]);
      InsertBehindFirst(p, s, rest);
      [s[0]] + rest
  }

  /** When `p` is strictly earlier than the first payment of `s`, that payment
      may stay in front of the insertion of `p` into the rest of `s`. */
  lemma InsertBehindFirst(p: Payment, s: seq<Payment>, rest: seq<Payment>)
    requires SortedByDateDesc(s) && s != [] && p.paymentDate < s[0].paymentDate
    requires SortedByDateDesc(rest) && multiset(rest) == multiset(s[1..]) + multiset{p}
    ensures SortedByDateDesc([s[0]] + rest)
    ensures multiset([s[0]] + rest) == multiset(s) + multiset{p}
  {
    forall j | 0 <= j < |rest| ensures rest[j].paymentDate <= s[0].paymentDate {
      assert rest[j] in multiset(rest);
      if rest[j] != p {
        assert rest[j] in multiset(s[1..]);
        var i :| 0 <= i < |s[1..]| && s[1..][i] == rest[j];
        assert s[i + 1] == rest[j];
      }
    }
    assert s == [s[0]] + s[1..];
  }

  /** Inserting `p` places it before every payment of its own date and
      changes nothing else in the order of equal dates. */
  lemma {:induction false} FilterInsert(p: Payment, s: seq<Payment>, t: Timestamp)
    requires SortedByDateDesc(s)
    ensures Filter(Insert(p, s), OnDate(t)) == Filter([p], OnDate(t)) + Filter(s, OnDate(t))
  {
    var f := OnDate(t);
    FilterSingleton(p, f);
    if s == [] || s[0].paymentDate <= p.paymentDate {
      FilterAppend([p], s, f);
    } else {
      var first, rest := s[0], s[1..];
      var inserted := Insert(p, rest);
      assert Insert(p, s) == [first] + inserted;
      assert s == [first] + rest;
      FilterAppend([first], inserted, f);
      FilterAppend([first], rest, f);
      FilterInsert(p, rest, t);
      FilterSingleton(first, f);
      // `first` is strictly later than `p`, so at most one of them has date `t`
      if p.paymentDate == t {
        assert Filter([first], f) == [];
      } else {
        assert Filter([p], f) == [];
      }
    }
  }

  /** Stable insertion sort on date, latest first. */
  function SortByDateDesc(s: seq<Payment>): (r: seq<Payment>)
    ensures SortedByDateDesc(r)
    ensures multiset(r) == multiset(s)
  {
    if s == [] then []
    else
      assert s == [s[0]] + s[1..];
      Insert(s[0], SortByDateDesc(s[1..]))
  }

  /** The sort is stable: payments with equal dates keep their source order. */
  lemma {:induction false} SortByDateDescIsStable(s: seq<Payment>)
    ensures KeepsOrderOfEqualDates(SortByDateDesc(s), s)
  {
    if s != [] {
      SortByDateDescIsStable(s[1..]);
      forall t ensures Filter(SortByDateDesc(s), OnDate(t)) == Filter(s, OnDate(t)) {
        FilterInsert(s[0], SortByDateDesc(s[1..]), t);
        FilterAppend([s[0]], s[1..], OnDate(t));
        assert [s[0]] + s[1..] == s;
      }
    }
  }

  /** In a sequence sorted latest first, no payment is later than the first. */
  lemma FirstIsLatest(s: seq<Payment>, x: Payment)
    requires SortedByDateDesc(s) && x in s
    ensures x.paymentDate <= s[0].paymentDate
  {
  }

  /** Two sequences sorted latest first that list the payments of every date
      in the same order are equal. */
  lemma {:induction false} SortedWithSameDateOrderAreEqual(r1: seq<Payment>, r2: seq<Payment>)
    requires SortedByDateDesc(r1) && SortedByDateDesc(r2)
    requires forall t :: Filter(r1, OnDate(t)) == Filter(r2, OnDate(t))
    ensures r1 == r2
    decreases |r1|
  {
    if r1 != [] {
      assert r1[0] in Filter(r2, OnDate(r1[0].paymentDate)) by {
        assert r1[0] in Filter(r1, OnDate(r1[0].paymentDate));
      }
    }
    if r2 != [] {
      assert r2[0] in Filter(r1, OnDate(r2[0].paymentDate)) by {
        assert r2[0] in Filter(r2, OnDate(r2[0].paymentDate));
      }
    }
    if r1 != [] {
      SameLatestDate(r1, r2);
      forall t ensures Filter(r1[1..], OnDate(t)) == Filter(r2[1..], OnDate(t)) {
        DropFirst(r1, r2, t);
      }
      DropFirst(r1, r2, r1[0].paymentDate);
      SortedWithSameDateOrderAreEqual(r1[1..], r2[1..]);
      assert r1 == [r1[0]] + r1[1..] && r2 == [r2[0]] + r2[1..];
    }
  }

  /** Under the hypotheses above, both sequences start with the same date. */
  lemma SameLatestDate(r1: seq<Payment>, r2: seq<Payment>)
    requires SortedByDateDesc(r1) && SortedByDateDesc(r2) && r1 != [] && r2 != []
    requires forall t :: Filter(r1, OnDate(t)) == Filter(r2, OnDate(t))
    ensures r1[0].paymentDate == r2[0].paymentDate
  {
    var t1, t2 := r1[0].paymentDate, r2[0].paymentDate;
    assert r1[0] in Filter(r2, OnDate(t1)) by {
      assert r1[0] in Filter(r1, OnDate(t1));
    }
    FirstIsLatest(r2, r1[0]);
    assert r2[0] in Filter(r1, OnDate(t2)) by {
      assert r2[0] in Filter(r2, OnDate(t2));
    }
    FirstIsLatest(r1, r2[0]);
  }

  /** Removing the first payments of two sequences that start with the same
      date leaves sequences that still agree on date `t`. */
  lemma DropFirst(r1: seq<Payment>, r2: seq<Payment>, t: Timestamp)
    requires r1 != [] && r2 != [] && r1[0].paymentDate == r2[0].paymentDate
    requires Filter(r1, OnDate(t)) == Filter(r2, OnDate(t))
    ensures Filter(r1[1..], OnDate(t)) == Filter(r2[1..], OnDate(t))
    ensures t == r1[0].paymentDate ==> r1[0] == r2[0]
  {
    var f := OnDate(t);
    if t == r1[0].paymentDate {
      assert Filter(r1, f)[1..] == Filter(r1[1..], f);
      assert Filter(r2, f)[1..] == Filter(r2[1..], f);
    }
  }

  /** Any ordering of `s` that is sorted latest first and stable is the one
      the insertion sort produces. */
  lemma StableSortIsUnique(s: seq<Payment>, r: seq<Payment>)
    requires SortedByDateDesc(r) && KeepsOrderOfEqualDates(r, s)
    ensures r == SortByDateDesc(s)
  {
    SortByDateDescIsStable(s);
    SortedWithSameDateOrderAreEqual(r, SortByDateDesc(s));
  }
}
