/**
 * What `get_hh_salary_statistics` and `get_sj_salary_statistics` share: the
 * listing record, the currency filter with its running sum and counter, the
 * truncated mean and the statistics record they return.
 */
module Collector {
  import opened Wrappers
  import opened Salary

  /**
   * One listing of a search result: its two salary bounds and its currency
   * (`salary.from`, `salary.to`, `salary.currency` on HeadHunter,
   * `payment_from`, `payment_to`, `currency` on SuperJob).
   */
  datatype Listing = Listing(paymentFrom: Bound, paymentTo: Bound, currency: string)

  /** A request that `raise_for_status` rejects, with its HTTP status. */
  datatype HttpError = HttpError(status: int)

  /** The loop accumulators: the sum of estimates and `vacancies_processed`. */
  datatype Tally = Tally(sum: real, processed: nat)

  /** The dictionary both collectors return. */
  datatype Stats = Stats(found: int, processed: nat, average: int)

  const EMPTY: Tally := Tally(0.0, 0)

  function Estimate(listing: Listing): real {
    PredictRubSalary(listing.paymentFrom, listing.paymentTo)
  }

  /** One turn of the inner `for vacancy in ...` loop. */
  function Step(tally: Tally, listing: Listing, currency: string): Tally {
    if listing.currency == currency
    then Tally(tally.sum + Estimate(listing), tally.processed + 1)
    else tally
  }

  /** The accumulators after the inner loop has run over `listings`, in order. */
  function Fold(tally: Tally, listings: seq<Listing>, currency: string): Tally
    decreases |listings|
  {
    if listings == [] then tally
    else Step(Fold(tally, listings[..|listings| - 1], currency), listings[|listings| - 1], currency)
  }

  /** The listings priced in `currency`, in their original order. */
  function Matching(listings: seq<Listing>, currency: string): (matching: seq<Listing>)
    ensures |matching| <= |listings|
  {
    if listings == [] then []
    else (if listings[0].currency == currency then [listings[0]] else [])
         + Matching(listings[1..], currency)
  }

  /** A listing is kept exactly when it is priced in `currency`. */
  lemma {:induction false} MatchingMembers(listings: seq<Listing>, currency: string)
    ensures forall l :: l in Matching(listings, currency) <==> l in listings && l.currency == currency
    decreases |listings|
  {
    if listings != [] {
      MatchingMembers(listings[1..], currency);
      assert listings == [listings[0]] + listings[1..];
    }
  }

  /** The sum of the estimates of `listings`. */
  function SumEstimates(listings: seq<Listing>): real {
    if listings == [] then 0.0 else Estimate(listings[0]) + SumEstimates(listings[1..])
  }

  /** Python's `int()` on a number: truncation toward zero. */
  function Truncate(x: real): (r: int)
    ensures x >= 0.0 ==> 0 <= r && r as real <= x < r as real + 1.0
    ensures x < 0.0 ==> r <= 0 && x <= r as real < x + 1.0
  {
    if x >= 0.0 then x.Floor else -((-x).Floor)
  }

  /** The guarded final mean: `int(average_salary/vacancies_processed)`, or 0. */
  function Mean(tally: Tally): int {
    if tally.processed == 0 then 0 else Truncate(tally.sum / tally.processed as real)
  }

  /** The statistics of a finished run over `listings`. */
  function Summarise(found: int, listings: seq<Listing>, currency: string): Stats {
    var tally := Fold(EMPTY, listings, currency);
    Stats(found, tally.processed, Mean(tally))
  }

  /** The listings of all pages, page after page. */
  function Concat(pages: seq<seq<Listing>>): seq<Listing>
    decreases |pages|
  {
    if pages == [] then [] else Concat(pages[..|pages| - 1]) + pages[|pages| - 1]
  }

  /** The number of listings of each page priced in `currency`, added up. */
  function CountPerPage(pages: seq<seq<Listing>>, currency: string): nat
    decreases |pages|
  {
    if pages == [] then 0
    else CountPerPage(pages[..|pages| - 1], currency) + |Matching(pages[|pages| - 1], currency)|
  }

  /** The pages received so far, put in front of what the rest of a run yields. */
  function Prepend<P>(pages: seq<P>, r: Result<seq<P>, HttpError>): Result<seq<P>, HttpError> {
    match r
    case Ok(rest) => Ok(pages + rest)
    case Err(e) => Err(e)
  }

  lemma PrependNothing<P>(r: Result<seq<P>, HttpError>)
    ensures Prepend([], r) == r
  {
    if r.Ok? {
      assert [] + r.value == r.value;
    }
  }

  lemma PrependTwice<P>(a: seq<P>, b: seq<P>, r: Result<seq<P>, HttpError>)
    ensures Prepend(a + b, r) == Prepend(a, Prepend(b, r))
  {
    if r.Ok? {
      assert a + b + r.value == a + (b + r.value);
    }
  }

  /** The inner loop over the listings of one page. */
  method TallyPage(listings: seq<Listing>, currency: string, tally: Tally) returns (next: Tally)
    ensures next == Fold(tally, listings, currency)
  {
    next := tally;
    for k := 0 to |listings|
      invariant next == Fold(tally, listings[..k], currency)
    {
      assert listings[..k + 1][..k] == listings[..k];
      var listing := listings[k];
      if listing.currency == currency {
        next := Tally(next.sum + PredictRubSalary(listing.paymentFrom, listing.paymentTo),
                      next.processed + 1);
      }
    }
    assert listings[..|listings|] == listings;
  }

  lemma {:induction false} MatchingConcat(a: seq<Listing>, b: seq<Listing>, currency: string)
    ensures Matching(a + b, currency) == Matching(a, currency) + Matching(b, currency)
    decreases |a|
  {
    if a != [] {
      assert (a + b)[1..] == a[1..] + b;
      MatchingConcat(a[1..], b, currency);
    } else {
      assert a + b == b;
    }
  }

  lemma {:induction false} SumConcat(a: seq<Listing>, b: seq<Listing>)
    ensures SumEstimates(a + b) == SumEstimates(a) + SumEstimates(b)
    decreases |a|
  {
    if a != [] {
      assert (a + b)[1..] == a[1..] + b;
      SumConcat(a[1..], b);
    } else {
      assert a + b == b;
    }
  }

  /**
   * Running the inner loop over two stretches of listings one after the
   * other is running it over both: this is how the outer loop carries the
   * accumulators from one page to the next.
   */
  lemma {:induction false} FoldConcat(tally: Tally, a: seq<Listing>, b: seq<Listing>, currency: string)
    ensures Fold(tally, a + b, currency) == Fold(Fold(tally, a, currency), b, currency)
    decreases |b|
  {
    if b == [] {
      assert a + b == a;
    } else {
      var front := b[..|b| - 1];
      assert (a + b)[..|a + b| - 1] == a + front;
      assert (a + b)[|a + b| - 1] == b[|b| - 1];
      FoldConcat(tally, a, front, currency);
    }
  }

  /**
   * The accumulators count exactly the listings priced in `currency` and
   * add up exactly their estimates; no other listing touches them.
   */
  lemma {:induction false} FoldCountsMatching(tally: Tally, listings: seq<Listing>, currency: string)
    ensures Fold(tally, listings, currency)
            == Tally(tally.sum + SumEstimates(Matching(listings, currency)),
                     tally.processed + |Matching(listings, currency)|)
    decreases |listings|
  {
    if listings != [] {
      var front, last := listings[..|listings| - 1], listings[|listings| - 1];
      assert listings == front + [last];
      FoldCountsMatching(tally, front, currency);
      MatchingConcat(front, [last], currency);
      assert Matching([last], currency) == if last.currency == currency then [last] else [];
      SumConcat(Matching(front, currency), Matching([last], currency));
    }
  }

  /** A listing in another currency leaves both the sum and the count as they were. */
  lemma OtherCurrencyIgnored(tally: Tally, before: seq<Listing>, listing: Listing,
                             after: seq<Listing>, currency: string)
    requires listing.currency != currency
    ensures Fold(tally, before + [listing] + after, currency) == Fold(tally, before + after, currency)
  {
    FoldConcat(tally, before + [listing], after, currency);
    FoldConcat(tally, before, after, currency);
    assert (before + [listing])[..|before|] == before;
  }

  /** A listing in the right currency without any bound still counts, and adds 0. */
  lemma BoundlessListingCounted(tally: Tally, before: seq<Listing>, listing: Listing, currency: string)
    requires listing.currency == currency
    requires !Truthy(listing.paymentFrom) && !Truthy(listing.paymentTo)
    ensures Fold(tally, before + [listing], currency).processed
            == Fold(tally, before, currency).processed + 1
    ensures Fold(tally, before + [listing], currency).sum == Fold(tally, before, currency).sum
  {
    assert (before + [listing])[..|before|] == before;
  }

  /**
   * What `Summarise` returns, stated over the listings in `currency`:
   * their number, and the truncated mean of their estimates, or 0 if there
   * are none.
   */
  lemma SummariseMeaning(found: int, listings: seq<Listing>, currency: string)
    ensures var matching := Matching(listings, currency);
            Summarise(found, listings, currency)
            == Stats(found, |matching|,
                     if |matching| == 0 then 0
                     else Truncate(SumEstimates(matching) / |matching| as real))
  {
    FoldCountsMatching(EMPTY, listings, currency);
  }

  /** `count` copies of `amount` added up, that is, `count * amount`. */
  function Times(count: nat, amount: real): real {
    if count == 0 then 0.0 else Times(count - 1, amount) + amount
  }

  lemma {:induction false} TimesIsProduct(count: nat, amount: real)
    ensures Times(count, amount) == count as real * amount
  {
    if count > 0 {
      TimesIsProduct(count - 1, amount);
      assert count as real * amount == (count - 1) as real * amount + amount;
    }
  }

  lemma {:induction false} SumWithin(listings: seq<Listing>, ceiling: real)
    requires forall l :: l in listings ==> NonNegative(l.paymentFrom) && NonNegative(l.paymentTo)
    requires forall l :: l in listings ==> Estimate(l) <= ceiling
    ensures 0.0 <= SumEstimates(listings) <= Times(|listings|, ceiling)
    decreases |listings|
  {
    if listings != [] {
      var first, rest := listings[0], listings[1..];
      assert first in listings;
      EstimateNonNegative(first.paymentFrom, first.paymentTo);
      assert forall l :: l in rest ==> l in listings;
      SumWithin(rest, ceiling);
    }
  }

  lemma QuotientWithin(s: real, n: nat, c: real)
    requires n > 0 && 0.0 <= s <= Times(n, c)
    ensures 0.0 <= s / n as real <= c
  {
    TimesIsProduct(n, c);
    var q := s / n as real;
    assert q * n as real == s;
    if q > c {
      assert q * n as real > c * n as real;
    }
  }

  /**
   * With non-negative bounds the reported mean is not negative, and it is
   * at most any ceiling on the estimates of the counted listings (the
   * largest of those estimates in particular).
   */
  lemma MeanWithin(found: int, listings: seq<Listing>, currency: string, ceiling: real)
    requires forall l :: l in listings ==> NonNegative(l.paymentFrom) && NonNegative(l.paymentTo)
    requires forall l :: l in Matching(listings, currency) ==> Estimate(l) <= ceiling
    ensures 0 <= Summarise(found, listings, currency).average
    ensures Summarise(found, listings, currency).processed > 0 ==>
              Summarise(found, listings, currency).average as real <= ceiling
  {
    var matching := Matching(listings, currency);
    SummariseMeaning(found, listings, currency);
    MatchingMembers(listings, currency);
    SumWithin(matching, ceiling);
    if |matching| > 0 {
      QuotientWithin(SumEstimates(matching), |matching|, ceiling);
    }
  }

  /**
   * The listings counted across all pages are the listings counted on each
   * page, added up: no page boundary loses or repeats one.
   */
  lemma {:induction false} CountAcrossPages(pages: seq<seq<Listing>>, currency: string)
    ensures |Matching(Concat(pages), currency)| == CountPerPage(pages, currency)
    decreases |pages|
  {
    if pages != [] {
      CountAcrossPages(pages[..|pages| - 1], currency);
      MatchingConcat(Concat(pages[..|pages| - 1]), pages[|pages| - 1], currency);
    }
  }

  /** The example run of three rouble listings: estimates 150, 180 and 240, mean 190. */
  lemma ThreeListingExample()
    ensures Summarise(3, [Listing(Some(100), Some(200), "RUR"),
                          Listing(Some(150), None, "RUR"),
                          Listing(None, Some(300), "RUR")], "RUR")
            == Stats(3, 3, 190)
  {
    var listings := [Listing(Some(100), Some(200), "RUR"),
                     Listing(Some(150), None, "RUR"),
                     Listing(None, Some(300), "RUR")];
    assert listings[..2][..1] == listings[..1];
    assert listings[..1][..0] == [];
    assert Fold(EMPTY, listings[..1], "RUR") == Tally(150.0, 1);
    assert Fold(EMPTY, listings[..2], "RUR") == Tally(330.0, 2);
    assert Fold(EMPTY, listings, "RUR") == Tally(570.0, 3);
  }
}
