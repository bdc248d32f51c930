/**
 * `get_sj_salary_statistics`: the SuperJob collector. It differs from the
 * HeadHunter one in its request and in its page limit, which it computes
 * as `total/100`, Python's true division: a real number, not a whole one.
 */
module SuperJob {
  import opened Wrappers
  import opened Collector

  const TOWN := "Москва"
  /** The currency both asked for in the request and required of a listing. */
  const CURRENCY := "rub"
  /** Listings per page (`count`), the divisor of the page limit. */
  const PAGE_SIZE := 100

  /** One request: the `X-Api-App-Id` header and the `params` dictionary. */
  datatype Query = Query(appId: string, town: string, period: int, keyword: string,
                         currency: string, page: int, count: int)

  /** The fields of a response the collector reads: `total` and `objects`. */
  datatype Page = Page(total: int, objects: seq<Listing>)

  type Fetch = Query -> Result<Page, HttpError>

  /** The request for page `page`. */
  function Params(token: string, vacancy: string, period: int, page: nat): Query {
    Query(token, TOWN, period, vacancy, CURRENCY, page, PAGE_SIZE)
  }

  /** `pages = vacancies_found/100`. */
  function PageLimit(total: int): real {
    total as real / PAGE_SIZE as real
  }

  /** No page of this search reports a `total` above `bound`, so the loop ends. */
  ghost predicate Bounded(fetch: Fetch, token: string, vacancy: string, period: int, bound: nat) {
    forall page: nat :: fetch(Params(token, vacancy, period, page)).Ok? ==>
      fetch(Params(token, vacancy, period, page)).value.total <= bound
  }

  /**
   * The pages the `while page <= pages` loop receives, from index `page` on,
   * when the last limit computed is `pages`; or the first HTTP error.
   */
  function Run(fetch: Fetch, token: string, vacancy: string, period: int,
               page: nat, pages: real, bound: nat): Result<seq<Page>, HttpError>
    requires Bounded(fetch, token, vacancy, period, bound)
    requires page == 0 || pages <= bound as real
    decreases bound + 2 - page
  {
    if page as real > pages then Ok([])
    else match fetch(Params(token, vacancy, period, page))
      case Err(e) => Err(e)
      case Ok(content) =>
        Prepend([content], Run(fetch, token, vacancy, period, page + 1, PageLimit(content.total), bound))
  }

  /** `vacancies_found` after the loop: the `total` of the last response received. */
  function LastTotal(pages: seq<Page>): int {
    if pages == [] then 0 else pages[|pages| - 1].total
  }

  /** The `objects` lists of the pages received, in order. */
  function ObjectLists(pages: seq<Page>): (lists: seq<seq<Listing>>)
    ensures |lists| == |pages|
    ensures forall i :: 0 <= i < |pages| ==> lists[i] == pages[i].objects
  {
    seq(|pages|, i requires 0 <= i < |pages| => pages[i].objects)
  }

  /** The result of a whole run, starting with page 0 of at most 1. */
  function Statistics(fetch: Fetch, token: string, vacancy: string, period: int, bound: nat)
    : Result<Stats, HttpError>
    requires Bounded(fetch, token, vacancy, period, bound)
  {
    match Run(fetch, token, vacancy, period, 0, 1.0, bound)
    case Err(e) => Err(e)
    case Ok(pages) => Ok(Summarise(LastTotal(pages), Concat(ObjectLists(pages)), CURRENCY))
  }

  /** The accumulators after one more page are the old ones run over its objects. */
  lemma TallyNextPage(received: seq<Page>, content: Page)
    ensures Fold(EMPTY, Concat(ObjectLists(received + [content])), CURRENCY)
            == Fold(Fold(EMPTY, Concat(ObjectLists(received)), CURRENCY), content.objects, CURRENCY)
  {
    var lists := ObjectLists(received + [content]);
    assert lists[..|received|] == ObjectLists(received);
    assert Concat(lists) == Concat(ObjectLists(received)) + content.objects;
    FoldConcat(EMPTY, Concat(ObjectLists(received)), content.objects, CURRENCY);
  }

  /** The collector itself; `bound` only serves the termination argument. */
  method GetSalaryStatistics(fetch: Fetch, token: string, vacancy: string, period: int, ghost bound: nat)
    returns (r: Result<Stats, HttpError>)
    requires Bounded(fetch, token, vacancy, period, bound)
    ensures r == Statistics(fetch, token, vacancy, period, bound)
  {
    var page: nat := 0;
    var pages: real := 1.0;
    var params := Params(token, vacancy, period, page);
    var tally := EMPTY;
    var vacanciesFound := 0;
    ghost var received: seq<Page> := [];
    PrependNothing(Run(fetch, token, vacancy, period, 0, 1.0, bound));
    while page as real <= pages
      invariant page == |received|
      invariant params == Params(token, vacancy, period, page)
      invariant page == 0 ==> pages == 1.0
      invariant page == 0 || pages <= bound as real
      invariant Run(fetch, token, vacancy, period, 0, 1.0, bound)
                == Prepend(received, Run(fetch, token, vacancy, period, page, pages, bound))
      invariant vacanciesFound == LastTotal(received)
      invariant tally == Fold(EMPTY, Concat(ObjectLists(received)), CURRENCY)
      decreases bound + 2 - page
    {
      var response := fetch(params);
      if response.Err? {
        assert Run(fetch, token, vacancy, period, page, pages, bound) == Err(response.error);
        return Err(response.error);
      }
      var content := response.value;
      vacanciesFound := content.total;
      pages := PageLimit(vacanciesFound);
      tally := TallyPage(content.objects, CURRENCY, tally);
      TallyNextPage(received, content);
      PrependTwice(received, [content], Run(fetch, token, vacancy, period, page + 1, pages, bound));
      received := received + [content];
      page := page + 1;
      params := params.(page := page);
    }
    assert Run(fetch, token, vacancy, period, page, pages, bound) == Ok([]);
    assert received + [] == received;
    var averageSalary := 0;
    if tally.processed != 0 {
      averageSalary := Truncate(tally.sum / tally.processed as real);
    }
    r := Ok(Stats(vacanciesFound, tally.processed, averageSalary));
  }

  /**
   * The shape of a run from page `page` on: it received the pages
   * `page, page + 1, ...` in increasing order, went on after each but the
   * last because the next index was within `total/100` of that page, and
   * stopped after the last because the next index was not.
   */
  lemma {:induction false} RunTrace(fetch: Fetch, token: string, vacancy: string, period: int,
                                    page: nat, pages: real, bound: nat)
    requires Bounded(fetch, token, vacancy, period, bound)
    requires page == 0 || pages <= bound as real
    ensures Run(fetch, token, vacancy, period, page, pages, bound).Ok? ==>
              var received := Run(fetch, token, vacancy, period, page, pages, bound).value;
              (received == [] <==> page as real > pages)
              && (forall i :: 0 <= i < |received| ==>
                    fetch(Params(token, vacancy, period, page + i)) == Ok(received[i]))
              && (forall i :: 0 <= i < |received| - 1 ==>
                    (page + i + 1) as real <= PageLimit(received[i].total))
              && (received != [] ==>
                    (page + |received|) as real > PageLimit(received[|received| - 1].total))
    decreases bound + 2 - page
  {
    if page as real <= pages {
      var response := fetch(Params(token, vacancy, period, page));
      if response.Ok? {
        var content := response.value;
        RunTrace(fetch, token, vacancy, period, page + 1, PageLimit(content.total), bound);
        var rest := Run(fetch, token, vacancy, period, page + 1, PageLimit(content.total), bound);
        if rest.Ok? {
          var received := [content] + rest.value;
          assert Run(fetch, token, vacancy, period, page, pages, bound) == Ok(received);
          forall i | 0 <= i < |received|
            ensures fetch(Params(token, vacancy, period, page + i)) == Ok(received[i])
          {
            if i > 0 {
              assert received[i] == rest.value[i - 1];
            }
          }
          forall i | 0 <= i < |received| - 1
            ensures (page + i + 1) as real <= PageLimit(received[i].total)
          {
            if i > 0 {
              assert received[i] == rest.value[i - 1];
            }
          }
        }
      }
    }
  }

  /**
   * A run from page 0 receives, on success, at least one page; page `i` of
   * what it received answers the request for index `i`; and it asks for
   * the next index exactly while that index does not exceed `total/100` of
   * the last answer.
   */
  lemma FetchesPagesInOrder(fetch: Fetch, token: string, vacancy: string, period: int, bound: nat)
    requires Bounded(fetch, token, vacancy, period, bound)
    ensures Run(fetch, token, vacancy, period, 0, 1.0, bound).Ok? ==>
              var received := Run(fetch, token, vacancy, period, 0, 1.0, bound).value;
              |received| >= 1
              && (forall i :: 0 <= i < |received| ==>
                    fetch(Params(token, vacancy, period, i)) == Ok(received[i]))
              && (forall i :: 0 <= i < |received| - 1 ==>
                    (i + 1) as real <= PageLimit(received[i].total))
              && |received| as real > PageLimit(received[|received| - 1].total)
  {
    RunTrace(fetch, token, vacancy, period, 0, 1.0, bound);
  }

  /** A whole index is within `total/100` exactly when it is within `total` divided down. */
  lemma WithinLimit(page: nat, total: nat)
    ensures page as real <= PageLimit(total) <==> page <= total / PAGE_SIZE
  {
    var q, rem := total / PAGE_SIZE, total % PAGE_SIZE;
    assert total == PAGE_SIZE * q + rem;
    assert PageLimit(total) == q as real + rem as real / 100.0;
  }

  /** Every page of the search answers with the same `total`. */
  ghost predicate FixedTotal(fetch: Fetch, token: string, vacancy: string, period: int, total: nat) {
    forall page: nat :: fetch(Params(token, vacancy, period, page)).Ok?
                        && fetch(Params(token, vacancy, period, page)).value.total == total
  }

  lemma {:induction false} FixedRun(fetch: Fetch, token: string, vacancy: string, period: int,
                                    bound: nat, total: nat, page: nat, pages: real)
    requires Bounded(fetch, token, vacancy, period, bound)
    requires FixedTotal(fetch, token, vacancy, period, total)
    requires page <= total / PAGE_SIZE + 1
    requires page == 0 ==> pages == 1.0
    requires page > 0 ==> pages == PageLimit(total)
    requires page == 0 || pages <= bound as real
    ensures Run(fetch, token, vacancy, period, page, pages, bound).Ok?
    ensures |Run(fetch, token, vacancy, period, page, pages, bound).value| == total / PAGE_SIZE + 1 - page
    decreases total / PAGE_SIZE + 1 - page
  {
    WithinLimit(page, total);
    if page as real <= pages {
      var content := fetch(Params(token, vacancy, period, page)).value;
      FixedRun(fetch, token, vacancy, period, bound, total, page + 1, PageLimit(content.total));
    }
  }

  /**
   * When every page reports `total`, the collector requests the indices
   * 0, 1, ..., total / 100 (rounded down) in this order and receives them
   * all; a total of 0 makes exactly one request. The count it reports as
   * found is that `total`.
   */
  lemma FixedTotalPages(fetch: Fetch, token: string, vacancy: string, period: int, bound: nat, total: nat)
    requires Bounded(fetch, token, vacancy, period, bound)
    requires FixedTotal(fetch, token, vacancy, period, total)
    ensures Run(fetch, token, vacancy, period, 0, 1.0, bound).Ok?
    ensures var received := Run(fetch, token, vacancy, period, 0, 1.0, bound).value;
            |received| == total / PAGE_SIZE + 1
            && forall i :: 0 <= i <= total / PAGE_SIZE ==>
                 received[i] == fetch(Params(token, vacancy, period, i)).value
    ensures total == 0 ==> |Run(fetch, token, vacancy, period, 0, 1.0, bound).value| == 1
    ensures Statistics(fetch, token, vacancy, period, bound).Ok?
    ensures Statistics(fetch, token, vacancy, period, bound).value.found == total
  {
    FixedRun(fetch, token, vacancy, period, bound, total, 0, 1.0);
    FetchesPagesInOrder(fetch, token, vacancy, period, bound);
    var received := Run(fetch, token, vacancy, period, 0, 1.0, bound).value;
    forall i | 0 <= i <= total / PAGE_SIZE
      ensures received[i] == fetch(Params(token, vacancy, period, i)).value
    {
      assert fetch(Params(token, vacancy, period, i)) == Ok(received[i]);
    }
    var last := |received| - 1;
    assert fetch(Params(token, vacancy, period, last)) == Ok(received[last]);
    assert received[last].total == total;
    assert Statistics(fetch, token, vacancy, period, bound).value.found == LastTotal(received);
  }

  lemma {:induction false} FailingRun(fetch: Fetch, token: string, vacancy: string, period: int,
                                      bound: nat, failing: nat, page: nat, pages: real)
    requires Bounded(fetch, token, vacancy, period, bound)
    requires forall i: nat :: i < failing ==>
               fetch(Params(token, vacancy, period, i)).Ok?
               && (i + 1) as real <= PageLimit(fetch(Params(token, vacancy, period, i)).value.total)
    requires fetch(Params(token, vacancy, period, failing)).Err?
    requires page <= failing
    requires page == 0 ==> pages == 1.0
    requires page > 0 ==> pages == PageLimit(fetch(Params(token, vacancy, period, page - 1)).value.total)
    requires page == 0 || pages <= bound as real
    ensures Run(fetch, token, vacancy, period, page, pages, bound)
            == Err(fetch(Params(token, vacancy, period, failing)).error)
    decreases failing - page
  {
    if page < failing {
      var content := fetch(Params(token, vacancy, period, page)).value;
      FailingRun(fetch, token, vacancy, period, bound, failing, page + 1, PageLimit(content.total));
    }
  }

  /**
   * An HTTP error on a page the loop reaches aborts the whole collection:
   * no statistics are returned, only that error. The loop reaches index
   * `failing` when every earlier request succeeded and each one's
   * `total/100` let the loop go on to the next index.
   */
  lemma ErrorAborts(fetch: Fetch, token: string, vacancy: string, period: int, bound: nat, failing: nat)
    requires Bounded(fetch, token, vacancy, period, bound)
    requires forall i: nat :: i < failing ==>
               fetch(Params(token, vacancy, period, i)).Ok?
               && (i + 1) as real <= PageLimit(fetch(Params(token, vacancy, period, i)).value.total)
    requires fetch(Params(token, vacancy, period, failing)).Err?
    ensures Statistics(fetch, token, vacancy, period, bound)
            == Err(fetch(Params(token, vacancy, period, failing)).error)
  {
    FailingRun(fetch, token, vacancy, period, bound, failing, 0, 1.0);
  }

  /**
   * What a successful run reports: `total` of the last page received; as
   * `vacancies_processed`, the number of "rub" listings over all pages
   * received, which is also the per-page counts added up; as the average,
   * the truncated mean of their estimates, or 0 if there are none.
   */
  lemma StatisticsMeaning(fetch: Fetch, token: string, vacancy: string, period: int, bound: nat)
    requires Bounded(fetch, token, vacancy, period, bound)
    ensures match Run(fetch, token, vacancy, period, 0, 1.0, bound)
            case Err(e) => Statistics(fetch, token, vacancy, period, bound) == Err(e)
            case Ok(received) =>
              var counted := Matching(Concat(ObjectLists(received)), CURRENCY);
              |received| >= 1
              && |counted| == CountPerPage(ObjectLists(received), CURRENCY)
              && Statistics(fetch, token, vacancy, period, bound)
                 == Ok(Stats(received[|received| - 1].total, |counted|,
                             if |counted| == 0 then 0
                             else Truncate(SumEstimates(counted) / |counted| as real)))
  {
    var run := Run(fetch, token, vacancy, period, 0, 1.0, bound);
    if run.Ok? {
      RunTrace(fetch, token, vacancy, period, 0, 1.0, bound);
      SummariseMeaning(LastTotal(run.value), Concat(ObjectLists(run.value)), CURRENCY);
      CountAcrossPages(ObjectLists(run.value), CURRENCY);
    }
  }
}
