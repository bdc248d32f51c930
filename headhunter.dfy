/**
 * `get_hh_salary_statistics`: the HeadHunter collector. The HTTP request is
 * the parameter `fetch`, a function from the query parameters to the parsed
 * JSON page or the HTTP error that `raise_for_status` raises.
 */
module HeadHunter {
  import opened Wrappers
  import opened Collector

  /** `area`: Moscow. */
  const CITY_CODE := 1
  /** The currency a HeadHunter listing must carry to be counted. */
  const CURRENCY := "RUR"

  /** The `params` dictionary of one request. */
  datatype Query = Query(text: string, area: int, period: int, onlyWithSalary: bool, page: int)

  /** The fields of a response the collector reads: `pages`, `found` and `items`. */
  datatype Page = Page(pages: int, found: int, items: seq<Listing>)

  type Fetch = Query -> Result<Page, HttpError>

  /** The parameters of the request for page `page`. */
  function Params(vacancy: string, period: int, page: nat): Query {
    Query(vacancy, CITY_CODE, period, true, page)
  }

  /**
   * No page of this search reports more than `bound` pages. The loop
   * re-reads its upper limit from every response; this bound makes it end.
   */
  ghost predicate Bounded(fetch: Fetch, vacancy: string, period: int, bound: nat) {
    forall page: nat :: fetch(Params(vacancy, period, page)).Ok? ==>
      fetch(Params(vacancy, period, page)).value.pages <= bound
  }

  /**
   * The pages the `while page <= pages` loop receives, from index `page` on,
   * when the last limit read is `pages`; or the first HTTP error.
   */
  function Run(fetch: Fetch, vacancy: string, period: int, page: nat, pages: int, bound: nat)
    : Result<seq<Page>, HttpError>
    requires Bounded(fetch, vacancy, period, bound)
    requires page == 0 || pages <= bound
    decreases bound + 2 - page
  {
    if page > pages then Ok([])
    else match fetch(Params(vacancy, period, page))
      case Err(e) => Err(e)
      case Ok(content) => Prepend([content], Run(fetch, vacancy, period, page + 1, content.pages, bound))
  }

  /** `vacancies_found` after the loop: the value of the last response received. */
  function LastFound(pages: seq<Page>): int {
    if pages == [] then 0 else pages[|pages| - 1].found
  }

  /** The `items` lists of the pages received, in order. */
  function ItemLists(pages: seq<Page>): (lists: seq<seq<Listing>>)
    ensures |lists| == |pages|
    ensures forall i :: 0 <= i < |pages| ==> lists[i] == pages[i].items
  {
    seq(|pages|, i requires 0 <= i < |pages| => pages[i].items)
  }

  /** The result of a whole run, starting as the source does with page 0 of at most 1. */
  function Statistics(fetch: Fetch, vacancy: string, period: int, bound: nat): Result<Stats, HttpError>
    requires Bounded(fetch, vacancy, period, bound)
  {
    match Run(fetch, vacancy, period, 0, 1, bound)
    case Err(e) => Err(e)
    case Ok(pages) => Ok(Summarise(LastFound(pages), Concat(ItemLists(pages)), CURRENCY))
  }

  /** The accumulators after one more page are the old ones run over its items. */
  lemma TallyNextPage(received: seq<Page>, content: Page)
    ensures Fold(EMPTY, Concat(ItemLists(received + [content])), CURRENCY)
            == Fold(Fold(EMPTY, Concat(ItemLists(received)), CURRENCY), content.items, CURRENCY)
  {
    var lists := ItemLists(received + [content]);
    assert lists[..|received|] == ItemLists(received);
    assert Concat(lists) == Concat(ItemLists(received)) + content.items;
    FoldConcat(EMPTY, Concat(ItemLists(received)), content.items, CURRENCY);
  }

  /** The collector itself; `bound` only serves the termination argument. */
  method GetSalaryStatistics(fetch: Fetch, vacancy: string, period: int, ghost bound: nat)
    returns (r: Result<Stats, HttpError>)
    requires Bounded(fetch, vacancy, period, bound)
    ensures r == Statistics(fetch, vacancy, period, bound)
  {
    var page: nat := 0;
    var pages := 1;
    var vacanciesFound := 0;
    var tally := EMPTY;
    var params := Params(vacancy, period, page);
    ghost var received: seq<Page> := [];
    PrependNothing(Run(fetch, vacancy, period, 0, 1, bound));
    while page <= pages
      invariant page == |received|
      invariant params == Params(vacancy, period, page)
      invariant page == 0 ==> pages == 1
      invariant page == 0 || pages <= bound
      invariant Run(fetch, vacancy, period, 0, 1, bound)
                == Prepend(received, Run(fetch, vacancy, period, page, pages, bound))
      invariant vacanciesFound == LastFound(received)
      invariant tally == Fold(EMPTY, Concat(ItemLists(received)), CURRENCY)
      decreases bound + 2 - page
    {
      var response := fetch(params);
      if response.Err? {
        assert Run(fetch, vacancy, period, page, pages, bound) == Err(response.error);
        return Err(response.error);
      }
      var content := response.value;
      pages := content.pages;
      vacanciesFound := content.found;
      tally := TallyPage(content.items, CURRENCY, tally);
      TallyNextPage(received, content);
      PrependTwice(received, [content], Run(fetch, vacancy, period, page + 1, pages, bound));
      received := received + [content];
      page := page + 1;
      params := params.(page := page);
    }
    assert Run(fetch, vacancy, period, page, pages, bound) == Ok([]);
    assert received + [] == received;
    var averageSalary := 0;
    if tally.processed != 0 {
      averageSalary := Truncate(tally.sum / tally.processed as real);
    }
    r := Ok(Stats(vacanciesFound, tally.processed, averageSalary));
  }

  /**
   * The shape of a run from page `page` on: it received the pages
   * `page, page + 1, ...` in increasing order, went on after each
   * but the last because the next index was within the limit that page
   * reported, and stopped after the last because the next index was not.
   */
  lemma {:induction false} RunTrace(fetch: Fetch, vacancy: string, period: int, page: nat, pages: int, bound: nat)
    requires Bounded(fetch, vacancy, period, bound)
    requires page == 0 || pages <= bound
    ensures Run(fetch, vacancy, period, page, pages, bound).Ok? ==>
              var received := Run(fetch, vacancy, period, page, pages, bound).value;
              (received == [] <==> page > pages)
              && (forall i :: 0 <= i < |received| ==>
                    fetch(Params(vacancy, period, page + i)) == Ok(received[i]))
              && (forall i :: 0 <= i < |received| - 1 ==> page + i + 1 <= received[i].pages)
              && (received != [] ==> received[|received| - 1].pages < page + |received|)
    decreases bound + 2 - page
  {
    if page <= pages {
      var response := fetch(Params(vacancy, period, page));
      if response.Ok? {
        var content := response.value;
        RunTrace(fetch, vacancy, period, page + 1, content.pages, bound);
        var rest := Run(fetch, vacancy, period, page + 1, content.pages, bound);
        if rest.Ok? {
          var received := [content] + rest.value;
          assert Run(fetch, vacancy, period, page, pages, bound) == Ok(received);
          forall i | 0 <= i < |received|
            ensures fetch(Params(vacancy, period, page + i)) == Ok(received[i])
          {
            if i > 0 {
              assert received[i] == rest.value[i - 1];
            }
          }
          forall i | 0 <= i < |received| - 1
            ensures page + i + 1 <= received[i].pages
          {
            if i > 0 {
              assert received[i] == rest.value[i - 1];
            }
          }
        }
      }
    }
  }

  /**
   * A run from page 0 receives, on success, at least one page; page `i` of
   * what it received is the answer to the request for index `i`; and it
   * asks for the next index exactly while that index does not exceed the
   * `pages` of the last answer.
   */
  lemma FetchesPagesInOrder(fetch: Fetch, vacancy: string, period: int, bound: nat)
    requires Bounded(fetch, vacancy, period, bound)
    ensures Run(fetch, vacancy, period, 0, 1, bound).Ok? ==>
              var received := Run(fetch, vacancy, period, 0, 1, bound).value;
              |received| >= 1
              && (forall i :: 0 <= i < |received| ==> fetch(Params(vacancy, period, i)) == Ok(received[i]))
              && (forall i :: 0 <= i < |received| - 1 ==> i + 1 <= received[i].pages)
              && received[|received| - 1].pages < |received|
  {
    RunTrace(fetch, vacancy, period, 0, 1, bound);
  }

  /** Every page of the search answers with the same page limit `count`. */
  ghost predicate FixedPages(fetch: Fetch, vacancy: string, period: int, count: nat) {
    forall page: nat :: fetch(Params(vacancy, period, page)).Ok?
                        && fetch(Params(vacancy, period, page)).value.pages == count
  }

  lemma {:induction false} FixedRun(fetch: Fetch, vacancy: string, period: int, bound: nat,
                                    count: nat, page: nat, pages: int)
    requires Bounded(fetch, vacancy, period, bound)
    requires FixedPages(fetch, vacancy, period, count)
    requires page <= count + 1
    requires page == 0 ==> pages == 1
    requires page > 0 ==> pages == count
    requires page == 0 || pages <= bound
    ensures Run(fetch, vacancy, period, page, pages, bound).Ok?
    ensures |Run(fetch, vacancy, period, page, pages, bound).value| == count + 1 - page
    decreases count + 1 - page
  {
    if page <= pages {
      var content := fetch(Params(vacancy, period, page)).value;
      FixedRun(fetch, vacancy, period, bound, count, page + 1, content.pages);
    }
  }

  /**
   * When every page reports `pages == count`, the collector requests the
   * indices 0, 1, ..., count in this order: count + 1 requests, all of which
   * it receives; the `found` it reports is that of the last one.
   */
  lemma FixedPageCount(fetch: Fetch, vacancy: string, period: int, bound: nat, count: nat)
    requires Bounded(fetch, vacancy, period, bound)
    requires FixedPages(fetch, vacancy, period, count)
    ensures Run(fetch, vacancy, period, 0, 1, bound).Ok?
    ensures var received := Run(fetch, vacancy, period, 0, 1, bound).value;
            |received| == count + 1
            && forall i :: 0 <= i <= count ==> received[i] == fetch(Params(vacancy, period, i)).value
    ensures Statistics(fetch, vacancy, period, bound).Ok?
    ensures Statistics(fetch, vacancy, period, bound).value.found
            == fetch(Params(vacancy, period, count)).value.found
  {
    FixedRun(fetch, vacancy, period, bound, count, 0, 1);
    FetchesPagesInOrder(fetch, vacancy, period, bound);
    var received := Run(fetch, vacancy, period, 0, 1, bound).value;
    forall i | 0 <= i <= count
      ensures received[i] == fetch(Params(vacancy, period, i)).value
    {
      assert fetch(Params(vacancy, period, i)) == Ok(received[i]);
    }
    assert fetch(Params(vacancy, period, count)) == Ok(received[count]);
    assert Statistics(fetch, vacancy, period, bound).value.found == LastFound(received);
  }

  lemma {:induction false} FailingRun(fetch: Fetch, vacancy: string, period: int, bound: nat,
                                      failing: nat, page: nat, pages: int)
    requires Bounded(fetch, vacancy, period, bound)
    requires forall i: nat :: i < failing ==>
               fetch(Params(vacancy, period, i)).Ok? && i + 1 <= fetch(Params(vacancy, period, i)).value.pages
    requires fetch(Params(vacancy, period, failing)).Err?
    requires page <= failing
    requires page == 0 ==> pages == 1
    requires page > 0 ==> pages == fetch(Params(vacancy, period, page - 1)).value.pages
    requires page == 0 || pages <= bound
    ensures Run(fetch, vacancy, period, page, pages, bound) == Err(fetch(Params(vacancy, period, failing)).error)
    decreases failing - page
  {
    if page < failing {
      var content := fetch(Params(vacancy, period, page)).value;
      FailingRun(fetch, vacancy, period, bound, failing, page + 1, content.pages);
    }
  }

  /**
   * An HTTP error on a page the loop reaches aborts the whole collection:
   * no statistics are returned, only that error. The loop reaches index
   * `failing` when every earlier request succeeded and each one's `pages`
   * let the loop go on to the next index.
   */
  lemma ErrorAborts(fetch: Fetch, vacancy: string, period: int, bound: nat, failing: nat)
    requires Bounded(fetch, vacancy, period, bound)
    requires forall i: nat :: i < failing ==>
               fetch(Params(vacancy, period, i)).Ok? && i + 1 <= fetch(Params(vacancy, period, i)).value.pages
    requires fetch(Params(vacancy, period, failing)).Err?
    ensures Statistics(fetch, vacancy, period, bound) == Err(fetch(Params(vacancy, period, failing)).error)
  {
    FailingRun(fetch, vacancy, period, bound, failing, 0, 1);
  }

  /**
   * What a successful run reports: `found` of the last page received; as
   * `vacancies_processed`, the number of "RUR" listings over all pages
   * received, which is also the per-page counts added up; as the average,
   * the truncated mean of their estimates, or 0 if there are none.
   */
  lemma StatisticsMeaning(fetch: Fetch, vacancy: string, period: int, bound: nat)
    requires Bounded(fetch, vacancy, period, bound)
    ensures match Run(fetch, vacancy, period, 0, 1, bound)
            case Err(e) => Statistics(fetch, vacancy, period, bound) == Err(e)
            case Ok(received) =>
              var counted := Matching(Concat(ItemLists(received)), CURRENCY);
              |received| >= 1
              && |counted| == CountPerPage(ItemLists(received), CURRENCY)
              && Statistics(fetch, vacancy, period, bound)
                 == Ok(Stats(received[|received| - 1].found, |counted|,
                             if |counted| == 0 then 0
                             else Truncate(SumEstimates(counted) / |counted| as real)))
  {
    var run := Run(fetch, vacancy, period, 0, 1, bound);
    if run.Ok? {
      RunTrace(fetch, vacancy, period, 0, 1, bound);
      SummariseMeaning(LastFound(run.value), Concat(ItemLists(run.value)), CURRENCY);
      CountAcrossPages(ItemLists(run.value), CURRENCY);
    }
  }
}
