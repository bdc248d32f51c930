# Salary statistics from two job boards, modelled in Dafny

The modelled program, `estimate_future_salary.py`, asks two job-board APIs
(HeadHunter and SuperJob) for Moscow vacancies per programming language. It
turns the salary range of each listing into one estimate, averages the
estimates of the rouble listings, and builds one table per source.

The model covers:

- the estimator `predict_rub_salary` (module `Salary`);
- the paginated collectors `get_hh_salary_statistics` and
  `get_sj_salary_statistics` (modules `HeadHunter` and `SuperJob`): the
  `while page <= pages` loop, the currency filter, the running sum and the
  counter (shared pieces in module `Collector`), and the guarded, truncated
  final mean;
- the row list that `create_table` builds (module `Report`);
- the loop of `main` that fills the two dictionaries, one language at a time
  (module `Driver`).

Each HTTP request is a parameter `fetch`. It is a function from the request
(its query parameters, and for SuperJob also the `X-Api-App-Id` header) to
the parsed page, or to the HTTP error that `raise_for_status` raises.

Each collector is an imperative method with the source's loop. It is proved
equal to a recursive specification function (`Run`, then `Statistics`).
Lemmas then say what that function means:

- which pages are requested, and in which order;
- how many pages are requested for a fixed `pages` or `total`;
- what is counted, what is summed and what is reported;
- that an HTTP error aborts the whole collection.

Salary bounds are `Option<int>`: JSON `null` is `None`. Python truthiness is
kept: `None` and `0` are both treated as a missing bound. Estimates are
exact reals. Python's `int()` is `Collector.Truncate`, which rounds toward
zero, also for negative values.

Points where the code's behaviour is easy to misread:

- A rouble listing with neither bound is counted, with estimate 0. It is not
  excluded.
- `vacancies_processed` filters on currency only, not on having a bound.
- HeadHunter's loop limit is the `pages` field itself, and the loop also
  requests index `pages`: indices 0 to `pages`, inclusive.
- SuperJob's limit is `total/100` under Python's true division, compared
  with `<=`. So it requests indices 0 to ⌊total/100⌋. A total of 0 gives
  exactly one request.

## Model

| member | source | states |
|---|---|---|
| `Salary.PredictRubSalary` | estimate_future_salary.py:8-20 | Three guarded overwrites of a local that starts at 0 amount to an exclusive case split: both bounds truthy gives their mean; only the lower gives 1.2 × lower; only the upper gives 0.8 × upper; neither gives 0 |
| `Salary.EstimateNonNegative` | estimate_future_salary.py:9-20 | Non-negative bounds give a non-negative estimate |
| `Salary.ZeroIsAbsent` | estimate_future_salary.py:11-18 | A bound of 0 gives the same estimate as a missing bound, on either side |
| `Salary.EstimateWithinRange` | estimate_future_salary.py:11-18 | For non-negative bounds, a two-sided estimate lies between the bounds; a lower bound alone is marked up; an upper bound alone is marked down |
| `Collector.Truncate` | estimate_future_salary.py:55 | `int()` rounds toward zero: the result is within 1 of its argument, and on the same side of 0 |
| `Collector.TallyPage` | estimate_future_salary.py:46-51 | The inner loop over one page's listings ends with the accumulators given by `Fold` over that page |
| `Collector.MatchingMembers` | estimate_future_salary.py:47 | The listings that pass the filter are exactly those whose currency equals the target |
| `Collector.FoldConcat` | estimate_future_salary.py:38-53 | Accumulating over two stretches of listings one after the other is the same as accumulating over both at once; this is how the sum and the counter carry across pages |
| `Collector.FoldCountsMatching` | estimate_future_salary.py:46-51 | The counter grows by exactly the number of listings in the target currency, and the sum by exactly the sum of their estimates |
| `Collector.OtherCurrencyIgnored` | estimate_future_salary.py:47 | A listing in another currency, placed anywhere, changes neither the sum nor the counter |
| `Collector.BoundlessListingCounted` | estimate_future_salary.py:47-51 | A listing in the target currency with no truthy bound adds 1 to the counter and 0 to the sum |
| `Collector.SummariseMeaning` | estimate_future_salary.py:54-59 | The result reports the given `found`; as processed, the number of listings in the target currency; as average, 0 if there are none, else the truncated mean of their estimates |
| `Collector.MeanWithin` | estimate_future_salary.py:54-55 | With non-negative bounds, the average is at least 0 and at most any ceiling on the counted estimates, the largest one included |
| `Collector.CountAcrossPages` | estimate_future_salary.py:38-53 | The listings counted over all pages equal the per-page counts added up |
| `Collector.ThreeListingExample` | estimate_future_salary.py:8-20 | Rouble listings (100,200), (150,–) and (None,300) give estimates 150, 180 and 240, so 3 are processed with average 190 |
| `HeadHunter.GetSalaryStatistics` | estimate_future_salary.py:23-59 | The collector loop returns exactly `Statistics`: either the first HTTP error, or the summary of the pages that `Run` receives |
| `HeadHunter.FetchesPagesInOrder` | estimate_future_salary.py:38-53 | A successful run receives at least one page. Page i answers the request for index i. The loop goes on exactly while the next index is at most the `pages` of the last answer |
| `HeadHunter.FixedPageCount` | estimate_future_salary.py:24-53 | If every answer reports `pages = P`, indices 0..P are requested in order: P+1 requests. `found` is that of the answer for index P |
| `HeadHunter.ErrorAborts` | estimate_future_salary.py:38-40 | An HTTP error on a page the loop reaches makes the whole call return that error and no statistics. The loop reaches index k when every earlier request succeeded and each one's `pages` let the loop go on; the reported `pages` may change from page to page |
| `HeadHunter.StatisticsMeaning` | estimate_future_salary.py:43-59 | A successful run reports the last page's `found`, not a sum over pages. It reports the number of "RUR" listings over all pages, which equals the per-page counts added up, and their truncated mean, or 0 |
| `SuperJob.GetSalaryStatistics` | estimate_future_salary.py:62-96 | The collector loop returns exactly `Statistics`: either the first HTTP error, or the summary of the pages that `Run` receives |
| `SuperJob.FetchesPagesInOrder` | estimate_future_salary.py:77-90 | A successful run receives at least one page. Page i answers the request for index i. The loop goes on exactly while the next index is at most `total/100` of the last answer |
| `SuperJob.WithinLimit` | estimate_future_salary.py:82 | A whole index is at most the real `total/100` exactly when it is at most ⌊total/100⌋ |
| `SuperJob.FixedTotalPages` | estimate_future_salary.py:64-90 | If every answer reports `total = T`, indices 0..⌊T/100⌋ are requested in order. T = 0 gives exactly one request. `found` is T |
| `SuperJob.ErrorAborts` | estimate_future_salary.py:77-79 | An HTTP error on a page the loop reaches makes the whole call return that error and no statistics. The loop reaches index k when every earlier request succeeded and each one's `total/100` let the loop go on; the reported `total` may change from page to page |
| `SuperJob.StatisticsMeaning` | estimate_future_salary.py:81-96 | A successful run reports the last page's `total`. It reports the number of "rub" listings over all pages, which equals the per-page counts added up, and their truncated mean, or 0 |
| `Report.CreateTable` | estimate_future_salary.py:99-111 | The rows are the header row, then exactly one `[language, found, processed, average]` row per entry, in the mapping's order |
| `Driver.PutNew` | estimate_future_salary.py:143-146 | Assigning a key the dictionary lacks appends the entry at the end |
| `Driver.PutExisting` | estimate_future_salary.py:143-146 | Assigning a key the dictionary holds replaces its value in place; nothing else changes |
| `Driver.CollectStatistics` | estimate_future_salary.py:138-151 | The loop over the languages returns exactly `Collected` of the two searches' outcomes per language |
| `Driver.FailureAborts` | estimate_future_salary.py:141-151 | Once the loop fails on some prefix of the list, the whole loop fails with that same error |
| `Driver.AnyFailureAborts` | estimate_future_salary.py:141-151 | An HTTP error from either source, for any language, means no dictionaries are produced |
| `Driver.CollectedInOrder` | estimate_future_salary.py:141-151 | For a list without repeats, each dictionary has one entry per language, in list order, holding that source's result for it |
| `Driver.MainDictionaries` | estimate_future_salary.py:121-151 | For `main`'s own thirteen languages and a period of 10 days, a successful loop gives each dictionary thirteen entries in list order, each the statistics that source reports for "Программист " + language over 10 days |

## Left out

- HTTP and JSON (`requests.get`, `.json()`, lines 39-41 and 78-80): each
  source is a function from request to page or HTTP error. Transport errors
  count as such an error. Missing JSON keys, and a HeadHunter item whose
  `salary` is `null` (which would raise in Python), are not modelled.
- The API URLs (lines 119-120) are fixed per source, so they are not part of
  a request.
- The server is a fixed function of the request. Answers that change between
  two identical requests are not modelled.
- Termination against an API whose reported `pages` or `total` keeps
  growing: every collector takes a ghost bound on that field. The bound only
  serves the termination argument.
- `load_dotenv` and `os.getenv` (lines 117-118): the SuperJob token is a
  parameter.
- `AsciiTable` and `print` (lines 112-113 and 153-154) are not part of this
  model. That covers line 112 passing the last data row as table title, its
  `NameError` on an empty mapping, and the unused `title` argument.
- Floating point: estimates, the running sum, `total/100` and the final
  division are exact reals. Binary-float rounding is not modelled.
- Salary bounds are whole numbers (JSON integers).
- `main`'s language list and period are the constants `Driver.PROGRAMMING_LANGUAGES`
  and `Driver.PERIOD`. The loop takes both as parameters, and
  `Driver.MainDictionaries` is about `main`'s own values.
