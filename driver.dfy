/**
 * The loop of `main` that fills the two dictionaries, language by
 * language, first from HeadHunter and then from SuperJob.
 */
module Driver {
  import opened Wrappers
  import opened Collector
  import HeadHunter
  import SuperJob

  /** The reporting period, in days, that `main` asks both sources for. */
  const PERIOD := 10

  const PROGRAMMING_LANGUAGES: seq<string> :=
    ["C", "C++", "C#", "Go", "Java", "JavaScript", "Objective-C", "PHP",
     "Python", "Ruby", "Scala", "Swift", "Typescript"]

  /** A Python dictionary from language to statistics, in insertion order. */
  type Dict = seq<(string, Stats)>

  predicate HasKey(d: Dict, key: string) {
    exists i :: 0 <= i < |d| && d[i].0 == key
  }

  /** `d[key] = value` on a dictionary whose keys are those of `d`. */
  function Put(d: Dict, key: string, value: Stats): Dict {
    if d == [] then [(key, value)]
    else if d[0].0 == key then [(key, value)] + d[1..]
    else [d[0]] + Put(d[1..], key, value)
  }

  /** A key the dictionary does not hold yet goes at the end. */
  lemma {:induction false} PutNew(d: Dict, key: string, value: Stats)
    requires !HasKey(d, key)
    ensures Put(d, key, value) == d + [(key, value)]
    decreases |d|
  {
    if d != [] {
      var rest := d[1..];
      assert d[0].0 != key;
      assert !HasKey(rest, key) by {
        forall i | 0 <= i < |rest| ensures rest[i].0 != key {
          assert rest[i] == d[i + 1];
        }
      }
      PutNew(rest, key, value);
      assert d == [d[0]] + rest;
    }
  }

  /**
   * A key the dictionary holds keeps the place of its (first) occurrence
   * and gets the new value; nothing else changes.
   */
  lemma {:induction false} PutExisting(d: Dict, key: string, value: Stats, i: nat)
    requires i < |d| && d[i].0 == key
    requires forall j :: 0 <= j < i ==> d[j].0 != key
    ensures Put(d, key, value) == d[i := (key, value)]
    decreases i
  {
    if i > 0 {
      var rest := d[1..];
      assert d[0].0 != key;
      forall j | 0 <= j < i - 1 ensures rest[j].0 != key {
        assert rest[j] == d[j + 1];
      }
      PutExisting(rest, key, value, i - 1);
      assert [d[0]] + rest[i - 1 := (key, value)] == d[i := (key, value)];
    }
  }

  /** `f"Программист {language}"`: the search keyword for a language. */
  function Keyword(language: string): string {
    "Программист " + language
  }

  /** Both searches end for every language of the list. */
  ghost predicate AllBounded(languages: seq<string>, hhFetch: HeadHunter.Fetch, sjFetch: SuperJob.Fetch,
                             token: string, period: int, hhBound: nat, sjBound: nat) {
    forall language :: language in languages ==>
      HeadHunter.Bounded(hhFetch, Keyword(language), period, hhBound)
      && SuperJob.Bounded(sjFetch, token, Keyword(language), period, sjBound)
  }

  /** What `get_hh_salary_statistics` returns for each language of the list, in order. */
  function HhOutcomes(languages: seq<string>, hhFetch: HeadHunter.Fetch, period: int, hhBound: nat)
    : (outcomes: seq<Result<Stats, HttpError>>)
    requires forall language :: language in languages ==>
               HeadHunter.Bounded(hhFetch, Keyword(language), period, hhBound)
    ensures |outcomes| == |languages|
  {
    seq(|languages|, i requires 0 <= i < |languages| =>
          HeadHunter.Statistics(hhFetch, Keyword(languages[i]), period, hhBound))
  }

  /** What `get_sj_salary_statistics` returns for each language of the list, in order. */
  function SjOutcomes(languages: seq<string>, sjFetch: SuperJob.Fetch, token: string, period: int, sjBound: nat)
    : (outcomes: seq<Result<Stats, HttpError>>)
    requires forall language :: language in languages ==>
               SuperJob.Bounded(sjFetch, token, Keyword(language), period, sjBound)
    ensures |outcomes| == |languages|
  {
    seq(|languages|, i requires 0 <= i < |languages| =>
          SuperJob.Statistics(sjFetch, token, Keyword(languages[i]), period, sjBound))
  }

  /** One turn of the loop: store the two results for `language`, or stop at an error. */
  function Extend(previous: Result<(Dict, Dict), HttpError>, language: string,
                  hhOutcome: Result<Stats, HttpError>, sjOutcome: Result<Stats, HttpError>)
    : Result<(Dict, Dict), HttpError>
  {
    match previous
    case Err(e) => Err(e)
    case Ok(dicts) =>
      match hhOutcome
      case Err(e) => Err(e)
      case Ok(hh) =>
        match sjOutcome
        case Err(e) => Err(e)
        case Ok(sj) => Ok((Put(dicts.0, language, hh), Put(dicts.1, language, sj)))
  }

  /**
   * The two dictionaries after the loop over `languages`, where the i-th
   * language's searches end in `hhOutcomes[i]` and `sjOutcomes[i]`; or the
   * first HTTP error.
   */
  function Collected(languages: seq<string>, hhOutcomes: seq<Result<Stats, HttpError>>,
                     sjOutcomes: seq<Result<Stats, HttpError>>): Result<(Dict, Dict), HttpError>
    requires |hhOutcomes| == |languages| && |sjOutcomes| == |languages|
    decreases |languages|
  {
    if languages == [] then Ok(([], []))
    else
      var n := |languages| - 1;
      Extend(Collected(languages[..n], hhOutcomes[..n], sjOutcomes[..n]),
             languages[n], hhOutcomes[n], sjOutcomes[n])
  }

  lemma CollectedNext(languages: seq<string>, hhOutcomes: seq<Result<Stats, HttpError>>,
                      sjOutcomes: seq<Result<Stats, HttpError>>, k: nat)
    requires |hhOutcomes| == |languages| && |sjOutcomes| == |languages|
    requires k < |languages|
    ensures Collected(languages[..k + 1], hhOutcomes[..k + 1], sjOutcomes[..k + 1])
            == Extend(Collected(languages[..k], hhOutcomes[..k], sjOutcomes[..k]),
                      languages[k], hhOutcomes[k], sjOutcomes[k])
  {
    assert languages[..k + 1][..k] == languages[..k];
    assert hhOutcomes[..k + 1][..k] == hhOutcomes[..k];
    assert sjOutcomes[..k + 1][..k] == sjOutcomes[..k];
  }

  /** Once a prefix of the loop fails, the whole loop fails with that error. */
  lemma {:induction false} FailureAborts(languages: seq<string>, hhOutcomes: seq<Result<Stats, HttpError>>,
                                         sjOutcomes: seq<Result<Stats, HttpError>>, k: nat)
    requires |hhOutcomes| == |languages| && |sjOutcomes| == |languages|
    requires k <= |languages|
    requires Collected(languages[..k], hhOutcomes[..k], sjOutcomes[..k]).Err?
    ensures Collected(languages, hhOutcomes, sjOutcomes)
            == Collected(languages[..k], hhOutcomes[..k], sjOutcomes[..k])
    decreases |languages|
  {
    var n := |languages| - 1;
    if k <= n {
      assert languages[..n][..k] == languages[..k];
      assert hhOutcomes[..n][..k] == hhOutcomes[..k];
      assert sjOutcomes[..n][..k] == sjOutcomes[..k];
      FailureAborts(languages[..n], hhOutcomes[..n], sjOutcomes[..n], k);
    } else {
      assert languages[..k] == languages;
      assert hhOutcomes[..k] == hhOutcomes;
      assert sjOutcomes[..k] == sjOutcomes;
    }
  }

  /** The loop of `main` over the language list, for either source in turn. */
  method CollectStatistics(languages: seq<string>, hhFetch: HeadHunter.Fetch, sjFetch: SuperJob.Fetch,
                           token: string, period: int, ghost hhBound: nat, ghost sjBound: nat)
    returns (r: Result<(Dict, Dict), HttpError>)
    requires AllBounded(languages, hhFetch, sjFetch, token, period, hhBound, sjBound)
    ensures r == Collected(languages, HhOutcomes(languages, hhFetch, period, hhBound),
                           SjOutcomes(languages, sjFetch, token, period, sjBound))
  {
    ghost var hhOutcomes := HhOutcomes(languages, hhFetch, period, hhBound);
    ghost var sjOutcomes := SjOutcomes(languages, sjFetch, token, period, sjBound);
    var hhSalaryStatistics: Dict := [];
    var sjSalaryStatistics: Dict := [];
    for k := 0 to |languages|
      invariant Collected(languages[..k], hhOutcomes[..k], sjOutcomes[..k])
                == Ok((hhSalaryStatistics, sjSalaryStatistics))
    {
      var language := languages[k];
      assert language in languages;
      CollectedNext(languages, hhOutcomes, sjOutcomes, k);
      var vacancyKeyword := Keyword(language);
      var hh := HeadHunter.GetSalaryStatistics(hhFetch, vacancyKeyword, period, hhBound);
      assert hh == hhOutcomes[k];
      if hh.Err? {
        FailureAborts(languages, hhOutcomes, sjOutcomes, k + 1);
        return Err(hh.error);
      }
      var sj := SuperJob.GetSalaryStatistics(sjFetch, token, vacancyKeyword, period, sjBound);
      assert sj == sjOutcomes[k];
      if sj.Err? {
        FailureAborts(languages, hhOutcomes, sjOutcomes, k + 1);
        return Err(sj.error);
      }
      hhSalaryStatistics := Put(hhSalaryStatistics, language, hh.value);
      sjSalaryStatistics := Put(sjSalaryStatistics, language, sj.value);
    }
    assert languages[..|languages|] == languages;
    assert hhOutcomes[..|languages|] == hhOutcomes;
    assert sjOutcomes[..|languages|] == sjOutcomes;
    r := Ok((hhSalaryStatistics, sjSalaryStatistics));
  }

  /** No language appears twice, as in `PROGRAMMING_LANGUAGES`. */
  predicate Distinct(languages: seq<string>) {
    forall i, j :: 0 <= i < j < |languages| ==> languages[i] != languages[j]
  }

  /** `main`'s list has no repeats, so its dictionaries follow the list entry by entry. */
  lemma ProgrammingLanguagesDistinct()
    ensures Distinct(PROGRAMMING_LANGUAGES)
  {
  }

  lemma FreshKey(d: Dict, languages: seq<string>, n: nat)
    requires Distinct(languages) && n < |languages|
    requires |d| == n && forall i :: 0 <= i < n ==> d[i].0 == languages[i]
    ensures !HasKey(d, languages[n])
  {
  }

  /**
   * For a list without repetitions, a successful loop yields two
   * dictionaries keyed by the languages in list order, each holding, for
   * its language, what that source's search returned.
   */
  lemma {:induction false} CollectedInOrder(languages: seq<string>, hhOutcomes: seq<Result<Stats, HttpError>>,
                                            sjOutcomes: seq<Result<Stats, HttpError>>, hh: Dict, sj: Dict)
    requires |hhOutcomes| == |languages| && |sjOutcomes| == |languages|
    requires Distinct(languages)
    requires Collected(languages, hhOutcomes, sjOutcomes) == Ok((hh, sj))
    ensures |hh| == |languages| && |sj| == |languages|
    ensures forall i :: 0 <= i < |languages| ==>
              hh[i].0 == languages[i] && hhOutcomes[i] == Ok(hh[i].1)
              && sj[i].0 == languages[i] && sjOutcomes[i] == Ok(sj[i].1)
    decreases |languages|
  {
    if languages != [] {
      var n := |languages| - 1;
      var previous := Collected(languages[..n], hhOutcomes[..n], sjOutcomes[..n]);
      assert previous.Ok?;
      var hhFront, sjFront := previous.value.0, previous.value.1;
      assert Distinct(languages[..n]);
      CollectedInOrder(languages[..n], hhOutcomes[..n], sjOutcomes[..n], hhFront, sjFront);
      FreshKey(hhFront, languages, n);
      FreshKey(sjFront, languages, n);
      PutNew(hhFront, languages[n], hhOutcomes[n].value);
      PutNew(sjFront, languages[n], sjOutcomes[n].value);
    }
  }

  /**
   * `main`'s own call: over `PROGRAMMING_LANGUAGES`, with a period of
   * `PERIOD` days, a successful loop yields thirteen entries per source, in
   * list order, each the statistics that source reports for "Программист "
   * followed by the language.
   */
  lemma MainDictionaries(hhFetch: HeadHunter.Fetch, sjFetch: SuperJob.Fetch, token: string,
                         hhBound: nat, sjBound: nat, hh: Dict, sj: Dict)
    requires AllBounded(PROGRAMMING_LANGUAGES, hhFetch, sjFetch, token, PERIOD, hhBound, sjBound)
    requires Collected(PROGRAMMING_LANGUAGES, HhOutcomes(PROGRAMMING_LANGUAGES, hhFetch, PERIOD, hhBound),
                       SjOutcomes(PROGRAMMING_LANGUAGES, sjFetch, token, PERIOD, sjBound)) == Ok((hh, sj))
    ensures |hh| == 13 && |sj| == 13
    ensures forall i :: 0 <= i < 13 ==>
              var language := PROGRAMMING_LANGUAGES[i];
              hh[i].0 == language && sj[i].0 == language
              && HeadHunter.Statistics(hhFetch, Keyword(language), PERIOD, hhBound) == Ok(hh[i].1)
              && SuperJob.Statistics(sjFetch, token, Keyword(language), PERIOD, sjBound) == Ok(sj[i].1)
  {
    ProgrammingLanguagesDistinct();
    CollectedInOrder(PROGRAMMING_LANGUAGES, HhOutcomes(PROGRAMMING_LANGUAGES, hhFetch, PERIOD, hhBound),
                     SjOutcomes(PROGRAMMING_LANGUAGES, sjFetch, token, PERIOD, sjBound), hh, sj);
  }

  /**
   * An HTTP error from either source for any language of the list aborts
   * the whole loop: no dictionary is produced at all.
   */
  lemma AnyFailureAborts(languages: seq<string>, hhOutcomes: seq<Result<Stats, HttpError>>,
                         sjOutcomes: seq<Result<Stats, HttpError>>, i: nat)
    requires |hhOutcomes| == |languages| && |sjOutcomes| == |languages|
    requires i < |languages|
    requires hhOutcomes[i].Err? || sjOutcomes[i].Err?
    ensures Collected(languages, hhOutcomes, sjOutcomes).Err?
  {
    CollectedNext(languages, hhOutcomes, sjOutcomes, i);
    FailureAborts(languages, hhOutcomes, sjOutcomes, i + 1);
  }
}
