/**
 * The fuzzy-matching library (thefuzz / fuzzywuzzy) as the core sees it.
 * Its scorers (`WRatio`, `token_sort_ratio`) are not modelled: a scorer is a
 * parameter returning a similarity between 0 and 100. `process.extractOne`
 * is modelled as the choice whose score is highest, the earliest one on a tie.
 */
module Fuzzy {
  import opened Base

  type Score = x: int | 0 <= x <= 100

  /** A similarity function such as `fuzz.WRatio` or `fuzz.token_sort_ratio`. */
  type Scorer = (string, string) -> Score

  /** What `process.extractOne` returns: the best choice and its score. */
  datatype Match = Match(choice: string, score: Score)

  /**
   * `c` is the choice `extractOne` settles on: it scores at least as high as
   * every choice, and every choice listed before it scores strictly lower.
   */
  predicate FirstBest(query: string, choices: seq<string>, scorer: Scorer, c: string)
  {
    && (forall j :: 0 <= j < |choices| ==> scorer(query, choices[j]) <= scorer(query, c))
    && exists k :: 0 <= k < |choices| && choices[k] == c
                   && forall j :: 0 <= j < k ==> scorer(query, choices[j]) < scorer(query, c)
  }

  /** Ties are broken by position, so at most one choice is the first best. */
  lemma FirstBestUnique(query: string, choices: seq<string>, scorer: Scorer, c: string, d: string)
    requires FirstBest(query, choices, scorer, c) && FirstBest(query, choices, scorer, d)
    ensures c == d
  {
    var k :| 0 <= k < |choices| && choices[k] == c
             && forall j :: 0 <= j < k ==> scorer(query, choices[j]) < scorer(query, c);
    var m :| 0 <= m < |choices| && choices[m] == d
             && forall j :: 0 <= j < m ==> scorer(query, choices[j]) < scorer(query, d);
    assert k == m;
  }

  /** Index of the earliest choice with the highest score. */
  function BestIndex(query: string, choices: seq<string>, scorer: Scorer): (k: nat)
    requires |choices| > 0
    ensures k < |choices|
    ensures forall j :: 0 <= j < |choices| ==> scorer(query, choices[j]) <= scorer(query, choices[k])
    ensures forall j :: 0 <= j < k ==> scorer(query, choices[j]) < scorer(query, choices[k])
  {
    if |choices| == 1 then 0
    else
      var k := BestIndex(query, choices[..|choices| - 1], scorer);
      if scorer(query, choices[|choices| - 1]) > scorer(query, choices[k]) then |choices| - 1 else k
  }

  /** `process.extractOne(query, choices)`: None exactly when there is nothing to choose from. */
  function ExtractOne(query: string, choices: seq<string>, scorer: Scorer): (r: Option<Match>)
    ensures r.None? <==> choices == []
    ensures r.Some? ==> r.value.choice in choices && r.value.score == scorer(query, r.value.choice)
    ensures r.Some? ==> forall c :: c in choices ==> scorer(query, c) <= r.value.score
    ensures r.Some? ==> exists k :: 0 <= k < |choices| && choices[k] == r.value.choice
                                    && forall j :: 0 <= j < k ==> scorer(query, choices[j]) < r.value.score
    ensures r.Some? ==> FirstBest(query, choices, scorer, r.value.choice)
  {
    if choices == [] then None
    else
      var k := BestIndex(query, choices, scorer);
      Some(Match(choices[k], scorer(query, choices[k])))
  }

  /**
   * `result = process.extractOne(query, choices)` followed by
   * `result[0] if result[1] > floor else None`: the best choice, provided
   * some choice scores strictly above the floor.
   */
  function ExtractAbove(query: string, choices: seq<string>, scorer: Scorer, floor: int): (r: Option<string>)
    requires choices != []
    ensures r.Some? <==> exists c :: c in choices && scorer(query, c) > floor
    ensures r.Some? ==> r.value in choices && scorer(query, r.value) > floor
    ensures r.Some? ==> forall c :: c in choices ==> scorer(query, c) <= scorer(query, r.value)
    ensures r.Some? ==> FirstBest(query, choices, scorer, r.value)
  {
    var best := ExtractOne(query, choices, scorer).value;
    if best.score > floor then Some(best.choice) else None
  }
}
