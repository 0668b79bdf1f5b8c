/**
 * The scoring heuristic of `selectBestProduction` (csg-simulator.js) as functions: the score
 * of a hypothetical next form against the target, and which candidate the selection loop keeps.
 */
module Heuristic {
  import opened Symbols
  import opened Matcher

  function Min(a: int, b: int): int
  {
    if a <= b then a else b
  }

  function Abs(x: int): nat
  {
    if x < 0 then -x else x
  }

  /** The number of indices `i < n` where the two strings hold the same character. */
  function AgreeCount(s: string, t: string, n: nat): (k: nat)
    requires n <= |s| && n <= |t|
    ensures k <= n
  {
    if n == 0 then 0 else AgreeCount(s, t, n - 1) + (if s[n - 1] == t[n - 1] then 1 else 0)
  }

  /** All of the first `n` characters agree exactly when the prefixes are equal. */
  lemma {:induction false} AgreeCountFull(s: string, t: string, n: nat)
    requires n <= |s| && n <= |t|
    ensures AgreeCount(s, t, n) == n <==> s[..n] == t[..n]
  {
    if n > 0 {
      AgreeCountFull(s, t, n - 1);
      assert s[..n] == s[..n - 1] + [s[n - 1]];
      assert t[..n] == t[..n - 1] + [t[n - 1]];
      if s[..n] == t[..n] {
        assert s[..n][..n - 1] == s[..n - 1];
        assert t[..n][..n - 1] == t[..n - 1];
        assert s[..n][n - 1] == s[n - 1];
      }
    }
  }

  /** `form.filter(s => nonTerminals.includes(s)).length`. */
  function NonTerminalCount(form: seq<Symbol>, nonTerminals: seq<Symbol>): (k: nat)
    ensures k <= |form|
    ensures k == 0 <==> forall i :: 0 <= i < |form| ==> form[i] !in nonTerminals
  {
    if form == [] then 0
    else (if form[0] in nonTerminals then 1 else 0) + NonTerminalCount(form[1..], nonTerminals)
  }

  /**
   * The score of a hypothetical next form: +10 per agreeing character of the glued string,
   * -2 per unit of length difference, -5 per remaining nonterminal.
   */
  function Score(form: seq<Symbol>, target: string, nonTerminals: seq<Symbol>): int
  {
    var s := Flatten(form);
    10 * AgreeCount(s, target, Min(|s|, |target|)) - 2 * Abs(|s| - |target|)
      - 5 * NonTerminalCount(form, nonTerminals)
  }

  /**
   * No form scores more than 10 points per target character, and a form reaches that score
   * exactly when it spells the target and holds no nonterminal.
   */
  lemma ScoreBound(form: seq<Symbol>, target: string, nonTerminals: seq<Symbol>)
    ensures Score(form, target, nonTerminals) <= 10 * |target|
    ensures Score(form, target, nonTerminals) == 10 * |target| <==>
      Flatten(form) == target && NonTerminalCount(form, nonTerminals) == 0
  {
    var s := Flatten(form);
    var m := Min(|s|, |target|);
    var a := AgreeCount(s, target, m);
    if |s| == |target| {
      AgreeCountFull(s, target, m);
      assert s[..m] == s && target[..m] == target;
    }
  }

  /** The score of every candidate's resulting form, in candidate order. */
  function Scores(form: seq<Symbol>, cs: seq<Candidate>, target: string, nonTerminals: seq<Symbol>): (r: seq<int>)
    ensures |r| == |cs|
    ensures forall i :: 0 <= i < |cs| ==> r[i] == Score(Substitute(form, cs[i]), target, nonTerminals)
  {
    seq(|cs|, i requires 0 <= i < |cs| => Score(Substitute(form, cs[i]), target, nonTerminals))
  }

  /** The selection loop from index `i` on, holding the best score and its index so far. */
  function FirstBestFrom(scores: seq<int>, i: nat, bestScore: int, bestIndex: nat): (k: nat)
    requires i <= |scores|
    ensures bestIndex < |scores| ==> k < |scores|
    decreases |scores| - i
  {
    if i == |scores| then bestIndex
    else if scores[i] > bestScore then FirstBestFrom(scores, i + 1, scores[i], i)
    else FirstBestFrom(scores, i + 1, bestScore, bestIndex)
  }

  /** The index the selection keeps: it starts from score -1 at index 0 and keeps the first strictly better score. */
  function FirstBest(scores: seq<int>): (k: nat)
    ensures |scores| > 0 ==> k < |scores|
  {
    FirstBestFrom(scores, 0, -1, 0)
  }

  /**
   * What the selection promises: the first candidate of strictly maximal score when that maximum
   * exceeds -1, and the first candidate otherwise.
   */
  predicate IsSelection(scores: seq<int>, k: nat)
  {
    k < |scores| &&
    ( (&& scores[k] > -1
       && (forall j :: 0 <= j < |scores| ==> scores[j] <= scores[k])
       && (forall j :: 0 <= j < k ==> scores[j] < scores[k]))
      || (k == 0 && forall j :: 0 <= j < |scores| ==> scores[j] <= -1))
  }

  /** The state of the selection loop after the first `i` candidates. */
  predicate SelectionSoFar(scores: seq<int>, i: nat, bestScore: int, bestIndex: nat)
    requires i <= |scores|
  {
    || (bestScore == -1 && bestIndex == 0 && forall j :: 0 <= j < i ==> scores[j] <= -1)
    || (&& bestIndex < i && bestScore == scores[bestIndex] && bestScore > -1
        && (forall j :: 0 <= j < i ==> scores[j] <= bestScore)
        && (forall j :: 0 <= j < bestIndex ==> scores[j] < bestScore))
  }

  lemma {:induction false} FirstBestFromSelects(scores: seq<int>, i: nat, bestScore: int, bestIndex: nat)
    requires 0 < |scores| && i <= |scores|
    requires SelectionSoFar(scores, i, bestScore, bestIndex)
    ensures IsSelection(scores, FirstBestFrom(scores, i, bestScore, bestIndex))
    decreases |scores| - i
  {
    if i < |scores| {
      if scores[i] > bestScore {
        FirstBestFromSelects(scores, i + 1, scores[i], i);
      } else {
        FirstBestFromSelects(scores, i + 1, bestScore, bestIndex);
      }
    }
  }

  /** The selection over a non-empty list is an index of it with the promised property. */
  lemma FirstBestIsSelection(scores: seq<int>)
    requires |scores| > 0
    ensures IsSelection(scores, FirstBest(scores))
  {
    FirstBestFromSelects(scores, 0, -1, 0);
  }

  /**
   * One-step lookahead is exact when it can be: if some candidate yields a terminal form spelling
   * the target, the selected candidate (the first such one) yields such a form too.
   */
  lemma ExactCandidateWins(form: seq<Symbol>, cs: seq<Candidate>, target: string, nonTerminals: seq<Symbol>, j: nat)
    requires j < |cs|
    requires Flatten(Substitute(form, cs[j])) == target
    requires NonTerminalCount(Substitute(form, cs[j]), nonTerminals) == 0
    ensures var k := FirstBest(Scores(form, cs, target, nonTerminals));
      && k <= j
      && Flatten(Substitute(form, cs[k])) == target
      && NonTerminalCount(Substitute(form, cs[k]), nonTerminals) == 0
  {
    var scores := Scores(form, cs, target, nonTerminals);
    var k := FirstBest(scores);
    FirstBestIsSelection(scores);
    ScoreBound(Substitute(form, cs[j]), target, nonTerminals);
    ScoreBound(Substitute(form, cs[k]), target, nonTerminals);
  }

  /** The score loop of `selectBestProduction`, lines 448-468, for one hypothetical form. */
  method ScoreForm(newForm: seq<Symbol>, target: string, nonTerminals: seq<Symbol>) returns (score: int)
    ensures score == Score(newForm, target, nonTerminals)
  {
    var newStr := Flatten(newForm);
    score := 0;
    var minLen := Min(|newStr|, |target|);
    var i := 0;
    while i < minLen
      invariant 0 <= i <= minLen
      invariant score == 10 * AgreeCount(newStr, target, i)
    {
      if newStr[i] == target[i] {
        score := score + 10;
      }
      i := i + 1;
    }
    score := score - Abs(|newStr| - |target|) * 2;
    var nonTerminalsLeft := NonTerminalCount(newForm, nonTerminals);
    score := score - nonTerminalsLeft * 5;
  }
}
