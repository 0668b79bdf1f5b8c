/** Concrete derivations with the catalog grammars, as the engine performs them. */
module Scenarios {
  import opened Wrappers
  import opened Symbols
  import opened Grammars
  import opened Catalog
  import opened Matcher
  import opened Heuristic
  import opened Simulator

  /** In `anbncn`, productions 2, 4 and 6 derive S ⇒ a B C ⇒ a b C ⇒ a b c, each at a genuine match. */
  lemma AnBnCnDerivesAbc()
    ensures var ps := AnBnCn.productions;
      var c1, c2, c3 := Candidate(ps[1], 1, 0), Candidate(ps[3], 3, 0), Candidate(ps[5], 5, 1);
      && IsCandidate(["S"], ps, c1) && Substitute(["S"], c1) == ["a", "B", "C"]
      && IsCandidate(["a", "B", "C"], ps, c2) && Substitute(["a", "B", "C"], c2) == ["a", "b", "C"]
      && IsCandidate(["a", "b", "C"], ps, c3) && Substitute(["a", "b", "C"], c3) == ["a", "b", "c"]
  {
  }

  /** In `balanced`, productions 1 and 3 derive S ⇒ ( S ) ⇒ ( ( ) ). */
  lemma BalancedDerivesNestedPair()
    ensures var ps := Balanced.productions;
      var c1, c2 := Candidate(ps[0], 0, 0), Candidate(ps[2], 2, 1);
      && IsCandidate(["S"], ps, c1) && Substitute(["S"], c1) == ["(", "S", ")"]
      && IsCandidate(["(", "S", ")"], ps, c2) && Substitute(["(", "S", ")"], c2) == ["(", "(", ")", ")"]
  {
  }

  // ---------------------------------------------------------------------------
  // Scanning short forms
  // ---------------------------------------------------------------------------

  lemma MatchAtElementwise(f: seq<Symbol>, pat: seq<Symbol>, q: nat)
    requires 1 <= |pat| <= 2 && q + |pat| <= |f|
    ensures IsMatchAt(f, pat, q) <==> f[q] == pat[0] && (|pat| == 2 ==> f[q + 1] == pat[1])
  {
    if |pat| == 2 && f[q] == pat[0] && f[q + 1] == pat[1] {
      assert f[q..q + 2] == [f[q], f[q + 1]];
    }
    if |pat| == 1 && f[q] == pat[0] {
      assert f[q..q + 1] == [f[q]];
    }
  }

  /** Position `q` as the scan reports it for a pattern of one or two symbols, read off symbol by symbol. */
  function Hit(f: seq<Symbol>, pat: seq<Symbol>, q: nat): seq<nat>
    requires 1 <= |pat| <= 2
  {
    if q + |pat| <= |f| && f[q] == pat[0] && (|pat| == 2 ==> f[q + 1] == pat[1]) then [q] else []
  }

  lemma HitIsMatch(f: seq<Symbol>, pat: seq<Symbol>, q: nat)
    requires 1 <= |pat| <= 2
    ensures Hit(f, pat, q) == if IsMatchAt(f, pat, q) then [q] else []
  {
    if q + |pat| <= |f| {
      MatchAtElementwise(f, pat, q);
    }
  }

  /** The scan of the first `n <= 4` positions, position by position. */
  lemma {:induction false} HitsBelow(f: seq<Symbol>, pat: seq<Symbol>, n: nat)
    requires 1 <= |pat| <= 2 && n <= 4
    ensures PositionsBelow(f, pat, n) ==
      (if 0 < n then Hit(f, pat, 0) else []) + (if 1 < n then Hit(f, pat, 1) else [])
      + (if 2 < n then Hit(f, pat, 2) else []) + (if 3 < n then Hit(f, pat, 3) else [])
  {
    if n > 0 {
      HitsBelow(f, pat, n - 1);
      HitIsMatch(f, pat, n - 1);
      assert PositionsBelow(f, pat, n) == PositionsBelow(f, pat, n - 1) + Hit(f, pat, n - 1);
    }
  }

  /** The match positions of a pattern of one or two symbols in a form of at most four symbols. */
  lemma SmallScan(f: seq<Symbol>, pat: seq<Symbol>)
    requires 1 <= |pat| <= 2 && |f| <= 4
    ensures MatchPositions(f, pat) == Hit(f, pat, 0) + Hit(f, pat, 1) + Hit(f, pat, 2) + Hit(f, pat, 3)
  {
    var n := ScanLength(f, pat);
    HitsBelow(f, pat, n);
    assert forall q: nat :: n <= q ==> Hit(f, pat, q) == [];
  }

  /** One more production's matches appended to the candidate list of a short form. */
  lemma ScanProduction(f: seq<Symbol>, ps: seq<Production>, n: nat, pat: seq<Symbol>, pos: seq<nat>)
    requires 0 < n <= |ps| && ps[n - 1].left == pat && 1 <= |pat| <= 2 && |f| <= 4
    requires pos == Hit(f, pat, 0) + Hit(f, pat, 1) + Hit(f, pat, 2) + Hit(f, pat, 3)
    ensures CandidatesBelow(f, ps, n) == CandidatesBelow(f, ps, n - 1) + Tagged(ps[n - 1], n - 1, pos)
  {
    SmallScan(f, pat);
  }

  // ---------------------------------------------------------------------------
  // Candidate lists of the forms the scenarios pass through
  // ---------------------------------------------------------------------------

  /** The six symbols of `anbncn` are pairwise different. */
  predicate SixDistinct(sS: Symbol, a: Symbol, b: Symbol, c: Symbol, bB: Symbol, cC: Symbol)
  {
    && sS != a && sS != b && sS != c && sS != bB && sS != cC
    && a != b && a != c && a != bB && a != cC
    && b != c && b != bB && b != cC
    && c != bB && c != cC
    && bB != cC
  }

  /** The left sides of the `anbncn` productions, and the right sides of productions 2, 4 and 6, over symbols S a b c B C. */
  predicate AnBnCnRules(ps: seq<Production>, sS: Symbol, a: Symbol, b: Symbol, c: Symbol, bB: Symbol, cC: Symbol)
  {
    && |ps| == 7 && ps[0].left == [sS] && ps[1].left == [sS] && ps[2].left == [cC, bB]
    && ps[3].left == [a, bB] && ps[4].left == [b, bB] && ps[5].left == [b, cC] && ps[6].left == [c, cC]
    && ps[1].right == [a, bB, cC] && ps[3].right == [a, b] && ps[5].right == [b, c]
  }

  /** The catalog's `anbncn` entry has that shape with its own six symbols. */
  lemma AnBnCnShape()
    ensures SixDistinct("S", "a", "b", "c", "B", "C")
    ensures AnBnCnRules(AnBnCn.productions, "S", "a", "b", "c", "B", "C")
  {
  }

  /** The three substitutions of the derivation of 'abc', and the history entries they produce. */
  lemma AbcSubstitutions(ps: seq<Production>, sS: Symbol, a: Symbol, b: Symbol, c: Symbol, bB: Symbol, cC: Symbol)
    requires AnBnCnRules(ps, sS, a, b, c, bB, cC)
    ensures Substitute([sS], Candidate(ps[1], 1, 0)) == [a, bB, cC]
    ensures Substitute([a, bB, cC], Candidate(ps[3], 3, 0)) == [a, b, cC]
    ensures Substitute([a, b, cC], Candidate(ps[5], 5, 1)) == [a, b, c]
  {
    var f: seq<Symbol> := [a, bB, cC];
    assert f[..0] == [] && f[2..] == [cC];
    f := [a, b, cC];
    assert f[..1] == [a] && f[3..] == [];
  }

  lemma AbcHistory()
    ensures Join(["S"], " ") == "S" && Join(["a", "B", "C"], " ") == "a B C"
    ensures Join(["a", "b", "C"], " ") == "a b C" && Join(["a", "b", "c"], " ") == "a b c"
  {
  }

  lemma CandidatesOfStart(ps: seq<Production>, sS: Symbol, a: Symbol, b: Symbol, c: Symbol, bB: Symbol, cC: Symbol)
    requires SixDistinct(sS, a, b, c, bB, cC) && AnBnCnRules(ps, sS, a, b, c, bB, cC)
    ensures Candidates([sS], ps) == [Candidate(ps[0], 0, 0), Candidate(ps[1], 1, 0)]
  {
    var f: seq<Symbol> := [sS];
    ScanProduction(f, ps, 1, [sS], [0]);
    ScanProduction(f, ps, 2, [sS], [0]);
    ScanProduction(f, ps, 3, [cC, bB], []);
    ScanProduction(f, ps, 4, [a, bB], []);
    ScanProduction(f, ps, 5, [b, bB], []);
    ScanProduction(f, ps, 6, [b, cC], []);
    ScanProduction(f, ps, 7, [c, cC], []);
    assert Tagged(ps[0], 0, [0]) == [Candidate(ps[0], 0, 0)];
    assert Tagged(ps[1], 1, [0]) == [Candidate(ps[1], 1, 0)];
  }

  lemma CandidatesOfABigC(ps: seq<Production>, sS: Symbol, a: Symbol, b: Symbol, c: Symbol, bB: Symbol, cC: Symbol)
    requires SixDistinct(sS, a, b, c, bB, cC) && AnBnCnRules(ps, sS, a, b, c, bB, cC)
    ensures Candidates([a, bB, cC], ps) == [Candidate(ps[3], 3, 0)]
  {
    var f: seq<Symbol> := [a, bB, cC];
    ScanProduction(f, ps, 1, [sS], []);
    ScanProduction(f, ps, 2, [sS], []);
    ScanProduction(f, ps, 3, [cC, bB], []);
    ScanProduction(f, ps, 4, [a, bB], [0]);
    ScanProduction(f, ps, 5, [b, bB], []);
    ScanProduction(f, ps, 6, [b, cC], []);
    ScanProduction(f, ps, 7, [c, cC], []);
    assert Tagged(ps[3], 3, [0]) == [Candidate(ps[3], 3, 0)];
  }

  lemma CandidatesOfAbBigC(ps: seq<Production>, sS: Symbol, a: Symbol, b: Symbol, c: Symbol, bB: Symbol, cC: Symbol)
    requires SixDistinct(sS, a, b, c, bB, cC) && AnBnCnRules(ps, sS, a, b, c, bB, cC)
    ensures Candidates([a, b, cC], ps) == [Candidate(ps[5], 5, 1)]
  {
    var f: seq<Symbol> := [a, b, cC];
    ScanProduction(f, ps, 1, [sS], []);
    ScanProduction(f, ps, 2, [sS], []);
    ScanProduction(f, ps, 3, [cC, bB], []);
    ScanProduction(f, ps, 4, [a, bB], []);
    ScanProduction(f, ps, 5, [b, bB], []);
    ScanProduction(f, ps, 6, [b, cC], [1]);
    ScanProduction(f, ps, 7, [c, cC], []);
    assert Tagged(ps[5], 5, [1]) == [Candidate(ps[5], 5, 1)];
  }

  /** A generate-mode step that applies `c`: the new form, one more history entry, and the terminal check. */
  method GenerateStep(e: Engine, rand: real, c: Candidate) returns (more: bool)
    requires 0.0 <= rand < 1.0 && e.mode == Generate && e.currentStep < e.maxSteps
    requires e.Applicable() != [] && e.Chosen(rand) == c
    modifies e
    ensures e.currentGrammar == old(e.currentGrammar) && e.mode == Generate && e.maxSteps == old(e.maxSteps)
    ensures e.currentStep == old(e.currentStep) + 1
    ensures e.sententialForm == Substitute(old(e.sententialForm), c)
    ensures e.derivationHistory == old(e.derivationHistory) + [Join(e.sententialForm, " ")]
    ensures more <==> !e.IsTerminalString()
    ensures !more ==> e.result == Accepted && e.isAccepted
  {
    more := e.Step(rand);
  }

  /** The engine in generate mode with grammar `g` and a budget of 10, at the given form, history and step. */
  predicate Generating(e: Engine, g: Grammar, form: seq<Symbol>, history: seq<string>, step: nat)
    reads e
  {
    && e.currentGrammar == Some(g) && e.mode == Generate && e.maxSteps == 10
    && e.sententialForm == form && e.derivationHistory == history && e.currentStep == step
  }

  /** Draw 0.5 picks the second of the two candidates of S, production 2. */
  method AbcFirstStep(e: Engine, g: Grammar, sS: Symbol, a: Symbol, b: Symbol, c: Symbol, bB: Symbol, cC: Symbol,
                      h: seq<string>)
    requires SixDistinct(sS, a, b, c, bB, cC) && AnBnCnRules(g.productions, sS, a, b, c, bB, cC)
    requires Generating(e, g, [sS], h, 0)
    modifies e
    ensures Generating(e, g, [a, bB, cC], h + [Join([a, bB, cC], " ")], 1)
  {
    var ps := g.productions;
    CandidatesOfStart(ps, sS, a, b, c, bB, cC);
    AbcSubstitutions(ps, sS, a, b, c, bB, cC);
    assert RandomIndex(0.5, 2) == 1;
    assert e.Chosen(0.5) == Candidate(ps[1], 1, 0);
    var more := GenerateStep(e, 0.5, Candidate(ps[1], 1, 0));
  }

  /** The only candidate of a B C is production 4 at position 0. */
  method AbcSecondStep(e: Engine, g: Grammar, sS: Symbol, a: Symbol, b: Symbol, c: Symbol, bB: Symbol, cC: Symbol,
                       h: seq<string>)
    requires SixDistinct(sS, a, b, c, bB, cC) && AnBnCnRules(g.productions, sS, a, b, c, bB, cC)
    requires Generating(e, g, [a, bB, cC], h, 1)
    modifies e
    ensures Generating(e, g, [a, b, cC], h + [Join([a, b, cC], " ")], 2)
  {
    var ps := g.productions;
    CandidatesOfABigC(ps, sS, a, b, c, bB, cC);
    AbcSubstitutions(ps, sS, a, b, c, bB, cC);
    assert RandomIndex(0.0, 1) == 0;
    assert e.Chosen(0.0) == Candidate(ps[3], 3, 0);
    var more := GenerateStep(e, 0.0, Candidate(ps[3], 3, 0));
  }

  /** The only candidate of a b C is production 6 at position 1, and it leaves a terminal form. */
  method AbcThirdStep(e: Engine, g: Grammar, sS: Symbol, a: Symbol, b: Symbol, c: Symbol, bB: Symbol, cC: Symbol,
                      h: seq<string>) returns (more: bool)
    requires SixDistinct(sS, a, b, c, bB, cC) && AnBnCnRules(g.productions, sS, a, b, c, bB, cC)
    requires a in g.terminals && b in g.terminals && c in g.terminals
    requires Generating(e, g, [a, b, cC], h, 2)
    modifies e
    ensures Generating(e, g, [a, b, c], h + [Join([a, b, c], " ")], 3)
    ensures !more && e.result == Accepted && e.isAccepted
  {
    var ps := g.productions;
    CandidatesOfAbBigC(ps, sS, a, b, c, bB, cC);
    AbcSubstitutions(ps, sS, a, b, c, bB, cC);
    assert RandomIndex(0.0, 1) == 0;
    assert e.Chosen(0.0) == Candidate(ps[5], 5, 1);
    more := GenerateStep(e, 0.0, Candidate(ps[5], 5, 1));
    assert forall i :: 0 <= i < |e.sententialForm| ==> e.sententialForm[i] in [a, b, c];
  }

  /** Generate mode with `anbncn` and a budget of 10 reaches 'abc' in three steps for the draws 0.5, 0 and 0. */
  method GenerateAbc() returns (e: Engine)
    ensures e.result == Accepted && e.isAccepted && e.sententialForm == ["a", "b", "c"]
    ensures e.currentStep == 3 && e.derivationHistory == ["S", "a B C", "a b C", "a b c"]
  {
    e := new Engine();
    e.Start(Some(10), "");
    AnBnCnShape();
    AbcHistory();
    var g := AnBnCn;
    assert "a" in g.terminals && "b" in g.terminals && "c" in g.terminals;
    AbcFirstStep(e, g, "S", "a", "b", "c", "B", "C", ["S"]);
    AbcSecondStep(e, g, "S", "a", "b", "c", "B", "C", ["S", "a B C"]);
    var more := AbcThirdStep(e, g, "S", "a", "b", "c", "B", "C", ["S", "a B C", "a b C"]);
  }

  // ---------------------------------------------------------------------------
  // Validate mode: 'balanced' recognises "(())"
  // ---------------------------------------------------------------------------

  /** The productions of `balanced` over symbols S, ( and ): three rules rewriting S. */
  predicate BalancedRules(ps: seq<Production>, sS: Symbol, l: Symbol, r: Symbol)
  {
    && |ps| == 3 && ps[0].left == [sS] && ps[1].left == [sS] && ps[2].left == [sS]
    && ps[0].right == [l, sS, r] && ps[1].right == [sS, sS] && ps[2].right == [l, r]
  }

  lemma BalancedShape()
    ensures BalancedRules(Balanced.productions, "S", "(", ")")
    ensures "S" != "(" && "S" != ")" && Balanced.nonTerminals == ["S"]
  {
  }

  lemma BalancedCandidates(ps: seq<Production>, sS: Symbol, l: Symbol, r: Symbol)
    requires BalancedRules(ps, sS, l, r) && sS != l && sS != r
    ensures Candidates([sS], ps) == [Candidate(ps[0], 0, 0), Candidate(ps[1], 1, 0), Candidate(ps[2], 2, 0)]
    ensures Candidates([l, sS, r], ps) == [Candidate(ps[0], 0, 1), Candidate(ps[1], 1, 1), Candidate(ps[2], 2, 1)]
  {
    var f: seq<Symbol> := [sS];
    ScanProduction(f, ps, 1, [sS], [0]);
    ScanProduction(f, ps, 2, [sS], [0]);
    ScanProduction(f, ps, 3, [sS], [0]);
    assert Tagged(ps[0], 0, [0]) == [Candidate(ps[0], 0, 0)];
    assert Tagged(ps[1], 1, [0]) == [Candidate(ps[1], 1, 0)];
    assert Tagged(ps[2], 2, [0]) == [Candidate(ps[2], 2, 0)];
    f := [l, sS, r];
    ScanProduction(f, ps, 1, [sS], [1]);
    ScanProduction(f, ps, 2, [sS], [1]);
    ScanProduction(f, ps, 3, [sS], [1]);
    assert Tagged(ps[0], 0, [1]) == [Candidate(ps[0], 0, 1)];
    assert Tagged(ps[1], 1, [1]) == [Candidate(ps[1], 1, 1)];
    assert Tagged(ps[2], 2, [1]) == [Candidate(ps[2], 2, 1)];
  }

  /** A form's spelling and nonterminal count, one symbol at a time. */
  lemma UnfoldForm(f: seq<Symbol>, nonTerminals: seq<Symbol>)
    requires f != []
    ensures Flatten(f) == f[0] + Flatten(f[1..])
    ensures NonTerminalCount(f, nonTerminals) == (if f[0] in nonTerminals then 1 else 0) + NonTerminalCount(f[1..], nonTerminals)
  {
  }

  /** ( S ) scores 13 against "(())": two agreeing characters, one too short, one nonterminal. */
  lemma ScoreOfParenS()
    ensures Flatten(["(", "S", ")"]) == "(S)"
    ensures Score(["(", "S", ")"], "(())", ["S"]) == 13
  {
    var f: seq<Symbol> := ["(", "S", ")"];
    UnfoldForm(f, ["S"]);
    assert f[1..] == ["S", ")"];
    UnfoldForm(f[1..], ["S"]);
    assert f[2..] == [")"];
    UnfoldForm(f[2..], ["S"]);
    assert f[3..] == [];
    assert Flatten(f) == "(S)";
    assert AgreeCount("(S)", "(())", 3) == 2;
  }

  lemma ScoreOfSS()
    ensures Score(["S", "S"], "(())", ["S"]) == -14
  {
    var f: seq<Symbol> := ["S", "S"];
    UnfoldForm(f, ["S"]);
    assert f[1..] == ["S"];
    UnfoldForm(f[1..], ["S"]);
    assert f[2..] == [];
    assert Flatten(f) == "SS";
    assert AgreeCount("SS", "(())", 2) == 0;
  }

  lemma ScoreOfPair()
    ensures Score(["(", ")"], "(())", ["S"]) == 6
  {
    var f: seq<Symbol> := ["(", ")"];
    UnfoldForm(f, ["S"]);
    assert f[1..] == [")"];
    UnfoldForm(f[1..], ["S"]);
    assert f[2..] == [];
    assert Flatten(f) == "()";
    assert AgreeCount("()", "(())", 2) == 1;
  }

  lemma ScoreOfDoubleNest()
    ensures Score(["(", "(", "S", ")", ")"], "(())", ["S"]) == 23
  {
    var f: seq<Symbol> := ["(", "(", "S", ")", ")"];
    UnfoldForm(f, ["S"]);
    assert f[1..] == ["(", "S", ")", ")"];
    UnfoldForm(f[1..], ["S"]);
    assert f[2..] == ["S", ")", ")"];
    UnfoldForm(f[2..], ["S"]);
    assert f[3..] == [")", ")"];
    UnfoldForm(f[3..], ["S"]);
    assert f[4..] == [")"];
    UnfoldForm(f[4..], ["S"]);
    assert f[5..] == [];
    assert Flatten(f) == "((S))";
    assert AgreeCount("((S))", "(())", 4) == 3;
  }

  lemma ScoreOfParenSS()
    ensures Score(["(", "S", "S", ")"], "(())", ["S"]) == 10
  {
    var f: seq<Symbol> := ["(", "S", "S", ")"];
    UnfoldForm(f, ["S"]);
    assert f[1..] == ["S", "S", ")"];
    UnfoldForm(f[1..], ["S"]);
    assert f[2..] == ["S", ")"];
    UnfoldForm(f[2..], ["S"]);
    assert f[3..] == [")"];
    UnfoldForm(f[3..], ["S"]);
    assert f[4..] == [];
    assert Flatten(f) == "(SS)";
    assert AgreeCount("(SS)", "(())", 4) == 2;
  }

  lemma ScoreOfNestedPair()
    ensures Flatten(["(", "(", ")", ")"]) == "(())"
    ensures Score(["(", "(", ")", ")"], "(())", ["S"]) == 40
  {
    var f: seq<Symbol> := ["(", "(", ")", ")"];
    UnfoldForm(f, ["S"]);
    assert f[1..] == ["(", ")", ")"];
    UnfoldForm(f[1..], ["S"]);
    assert f[2..] == [")", ")"];
    UnfoldForm(f[2..], ["S"]);
    assert f[3..] == [")"];
    UnfoldForm(f[3..], ["S"]);
    assert f[4..] == [];
    assert Flatten(f) == "(())";
    assert AgreeCount("(())", "(())", 4) == 4;
  }

  /** The rewrites of S and of ( S ) by the three rules of `balanced`. */
  lemma NestedPairSubstitutions(ps: seq<Production>, sS: Symbol, l: Symbol, r: Symbol)
    requires BalancedRules(ps, sS, l, r)
    ensures Substitute([sS], Candidate(ps[0], 0, 0)) == [l, sS, r]
    ensures Substitute([sS], Candidate(ps[1], 1, 0)) == [sS, sS]
    ensures Substitute([sS], Candidate(ps[2], 2, 0)) == [l, r]
    ensures Substitute([l, sS, r], Candidate(ps[0], 0, 1)) == [l, l, sS, r, r]
    ensures Substitute([l, sS, r], Candidate(ps[1], 1, 1)) == [l, sS, sS, r]
    ensures Substitute([l, sS, r], Candidate(ps[2], 2, 1)) == [l, l, r, r]
  {
    var f: seq<Symbol> := [sS];
    assert f[..0] == [] && f[1..] == [];
    f := [l, sS, r];
    assert f[..1] == [l] && f[2..] == [r];
  }

  /** How the engine records the forms of the derivation of "(())". */
  lemma NestedPairHistory()
    ensures Join(["S"], " ") == "S" && Join(["(", "S", ")"], " ") == "( S )"
    ensures Join(["(", "(", ")", ")"], " ") == "( ( ) )"
  {
    var f: seq<Symbol> := ["(", "(", ")", ")"];
    assert f[1..] == ["(", ")", ")"] && f[2..] == [")", ")"] && f[3..] == [")"];
    assert f[1..][1..] == f[2..] && f[2..][1..] == f[3..];
  }

  /** The selection on the two score lists of this derivation. */
  lemma NestedPairSelections()
    ensures FirstBest([13, -14, 6]) == 0 && FirstBest([23, 10, 40]) == 2
  {
  }

  /** From S the heuristic scores ( S ), S S and ( ) against "(())" as 13, -14 and 6, and keeps the first. */
  lemma NestedPairFirstChoice(ps: seq<Production>)
    requires BalancedRules(ps, "S", "(", ")")
    ensures var cs := [Candidate(ps[0], 0, 0), Candidate(ps[1], 1, 0), Candidate(ps[2], 2, 0)];
      Scores(["S"], cs, "(())", ["S"]) == [13, -14, 6] && FirstBest([13, -14, 6]) == 0
  {
    var cs := [Candidate(ps[0], 0, 0), Candidate(ps[1], 1, 0), Candidate(ps[2], 2, 0)];
    NestedPairSubstitutions(ps, "S", "(", ")");
    ScoreOfParenS();
    ScoreOfSS();
    ScoreOfPair();
    NestedPairSelections();
    ThreeScores(["S"], cs, "(())", ["S"], 13, -14, 6);
  }

  /** From ( S ) the scores of ( ( S ) ), ( S S ) and ( ( ) ) are 23, 10 and 40, and the exact match wins. */
  lemma NestedPairSecondChoice(ps: seq<Production>)
    requires BalancedRules(ps, "S", "(", ")")
    ensures var cs := [Candidate(ps[0], 0, 1), Candidate(ps[1], 1, 1), Candidate(ps[2], 2, 1)];
      Scores(["(", "S", ")"], cs, "(())", ["S"]) == [23, 10, 40] && FirstBest([23, 10, 40]) == 2
  {
    var cs := [Candidate(ps[0], 0, 1), Candidate(ps[1], 1, 1), Candidate(ps[2], 2, 1)];
    var f: seq<Symbol> := ["(", "S", ")"];
    NestedPairSubstitutions(ps, "S", "(", ")");
    NestedPairSelections();
    ScoreOfDoubleNest();
    ScoreOfParenSS();
    ScoreOfNestedPair();
    ThreeScores(f, cs, "(())", ["S"], 23, 10, 40);
  }

  /** A list of three candidates scores as its three resulting forms do. */
  lemma ThreeScores(f: seq<Symbol>, cs: seq<Candidate>, target: string, nonTerminals: seq<Symbol>, v0: int, v1: int, v2: int)
    requires |cs| == 3
    requires Score(Substitute(f, cs[0]), target, nonTerminals) == v0
    requires Score(Substitute(f, cs[1]), target, nonTerminals) == v1
    requires Score(Substitute(f, cs[2]), target, nonTerminals) == v2
    ensures Scores(f, cs, target, nonTerminals) == [v0, v1, v2]
  {
  }

  /** A validate-mode step that applies `c`: the new form, one more history entry, and the two target checks. */
  method ValidateStep(e: Engine, c: Candidate) returns (more: bool)
    requires e.mode == Validate && e.currentStep < e.maxSteps
    requires e.Applicable() != [] && e.Chosen(0.0) == c
    modifies e
    ensures e.currentGrammar == old(e.currentGrammar) && e.mode == Validate && e.maxSteps == old(e.maxSteps)
    ensures e.targetString == old(e.targetString) && e.currentStep == old(e.currentStep) + 1
    ensures e.sententialForm == Substitute(old(e.sententialForm), c)
    ensures e.derivationHistory == old(e.derivationHistory) + [Join(e.sententialForm, " ")]
    ensures more <==> Flatten(e.sententialForm) != e.targetString && |Flatten(e.sententialForm)| <= 2 * |e.targetString|
    ensures !more ==> e.isAccepted == (Flatten(e.sententialForm) == e.targetString)
    ensures !more ==> e.result == if e.isAccepted then Accepted else Rejected
  {
    more := e.Step(0.0);
  }

  /** The engine in validate mode with grammar `g` and the target "(())", at the given form, history and step. */
  predicate Validating(e: Engine, g: Grammar, form: seq<Symbol>, history: seq<string>, step: nat)
    reads e
  {
    && e.currentGrammar == Some(g) && e.mode == Validate && e.maxSteps == 40 && e.targetString == "(())"
    && e.sententialForm == form && e.derivationHistory == history && e.currentStep == step
  }

  /** From S the heuristic picks production 1, giving ( S ), which is neither the target nor too long. */
  method NestedPairFirstStep(e: Engine, g: Grammar, h: seq<string>)
    requires BalancedRules(g.productions, "S", "(", ")") && g.nonTerminals == ["S"]
    requires Validating(e, g, ["S"], h, 0)
    modifies e
    ensures Validating(e, g, ["(", "S", ")"], h + [Join(["(", "S", ")"], " ")], 1)
  {
    var ps := g.productions;
    BalancedShape();
    BalancedCandidates(ps, "S", "(", ")");
    NestedPairFirstChoice(ps);
    NestedPairSubstitutions(ps, "S", "(", ")");
    assert e.Chosen(0.0) == Candidate(ps[0], 0, 0);
    var more := ValidateStep(e, Candidate(ps[0], 0, 0));
  }

  /** From ( S ) the heuristic picks production 3, giving ( ( ) ), which spells the target. */
  method NestedPairSecondStep(e: Engine, g: Grammar, h: seq<string>) returns (more: bool)
    requires BalancedRules(g.productions, "S", "(", ")") && g.nonTerminals == ["S"]
    requires Validating(e, g, ["(", "S", ")"], h, 1)
    modifies e
    ensures Validating(e, g, ["(", "(", ")", ")"], h + [Join(["(", "(", ")", ")"], " ")], 2)
    ensures !more && e.result == Accepted && e.isAccepted
  {
    var ps := g.productions;
    BalancedShape();
    BalancedCandidates(ps, "S", "(", ")");
    NestedPairSecondChoice(ps);
    NestedPairSubstitutions(ps, "S", "(", ")");
    ScoreOfNestedPair();
    assert e.Chosen(0.0) == Candidate(ps[2], 2, 1);
    more := ValidateStep(e, Candidate(ps[2], 2, 1));
  }

  /** Validate mode with `balanced` accepts "(())" in two steps: S ⇒ ( S ) ⇒ ( ( ) ). */
  method ValidateNestedPair() returns (e: Engine)
    ensures e.result == Accepted && e.isAccepted && e.sententialForm == ["(", "(", ")", ")"]
    ensures e.currentStep == 2 && e.derivationHistory == ["S", "( S )", "( ( ) )"]
  {
    e := new Engine();
    e.SelectGrammar("balanced");
    e.SelectMode(Validate);
    e.Start(None, "(())");
    BalancedShape();
    NestedPairHistory();
    var g := Balanced;
    NestedPairFirstStep(e, g, ["S"]);
    var more := NestedPairSecondStep(e, g, ["S", "( S )"]);
  }
}
