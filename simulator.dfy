/**
 * The derivation engine of `CSGSimulator` (csg-simulator.js): the fields it owns and the
 * methods that change them (`loadGrammar`, `start`, `step`, `run`, `pause`, `reset`,
 * `finishDerivation`, the state side of `selectGrammar` and `selectMode`), together with the
 * read-only queries it makes (`findApplicableProductions`, `isTerminalString`,
 * `selectBestProduction`).
 */
module Simulator {
  import opened Wrappers
  import opened Symbols
  import opened Grammars
  import Catalog
  import opened Matcher
  import opened Heuristic

  /** The `mode` field: 'generate', or anything else, which the engine treats as validation. */
  datatype Mode = Generate | Validate

  /** The `result` field: null, 'accepted' or 'rejected'. */
  datatype Verdict = Pending | Accepted | Rejected

  /** `Math.floor(Math.random() * n)` for a draw `rand` of `Math.random()`, which lies in [0, 1). */
  function RandomIndex(rand: real, n: nat): (k: nat)
    requires 0.0 <= rand < 1.0 && n > 0
    ensures k < n
  {
    assert rand * (n as real) < n as real by {
      assert (1.0 - rand) * (n as real) > 0.0;
    }
    (rand * (n as real)).Floor
  }

  /** `parseInt(value) || 5`: an unparsable (None, i.e. NaN) or zero count falls back to 5. */
  function StepBudget(numDerivations: Option<int>): (m: int)
    ensures numDerivations.None? ==> m == 5
    ensures numDerivations.Some? ==> m == if numDerivations.value == 0 then 5 else numDerivations.value
  {
    match numDerivations
    case None => 5
    case Some(n) => if n == 0 then 5 else n
  }

  class Engine {
    var currentGrammar: Option<Grammar>
    var mode: Mode
    var sententialForm: seq<Symbol>
    var derivationHistory: seq<string>
    var currentStep: nat
    var isRunning: bool
    var isPaused: bool
    var targetString: string
    var maxSteps: int
    var result: Verdict
    var isAccepted: bool

    /** The constructor's field values, then `initialize` loading the default grammar 'anbncn'. */
    constructor ()
      ensures currentGrammar == Some(Catalog.AnBnCn) && mode == Generate
      ensures sententialForm == ["S"] && derivationHistory == [] && currentStep == 0
      ensures !isRunning && !isPaused && targetString == "" && maxSteps == 100
      ensures result == Pending && !isAccepted
    {
      currentGrammar := None;
      mode := Generate;
      sententialForm := ["S"];
      derivationHistory := [];
      currentStep := 0;
      isRunning := false;
      isPaused := false;
      targetString := "";
      maxSteps := 100;
      result := Pending;
      isAccepted := false;
      new;
      LoadGrammar("anbncn");
    }

    // -------------------------------------------------------------------------
    // Queries
    // -------------------------------------------------------------------------

    /** What `findApplicableProductions` returns: nothing without a grammar. */
    function Applicable(): seq<Candidate>
      reads this
    {
      match currentGrammar
      case None => []
      case Some(g) => Candidates(sententialForm, g.productions)
    }

    /** The form a reset starts from: the start symbol, or 'S' when no grammar is loaded. */
    function InitialForm(): seq<Symbol>
      reads this
    {
      match currentGrammar
      case None => ["S"]
      case Some(g) => [g.startSymbol]
    }

    /** `isTerminalString()`: false without a grammar, else every symbol of the form is a terminal. */
    predicate IsTerminalString()
      reads this
      ensures IsTerminalString() <==>
        currentGrammar.Some? && forall i :: 0 <= i < |sententialForm| ==> sententialForm[i] in currentGrammar.value.terminals
    {
      currentGrammar.Some? && Grammars.IsTerminalString(sententialForm, currentGrammar.value.terminals)
    }

    /** The candidate a step applies: a random one in generate mode, the heuristic's choice in validate mode. */
    function Chosen(rand: real): Candidate
      reads this
      requires 0.0 <= rand < 1.0
      requires Applicable() != []
    {
      var cs := Applicable();
      if mode == Generate then cs[RandomIndex(rand, |cs|)]
      else
        cs[FirstBest(Scores(sententialForm, cs, targetString, currentGrammar.value.nonTerminals))]
    }

    /** The post-checks of a step that applied a production: a terminal form, or the target reached or overshot. */
    predicate Settled()
      reads this
    {
      if mode == Generate then IsTerminalString()
      else Flatten(sententialForm) == targetString || |Flatten(sententialForm)| > 2 * |targetString|
    }

    /** One history entry per applied step after the initial form, the last one showing the current form. */
    predicate HistoryMatchesSteps()
      reads this
    {
      |derivationHistory| == currentStep + 1 && derivationHistory[currentStep] == Join(sententialForm, " ")
    }

    /** No more productions have been applied than the budget allows. */
    predicate WithinBudget()
      reads this
    {
      currentStep == 0 || currentStep <= maxSteps
    }

    /** The state `reset` leaves: step 0, no result, stopped, and the initial form as the whole history. */
    predicate IsReady()
      reads this
    {
      && currentStep == 0 && result == Pending && !isRunning && !isPaused
      && sententialForm == InitialForm() && derivationHistory == [Join(InitialForm(), " ")]
    }

    /** `findApplicableProductions`: every production in order, every position in ascending order. */
    method FindApplicableProductions() returns (applicable: seq<Candidate>)
      ensures applicable == Applicable()
      ensures forall c :: c in applicable <==>
        currentGrammar.Some? && IsCandidate(sententialForm, currentGrammar.value.productions, c)
      ensures InCanonicalOrder(applicable)
    {
      if currentGrammar.None? {
        return [];
      }
      var g := currentGrammar.value;
      applicable := [];
      var formStr := sententialForm;
      var prodIndex := 0;
      while prodIndex < |g.productions|
        invariant 0 <= prodIndex <= |g.productions|
        invariant applicable == CandidatesBelow(formStr, g.productions, prodIndex)
      {
        var prod := g.productions[prodIndex];
        var pos := 0;
        while pos <= |formStr| - |prod.left|
          invariant 0 <= pos <= ScanLength(formStr, prod.left)
          invariant applicable == CandidatesBelow(formStr, g.productions, prodIndex)
            + Tagged(prod, prodIndex, PositionsBelow(formStr, prod.left, pos))
        {
          var matched := MatchAt(formStr, prod.left, pos);
          TaggedSnoc(prod, prodIndex, PositionsBelow(formStr, prod.left, pos), pos);
          if matched {
            applicable := applicable + [Candidate(prod, prodIndex, pos)];
          }
          pos := pos + 1;
        }
        prodIndex := prodIndex + 1;
      }
      CandidatesExact(formStr, g.productions);
    }

    /** `selectBestProduction`: score each hypothetical next form, keep the first strictly better one. */
    method SelectBestProduction(applicable: seq<Candidate>) returns (best: Candidate)
      requires currentGrammar.Some? && |applicable| > 0
      ensures best == applicable[FirstBest(Scores(sententialForm, applicable, targetString, currentGrammar.value.nonTerminals))]
      ensures exists k :: (0 <= k < |applicable| && best == applicable[k]
        && IsSelection(Scores(sententialForm, applicable, targetString, currentGrammar.value.nonTerminals), k))
    {
      var g := currentGrammar.value;
      ghost var scores := Scores(sententialForm, applicable, targetString, g.nonTerminals);
      var bestScore := -1;
      var bestApplicable := applicable[0];
      ghost var bestIndex := 0;
      var i := 0;
      while i < |applicable|
        invariant 0 <= i <= |applicable|
        invariant bestIndex < |applicable| && bestApplicable == applicable[bestIndex]
        invariant FirstBestFrom(scores, i, bestScore, bestIndex) == FirstBest(scores)
      {
        var app := applicable[i];
        var newForm := Substitute(sententialForm, app);
        var score := ScoreForm(newForm, targetString, g.nonTerminals);
        assert score == scores[i];
        if score > bestScore {
          bestScore := score;
          bestApplicable := app;
          bestIndex := i;
        }
        i := i + 1;
      }
      assert bestIndex == FirstBest(scores);
      FirstBestIsSelection(scores);
      best := bestApplicable;
      assert 0 <= bestIndex < |applicable| && best == applicable[bestIndex] && IsSelection(scores, bestIndex);
    }

    // -------------------------------------------------------------------------
    // State changes
    // -------------------------------------------------------------------------

    /** `loadGrammar`: the catalog lookup replaces the grammar (null when unknown); a found one resets the form. */
    method LoadGrammar(id: string)
      modifies this`currentGrammar, this`sententialForm
      ensures currentGrammar == Catalog.GetGrammar(id)
      ensures sententialForm == if currentGrammar.Some? then [currentGrammar.value.startSymbol] else old(sententialForm)
    {
      currentGrammar := Catalog.GetGrammar(id);
      if currentGrammar.None? {
        return;
      }
      sententialForm := [currentGrammar.value.startSymbol];
    }

    /** `applyProduction`: replace the whole form and record it in the history. */
    method ApplyProduction(c: Candidate)
      modifies this`sententialForm, this`derivationHistory
      ensures sententialForm == Substitute(old(sententialForm), c)
      ensures derivationHistory == old(derivationHistory) + [Join(sententialForm, " ")]
    {
      sententialForm := Substitute(sententialForm, c);
      derivationHistory := derivationHistory + [Join(sententialForm, " ")];
    }

    /** The state side of `finishDerivation`. */
    method FinishDerivation(success: bool)
      modifies this`result, this`isAccepted, this`isRunning
      ensures result == (if success then Accepted else Rejected)
      ensures isAccepted == success && !isRunning
    {
      result := if success then Accepted else Rejected;
      isAccepted := success;
      isRunning := false;
    }

    /** `reset`: back to the initial form; grammar, mode, target, budget and `isAccepted` stay. */
    method Reset()
      modifies this
      ensures IsReady() && HistoryMatchesSteps() && WithinBudget()
      ensures currentGrammar == old(currentGrammar) && mode == old(mode)
      ensures targetString == old(targetString) && maxSteps == old(maxSteps) && isAccepted == old(isAccepted)
    {
      isRunning := false;
      isPaused := false;
      currentStep := 0;
      result := Pending;
      if currentGrammar.Some? {
        sententialForm := [currentGrammar.value.startSymbol];
        derivationHistory := [Join(sententialForm, " ")];
      } else {
        sententialForm := ["S"];
        derivationHistory := ["S"];
      }
    }

    /**
     * `start`: without a grammar, or in validate mode with an empty (already trimmed) input,
     * nothing changes; otherwise the step budget is set and the derivation is reset.
     */
    method Start(numDerivations: Option<int>, input: string)
      modifies this
      ensures currentGrammar == old(currentGrammar) && mode == old(mode) && isAccepted == old(isAccepted)
      ensures old(currentGrammar).None? || (mode == Validate && input == "") ==> unchanged(this)
      ensures old(currentGrammar).Some? && mode == Generate ==>
        IsReady() && maxSteps == StepBudget(numDerivations) && targetString == old(targetString)
      ensures old(currentGrammar).Some? && mode == Validate && input != "" ==>
        IsReady() && maxSteps == |input| * 10 && targetString == input
      ensures old(currentGrammar).Some? && (mode == Generate || input != "") ==> HistoryMatchesSteps() && WithinBudget()
    {
      if currentGrammar.None? {
        return;
      }
      if mode == Generate {
        maxSteps := StepBudget(numDerivations);
      } else {
        if input == "" {
          return;
        }
        targetString := input;
        maxSteps := |input| * 10;
      }
      Reset();
      currentStep := 0;
      derivationHistory := [Join(sententialForm, " ")];
    }

    /** `step`: budget check, stuck check, selection and substitution, then the three post-checks. */
    method Step(rand: real) returns (continues: bool)
      requires 0.0 <= rand < 1.0
      modifies this`sententialForm, this`derivationHistory, this`currentStep, this`result, this`isAccepted, this`isRunning
      ensures currentGrammar == old(currentGrammar) && mode == old(mode) && isPaused == old(isPaused)
      ensures targetString == old(targetString) && maxSteps == old(maxSteps)
      // the step budget is exhausted
      ensures old(currentStep >= maxSteps) ==>
        && !continues && result == Rejected && !isAccepted && !isRunning
        && sententialForm == old(sententialForm) && derivationHistory == old(derivationHistory)
        && currentStep == old(currentStep)
      // no production applies
      ensures old(currentStep < maxSteps && Applicable() == []) ==>
        && !continues && !isRunning
        && sententialForm == old(sententialForm) && derivationHistory == old(derivationHistory)
        && currentStep == old(currentStep)
        && isAccepted == (if mode == Generate then IsTerminalString() else Flatten(sententialForm) == targetString)
        && result == (if isAccepted then Accepted else Rejected)
      // a production is applied
      ensures old(currentStep < maxSteps && Applicable() != []) ==>
        && currentStep == old(currentStep) + 1
        && sententialForm == Substitute(old(sententialForm), old(Chosen(rand)))
        && derivationHistory == old(derivationHistory) + [Join(sententialForm, " ")]
        && (continues <==> !Settled())
        && (continues ==> result == old(result) && isAccepted == old(isAccepted) && isRunning == old(isRunning))
        && (!continues ==>
              && !isRunning
              && isAccepted == (mode == Generate || Flatten(sententialForm) == targetString)
              && result == (if isAccepted then Accepted else Rejected))
      ensures continues ==> currentStep == old(currentStep) + 1 && currentStep <= maxSteps
      ensures !continues ==> result != Pending && !isRunning && (isAccepted <==> result == Accepted)
      ensures currentStep >= old(currentStep)
      ensures old(HistoryMatchesSteps()) ==> HistoryMatchesSteps()
      ensures old(WithinBudget()) ==> WithinBudget()
    {
      if currentStep >= maxSteps {
        FinishDerivation(false);
        return false;
      }

      var applicable := FindApplicableProductions();

      if |applicable| == 0 {
        FinishStuck();
        return false;
      }

      var selected: Candidate;
      if mode == Generate {
        selected := applicable[RandomIndex(rand, |applicable|)];
      } else {
        selected := SelectBestProduction(applicable);
      }
      assert selected == Chosen(rand);

      ApplyProduction(selected);
      currentStep := currentStep + 1;
      continues := CheckDerivedForm();
    }

    /** The verdict of `step` when no production applies: a terminal string (generate) or the target (validate). */
    method FinishStuck()
      modifies this`result, this`isAccepted, this`isRunning
      ensures !isRunning
      ensures isAccepted == (if mode == Generate then IsTerminalString() else Flatten(sententialForm) == targetString)
      ensures result == (if isAccepted then Accepted else Rejected)
    {
      if mode == Generate {
        FinishDerivation(IsTerminalString());
      } else {
        var currentStr := Flatten(sententialForm);
        FinishDerivation(currentStr == targetString);
      }
    }

    /** The post-checks of `step` on a freshly derived form: terminal string, target reached, divergence. */
    method CheckDerivedForm() returns (continues: bool)
      modifies this`result, this`isAccepted, this`isRunning
      ensures continues <==> !Settled()
      ensures continues ==> result == old(result) && isAccepted == old(isAccepted) && isRunning == old(isRunning)
      ensures !continues ==>
        && !isRunning
        && isAccepted == (mode == Generate || Flatten(sententialForm) == targetString)
        && result == (if isAccepted then Accepted else Rejected)
    {
      if mode == Generate {
        if IsTerminalString() {
          FinishDerivation(true);
          return false;
        }
      } else {
        var currentStr := Flatten(sententialForm);
        if currentStr == targetString {
          FinishDerivation(true);
          return false;
        }
        if |currentStr| > |targetString| * 2 {
          FinishDerivation(false);
          return false;
        }
      }
      return true;
    }

    /**
     * `run` with the timer replaced by a loop: the n-th step draws `rand(n)`, and the loop ends
     * when a step reports that the derivation is over. A run already in progress is left alone.
     */
    method Run(rand: nat -> real)
      requires forall n :: 0.0 <= rand(n) < 1.0
      modifies this
      ensures old(isRunning) ==> unchanged(this)
      ensures !old(isRunning) ==> !isRunning && !isPaused && result != Pending
      ensures !old(isRunning) ==> (isAccepted <==> result == Accepted) && currentStep >= old(currentStep)
      ensures currentGrammar == old(currentGrammar) && mode == old(mode)
      ensures targetString == old(targetString) && maxSteps == old(maxSteps)
      ensures old(HistoryMatchesSteps()) ==> HistoryMatchesSteps()
      ensures old(WithinBudget()) ==> WithinBudget()
    {
      if isRunning {
        return;
      }
      isRunning := true;
      isPaused := false;
      var n := 0;
      var canContinue := Step(rand(n));
      while canContinue && isRunning
        invariant currentGrammar == old(currentGrammar) && mode == old(mode) && !isPaused
        invariant targetString == old(targetString) && maxSteps == old(maxSteps)
        invariant canContinue ==> currentStep <= maxSteps && isRunning
        invariant !canContinue ==> result != Pending && !isRunning && (isAccepted <==> result == Accepted)
        invariant currentStep >= old(currentStep)
        invariant old(HistoryMatchesSteps()) ==> HistoryMatchesSteps()
        invariant old(WithinBudget()) ==> WithinBudget()
        decreases if canContinue then maxSteps - currentStep + 1 else 0
      {
        n := n + 1;
        canContinue := Step(rand(n));
      }
      isRunning := false;
    }

    /** `pause`: stop the automatic run. */
    method Pause()
      modifies this`isPaused, this`isRunning
      ensures isPaused && !isRunning
    {
      isPaused := true;
      isRunning := false;
    }

    /** The state side of `selectGrammar`: 'custom' only opens the editor; any other id is loaded; then a reset. */
    method SelectGrammar(id: string)
      modifies this
      ensures currentGrammar == if id == "custom" then old(currentGrammar) else Catalog.GetGrammar(id)
      ensures IsReady() && HistoryMatchesSteps() && WithinBudget()
      ensures mode == old(mode) && targetString == old(targetString) && maxSteps == old(maxSteps)
      ensures isAccepted == old(isAccepted)
    {
      if id != "custom" {
        LoadGrammar(id);
      }
      Reset();
    }

    /** The state side of `selectMode`: set the mode, then a reset. */
    method SelectMode(m: Mode)
      modifies this
      ensures mode == m && currentGrammar == old(currentGrammar)
      ensures IsReady() && HistoryMatchesSteps() && WithinBudget()
      ensures targetString == old(targetString) && maxSteps == old(maxSteps)
      ensures isAccepted == old(isAccepted)
    {
      mode := m;
      Reset();
    }
  }

  /**
   * `reset` is idempotent: a second reset leaves every field as the first one left it. The
   * out-parameters record the state between the two calls.
   */
  method ResetTwice(e: Engine) returns (form: seq<Symbol>, history: seq<string>, step: nat, verdict: Verdict,
                                         running: bool, paused: bool, accepted: bool)
    modifies e
    ensures e.sententialForm == form && e.derivationHistory == history && e.currentStep == step
    ensures e.result == verdict && e.isRunning == running && e.isPaused == paused && e.isAccepted == accepted
    ensures e.currentGrammar == old(e.currentGrammar) && e.mode == old(e.mode)
    ensures e.targetString == old(e.targetString) && e.maxSteps == old(e.maxSteps)
  {
    e.Reset();
    form, history, step, verdict := e.sententialForm, e.derivationHistory, e.currentStep, e.result;
    running, paused, accepted := e.isRunning, e.isPaused, e.isAccepted;
    e.Reset();
  }
}
