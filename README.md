# CSG simulator core, modelled in Dafny

The CSG simulator derives strings from context-sensitive grammars. A grammar is a start
symbol, terminals, nonterminals and productions `α → β`, where each side is a sequence of
string symbols. The engine keeps a sentential form and rewrites it one production at a time.

- In **generate** mode it picks a random applicable production. It stops when the form is
  all terminals or no production applies.
- In **validate** mode a one-step lookahead heuristic picks the production that brings the form
  closest to a target string. It accepts when the form spells the target, and rejects once the
  spelled string is longer than twice the target.
- A step budget bounds both modes.

`GrammarDefinitions` supplies three things:
- the built-in catalog;
- the context-sensitivity check (`validateCSG`), with import gated on it;
- the helpers `detectContext`, `formatProduction`, `isTerminalString` and `findApplicablePositions`.

Modules, following the two source files:

| module | file | contents |
|---|---|---|
| `Wrappers` | wrappers.dfy | `Option` (the source's `null`) |
| `Symbols` | symbols.dfy | symbols as strings; `Join` is `Array.prototype.join` and `Flatten` is `join('')` |
| `Grammars` | grammars.dfy | the grammars.js records and helpers; `validateCSG` and `findApplicablePositions` as loop methods proved against specification functions |
| `Catalog` | catalog.dfy | `getAllGrammars` as constant data, `getGrammar`, and which entries pass the check |
| `Matcher` | matcher.dfy | the specification of `findApplicableProductions` (the candidate list) and of the substitution done by `applyProduction` |
| `Heuristic` | heuristic.dfy | the scoring and selection rule of `selectBestProduction` |
| `Simulator` | simulator.dfy | class `Engine` with the `CSGSimulator` state fields and the methods that update them |
| `Scenarios` | scenarios.dfy | two complete concrete runs of the engine on catalog grammars |

Behaviour as the code has it:
- **Divergence guard.** It runs only after a production has been applied, and it compares the
  spelled string with `2 · |target|` using `>` (csg-simulator.js:417-426). A form may therefore
  reach twice the target's length and keep going; it is rejected only once it is longer.
- **The ε exemption.** The check exempts `S → ε` from the ε-rule error, but that rule still
  fails the length check first (grammars.js:169-171). `Grammars.StartEpsilonNotExempt` proves
  that such a grammar is never valid.
- **The `ww` entry.** The catalog's `ww` grammar fails the source's own check: productions 6
  and 7 (`C A → a`, `C B → b`) shrink the form. `Catalog.WWInvalid` gives the exact error list.
- **Selection when every score is negative.** The selection loop starts from score −1 and
  `applicable[0]`. When every score is at most −1 it returns `applicable[0]`, not the
  best-scoring candidate. `Heuristic.IsSelection` states both cases.

Nondeterminism and I/O are parameters:
- `Math.random()` is a real `rand` with `0 ≤ rand < 1`, and the index is `⌊rand · n⌋`.
- `run` takes one such draw per step.
- The `numDerivations` field's `parseInt` result is an `Option<int>`, where `None` stands
  for `NaN`.
- The validate input is passed in already trimmed.

## Model

| member | source | states |
|---|---|---|
| Symbols.JoinWithEmptySeparator | csg-simulator.js:448 | `join('')` of a form is the concatenation of its symbols, so the scored string is the form spelled out |
| Grammars.NatToString | grammars.js:170 | a production number renders as a non-empty string of decimal digits |
| Grammars.NatToStringRoundTrip | grammars.js:170 | the rendered number reads back as the number it renders |
| Grammars.MessageInjective | grammars.js:157-178 | two violations with the same error text are the same violation (same kind, same production) |
| Grammars.ValidateCSG | grammars.js:153-185 | the loop collects exactly the specified violations in report order, and `valid` holds iff the error list is empty |
| Grammars.ViolationsExact | grammars.js:157-178 | a violation is reported iff it describes the grammar: start symbol missing, no productions, some production shrinks, or some production has an empty right side and a left side other than `[start]` |
| Grammars.ViolationsBelowEmpty | grammars.js:167-179 | the production scan reports nothing iff every scanned production is non-shrinking and not a forbidden ε-rule |
| Grammars.ValidIffCSG | grammars.js:181-184 | the error list is empty iff the grammar has a start symbol, at least one production, and only admissible productions |
| Grammars.StartEpsilonNotExempt | grammars.js:169-178 | a rule `S → ε` gets the length error and not the ε error, and its grammar is never valid |
| Grammars.ImportGrammar | grammars.js:218-229 | import succeeds iff the grammar is valid; on success it returns the grammar unchanged; on failure it returns exactly the validation errors, which are non-empty |
| Grammars.FindCoreIndex | grammars.js:261-263 | `findIndex` for a one-uppercase-letter symbol: −1 iff there is none, otherwise the first one |
| Grammars.DetectContext | grammars.js:259-278 | left context ++ core ++ right context equals the left side; with no core symbol the core is the whole side and both contexts are empty; otherwise the core is the first core symbol and the left context holds none |
| Grammars.IsTerminalString | grammars.js:283-285 | true iff every symbol of the form is one of the terminals |
| Grammars.FormatProductionUnambiguous | grammars.js:250-254 | when no left-side symbol contains `→`, equal formatted texts have equal joined left sides and equal joined right sides |
| Grammars.MatchAt | grammars.js:296-301 | the inner comparison loop with early exit returns true iff the pattern equals the form's slice at that position |
| Grammars.PositionsBelowExact | grammars.js:293-305 | the first `n` scanned positions yield exactly the matching ones below `n`, in strictly ascending order |
| Grammars.MatchPositionsExact | grammars.js:290-308 | the full scan yields exactly the positions where the left side matches, in strictly ascending order |
| Grammars.FindApplicablePositions | grammars.js:290-308 | the loop returns the specified scan: strictly ascending, and a position is in it iff the left side matches there |
| Catalog.GetGrammar | grammars.js:145-148 | each of the seven ids yields its catalog entry, and any other id yields null |
| Catalog.NonShrinkingIsValid | grammars.js:153-185 | a grammar with a start symbol and only non-empty, non-shrinking rules passes the check |
| Catalog.CatalogValid | grammars.js:13-139 | the `anbncn`, `anbnan`, `anb2n`, `balanced`, `declaration` and `palindrome-ctx` entries pass the check |
| Catalog.WWInvalid | grammars.js:35-52 | the `ww` entry fails with exactly two length errors, for productions 6 and 7 |
| Matcher.CandidatesExact | csg-simulator.js:283-315 | a (production, index, position) triple is listed iff that production's left side matches at that position, and the list is ordered by production index, then position |
| Matcher.CandidatesAgreeWithPositions | csg-simulator.js:289-311 | the positions listed for production `k` are exactly what `findApplicablePositions` returns for it |
| Matcher.SubstituteAtMatch | csg-simulator.js:324-328 | at a match, the new form keeps the prefix, holds the right side at the position, keeps the suffix after the matched left side, and its length changes by ∣β∣ − ∣α∣ |
| Matcher.SubstituteNonShrinking | csg-simulator.js:324-328 | a non-shrinking rule applied at a match never shortens the form |
| Heuristic.AgreeCountFull | csg-simulator.js:454-459 | all of the first `n` characters agree iff the two prefixes of length `n` are equal |
| Heuristic.NonTerminalCount | csg-simulator.js:465-467 | the filtered count is at most the form's length, and is 0 iff no symbol is a nonterminal |
| Heuristic.ScoreBound | csg-simulator.js:451-468 | no form scores above 10 per target character, and a form reaches exactly that iff it spells the target with no nonterminal left |
| Heuristic.FirstBest | csg-simulator.js:437-474 | over a non-empty score list, the kept index is within it |
| Heuristic.FirstBestIsSelection | csg-simulator.js:437-476 | the kept index is the first strict maximum when that maximum exceeds −1, and 0 when every score is at most −1 |
| Heuristic.ExactCandidateWins | csg-simulator.js:435-477 | if some candidate yields a terminal form spelling the target, the selected candidate is no later than it and also yields such a form |
| Heuristic.ScoreForm | csg-simulator.js:448-468 | the scoring loop computes the specified score of one hypothetical form |
| Simulator.RandomIndex | csg-simulator.js:396 | `Math.floor(rand · n)` is a valid index for `0 ≤ rand < 1` |
| Simulator.Engine.constructor | csg-simulator.js:10-39 | the initial field values, then the default grammar `anbncn` loaded by `initialize` (line 106) |
| Simulator.Engine.IsTerminalString | csg-simulator.js:348-354 | false without a grammar; otherwise true iff every symbol of the form is a terminal |
| Simulator.Engine.FindApplicableProductions | csg-simulator.js:283-315 | the nested loops return the candidate list: exactly the matching (production, position) triples, in production-then-position order |
| Simulator.Engine.SelectBestProduction | csg-simulator.js:435-477 | returns an element of the list, namely the one at the selection index, which satisfies the selection rule |
| Simulator.Engine.LoadGrammar | csg-simulator.js:201-218 | the looked-up grammar is stored; when it exists the form becomes its start symbol, otherwise the form is unchanged |
| Simulator.Engine.ApplyProduction | csg-simulator.js:320-343 | the form becomes the substitution at the candidate's position, and the history grows by exactly the new form joined with spaces |
| Simulator.Engine.FinishDerivation | csg-simulator.js:644-687 | sets the verdict and `isAccepted` from the success flag, and stops running |
| Simulator.Engine.Reset | csg-simulator.js:517-541 | step 0, no verdict, not running or paused, the form is the start symbol (`S` without a grammar) and the history is that form alone; grammar, mode, target, budget and `isAccepted` are kept |
| Simulator.ResetTwice | csg-simulator.js:517-541 | a second reset leaves every field as the first reset left it |
| Simulator.Engine.Start | csg-simulator.js:251-278 | without a grammar, or with an empty validate input, nothing changes; otherwise the budget is `parseInt(…) \|\| 5` (an unparsable or zero count gives 5, any other count is taken as is) or 10 × the input length, the target is set in validate mode, and the engine is reset with history = the start form |
| Simulator.Engine.Step | csg-simulator.js:359-430 | once the budget is used up: rejected, and form, history and step are unchanged. When nothing applies: unchanged, accepted iff all-terminal (generate) or spelling the target (validate). Otherwise it applies the chosen candidate, increments the step by 1, adds one history entry, and continues iff none of the post-checks fires. It preserves history length = step + 1 and step ≤ budget |
| Simulator.Engine.FinishStuck | csg-simulator.js:369-389 | when nothing applies: not running, accepted iff the form is all terminals (generate) or spells the target (validate), and the verdict follows |
| Simulator.Engine.CheckDerivedForm | csg-simulator.js:409-429 | after a production is applied: the derivation continues iff the form is not settled (all-terminal in generate mode; spelling the target or longer than twice it in validate mode); a stop is an acceptance exactly in generate mode or on the target |
| Simulator.Engine.Run | csg-simulator.js:479-505 | a no-op while running; otherwise steps until a step returns false, ending stopped with a verdict that `isAccepted` mirrors, with the step counter not decreased and the history and budget invariants kept |
| Simulator.Engine.Pause | csg-simulator.js:507-515 | paused and not running, with everything else kept |
| Simulator.Engine.SelectGrammar | csg-simulator.js:160-178 | `custom` keeps the current grammar, any other id loads its catalog entry, and the engine is then reset; mode, target, budget and `isAccepted` are kept |
| Simulator.Engine.SelectMode | csg-simulator.js:180-199 | sets the mode and resets; grammar, target, budget and `isAccepted` are kept |
| Scenarios.AnBnCnDerivesAbc | grammars.js:23-29 | in `anbncn`, productions 2, 4 and 6 match and derive `S ⇒ a B C ⇒ a b C ⇒ a b c` |
| Scenarios.BalancedDerivesNestedPair | grammars.js:94-98 | in `balanced`, productions 1 and 3 match and derive `S ⇒ ( S ) ⇒ ( ( ) )` |
| Scenarios.CandidatesOfStart | csg-simulator.js:283-315 | with the `anbncn` rules the candidates of `S` are productions 1 and 2 at position 0 |
| Scenarios.CandidatesOfABigC | csg-simulator.js:283-315 | with the `anbncn` rules the only candidate of `a B C` is production 4 at position 0 |
| Scenarios.CandidatesOfAbBigC | csg-simulator.js:283-315 | with the `anbncn` rules the only candidate of `a b C` is production 6 at position 1 |
| Scenarios.BalancedCandidates | csg-simulator.js:283-315 | with the `balanced` rules, all three productions apply to `S` at 0 and to `( S )` at 1 |
| Scenarios.NestedPairFirstChoice | csg-simulator.js:435-477 | from `S` with target `(())` the scores are 13, −14 and 6, and `( S )` is selected |
| Scenarios.NestedPairSecondChoice | csg-simulator.js:435-477 | from `( S )` the scores are 23, 10 and 40, and `( ( ) )` is selected |
| Scenarios.GenerateAbc | csg-simulator.js:359-430 | `anbncn` in generate mode with budget 10 and draws 0.5, 0, 0 accepts `a b c` after 3 steps with history `S`, `a B C`, `a b C`, `a b c` |
| Scenarios.ValidateNestedPair | csg-simulator.js:359-430 | `balanced` in validate mode accepts `(())` after 2 steps with history `S`, `( S )`, `( ( ) )` |

## Left out

- DOM and UI work is not modelled: `initialize`'s element lookup, `bindEvents`, `displayProductions`, `renderTape`, `updateHeadPosition`, `scrollToHead`, `updateDisplay`, `updateDerivationTree`, `resetResultPanel`, `addLog`, `exportLog`, and the display half of `finishDerivation`, `selectGrammar` and `selectMode`. They only render state.
- animations.js is not part of this model; it is visual effects only.
- Timers and speed are not modelled. `run` schedules steps with `setTimeout` and can be interrupted by `pause` between steps; the model runs the steps as one loop and does not interleave a pause.
- The distribution of `Math.random` is not modelled. The model takes each draw as a parameter and uses `⌊rand · n⌋` exactly.
- `JSON.parse`, `JSON.stringify`, `exportGrammar`, and the `catch` branch of `importGrammar` for malformed JSON are left out. `ImportGrammar` starts from an already-parsed grammar record.
- Parsed records with missing or ill-typed fields (`undefined` productions, non-array sides) are not modelled, because the record type always has every field.
- `createEmptyGrammar`, `getExamples` and `loadCustomEditor` are left out. They return constant data or are an empty stub, and the engine does not use them.
- The fields `LEFT_BOUND`, `RIGHT_BOUND`, `BLANK`, `speed` and `position` are left out. They are only displayed or constant.
- The log messages and the rule text `applyProduction` writes to the log are left out. `FormatProduction` models that text on its own.
- Strings are sequences of Dafny characters (Unicode scalar values), while the source counts UTF-16 code units. Catalog symbols lie in the Basic Multilingual Plane, so sentential forms agree. For a validate input with characters outside that plane, the source's step budget (`input.length * 10`), divergence bound (`targetString.length * 2`) and score arithmetic use its longer code-unit length, and the model does not capture that.
- Catalog.GetGrammar: looks ids up in a Dafny map. The source indexes a plain object, so ids such as `toString` would yield inherited `Object.prototype` members; the model returns null for them.
- Grammars.Message: validation errors are a `Violation` datatype, and their Spanish texts are rendered by `Message`. The number rendering covers naturals only.
- Simulator.RandomIndex: takes the draw as an exact real; floating-point rounding of `Math.random() * n` is not modelled.
- Simulator.Engine.Run: states only that the run stops with a verdict (`isAccepted` iff accepted), never moves the step counter back, and keeps the history and budget invariants; not the final form, history or step count.
