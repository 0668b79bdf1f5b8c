/**
 * The grammar definitions of `GrammarDefinitions` (grammars.js): productions and grammars,
 * the context-sensitivity check, import of an already-parsed grammar, context detection,
 * production formatting, the terminal-string test and the single-production position scan.
 */
module Grammars {
  import opened Symbols

  /** A rule `left → right`; the description is only shown to the user. */
  datatype Production = Production(left: seq<Symbol>, right: seq<Symbol>, description: string)

  /** A grammar definition record. `kind` is the record's `type` field ('classic', 'practical', 'custom'). */
  datatype Grammar = Grammar(
    name: string,
    description: string,
    startSymbol: Symbol,
    terminals: seq<Symbol>,
    nonTerminals: seq<Symbol>,
    productions: seq<Production>,
    examples: seq<string>,
    kind: string)

  // ---------------------------------------------------------------------------
  // validateCSG
  // ---------------------------------------------------------------------------

  /** One entry of the `errors` array of `validateCSG`; `index` is the 0-based production index. */
  datatype Violation =
    | MissingStartSymbol
    | NoProductions
    | LengthDecreasing(index: nat)
    | ForbiddenEpsilon(index: nat)

  /** The object `{ valid, errors }` that `validateCSG` returns. */
  datatype Validation = Validation(valid: bool, errors: seq<Violation>)

  /** Decimal rendering of a number, as a template literal `${n}` prints it. */
  function NatToString(n: nat): (s: string)
    ensures |s| > 0
    ensures forall i :: 0 <= i < |s| ==> '0' <= s[i] <= '9'
  {
    if n < 10 then ["0123456789"[n]] else NatToString(n / 10) + ["0123456789"[n % 10]]
  }

  /** The number a string of decimal digits denotes. */
  function DecimalValue(s: string): nat
    requires forall i :: 0 <= i < |s| ==> '0' <= s[i] <= '9'
  {
    if s == [] then 0 else DecimalValue(s[..|s| - 1]) * 10 + (s[|s| - 1] - '0') as nat
  }

  /** The rendered production number reads back as that number, so distinct productions get distinct messages. */
  lemma {:induction false} NatToStringRoundTrip(n: nat)
    ensures DecimalValue(NatToString(n)) == n
  {
    var s := NatToString(n);
    if n >= 10 {
      NatToStringRoundTrip(n / 10);
      assert s[..|s| - 1] == NatToString(n / 10);
    }
  }

  /** The text the source pushes for each violation (production numbers are 1-based). */
  function Message(v: Violation): string
  {
    match v
    case MissingStartSymbol => "Debe definir un símbolo inicial"
    case NoProductions => "Debe haber al menos una producción"
    case LengthDecreasing(i) => "Producción " + NatToString(i + 1) + ": |α| > |β| (no es CSG)"
    case ForbiddenEpsilon(i) => "Producción " + NatToString(i + 1) + ": ε-producción no permitida"
  }

  predicate AllDigits(s: string)
  {
    forall i :: 0 <= i < |s| ==> '0' <= s[i] <= '9'
  }

  /** A run of digits followed by a colon splits in one way only. */
  lemma DigitsThenColon(a: string, x: string, b: string, y: string)
    requires AllDigits(a) && AllDigits(b) && x != [] && y != [] && x[0] == ':' && y[0] == ':'
    requires a + x == b + y
    ensures a == b && x == y
  {
    assert a == (a + x)[..|a|] && b == (b + y)[..|b|];
    assert x == (a + x)[|a|..] && y == (b + y)[|b|..];
  }

  /** The text of a violation about production `i`: its 1-based number, then the tail for the kind of problem. */
  lemma ProductionMessageShape(v: Violation)
    requires v.LengthDecreasing? || v.ForbiddenEpsilon?
    ensures Message(v) == "Producción " + (NatToString(v.index + 1) + ProblemTail(v))
    ensures ProblemTail(v) != [] && ProblemTail(v)[0] == ':'
  {
  }

  function ProblemTail(v: Violation): string
  {
    if v.LengthDecreasing? then ": |α| > |β| (no es CSG)" else ": ε-producción no permitida"
  }

  /** Different violations are reported with different texts. */
  lemma MessageInjective(v: Violation, w: Violation)
    requires Message(v) == Message(w)
    ensures v == w
  {
    var head := "Producción ";
    if (v.LengthDecreasing? || v.ForbiddenEpsilon?) && (w.LengthDecreasing? || w.ForbiddenEpsilon?) {
      var a, b := NatToString(v.index + 1), NatToString(w.index + 1);
      ProductionMessageShape(v);
      ProductionMessageShape(w);
      assert a + ProblemTail(v) == (head + (a + ProblemTail(v)))[|head|..];
      assert b + ProblemTail(w) == (head + (b + ProblemTail(w)))[|head|..];
      DigitsThenColon(a, ProblemTail(v), b, ProblemTail(w));
      NatToStringRoundTrip(v.index + 1);
      NatToStringRoundTrip(w.index + 1);
      assert ProblemTail(v)[3] != ProblemTail(w)[3] || v.LengthDecreasing? == w.LengthDecreasing?;
    }
  }

  /** The checks made before the productions are scanned: start symbol present, at least one production. */
  function Preamble(g: Grammar): seq<Violation>
  {
    (if g.startSymbol == "" then [MissingStartSymbol] else [])
    + (if |g.productions| == 0 then [NoProductions] else [])
  }

  /** The violations of production number `i`: the length check, then the ε check. */
  function ProductionViolations(p: Production, start: Symbol, i: nat): seq<Violation>
  {
    (if |p.left| > |p.right| then [LengthDecreasing(i)] else [])
    + (if |p.right| == 0 && p.left != [start] then [ForbiddenEpsilon(i)] else [])
  }

  /** The violations of the first `n` productions, in production order. */
  function ViolationsBelow(ps: seq<Production>, start: Symbol, n: nat): seq<Violation>
    requires n <= |ps|
  {
    if n == 0 then [] else ViolationsBelow(ps, start, n - 1) + ProductionViolations(ps[n - 1], start, n - 1)
  }

  /** Everything `validateCSG` reports for `g`, in the order it reports it. */
  function Violations(g: Grammar): seq<Violation>
  {
    Preamble(g) + ViolationsBelow(g.productions, g.startSymbol, |g.productions|)
  }

  /** `validateCSG`: collects the violations while scanning the productions in order. */
  method ValidateCSG(g: Grammar) returns (v: Validation)
    ensures v.errors == Violations(g)
    ensures v.valid <==> v.errors == []
  {
    var errors: seq<Violation> := [];
    if g.startSymbol == "" {
      errors := errors + [MissingStartSymbol];
    }
    if |g.productions| == 0 {
      errors := errors + [NoProductions];
    }
    var i := 0;
    while i < |g.productions|
      invariant 0 <= i <= |g.productions|
      invariant errors == Preamble(g) + ViolationsBelow(g.productions, g.startSymbol, i)
    {
      var prod := g.productions[i];
      if |prod.left| > |prod.right| {
        errors := errors + [LengthDecreasing(i)];
      }
      if |prod.right| == 0 {
        if |prod.left| != 1 || prod.left[0] != g.startSymbol {
          errors := errors + [ForbiddenEpsilon(i)];
        } else {
          assert prod.left == [g.startSymbol];
        }
      }
      i := i + 1;
    }
    v := Validation(|errors| == 0, errors);
  }

  /** The declarative reading of a rule the check accepts: non-shrinking, and ε only as `start → ε`. */
  predicate ProductionIsCSG(p: Production, start: Symbol)
  {
    |p.left| <= |p.right| && (|p.right| == 0 ==> p.left == [start])
  }

  /** A grammar with a start symbol, at least one production, and only accepted rules. */
  predicate IsCSG(g: Grammar)
  {
    && g.startSymbol != ""
    && |g.productions| > 0
    && forall i :: 0 <= i < |g.productions| ==> ProductionIsCSG(g.productions[i], g.startSymbol)
  }

  /** What each violation asserts about the grammar. */
  predicate Describes(g: Grammar, v: Violation)
  {
    match v
    case MissingStartSymbol => g.startSymbol == ""
    case NoProductions => |g.productions| == 0
    case LengthDecreasing(i) =>
      i < |g.productions| && |g.productions[i].left| > |g.productions[i].right|
    case ForbiddenEpsilon(i) =>
      i < |g.productions| && g.productions[i].right == [] && g.productions[i].left != [g.startSymbol]
  }

  lemma {:induction false} ViolationsBelowExact(ps: seq<Production>, start: Symbol, n: nat, v: Violation)
    requires n <= |ps|
    ensures v in ViolationsBelow(ps, start, n) <==>
      match v
      case MissingStartSymbol => false
      case NoProductions => false
      case LengthDecreasing(i) => i < n && |ps[i].left| > |ps[i].right|
      case ForbiddenEpsilon(i) => i < n && ps[i].right == [] && ps[i].left != [start]
  {
    if n > 0 {
      ViolationsBelowExact(ps, start, n - 1, v);
      var prev, last := ViolationsBelow(ps, start, n - 1), ProductionViolations(ps[n - 1], start, n - 1);
      assert ViolationsBelow(ps, start, n) == prev + last;
      assert v in prev + last <==> v in prev || v in last;
      match v {
        case LengthDecreasing(i) =>
          assert v in last <==> i == n - 1 && |ps[i].left| > |ps[i].right|;
        case ForbiddenEpsilon(i) =>
          assert v in last <==> i == n - 1 && ps[i].right == [] && ps[i].left != [start];
        case _ =>
      }
    }
  }

  /**
   * Every violation reported is true of the grammar, and every fact of that kind is reported:
   * one length error for EVERY shrinking production, one ε error for every other ε rule.
   */
  lemma ViolationsExact(g: Grammar, v: Violation)
    ensures v in Violations(g) <==> Describes(g, v)
  {
    ViolationsBelowExact(g.productions, g.startSymbol, |g.productions|, v);
  }

  lemma {:induction false} ViolationsBelowEmpty(ps: seq<Production>, start: Symbol, n: nat)
    requires n <= |ps|
    ensures ViolationsBelow(ps, start, n) == [] <==> forall i :: 0 <= i < n ==> ProductionIsCSG(ps[i], start)
  {
    if n > 0 {
      ViolationsBelowEmpty(ps, start, n - 1);
      var p := ps[n - 1];
      if |p.left| <= |p.right| && |p.right| == 0 && p.left != [start] {
        assert ProductionViolations(p, start, n - 1) == [ForbiddenEpsilon(n - 1)];
      }
    }
  }

  /** `validateCSG` finds nothing exactly for the grammars that satisfy `IsCSG`. */
  lemma ValidIffCSG(g: Grammar)
    ensures Violations(g) == [] <==> IsCSG(g)
  {
    ViolationsBelowEmpty(g.productions, g.startSymbol, |g.productions|);
  }

  /**
   * The ε exemption `start → ε` is never effective: the length check already reports it,
   * although the ε check itself lets it through.
   */
  lemma StartEpsilonNotExempt(g: Grammar, i: nat)
    requires i < |g.productions|
    requires g.productions[i].left == [g.startSymbol] && g.productions[i].right == []
    ensures LengthDecreasing(i) in Violations(g)
    ensures ForbiddenEpsilon(i) !in Violations(g)
    ensures !IsCSG(g)
  {
    ViolationsExact(g, LengthDecreasing(i));
    ViolationsExact(g, ForbiddenEpsilon(i));
    ValidIffCSG(g);
  }

  // ---------------------------------------------------------------------------
  // importGrammar (from the parsed object onward)
  // ---------------------------------------------------------------------------

  /** `{ success: true, grammar }` or `{ success: false, errors }`. */
  datatype ImportResult = ImportSucceeded(grammar: Grammar) | ImportFailed(errors: seq<Violation>)

  /** `importGrammar` after `JSON.parse`: a gate on the validation result. */
  function ImportGrammar(g: Grammar): (r: ImportResult)
    ensures r.ImportSucceeded? <==> IsCSG(g)
    ensures r.ImportSucceeded? ==> r.grammar == g
    ensures r.ImportFailed? ==> r.errors == Violations(g) && r.errors != []
  {
    ValidIffCSG(g);
    var errors := Violations(g);
    if errors != [] then ImportFailed(errors) else ImportSucceeded(g)
  }

  // ---------------------------------------------------------------------------
  // detectContext
  // ---------------------------------------------------------------------------

  /** `/^[A-Z]$/.test(symbol)`: exactly one upper-case ASCII letter. */
  predicate IsCoreSymbol(s: Symbol)
  {
    |s| == 1 && 'A' <= s[0] <= 'Z'
  }

  /** `Array.prototype.findIndex` with `IsCoreSymbol`: -1 when there is none. */
  function FindCoreIndex(left: seq<Symbol>): (k: int)
    ensures -1 <= k < |left|
    ensures k == -1 <==> forall i :: 0 <= i < |left| ==> !IsCoreSymbol(left[i])
    ensures k >= 0 ==> IsCoreSymbol(left[k]) && forall i :: 0 <= i < k ==> !IsCoreSymbol(left[i])
  {
    if |left| == 0 then -1
    else if IsCoreSymbol(left[0]) then 0
    else
      var k := FindCoreIndex(left[1..]);
      if k == -1 then -1 else k + 1
  }

  datatype Context = Context(leftContext: seq<Symbol>, core: seq<Symbol>, rightContext: seq<Symbol>)

  /** `detectContext`: the first single-letter nonterminal is the core, what surrounds it is context. */
  function DetectContext(p: Production): (c: Context)
    ensures c.leftContext + c.core + c.rightContext == p.left
    ensures (forall i :: 0 <= i < |p.left| ==> !IsCoreSymbol(p.left[i])) ==>
      c.leftContext == [] && c.core == p.left && c.rightContext == []
    ensures (exists i :: 0 <= i < |p.left| && IsCoreSymbol(p.left[i])) ==>
      && |c.core| == 1 && IsCoreSymbol(c.core[0])
      && forall j :: 0 <= j < |c.leftContext| ==> !IsCoreSymbol(c.leftContext[j])
  {
    var k := FindCoreIndex(p.left);
    if k == -1 then Context([], p.left, [])
    else
      assert p.left[..k] + [p.left[k]] + p.left[k + 1..] == p.left;
      Context(p.left[..k], [p.left[k]], p.left[k + 1..])
  }

  // ---------------------------------------------------------------------------
  // isTerminalString, formatProduction
  // ---------------------------------------------------------------------------

  /** `string.every(symbol => terminals.includes(symbol))`. */
  function IsTerminalString(s: seq<Symbol>, terminals: seq<Symbol>): (b: bool)
    ensures b <==> forall i :: 0 <= i < |s| ==> s[i] in terminals
  {
    if s == [] then true else s[0] in terminals && IsTerminalString(s[1..], terminals)
  }

  /** `formatProduction`: both sides joined by spaces around an arrow. */
  function FormatProduction(p: Production): string
  {
    Join(p.left, " ") + " → " + Join(p.right, " ")
  }

  /** The first index of `c` in `s`, or -1. */
  function FirstIndexOf(s: string, c: char): int
  {
    if s == [] then -1
    else if s[0] == c then 0
    else
      var k := FirstIndexOf(s[1..], c);
      if k == -1 then -1 else k + 1
  }

  lemma {:induction false} FirstIndexAfter(a: string, c: char, rest: string)
    requires c !in a
    ensures FirstIndexOf(a + [c] + rest, c) == |a|
  {
    if a != [] {
      assert (a + [c] + rest)[1..] == a[1..] + [c] + rest;
      FirstIndexAfter(a[1..], c, rest);
    }
  }

  /**
   * When no left-side symbol contains the arrow, the formatted text determines both joined
   * sides: two productions that print alike have the same printed left and right sides.
   */
  lemma FormatProductionUnambiguous(p: Production, q: Production)
    requires forall i :: 0 <= i < |p.left| ==> '→' !in p.left[i]
    requires forall i :: 0 <= i < |q.left| ==> '→' !in q.left[i]
    requires FormatProduction(p) == FormatProduction(q)
    ensures Join(p.left, " ") == Join(q.left, " ")
    ensures Join(p.right, " ") == Join(q.right, " ")
  {
    var a, b := Join(p.left, " "), Join(q.left, " ");
    JoinAvoids(p.left, " ", '→');
    JoinAvoids(q.left, " ", '→');
    var f := FormatProduction(p);
    assert f == (a + " ") + ['→'] + (" " + Join(p.right, " "));
    assert f == (b + " ") + ['→'] + (" " + Join(q.right, " "));
    FirstIndexAfter(a + " ", '→', " " + Join(p.right, " "));
    FirstIndexAfter(b + " ", '→', " " + Join(q.right, " "));
    assert a == f[..|a|] == b;
    assert Join(p.right, " ") == f[|a| + 3..] == Join(q.right, " ");
  }

  // ---------------------------------------------------------------------------
  // findApplicablePositions
  // ---------------------------------------------------------------------------

  /** The pattern occurs in the form starting at `pos`. */
  predicate IsMatchAt(form: seq<Symbol>, pattern: seq<Symbol>, pos: int)
  {
    0 <= pos && pos + |pattern| <= |form| && form[pos..pos + |pattern|] == pattern
  }

  /** The inner loop shared by both scans: compare symbol by symbol, stop at the first mismatch. */
  method MatchAt(form: seq<Symbol>, pattern: seq<Symbol>, pos: nat) returns (matched: bool)
    requires pos + |pattern| <= |form|
    ensures matched <==> IsMatchAt(form, pattern, pos)
  {
    matched := true;
    var j := 0;
    while j < |pattern|
      invariant 0 <= j <= |pattern|
      invariant matched
      invariant forall t :: 0 <= t < j ==> form[pos + t] == pattern[t]
    {
      if form[pos + j] != pattern[j] {
        matched := false;
        assert form[pos..pos + |pattern|][j] != pattern[j];
        break;
      }
      j := j + 1;
    }
    if matched {
      assert form[pos..pos + |pattern|] == pattern;
    }
  }

  /** The matching positions below `n`, ascending. */
  function PositionsBelow(form: seq<Symbol>, pattern: seq<Symbol>, n: nat): seq<nat>
  {
    if n == 0 then []
    else PositionsBelow(form, pattern, n - 1) + (if IsMatchAt(form, pattern, n - 1) then [n - 1] else [])
  }

  /** The number of start positions the scan visits: `0 ..= |form| - |pattern|`. */
  function ScanLength(form: seq<Symbol>, pattern: seq<Symbol>): nat
  {
    if |pattern| <= |form| then |form| - |pattern| + 1 else 0
  }

  /** All positions where the pattern matches, ascending. */
  function MatchPositions(form: seq<Symbol>, pattern: seq<Symbol>): seq<nat>
  {
    PositionsBelow(form, pattern, ScanLength(form, pattern))
  }

  predicate StrictlyIncreasing(s: seq<nat>)
  {
    forall i, j :: 0 <= i < j < |s| ==> s[i] < s[j]
  }

  lemma {:induction false} PositionsBelowExact(form: seq<Symbol>, pattern: seq<Symbol>, n: nat)
    ensures forall q: int :: q in PositionsBelow(form, pattern, n) <==> 0 <= q < n && IsMatchAt(form, pattern, q)
    ensures StrictlyIncreasing(PositionsBelow(form, pattern, n))
  {
    if n > 0 {
      PositionsBelowExact(form, pattern, n - 1);
      var prev := PositionsBelow(form, pattern, n - 1);
      var last: seq<nat> := if IsMatchAt(form, pattern, n - 1) then [n - 1] else [];
      var all := prev + last;
      assert all == PositionsBelow(form, pattern, n);
      forall q: int ensures q in all <==> 0 <= q < n && IsMatchAt(form, pattern, q) {
        assert q in all <==> q in prev || q in last;
      }
      forall i, j | 0 <= i < j < |all| ensures all[i] < all[j] {
        if j >= |prev| {
          assert all[i] == prev[i] && prev[i] in prev;
        }
      }
    }
  }

  /** The positions reported are exactly the matches, each once, in ascending order. */
  lemma MatchPositionsExact(form: seq<Symbol>, pattern: seq<Symbol>)
    ensures forall q: int :: q in MatchPositions(form, pattern) <==> IsMatchAt(form, pattern, q)
    ensures StrictlyIncreasing(MatchPositions(form, pattern))
  {
    PositionsBelowExact(form, pattern, ScanLength(form, pattern));
  }

  /** `findApplicablePositions`: scan the start positions in ascending order and keep the matches. */
  method FindApplicablePositions(form: seq<Symbol>, production: Production) returns (positions: seq<nat>)
    ensures positions == MatchPositions(form, production.left)
    ensures StrictlyIncreasing(positions)
    ensures forall q: int :: q in positions <==> IsMatchAt(form, production.left, q)
  {
    positions := [];
    var leftPattern := production.left;
    var i := 0;
    while i <= |form| - |leftPattern|
      invariant 0 <= i <= ScanLength(form, leftPattern)
      invariant positions == PositionsBelow(form, leftPattern, i)
    {
      var matched := MatchAt(form, leftPattern, i);
      if matched {
        positions := positions + [i];
      }
      i := i + 1;
    }
    MatchPositionsExact(form, leftPattern);
  }
}
