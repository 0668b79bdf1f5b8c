/** The predefined grammars of `getAllGrammars` and the lookup `getGrammar` (grammars.js). */
module Catalog {
  import opened Wrappers
  import opened Grammars

  function P(left: seq<string>, right: seq<string>, description: string): Production
  {
    Production(left, right, description)
  }

  const AnBnCn := Grammar(
    "a^n b^n c^n", "Lengua clásica CSG - Longitud múltiple", "S",
    ["a", "b", "c"], ["S", "B", "C"],
    [ P(["S"], ["a", "S", "B", "C"], "Generar nueva capa"),
      P(["S"], ["a", "B", "C"], "Caso base"),
      P(["C", "B"], ["B", "C"], "Intercambiar B y C"),
      P(["a", "B"], ["a", "b"], "Convertir B en b"),
      P(["b", "B"], ["b", "b"], "Propagar b"),
      P(["b", "C"], ["b", "c"], "Convertir C en c"),
      P(["c", "C"], ["c", "c"], "Propagar c") ],
    ["abc", "aabbcc", "aaabbbccc"], "classic")

  const WW := Grammar(
    "ww", "Duplicación exacta de cadenas", "S",
    ["a", "b"], ["S", "A", "B", "C"],
    [ P(["S"], ["a", "S", "A"], "Agregar a"),
      P(["S"], ["b", "S", "B"], "Agregar b"),
      P(["S"], ["C"], "Iniciar copia"),
      P(["C", "a"], ["a", "a", "C"], "Copiar a"),
      P(["C", "b"], ["b", "b", "C"], "Copiar b"),
      P(["C", "A"], ["a"], "Terminar con a"),
      P(["C", "B"], ["b"], "Terminar con b") ],
    ["aa", "bb", "abab", "baba", "aabbaa"], "classic")

  const AnBnAn := Grammar(
    "a^n b^n a^n", "Centro marcado con b's", "S",
    ["a", "b"], ["S", "A", "B"],
    [ P(["S"], ["a", "S", "a"], "Agregar a's simétricos"),
      P(["S"], ["B"], "Iniciar centro"),
      P(["B"], ["b", "B"], "Agregar b"),
      P(["B"], ["b"], "Caso base b"),
      P(["a", "B"], ["B", "a"], "Intercambiar para simetría") ],
    ["aba", "aabbaa", "aaabbbaa", "aaaabbbbaaaa"], "classic")

  const AnB2n := Grammar(
    "a^n b^2n", "Relación 1:2 entre símbolos", "S",
    ["a", "b"], ["S", "A", "B"],
    [ P(["S"], ["a", "S", "B", "B"], "Agregar a y dos B"),
      P(["S"], ["a", "B", "B"], "Caso base"),
      P(["a", "B"], ["a", "b"], "Primera b"),
      P(["b", "B"], ["b", "b"], "Segunda b") ],
    ["abb", "aabbbb", "aaabbbbbb"], "classic")

  const Balanced := Grammar(
    "Balanceo Complejo", "Paréntesis correctamente anidados", "S",
    ["(", ")"], ["S"],
    [ P(["S"], ["(", "S", ")"], "Anidar paréntesis"),
      P(["S"], ["S", "S"], "Concatenar expresiones"),
      P(["S"], ["(", ")"], "Par simple") ],
    ["()", "(())", "()()", "((()))", "(()())"], "practical")

  const Declaration := Grammar(
    "Declaraciones de Variables", "Declaraciones tipo var:tipo", "S",
    ["int", "float", "x", "y", ":", ","], ["S", "D", "T", "V"],
    [ P(["S"], ["D"], "Declaración"),
      P(["D"], ["T", "V", ":", "T"], "Tipo var:tipo"),
      P(["D"], ["D", ",", "D"], "Múltiples declaraciones"),
      P(["T"], ["int"], "Tipo int"),
      P(["T"], ["float"], "Tipo float"),
      P(["V"], ["x"], "Variable x"),
      P(["V"], ["y"], "Variable y") ],
    ["int x:int", "float y:float", "int x:int,float y:float"], "practical")

  const PalindromeCtx := Grammar(
    "Palíndromo Contextual", "Palíndromos con marcadores contextuales", "S",
    ["a", "b", "c"], ["S"],
    [ P(["S"], ["a", "S", "a"], "Palíndromo con a"),
      P(["S"], ["b", "S", "b"], "Palíndromo con b"),
      P(["S"], ["c", "S", "c"], "Palíndromo con c"),
      P(["S"], ["a"], "Centro a"),
      P(["S"], ["b"], "Centro b"),
      P(["S"], ["c"], "Centro c") ],
    ["a", "aba", "bab", "abcba", "aabaa", "abba"], "practical")

  /** `getAllGrammars`: the catalog keyed by grammar id. */
  const AllGrammars: map<string, Grammar> := map[
    "anbncn" := AnBnCn,
    "ww" := WW,
    "anbnan" := AnBnAn,
    "anb2n" := AnB2n,
    "balanced" := Balanced,
    "declaration" := Declaration,
    "palindrome-ctx" := PalindromeCtx]

  /** `getGrammar`: the catalog entry, or null (None) for an unknown id. */
  function GetGrammar(id: string): (r: Option<Grammar>)
    ensures id == "anbncn" ==> r == Some(AnBnCn)
    ensures id == "ww" ==> r == Some(WW)
    ensures id == "anbnan" ==> r == Some(AnBnAn)
    ensures id == "anb2n" ==> r == Some(AnB2n)
    ensures id == "balanced" ==> r == Some(Balanced)
    ensures id == "declaration" ==> r == Some(Declaration)
    ensures id == "palindrome-ctx" ==> r == Some(PalindromeCtx)
    ensures id !in {"anbncn", "ww", "anbnan", "anb2n", "balanced", "declaration", "palindrome-ctx"} ==> r == None
  {
    if id in AllGrammars then Some(AllGrammars[id]) else None
  }

  /** A grammar whose rules all have non-empty, non-shrinking right sides passes `validateCSG`. */
  lemma NonShrinkingIsValid(g: Grammar)
    requires g.startSymbol != "" && |g.productions| > 0
    requires forall i :: 0 <= i < |g.productions| ==> 0 < |g.productions[i].left| <= |g.productions[i].right|
    ensures Violations(g) == []
  {
    ValidIffCSG(g);
  }

  /** Six catalog grammars pass `validateCSG`. */
  lemma CatalogValid()
    ensures Violations(AnBnCn) == [] && Violations(AnBnAn) == [] && Violations(AnB2n) == []
    ensures Violations(Balanced) == [] && Violations(Declaration) == [] && Violations(PalindromeCtx) == []
  {
    NonShrinkingIsValid(AnBnCn);
    NonShrinkingIsValid(AnBnAn);
    NonShrinkingIsValid(AnB2n);
    NonShrinkingIsValid(Balanced);
    NonShrinkingIsValid(Declaration);
    NonShrinkingIsValid(PalindromeCtx);
  }

  /** `ww` fails `validateCSG` on its two shrinking rules `C A → a` and `C B → b` (numbers 6 and 7). */
  lemma WWInvalid()
    ensures Violations(WW) == [LengthDecreasing(5), LengthDecreasing(6)]
  {
    var ps := WW.productions;
    ViolationsBelowEmpty(ps, "S", 5);
    assert ViolationsBelow(ps, "S", 5) == [];
    assert ViolationsBelow(ps, "S", 6) == [LengthDecreasing(5)];
  }
}
