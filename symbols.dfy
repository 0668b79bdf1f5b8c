/**
 * Symbols and sentential forms. A symbol is a JavaScript string (terminals such as
 * "int" have several characters), and a sentential form is an array of symbols.
 * `Join` is `Array.prototype.join` and `Flatten` is `join('')`.
 */
module Symbols {

  type Symbol = string

  /** `xs.join(sep)`: the elements separated by `sep`. */
  function Join(xs: seq<string>, sep: string): string
  {
    if |xs| == 0 then ""
    else if |xs| == 1 then xs[0]
    else xs[0] + sep + Join(xs[1..], sep)
  }

  /** The concatenation of all symbols: the string a form spells once its symbols are glued together. */
  function Flatten(xs: seq<string>): string
  {
    if xs == [] then "" else xs[0] + Flatten(xs[1..])
  }

  /** `join('')` is plain concatenation, so `Flatten` is what the source computes with `join('')`. */
  lemma {:induction false} JoinWithEmptySeparator(xs: seq<string>)
    ensures Join(xs, "") == Flatten(xs)
  {
    if |xs| > 1 {
      JoinWithEmptySeparator(xs[1..]);
      assert Flatten(xs) == xs[0] + Flatten(xs[1..]);
    } else if |xs| == 1 {
      assert xs[1..] == [];
    }
  }

  /** A separator-joined text never contains a character that no element and not the separator contains. */
  lemma {:induction false} JoinAvoids(xs: seq<string>, sep: string, c: char)
    requires c !in sep
    requires forall i :: 0 <= i < |xs| ==> c !in xs[i]
    ensures c !in Join(xs, sep)
  {
    if |xs| > 1 {
      JoinAvoids(xs[1..], sep, c);
    }
  }
}
