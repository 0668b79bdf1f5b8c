/**
 * What `findApplicableProductions` and `applyProduction` of csg-simulator.js compute, as
 * functions on values: the canonical list of (production, position) matches and the
 * substitution of a production's right side for its left side.
 */
module Matcher {
  import opened Symbols
  import opened Grammars

  /** An entry `{ production, productionIndex, position }` of the applicable list. */
  datatype Candidate = Candidate(production: Production, productionIndex: nat, position: nat)

  /** The candidates of production `k` at the given positions, in the positions' order. */
  function Tagged(p: Production, k: nat, positions: seq<nat>): seq<Candidate>
  {
    seq(|positions|, i requires 0 <= i < |positions| => Candidate(p, k, positions[i]))
  }

  lemma TaggedSnoc(p: Production, k: nat, positions: seq<nat>, q: nat)
    ensures Tagged(p, k, positions + [q]) == Tagged(p, k, positions) + [Candidate(p, k, q)]
  {
  }

  /** The matches of the first `n` productions: production-major, then ascending position. */
  function CandidatesBelow(form: seq<Symbol>, ps: seq<Production>, n: nat): seq<Candidate>
    requires n <= |ps|
  {
    if n == 0 then []
    else CandidatesBelow(form, ps, n - 1) + Tagged(ps[n - 1], n - 1, MatchPositions(form, ps[n - 1].left))
  }

  /** The list `findApplicableProductions` returns for a loaded grammar with productions `ps`. */
  function Candidates(form: seq<Symbol>, ps: seq<Production>): seq<Candidate>
  {
    CandidatesBelow(form, ps, |ps|)
  }

  /** `c` names a production of `ps` whose left side occurs in `form` at `c.position`. */
  predicate IsCandidate(form: seq<Symbol>, ps: seq<Production>, c: Candidate)
  {
    c.productionIndex < |ps| && c.production == ps[c.productionIndex]
    && IsMatchAt(form, c.production.left, c.position)
  }

  /** The canonical enumeration order: by production index, then by position. */
  predicate Precedes(a: Candidate, b: Candidate)
  {
    a.productionIndex < b.productionIndex
    || (a.productionIndex == b.productionIndex && a.position < b.position)
  }

  predicate InCanonicalOrder(cs: seq<Candidate>)
  {
    forall i, j :: 0 <= i < j < |cs| ==> Precedes(cs[i], cs[j])
  }

  lemma TaggedExact(p: Production, k: nat, positions: seq<nat>)
    ensures forall c: Candidate :: c in Tagged(p, k, positions) <==>
      c.productionIndex == k && c.production == p && c.position in positions
  {
    var added := Tagged(p, k, positions);
    forall c | c in added ensures c.position in positions {
      var i :| 0 <= i < |added| && added[i] == c;
      assert positions[i] in positions;
    }
    forall c: Candidate | c.productionIndex == k && c.production == p && c.position in positions
      ensures c in added
    {
      var i :| 0 <= i < |positions| && positions[i] == c.position;
      assert added[i] == c;
    }
  }

  lemma {:induction false} CandidatesBelowMembers(form: seq<Symbol>, ps: seq<Production>, n: nat)
    requires n <= |ps|
    ensures forall c :: c in CandidatesBelow(form, ps, n) <==> c.productionIndex < n && IsCandidate(form, ps, c)
  {
    if n > 0 {
      CandidatesBelowMembers(form, ps, n - 1);
      MatchPositionsExact(form, ps[n - 1].left);
      TaggedExact(ps[n - 1], n - 1, MatchPositions(form, ps[n - 1].left));
    }
  }

  lemma {:induction false} CandidatesBelowOrdered(form: seq<Symbol>, ps: seq<Production>, n: nat)
    requires n <= |ps|
    ensures InCanonicalOrder(CandidatesBelow(form, ps, n))
  {
    if n > 0 {
      CandidatesBelowOrdered(form, ps, n - 1);
      CandidatesBelowMembers(form, ps, n - 1);
      var prev := CandidatesBelow(form, ps, n - 1);
      var positions := MatchPositions(form, ps[n - 1].left);
      var added := Tagged(ps[n - 1], n - 1, positions);
      MatchPositionsExact(form, ps[n - 1].left);
      assert forall i :: 0 <= i < |prev| ==> prev[i] in prev;
      var all := prev + added;
      forall i, j | 0 <= i < j < |all| ensures Precedes(all[i], all[j]) {
        if j < |prev| {
        } else if i < |prev| {
          assert prev[i] in prev;
        } else {
          assert all[i] == added[i - |prev|] && all[j] == added[j - |prev|];
        }
      }
    }
  }

  /**
   * Nothing is skipped and nothing is invented: the list holds exactly the (production, position)
   * pairs where the left side matches, strictly ordered by production index and then position.
   */
  lemma CandidatesExact(form: seq<Symbol>, ps: seq<Production>)
    ensures forall c :: c in Candidates(form, ps) <==> IsCandidate(form, ps, c)
    ensures InCanonicalOrder(Candidates(form, ps))
  {
    CandidatesBelowMembers(form, ps, |ps|);
    CandidatesBelowOrdered(form, ps, |ps|);
  }

  /** The positions recorded for production `k`, in list order. */
  function PositionsOf(cs: seq<Candidate>, k: nat): seq<nat>
  {
    if cs == [] then []
    else (if cs[0].productionIndex == k then [cs[0].position] else []) + PositionsOf(cs[1..], k)
  }

  lemma {:induction false} PositionsOfAppend(a: seq<Candidate>, b: seq<Candidate>, k: nat)
    ensures PositionsOf(a + b, k) == PositionsOf(a, k) + PositionsOf(b, k)
  {
    if a != [] {
      assert (a + b)[1..] == a[1..] + b;
      PositionsOfAppend(a[1..], b, k);
    } else {
      assert a + b == b;
    }
  }

  lemma {:induction false} PositionsOfTagged(p: Production, j: nat, positions: seq<nat>, k: nat)
    ensures PositionsOf(Tagged(p, j, positions), k) == if j == k then positions else []
  {
    if positions != [] {
      assert Tagged(p, j, positions)[1..] == Tagged(p, j, positions[1..]);
      PositionsOfTagged(p, j, positions[1..], k);
      if j == k {
        assert positions == [positions[0]] + positions[1..];
      }
    }
  }

  lemma {:induction false} PositionsOfBelow(form: seq<Symbol>, ps: seq<Production>, n: nat, k: nat)
    requires n <= |ps|
    ensures PositionsOf(CandidatesBelow(form, ps, n), k) == if k < n then MatchPositions(form, ps[k].left) else []
  {
    if n > 0 {
      var p := ps[n - 1];
      PositionsOfBelow(form, ps, n - 1, k);
      PositionsOfAppend(CandidatesBelow(form, ps, n - 1), Tagged(p, n - 1, MatchPositions(form, p.left)), k);
      PositionsOfTagged(p, n - 1, MatchPositions(form, p.left), k);
    }
  }

  /**
   * The positions recorded for production `k` are exactly what the single-production scan
   * `findApplicablePositions` (grammars.js) returns for it, in the same order.
   */
  lemma CandidatesAgreeWithPositions(form: seq<Symbol>, ps: seq<Production>, k: nat)
    requires k < |ps|
    ensures PositionsOf(Candidates(form, ps), k) == MatchPositions(form, ps[k].left)
  {
    PositionsOfBelow(form, ps, |ps|, k);
  }

  /**
   * `applyProduction`'s new form: the prefix before the position, the right side, and the rest
   * after the matched left side. Positions past the end are clamped as `Array.prototype.slice` does.
   */
  function Substitute(form: seq<Symbol>, c: Candidate): seq<Symbol>
  {
    var cut := if c.position <= |form| then c.position else |form|;
    var resume := if c.position + |c.production.left| <= |form| then c.position + |c.production.left| else |form|;
    form[..cut] + c.production.right + form[resume..]
  }

  /** At a match, the form keeps its prefix and suffix, gains the right side, and its length changes by |right| - |left|. */
  lemma SubstituteAtMatch(form: seq<Symbol>, c: Candidate)
    requires IsMatchAt(form, c.production.left, c.position)
    ensures |Substitute(form, c)| == |form| - |c.production.left| + |c.production.right|
    ensures Substitute(form, c)[..c.position] == form[..c.position]
    ensures Substitute(form, c)[c.position..c.position + |c.production.right|] == c.production.right
    ensures Substitute(form, c)[c.position + |c.production.right|..] == form[c.position + |c.production.left|..]
  {
  }

  /** Applying the right side of a length-non-decreasing rule never shortens the form. */
  lemma SubstituteNonShrinking(form: seq<Symbol>, c: Candidate)
    requires IsMatchAt(form, c.production.left, c.position)
    requires |c.production.left| <= |c.production.right|
    ensures |Substitute(form, c)| >= |form|
  {
    SubstituteAtMatch(form, c);
  }
}
