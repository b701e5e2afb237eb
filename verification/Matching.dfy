/** The reviewer eval's pairing of candidates with goldens: the cached recursion that
    walks the candidates with a bitmask of the goldens already used. */
module Matching {

  datatype Cell = Cell(matches: bool, confidence: real)

  type Matrix = seq<seq<Cell>>

  type Pair = (nat, nat)

  datatype Solution = Solution(count: nat, confidence: real, pairs: seq<Pair>)

  function Width(m: Matrix): nat {
    if m == [] then 0 else |m[0]|
  }

  /** One row for each candidate, one cell in it for each golden. */
  predicate Rectangular(m: Matrix) {
    forall i | 0 <= i < |m| :: |m[i]| == Width(m)
  }

  /** `mask & (1 << k)` is not zero. */
  predicate TestBit(mask: nat, k: nat) {
    if k == 0 then mask % 2 == 1 else TestBit(mask / 2, k - 1)
  }

  /** `mask | (1 << k)`. */
  function SetBit(mask: nat, k: nat): nat {
    if k == 0 then mask / 2 * 2 + 1 else SetBit(mask / 2, k - 1) * 2 + mask % 2
  }

  lemma {:induction false} SetBitSetsOnlyThatBit(mask: nat, k: nat, j: nat)
    ensures TestBit(SetBit(mask, k), j) <==> TestBit(mask, j) || j == k
  {
    var now := SetBit(mask, k);
    if k == 0 {
      assert now / 2 == mask / 2;
    } else {
      assert now / 2 == SetBit(mask / 2, k - 1) && now % 2 == mask % 2;
      if j > 0 {
        SetBitSetsOnlyThatBit(mask / 2, k - 1, j - 1);
      }
    }
  }

  lemma {:induction false} NoBitOfZero(k: nat)
    ensures !TestBit(0, k)
  {
    if k > 0 {
      NoBitOfZero(k - 1);
    }
  }

  /** Python's comparison of `(count, confidence)` tuples. */
  predicate Beats(a: Solution, b: Solution) {
    a.count > b.count || (a.count == b.count && a.confidence > b.confidence)
  }

  function Extend(m: Matrix, i: nat, g: nat, rest: Solution): Solution
    requires i < |m| && g < |m[i]|
  {
    Solution(rest.count + 1, rest.confidence + m[i][g].confidence, [(i, g)] + rest.pairs)
  }

  /** The recursion without its cache: the best pairing of the candidates from `i` on with
      the goldens outside `mask`. */
  function Solve(m: Matrix, i: nat, mask: nat): Solution
    requires Rectangular(m)
    decreases |m| - i, Width(m) + 1
  {
    if i >= |m| then Solution(0, 0.0, [])
    else BestFrom(m, i, mask, 0, Solve(m, i + 1, mask))
  }

  /** What the loop over the goldens makes of `best` from `g` on. */
  function BestFrom(m: Matrix, i: nat, mask: nat, g: nat, best: Solution): Solution
    requires Rectangular(m) && i < |m| && g <= Width(m)
    decreases |m| - i, Width(m) - g
  {
    if g == Width(m) then best
    else if TestBit(mask, g) || !m[i][g].matches then BestFrom(m, i, mask, g + 1, best)
    else
      var candidate := Extend(m, i, g, Solve(m, i + 1, SetBit(mask, g)));
      BestFrom(m, i, mask, g + 1, if Beats(candidate, best) then candidate else best)
  }

  function SelectPairs(m: Matrix): seq<Pair>
    requires Rectangular(m)
  {
    Solve(m, 0, 0).pairs
  }

  /** The recursion as it runs: an explicit table keyed by candidate index and mask. */
  class Solver {
    const matrix: Matrix
    var cache: map<(nat, nat), Solution>

    ghost predicate Valid()
      reads this
    {
      Rectangular(matrix) &&
      forall key | key in cache :: cache[key] == Solve(matrix, key.0, key.1)
    }

    constructor (matrix: Matrix)
      requires Rectangular(matrix)
      ensures Valid() && this.matrix == matrix && cache == map[]
    {
      this.matrix := matrix;
      cache := map[];
    }

    method SolveCached(i: nat, mask: nat) returns (best: Solution)
      requires Valid()
      modifies this`cache
      ensures Valid()
      ensures best == Solve(matrix, i, mask)
      ensures (i, mask) in cache
      decreases |matrix| - i
    {
      if (i, mask) in cache {
        return cache[(i, mask)];
      }
      if i >= |matrix| {
        best := Solution(0, 0.0, []);
      } else {
        best := SolveCached(i + 1, mask);
        var g := 0;
        while g < Width(matrix)
          invariant g <= Width(matrix)
          invariant Valid()
          invariant BestFrom(matrix, i, mask, g, best) == Solve(matrix, i, mask)
        {
          if !TestBit(mask, g) && matrix[i][g].matches {
            var rest := SolveCached(i + 1, SetBit(mask, g));
            var candidate := Extend(matrix, i, g, rest);
            if Beats(candidate, best) {
              best := candidate;
            }
          }
          g := g + 1;
        }
      }
      cache := cache[(i, mask) := best];
    }
  }

  method SelectPairsCached(m: Matrix) returns (pairs: seq<Pair>)
    requires Rectangular(m)
    ensures pairs == SelectPairs(m)
  {
    var solver := new Solver(m);
    var best := solver.SolveCached(0, 0);
    pairs := best.pairs;
  }

  // ---- What a matching is, independently of how one is found ----

  predicate Distinct(pairs: seq<Pair>) {
    forall a, b | 0 <= a < b < |pairs| :: pairs[a].0 != pairs[b].0 && pairs[a].1 != pairs[b].1
  }

  /** Pairs in any order, each on a matched cell, no candidate and no golden twice. */
  predicate IsMatching(m: Matrix, pairs: seq<Pair>) {
    (forall p | p in pairs :: p.0 < |m| && p.1 < |m[p.0]| && m[p.0][p.1].matches) && Distinct(pairs)
  }

  function TotalConfidence(m: Matrix, pairs: seq<Pair>): real
    requires forall p | p in pairs :: p.0 < |m| && p.1 < |m[p.0]|
  {
    if pairs == [] then 0.0
    else m[pairs[0].0][pairs[0].1].confidence + TotalConfidence(m, pairs[1..])
  }

  /** Lexicographic order on (number of pairs, total confidence). */
  predicate Better(m: Matrix, a: seq<Pair>, b: seq<Pair>)
    requires IsMatching(m, a) && IsMatching(m, b)
  {
    |a| > |b| || (|a| == |b| && TotalConfidence(m, a) > TotalConfidence(m, b))
  }

  predicate Outside(pairs: seq<Pair>, i: nat, mask: nat) {
    forall p | p in pairs :: i <= p.0 && !TestBit(mask, p.1)
  }

  predicate Ascending(pairs: seq<Pair>) {
    forall a, b | 0 <= a < b < |pairs| :: pairs[a].0 < pairs[b].0
  }

  /** A solution that is a matching of what is left, and scores itself correctly. */
  predicate Sound(m: Matrix, i: nat, mask: nat, s: Solution) {
    && IsMatching(m, s.pairs) && Outside(s.pairs, i, mask) && Ascending(s.pairs)
    && s.count == |s.pairs| && s.confidence == TotalConfidence(m, s.pairs)
  }

  lemma ExtendIsSound(m: Matrix, i: nat, mask: nat, g: nat, rest: Solution)
    requires Rectangular(m) && i < |m| && g < Width(m) && m[i][g].matches && !TestBit(mask, g)
    requires Sound(m, i + 1, SetBit(mask, g), rest)
    ensures Sound(m, i, mask, Extend(m, i, g, rest))
  {
    var s := Extend(m, i, g, rest);
    forall p | p in rest.pairs ensures i < p.0 && p.1 != g && !TestBit(mask, p.1) {
      SetBitSetsOnlyThatBit(mask, g, p.1);
    }
    forall a, b | 0 <= a < b < |s.pairs|
      ensures s.pairs[a].0 < s.pairs[b].0 && s.pairs[a].1 != s.pairs[b].1
    {
      assert s.pairs[b] == rest.pairs[b - 1];
    }
    assert s.pairs[1..] == rest.pairs;
  }

  lemma {:induction false} SolveIsSound(m: Matrix, i: nat, mask: nat)
    requires Rectangular(m)
    ensures Sound(m, i, mask, Solve(m, i, mask))
    decreases |m| - i, Width(m) + 1
  {
    if i < |m| {
      SolveIsSound(m, i + 1, mask);
      BestFromIsSound(m, i, mask, 0, Solve(m, i + 1, mask));
    }
  }

  lemma {:induction false} BestFromIsSound(m: Matrix, i: nat, mask: nat, g: nat, best: Solution)
    requires Rectangular(m) && i < |m| && g <= Width(m)
    requires Sound(m, i, mask, best)
    ensures Sound(m, i, mask, BestFrom(m, i, mask, g, best))
    decreases |m| - i, Width(m) - g
  {
    if g < Width(m) {
      if TestBit(mask, g) || !m[i][g].matches {
        BestFromIsSound(m, i, mask, g + 1, best);
      } else {
        var rest := Solve(m, i + 1, SetBit(mask, g));
        SolveIsSound(m, i + 1, SetBit(mask, g));
        ExtendIsSound(m, i, mask, g, rest);
        var candidate := Extend(m, i, g, rest);
        BestFromIsSound(m, i, mask, g + 1, if Beats(candidate, best) then candidate else best);
      }
    }
  }

  /** The loop's result is beaten neither by what it started with nor by any choice it saw. */
  lemma {:induction false} BestFromIsBest(m: Matrix, i: nat, mask: nat, g: nat, best: Solution, h: nat)
    requires Rectangular(m) && i < |m| && g <= Width(m)
    ensures !Beats(best, BestFrom(m, i, mask, g, best))
    ensures g <= h < Width(m) && !TestBit(mask, h) && m[i][h].matches ==>
              !Beats(Extend(m, i, h, Solve(m, i + 1, SetBit(mask, h))), BestFrom(m, i, mask, g, best))
    decreases Width(m) - g
  {
    if g < Width(m) {
      if TestBit(mask, g) || !m[i][g].matches {
        BestFromIsBest(m, i, mask, g + 1, best, h);
      } else {
        var candidate := Extend(m, i, g, Solve(m, i + 1, SetBit(mask, g)));
        BestFromIsBest(m, i, mask, g + 1, if Beats(candidate, best) then candidate else best, h);
      }
    }
  }

  function WithoutAt<T>(s: seq<T>, k: nat): (r: seq<T>)
    requires k < |s|
    ensures |r| == |s| - 1
    ensures forall x | x in r :: x in s
  {
    s[..k] + s[k + 1..]
  }

  lemma {:induction false} RemovingAPairRemovesItsConfidence(m: Matrix, pairs: seq<Pair>, k: nat)
    requires k < |pairs| && forall p | p in pairs :: p.0 < |m| && p.1 < |m[p.0]|
    ensures TotalConfidence(m, pairs)
         == TotalConfidence(m, WithoutAt(pairs, k)) + m[pairs[k].0][pairs[k].1].confidence
  {
    if k == 0 {
      assert WithoutAt(pairs, 0) == pairs[1..];
    } else {
      RemovingAPairRemovesItsConfidence(m, pairs[1..], k - 1);
      assert WithoutAt(pairs, k)[1..] == WithoutAt(pairs[1..], k - 1);
    }
  }

  /** Taking the pair of candidate `i` out of a matching leaves one for the candidates after it. */
  lemma RemovingAPairLeavesAMatching(m: Matrix, i: nat, mask: nat, pairs: seq<Pair>, k: nat)
    requires IsMatching(m, pairs) && Outside(pairs, i, mask) && k < |pairs| && pairs[k].0 == i
    ensures IsMatching(m, WithoutAt(pairs, k))
    ensures Outside(WithoutAt(pairs, k), i + 1, SetBit(mask, pairs[k].1))
  {
    var g, rest := pairs[k].1, WithoutAt(pairs, k);
    forall a | 0 <= a < |rest|
      ensures i + 1 <= rest[a].0 && !TestBit(SetBit(mask, g), rest[a].1)
    {
      var b := if a < k then a else a + 1;
      assert rest[a] == pairs[b] && pairs[b] in pairs;
      SetBitSetsOnlyThatBit(mask, g, rest[a].1);
    }
  }

  lemma NotBeatenIsTransitive(a: Solution, b: Solution, c: Solution)
    requires !Beats(a, b) && !Beats(b, c)
    ensures !Beats(a, c)
  {
  }

  /** The recursion is beaten neither by leaving candidate `i` out nor by any golden it may take. */
  lemma SolveIsBestChoice(m: Matrix, i: nat, mask: nat, h: nat)
    requires Rectangular(m) && i < |m|
    ensures !Beats(Solve(m, i + 1, mask), Solve(m, i, mask))
    ensures h < Width(m) && !TestBit(mask, h) && m[i][h].matches ==>
              !Beats(Extend(m, i, h, Solve(m, i + 1, SetBit(mask, h))), Solve(m, i, mask))
  {
    BestFromIsBest(m, i, mask, 0, Solve(m, i + 1, mask), h);
  }

  /** A matching as the solution the recursion would report for it. */
  function Scored(m: Matrix, pairs: seq<Pair>): Solution
    requires IsMatching(m, pairs)
  {
    Solution(|pairs|, TotalConfidence(m, pairs), pairs)
  }

  /** No matching of what is left, in whatever order it is listed, beats the recursion. */
  lemma {:induction false} SolveIsOptimal(m: Matrix, i: nat, mask: nat, pairs: seq<Pair>)
    requires Rectangular(m) && IsMatching(m, pairs) && Outside(pairs, i, mask)
    ensures !Beats(Scored(m, pairs), Solve(m, i, mask))
    decreases |m| - i
  {
    assert pairs == [] || pairs[0] in pairs;
    if i >= |m| {
    } else if k :| 0 <= k < |pairs| && pairs[k].0 == i {
      var g, rest := pairs[k].1, WithoutAt(pairs, k);
      assert pairs[k] in pairs;
      RemovingAPairLeavesAMatching(m, i, mask, pairs, k);
      SolveIsOptimal(m, i + 1, SetBit(mask, g), rest);
      RemovingAPairRemovesItsConfidence(m, pairs, k);
      var taken := Extend(m, i, g, Solve(m, i + 1, SetBit(mask, g)));
      assert !Beats(Scored(m, pairs), taken);
      SolveIsBestChoice(m, i, mask, g);
      NotBeatenIsTransitive(Scored(m, pairs), taken, Solve(m, i, mask));
    } else {
      SolveIsOptimal(m, i + 1, mask, pairs);
      SolveIsBestChoice(m, i, mask, 0);
      NotBeatenIsTransitive(Scored(m, pairs), Solve(m, i + 1, mask), Solve(m, i, mask));
    }
  }

  /** The selected pairs form a matching, listed by candidate, and no matching is better. */
  lemma SelectPairsIsOptimal(m: Matrix)
    requires Rectangular(m)
    ensures IsMatching(m, SelectPairs(m)) && Ascending(SelectPairs(m))
    ensures forall pairs | IsMatching(m, pairs) :: !Better(m, pairs, SelectPairs(m))
  {
    SolveIsSound(m, 0, 0);
    forall pairs: seq<Pair> | IsMatching(m, pairs) ensures !Better(m, pairs, SelectPairs(m)) {
      forall p | p in pairs ensures !TestBit(0, p.1) {
        NoBitOfZero(p.1);
      }
      SolveIsOptimal(m, 0, 0, pairs);
    }
  }

  // ---- Matchings of a part of the matrix ----

  /** Indices below `n`, none twice. */
  predicate Indices(s: seq<nat>, n: nat) {
    && (forall a | 0 <= a < |s| :: s[a] < n)
    && (forall a, b | 0 <= a < b < |s| :: s[a] != s[b])
  }

  function Submatrix(m: Matrix, rows: seq<nat>, cols: seq<nat>): (sub: Matrix)
    requires Rectangular(m) && Indices(rows, |m|) && Indices(cols, Width(m))
    ensures |sub| == |rows| && Rectangular(sub)
    ensures forall a, b | 0 <= a < |rows| && 0 <= b < |cols| ::
              |sub[a]| == |cols| && sub[a][b] == m[rows[a]][cols[b]]
  {
    seq(|rows|, a requires 0 <= a < |rows| => SelectColumns(m[rows[a]], cols))
  }

  function SelectColumns(row: seq<Cell>, cols: seq<nat>): seq<Cell>
    requires Indices(cols, |row|)
  {
    seq(|cols|, b requires 0 <= b < |cols| => row[cols[b]])
  }

  /** A matching of a part of the matrix, as pairs of the whole one. */
  function Embed(pairs: seq<Pair>, rows: seq<nat>, cols: seq<nat>): seq<Pair>
    requires forall a | 0 <= a < |pairs| :: pairs[a].0 < |rows| && pairs[a].1 < |cols|
  {
    seq(|pairs|, a requires 0 <= a < |pairs| => (rows[pairs[a].0], cols[pairs[a].1]))
  }

  lemma EmbeddingIsAMatching(m: Matrix, rows: seq<nat>, cols: seq<nat>, pairs: seq<Pair>)
    requires Rectangular(m) && Indices(rows, |m|) && Indices(cols, Width(m))
    requires IsMatching(Submatrix(m, rows, cols), pairs)
    ensures forall a | 0 <= a < |pairs| :: pairs[a].0 < |rows| && pairs[a].1 < |cols|
    ensures IsMatching(m, Embed(pairs, rows, cols))
  {
    var sub: Matrix := Submatrix(m, rows, cols);
    forall a | 0 <= a < |pairs|
      ensures pairs[a].0 < |rows| && pairs[a].1 < |cols| && sub[pairs[a].0][pairs[a].1].matches
    {
      assert pairs[a] in pairs;
    }
    var outer := Embed(pairs, rows, cols);
    forall a, b | 0 <= a < b < |outer|
      ensures outer[a].0 != outer[b].0 && outer[a].1 != outer[b].1
    {
      var r, r', c, c' := pairs[a].0, pairs[b].0, pairs[a].1, pairs[b].1;
      assert rows[r] != rows[r'];
      assert cols[c] != cols[c'];
    }
  }

  /** Pairing only some candidates with only some goldens never finds more pairs. */
  lemma SubmatrixNeverMatchesMore(m: Matrix, rows: seq<nat>, cols: seq<nat>)
    requires Rectangular(m) && Indices(rows, |m|) && Indices(cols, Width(m))
    ensures |SelectPairs(Submatrix(m, rows, cols))| <= |SelectPairs(m)|
  {
    var sub := Submatrix(m, rows, cols);
    SelectPairsIsOptimal(sub);
    SelectPairsIsOptimal(m);
    EmbeddingIsAMatching(m, rows, cols, SelectPairs(sub));
    assert !Better(m, Embed(SelectPairs(sub), rows, cols), SelectPairs(m));
  }
}
