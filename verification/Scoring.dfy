/** The scores the reviewer eval derives from a selected pairing, one example at a time and
    over a whole experiment. Ratios are exact reals. */
module Scoring {
  import opened Matching
  import opened NewestWindow
  import opened Options

  /** A comment once its text and severity have been normalised. */
  datatype Comment = Comment(file: string, line: Option<int>, words: string, severity: string, category: Option<string>)

  // ---- Duplicate candidates ----

  datatype Key = Key(file: string, line: Option<int>, words: string)

  function KeyOf(c: Comment): Key {
    Key(c.file, c.line, c.words)
  }

  function Keys(s: seq<Comment>): set<Key> {
    set c | c in s :: KeyOf(c)
  }

  /** The comments that are the first with their key, in order. */
  function Deduped(s: seq<Comment>): seq<Comment> {
    if s == [] then []
    else
      var front, last := s[..|s| - 1], s[|s| - 1];
      if KeyOf(last) in Keys(front) then Deduped(front) else Deduped(front) + [last]
  }

  method DedupeCandidates(candidates: seq<Comment>) returns (unique: seq<Comment>, duplicates: int)
    ensures unique == Deduped(candidates)
    ensures duplicates == |candidates| - |unique|
  {
    unique := [];
    var seen: set<Key> := {};
    for i := 0 to |candidates|
      invariant seen == Keys(candidates[..i])
      invariant unique == Deduped(candidates[..i])
    {
      assert candidates[..i + 1] == candidates[..i] + [candidates[i]];
      if KeyOf(candidates[i]) !in seen {
        seen := seen + {KeyOf(candidates[i])};
        unique := unique + [candidates[i]];
      }
    }
    assert candidates[..|candidates|] == candidates;
    duplicates := |candidates| - |unique|;
  }

  predicate DistinctKeys(s: seq<Comment>) {
    forall a, b | 0 <= a < b < |s| :: KeyOf(s[a]) != KeyOf(s[b])
  }

  /** No key is lost and none is left twice. */
  lemma {:induction false} DedupedKeepsKeys(s: seq<Comment>)
    ensures DistinctKeys(Deduped(s)) && Keys(Deduped(s)) == Keys(s)
    ensures |Deduped(s)| <= |s|
  {
    if s != [] {
      var front, last := s[..|s| - 1], s[|s| - 1];
      DedupedKeepsKeys(front);
      assert s == front + [last];
      assert Keys(s) == Keys(front) + {KeyOf(last)};
      var kept := Deduped(front);
      assert forall a | 0 <= a < |kept| :: KeyOf(kept[a]) in Keys(kept);
      assert Keys(kept + [last]) == Keys(kept) + {KeyOf(last)};
    }
  }

  predicate FirstWithItsKey(s: seq<Comment>, i: nat) {
    i < |s| && KeyOf(s[i]) !in Keys(s[..i])
  }

  /** Every survivor is the first comment with its key. */
  lemma {:induction false} DedupedKeepsFirsts(s: seq<Comment>, c: Comment) returns (i: nat)
    requires c in Deduped(s)
    ensures FirstWithItsKey(s, i) && s[i] == c
  {
    var front := s[..|s| - 1];
    if c in Deduped(front) {
      i := DedupedKeepsFirsts(front, c);
      assert s[..i] == front[..i];
    } else {
      i := |s| - 1;
    }
  }

  /** Comments without duplicates are all kept, so deduplicating again changes nothing. */
  lemma {:induction false} DistinctIsKept(s: seq<Comment>)
    requires DistinctKeys(s)
    ensures Deduped(s) == s
  {
    if s != [] {
      DistinctIsKept(s[..|s| - 1]);
      assert s == s[..|s| - 1] + [s[|s| - 1]];
    }
  }

  /** Two comments are the same when file, line and words agree: no two survivors are, and every
      comment is the same as some survivor. */
  lemma DedupedKeepsOneOfEach(s: seq<Comment>)
    ensures forall a, b | 0 <= a < b < |Deduped(s)| ::
              var x, y := Deduped(s)[a], Deduped(s)[b]; (x.file, x.line, x.words) != (y.file, y.line, y.words)
    ensures forall c | c in s ::
              exists d | d in Deduped(s) :: (d.file, d.line, d.words) == (c.file, c.line, c.words)
  {
    DedupedKeepsKeys(s);
    forall a, b | 0 <= a < b < |Deduped(s)|
      ensures var x, y := Deduped(s)[a], Deduped(s)[b]; (x.file, x.line, x.words) != (y.file, y.line, y.words)
    {
      assert KeyOf(Deduped(s)[a]) != KeyOf(Deduped(s)[b]);
    }
    forall c | c in s ensures exists d | d in Deduped(s) :: (d.file, d.line, d.words) == (c.file, c.line, c.words) {
      assert KeyOf(c) in Keys(Deduped(s));
    }
  }

  lemma DedupedIsIdempotent(s: seq<Comment>)
    ensures Deduped(Deduped(s)) == Deduped(s)
  {
    DedupedKeepsKeys(s);
    DistinctIsKept(Deduped(s));
  }

  // ---- Precision, recall and F ----

  function Ratio(part: nat, whole: nat): real {
    if whole == 0 then 0.0 else part as real / whole as real
  }

  function FBeta(p: real, r: real, beta: real): real {
    WeightedF(p, r, beta * beta)
  }

  function WeightedF(p: real, r: real, beta2: real): real {
    var denom := beta2 * p + r;
    if denom != 0.0 then (1.0 + beta2) * p * r / denom else 0.0
  }

  function Min(a: real, b: real): real { if a <= b then a else b }

  function Max(a: real, b: real): real { if a <= b then b else a }

  lemma Monotone(a: real, b: real, c: real)
    requires a <= b && c >= 0.0
    ensures a * c <= b * c
  {
  }

  lemma Distribute(a: real, b: real, c: real)
    ensures a * (b + c) == a * b + a * c
  {
  }

  lemma QuotientBetween(n: real, d: real, lo: real, hi: real)
    requires d > 0.0 && lo * d <= n <= hi * d
    ensures lo <= n / d <= hi
  {
    var q := n / d;
    assert q * d == n;
    assert q < lo ==> (lo - q) * d > 0.0;
    assert q > hi ==> (q - hi) * d > 0.0;
  }

  /** A weighted mean of two numbers lies between them. */
  lemma WeightedBetween(x: real, p: real, r: real)
    requires x >= 0.0 && p >= 0.0 && r >= 0.0
    ensures Min(p, r) * (x + r) <= p * r + x * r <= Max(p, r) * (x + r)
  {
    var lo, hi := Min(p, r), Max(p, r);
    Distribute(lo, x, r);
    Distribute(hi, x, r);
    Monotone(lo, r, x);
    Monotone(lo, p, r);
    Monotone(r, hi, x);
    Monotone(p, hi, r);
  }

  lemma SplitNumerator(b: real, p: real, r: real)
    ensures (1.0 + b) * p * r == p * r + b * p * r
  {
  }

  lemma QuotientOfWeighted(x: real, p: real, r: real, n: real)
    requires x >= 0.0 && p >= 0.0 && r >= 0.0 && x + r > 0.0 && n == p * r + x * r
    ensures Min(p, r) <= n / (x + r) <= Max(p, r)
  {
    WeightedBetween(x, p, r);
    QuotientBetween(n, x + r, Min(p, r), Max(p, r));
  }

  lemma WeightedFIsBetween(p: real, r: real, b: real)
    requires p >= 0.0 && r >= 0.0 && b >= 0.0
    ensures Min(p, r) <= WeightedF(p, r, b) <= Max(p, r)
  {
    Monotone(0.0, b, p);
    var x := b * p;
    if x + r != 0.0 {
      SplitNumerator(b, p, r);
      QuotientOfWeighted(x, p, r, (1.0 + b) * p * r);
    }
  }

  /** An F score lies between the precision and the recall it combines. */
  lemma FBetaIsBetween(p: real, r: real, beta: real)
    requires p >= 0.0 && r >= 0.0
    ensures Min(p, r) <= FBeta(p, r, beta) <= Max(p, r)
  {
    WeightedFIsBetween(p, r, beta * beta);
  }

  lemma CrossMultiply(n: real, d: real, n': real, d': real)
    requires d != 0.0 && d' != 0.0 && n * d' == n' * d
    ensures n / d == n' / d'
  {
    var q := n / d;
    assert q * d == n;
    assert (q * d' - n') * d == 0.0;
    assert q * d' == n';
  }

  lemma Regroup(p: real, r: real, b: real, c: real)
    ensures p * r * (b * c) == b * p * (r * c)
  {
  }

  lemma Swap(p: real, r: real, a: real)
    ensures p * r * a == r * (p * a)
  {
  }

  lemma Pull(x: real, y: real, z: real)
    ensures x * y * z == x * (y * z)
  {
  }

  /** The two ways of writing the F score have the same cross products. */
  lemma CrossProducts(p: real, r: real, a: real, c: real, t: real, b: real)
    requires p * a == t && r * c == t
    ensures (1.0 + b) * p * r * (b * c + a) == (1.0 + b) * t * (b * p + r)
  {
    Distribute(p * r, b * c, a);
    Regroup(p, r, b, c);
    Swap(p, r, a);
    Distribute(t, b * p, r);
    assert p * r * (b * c + a) == t * (b * p + r);
    Pull(1.0 + b, p, r);
    Pull(1.0 + b, p * r, b * c + a);
    Pull(1.0 + b, t, b * p + r);
  }

  lemma RatioTimes(tp: nat, whole: nat)
    requires whole > 0
    ensures Ratio(tp, whole) * whole as real == tp as real
    ensures Ratio(tp, whole) >= 0.0 && (tp > 0 ==> Ratio(tp, whole) > 0.0)
  {
  }

  lemma WeightedFFromRatios(p: real, r: real, t: real, x: real, y: real, b: real)
    requires t > 0.0 && x >= 0.0 && y >= 0.0 && b >= 0.0 && p > 0.0 && r > 0.0
    requires p * (t + x) == t && r * (t + y) == t
    ensures (1.0 + b) * t + b * y + x > 0.0
    ensures WeightedF(p, r, b) == (1.0 + b) * t / ((1.0 + b) * t + b * y + x)
  {
    Monotone(0.0, b, y);
    Monotone(0.0, b, t);
    Monotone(0.0, b, p);
    Distribute(b, t, y);
    Distribute(t, 1.0, b);
    var d, d' := b * p + r, b * (t + y) + (t + x);
    assert d' == (1.0 + b) * t + b * y + x;
    CrossProducts(p, r, t + x, t + y, t, b);
    CrossMultiply((1.0 + b) * p * r, d, (1.0 + b) * t, d');
  }

  /** The F score straight from the counts: missed goldens weigh beta squared times as much
      as false alarms. */
  lemma FBetaFromCounts(tp: nat, fp: nat, fn: nat, beta: real)
    requires tp > 0
    ensures var b := beta * beta;
            var t := (1.0 + b) * tp as real;
            && t + b * fn as real + fp as real > 0.0
            && FBeta(Ratio(tp, tp + fp), Ratio(tp, tp + fn), beta) == t / (t + b * fn as real + fp as real)
  {
    RatioTimes(tp, tp + fp);
    RatioTimes(tp, tp + fn);
    WeightedFFromRatios(Ratio(tp, tp + fp), Ratio(tp, tp + fn), tp as real, fp as real, fn as real, beta * beta);
  }

  /** One side of the scores: all comments, or only those of medium severity and above. */
  datatype Scores = Scores(tp: nat, fp: nat, fn: nat, precision: real, recall: real, f1: real)

  function Metrics(tp: nat, candidates: nat, goldens: nat): Scores {
    var fp := if candidates - tp > 0 then candidates - tp else 0;
    var fn := if goldens - tp > 0 then goldens - tp else 0;
    var precision, recall := Ratio(tp, candidates), Ratio(tp, goldens);
    Scores(tp, fp, fn, precision, recall, FBeta(precision, recall, 1.0))
  }

  // ---- One example ----

  const Strict: set<string> := {"bug", "security", "concurrency", "data", "api"}
  const Core: set<string> := Strict + {"perf", "test_gap", "doc_defect"}

  datatype Profile = Profile(tp: nat, fp: nat, fn: nat)

  datatype ExampleCounts = ExampleCounts(all: Scores, medium: Scores, strict: Profile, core: Profile, synthetic: bool)

  predicate InProfile(c: Comment, categories: set<string>) {
    c.category.Some? && c.category.value in categories
  }

  /** How many of the first `n` goldens are in the profile, and how many of those are matched. */
  function CountInProfile(goldens: seq<Comment>, categories: set<string>, n: nat): (k: nat)
    requires n <= |goldens|
    ensures k <= n
  {
    if n == 0 then 0
    else
      var one := if InProfile(goldens[n - 1], categories) then 1 else 0;
      CountInProfile(goldens, categories, n - 1) + one
  }

  function CountMatched(goldens: seq<Comment>, matched: set<nat>, categories: set<string>, n: nat): (k: nat)
    requires n <= |goldens|
    ensures k <= CountInProfile(goldens, categories, n)
  {
    if n == 0 then 0
    else
      var one := if InProfile(goldens[n - 1], categories) && n - 1 in matched then 1 else 0;
      CountMatched(goldens, matched, categories, n - 1) + one
  }

  function ProfileCounts(goldens: seq<Comment>, matched: set<nat>, fp: nat, categories: set<string>): Profile {
    var tp := CountMatched(goldens, matched, categories, |goldens|);
    Profile(tp, fp, CountInProfile(goldens, categories, |goldens|) - tp)
  }

  predicate MediumPlus(c: Comment) {
    c.severity in {"medium", "high", "critical"}
  }

  function MediumIndices(comments: seq<Comment>): (s: seq<nat>)
    ensures forall a | 0 <= a < |s| :: s[a] < |comments| && MediumPlus(comments[s[a]])
    ensures Indices(s, |comments|)
    ensures |s| <= |comments|
  {
    if comments == [] then []
    else
      var n := |comments| - 1;
      var front := MediumIndices(comments[..n]);
      if MediumPlus(comments[n]) then front + [n] else front
  }

  function MatchedGoldens(pairs: seq<Pair>): set<nat> {
    set p | p in pairs :: p.1
  }

  /** What `judge_match` records for candidates already deduplicated; an example without
      goldens is not scored. */
  function Judge(candidates: seq<Comment>, goldens: seq<Comment>, m: Matrix, synthetic: bool): Option<ExampleCounts>
    requires |m| == |candidates| && forall i | 0 <= i < |m| :: |m[i]| == |goldens|
  {
    if goldens == [] then None
    else
      var pairs := SelectPairs(m);
      var all := Metrics(|pairs|, |candidates|, |goldens|);
      var rows, cols := MediumIndices(candidates), MediumIndices(goldens);
      var medium := if rows == [] then [] else SelectPairs(Submatrix(m, rows, cols));
      Some(ExampleCounts(all, Metrics(|medium|, |rows|, |cols|),
                         ProfileCounts(goldens, MatchedGoldens(pairs), all.fp, Strict),
                         ProfileCounts(goldens, MatchedGoldens(pairs), all.fp, Core), synthetic))
  }

  function Below(n: nat): (s: set<nat>)
    ensures forall k: nat :: k in s <==> k < n
    ensures |s| == n
  {
    if n == 0 then {} else Below(n - 1) + {n - 1}
  }

  lemma {:induction false} InjectiveImageSize(s: seq<nat>, n: nat)
    requires Indices(s, n)
    ensures |s| <= n
  {
    var all := Below(n);
    var image := set a | 0 <= a < |s| :: s[a];
    SetOfSeqSize(s);
    assert image <= all;
    SubsetIsSmaller(image, all);
  }

  lemma {:induction false} SetOfSeqSize(s: seq<nat>)
    requires forall a, b | 0 <= a < b < |s| :: s[a] != s[b]
    ensures |set a | 0 <= a < |s| :: s[a]| == |s|
  {
    if s != [] {
      var front, last := s[..|s| - 1], s[|s| - 1];
      SetOfSeqSize(front);
      assert (set a | 0 <= a < |s| :: s[a]) == (set a | 0 <= a < |front| :: front[a]) + {last};
    }
  }

  /** A matching has no more pairs than there are candidates or goldens, and as many
      matched goldens as pairs. */
  lemma MatchingFits(m: Matrix, pairs: seq<Pair>)
    requires Rectangular(m) && IsMatching(m, pairs)
    ensures |pairs| <= |m| && |pairs| <= Width(m) && |MatchedGoldens(pairs)| == |pairs|
  {
    var rows := seq(|pairs|, a requires 0 <= a < |pairs| => pairs[a].0);
    var cols := seq(|pairs|, a requires 0 <= a < |pairs| => pairs[a].1);
    assert forall a | 0 <= a < |pairs| :: pairs[a] in pairs;
    InjectiveImageSize(rows, |m|);
    InjectiveImageSize(cols, Width(m));
    SetOfSeqSize(cols);
    var image := set a | 0 <= a < |cols| :: cols[a];
    forall g | g in MatchedGoldens(pairs) ensures g in image {
      var p :| p in pairs && p.1 == g;
      var a :| 0 <= a < |pairs| && pairs[a] == p;
      assert cols[a] == g;
    }
    assert MatchedGoldens(pairs) == image;
  }

  lemma {:induction false} WiderProfileMatchesMore(
    goldens: seq<Comment>, matched: set<nat>, narrow: set<string>, wide: set<string>, n: nat)
    requires narrow <= wide && n <= |goldens|
    ensures CountMatched(goldens, matched, narrow, n) <= CountMatched(goldens, matched, wide, n)
  {
    if n > 0 {
      WiderProfileMatchesMore(goldens, matched, narrow, wide, n - 1);
    }
  }

  /** The matched goldens among the first `n`. */
  function MatchedBelow(matched: set<nat>, n: nat): (s: set<nat>)
    ensures s <= matched && forall k | k in s :: k < n
  {
    if n == 0 then {}
    else if n - 1 in matched then MatchedBelow(matched, n - 1) + {n - 1}
    else MatchedBelow(matched, n - 1)
  }

  lemma {:induction false} ProfileCountsFewer(goldens: seq<Comment>, matched: set<nat>, categories: set<string>, n: nat)
    requires n <= |goldens|
    ensures CountMatched(goldens, matched, categories, n) <= |MatchedBelow(matched, n)|
  {
    if n > 0 {
      ProfileCountsFewer(goldens, matched, categories, n - 1);
    }
  }

  lemma ProfileMatchesAtMostTheMatched(goldens: seq<Comment>, matched: set<nat>, categories: set<string>)
    ensures CountMatched(goldens, matched, categories, |goldens|) <= |matched|
  {
    ProfileCountsFewer(goldens, matched, categories, |goldens|);
    SubsetIsSmaller(MatchedBelow(matched, |goldens|), matched);
  }

  lemma SelectedPairsFit(m: Matrix, candidates: nat, goldens: nat)
    requires |m| == candidates && forall i | 0 <= i < |m| :: |m[i]| == goldens
    ensures var pairs := SelectPairs(m);
            |pairs| <= candidates && |pairs| <= goldens && |MatchedGoldens(pairs)| == |pairs|
  {
    SelectPairsIsOptimal(m);
    MatchingFits(m, SelectPairs(m));
  }

  /** Within one example the counts agree with each other: the clamps never act, and the
      medium scores find no more than the full ones. */
  lemma JudgedScoresAgree(candidates: seq<Comment>, goldens: seq<Comment>, m: Matrix, synthetic: bool)
    requires |m| == |candidates| && forall i | 0 <= i < |m| :: |m[i]| == |goldens|
    requires goldens != []
    ensures var c := Judge(candidates, goldens, m, synthetic).value;
            && c.all.tp + c.all.fp == |candidates| && c.all.tp + c.all.fn == |goldens|
            && c.medium.tp + c.medium.fp == |MediumIndices(candidates)|
            && c.medium.tp + c.medium.fn == |MediumIndices(goldens)|
            && c.medium.tp <= c.all.tp
  {
    SelectedPairsFit(m, |candidates|, |goldens|);
    var rows, cols := MediumIndices(candidates), MediumIndices(goldens);
    if rows != [] {
      SubmatrixNeverMatchesMore(m, rows, cols);
      SelectedPairsFit(Submatrix(m, rows, cols), |rows|, |cols|);
    }
  }

  /** A wider profile finds at least as much, and neither finds more than there is to find. */
  lemma JudgedProfilesAgree(candidates: seq<Comment>, goldens: seq<Comment>, m: Matrix, synthetic: bool)
    requires |m| == |candidates| && forall i | 0 <= i < |m| :: |m[i]| == |goldens|
    requires goldens != []
    ensures var c := Judge(candidates, goldens, m, synthetic).value;
            && c.strict.tp <= c.core.tp <= c.all.tp
            && c.strict.fp == c.core.fp == c.all.fp
            && c.strict.tp + c.strict.fn == CountInProfile(goldens, Strict, |goldens|)
            && c.core.tp + c.core.fn == CountInProfile(goldens, Core, |goldens|)
  {
    var matched := MatchedGoldens(SelectPairs(m));
    SelectedPairsFit(m, |candidates|, |goldens|);
    WiderProfileMatchesMore(goldens, matched, Strict, Core, |goldens|);
    ProfileMatchesAtMostTheMatched(goldens, matched, Core);
  }

  // ---- What an example's counts count ----

  /** The comments of medium severity and above. */
  function Severe(comments: seq<Comment>): set<nat> {
    set i | 0 <= i < |comments| && comments[i].severity in {"medium", "high", "critical"}
  }

  /** The goldens a profile's categories keep. */
  function InCategories(goldens: seq<Comment>, categories: set<string>): set<nat> {
    set g | 0 <= g < |goldens| && goldens[g].category.Some? && goldens[g].category.value in categories
  }

  lemma CountOneMore(s: set<nat>, n: nat)
    requires n !in s
    ensures |s + {n}| == |s| + 1
  {
  }

  lemma {:induction false} MediumIndicesCount(comments: seq<Comment>)
    ensures |MediumIndices(comments)| == |Severe(comments)|
    decreases |comments|
  {
    if comments != [] {
      var n := |comments| - 1;
      var front := comments[..n];
      MediumIndicesCount(front);
      CountOneMore(Severe(front), n);
      assert Severe(comments) == if MediumPlus(comments[n]) then Severe(front) + {n} else Severe(front);
    }
  }

  lemma CategoriesOneMore(goldens: seq<Comment>, categories: set<string>, k: nat)
    requires k < |goldens|
    ensures k !in InCategories(goldens[..k], categories)
    ensures InCategories(goldens[..k + 1], categories)
         == InCategories(goldens[..k], categories) + if InProfile(goldens[k], categories) then {k} else {}
  {
  }

  lemma InProfileOneMore(goldens: seq<Comment>, categories: set<string>, k: nat)
    requires k < |goldens|
    ensures |InCategories(goldens[..k + 1], categories)|
         == |InCategories(goldens[..k], categories)| + if InProfile(goldens[k], categories) then 1 else 0
  {
    var before := InCategories(goldens[..k], categories);
    CategoriesOneMore(goldens, categories, k);
    if InProfile(goldens[k], categories) {
      CountOneMore(before, k);
    } else {
      assert before + {} == before;
    }
  }

  lemma {:induction false} InProfileCounts(goldens: seq<Comment>, categories: set<string>, n: nat)
    requires n <= |goldens|
    ensures CountInProfile(goldens, categories, n) == |InCategories(goldens[..n], categories)|
    decreases n
  {
    if n > 0 {
      InProfileCounts(goldens, categories, n - 1);
      InProfileOneMore(goldens, categories, n - 1);
    }
  }

  lemma MeetOneMore(s: set<nat>, matched: set<nat>, n: nat, more: bool)
    requires n !in s
    ensures |(s + if more then {n} else {}) * matched| == |s * matched| + if more && n in matched then 1 else 0
  {
    var grown := (s + if more then {n} else {}) * matched;
    if more && n in matched {
      assert grown == s * matched + {n};
    } else {
      assert grown == s * matched;
    }
  }

  lemma MatchedOneMore(goldens: seq<Comment>, matched: set<nat>, categories: set<string>, k: nat)
    requires k < |goldens|
    ensures |InCategories(goldens[..k + 1], categories) * matched|
         == |InCategories(goldens[..k], categories) * matched|
            + if InProfile(goldens[k], categories) && k in matched then 1 else 0
  {
    CategoriesOneMore(goldens, categories, k);
    MeetOneMore(InCategories(goldens[..k], categories), matched, k, InProfile(goldens[k], categories));
  }

  lemma {:induction false} MatchedCounts(goldens: seq<Comment>, matched: set<nat>, categories: set<string>, n: nat)
    requires n <= |goldens|
    ensures CountMatched(goldens, matched, categories, n) == |InCategories(goldens[..n], categories) * matched|
    decreases n
  {
    if n > 0 {
      MatchedCounts(goldens, matched, categories, n - 1);
      MatchedOneMore(goldens, matched, categories, n - 1);
    }
  }

  lemma ProfileCountsThese(goldens: seq<Comment>, matched: set<nat>, fp: nat, categories: set<string>)
    ensures var profile, these := ProfileCounts(goldens, matched, fp, categories), InCategories(goldens, categories);
            profile.tp == |these * matched| && profile.tp + profile.fn == |these|
  {
    InProfileCounts(goldens, categories, |goldens|);
    MatchedCounts(goldens, matched, categories, |goldens|);
    assert goldens[..|goldens|] == goldens;
  }

  /** The medium scores count the comments of medium severity and above. */
  lemma WhatTheMediumScoresCount(candidates: seq<Comment>, goldens: seq<Comment>, m: Matrix, synthetic: bool)
    requires |m| == |candidates| && forall i | 0 <= i < |m| :: |m[i]| == |goldens|
    requires goldens != []
    ensures var c := Judge(candidates, goldens, m, synthetic).value;
            && c.medium.tp + c.medium.fp == |Severe(candidates)|
            && c.medium.tp + c.medium.fn == |Severe(goldens)|
  {
    JudgedScoresAgree(candidates, goldens, m, synthetic);
    MediumIndicesCount(candidates);
    MediumIndicesCount(goldens);
  }

  /** Each profile counts the goldens of its categories: those a selected pair names as found, the
      others as missed. */
  lemma WhatTheProfilesCount(candidates: seq<Comment>, goldens: seq<Comment>, m: Matrix, synthetic: bool)
    requires |m| == |candidates| && forall i | 0 <= i < |m| :: |m[i]| == |goldens|
    requires goldens != []
    ensures var c := Judge(candidates, goldens, m, synthetic).value;
            var strict := InCategories(goldens, {"bug", "security", "concurrency", "data", "api"});
            var core := InCategories(
              goldens, {"bug", "security", "concurrency", "data", "api", "perf", "test_gap", "doc_defect"});
            var matched := set p | p in SelectPairs(m) :: p.1;
            && c.strict.tp == |strict * matched| && c.strict.tp + c.strict.fn == |strict|
            && c.core.tp == |core * matched| && c.core.tp + c.core.fn == |core|
  {
    var c, matched := Judge(candidates, goldens, m, synthetic).value, MatchedGoldens(SelectPairs(m));
    ProfileCountsThese(goldens, matched, c.all.fp, Strict);
    ProfileCountsThese(goldens, matched, c.all.fp, Core);
    assert Core == {"bug", "security", "concurrency", "data", "api", "perf", "test_gap", "doc_defect"};
  }

  // ---- A whole experiment ----

  /** The counts of the examples judged so far, by example, in the order first judged. */
  class CountsTable {
    var rows: seq<(string, ExampleCounts)>

    ghost predicate Valid()
      reads this
    {
      forall a, b | 0 <= a < b < |rows| :: rows[a].0 != rows[b].0
    }

    constructor ()
      ensures Valid() && rows == []
    {
      rows := [];
    }

    method Record(id: string, counts: ExampleCounts)
      requires Valid()
      modifies this
      ensures Valid()
      ensures (id, counts) in rows
      ensures forall row: (string, ExampleCounts) | row.0 != id :: row in rows <==> row in old(rows)
      ensures |rows| == |old(rows)|
                        + if exists row: (string, ExampleCounts) | row in old(rows) :: row.0 == id then 0 else 1
      ensures forall j | 0 <= j < |old(rows)| :: rows[j] == if old(rows)[j].0 == id then (id, counts) else old(rows)[j]
    {
      var i := 0;
      while i < |rows| && rows[i].0 != id
        invariant i <= |rows|
        invariant forall j | 0 <= j < i :: rows[j].0 != id
      {
        i := i + 1;
      }
      ghost var was := rows;
      if i < |rows| {
        assert rows[i] in rows;
        rows := rows[i := (id, counts)];
        assert rows[i] == (id, counts);
        forall row: (string, ExampleCounts) | row.0 != id ensures row in rows <==> row in was {
          if row in was {
            var j :| 0 <= j < |was| && was[j] == row;
            assert rows[j] == row;
          }
          if row in rows {
            var j :| 0 <= j < |rows| && rows[j] == row;
            assert was[j] == row;
          }
        }
      } else {
        rows := rows + [(id, counts)];
        assert rows[|rows| - 1] == (id, counts);
      }
    }

    method Drain() returns (counts: seq<ExampleCounts>)
      modifies this
      ensures rows == []
      ensures |counts| == |old(rows)| && forall a | 0 <= a < |counts| :: counts[a] == old(rows)[a].1
    {
      counts := seq(|rows|, a requires 0 <= a < |rows| reads this => rows[a].1);
      rows := [];
    }
  }

  function Sum(s: seq<Scores>, f: Scores -> nat): nat {
    if s == [] then 0 else f(s[0]) + Sum(s[1..], f)
  }

  function SumReal(s: seq<Scores>, f: Scores -> real): real {
    if s == [] then 0.0 else f(s[0]) + SumReal(s[1..], f)
  }

  datatype Aggregate = Aggregate(
    microPrecision: real, microRecall: real, microF1: real, microF2: real,
    macroPrecision: real, macroRecall: real, macroF1: real,
    tp: nat, fp: nat, fn: nat)

  function AggregateMetrics(s: seq<Scores>): Aggregate
    requires s != []
  {
    var tp, fp, fn := Sum(s, (x: Scores) => x.tp), Sum(s, (x: Scores) => x.fp), Sum(s, (x: Scores) => x.fn);
    var p, r := Ratio(tp, tp + fp), Ratio(tp, tp + fn);
    var n := |s| as real;
    Aggregate(p, r, FBeta(p, r, 1.0), FBeta(p, r, 2.0),
              SumReal(s, (x: Scores) => x.precision) / n, SumReal(s, (x: Scores) => x.recall) / n,
              SumReal(s, (x: Scores) => x.f1) / n, tp, fp, fn)
  }

  lemma RatioBounds(part: nat, whole: nat, lo: real, hi: real)
    requires part <= whole && RatioWithin(part, whole, lo, hi)
    ensures WithinBounds(part, whole, lo, hi)
  {
    if whole > 0 {
      var q, w := part as real / whole as real, whole as real;
      assert q * w == part as real;
      Monotone(lo, q, w);
      Monotone(q, hi, w);
    }
  }

  lemma AddBounds(lo: real, hi: real, w: real, w': real, p: real, p': real)
    requires lo * w <= p <= hi * w && lo * w' <= p' <= hi * w'
    ensures lo * (w + w') <= p + p' <= hi * (w + w')
  {
    Distribute(lo, w, w');
    Distribute(hi, w, w');
  }

  predicate WithinBounds(part: nat, whole: nat, lo: real, hi: real) {
    lo * whole as real <= part as real <= hi * whole as real
  }

  lemma BoundsAddUp(p: nat, w: nat, p': nat, w': nat, lo: real, hi: real)
    requires WithinBounds(p, w, lo, hi) && WithinBounds(p', w', lo, hi)
    ensures WithinBounds(p + p', w + w', lo, hi)
  {
    AddBounds(lo, hi, w as real, w' as real, p as real, p' as real);
  }

  /** Ratios between two bounds pool to a ratio between them. */
  lemma {:induction false} PooledSums(s: seq<Scores>, part: Scores -> nat, rest: Scores -> nat, lo: real, hi: real)
    requires forall x | x in s :: WithinBounds(part(x), part(x) + rest(x), lo, hi)
    ensures WithinBounds(Sum(s, part), Sum(s, part) + Sum(s, rest), lo, hi)
  {
    if s != [] {
      PooledSums(s[1..], part, rest, lo, hi);
      var p, r := part(s[0]), rest(s[0]);
      var p', r' := Sum(s[1..], part), Sum(s[1..], rest);
      BoundsAddUp(p, p + r, p', p' + r', lo, hi);
      assert Sum(s, part) + Sum(s, rest) == p + r + (p' + r');
    }
  }

  predicate RatioWithin(part: nat, whole: nat, lo: real, hi: real) {
    lo <= Ratio(part, whole) <= hi
  }

  lemma PooledRatio(s: seq<Scores>, part: Scores -> nat, rest: Scores -> nat, lo: real, hi: real)
    requires s != [] && forall x | x in s :: RatioWithin(part(x), part(x) + rest(x), lo, hi)
    ensures RatioWithin(Sum(s, part), Sum(s, part) + Sum(s, rest), lo, hi)
  {
    forall x | x in s ensures WithinBounds(part(x), part(x) + rest(x), lo, hi) {
      RatioBounds(part(x), part(x) + rest(x), lo, hi);
    }
    PooledSums(s, part, rest, lo, hi);
    if Sum(s, part) + Sum(s, rest) == 0 {
      NoPooledWeight(s, part, rest);
    } else {
      WithinBoundsGivesRatio(Sum(s, part), Sum(s, part) + Sum(s, rest), lo, hi);
    }
  }

  lemma WithinBoundsGivesRatio(part: nat, whole: nat, lo: real, hi: real)
    requires whole > 0 && WithinBounds(part, whole, lo, hi)
    ensures RatioWithin(part, whole, lo, hi)
  {
    QuotientBetween(part as real, whole as real, lo, hi);
  }

  lemma {:induction false} NoPooledWeight(s: seq<Scores>, part: Scores -> nat, rest: Scores -> nat)
    requires s != [] && Sum(s, part) + Sum(s, rest) == 0
    ensures s[0] in s && part(s[0]) + rest(s[0]) == 0
  {
  }

  lemma {:induction false} MeanBetween(s: seq<Scores>, f: Scores -> real, lo: real, hi: real)
    requires s != [] && forall x | x in s :: lo <= f(x) <= hi
    ensures lo <= SumReal(s, f) / |s| as real <= hi
  {
    SumBetween(s, f, lo, hi);
    QuotientBetween(SumReal(s, f), |s| as real, lo, hi);
  }

  lemma AddOne(lo: real, hi: real, n: real, x: real, sum: real)
    requires lo <= x <= hi && lo * n <= sum <= hi * n
    ensures lo * (n + 1.0) <= x + sum <= hi * (n + 1.0)
  {
    Distribute(lo, n, 1.0);
    Distribute(hi, n, 1.0);
  }

  lemma {:induction false} SumBetween(s: seq<Scores>, f: Scores -> real, lo: real, hi: real)
    requires forall x | x in s :: lo <= f(x) <= hi
    ensures lo * |s| as real <= SumReal(s, f) <= hi * |s| as real
  {
    if s == [] {
      assert lo * 0.0 == 0.0 && hi * 0.0 == 0.0;
    } else {
      SumBetween(s[1..], f, lo, hi);
      AddOne(lo, hi, |s[1..]| as real, f(s[0]), SumReal(s[1..], f));
      assert |s| as real == |s[1..]| as real + 1.0;
    }
  }

  /** Scores whose precision and recall are those of their own counts. */
  predicate FromCounts(x: Scores) {
    x.precision == Ratio(x.tp, x.tp + x.fp) && x.recall == Ratio(x.tp, x.tp + x.fn)
  }

  /** Pooled and averaged precision both stay within what single examples scored. */
  lemma PrecisionStaysWithinExamples(s: seq<Scores>, lo: real, hi: real)
    requires s != [] && forall x | x in s :: FromCounts(x) && lo <= x.precision <= hi
    ensures lo <= AggregateMetrics(s).microPrecision <= hi
    ensures lo <= AggregateMetrics(s).macroPrecision <= hi
  {
    PooledRatio(s, (x: Scores) => x.tp, (x: Scores) => x.fp, lo, hi);
    MeanBetween(s, (x: Scores) => x.precision, lo, hi);
  }

  /** Pooled and averaged recall both stay within what single examples scored. */
  lemma RecallStaysWithinExamples(s: seq<Scores>, lo: real, hi: real)
    requires s != [] && forall x | x in s :: FromCounts(x) && lo <= x.recall <= hi
    ensures lo <= AggregateMetrics(s).microRecall <= hi
    ensures lo <= AggregateMetrics(s).macroRecall <= hi
  {
    PooledRatio(s, (x: Scores) => x.tp, (x: Scores) => x.fn, lo, hi);
    MeanBetween(s, (x: Scores) => x.recall, lo, hi);
  }

  lemma MetricsAreFromCounts(x: Scores, candidates: nat, goldens: nat)
    requires x == Metrics(x.tp, candidates, goldens)
    requires x.tp + x.fp == candidates && x.tp + x.fn == goldens
    ensures FromCounts(x)
  {
  }

  lemma FBetaOfNothing(fp: nat, fn: nat, beta: real)
    ensures FBeta(Ratio(0, fp), Ratio(0, fn), beta) == 0.0
  {
  }

  lemma F1FromCounts(tp: nat, fp: nat, fn: nat)
    ensures FBeta(Ratio(tp, tp + fp), Ratio(tp, tp + fn), 1.0)
         == if tp == 0 then 0.0 else 2.0 * tp as real / (2.0 * tp as real + fn as real + fp as real)
  {
    if tp == 0 {
      FBetaOfNothing(tp + fp, tp + fn, 1.0);
    } else {
      FBetaFromCounts(tp, fp, fn, 1.0);
      TimesOne(fn as real);
    }
  }

  lemma F2FromCounts(tp: nat, fp: nat, fn: nat)
    ensures FBeta(Ratio(tp, tp + fp), Ratio(tp, tp + fn), 2.0)
         == if tp == 0 then 0.0 else 5.0 * tp as real / (5.0 * tp as real + 4.0 * fn as real + fp as real)
  {
    if tp == 0 {
      FBetaOfNothing(tp + fp, tp + fn, 2.0);
    } else {
      FBetaFromCounts(tp, fp, fn, 2.0);
    }
  }

  /** The micro F scores are the usual quotients of the summed counts, and the macro F1 lies
      within what single examples scored. */
  lemma AggregateFScores(s: seq<Scores>, lo: real, hi: real)
    requires s != [] && forall x | x in s :: lo <= x.f1 <= hi
    ensures var a := AggregateMetrics(s);
            var tp, fp, fn := a.tp as real, a.fp as real, a.fn as real;
            && a.microF1 == (if a.tp == 0 then 0.0 else 2.0 * tp / (2.0 * tp + fn + fp))
            && a.microF2 == (if a.tp == 0 then 0.0 else 5.0 * tp / (5.0 * tp + 4.0 * fn + fp))
            && lo <= a.macroF1 <= hi
  {
    var a := AggregateMetrics(s);
    F1FromCounts(a.tp, a.fp, a.fn);
    F2FromCounts(a.tp, a.fp, a.fn);
    MeanBetween(s, (x: Scores) => x.f1, lo, hi);
  }

  /** Twice the true positives over them and all the errors. */
  function F1Of(tp: nat, fp: nat, fn: nat): real {
    if tp == 0 then 0.0 else 2.0 * tp as real / (2.0 * tp as real + fn as real + fp as real)
  }

  lemma MetricsF1(x: Scores, candidates: nat, goldens: nat)
    requires x == Metrics(x.tp, candidates, goldens)
    requires x.tp + x.fp == candidates && x.tp + x.fn == goldens
    ensures x.f1 == F1Of(x.tp, x.fp, x.fn)
  {
    F1FromCounts(x.tp, x.fp, x.fn);
  }

  /** The F1 of one example is that quotient of its own counts. */
  lemma JudgedF1FromCounts(candidates: seq<Comment>, goldens: seq<Comment>, m: Matrix, synthetic: bool)
    requires |m| == |candidates| && forall i | 0 <= i < |m| :: |m[i]| == |goldens|
    requires goldens != []
    ensures var c := Judge(candidates, goldens, m, synthetic).value;
            && c.all.f1 == F1Of(c.all.tp, c.all.fp, c.all.fn)
            && c.medium.f1 == F1Of(c.medium.tp, c.medium.fp, c.medium.fn)
  {
    var c := Judge(candidates, goldens, m, synthetic).value;
    JudgedScoresAgree(candidates, goldens, m, synthetic);
    MetricsF1(c.all, |candidates|, |goldens|);
    MetricsF1(c.medium, |MediumIndices(candidates)|, |MediumIndices(goldens)|);
  }

  /** What a judged example records feeds the aggregate bounds. */
  lemma JudgedScoresAreFromCounts(candidates: seq<Comment>, goldens: seq<Comment>, m: Matrix, synthetic: bool)
    requires |m| == |candidates| && forall i | 0 <= i < |m| :: |m[i]| == |goldens|
    requires goldens != []
    ensures var c := Judge(candidates, goldens, m, synthetic).value;
            FromCounts(c.all) && FromCounts(c.medium)
  {
    var c := Judge(candidates, goldens, m, synthetic).value;
    JudgedScoresAgree(candidates, goldens, m, synthetic);
    MetricsAreFromCounts(c.all, |candidates|, |goldens|);
    MetricsAreFromCounts(c.medium, |MediumIndices(candidates)|, |MediumIndices(goldens)|);
  }

  function Part(counts: seq<ExampleCounts>, synthetic: bool): seq<Scores> {
    if counts == [] then []
    else (if counts[0].synthetic == synthetic then [counts[0].all] else []) + Part(counts[1..], synthetic)
  }

  function AllScores(counts: seq<ExampleCounts>): seq<Scores> {
    if counts == [] then [] else [counts[0].all] + AllScores(counts[1..])
  }

  /** Every example is totalled in exactly one of the two parts. */
  lemma {:induction false} PartsAddUp(counts: seq<ExampleCounts>, f: Scores -> nat)
    ensures Sum(Part(counts, true), f) + Sum(Part(counts, false), f) == Sum(AllScores(counts), f)
    ensures |Part(counts, true)| + |Part(counts, false)| == |counts|
  {
    if counts != [] {
      PartsAddUp(counts[1..], f);
      var mine := counts[0].synthetic;
      assert Part(counts, mine)[1..] == Part(counts[1..], mine);
      assert Part(counts, !mine) == Part(counts[1..], !mine);
      assert AllScores(counts)[1..] == AllScores(counts[1..]);
    }
  }

  // ---- Profiles over a whole experiment ----

  datatype ProfileAggregate = ProfileAggregate(
    precision: real, recall: real, f1: real, f2: real, tp: nat, fp: nat, fn: nat)

  function Total(counts: seq<ExampleCounts>, f: ExampleCounts -> nat): nat {
    if counts == [] then 0 else f(counts[0]) + Total(counts[1..], f)
  }

  function AggregateProfile(counts: seq<ExampleCounts>, profile: ExampleCounts -> Profile): ProfileAggregate {
    var tp := Total(counts, (c: ExampleCounts) => profile(c).tp);
    var fp := Total(counts, (c: ExampleCounts) => profile(c).fp);
    var fn := Total(counts, (c: ExampleCounts) => profile(c).fn);
    var p, r := Ratio(tp, tp + fp), Ratio(tp, tp + fn);
    ProfileAggregate(p, r, FBeta(p, r, 1.0), FBeta(p, r, 2.0), tp, fp, fn)
  }

  /** A total is made of its parts, and one example's is what it recorded. */
  lemma {:induction false} TotalsAddUp(a: seq<ExampleCounts>, b: seq<ExampleCounts>, f: ExampleCounts -> nat)
    ensures Total(a + b, f) == Total(a, f) + Total(b, f)
    ensures |a| == 1 ==> Total(a, f) == f(a[0])
    decreases |a|
  {
    if a == [] {
      assert a + b == b;
    } else {
      assert (a + b)[1..] == a[1..] + b;
      TotalsAddUp(a[1..], b, f);
    }
  }

  /** A profile's scores over an experiment are the usual quotients of its totals. */
  lemma PooledProfileScores(counts: seq<ExampleCounts>, profile: ExampleCounts -> Profile)
    ensures var a := AggregateProfile(counts, profile);
            var tp, fp, fn := a.tp as real, a.fp as real, a.fn as real;
            && a.tp == Total(counts, (c: ExampleCounts) => profile(c).tp)
            && a.fp == Total(counts, (c: ExampleCounts) => profile(c).fp)
            && a.fn == Total(counts, (c: ExampleCounts) => profile(c).fn)
            && a.precision == (if a.tp + a.fp == 0 then 0.0 else tp / (tp + fp))
            && a.recall == (if a.tp + a.fn == 0 then 0.0 else tp / (tp + fn))
            && a.f1 == (if a.tp == 0 then 0.0 else 2.0 * tp / (2.0 * tp + fn + fp))
            && a.f2 == (if a.tp == 0 then 0.0 else 5.0 * tp / (5.0 * tp + 4.0 * fn + fp))
  {
    var a := AggregateProfile(counts, profile);
    F1FromCounts(a.tp, a.fp, a.fn);
    F2FromCounts(a.tp, a.fp, a.fn);
    assert (a.tp + a.fp) as real == a.tp as real + a.fp as real;
    assert (a.tp + a.fn) as real == a.tp as real + a.fn as real;
  }

  lemma {:induction false} TotalsKeepOrder(counts: seq<ExampleCounts>, f: ExampleCounts -> nat, g: ExampleCounts -> nat)
    requires forall c | c in counts :: f(c) <= g(c)
    ensures Total(counts, f) <= Total(counts, g)
  {
    if counts != [] {
      TotalsKeepOrder(counts[1..], f, g);
    }
  }

  lemma ScalesUp(q: real, t: real, u: real, f: real)
    requires q * (t + f) == t && q <= 1.0 && t <= u
    ensures q * (u + f) <= u
  {
    var found, extra := t + f, u - t;
    Distribute(q, found, extra);
    Monotone(q, 1.0, extra);
    TimesOne(extra);
    assert found + extra == u + f;
  }

  lemma PrecisionGrows(t: real, u: real, f: real)
    requires 0.0 <= t <= u && f >= 0.0 && t + f > 0.0
    ensures 0.0 <= t / (t + f) <= u / (u + f)
  {
    var q := t / (t + f);
    TimesOne(t + f);
    QuotientBetween(t, t + f, 0.0, 1.0);
    assert q * (t + f) == t;
    ScalesUp(q, t, u, f);
    Monotone(q, 1.0, u + f);
    TimesOne(u + f);
    QuotientBetween(u, u + f, q, 1.0);
  }

  lemma TimesOne(x: real)
    ensures 1.0 * x == x && 0.0 * x == 0.0
  {
  }

  lemma RatioIsNotNegative(part: nat, whole: nat)
    ensures Ratio(part, whole) >= 0.0
  {
  }

  /** With the same false alarms, finding more is more precise. */
  lemma MoreFoundIsMorePrecise(tp: nat, more: nat, fp: nat)
    requires tp <= more
    ensures Ratio(tp, tp + fp) <= Ratio(more, more + fp)
  {
    RatioIsNotNegative(more, more + fp);
    if tp + fp > 0 {
      PrecisionGrows(tp as real, more as real, fp as real);
      assert (tp + fp) as real == tp as real + fp as real && (more + fp) as real == more as real + fp as real;
    }
  }

  /** What one judged example records, and what an experiment of them therefore sums. */
  predicate ProfilesNest(c: ExampleCounts) {
    c.strict.tp <= c.core.tp <= c.all.tp && c.strict.fp == c.core.fp == c.all.fp
  }

  /** Over a whole experiment the strict profile finds no more than the core one and is no more
      precise, and both raise the same false alarms. */
  lemma WiderProfileIsNoLessPrecise(counts: seq<ExampleCounts>)
    requires forall c | c in counts :: ProfilesNest(c)
    ensures var strict := AggregateProfile(counts, (c: ExampleCounts) => c.strict);
            var core := AggregateProfile(counts, (c: ExampleCounts) => c.core);
            && strict.tp <= core.tp && strict.fp == core.fp && strict.precision <= core.precision
  {
    var strict: ExampleCounts -> Profile := (c: ExampleCounts) => c.strict;
    var core: ExampleCounts -> Profile := (c: ExampleCounts) => c.core;
    TotalsKeepOrder(counts, (c: ExampleCounts) => strict(c).tp, (c: ExampleCounts) => core(c).tp);
    TotalsKeepOrder(counts, (c: ExampleCounts) => strict(c).fp, (c: ExampleCounts) => core(c).fp);
    TotalsKeepOrder(counts, (c: ExampleCounts) => core(c).fp, (c: ExampleCounts) => strict(c).fp);
    var s, k := AggregateProfile(counts, strict), AggregateProfile(counts, core);
    MoreFoundIsMorePrecise(s.tp, k.tp, s.fp);
  }
}
