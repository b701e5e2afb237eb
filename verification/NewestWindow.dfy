/** Lists without repeats, lists that keep only their newest entries, and what such a list
    still remembers. */
module NewestWindow {

  function Newest<T>(s: seq<T>, n: nat): seq<T> {
    if |s| <= n then s else s[|s| - n..]
  }

  /** The other entries of a list. */
  function Without<T(==, !new)>(s: seq<T>, x: T): (r: seq<T>)
    ensures forall y :: y in r <==> y in s && y != x
    ensures x !in s ==> r == s
    decreases |s|
  {
    if s == [] then [] else if s[0] == x then Without(s[1..], x) else [s[0]] + Without(s[1..], x)
  }

  /** Any `n + 1` entries in a row are all different. */
  predicate Apart<T(==)>(s: seq<T>, n: nat) {
    forall i, j | 0 <= i < j < |s| && j - i <= n :: s[i] != s[j]
  }

  /** Trimming before an entry is added makes no difference. */
  lemma NewestGrows<T>(s: seq<T>, x: T, n: nat)
    ensures Newest(Newest(s, n) + [x], n) == Newest(s + [x], n)
  {
  }

  /** An entry added only when the newest `n` do not hold it keeps equal entries apart. */
  lemma FreshStaysApart<T>(s: seq<T>, x: T, n: nat)
    requires Apart(s, n) && x !in Newest(s, n)
    ensures Apart(s + [x], n)
  {
    var newest := Newest(s, n);
    forall i | 0 <= i < |s| && |s| - i <= n ensures s[i] != x {
      assert newest[i - (|s| - |newest|)] == s[i];
    }
    forall i, j | 0 <= i < j < |s + [x]| && j - i <= n ensures (s + [x])[i] != (s + [x])[j] {
      if j == |s| {
        assert s[i] != x;
      } else {
        assert s[i] != s[j];
      }
    }
  }

  predicate NoRepeats<T(==)>(s: seq<T>) {
    forall i, j | 0 <= i < j < |s| :: s[i] != s[j]
  }

  function Members<T(==)>(s: seq<T>): set<T> {
    set x | x in s
  }

  lemma {:induction false} DistinctMembers<T>(s: seq<T>)
    requires NoRepeats(s)
    ensures |Members(s)| == |s|
    decreases |s|
  {
    if s == [] {
      assert Members(s) == {};
    } else {
      DistinctMembers(s[1..]);
      assert Members(s) == {s[0]} + Members(s[1..]);
    }
  }

  lemma {:induction false} SubsetIsSmaller<T>(a: set<T>, b: set<T>)
    requires a <= b
    ensures |a| <= |b|
  {
    if a != {} {
      var x :| x in a;
      SubsetIsSmaller(a - {x}, b - {x});
    }
  }

  /** Two equal entries of such a list enclose `n` different others. */
  lemma ApartEncloses<T>(s: seq<T>, n: nat, i: nat, j: nat)
    requires Apart(s, n) && i < j < |s| && s[i] == s[j]
    ensures |Members(s[i + 1..j]) - {s[i]}| >= n
  {
    var last := s[j - n..j];
    DistinctMembers(last);
    forall x | x in Members(last) ensures x in Members(s[i + 1..j]) - {s[i]} {
      var k :| 0 <= k < |last| && last[k] == x;
      assert s[i + 1..j][j - n + k - (i + 1)] == x;
    }
    SubsetIsSmaller(Members(last), Members(s[i + 1..j]) - {s[i]});
  }
}
