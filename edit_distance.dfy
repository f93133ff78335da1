/** Levenshtein distance, as computed by levenshteinDistance in the content script:
    a recursive reference definition, the dynamic-programming table that computes it,
    and the bounds that make every similarity score lie in [0, 1]. */
module EditDistance {

  function Min3(x: nat, y: nat, z: nat): nat
  {
    if x <= y && x <= z then x else if y <= z then y else z
  }

  /** The recursive definition: the distance between the empty string and t is |t|,
      equal last characters cost nothing, and otherwise the cheapest of a deletion,
      an insertion and a substitution costs one more. */
  function Lev(a: string, b: string): nat
    decreases |a| + |b|
  {
    if |a| == 0 then |b|
    else if |b| == 0 then |a|
    else if a[|a| - 1] == b[|b| - 1] then Lev(a[..|a| - 1], b[..|b| - 1])
    else Min3(Lev(a[..|a| - 1], b), Lev(a, b[..|b| - 1]), Lev(a[..|a| - 1], b[..|b| - 1])) + 1
  }

  function Max(x: nat, y: nat): nat
  {
    if x >= y then x else y
  }

  function AbsDiff(x: nat, y: nat): nat
  {
    if x >= y then x - y else y - x
  }

  /** d(s, "") = |s| and d("", t) = |t|, the initial column and row of the table. */
  lemma LevEmpty(s: string)
    ensures Lev(s, []) == |s| && Lev([], s) == |s|
  {
  }

  /** The distance is at least the difference of the lengths and at most the longer length. */
  lemma {:induction false} LevBounds(a: string, b: string)
    ensures AbsDiff(|a|, |b|) <= Lev(a, b) <= Max(|a|, |b|)
    decreases |a| + |b|
  {
    if |a| == 0 || |b| == 0 {
    } else {
      var a', b' := a[..|a| - 1], b[..|b| - 1];
      LevBounds(a', b');
      if a[|a| - 1] != b[|b| - 1] {
        LevBounds(a', b);
        LevBounds(a, b');
      }
    }
  }

  /** The distance is zero exactly when the strings are equal. */
  lemma {:induction false} LevZeroIffEqual(a: string, b: string)
    ensures Lev(a, b) == 0 <==> a == b
    decreases |a| + |b|
  {
    if |a| == 0 || |b| == 0 {
    } else {
      var a', b' := a[..|a| - 1], b[..|b| - 1];
      LevZeroIffEqual(a', b');
      if a[|a| - 1] == b[|b| - 1] {
        if a' == b' {
          assert a == a' + [a[|a| - 1]] && b == b' + [b[|b| - 1]];
        }
      } else {
        assert a != b;
      }
    }
  }

  /** One cell of the table in terms of its three neighbours. */
  lemma LevStep(a: string, b: string, i: nat, j: nat)
    requires 0 < i <= |a| && 0 < j <= |b|
    ensures Lev(a[..i], b[..j]) ==
      if a[i - 1] == b[j - 1] then Lev(a[..i - 1], b[..j - 1])
      else Min3(Lev(a[..i - 1], b[..j]), Lev(a[..i], b[..j - 1]), Lev(a[..i - 1], b[..j - 1])) + 1
  {
    assert a[..i][..i - 1] == a[..i - 1] && b[..j][..j - 1] == b[..j - 1];
  }

  /** levenshteinDistance: fills the (|a|+1) x (|b|+1) table row by row. */
  method LevenshteinDistance(str1: string, str2: string) returns (d: nat)
    ensures d == Lev(str1, str2)
  {
    var m, n := |str1|, |str2|;
    var dp := new nat[m + 1, n + 1];
    for i := 0 to m + 1
      invariant forall i' :: 0 <= i' < i ==> dp[i', 0] == i'
    {
      dp[i, 0] := i;
    }
    for j := 0 to n + 1
      invariant forall i' :: 0 <= i' <= m ==> dp[i', 0] == i'
      invariant forall j' :: 0 <= j' < j ==> dp[0, j'] == j'
    {
      dp[0, j] := j;
    }
    assert forall j' :: 0 <= j' <= n ==> dp[0, j'] == Lev(str1[..0], str2[..j']);
    for i := 1 to m + 1
      invariant forall i', j' :: 0 <= i' < i && 0 <= j' <= n ==> dp[i', j'] == Lev(str1[..i'], str2[..j'])
      invariant forall i' :: i <= i' <= m ==> dp[i', 0] == i'
    {
      FillRow(dp, str1, str2, i);
    }
    assert str1[..m] == str1 && str2[..n] == str2;
    d := dp[m, n];
  }

  /** The inner loop: row i from the row above it and its own first cell. */
  method FillRow(dp: array2<nat>, str1: string, str2: string, i: nat)
    requires dp.Length0 == |str1| + 1 && dp.Length1 == |str2| + 1 && 0 < i <= |str1|
    requires forall j' :: 0 <= j' <= |str2| ==> dp[i - 1, j'] == Lev(str1[..i - 1], str2[..j'])
    requires dp[i, 0] == i
    modifies dp
    ensures forall j' :: 0 <= j' <= |str2| ==> dp[i, j'] == Lev(str1[..i], str2[..j'])
    ensures forall i', j' :: 0 <= i' < dp.Length0 && 0 <= j' < dp.Length1 && i' != i ==> dp[i', j'] == old(dp[i', j'])
  {
    assert str2[..0] == [];
    for j := 1 to |str2| + 1
      invariant forall j' :: 0 <= j' < j ==> dp[i, j'] == Lev(str1[..i], str2[..j'])
      invariant forall i', j' :: 0 <= i' < dp.Length0 && 0 <= j' < dp.Length1 && i' != i ==> dp[i', j'] == old(dp[i', j'])
    {
      LevStep(str1, str2, i, j);
      if str1[i - 1] == str2[j - 1] {
        dp[i, j] := dp[i - 1, j - 1];
      } else {
        dp[i, j] := Min3(dp[i - 1, j], dp[i, j - 1], dp[i - 1, j - 1]) + 1;
      }
    }
  }
}
