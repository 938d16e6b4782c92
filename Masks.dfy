/** Boolean masks over the columns of a point buffer, the way numpy uses them:
    counting the selected columns, selecting them (`a[:, mask]`) and
    scattering values into them (`a[:, mask] = values`). */
module Masks {

  /** The number of true entries of m. */
  function Count(m: seq<bool>): (r: nat)
    ensures r <= |m|
  {
    if m == [] then 0 else Count(m[..|m| - 1]) + (if m[|m| - 1] then 1 else 0)
  }

  /** The number of selected columns before column i, that is, the place
      column i takes among the selected columns when it is selected itself. */
  function Rank(m: seq<bool>, i: nat): (r: nat)
    requires i <= |m|
    ensures r <= Count(m)
    ensures i < |m| && m[i] ==> r < Count(m)
  {
    CountPrefixBound(m, i);
    Count(m[..i])
  }

  /** The columns of s at which m is true, in their original order. */
  function Select<T>(m: seq<bool>, s: seq<T>): (r: seq<T>)
    requires |m| == |s|
    ensures |r| == Count(m)
  {
    if m == [] then []
    else
      var n := |m| - 1;
      Select(m[..n], s[..n]) + (if m[n] then [s[n]] else [])
  }

  /** buf with its k-th selected column replaced by vals[k]. */
  function Scatter<T>(buf: seq<T>, m: seq<bool>, vals: seq<T>): (r: seq<T>)
    requires |m| == |buf| && |vals| == Count(m)
    ensures |r| == |buf|
  {
    if m == [] then []
    else
      var n := |m| - 1;
      var k := Count(m[..n]);
      Scatter(buf[..n], m[..n], vals[..k]) + [if m[n] then vals[k] else buf[n]]
  }

  /** Column-wise pairing of two sequences of the same length. */
  function Zip<A, B>(a: seq<A>, b: seq<B>): (r: seq<(A, B)>)
    requires |a| == |b|
    ensures |r| == |a|
  {
    seq(|a|, i requires 0 <= i < |a| => (a[i], b[i]))
  }

  /** f applied to every column of s. */
  function Map<A, B>(f: A -> B, s: seq<A>): (r: seq<B>)
    ensures |r| == |s|
  {
    seq(|s|, i requires 0 <= i < |s| => f(s[i]))
  }

  /** Column-wise conjunction of two masks (numpy `np.logical_and`). */
  function And(m: seq<bool>, a: seq<bool>): (r: seq<bool>)
    requires |m| == |a|
    ensures |r| == |m|
  {
    seq(|m|, i requires 0 <= i < |m| => m[i] && a[i])
  }

  // ---------------------------------------------------------------------
  // Counting

  /** The count of a prefix grows by one exactly at the selected columns. */
  lemma CountStep(m: seq<bool>, i: nat)
    requires i < |m|
    ensures Count(m[..i + 1]) == Count(m[..i]) + (if m[i] then 1 else 0)
  {
    assert m[..i + 1][..i] == m[..i];
  }

  /** Counting a longer prefix never gives less. */
  lemma {:induction false} CountMonotone(m: seq<bool>, i: nat, j: nat)
    requires i <= j <= |m|
    ensures Count(m[..i]) <= Count(m[..j])
  {
    if i < j {
      CountMonotone(m, i, j - 1);
      CountStep(m, j - 1);
    }
  }

  lemma CountPrefixBound(m: seq<bool>, i: nat)
    requires i <= |m|
    ensures Count(m[..i]) <= Count(m)
    ensures i < |m| && m[i] ==> Count(m[..i]) < Count(m)
  {
    assert m[..|m|] == m;
    CountMonotone(m, i, |m|);
    if i < |m| {
      CountStep(m, i);
      CountMonotone(m, i + 1, |m|);
    }
  }

  /** Selection preserves the relative order of the columns it keeps: a
      selected column before another column has the smaller rank. */
  lemma RankOrder(m: seq<bool>, i: nat, j: nat)
    requires i < j <= |m| && m[i]
    ensures Rank(m, i) < Rank(m, j)
  {
    CountStep(m, i);
    CountMonotone(m, i + 1, j);
  }

  // ---------------------------------------------------------------------
  // Selection

  /** Every selected column is kept, at the position its rank gives. */
  lemma {:induction false} SelectAt<T>(m: seq<bool>, s: seq<T>, i: nat)
    requires |m| == |s| && i < |m| && m[i]
    ensures Select(m, s)[Rank(m, i)] == s[i]
  {
    var n := |m| - 1;
    if i < n {
      assert m[..n][..i] == m[..i];
      SelectAt(m[..n], s[..n], i);
    } else {
      assert m[..i] == m[..n];
    }
  }

  /** SelectAt for every selected column at once. */
  lemma SelectAtAll<T>(m: seq<bool>, s: seq<T>)
    requires |m| == |s|
    ensures forall i :: 0 <= i < |m| && m[i] ==> Select(m, s)[Rank(m, i)] == s[i]
  {
    forall i | 0 <= i < |m| && m[i]
      ensures Select(m, s)[Rank(m, i)] == s[i]
    {
      SelectAt(m, s, i);
    }
  }

  /** Every output column of a selection comes from a selected input
      column: the k-th from the selected column of rank k. */
  lemma {:induction false} SelectFrom(m: seq<bool>, k: nat) returns (i: nat)
    requires k < Count(m)
    ensures i < |m| && m[i] && Rank(m, i) == k
  {
    var n := |m| - 1;
    if k < Count(m[..n]) {
      i := SelectFrom(m[..n], k);
      assert m[..n][..i] == m[..i];
    } else {
      i := n;
      assert m[..i] == m[..n];
    }
  }

  /** A property of every selected input column holds of every output column. */
  lemma {:induction false} SelectAll<T>(m: seq<bool>, s: seq<T>, P: T -> bool)
    requires |m| == |s|
    requires forall i :: 0 <= i < |s| && m[i] ==> P(s[i])
    ensures forall k :: 0 <= k < Count(m) ==> P(Select(m, s)[k])
  {
    if m != [] {
      var n := |m| - 1;
      SelectAll(m[..n], s[..n], P);
    }
  }

  /** Filtering two column-aligned sequences with the same mask keeps them
      aligned: column k of both outputs comes from the same input column. */
  lemma {:induction false} SelectZip<A, B>(m: seq<bool>, a: seq<A>, b: seq<B>)
    requires |m| == |a| == |b|
    ensures Select(m, Zip(a, b)) == Zip(Select(m, a), Select(m, b))
  {
    if m != [] {
      var n := |m| - 1;
      assert Zip(a, b)[..n] == Zip(a[..n], b[..n]);
      SelectZip(m[..n], a[..n], b[..n]);
    }
  }

  /** Selecting and then transforming every column is the same as
      transforming every column and then selecting. */
  lemma {:induction false} SelectMap<A, B>(m: seq<bool>, s: seq<A>, f: A -> B)
    requires |m| == |s|
    ensures Select(m, Map(f, s)) == Map(f, Select(m, s))
  {
    if m != [] {
      var n := |m| - 1;
      assert Map(f, s)[..n] == Map(f, s[..n]);
      SelectMap(m[..n], s[..n], f);
    }
  }

  /** Two successive filters are one filter by the conjunction of their masks. */
  lemma {:induction false} SelectSelect<T>(m: seq<bool>, a: seq<bool>, s: seq<T>)
    requires |m| == |a| == |s|
    ensures Select(Select(m, a), Select(m, s)) == Select(And(m, a), s)
  {
    if m != [] {
      var n := |m| - 1;
      var x, y := Select(m[..n], a[..n]), Select(m[..n], s[..n]);
      assert And(m, a)[..n] == And(m[..n], a[..n]);
      SelectSelect(m[..n], a[..n], s[..n]);
      assert Select(x, y) == Select(And(m, a)[..n], s[..n]);
      if m[n] {
        SelectSnoc(x, y, a[n], s[n]);
      } else {
        assert Select(m, a) == x && Select(m, s) == y;
      }
    }
  }

  lemma SelectSnoc<T>(x: seq<bool>, y: seq<T>, b: bool, e: T)
    requires |x| == |y|
    ensures Select(x + [b], y + [e]) == Select(x, y) + (if b then [e] else [])
  {
    assert (x + [b])[..|x|] == x;
    assert (y + [e])[..|y|] == y;
  }

  // ---------------------------------------------------------------------
  // Scattering

  /** A scatter leaves every unselected column as it was and puts the k-th
      value into the selected column of rank k. */
  lemma {:induction false} ScatterAt<T>(buf: seq<T>, m: seq<bool>, vals: seq<T>, i: nat)
    requires |m| == |buf| && |vals| == Count(m) && i < |m|
    ensures Scatter(buf, m, vals)[i] == if m[i] then vals[Rank(m, i)] else buf[i]
  {
    var n := |m| - 1;
    if i < n {
      assert m[..n][..i] == m[..i];
      ScatterAt(buf[..n], m[..n], vals[..Count(m[..n])], i);
    } else {
      assert m[..i] == m[..n];
    }
  }

  // ---------------------------------------------------------------------
  // The imperative operations

  /** `s[:, m]`: a new buffer holding the selected columns. */
  method SelectMasked<T>(m: seq<bool>, s: seq<T>) returns (r: seq<T>)
    requires |m| == |s|
    ensures r == Select(m, s)
  {
    r := [];
    for i := 0 to |m|
      invariant r == Select(m[..i], s[..i])
    {
      assert m[..i + 1][..i] == m[..i] && s[..i + 1][..i] == s[..i];
      if m[i] {
        r := r + [s[i]];
      }
    }
    assert m[..|m|] == m && s[..|s|] == s;
  }

  /** `buf[:, m] = vals`, in place: the selected columns receive the values in
      order and nothing else changes. */
  method ScatterInPlace<T>(buf: array<T>, m: seq<bool>, vals: seq<T>)
    requires |m| == buf.Length && |vals| == Count(m)
    modifies buf
    ensures forall i :: 0 <= i < buf.Length ==>
              buf[i] == if m[i] then vals[Rank(m, i)] else old(buf[i])
    ensures buf[..] == Scatter(old(buf[..]), m, vals)
  {
    var k := 0;
    for i := 0 to buf.Length
      invariant k == Count(m[..i])
      invariant forall j :: 0 <= j < i ==> buf[j] == if m[j] then vals[Rank(m, j)] else old(buf[j])
      invariant forall j :: i <= j < buf.Length ==> buf[j] == old(buf[j])
    {
      CountStep(m, i);
      assert k == Rank(m, i);
      if m[i] {
        buf[i] := vals[k];
        k := k + 1;
      }
    }
    forall i | 0 <= i < buf.Length
      ensures buf[..][i] == Scatter(old(buf[..]), m, vals)[i]
    {
      ScatterAt(old(buf[..]), m, vals, i);
    }
  }
}
