/** Comparison of dot-separated versions: a total preorder, equal to lexicographic order on zero-padded components. */
module Versions {
  import opened Common
  import opened Text

  function Component(part: string): int { ParseDecimal(part).GetOr(0) }

  function Components(version: string): (v: seq<int>)
    ensures |v| >= 1
  {
    var parts := Split(version, '.');
    seq(|parts|, i requires 0 <= i < |parts| => Component(parts[i]))
  }

  /** A component is the number its part begins with, and zero if it begins with none. */
  lemma ComponentsRead(version: string, k: nat)
    requires k < |Split(version, '.')|
    ensures var read := ParseDecimal(Split(version, '.')[k]);
            |Components(version)| == |Split(version, '.')|
            && Components(version)[k] == match read case Some(n) => n case None => 0
  {
    assert Components(version)[k] == Component(Split(version, '.')[k]);
  }

  /** A version with zeros added up to n components. */
  function Padded(v: seq<int>, n: nat): (p: seq<int>)
    requires |v| <= n
    ensures |p| == n && forall i :: 0 <= i < n ==> p[i] == if i < |v| then v[i] else 0
  {
    v + seq(n - |v|, _ => 0)
  }

  function Lex(x: seq<int>, y: seq<int>): (r: int)
    requires |x| == |y|
    ensures -1 <= r <= 1
  {
    if x == [] then 0 else if x[0] > y[0] then 1 else if x[0] < y[0] then -1 else Lex(x[1..], y[1..])
  }

  function Compare(a: seq<int>, b: seq<int>): int {
    var n := Max(|a|, |b|);
    Lex(Padded(a, n), Padded(b, n))
  }

  lemma {:induction false} LexAgree(x: seq<int>, y: seq<int>, i: nat)
    requires |x| == |y| && i <= |x| && x[..i] == y[..i]
    ensures Lex(x, y) == Lex(x[i..], y[i..])
  {
    if i > 0 {
      assert x[0] == x[..i][0] && y[0] == y[..i][0];
      assert x[1..][..i - 1] == x[..i][1..] && y[1..][..i - 1] == y[..i][1..];
      LexAgree(x[1..], y[1..], i - 1);
      assert x[1..][i - 1..] == x[i..] && y[1..][i - 1..] == y[i..];
    }
  }

  /** The i-th component; those not written are zero. */
  function At(v: seq<int>, i: nat): int { if i < |v| then v[i] else 0 }

  /** At the first component in which they differ, x has the larger number. */
  ghost predicate Newer(x: seq<int>, y: seq<int>) {
    exists i: nat :: At(x, i) > At(y, i) && forall j: nat :: j < i ==> At(x, j) == At(y, j)
  }

  /** Comparing says which of two versions is newer, if one is. */
  lemma CompareIsNewer(a: seq<int>, b: seq<int>)
    ensures Compare(a, b) == 1 <==> Newer(a, b)
    ensures Compare(a, b) == -1 <==> Newer(b, a)
    ensures Compare(a, b) == 0 <==> forall i: nat :: At(a, i) == At(b, i)
    ensures Compare(a, b) in {-1, 0, 1}
  {
    var n := Max(|a|, |b|);
    var x, y := Padded(a, n), Padded(b, n);
    assert forall i: nat :: i < n ==> At(a, i) == x[i] && At(b, i) == y[i];
    assert forall i: nat :: i >= n ==> At(a, i) == 0 && At(b, i) == 0;
    var i := 0;
    while i < n && x[i] == y[i]
      invariant i <= n && x[..i] == y[..i]
      invariant forall j: nat :: j < i ==> At(a, j) == At(b, j)
    {
      assert x[..i + 1] == x[..i] + [x[i]] && y[..i + 1] == y[..i] + [y[i]];
      i := i + 1;
    }
    LexAgree(x, y, i);
    if i == n {
      assert forall j: nat :: At(a, j) == At(b, j);
    } else {
      OneIsNewer(a, b, i);
      OneIsNewer(b, a, i);
    }
  }

  lemma OneIsNewer(a: seq<int>, b: seq<int>, i: nat)
    requires At(a, i) != At(b, i) && forall j: nat :: j < i ==> At(a, j) == At(b, j)
    ensures Newer(a, b) <==> At(a, i) > At(b, i)
  {
    if k: nat :| At(a, k) > At(b, k) && forall j: nat :: j < k ==> At(a, j) == At(b, j) {
      assert k == i;
    }
  }

  /** A version written as numbers with dots between them. */
  function Written(numbers: seq<nat>): string { Join(Map(Decimal, numbers), '.') }

  /** It is read as these numbers. */
  lemma WrittenComponents(numbers: seq<nat>)
    requires numbers != []
    ensures Components(Written(numbers)) == numbers
  {
    var parts := Map(Decimal, numbers);
    forall i | 0 <= i < |parts|
      ensures '.' !in parts[i] && Component(parts[i]) == numbers[i]
    {
      ParseDecimalReads("", "", numbers[i], "");
      assert "" + ("" + (Decimal(numbers[i]) + "")) == Decimal(numbers[i]);
      assert forall c :: c in Decimal(numbers[i]) ==> IsDigit(c);
    }
    SplitJoin(parts, '.');
  }

  method CompareVersions(a: string, b: string) returns (r: int)
    ensures r == Compare(Components(a), Components(b))
    ensures r == 1 <==> Newer(Components(a), Components(b))
    ensures r == -1 <==> Newer(Components(b), Components(a))
  {
    hide Components, Component, Newer;
    CompareIsNewer(Components(a), Components(b));
    var pa, pb := Components(a), Components(b);
    var len := Max(|pa|, |pb|);
    ghost var x, y := Padded(pa, len), Padded(pb, len);
    var i := 0;
    while i < len
      invariant 0 <= i <= len
      invariant x[..i] == y[..i]
    {
      var da := if i < |pa| then pa[i] else 0;
      var db := if i < |pb| then pb[i] else 0;
      LexAgree(x, y, i);
      if da > db { return 1; }
      if da < db { return -1; }
      assert x[..i + 1] == x[..i] + [x[i]] && y[..i + 1] == y[..i] + [y[i]];
      i := i + 1;
    }
    LexAgree(x, y, len);
    return 0;
  }

  lemma {:induction false} LexAppendEqual(x: seq<int>, y: seq<int>, z: seq<int>)
    requires |x| == |y|
    ensures Lex(x + z, y + z) == Lex(x, y)
  {
    if x != [] {
      assert (x + z)[1..] == x[1..] + z && (y + z)[1..] == y[1..] + z;
      LexAppendEqual(x[1..], y[1..], z);
    } else {
      assert x + z == y + z == z;
      LexAgree(z, z, |z|);
    }
  }

  /** More padding changes nothing: any common length gives the same order. */
  lemma PaddingIsImmaterial(a: seq<int>, b: seq<int>, n: nat)
    requires |a| <= n && |b| <= n
    ensures Compare(a, b) == Lex(Padded(a, n), Padded(b, n))
  {
    var m := Max(|a|, |b|);
    var z := seq(n - m, _ => 0);
    assert Padded(a, n) == Padded(a, m) + z && Padded(b, n) == Padded(b, m) + z;
    LexAppendEqual(Padded(a, m), Padded(b, m), z);
  }

  lemma {:induction false} LexOrder(x: seq<int>, y: seq<int>, z: seq<int>)
    requires |x| == |y| == |z|
    ensures Lex(x, y) == -Lex(y, x)
    ensures Lex(x, y) == 0 <==> x == y
    ensures Lex(x, y) <= 0 && Lex(y, z) <= 0 ==> Lex(x, z) <= 0
  {
    if x != [] {
      LexOrder(x[1..], y[1..], z[1..]);
      assert x == [x[0]] + x[1..] && y == [y[0]] + y[1..];
    }
  }

  /** A total preorder whose ties are the versions that differ in trailing zeros only. */
  lemma CompareIsTotalPreorder(a: seq<int>, b: seq<int>, c: seq<int>)
    ensures Compare(a, b) == -Compare(b, a)
    ensures Compare(a, b) <= 0 && Compare(b, c) <= 0 ==> Compare(a, c) <= 0
    ensures Compare(a, b) == 0 <==> Padded(a, Max(|a|, |b|)) == Padded(b, Max(|a|, |b|))
  {
    var n := Max(|a|, Max(|b|, |c|));
    PaddingIsImmaterial(a, b, n);
    PaddingIsImmaterial(b, a, n);
    PaddingIsImmaterial(b, c, n);
    PaddingIsImmaterial(a, c, n);
    LexOrder(Padded(a, n), Padded(b, n), Padded(c, n));
    var m := Max(|a|, |b|);
    LexOrder(Padded(a, m), Padded(b, m), Padded(b, m));
  }
}
