/** Laws of configuration paths: what every read gives after a write or a deletion, and when writes undo or ignore each
    other. */
module ConfigPathLaws {
  import opened Common
  import opened ConfigPaths

  /** Neither path begins with the other. */
  predicate Diverge(p: seq<string>, q: seq<string>) { !(p <= q) && !(q <= p) }

  lemma DivergeBelow(p: seq<string>, q: seq<string>)
    requires Diverge(p, q)
    ensures p != [] && q != [] && (p[0] == q[0] ==> Diverge(p[1..], q[1..]))
  {
    assert p == [p[0]] + p[1..] && q == [q[0]] + q[1..];
  }

  // ---------------------------------------------------------------- writing

  /** A write changes no path that diverges from it. */
  lemma {:induction false} SetKeepsDiverging(v: Value, p: seq<string>, q: seq<string>, x: Value)
    requires Diverge(p, q)
    ensures GetAt(SetAt(v, p, x), q) == GetAt(v, q)
    decreases |p|
  {
    DivergeBelow(p, q);
    if p[0] == q[0] {
      SetKeepsDiverging(Child(v, p[0]), p[1..], q[1..], x);
      if !(v.Node? && p[0] in v.fields) {
        assert GetAt(EMPTY, q[1..]).None?;
      }
    }
  }

  /** Below the path written lies what was written. */
  lemma {:induction false} SetReadsBelow(v: Value, p: seq<string>, rest: seq<string>, x: Value)
    ensures GetAt(SetAt(v, p, x), p + rest) == GetAt(x, rest)
    decreases |p|
  {
    if p == [] {
      assert p + rest == rest;
    } else {
      assert (p + rest)[1..] == p[1..] + rest && (p + rest)[0] == p[0];
      SetReadsBelow(Child(v, p[0]), p[1..], rest, x);
    }
  }

  /** Above it lies the old value, an object if need be, with the write done to it. */
  lemma {:induction false} SetReadsAbove(v: Value, p: seq<string>, rest: seq<string>, x: Value)
    ensures GetAt(SetAt(v, p + rest, x), p) == Some(SetAt(GetAt(v, p).GetOr(EMPTY), rest, x))
    decreases |p|
  {
    if p == [] {
      assert p + rest == rest;
    } else {
      assert (p + rest)[1..] == p[1..] + rest && (p + rest)[0] == p[0];
      SetReadsAbove(Child(v, p[0]), p[1..], rest, x);
      if !(v.Node? && p[0] in v.fields) {
        NothingInEmpty(p[1..]);
      }
    }
  }

  lemma NothingInEmpty(p: seq<string>)
    ensures GetAt(EMPTY, p).GetOr(EMPTY) == EMPTY
  {
  }

  /** Every read after a write, whatever the two paths. */
  lemma ReadsAfterSet(v: Value, p: seq<string>, q: seq<string>, x: Value)
    ensures GetAt(SetAt(v, p, x), q) ==
            if p <= q then GetAt(x, q[|p|..])
            else if q <= p then Some(SetAt(GetAt(v, q).GetOr(EMPTY), p[|q|..], x))
            else GetAt(v, q)
  {
    if p <= q {
      assert q == p + q[|p|..];
      SetReadsBelow(v, p, q[|p|..], x);
    } else if q <= p {
      assert p == q + p[|q|..];
      SetReadsAbove(v, q, p[|q|..], x);
    } else {
      SetKeepsDiverging(v, p, q, x);
    }
  }

  /** On the way to what is written lie objects: an array or object that was there is still one, all else became an
      object. */
  lemma SetContainers(v: Value, p: seq<string>, q: seq<string>, x: Value)
    requires q < p
    ensures var before, after := GetAt(v, q), GetAt(SetAt(v, p, x), q);
            && after.Some? && after.value.Node?
            && after.value.isArray == (before.Some? && before.value.Node? && before.value.isArray)
  {
    ReadsAfterSet(v, p, q, x);
  }

  /** A write changes nothing exactly if the path already holds the value. */
  lemma {:induction false} SetIgnoredExactly(v: Value, p: seq<string>, x: Value)
    ensures SetAt(v, p, x) == v <==> GetAt(v, p) == Some(x)
    decreases |p|
  {
    if p != [] {
      SetIgnoredExactly(Child(v, p[0]), p[1..], x);
      if v.Node? && p[0] in v.fields {
        assert v.fields[p[0] := v.fields[p[0]]] == v.fields;
        assert SetAt(v, p, x).fields[p[0]] == SetAt(v.fields[p[0]], p[1..], x);
      }
    }
  }

  /** The later of two writes to a path wins. */
  lemma {:induction false} LastSetWins(v: Value, p: seq<string>, x: Value, y: Value)
    ensures SetAt(SetAt(v, p, x), p, y) == SetAt(v, p, y)
    decreases |p|
  {
    if p != [] {
      LastSetWins(Child(v, p[0]), p[1..], x, y);
    }
  }

  lemma SetIs(v: Value, p: seq<string>, x: Value)
    requires p != []
    ensures SetAt(v, p, x) == WithChild(AsNode(v), p[0], SetAt(Child(v, p[0]), p[1..], x))
  {
  }

  /** Two writes below the same child. */
  lemma SameChildSet(v: Value, p: seq<string>, q: seq<string>, x: Value, y: Value)
    requires p != [] && q != [] && p[0] == q[0]
    ensures SetAt(SetAt(v, p, x), q, y)
         == WithChild(AsNode(v), p[0], SetAt(SetAt(Child(v, p[0]), p[1..], x), q[1..], y))
  {
    hide SetAt;
    SetIs(v, p, x);
    SetIs(SetAt(v, p, x), q, y);
  }

  /** Two writes below different children. */
  lemma SiblingsCommute(v: Value, p: seq<string>, q: seq<string>, x: Value, y: Value)
    requires p != [] && q != [] && p[0] != q[0]
    ensures SetAt(SetAt(v, p, x), q, y) == SetAt(SetAt(v, q, y), p, x)
  {
    hide SetAt;
    SetIs(v, p, x);
    SetIs(SetAt(v, p, x), q, y);
    SetIs(v, q, y);
    SetIs(SetAt(v, q, y), p, x);
    ChildrenCommute(AsNode(v), p[0], q[0], SetAt(Child(v, p[0]), p[1..], x), SetAt(Child(v, q[0]), q[1..], y));
  }

  lemma ChildrenCommute(n: Value, k: string, l: string, a: Value, b: Value)
    requires n.Node? && k != l
    ensures WithChild(WithChild(n, k, a), l, b) == WithChild(WithChild(n, l, b), k, a)
  {
    assert n.fields[k := a][l := b] == n.fields[l := b][k := a];
  }

  /** Writes to diverging paths may be exchanged. */
  lemma {:induction false} DivergingSetsCommute(v: Value, p: seq<string>, q: seq<string>, x: Value, y: Value)
    requires Diverge(p, q)
    ensures SetAt(SetAt(v, p, x), q, y) == SetAt(SetAt(v, q, y), p, x)
    decreases |p|
  {
    DivergeBelow(p, q);
    hide SetAt, Child, WithChild, Diverge;
    if p[0] == q[0] {
      DivergingSetsCommute(Child(v, p[0]), p[1..], q[1..], x, y);
      SameChildSet(v, p, q, x, y);
      SameChildSet(v, q, p, y, x);
    } else {
      SiblingsCommute(v, p, q, x, y);
    }
  }

  // ---------------------------------------------------------------- deleting

  /** Every read after a deletion: nothing at the path or below it, elsewhere what was there. */
  lemma {:induction false} ReadsAfterDelete(v: Value, p: seq<string>, q: seq<string>)
    requires p != []
    ensures GetAt(DeleteAt(v, p), q) ==
            if p <= q then None
            else if q <= p && GetAt(v, q).Some? then Some(DeleteAt(GetAt(v, q).value, p[|q|..]))
            else GetAt(v, q)
    decreases |p|
  {
    if q == [] {
      assert p[0..] == p;
    } else if p[0] == q[0] {
      PrefixBelow(p, q);
      PrefixBelow(q, p);
      assert q <= p ==> p[|q|..] == p[1..][|q| - 1..];
      if |p| > 1 && v.Node? && p[0] in v.fields {
        ReadsAfterDelete(v.fields[p[0]], p[1..], q[1..]);
      }
    } else {
      assert !(p <= q) && !(q <= p);
    }
  }

  /** On the way to what is deleted everything stays of its kind. */
  lemma DeleteContainers(v: Value, p: seq<string>, q: seq<string>)
    requires q < p
    ensures var before, after := GetAt(v, q), GetAt(DeleteAt(v, p), q);
            && (after.Some? <==> before.Some?)
            && (before.Some? && before.value.Node? ==> after.value.Node? && after.value.isArray == before.value.isArray)
            && (before.Some? && before.value.Scalar? ==> after == before)
  {
    ReadsAfterDelete(v, p, q);
  }

  lemma PrefixBelow(p: seq<string>, q: seq<string>)
    requires p != [] && q != [] && p[0] == q[0]
    ensures p <= q <==> p[1..] <= q[1..]
  {
    assert p == [p[0]] + p[1..] && q == [q[0]] + q[1..];
  }

  /** Deleting changes nothing exactly if nothing is there. */
  lemma {:induction false} DeleteIgnoredExactly(v: Value, p: seq<string>)
    requires p != []
    ensures DeleteAt(v, p) == v <==> GetAt(v, p) == None
    decreases |p|
  {
    if v.Node? && p[0] in v.fields {
      if |p| == 1 {
        assert p[1..] == [] && p[0] !in DeleteAt(v, p).fields;
      } else {
        var child := v.fields[p[0]];
        DeleteIgnoredExactly(child, p[1..]);
        assert DeleteAt(v, p).fields[p[0]] == DeleteAt(child, p[1..]);
        assert v.fields[p[0] := child] == v.fields;
      }
    }
  }

  /** Deleting undoes a write exactly if the path was free in an object that existed: objects made on the way stay. */
  lemma {:induction false} DeleteUndoesSetExactly(v: Value, p: seq<string>, x: Value)
    requires p != []
    ensures DeleteAt(SetAt(v, p, x), p) == v <==>
            GetAt(v, p) == None && GetAt(v, p[..|p| - 1]).Some? && GetAt(v, p[..|p| - 1]).value.Node?
    decreases |p|
  {
    if |p| == 1 {
      assert p[..0] == [] && p[1..] == [];
      if v.Node? && p[0] !in v.fields {
        assert v.fields[p[0] := x] - {p[0]} == v.fields;
      }
    } else {
      assert p[..|p| - 1][1..] == p[1..][..|p| - 2] && p[..|p| - 1][0] == p[0];
      DeleteUndoesSetExactly(Child(v, p[0]), p[1..], x);
      var w := DeleteAt(SetAt(v, p, x), p);
      assert w.fields[p[0]] == DeleteAt(SetAt(Child(v, p[0]), p[1..], x), p[1..]);
      if v.Node? && p[0] in v.fields {
        assert v.fields[p[0] := v.fields[p[0]]] == v.fields;
      }
    }
  }
}
