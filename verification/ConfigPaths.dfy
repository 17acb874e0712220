/**
 Reading, setting and deleting configuration values along dot-separated paths. The configuration is a tree; writing
 through the object a loop has descended to is an update of the tree at the path descended so far.
 */
module ConfigPaths {
  import opened Common
  import opened Text

  /** An object or an array has its own properties by name, an array its elements by index. */
  datatype Value = Scalar(text: string) | Node(isArray: bool, fields: map<string, Value>)

  const EMPTY := Node(false, map[])

  // ---------------------------------------------------------------- paths

  datatype PathError = EmptyPath | EmptySegment | ForbiddenSegment(segment: string)

  function Lower(c: char): char { if 'A' <= c <= 'Z' then ((c as int) + 32) as char else c }

  /** Lower case, as far as it matters for the segments below: no other letter becomes one of theirs. */
  function LowerCase(s: string): string { Map(Lower, s) }

  predicate IsForbidden(segment: string) { LowerCase(segment) in {"__proto__", "constructor", "prototype"} }

  /** One character is the other, or its upper case. */
  predicate SameLetter(c: char, lower: char) {
    c == lower || ('a' <= lower <= 'z' && c as int == lower as int - 32)
  }

  /** The text spells the word, in whatever case. */
  ghost predicate Spells(s: string, word: string) {
    |s| == |word| && forall i :: 0 <= i < |s| ==> SameLetter(s[i], word[i])
  }

  /** A segment is forbidden exactly if it spells one of three words. */
  lemma ForbiddenInAnyCase(segment: string)
    ensures IsForbidden(segment) <==>
            Spells(segment, "__proto__") || Spells(segment, "constructor") || Spells(segment, "prototype")
  {
    Lowered(segment, "__proto__");
    Lowered(segment, "constructor");
    Lowered(segment, "prototype");
  }

  lemma Lowered(segment: string, word: string)
    requires forall i :: 0 <= i < |word| ==> !('A' <= word[i] <= 'Z')
    ensures LowerCase(segment) == word <==> Spells(segment, word)
  {
    assert forall i :: 0 <= i < |segment| ==> LowerCase(segment)[i] == Lower(segment[i]);
    if Spells(segment, word) {
      assert forall i :: 0 <= i < |segment| ==> Lower(segment[i]) == word[i];
    }
  }

  predicate SafeParts(parts: seq<string>) {
    parts != [] && forall i :: 0 <= i < |parts| ==> parts[i] != "" && !IsForbidden(parts[i])
  }

  /** The path is these segments, each of them safe and without a dot, joined by dots. */
  ghost predicate Names(path: string, parts: seq<string>) {
    SafeParts(parts) && (forall i :: 0 <= i < |parts| ==> '.' !in parts[i]) && path == Join(parts, '.')
  }

  lemma NamesOnlyParts(path: string, parts: seq<string>)
    ensures Names(path, parts) ==> parts == Split(path, '.') && path != ""
  {
    if Names(path, parts) {
      SplitJoin(parts, '.');
      assert parts[0] != "";
    }
  }

  /** The segment is empty or forbidden, and none before it is. */
  predicate FirstBad(parts: seq<string>, i: nat) {
    && i < |parts| && (parts[i] == "" || IsForbidden(parts[i]))
    && forall j :: 0 <= j < i ==> parts[j] != "" && !IsForbidden(parts[j])
  }

  /** The path is rejected for its first bad segment; otherwise its segments, joined again, are the path. The original
      tests the segments once more, in their exact case, which cannot fail any more. */
  method ParsePath(path: string) returns (r: Result<seq<string>, PathError>)
    ensures r.Ok? ==> Names(path, r.value) && r.value != []
    ensures forall parts :: Names(path, parts) ==> r == Ok(parts)
    ensures r == Err(EmptyPath) <==> path == ""
    ensures r.Err? && path != "" ==>
              exists i: nat :: FirstBad(Split(path, '.'), i)
                          && r.error == if Split(path, '.')[i] == "" then EmptySegment
                                        else ForbiddenSegment(Split(path, '.')[i])
  {
    if |path| == 0 {
      forall parts
        ensures !Names(path, parts)
      {
        NamesOnlyParts(path, parts);
      }
      return Err(EmptyPath);
    }
    var parts := Split(path, '.');
    forall other
      ensures Names(path, other) ==> other == parts
    {
      NamesOnlyParts(path, other);
    }
    JoinSplit(path, '.');
    SplitSeparates(path, '.');
    var i := 0;
    while i < |parts|
      invariant 0 <= i <= |parts|
      invariant forall j :: 0 <= j < i ==> parts[j] != "" && !IsForbidden(parts[j])
    {
      assert FirstBad(parts, i) <==> parts[i] == "" || IsForbidden(parts[i]);
      if |parts[i]| == 0 { return Err(EmptySegment); }
      if IsForbidden(parts[i]) { return Err(ForbiddenSegment(parts[i])); }
      i := i + 1;
    }
    return Ok(parts);
  }

  // ---------------------------------------------------------------- trees

  function GetAt(v: Value, parts: seq<string>): Option<Value>
    decreases |parts|
  {
    if parts == [] then Some(v)
    else if v.Node? && parts[0] in v.fields then GetAt(v.fields[parts[0]], parts[1..])
    else None
  }

  /** The value as an object: what is none is replaced by an empty one. */
  function AsNode(v: Value): (n: Value)
    ensures n.Node?
  {
    if v.Node? then v else EMPTY
  }

  function Child(v: Value, key: string): Value { if v.Node? && key in v.fields then v.fields[key] else EMPTY }

  function WithChild(v: Value, key: string, child: Value): Value
    requires v.Node?
  {
    v.(fields := v.fields[key := child])
  }

  function SetAt(v: Value, parts: seq<string>, x: Value): Value
    decreases |parts|
  {
    if parts == [] then x else WithChild(AsNode(v), parts[0], SetAt(Child(v, parts[0]), parts[1..], x))
  }

  function DeleteAt(v: Value, parts: seq<string>): Value
    decreases |parts|
  {
    if parts == [] || !v.Node? || parts[0] !in v.fields then v
    else if |parts| == 1 then v.(fields := v.fields - {parts[0]})
    else WithChild(v, parts[0], DeleteAt(v.fields[parts[0]], parts[1..]))
  }

  // ---------------------------------------------------------------- descending

  /** Writing {} where a path already has no object changes nothing for a write further down. */
  lemma {:induction false} SetOverEmpty(v: Value, front: seq<string>, rest: seq<string>, x: Value)
    requires rest != [] && (GetAt(v, front).Some? ==> !GetAt(v, front).value.Node?)
    ensures SetAt(SetAt(v, front, EMPTY), front + rest, x) == SetAt(v, front + rest, x)
    decreases |front|
  {
    if front == [] {
      assert front + rest == rest;
    } else {
      var all := front + rest;
      assert all[1..] == front[1..] + rest && all[0] == front[0];
      var child := Child(v, front[0]);
      if v.Node? && front[0] in v.fields {
        SetOverEmpty(child, front[1..], rest, x);
      } else {
        SetInNothing(front[1..], rest, x);
      }
    }
  }

  /** The same below what does not exist yet. */
  lemma {:induction false} SetInNothing(front: seq<string>, rest: seq<string>, x: Value)
    requires rest != []
    ensures SetAt(SetAt(EMPTY, front, EMPTY), front + rest, x) == SetAt(EMPTY, front + rest, x)
    decreases |front|
  {
    if front == [] {
      assert front + rest == rest;
    } else {
      assert (front + rest)[1..] == front[1..] + rest && (front + rest)[0] == front[0];
      SetInNothing(front[1..], rest, x);
    }
  }

  /** The value at a path is found from the value one key before it; the empty path is the root. */
  lemma {:induction false} GetOneMore(v: Value, parts: seq<string>, key: string)
    ensures GetAt(v, []) == Some(v)
    ensures GetAt(v, parts + [key]) ==
            var at := GetAt(v, parts);
            if at.Some? && at.value.Node? && key in at.value.fields then Some(at.value.fields[key]) else None
    decreases |parts|
  {
    if parts == [] {
      assert parts + [key] == [key] && [key][1..] == [];
    } else {
      assert (parts + [key])[1..] == parts[1..] + [key] && (parts + [key])[0] == parts[0];
      if v.Node? && parts[0] in v.fields {
        GetOneMore(v.fields[parts[0]], parts[1..], key);
      }
    }
  }

  lemma {:induction false} GetSet(v: Value, parts: seq<string>, x: Value)
    ensures GetAt(SetAt(v, parts, x), parts) == Some(x)
    decreases |parts|
  {
    if parts != [] {
      GetSet(Child(v, parts[0]), parts[1..], x);
    }
  }

  lemma {:induction false} DeleteBelow(v: Value, parts: seq<string>, k: nat)
    requires k < |parts| && (GetAt(v, parts[..k]).None? || GetAt(v, parts[..k + 1]).None?)
    ensures DeleteAt(v, parts) == v
    decreases |parts|
  {
    if k > 0 && v.Node? && parts[0] in v.fields {
      assert parts[..k][1..] == parts[1..][..k - 1] && parts[..k + 1][1..] == parts[1..][..k];
      DeleteBelow(v.fields[parts[0]], parts[1..], k - 1);
    } else if k == 0 {
      assert parts[..1][1..] == [] && parts[..1][0] == parts[0];
    }
  }

  lemma {:induction false} DeleteIsSet(v: Value, parts: seq<string>, key: string)
    requires GetAt(v, parts).Some? && GetAt(v, parts).value.Node? && key in GetAt(v, parts).value.fields
    ensures var at := GetAt(v, parts).value;
            DeleteAt(v, parts + [key]) == SetAt(v, parts, at.(fields := at.fields - {key}))
    decreases |parts|
  {
    if parts == [] {
      assert parts + [key] == [key];
    } else {
      assert (parts + [key])[1..] == parts[1..] + [key] && (parts + [key])[0] == parts[0];
      DeleteIsSet(v.fields[parts[0]], parts[1..], key);
    }
  }

  // ---------------------------------------------------------------- the configuration

  class Config {
    var root: Value

    constructor (root: Value)
      requires root.Node?
      ensures this.root == root
    {
      this.root := root;
    }

    method GetNestedValue(path: string) returns (r: Result<Option<Value>, PathError>)
      ensures forall parts :: Names(path, parts) ==> r == Ok(GetAt(root, parts))
      ensures r.Ok? ==> exists parts :: Names(path, parts)
    {
      hide Names;
      var parsed := ParsePath(path);
      if parsed.Err? { return Err(parsed.error); }
      var parts := parsed.value;
      var current := root;
      var i := 0;
      while i < |parts|
        invariant 0 <= i <= |parts|
        invariant GetAt(current, parts[i..]) == GetAt(root, parts)
      {
        assert parts[i..][1..] == parts[i + 1..];
        if !current.Node? || parts[i] !in current.fields { return Ok(None); }
        current := current.fields[parts[i]];
        i := i + 1;
      }
      return Ok(Some(current));
    }

    /** current[key] = x, where current has been reached by the path descended. */
    method Assign(descended: seq<string>, key: string, x: Value)
      modifies this
      ensures root == SetAt(old(root), descended + [key], x)
    {
      root := SetAt(root, descended + [key], x);
    }

    method SetNestedValue(path: string, value: Value) returns (error: Option<PathError>)
      requires root.Node?
      modifies this
      ensures forall parts :: Names(path, parts) ==> error == None && root == SetAt(old(root), parts, value)
      ensures (forall parts :: !Names(path, parts)) ==> error.Some? && root == old(root)
    {
      hide Names;
      var parsed := ParsePath(path);
      if parsed.Err? { return Some(parsed.error); }
      var parts := parsed.value;
      var current := root;
      var i := 0;
      assert parts[..0] == [];
      while i < |parts| - 1
        invariant 0 <= i <= |parts| - 1
        invariant current.Node? && GetAt(root, parts[..i]) == Some(current)
        invariant SetAt(root, parts, value) == SetAt(old(root), parts, value)
      {
        var key := parts[i];
        assert parts[..i] + [key] == parts[..i + 1] && parts[..i + 1] + parts[i + 1..] == parts;
        GetOneMore(root, parts[..i], key);
        if key !in current.fields || !current.fields[key].Node? {
          SetOverEmpty(root, parts[..i + 1], parts[i + 1..], value);
          GetSet(root, parts[..i + 1], EMPTY);
          Assign(parts[..i], key, EMPTY);
          current := EMPTY;
        } else {
          current := current.fields[key];
        }
        i := i + 1;
      }
      assert parts[..i] + [parts[i]] == parts;
      Assign(parts[..i], parts[i], value);
      return None;
    }

    method DeleteNestedValue(path: string) returns (error: Option<PathError>)
      modifies this
      ensures forall parts :: Names(path, parts) ==> error == None && root == DeleteAt(old(root), parts)
      ensures (forall parts :: !Names(path, parts)) ==> error.Some? && root == old(root)
    {
      hide Names;
      var parsed := ParsePath(path);
      if parsed.Err? { return Some(parsed.error); }
      var parts := parsed.value;
      var current := root;
      var i := 0;
      assert parts[..0] == [];
      while i < |parts| - 1
        invariant 0 <= i <= |parts| - 1
        invariant root == old(root) && GetAt(root, parts[..i]) == Some(current)
      {
        var key := parts[i];
        assert parts[..i] + [key] == parts[..i + 1];
        GetOneMore(root, parts[..i], key);
        if !current.Node? || key !in current.fields {
          DeleteBelow(root, parts, i);
          return None;
        }
        current := current.fields[key];
        i := i + 1;
      }
      var last := parts[i];
      assert parts[..i] + [last] == parts[..i + 1] == parts;
      GetOneMore(root, parts[..i], last);
      if current.Node? && last in current.fields {
        DeleteIsSet(root, parts[..i], last);
        root := SetAt(root, parts[..i], current.(fields := current.fields - {last}));
      } else {
        DeleteBelow(root, parts, i);
      }
      return None;
    }
  }
}
