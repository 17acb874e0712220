/** The string operations of JavaScript the models need. */
module Text {
  import opened Common

  function Split(s: string, separator: char): (parts: seq<string>)
    ensures |parts| >= 1
  {
    if s == "" then [""]
    else
      var rest := Split(s[1..], separator);
      if s[0] == separator then [""] + rest else [[s[0]] + rest[0]] + rest[1..]
  }

  function Join(parts: seq<string>, separator: char): string {
    if parts == [] then "" else if |parts| == 1 then parts[0]
    else parts[0] + [separator] + Join(parts[1..], separator)
  }

  /** s.replace(/from/g, to) for single characters. */
  function ReplaceAll(s: string, from: char, to: char): (r: string)
    ensures |r| == |s| && forall i :: 0 <= i < |s| ==> r[i] == if s[i] == from then to else s[i]
  {
    seq(|s|, i requires 0 <= i < |s| => if s[i] == from then to else s[i])
  }

  predicate StartsWith(s: string, prefix: string) { |prefix| <= |s| && s[..|prefix|] == prefix }

  predicate EndsWith(s: string, suffix: string) { |suffix| <= |s| && s[|s| - |suffix|..] == suffix }

  /** A text starts and ends with its first and its last part. */
  lemma EndsExactly(s: string, part: string)
    ensures StartsWith(s, part) <==> exists rest :: s == part + rest
    ensures EndsWith(s, part) <==> exists front :: s == front + part
  {
    if StartsWith(s, part) {
      assert s == part + s[|part|..];
    }
    if EndsWith(s, part) {
      assert s == s[..|s| - |part|] + part;
    }
  }

  /** White space as trim and parseInt skip it. */
  predicate IsSpace(c: char) {
    9 <= c as int <= 13 || c == ' ' || c as int in {0xA0, 0x1680, 0x2028, 0x2029, 0x202F, 0x205F, 0x3000, 0xFEFF}
    || 0x2000 <= c as int <= 0x200A
  }

  function TrimStart(s: string): string {
    if s != "" && IsSpace(s[0]) then TrimStart(s[1..]) else s
  }

  function TrimEnd(s: string): string {
    if s != "" && IsSpace(s[|s| - 1]) then TrimEnd(s[..|s| - 1]) else s
  }

  predicate IsDigit(c: char) { '0' <= c <= '9' }

  /** The number written by the decimal digits a text starts with, after what is already read. */
  function DecimalValue(s: string, read: int): int {
    if s != "" && IsDigit(s[0]) then DecimalValue(s[1..], 10 * read + (s[0] as int - '0' as int)) else read
  }

  /** parseInt(s, 10), None standing for NaN. */
  function ParseDecimal(s: string): Option<int> {
    var t := TrimStart(s);
    var negative := t != "" && t[0] == '-';
    var u := if t != "" && (t[0] == '-' || t[0] == '+') then t[1..] else t;
    if u == "" || !IsDigit(u[0]) then None
    else if negative then Some(-DecimalValue(u, 0))
    else Some(DecimalValue(u, 0))
  }

  /** Putting the parts of a split back together gives the text. */
  lemma {:induction false} JoinSplit(s: string, separator: char)
    ensures Join(Split(s, separator), separator) == s
  {
    if s != "" {
      JoinSplit(s[1..], separator);
      var rest := Split(s[1..], separator);
      assert s == [s[0]] + s[1..];
      if s[0] == separator {
        JoinEmpty(rest, separator);
      } else {
        JoinPrefixed(s[0], rest, separator);
      }
    }
  }

  lemma JoinEmpty(parts: seq<string>, separator: char)
    requires parts != []
    ensures Join([""] + parts, separator) == [separator] + Join(parts, separator)
  {
    assert ([""] + parts)[1..] == parts;
  }

  lemma JoinPrefixed(c: char, parts: seq<string>, separator: char)
    requires parts != []
    ensures Join([[c] + parts[0]] + parts[1..], separator) == [c] + Join(parts, separator)
  {
    assert ([[c] + parts[0]] + parts[1..])[1..] == parts[1..];
    if |parts| > 1 {
      assert [c] + parts[0] + [separator] + Join(parts[1..], separator)
          == [c] + (parts[0] + [separator] + Join(parts[1..], separator));
    }
  }

  // ---------------------------------------------------------------- what a split is

  /** s[i..j] is a stretch between separators, or between one and an end. */
  ghost predicate IsSegment(s: string, separator: char, i: nat, j: nat) {
    && i <= j <= |s| && separator !in s[i..j]
    && (i == 0 || s[i - 1] == separator) && (j == |s| || s[j] == separator)
  }

  /** No part holds the separator. */
  lemma {:induction false} SplitSeparates(s: string, separator: char)
    ensures forall k :: 0 <= k < |Split(s, separator)| ==> separator !in Split(s, separator)[k]
  {
    if s != "" {
      SplitSeparates(s[1..], separator);
      var rest := Split(s[1..], separator);
      assert separator !in rest[0];
    }
  }

  lemma {:induction false} SplitOfPart(part: string, separator: char)
    requires separator !in part
    ensures Split(part, separator) == [part]
  {
    if part != "" {
      SplitOfPart(part[1..], separator);
      assert part == [part[0]] + part[1..];
    }
  }

  lemma {:induction false} SplitFirst(part: string, rest: string, separator: char)
    requires separator !in part
    ensures Split(part + [separator] + rest, separator) == [part] + Split(rest, separator)
  {
    var s := part + [separator] + rest;
    if part == "" {
      assert s[1..] == rest && s[0] == separator;
    } else {
      assert s[1..] == part[1..] + [separator] + rest && s[0] == part[0];
      SplitFirst(part[1..], rest, separator);
      assert part == [part[0]] + part[1..];
      var tail := Split(rest, separator);
      assert ([part[1..]] + tail)[1..] == tail;
    }
  }

  /** Any parts without separators come back from their join. */
  lemma {:induction false} SplitJoin(parts: seq<string>, separator: char)
    requires parts != [] && forall k :: 0 <= k < |parts| ==> separator !in parts[k]
    ensures Split(Join(parts, separator), separator) == parts
  {
    if |parts| == 1 {
      SplitOfPart(parts[0], separator);
    } else {
      SplitJoin(parts[1..], separator);
      SplitFirst(parts[0], Join(parts[1..], separator), separator);
      assert parts == [parts[0]] + parts[1..];
    }
  }

  /** The parts of a split are its segments: each part is one. */
  lemma {:induction false} PartIsSegment(s: string, separator: char, k: nat) returns (i: nat, j: nat)
    requires k < |Split(s, separator)|
    ensures IsSegment(s, separator, i, j) && Split(s, separator)[k] == s[i..j] && (k == 0 <==> i == 0)
  {
    if s == "" || (s[0] == separator && k == 0) {
      i, j := 0, 0;
    } else {
      i, j := PartIsSegment(s[1..], separator, if s[0] == separator then k - 1 else k);
      assert s[1..][i..j] == s[i + 1..j + 1];
      if s[0] != separator && k == 0 {
        assert s[0..j + 1] == [s[0]] + s[1..j + 1];
        i, j := 0, j + 1;
      } else {
        i, j := i + 1, j + 1;
      }
    }
  }

  lemma FirstIn(s: string, j: nat)
    requires s != "" && j <= |s|
    ensures j > 0 ==> s[0] in s[0..j]
  {
    if j > 0 {
      assert s[0..j][0] == s[0];
    }
  }

  /** And each segment is a part. */
  lemma {:induction false} SegmentIsPart(s: string, separator: char, i: nat, j: nat) returns (k: nat)
    requires IsSegment(s, separator, i, j)
    ensures k < |Split(s, separator)| && Split(s, separator)[k] == s[i..j] && (k == 0 <==> i == 0)
  {
    if s == "" {
      k := 0;
    } else if i == 0 {
      if s[0] == separator {
        FirstIn(s, j);
        k := 0;
      } else {
        assert s[i..j] == [s[0]] + s[1..][0..j - 1];
        k := SegmentIsPart(s[1..], separator, 0, j - 1);
      }
    } else {
      assert s[1..][i - 1..j - 1] == s[i..j];
      k := SegmentIsPart(s[1..], separator, i - 1, j - 1);
      if s[0] == separator {
        k := k + 1;
      }
    }
  }

  /** A text is a part of the split exactly if it is a segment. */
  lemma PartsAreSegments(s: string, separator: char, part: string)
    ensures part in Split(s, separator) <==> exists i: nat, j: nat :: IsSegment(s, separator, i, j) && s[i..j] == part
  {
    if part in Split(s, separator) {
      var k :| 0 <= k < |Split(s, separator)| && Split(s, separator)[k] == part;
      var i, j := PartIsSegment(s, separator, k);
    }
    if i: nat, j: nat :| IsSegment(s, separator, i, j) && s[i..j] == part {
      var k := SegmentIsPart(s, separator, i, j);
    }
  }

  // ---------------------------------------------------------------- numbers

  /** n in decimal digits. */
  function Decimal(n: nat): (s: string)
    ensures s != "" && forall i :: 0 <= i < |s| ==> IsDigit(s[i])
  {
    if n < 10 then [DigitOf(n)] else Decimal(n / 10) + [DigitOf(n % 10)]
  }

  function DigitOf(n: nat): char
    requires n < 10
  {
    "0123456789"[n]
  }

  lemma {:induction false} DecimalAppends(s: string, c: char, read: int)
    requires IsDigit(c) && forall i :: 0 <= i < |s| ==> IsDigit(s[i])
    ensures DecimalValue(s + [c], read) == 10 * DecimalValue(s, read) + (c as int - '0' as int)
    decreases |s|
  {
    if s == "" {
      assert s + [c] == [c] && [c][1..] == "";
    } else {
      assert (s + [c])[1..] == s[1..] + [c] && (s + [c])[0] == s[0];
      DecimalAppends(s[1..], c, 10 * read + (s[0] as int - '0' as int));
    }
  }

  lemma DigitIs(n: nat)
    requires n < 10
    ensures IsDigit(DigitOf(n)) && DigitOf(n) as int - '0' as int == n
  {
    var digits := "0123456789";
    assert digits[0] == '0' && digits[1] == '1' && digits[2] == '2' && digits[3] == '3' && digits[4] == '4';
    assert digits[5] == '5' && digits[6] == '6' && digits[7] == '7' && digits[8] == '8' && digits[9] == '9';
  }

  lemma {:induction false} DecimalReads(n: nat)
    ensures DecimalValue(Decimal(n), 0) == n
  {
    if n < 10 {
      DigitIs(n);
      assert DecimalValue([DigitOf(n)], 0) == DecimalValue([DigitOf(n)][1..], n);
    } else {
      DigitIs(n % 10);
      DecimalReads(n / 10);
      DecimalAppends(Decimal(n / 10), DigitOf(n % 10), 0);
    }
  }

  /** White space is these characters. */
  lemma SpaceExactly(c: char)
    ensures IsSpace(c) <==>
            c as int in {9, 10, 11, 12, 13, 32, 160, 5760, 8192, 8193, 8194, 8195, 8196, 8197, 8198, 8199, 8200, 8201, 8202,
                         8232, 8233, 8239, 8287, 12288, 65279}
  {
  }

  lemma {:induction false} TrimStartSkips(front: string, s: string)
    requires (forall i :: 0 <= i < |front| ==> IsSpace(front[i])) && (s != "" ==> !IsSpace(s[0]))
    ensures TrimStart(front + s) == s
  {
    if front == "" {
      assert front + s == s;
    } else {
      assert (front + s)[0] == front[0] && (front + s)[1..] == front[1..] + s;
      TrimStartSkips(front[1..], s);
    }
  }

  lemma {:induction false} DigitsThenRest(digits: string, rest: string, read: int)
    requires (forall i :: 0 <= i < |digits| ==> IsDigit(digits[i])) && (rest != "" ==> !IsDigit(rest[0]))
    ensures DecimalValue(digits + rest, read) == DecimalValue(digits, read)
    decreases |digits|
  {
    if digits == "" {
      assert digits + rest == rest;
    } else {
      assert (digits + rest)[0] == digits[0] && (digits + rest)[1..] == digits[1..] + rest;
      DigitsThenRest(digits[1..], rest, 10 * read + (digits[0] as int - '0' as int));
    }
  }

  /** A number is read after white space and a sign, and up to the first character that is no digit. */
  lemma ParseDecimalReads(front: string, sign: string, n: nat, rest: string)
    requires forall i :: 0 <= i < |front| ==> IsSpace(front[i])
    requires sign in {"", "+", "-"} && (rest != "" ==> !IsDigit(rest[0]))
    ensures ParseDecimal(front + (sign + (Decimal(n) + rest))) == Some(if sign == "-" then -(n as int) else n)
  {
    hide DecimalValue, TrimStart, Decimal;
    var u := Decimal(n) + rest;
    var t := sign + u;
    DecimalReads(n);
    DigitsThenRest(Decimal(n), rest, 0);
    assert IsDigit(Decimal(n)[0]) && u[0] == Decimal(n)[0];
    assert t[0] == if sign == "" then u[0] else sign[0];
    TrimStartSkips(front, t);
    assert sign == "" ==> t == u;
    assert sign != "" ==> t[1..] == u;
  }

  /** There is no number where no digit follows. */
  lemma NoNumber(front: string, sign: string, rest: string)
    requires forall i :: 0 <= i < |front| ==> IsSpace(front[i])
    requires sign in {"", "+", "-"} && (rest != "" ==> !IsDigit(rest[0]))
    requires sign == "" && rest != "" ==> !IsSpace(rest[0]) && rest[0] != '+' && rest[0] != '-'
    ensures ParseDecimal(front + (sign + rest)) == None
  {
    var t := sign + rest;
    assert sign != "" ==> t[0] == sign[0] && t[1..] == rest;
    assert sign == "" ==> t == rest;
    TrimStartSkips(front, t);
  }
}
