/** What tar headers look like, offset by offset, as the ustar format demands, and what is read at which offset. */
module TarLayout {
  import opened Common
  import opened Utf8
  import opened TarHeader
  import opened TarArchive
  import opened Text

  /** 0o644. */
  const OWNER_WRITES_ALL_READ := 6 * 64 + 4 * 8 + 4

  // ---------------------------------------------------------------- numbers and sums

  /** Octal digits and a NUL that stand for the value. */
  predicate OctalHolds(field: seq<Byte>, value: nat) {
    && field != [] && field[|field| - 1] == 0
    && (forall i :: 0 <= i < |field| - 1 ==> '0' as int <= field[i] <= '7' as int)
    && OctalValue(field[..|field| - 1]) == value
  }

  lemma FieldHolds(value: nat, length: nat)
    requires length >= 2 && value < Pow8(length - 1)
    ensures OctalHolds(OctalField(value, length), value)
  {
    PaddedOctalFits(value, length - 1);
    assert OctalField(value, length)[..length - 1] == PaddedOctal(value, length - 1)[..length - 1]
        == PaddedOctal(value, length - 1);
  }

  lemma {:induction false} SumOfTwo(a: seq<Byte>, b: seq<Byte>)
    ensures Sum(a + b) == Sum(a) + Sum(b)
  {
    if b == [] {
      assert a + b == a;
    } else {
      assert (a + b)[..|a + b| - 1] == a + b[..|b| - 1];
      SumOfTwo(a, b[..|b| - 1]);
    }
  }

  lemma EightBlanks()
    ensures Sum(BLANK) == 8 * 32
  {
    var four: seq<Byte> := [32, 32, 32, 32];
    var two: seq<Byte> := [32, 32];
    assert two[..1] == [32] && [32 as Byte][..0] == [];
    assert BLANK == four + four && four == two + two;
    SumOfTwo(two, two);
    SumOfTwo(four, four);
  }

  // ---------------------------------------------------------------- the header

  /** The fields before the checksum: name, mode, user and group zero, size, time. */
  ghost predicate FrontLaidOut(h: seq<Byte>, name: string, size: nat, mode: nat, mtime: nat) {
    && |h| == 512
    && (forall i :: 0 <= i < 100 ==> h[i] == if i < |Units(name)| then Units(name)[i] % 256 else 0)
    && (mode < Pow8(7) ==> OctalHolds(h[100..108], mode))
    && OctalHolds(h[108..116], 0) && OctalHolds(h[116..124], 0)
    && (size < Pow8(11) ==> OctalHolds(h[124..136], size))
    && (mtime < Pow8(11) ==> OctalHolds(h[136..148], mtime))
  }

  /** The checksum and the fields after it: type, no link name, magic, version, and zeros. The checksum counts its own field
      as eight spaces. */
  ghost predicate BackLaidOut(h: seq<Byte>, typeflag: char) {
    && |h| == 512
    && h[154] == 0 && h[155] == ' ' as int
    && (forall i :: 148 <= i < 154 ==> '0' as int <= h[i] <= '7' as int)
    && OctalValue(h[148..154]) == Sum(h[..148]) + 8 * 32 + Sum(h[156..])
    && h[156] == typeflag as int
    && (forall i :: 0 <= i < 5 ==> h[257 + i] == "ustar"[i] as int)
    && h[262] == 0 && h[263] == '0' as int && h[264] == '0' as int
    && (forall i :: 157 <= i < 257 || 265 <= i < 512 ==> h[i] == 0)
  }

  lemma FrontParts(name: string, size: nat, mode: nat, mtime: nat)
    ensures var f := Front(name, size, mode, mtime);
            && f[..100] == NameField(name) && f[100..108] == OctalField(mode, 8)
            && f[108..116] == OctalField(0, 8) && f[116..124] == OctalField(0, 8)
            && f[124..136] == OctalField(size, 12) && f[136..148] == OctalField(mtime, 12)
  {
    hide NameField, OctalField;
  }

  lemma NameLaidOut(name: string, i: nat)
    requires i < 100
    ensures NameField(name)[i] == if i < |Units(name)| then Units(name)[i] % 256 else 0
  {
    hide Units;
  }

  lemma FrontIsLaidOut(h: seq<Byte>, name: string, size: nat, mode: nat, mtime: nat)
    requires |h| == 512 && h[..148] == Front(name, size, mode, mtime)
    ensures FrontLaidOut(h, name, size, mode, mtime)
  {
    hide Front, NameField, OctalField, OctalHolds, Pow8, Units;
    var f := Front(name, size, mode, mtime);
    FrontParts(name, size, mode, mtime);
    forall i | 0 <= i < 100
      ensures h[i] == if i < |Units(name)| then Units(name)[i] % 256 else 0
    {
      NameLaidOut(name, i);
      assert h[i] == h[..148][i] == f[..100][i];
    }
    assert h[100..108] == f[100..108] && h[108..116] == f[108..116] && h[116..124] == f[116..124];
    assert h[124..136] == f[124..136] && h[136..148] == f[136..148];
    FieldHolds(0, 8);
    if mode < Pow8(7) { FieldHolds(mode, 8); }
    if size < Pow8(11) { FieldHolds(size, 12); }
    if mtime < Pow8(11) { FieldHolds(mtime, 12); }
  }

  lemma BackIsLaidOut(h: seq<Byte>, typeflag: char)
    requires typeflag as int < 256 && |h| == 512 && h[156..] == Back(typeflag)
    ensures h[156] == typeflag as int
    ensures forall i :: 0 <= i < 5 ==> h[257 + i] == "ustar"[i] as int
    ensures h[262] == 0 && h[263] == '0' as int && h[264] == '0' as int
    ensures forall i :: 157 <= i < 257 || 265 <= i < 512 ==> h[i] == 0
  {
    var b := Back(typeflag);
    assert forall i :: 156 <= i < 512 ==> h[i] == b[i - 156];
    assert b[0] == typeflag as int && b[101..109] == MAGIC_AND_VERSION;
    assert forall i :: 0 <= i < 8 ==> b[101 + i] == MAGIC_AND_VERSION[i];
  }

  lemma ChecksumIsLaidOut(h: seq<Byte>)
    requires |h| == 512 && h[154..156] == [0, 32]
    requires forall i :: 0 <= i < 6 ==> '0' as int <= h[148..154][i] <= '7' as int
    requires OctalValue(h[148..154]) == Sum(h[..148] + BLANK + h[156..])
    ensures h[154] == 0 && h[155] == ' ' as int
    ensures forall i :: 148 <= i < 154 ==> '0' as int <= h[i] <= '7' as int
    ensures OctalValue(h[148..154]) == Sum(h[..148]) + 8 * 32 + Sum(h[156..])
  {
    hide Sum, OctalValue;
    SumOfTwo(h[..148] + BLANK, h[156..]);
    SumOfTwo(h[..148], BLANK);
    EightBlanks();
    assert forall i :: 148 <= i < 154 ==> h[i] == h[148..154][i - 148];
    assert h[154] == h[154..156][0] && h[155] == h[154..156][1];
  }

  /** Every header is laid out in these fields. */
  lemma HeaderLaidOut(name: string, size: nat, typeflag: char, mode: nat, mtime: nat)
    requires typeflag as int < 256
    ensures var h := Header(name, size, typeflag, mode, mtime);
            FrontLaidOut(h, name, size, mode, mtime) && BackLaidOut(h, typeflag)
  {
    hide Front, Back, Checksum, ChecksumField, FrontLaidOut, Sum, OctalValue;
    var h := Header(name, size, typeflag, mode, mtime);
    HeaderParts(Front(name, size, mode, mtime), ChecksumField(Checksum(name, size, typeflag, mode, mtime)), Back(typeflag));
    ChecksumReadsBack(name, size, typeflag, mode, mtime);
    ChecksumIsLaidOut(h);
    FrontIsLaidOut(h, name, size, mode, mtime);
    BackIsLaidOut(h, typeflag);
  }

  // ---------------------------------------------------------------- records

  /** An entry is written as its file record, after a LongLink record that carries its whole name if that takes more than a
      hundred bytes. */
  lemma RecordsWritten(e: Entry)
    ensures var mode := if e.mode.Some? then e.mode.value else OWNER_WRITES_ALL_READ;
            var mtime := if e.mtime.Some? then e.mtime.value else 0;
            var file := Record(e.name, '0', mode, mtime, e.data);
            EntryBytes(e) ==
            if |Encode(e.name)| <= 100 then file
            else Record("././@LongLink", 'L', OWNER_WRITES_ALL_READ, 0, Encode(e.name + [0 as char])) + file
  {
    hide Record;
    assert |Encode(e.name)| <= 100 ==> EntryBytes(e) == [] + FileRecord(e) == FileRecord(e);
  }

  /** What the parser takes from a header: a LongLink by its type and name, the mode, or 0o644 where there is none. */
  lemma HeaderRead(h: seq<Byte>)
    requires |h| == 512
    ensures IsLongLink(h) <==> h[156] == 'L' as int && StripNul(FromAscii(h[..100])) == "././@LongLink"
    ensures var read := ParseInt(TrimEnd(TrimStart(StripNul(FromAscii(h[100..108])))));
            ModeOf(h) == if read == None || read == Some(0) then OWNER_WRITES_ALL_READ else read.value
    ensures AllZero(h) <==> forall b :: b in h ==> b == 0
  {
    hide ParseInt, StripNul, TrimEnd, TrimStart, FromAscii;
    assert AllZero(h) ==> forall i :: 0 <= i < |h| ==> h[i] == 0;
    assert forall i :: 0 <= i < |h| ==> h[i] in h;
  }

  /** A line ends at a line feed, a carriage return, or the line and paragraph separators. */
  lemma OneLineExactly(s: string)
    ensures OneLine(s) <==> forall c :: c in s ==> c as int !in {10, 13, 8232, 8233}
  {
    assert forall i :: 0 <= i < |s| ==> s[i] in s;
    assert forall c: char :: IsLineTerminator(c) <==> c as int in {10, 13, 8232, 8233};
  }
}
