/**
 Tar headers. The specification lays the fields of the POSIX ustar header out one after another; the writer fills a
 block in place and is proved to produce that layout.
 */
module TarHeader {
  import opened Utf8

  const BLOCK_SIZE := 512
  const MAX_NAME_LENGTH := 100
  const GNU_LONGLINK: string := "././@LongLink"
  const DEFAULT_MODE := 420 // 0o644

  function Zeros(n: nat): (z: seq<Byte>)
    ensures |z| == n && forall i :: 0 <= i < n ==> z[i] == 0
  {
    seq(n, _ => 0)
  }

  function PadToBlock(size: nat): nat {
    var remainder := size % BLOCK_SIZE;
    if remainder == 0 then 0 else BLOCK_SIZE - remainder
  }

  // ---------------------------------------------------------------- octal numbers

  function Pow8(n: nat): (p: nat)
    ensures p >= 1
  {
    if n == 0 then 1 else 8 * Pow8(n - 1)
  }

  /** value.toString(8) */
  function OctalDigits(value: nat): (ds: seq<Byte>)
    ensures |ds| >= 1 && forall i :: 0 <= i < |ds| ==> '0' as int <= ds[i] <= '7' as int
  {
    if value < 8 then [48 + value] else OctalDigits(value / 8) + [48 + value % 8]
  }

  /** value.toString(8).padStart(width, "0") */
  function PaddedOctal(value: nat, width: nat): (ds: seq<Byte>)
    ensures |ds| >= width && forall i :: 0 <= i < |ds| ==> '0' as int <= ds[i] <= '7' as int
  {
    var ds := OctalDigits(value);
    if |ds| >= width then ds else seq(width - |ds|, _ => 48) + ds
  }

  /** A numeric field: what fits of the digits, then a NUL. */
  function OctalField(value: nat, length: nat): (f: seq<Byte>)
    requires length >= 1
    ensures |f| == length
  {
    PaddedOctal(value, length - 1)[..length - 1] + [0]
  }

  /** The number a digit string stands for. */
  function OctalValue(ds: seq<Byte>): nat
    requires forall i :: 0 <= i < |ds| ==> '0' as int <= ds[i] <= '7' as int
  {
    if ds == [] then 0 else 8 * OctalValue(ds[..|ds| - 1]) + (ds[|ds| - 1] - 48)
  }

  lemma {:induction false} DigitsHaveValue(value: nat)
    ensures OctalValue(OctalDigits(value)) == value
  {
    if value >= 8 {
      DigitsHaveValue(value / 8);
      assert OctalDigits(value)[..|OctalDigits(value)| - 1] == OctalDigits(value / 8);
    } else {
      assert OctalDigits(value)[..0] == [];
    }
  }

  lemma {:induction false} ZerosHaveNoValue(n: nat, ds: seq<Byte>)
    requires forall i :: 0 <= i < |ds| ==> '0' as int <= ds[i] <= '7' as int
    ensures OctalValue(seq(n, _ => 48) + ds) == OctalValue(ds)
    decreases n + |ds|
  {
    var all := seq(n, _ => 48) + ds;
    if ds != [] {
      assert all[..|all| - 1] == seq(n, _ => 48) + ds[..|ds| - 1];
      ZerosHaveNoValue(n, ds[..|ds| - 1]);
    } else if n > 0 {
      assert all[..|all| - 1] == seq(n - 1, _ => 48) + ds;
      ZerosHaveNoValue(n - 1, ds);
    }
  }

  lemma {:induction false} DigitCount(value: nat, n: nat)
    requires value < Pow8(n) && n >= 1
    ensures |OctalDigits(value)| <= n
  {
    if value >= 8 {
      DigitCount(value / 8, n - 1);
    }
  }

  /** A value below 8^n is written with exactly n digits that stand for it. */
  lemma PaddedOctalFits(value: nat, n: nat)
    requires value < Pow8(n) && n >= 1
    ensures |PaddedOctal(value, n)| == n && OctalValue(PaddedOctal(value, n)) == value
  {
    DigitCount(value, n);
    DigitsHaveValue(value);
    ZerosHaveNoValue(n - |OctalDigits(value)|, OctalDigits(value));
    if |OctalDigits(value)| == n {
      assert PaddedOctal(value, n) == OctalDigits(value);
    }
  }

  // ---------------------------------------------------------------- the layout

  /** The bytes of a name that fit its field. */
  function NameBytes(name: string): (bs: seq<Byte>)
    ensures |bs| <= MAX_NAME_LENGTH
  {
    var us := Units(name);
    LowBytes(if |us| > MAX_NAME_LENGTH then us[..MAX_NAME_LENGTH] else us)
  }

  /** The name field: the low bytes of the first 100 code units, NUL-padded. */
  function NameField(name: string): (f: seq<Byte>)
    ensures |f| == MAX_NAME_LENGTH
  {
    NameBytes(name) + Zeros(MAX_NAME_LENGTH - |NameBytes(name)|)
  }

  const MAGIC_AND_VERSION: seq<Byte> := [117, 115, 116, 97, 114, 0, 48, 48] // "ustar\0" "00"

  const BLANK: seq<Byte> := [32, 32, 32, 32, 32, 32, 32, 32]

  /** Fields before and after the checksum: name, mode, uid, gid, size, mtime; type, link name, magic and version, rest. */
  function Front(name: string, dataLength: nat, mode: nat, mtime: nat): (f: seq<Byte>)
    ensures |f| == 148
  {
    NameField(name) + OctalField(mode, 8) + OctalField(0, 8) + OctalField(0, 8) + OctalField(dataLength, 12)
    + OctalField(mtime, 12)
  }

  function Back(typeflag: char): (f: seq<Byte>)
    requires typeflag as int < 256
    ensures |f| == 356
  {
    [typeflag as int] + Zeros(100) + MAGIC_AND_VERSION + Zeros(247)
  }

  function Sum(bs: seq<Byte>): nat {
    if bs == [] then 0 else Sum(bs[..|bs| - 1]) + bs[|bs| - 1]
  }

  function Checksum(name: string, dataLength: nat, typeflag: char, mode: nat, mtime: nat): nat
    requires typeflag as int < 256
  {
    Sum(Front(name, dataLength, mode, mtime) + BLANK + Back(typeflag))
  }

  /** Six octal digits, NUL, space. */
  function ChecksumField(sum: nat): (f: seq<Byte>)
    ensures |f| == 8
  {
    PaddedOctal(sum, 6)[..6] + [0, 32]
  }

  function Header(name: string, dataLength: nat, typeflag: char, mode: nat, mtime: nat): (h: seq<Byte>)
    requires typeflag as int < 256
    ensures |h| == BLOCK_SIZE
  {
    Front(name, dataLength, mode, mtime) + ChecksumField(Checksum(name, dataLength, typeflag, mode, mtime))
    + Back(typeflag)
  }

  lemma {:induction false} SumBound(bs: seq<Byte>)
    ensures Sum(bs) <= 255 * |bs|
  {
    if bs != [] {
      SumBound(bs[..|bs| - 1]);
    }
  }

  /** Cutting a header back into its three parts. */
  lemma HeaderParts(front: seq<Byte>, checksum: seq<Byte>, back: seq<Byte>)
    requires |front| == 148 && |checksum| == 8
    ensures var h := front + checksum + back;
            h[..148] == front && h[148..154] == checksum[..6] && h[154..156] == checksum[6..] && h[156..] == back
  {
  }

  lemma ChecksumFits(bs: seq<Byte>)
    requires |bs| == BLOCK_SIZE
    ensures |PaddedOctal(Sum(bs), 6)| == 6 && OctalValue(PaddedOctal(Sum(bs), 6)) == Sum(bs)
  {
    SumBound(bs);
    assert Pow8(6) == 262144;
    PaddedOctalFits(Sum(bs), 6);
  }

  /** Six octal digits always hold the checksum, and reading them back gives the byte sum of the header with the
      checksum field blanked. */
  lemma ChecksumReadsBack(name: string, dataLength: nat, typeflag: char, mode: nat, mtime: nat)
    requires typeflag as int < 256
    ensures var h := Header(name, dataLength, typeflag, mode, mtime);
            && h[154..156] == [0, 32]
            && (forall i :: 0 <= i < 6 ==> '0' as int <= h[148..154][i] <= '7' as int)
            && OctalValue(h[148..154]) == Sum(h[..148] + BLANK + h[156..])
  {
    var front, back := Front(name, dataLength, mode, mtime), Back(typeflag);
    var sum := Checksum(name, dataLength, typeflag, mode, mtime);
    ChecksumFits(front + BLANK + back);
    HeaderParts(front, ChecksumField(sum), back);
    assert ChecksumField(sum)[..6] == PaddedOctal(sum, 6);
  }

  // ---------------------------------------------------------------- writing in place

  /** s with bs written over it at an offset. */
  function Put(s: seq<Byte>, offset: nat, bs: seq<Byte>): (r: seq<Byte>)
    requires offset + |bs| <= |s|
    ensures |r| == |s|
  {
    s[..offset] + bs + s[offset + |bs|..]
  }

  /** block.write(value, offset, length, "ascii"): at most `length` bytes. */
  method WriteBytes(block: array<Byte>, bs: seq<Byte>, offset: nat, length: nat)
    requires offset + length <= block.Length
    modifies block
    ensures block[..] == Put(old(block[..]), offset, if |bs| > length then bs[..length] else bs)
  {
    var n := if |bs| > length then length else |bs|;
    var i := 0;
    while i < n
      invariant 0 <= i <= n
      invariant block[..] == Put(old(block[..]), offset, bs[..i])
    {
      block[offset + i] := bs[i];
      i := i + 1;
    }
    assert bs[..n] == if |bs| > length then bs[..length] else bs;
  }

  method WriteOctal(block: array<Byte>, value: nat, offset: nat, length: nat)
    requires length >= 1 && offset + length <= block.Length
    modifies block
    ensures block[..] == Put(old(block[..]), offset, OctalField(value, length))
  {
    var octal := PaddedOctal(value, length - 1);
    WriteBytes(block, octal, offset, length - 1);
    block[offset + length - 1] := 0;
  }

  /** Writing the next field of a block that is zero from there on. */
  lemma PutNext(done: seq<Byte>, zeros: nat, bs: seq<Byte>)
    requires |bs| <= zeros
    ensures Put(done + Zeros(zeros), |done|, bs) == (done + bs) + Zeros(zeros - |bs|)
  {
  }

  lemma PutName(bs: seq<Byte>)
    requires |bs| <= MAX_NAME_LENGTH
    ensures Put(Zeros(BLOCK_SIZE), 0, bs) == bs + Zeros(MAX_NAME_LENGTH - |bs|) + Zeros(412)
  {
  }

  method WriteName(header: array<Byte>, name: string)
    requires header.Length == BLOCK_SIZE && header[..] == Zeros(BLOCK_SIZE)
    modifies header
    ensures header[..] == NameField(name) + Zeros(412)
  {
    WriteBytes(header, NameBytes(name), 0, MAX_NAME_LENGTH);
    PutName(NameBytes(name));
  }

  /** One more octal field after what is already written. */
  method AppendOctal(header: array<Byte>, ghost done: seq<Byte>, value: nat, offset: nat, length: nat)
    requires header.Length == BLOCK_SIZE && length >= 1 && offset + length <= BLOCK_SIZE
    requires |done| == offset && header[..] == done + Zeros(BLOCK_SIZE - offset)
    modifies header
    ensures header[..] == done + OctalField(value, length) + Zeros(BLOCK_SIZE - offset - length)
  {
    WriteOctal(header, value, offset, length);
    PutNext(done, BLOCK_SIZE - offset, OctalField(value, length));
  }

  method WriteFront(header: array<Byte>, name: string, dataLength: nat, mode: nat, mtime: nat)
    requires header.Length == BLOCK_SIZE && header[..] == Zeros(BLOCK_SIZE)
    modifies header
    ensures header[..] == Front(name, dataLength, mode, mtime) + Zeros(364)
  {
    WriteName(header, name);
    ghost var d1 := NameField(name);
    AppendOctal(header, d1, mode, 100, 8);
    ghost var d2 := d1 + OctalField(mode, 8);
    AppendOctal(header, d2, 0, 108, 8);
    ghost var d3 := d2 + OctalField(0, 8);
    AppendOctal(header, d3, 0, 116, 8);
    ghost var d4 := d3 + OctalField(0, 8);
    AppendOctal(header, d4, dataLength, 124, 12);
    ghost var d5 := d4 + OctalField(dataLength, 12);
    AppendOctal(header, d5, mtime, 136, 12);
  }

  method WriteBack(header: array<Byte>, ghost front: seq<Byte>, typeflag: char)
    requires header.Length == BLOCK_SIZE && typeflag as int < 256
    requires |front| == 148 && header[..] == front + Zeros(364)
    modifies header
    ensures header[..] == front + Zeros(8) + Back(typeflag)
  {
    header[156] := typeflag as int;
    ghost var d1 := front + Zeros(8) + [typeflag as int];
    assert header[..] == d1 + Zeros(355);
    var magic: seq<Byte> := [117, 115, 116, 97, 114];
    WriteBytes(header, magic, 257, 6);
    assert d1 + Zeros(355) == (d1 + Zeros(100)) + Zeros(255);
    PutNext(d1 + Zeros(100), 255, magic);
    ghost var d2 := d1 + Zeros(100) + magic;
    assert header[..] == d2 + Zeros(250);
    header[263] := 48;
    header[264] := 48;
    assert header[..] == d2 + [0, 48, 48] + Zeros(247);
    assert d2 + [0, 48, 48] + Zeros(247) == front + Zeros(8) + Back(typeflag) by {
      assert magic + [0, 48, 48] == MAGIC_AND_VERSION;
    }
  }

  method SumBlock(header: array<Byte>) returns (checksum: nat)
    requires header.Length == BLOCK_SIZE
    ensures checksum == Sum(header[..])
  {
    checksum := 0;
    var i := 0;
    while i < BLOCK_SIZE
      invariant 0 <= i <= BLOCK_SIZE
      invariant checksum == Sum(header[..i])
    {
      assert header[..i + 1][..i] == header[..i];
      checksum := checksum + header[i];
      i := i + 1;
    }
    assert header[..i] == header[..];
  }

  lemma PutChecksum(front: seq<Byte>, old8: seq<Byte>, new8: seq<Byte>, back: seq<Byte>)
    requires |front| == 148 && |old8| == 8 && |new8| <= 8
    ensures Put(front + old8 + back, 148, new8) == front + (new8 + old8[|new8|..]) + back
  {
  }

  method WriteChecksum(header: array<Byte>, ghost front: seq<Byte>, ghost back: seq<Byte>)
    requires header.Length == BLOCK_SIZE && |front| == 148 && |back| == 356
    requires header[..] == front + Zeros(8) + back
    modifies header
    ensures header[..] == front + ChecksumField(Sum(front + BLANK + back)) + back
  {
    hide PaddedOctal, Sum, OctalDigits;
    WriteBytes(header, BLANK, 148, 8);
    PutChecksum(front, Zeros(8), BLANK, back);
    assert BLANK + Zeros(8)[8..] == BLANK;
    var checksum := SumBlock(header);
    WriteBytes(header, PaddedOctal(checksum, 6), 148, 6);
    ghost var digits := PaddedOctal(checksum, 6)[..6];
    PutChecksum(front, BLANK, digits, back);
    header[154] := 0;
    header[155] := 32;
    assert header[..] == Put(front + (digits + BLANK[6..]) + back, 154, [0, 32]);
    assert header[..] == front + (digits + [0, 32]) + back;
  }

  method BuildHeader(name: string, dataLength: nat, typeflag: char, mode: nat, mtime: nat) returns (header: array<Byte>)
    requires typeflag as int < 256
    ensures fresh(header) && header[..] == Header(name, dataLength, typeflag, mode, mtime)
  {
    header := new Byte[BLOCK_SIZE](_ => 0);
    assert header[..] == Zeros(BLOCK_SIZE);
    WriteFront(header, name, dataLength, mode, mtime);
    WriteBack(header, Front(name, dataLength, mode, mtime), typeflag);
    WriteChecksum(header, Front(name, dataLength, mode, mtime), Back(typeflag));
  }
}
