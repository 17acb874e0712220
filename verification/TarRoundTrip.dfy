/** Parsing what was written: names, data and modes come back in order, for exactly the entries characterised here. */
module TarRoundTrip {
  import opened Common
  import opened Utf8
  import opened TarHeader
  import opened TarArchive
  import opened Text

  // ---------------------------------------------------------------- text fields

  function Nuls(n: nat): (s: string)
    ensures |s| == n && forall i :: 0 <= i < n ==> s[i] == NUL
  {
    seq(n, _ => NUL)
  }

  /** Every NUL has a line terminator somewhere after it, so that no cut happens. */
  predicate NulsGuarded(s: string) {
    forall i :: 0 <= i < |s| && s[i] == NUL ==> !OneLine(s[i + 1..])
  }

  lemma {:induction false} StripNuls(n: nat)
    ensures StripNul(Nuls(n)) == ""
  {
    if n > 0 {
      assert OneLine(Nuls(n)[1..]);
    }
  }

  lemma OneLineWithNuls(s: string, n: nat)
    ensures OneLine(s + Nuls(n)) <==> OneLine(s)
  {
    if OneLine(s + Nuls(n)) {
      assert forall i :: 0 <= i < |s| ==> s[i] == (s + Nuls(n))[i];
    }
  }

  lemma GuardedTail(s: string)
    requires s != ""
    ensures NulsGuarded(s) <==> NulsGuarded(s[1..]) && (s[0] == NUL ==> !OneLine(s[1..]))
  {
    assert forall i :: 0 <= i < |s| - 1 ==> s[1..][i] == s[i + 1] && s[1..][i + 1..] == s[i + 2..];
    if NulsGuarded(s[1..]) && (s[0] == NUL ==> !OneLine(s[1..])) {
      forall i | 0 <= i < |s| && s[i] == NUL
        ensures !OneLine(s[i + 1..])
      {
        assert i > 0 ==> s[1..][i - 1] == NUL;
      }
    }
  }

  /** Padding a text with NULs and cutting gives the text back exactly when each of its own NULs is guarded. */
  lemma {:induction false} StripPadded(s: string, n: nat)
    ensures StripNul(s + Nuls(n)) == s <==> NulsGuarded(s)
  {
    if s == "" {
      assert s + Nuls(n) == Nuls(n);
      StripNuls(n);
    } else {
      assert (s + Nuls(n))[1..] == s[1..] + Nuls(n);
      OneLineWithNuls(s[1..], n);
      StripPadded(s[1..], n);
      GuardedTail(s);
      assert s == [s[0]] + s[1..];
    }
  }

  // ---------------------------------------------------------------- octal fields

  predicate AreDigits(ds: seq<Byte>) { forall i :: 0 <= i < |ds| ==> '0' as int <= ds[i] <= '7' as int }

  lemma {:induction false} RunOfDigits(s: string)
    requires forall i :: 0 <= i < |s| ==> IsOctal(s[i])
    ensures OctalRun(s) == |s|
  {
    if s != "" {
      RunOfDigits(s[1..]);
    }
  }

  lemma DigitsParse(ds: seq<Byte>)
    requires ds != [] && AreDigits(ds)
    ensures ParseInt(FromAscii(ds)) == Some(OctalValue(ds))
  {
    var s := FromAscii(ds);
    RunOfDigits(s);
    assert TrimStart(s) == s;
    assert s[..|s|] == s;
    assert AsciiBytes(s) == ds;
  }

  lemma DigitsAreTrimmed(ds: seq<Byte>)
    requires ds != [] && AreDigits(ds)
    ensures TrimEnd(TrimStart(FromAscii(ds))) == FromAscii(ds)
  {
    var s := FromAscii(ds);
    assert s[0] == ds[0] as char && s[|s| - 1] == ds[|s| - 1] as char;
  }

  lemma DigitsTerminated(ds: seq<Byte>)
    requires AreDigits(ds)
    ensures FromAscii(ds + [0]) == FromAscii(ds) + Nuls(1) && NulsGuarded(FromAscii(ds))
  {
  }

  /** A field of digits and a final NUL reads as the number the digits stand for. */
  lemma DigitsRead(ds: seq<Byte>, default: int)
    requires ds != [] && AreDigits(ds)
    ensures FieldValue(ds + [0], default) == if OctalValue(ds) == 0 then default else OctalValue(ds)
  {
    DigitsTerminated(ds);
    DigitsAreTrimmed(ds);
    DigitsParse(ds);
    StripPadded(FromAscii(ds), 1);
  }

  lemma {:induction false} PrefixValue(ds: seq<Byte>, n: nat)
    requires n < |ds| && forall i :: 0 <= i < |ds| ==> '0' as int <= ds[i] <= '7' as int
    ensures 8 * OctalValue(ds[..n]) <= OctalValue(ds)
  {
    if n < |ds| - 1 {
      PrefixValue(ds[..|ds| - 1], n);
      assert ds[..|ds| - 1][..n] == ds[..n];
    }
  }

  lemma {:induction false} ManyDigits(value: nat, n: nat)
    requires value >= Pow8(n)
    ensures |OctalDigits(value)| > n
  {
    if n > 0 {
      ManyDigits(value / 8, n - 1);
    }
  }

  /** The digits of a value too large for the field stand for a smaller one. */
  lemma TruncatedValue(value: nat, n: nat)
    requires value >= Pow8(n)
    ensures |PaddedOctal(value, n)| > n && OctalValue(PaddedOctal(value, n)[..n]) < value
  {
    ManyDigits(value, n);
    DigitsHaveValue(value);
    PrefixValue(OctalDigits(value), n);
  }

  /** A numeric field gives its value back exactly when the value fits and is not a zero the default replaces. */
  lemma OctalFieldReads(value: nat, length: nat, default: nat)
    requires length >= 2 && default < Pow8(length - 1)
    ensures FieldValue(OctalField(value, length), default) == value
            <==> value < Pow8(length - 1) && (value == 0 ==> default == 0)
  {
    var ds := PaddedOctal(value, length - 1)[..length - 1];
    DigitsRead(ds, default);
    if value < Pow8(length - 1) {
      PaddedOctalFits(value, length - 1);
      assert ds == PaddedOctal(value, length - 1);
    } else {
      TruncatedValue(value, length - 1);
    }
  }

  // ---------------------------------------------------------------- sizes below zero

  /** A size field with a minus sign: ten digits after it, then a NUL. */
  function MinusField(n: nat): seq<Byte> { [45] + PaddedOctal(n, 10) + [0] }

  lemma MinusIsTrimmed(ds: seq<Byte>)
    requires ds != [] && AreDigits(ds)
    ensures TrimEnd(TrimStart(FromAscii([45] + ds))) == FromAscii([45] + ds)
  {
    var s := FromAscii([45] + ds);
    assert s[0] == '-' && s[|s| - 1] == ds[|ds| - 1] as char;
  }

  lemma SignedParse(s: string, t: string)
    requires s != "" && s[0] == '-' && s[1..] == t && t != "" && OctalRun(t) == |t|
    ensures ParseInt(s) == Some(-(OctalValue(AsciiBytes(t)) as int))
  {
    hide OctalRun, OctalValue, AsciiBytes;
    assert TrimStart(s) == s;
    assert t[..|t|] == t;
  }

  lemma MinusParses(ds: seq<Byte>)
    requires ds != [] && AreDigits(ds)
    ensures ParseInt(FromAscii([45] + ds)) == Some(-(OctalValue(ds) as int))
  {
    hide ParseInt, OctalValue, OctalRun;
    var t := FromAscii(ds);
    RunOfDigits(t);
    SignSplit(ds);
    SignedParse(FromAscii([45] + ds), t);
  }

  lemma SignSplit(ds: seq<Byte>)
    requires AreDigits(ds)
    ensures FromAscii([45] + ds)[0] == '-' && FromAscii([45] + ds)[1..] == FromAscii(ds)
    ensures AsciiBytes(FromAscii(ds)) == ds
  {
  }

  lemma MinusTerminated(ds: seq<Byte>)
    requires AreDigits(ds)
    ensures FromAscii([45] + ds + [0]) == FromAscii([45] + ds) + Nuls(1) && NulsGuarded(FromAscii([45] + ds))
  {
  }

  /** The parser takes a minus sign in the size field for one. */
  lemma MinusReads(n: nat)
    requires n < Pow8(10)
    ensures |MinusField(n)| == 12 && FieldValue(MinusField(n), 0) == -(n as int)
  {
    var ds := PaddedOctal(n, 10);
    PaddedOctalFits(n, 10);
    MinusTerminated(ds);
    StripPadded(FromAscii([45] + ds), 1);
    MinusIsTrimmed(ds);
    MinusParses(ds);
  }

  /** Wherever such a field lies in a buffer, it keeps the parser from moving on exactly for these sizes. */
  lemma MinusSticks(buffer: seq<Byte>, offset: nat, n: nat)
    requires n < Pow8(10) && offset + BLOCK_SIZE <= |buffer|
    requires buffer[offset + 124..offset + 136] == MinusField(n)
    ensures FoundAt(buffer, offset).Stuck? <==> n == BLOCK_SIZE || n >= 2 * BLOCK_SIZE
  {
    hide FieldValue, IsLongLink, NameOf, ModeOf, Subarray, Pow8, Decode, PaddedOctal;
    var h := buffer[offset..offset + BLOCK_SIZE];
    MinusReads(n);
    StrideMovesForward(-(n as int));
    assert forall i :: 124 <= i < 136 ==> h[i] == buffer[offset + i] == buffer[offset + 124..offset + 136][i - 124];
    assert h[124..136] == MinusField(n);
    assert h[124] == 45;
  }

  function MinusBlock(n: nat): seq<Byte> { Zeros(124) + MinusField(n) + Zeros(376) }

  /** A buffer of one block on which the parser makes no progress exactly for these sizes. */
  lemma NoProgressExactly(n: nat)
    requires n < Pow8(10)
    ensures Parse(MinusBlock(n)) == Err(NoProgress) <==> n == BLOCK_SIZE || n >= 2 * BLOCK_SIZE
  {
    hide FieldValue, StripNul, Subarray, PaddedOctal, Pow8, FoundAt;
    var buffer := MinusBlock(n);
    MinusReads(n);
    assert buffer[124..136] == MinusField(n);
    MinusSticks(buffer, 0, n);
    OneBlock(buffer);
  }

  /** A single block is stuck, or it is the only one read. */
  lemma OneBlock(buffer: seq<Byte>)
    requires |buffer| == BLOCK_SIZE
    ensures Parse(buffer) == Err(NoProgress) <==> FoundAt(buffer, 0).Stuck?
  {
    hide SizeOf, Reading;
    var f := FoundAt(buffer, 0);
    if f.LongName? || f.File? {
      FoundNext(buffer);
      assert FoundAt(buffer, f.next) == End;
      assert ParseFrom(buffer, f.next, None) == Ok([]);
      assert f.LongName? ==> ParseFrom(buffer, f.next, Some(f.name)) == Ok([]);
    }
  }

  lemma FoundNext(buffer: seq<Byte>)
    requires |buffer| == BLOCK_SIZE && (FoundAt(buffer, 0).LongName? || FoundAt(buffer, 0).File?)
    ensures FoundAt(buffer, 0).next >= BLOCK_SIZE
  {
    hide SizeOf, AllZero;
    StrideMovesForward(SizeOf(buffer[0..BLOCK_SIZE]));
  }

  // ---------------------------------------------------------------- names

  /** What the name field of a header reads as. */
  function FieldName(name: string): string { StripNul(FromAscii(NameField(name))) }

  /** The name an entry is read back under. */
  function NameRead(name: string): string {
    if IsLong(name) then StripNul(name + Nuls(1)) else FieldName(name)
  }

  /** Names that survive: long ones and ASCII ones, with every NUL guarded by a later line terminator. */
  predicate Survives(name: string) { NulsGuarded(name) && (IsLong(name) || IsAscii(name)) }

  lemma {:induction false} StripKeepsAscii(s: string)
    requires IsAscii(s)
    ensures IsAscii(StripNul(s))
  {
    if s != "" {
      StripKeepsAscii(s[1..]);
    }
  }

  lemma FieldPadded(bs: seq<Byte>, n: nat)
    ensures FromAscii(bs + Zeros(n)) == FromAscii(bs) + Nuls(n)
  {
  }

  lemma AsciiField(name: string)
    requires IsAscii(name) && !IsLong(name)
    ensures FromAscii(NameBytes(name)) == name
  {
    AsciiIsPlain(name);
    assert FromAscii(AsciiBytes(name)) == name;
  }

  lemma PaddedField(s: string, field: seq<Byte>, bs: seq<Byte>)
    requires FromAscii(bs) == s && |bs| <= |field| && field == bs + Zeros(|field| - |bs|)
    ensures StripNul(FromAscii(field)) == s <==> NulsGuarded(s)
  {
    FieldPadded(bs, |field| - |bs|);
    StripPadded(s, |field| - |bs|);
  }

  lemma AsciiNameRead(name: string)
    requires IsAscii(name) && !IsLong(name)
    ensures FieldName(name) == name <==> NulsGuarded(name)
  {
    AsciiField(name);
    PaddedField(name, NameField(name), NameBytes(name));
  }

  lemma OtherNameRead(name: string)
    requires !IsAscii(name)
    ensures FieldName(name) != name
  {
    StripKeepsAscii(FromAscii(NameField(name)));
  }

  /** A name read back is the name written exactly when it survives. */
  lemma NameReadsBack(name: string)
    ensures NameRead(name) == name <==> Survives(name)
  {
    if IsLong(name) {
      StripPadded(name, 1);
    } else if IsAscii(name) {
      AsciiNameRead(name);
    } else {
      OtherNameRead(name);
    }
  }

  lemma PlainNameRead(name: string)
    requires |name| <= MAX_NAME_LENGTH && forall i :: 0 <= i < |name| ==> 0 < name[i] as int < 128
    ensures FieldName(name) == name
  {
    AsciiIsPlain(name);
    AsciiNameRead(name);
  }

  /** The name of LongLink records reads back as itself. */
  lemma LongLinkName(name: string)
    requires name == GNU_LONGLINK
    ensures FieldName(name) == name
  {
    PlainNameRead(name);
  }

  // ---------------------------------------------------------------- headers

  lemma SixFields(a: seq<Byte>, b: seq<Byte>, c: seq<Byte>, d: seq<Byte>, e: seq<Byte>, f: seq<Byte>)
    requires |a| == 100 && |b| == |c| == |d| == 8 && |e| == |f| == 12
    ensures var s := a + b + c + d + e + f;
            |s| == 148 && s[..100] == a && s[100..108] == b && s[124..136] == e
  {
  }

  lemma InFront(front: seq<Byte>, rest: seq<Byte>)
    requires |front| == 148
    ensures var h := front + rest;
            h[..100] == front[..100] && h[100..108] == front[100..108] && h[124..136] == front[124..136]
  {
  }

  lemma HeaderFields(name: string, dataLength: nat, typeflag: char, mode: nat, mtime: nat)
    requires typeflag as int < 256
    ensures var h := Header(name, dataLength, typeflag, mode, mtime);
            && h[..100] == NameField(name) && h[100..108] == OctalField(mode, 8)
            && h[124..136] == OctalField(dataLength, 12) && h[156] == typeflag as int
  {
    var front := Front(name, dataLength, mode, mtime);
    var check := ChecksumField(Checksum(name, dataLength, typeflag, mode, mtime));
    SixFields(NameField(name), OctalField(mode, 8), OctalField(0, 8), OctalField(0, 8), OctalField(dataLength, 12),
              OctalField(mtime, 12));
    InFront(front, check + Back(typeflag));
    assert front + check + Back(typeflag) == front + (check + Back(typeflag));
    HeaderParts(front, check, Back(typeflag));
  }

  // ---------------------------------------------------------------- records

  /** Sizes a header can announce. */
  predicate Storable(size: nat) { size < Pow8(11) }

  function ModeRead(mode: nat): int { FieldValue(OctalField(mode, 8), DEFAULT_MODE) }

  lemma NumbersRead(h: seq<Byte>, dataLength: nat, mode: nat)
    requires |h| == BLOCK_SIZE && Storable(dataLength)
    requires h[100..108] == OctalField(mode, 8) && h[124..136] == OctalField(dataLength, 12)
    ensures SizeOf(h) == dataLength && ModeOf(h) == ModeRead(mode)
  {
    OctalFieldReads(dataLength, 12, 0);
  }

  /** The parser's reading of a header the writer built. */
  lemma HeaderReads(h: seq<Byte>, name: string, dataLength: nat, typeflag: char, mode: nat, mtime: nat)
    requires 0 < typeflag as int < 256 && Storable(dataLength)
    requires h == Header(name, dataLength, typeflag, mode, mtime)
    ensures !AllZero(h) && h[156] == typeflag as int
    ensures NameOf(h) == FieldName(name) && SizeOf(h) == dataLength && ModeOf(h) == ModeRead(mode)
  {
    HeaderFields(name, dataLength, typeflag, mode, mtime);
    NumbersRead(h, dataLength, mode);
  }

  /** A record cut out of the buffer it is laid in. */
  lemma RecordInPlace(buffer: seq<Byte>, prefix: seq<Byte>, header: seq<Byte>, data: seq<Byte>, rest: seq<Byte>)
    requires |header| == BLOCK_SIZE && buffer == prefix + (header + data) + rest
    ensures |prefix| + BLOCK_SIZE + |data| <= |buffer|
    ensures buffer[|prefix|..|prefix| + BLOCK_SIZE] == header
    ensures Subarray(buffer, |prefix| + BLOCK_SIZE, |prefix| + BLOCK_SIZE + |data|) == data
  {
    assert buffer[|prefix|..|prefix| + BLOCK_SIZE] == header;
    assert buffer[|prefix| + BLOCK_SIZE..|prefix| + BLOCK_SIZE + |data|] == data;
  }

  /** The step of the parser at a position where this header and this data lie. */
  lemma FoundThere(buffer: seq<Byte>, offset: nat, h: seq<Byte>, data: seq<Byte>, next: nat)
    requires offset + BLOCK_SIZE <= |buffer| && h == buffer[offset..offset + BLOCK_SIZE] && !AllZero(h)
    requires data == Subarray(buffer, offset + BLOCK_SIZE, offset + BLOCK_SIZE + SizeOf(h))
    requires next == offset + Stride(SizeOf(h)) && next > offset
    ensures FoundAt(buffer, offset) == Reading(h, data, next)
  {
    hide SizeOf, Stride, Subarray, Reading, AllZero;
  }

  /** What a record is read as: it is taken for a LongLink record exactly when it was written as one. */
  lemma RecordReads(h: seq<Byte>, name: string, typeflag: char, mode: nat, mtime: nat, data: seq<Byte>, next: nat)
    requires 0 < typeflag as int < 256 && Storable(|data|)
    requires h == Header(name, |data|, typeflag, mode, mtime)
    ensures Reading(h, data, next) ==
            if typeflag == TYPE_LONGLINK && FieldName(name) == GNU_LONGLINK
            then LongName(StripNul(Decode(data)), next)
            else File(FieldName(name), data, ModeRead(mode), next)
  {
    HeaderReads(h, name, |data|, typeflag, mode, mtime);
  }

  lemma Regroup(a: seq<Byte>, b: seq<Byte>, c: seq<Byte>, d: seq<Byte>, e: seq<Byte>)
    ensures a + (b + c + d) + e == a + (b + c) + (d + e)
  {
  }

  lemma LaidOutFound(buffer: seq<Byte>, prefix: seq<Byte>, h: seq<Byte>, data: seq<Byte>, rest: seq<Byte>)
    requires |h| == BLOCK_SIZE && !AllZero(h) && SizeOf(h) == |data|
    requires buffer == prefix + (h + data + Zeros(PadToBlock(|data|))) + rest
    ensures FoundAt(buffer, |prefix|) == Reading(h, data, |prefix| + BLOCK_SIZE + |data| + PadToBlock(|data|))
  {
    StrideMovesForward(|data|);
    Regroup(prefix, h, data, Zeros(PadToBlock(|data|)), rest);
    RecordInPlace(buffer, prefix, h, data, Zeros(PadToBlock(|data|)) + rest);
    FoundThere(buffer, |prefix|, h, data, |prefix| + Stride(|data|));
  }

  /** The parser finds a record where it was laid out. */
  lemma RecordFound(buffer: seq<Byte>, prefix: seq<Byte>, name: string, typeflag: char, mode: nat, mtime: nat,
                    data: seq<Byte>, rest: seq<Byte>)
    requires 0 < typeflag as int < 256 && Storable(|data|)
    requires buffer == prefix + Record(name, typeflag, mode, mtime, data) + rest
    ensures var next := |prefix| + |Record(name, typeflag, mode, mtime, data)|;
            FoundAt(buffer, |prefix|) ==
            if typeflag == TYPE_LONGLINK && FieldName(name) == GNU_LONGLINK
            then LongName(StripNul(Decode(data)), next)
            else File(FieldName(name), data, ModeRead(mode), next)
  {
    var h := Header(name, |data|, typeflag, mode, mtime);
    HeaderReads(h, name, |data|, typeflag, mode, mtime);
    LaidOutFound(buffer, prefix, h, data, rest);
    RecordReads(h, name, typeflag, mode, mtime, data, |prefix| + |Record(name, typeflag, mode, mtime, data)|);
  }

  // ---------------------------------------------------------------- archives

  /** Entries whose sizes fit the header; a long name travels as the data of its LongLink record, with a final NUL. */
  predicate Fits(e: Entry) {
    Storable(|e.data|) && (IsLong(e.name) ==> Storable(|Encode(e.name + [NUL])|))
  }

  /** An entry as the parser returns it. */
  function ReadBack(e: Entry): Parsed { Parsed(NameRead(e.name), e.data, ModeRead(e.mode.GetOr(DEFAULT_MODE))) }

  function ReadAll(es: seq<Entry>): seq<Parsed> {
    if es == [] then [] else [ReadBack(es[0])] + ReadAll(es[1..])
  }

  lemma LongNameDecodes(name: string)
    requires IsLong(name)
    ensures StripNul(Decode(Encode(name + [NUL]))) == NameRead(name)
  {
    DecodeEncoded(name + [NUL]);
    assert [NUL] == Nuls(1);
  }

  /** A LongLink record leaves the whole name pending. */
  lemma LongLinkParses(buffer: seq<Byte>, prefix: seq<Byte>, name: string, rest: seq<Byte>)
    requires IsLong(name) && Storable(|Encode(name + [NUL])|)
    requires buffer == prefix + LongLink(name) + rest
    ensures ParseFrom(buffer, |prefix|, None) == ParseFrom(buffer, |prefix| + |LongLink(name)|, Some(NameRead(name)))
  {
    hide FoundAt, Record, Encode, StripNul, FieldName, NameRead, Decode;
    var link := GNU_LONGLINK;
    LongLinkName(link);
    RecordFound(buffer, prefix, link, TYPE_LONGLINK, DEFAULT_MODE, 0, Encode(name + [NUL]), rest);
    LongNameDecodes(name);
  }

  /** A file record is pushed under the pending name, or under its own. */
  lemma FileParses(buffer: seq<Byte>, prefix: seq<Byte>, e: Entry, rest: seq<Byte>, pending: Option<string>)
    requires Storable(|e.data|) && buffer == prefix + FileRecord(e) + rest
    ensures ParseFrom(buffer, |prefix|, pending) ==
            Prepend(Parsed(pending.GetOr(FieldName(e.name)), e.data, ModeRead(e.mode.GetOr(DEFAULT_MODE))),
                    ParseFrom(buffer, |prefix| + |FileRecord(e)|, None))
  {
    hide FoundAt, Record, FieldName, ModeRead;
    RecordFound(buffer, prefix, e.name, TYPE_FILE, e.mode.GetOr(DEFAULT_MODE), e.mtime.GetOr(0), e.data, rest);
  }

  lemma Halves(a: seq<Byte>, b: seq<Byte>, c: seq<Byte>, d: seq<Byte>)
    ensures a + (b + c) + d == a + b + (c + d) == (a + b) + c + d
    ensures |a + b| + |c| == |a| + |b + c|
  {
  }

  lemma EntryParses(buffer: seq<Byte>, prefix: seq<Byte>, e: Entry, rest: seq<Byte>)
    requires Fits(e) && buffer == prefix + EntryBytes(e) + rest
    ensures ParseFrom(buffer, |prefix|, None) ==
            Prepend(ReadBack(e), ParseFrom(buffer, |prefix| + |EntryBytes(e)|, None))
  {
    hide ParseFrom, Record, FieldName, ModeRead, FileRecord, Encode, StripNul, Prepend;
    Halves(prefix, LongLink(e.name), FileRecord(e), rest);
    if IsLong(e.name) {
      LongLinkParses(buffer, prefix, e.name, FileRecord(e) + rest);
      FileParses(buffer, prefix + LongLink(e.name), e, rest, Some(NameRead(e.name)));
    } else {
      assert prefix + LongLink(e.name) == prefix;
      FileParses(buffer, prefix, e, rest, None);
    }
  }

  lemma EndParses(buffer: seq<Byte>, prefix: seq<Byte>)
    requires buffer == prefix + Zeros(2 * BLOCK_SIZE)
    ensures ParseFrom(buffer, |prefix|, None) == Ok([])
  {
    hide Reading, SizeOf, ModeOf, NameOf;
    assert AllZero(buffer[|prefix|..|prefix| + BLOCK_SIZE]);
  }

  lemma {:induction false} EntriesParse(buffer: seq<Byte>, prefix: seq<Byte>, es: seq<Entry>)
    requires (forall i :: 0 <= i < |es| ==> Fits(es[i])) && buffer == prefix + TarBytes(es)
    ensures ParseFrom(buffer, |prefix|, None) == Ok(ReadAll(es))
    decreases |es|
  {
    hide EntryBytes, ReadBack, Fits, FoundAt, ParseFrom;
    if es == [] {
      EndParses(buffer, prefix);
    } else {
      var bytes := EntryBytes(es[0]);
      assert TarBytes(es) == bytes + TarBytes(es[1..]);
      assert buffer == prefix + bytes + TarBytes(es[1..]);
      EntryParses(buffer, prefix, es[0], TarBytes(es[1..]));
      EntriesParse(buffer, prefix + bytes, es[1..]);
    }
  }

  /** Parsing an archive gives one entry for each that was written, in order, with its data. */
  lemma ArchiveReadsBack(es: seq<Entry>)
    requires forall i :: 0 <= i < |es| ==> Fits(es[i])
    ensures Parse(TarBytes(es)) == Ok(ReadAll(es))
  {
    assert [] + TarBytes(es) == TarBytes(es);
    EntriesParse(TarBytes(es), [], es);
  }

  // ---------------------------------------------------------------- round trip

  /** The entries a caller hopes to get back. */
  function Wanted(es: seq<Entry>): seq<Parsed> {
    seq(|es|, i requires 0 <= i < |es| => Parsed(es[i].name, es[i].data, es[i].mode.GetOr(DEFAULT_MODE)))
  }

  /** A mode of zero reads back as 0o644, and one of eight octal digits or more loses its last digits. */
  predicate ModeSurvives(mode: Option<nat>) { mode.None? || 0 < mode.value < Pow8(7) }

  lemma ModeReadsBack(mode: Option<nat>)
    ensures ModeRead(mode.GetOr(DEFAULT_MODE)) == mode.GetOr(DEFAULT_MODE) <==> ModeSurvives(mode)
  {
    assert Pow8(7) == 2097152;
    OctalFieldReads(mode.GetOr(DEFAULT_MODE), 8, DEFAULT_MODE);
  }

  lemma {:induction false} ReadAllAt(es: seq<Entry>)
    ensures |ReadAll(es)| == |es| && forall i :: 0 <= i < |es| ==> ReadAll(es)[i] == ReadBack(es[i])
  {
    if es != [] {
      ReadAllAt(es[1..]);
    }
  }

  /** Parsing undoes writing exactly on the entry lists whose every name and mode survives: names over 100 bytes or in
      ASCII, without unguarded NULs; modes between 1 and 8^7 - 1. */
  lemma RoundTripExactly(es: seq<Entry>)
    requires forall i :: 0 <= i < |es| ==> Fits(es[i])
    ensures Parse(TarBytes(es)) == Ok(Wanted(es))
            <==> forall i :: 0 <= i < |es| ==> Survives(es[i].name) && ModeSurvives(es[i].mode)
  {
    hide NameRead, ModeRead, Survives, ModeSurvives, TarBytes, Parse, Fits, ReadAll;
    ArchiveReadsBack(es);
    ReadAllAt(es);
    forall i | 0 <= i < |es|
      ensures ReadAll(es)[i] == Wanted(es)[i] <==> Survives(es[i].name) && ModeSurvives(es[i].mode)
    {
      NameReadsBack(es[i].name);
      ModeReadsBack(es[i].mode);
    }
    assert ReadAll(es) == Wanted(es) <==> forall i :: 0 <= i < |es| ==> ReadAll(es)[i] == Wanted(es)[i];
  }
}
