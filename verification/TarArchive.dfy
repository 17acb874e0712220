/**
 Tar archives: a writer that prints entries (with GNU LongLink records for names over 100 bytes) and a parser that
 reads any byte buffer. Parsing what was written gives back names, data and modes, in order; the exact names and modes
 that survive are characterised.
 */
module TarArchive {
  import opened Common
  import opened Utf8
  import opened TarHeader
  import opened Text

  /** An entry to write; mode and mtime (whole seconds) are optional. */
  datatype Entry = Entry(name: string, data: seq<Byte>, mode: Option<nat>, mtime: Option<nat>)

  /** An entry as read. */
  datatype Parsed = Parsed(name: string, data: seq<Byte>, mode: int)

  /** The parser meets a size field that does not move it forward. */
  datatype ParseError = NoProgress

  const NUL: char := 0 as char
  const TYPE_FILE := '0'
  const TYPE_LONGLINK := 'L'

  // ---------------------------------------------------------------- writing

  predicate IsLong(name: string) { |Encode(name)| > MAX_NAME_LENGTH }

  /** A header, the data it announces, and padding to the next block. */
  function Record(name: string, typeflag: char, mode: nat, mtime: nat, data: seq<Byte>): (bs: seq<Byte>)
    requires typeflag as int < 256
    ensures |bs| == BLOCK_SIZE + |data| + PadToBlock(|data|)
  {
    Header(name, |data|, typeflag, mode, mtime) + data + Zeros(PadToBlock(|data|))
  }

  function LongLink(name: string): seq<Byte> {
    if IsLong(name) then Record(GNU_LONGLINK, TYPE_LONGLINK, DEFAULT_MODE, 0, Encode(name + [NUL])) else []
  }

  function FileRecord(e: Entry): seq<Byte> {
    Record(e.name, TYPE_FILE, e.mode.GetOr(DEFAULT_MODE), e.mtime.GetOr(0), e.data)
  }

  function EntryBytes(e: Entry): seq<Byte> { LongLink(e.name) + FileRecord(e) }

  /** The whole archive: every entry, then two zero blocks. */
  function TarBytes(es: seq<Entry>): seq<Byte> {
    FlatMap(EntryBytes, es) + Zeros(2 * BLOCK_SIZE)
  }

  /** How many blocks a record takes. */
  function BlockCount(size: nat): nat { 1 + (size + 511) / 512 }

  lemma PaddedBlocks(size: nat)
    ensures BLOCK_SIZE + size + PadToBlock(size) == 512 * BlockCount(size)
  {
  }

  function EntryBlocks(e: Entry): nat {
    (if IsLong(e.name) then BlockCount(|Encode(e.name + [NUL])|) else 0) + BlockCount(|e.data|)
  }

  function TotalBlocks(es: seq<Entry>): nat {
    if es == [] then 0 else EntryBlocks(es[0]) + TotalBlocks(es[1..])
  }

  lemma EntryLength(e: Entry)
    ensures |EntryBytes(e)| == 512 * EntryBlocks(e)
  {
    PaddedBlocks(|e.data|);
    PaddedBlocks(|Encode(e.name + [NUL])|);
  }

  lemma {:induction false} FlatLength(es: seq<Entry>)
    ensures |FlatMap(EntryBytes, es)| == 512 * TotalBlocks(es)
  {
    if es != [] {
      EntryLength(es[0]);
      FlatLength(es[1..]);
    }
  }

  /** Every archive is a whole number of blocks: those of its records and the two that end it. */
  lemma ArchiveLength(es: seq<Entry>)
    ensures |TarBytes(es)| == 512 * (TotalBlocks(es) + 2)
  {
    FlatLength(es);
  }

  function Concat(chunks: seq<seq<Byte>>): seq<Byte> {
    if chunks == [] then [] else Concat(chunks[..|chunks| - 1]) + chunks[|chunks| - 1]
  }

  lemma ConcatPush(chunks: seq<seq<Byte>>, chunk: seq<Byte>)
    ensures Concat(chunks + [chunk]) == Concat(chunks) + chunk
  {
    assert (chunks + [chunk])[..|chunks|] == chunks;
  }

  /** The pushes that follow a header; nothing is pushed for an empty padding. */
  method PushData(chunks: seq<seq<Byte>>, header: seq<Byte>, data: seq<Byte>) returns (pushed: seq<seq<Byte>>)
    ensures Concat(pushed) == Concat(chunks) + (header + data + Zeros(PadToBlock(|data|)))
  {
    ConcatPush(chunks, header);
    pushed := chunks + [header];
    ConcatPush(pushed, data);
    pushed := pushed + [data];
    var padding := PadToBlock(|data|);
    if padding > 0 {
      ConcatPush(pushed, Zeros(padding));
      pushed := pushed + [Zeros(padding)];
    }
  }

  method PushRecord(chunks: seq<seq<Byte>>, name: string, typeflag: char, mode: nat, mtime: nat, data: seq<Byte>)
    returns (pushed: seq<seq<Byte>>)
    requires typeflag as int < 256
    ensures Concat(pushed) == Concat(chunks) + Record(name, typeflag, mode, mtime, data)
  {
    var header := BuildHeader(name, |data|, typeflag, mode, mtime);
    pushed := PushData(chunks, header[..], data);
  }

  method PushEntry(chunks: seq<seq<Byte>>, e: Entry) returns (pushed: seq<seq<Byte>>)
    ensures Concat(pushed) == Concat(chunks) + EntryBytes(e)
  {
    hide Concat, Encode, Record, Zeros;
    pushed := chunks;
    if |Encode(e.name)| > MAX_NAME_LENGTH {
      pushed := PushRecord(pushed, GNU_LONGLINK, TYPE_LONGLINK, DEFAULT_MODE, 0, Encode(e.name + [NUL]));
    }
    pushed := PushRecord(pushed, e.name, TYPE_FILE, e.mode.GetOr(DEFAULT_MODE), e.mtime.GetOr(0), e.data);
  }

  method CreateTar(entries: seq<Entry>) returns (archive: seq<Byte>)
    ensures archive == TarBytes(entries)
  {
    var chunks: seq<seq<Byte>> := [];
    var i := 0;
    while i < |entries|
      invariant 0 <= i <= |entries|
      invariant Concat(chunks) == FlatMap(EntryBytes, entries[..i])
    {
      FlatMapNext(EntryBytes, entries, i);
      chunks := PushEntry(chunks, entries[i]);
      i := i + 1;
    }
    assert entries[..i] == entries;
    ConcatPush(chunks, Zeros(2 * BLOCK_SIZE));
    chunks := chunks + [Zeros(2 * BLOCK_SIZE)];
    archive := Concat(chunks);
  }

  // ---------------------------------------------------------------- reading text fields

  predicate IsLineTerminator(c: char) { c == '\n' || c == '\r' || c == '\U{2028}' || c == '\U{2029}' }

  predicate OneLine(s: string) { forall i :: 0 <= i < |s| ==> !IsLineTerminator(s[i]) }

  /** s.replace(/\0.*$/, ""): cuts at the first NUL that no line terminator follows. */
  function StripNul(s: string): string {
    if s == "" then ""
    else if s[0] == NUL && OneLine(s[1..]) then ""
    else [s[0]] + StripNul(s[1..])
  }

  predicate IsOctal(c: char) { '0' <= c <= '7' }

  /** Length of the longest prefix of octal digits. */
  function OctalRun(s: string): (n: nat)
    ensures n <= |s| && forall i :: 0 <= i < n ==> IsOctal(s[i])
    ensures n < |s| ==> !IsOctal(s[n])
  {
    if s != "" && IsOctal(s[0]) then 1 + OctalRun(s[1..]) else 0
  }

  /** parseInt(s, 8), None standing for NaN. */
  function ParseInt(s: string): Option<int> {
    var t := TrimStart(s);
    var negative := t != "" && t[0] == '-';
    var u := if t != "" && (t[0] == '-' || t[0] == '+') then t[1..] else t;
    var digits := u[..OctalRun(u)];
    var value: int := OctalValue(AsciiBytes(digits));
    if digits == "" then None else if negative then Some(-value) else Some(value)
  }

  /** parseInt(...) || default: NaN and zero give the default. */
  function FieldValue(field: seq<Byte>, default: int): int {
    var v := ParseInt(TrimEnd(TrimStart(StripNul(FromAscii(field)))));
    if v.None? || v.value == 0 then default else v.value
  }

  // ---------------------------------------------------------------- parsing

  function NameOf(h: seq<Byte>): string
    requires |h| == BLOCK_SIZE
  {
    StripNul(FromAscii(h[..100]))
  }

  function SizeOf(h: seq<Byte>): int
    requires |h| == BLOCK_SIZE
  {
    FieldValue(h[124..136], 0)
  }

  function ModeOf(h: seq<Byte>): int
    requires |h| == BLOCK_SIZE
  {
    FieldValue(h[100..108], DEFAULT_MODE)
  }

  predicate IsLongLink(h: seq<Byte>)
    requires |h| == BLOCK_SIZE
  {
    h[156] == TYPE_LONGLINK as int && NameOf(h) == GNU_LONGLINK
  }

  /** The remainder operator of JavaScript takes the sign of its left operand. */
  function Remainder(n: int): int {
    if n >= 0 then n % BLOCK_SIZE else -(-n % BLOCK_SIZE)
  }

  /** How far the offset moves over a header and the data it announces, whatever the size field says. */
  function Stride(size: int): int {
    BLOCK_SIZE + size + if Remainder(size) == 0 then 0 else BLOCK_SIZE - Remainder(size)
  }

  /** Every stride is a whole number of blocks, and the parser moves forward exactly for these sizes. */
  lemma StrideMovesForward(size: int)
    ensures Stride(size) % BLOCK_SIZE == 0
    ensures Stride(size) > 0 <==> size > -2 * BLOCK_SIZE && size != -BLOCK_SIZE
    ensures size >= 0 ==> Stride(size) == BLOCK_SIZE + size + PadToBlock(size)
  {
    if size < 0 {
      var q, r := -size / BLOCK_SIZE, -size % BLOCK_SIZE;
      assert -size == BLOCK_SIZE * q + r;
      assert Stride(size) == BLOCK_SIZE * if r == 0 then 1 - q else 2 - q;
    } else {
      assert size == BLOCK_SIZE * (size / BLOCK_SIZE) + size % BLOCK_SIZE;
      assert Stride(size) == BLOCK_SIZE * (size / BLOCK_SIZE + if size % BLOCK_SIZE == 0 then 1 else 2);
    }
  }

  /** A bound of subarray: negative ones count from the end, and all are clamped. */
  function Bound(length: nat, i: int): (b: nat)
    ensures b <= length
  {
    if i < 0 then Max(length + i, 0) else Min(i, length)
  }

  function Subarray(buffer: seq<Byte>, start: int, end: int): seq<Byte> {
    var from, to := Bound(|buffer|, start), Bound(|buffer|, end);
    if to < from then [] else buffer[from..to]
  }

  /** What the parser finds at an offset: nothing more, a size that keeps it from moving on, the name of the next
      entry, or an entry; and the offset after it. */
  datatype Found = End | Stuck | LongName(name: string, next: nat) | File(name: string, data: seq<Byte>, mode: int, next: nat)

  predicate AllZero(block: seq<Byte>) { forall i :: 0 <= i < |block| ==> block[i] == 0 }

  function Reading(h: seq<Byte>, data: seq<Byte>, next: nat): Found
    requires |h| == BLOCK_SIZE
  {
    if IsLongLink(h) then LongName(StripNul(Decode(data)), next) else File(NameOf(h), data, ModeOf(h), next)
  }

  function FoundAt(buffer: seq<Byte>, offset: nat): (f: Found)
    ensures f.LongName? || f.File? ==> offset < f.next && offset + BLOCK_SIZE <= |buffer|
  {
    if offset + BLOCK_SIZE > |buffer| then End else
    var h := buffer[offset..offset + BLOCK_SIZE];
    if AllZero(h) then End else
    var next := offset + Stride(SizeOf(h));
    if next <= offset then Stuck else
    Reading(h, Subarray(buffer, offset + BLOCK_SIZE, offset + BLOCK_SIZE + SizeOf(h)), next)
  }

  function Prepend(p: Parsed, r: Result<seq<Parsed>, ParseError>): Result<seq<Parsed>, ParseError> {
    if r.Ok? then Ok([p] + r.value) else r
  }

  /** What the parser returns for the rest of a buffer, with the name a LongLink record has left pending. */
  function ParseFrom(buffer: seq<Byte>, offset: nat, pending: Option<string>): Result<seq<Parsed>, ParseError>
    decreases |buffer| - offset
  {
    match FoundAt(buffer, offset)
    case End => Ok([])
    case Stuck => Err(NoProgress)
    case LongName(name, next) => ParseFrom(buffer, next, Some(name))
    case File(name, data, mode, next) =>
      Prepend(Parsed(pending.GetOr(name), data, mode), ParseFrom(buffer, next, None))
  }

  function Parse(buffer: seq<Byte>): Result<seq<Parsed>, ParseError> { ParseFrom(buffer, 0, None) }

  function PrependAll(ps: seq<Parsed>, r: Result<seq<Parsed>, ParseError>): Result<seq<Parsed>, ParseError> {
    if r.Ok? then Ok(ps + r.value) else r
  }

  lemma PrependAllPush(ps: seq<Parsed>, p: Parsed, r: Result<seq<Parsed>, ParseError>)
    ensures PrependAll(ps, Prepend(p, r)) == PrependAll(ps + [p], r)
  {
    if r.Ok? {
      assert ps + ([p] + r.value) == ps + [p] + r.value;
    }
  }

  lemma PrependNothing(ps: seq<Parsed>, r: Result<seq<Parsed>, ParseError>)
    ensures PrependAll([], r) == r && PrependAll(ps, Ok([])) == Ok(ps)
  {
    assert ps + [] == ps;
    if r.Ok? {
      assert [] + r.value == r.value;
    }
  }

  /** One pass of the parser's loop, up to the point where it stops, goes on with a name, or pushes an entry. */
  method ReadRecord(buffer: seq<Byte>, offset: nat) returns (f: Found)
    ensures f == FoundAt(buffer, offset)
  {
    hide NameOf, SizeOf, ModeOf, Stride, Subarray, StripNul, Decode, AllZero;
    if offset + BLOCK_SIZE > |buffer| { return End; }
    var header := buffer[offset..offset + BLOCK_SIZE];
    if AllZero(header) { return End; }
    var headerName := NameOf(header);
    var size := SizeOf(header);
    var mode := ModeOf(header);
    var next := offset + Stride(size);
    if next <= offset { return Stuck; }
    var data := Subarray(buffer, offset + BLOCK_SIZE, offset + BLOCK_SIZE + size);
    if header[156] == TYPE_LONGLINK as int && headerName == GNU_LONGLINK {
      f := LongName(StripNul(Decode(data)), next);
    } else {
      f := File(headerName, data, mode, next);
    }
  }

  method ParseTar(buffer: seq<Byte>) returns (r: Result<seq<Parsed>, ParseError>)
    ensures r == Parse(buffer)
  {
    var entries: seq<Parsed> := [];
    var offset: nat := 0;
    var pendingLongName: Option<string> := None;
    PrependNothing([], Parse(buffer));
    while true
      invariant Parse(buffer) == PrependAll(entries, ParseFrom(buffer, offset, pendingLongName))
      decreases |buffer| - offset
    {
      var found := ReadRecord(buffer, offset);
      match found {
        case End =>
          PrependNothing(entries, Ok([]));
          return Ok(entries);
        case Stuck =>
          return Err(NoProgress);
        case LongName(name, next) =>
          offset, pendingLongName := next, Some(name);
        case File(name, data, mode, next) =>
          var p := Parsed(pendingLongName.GetOr(name), data, mode);
          PrependAllPush(entries, p, ParseFrom(buffer, next, None));
          entries := entries + [p];
          offset, pendingLongName := next, None;
      }
    }
  }
}
