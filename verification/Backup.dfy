/**
 Backups: an archive holding a manifest of checksums and the captured files, its inspection, and its restoration over
 the files of a root directory. Compression, JSON and hashing are given by a codec.
 */
module Backup {
  import opened Common
  import opened Utf8
  import opened TarArchive
  import opened Text
  import opened Versions

  // ---------------------------------------------------------------- data

  datatype Kind = Sqlite | Plain

  /** A file read from disk: its path relative to the root, and its bytes (for a database, those of its snapshot). */
  datatype Captured = Captured(path: string, data: seq<Byte>)

  datatype Target = Single(kind: Kind, file: Captured) | Directory(files: seq<Captured>)

  datatype FileRecord = FileRecord(path: string, sha256: string, size: nat, kind: Kind)

  datatype Manifest = Manifest(
    formatVersion: int,
    createdAt: string,
    appVersion: string,
    schemaVersion: Option<string>,
    preUpgrade: bool,
    files: seq<FileRecord>)

  /** What the libraries compute; None where they throw. */
  datatype Codec = Codec(
    sha256: seq<Byte> -> string,
    toJson: Manifest -> seq<Byte>,
    fromJson: seq<Byte> -> Option<Manifest>,
    gzip: seq<Byte> -> seq<Byte>,
    gunzip: seq<Byte> -> Option<seq<Byte>>)

  datatype BackupError =
    | NotGzip | NotTar | InvalidPath(path: string) | MissingManifest | BadManifest
    | MissingFile(path: string) | ChecksumMismatch(path: string) | NewerSchema(version: string)

  const MANIFEST_NAME: string := "manifest.json"
  const BACKUP_FORMAT_VERSION := 1
  const BACKUP_MODE := 384 // 0o600

  // ---------------------------------------------------------------- creation

  function ToPosix(path: string): string { ReplaceAll(path, '\\', '/') }

  /** A captured file under the path it is archived as. */
  datatype Item = Item(path: string, data: seq<Byte>, kind: Kind)

  function ItemsOf(target: Target): seq<Item> {
    match target
    case Single(kind, file) => [Item(ToPosix(file.path), file.data, kind)]
    case Directory(files) => Map((f: Captured) => Item(ToPosix(f.path), f.data, Plain), files)
  }

  function Items(targets: seq<Target>): seq<Item> { FlatMap(ItemsOf, targets) }

  function EntryOf(item: Item): Entry { Entry(item.path, item.data, Some(BACKUP_MODE), None) }

  function RecordOf(codec: Codec, item: Item): FileRecord {
    FileRecord(item.path, codec.sha256(item.data), |item.data|, item.kind)
  }

  function RecordsOf(codec: Codec, items: seq<Item>): seq<FileRecord> { Map((i: Item) => RecordOf(codec, i), items) }

  /** The archive's entries: the manifest first, then the files. */
  function ArchiveEntries(codec: Codec, manifest: Manifest, items: seq<Item>): seq<Entry> {
    [Entry(MANIFEST_NAME, codec.toJson(manifest), Some(BACKUP_MODE), None)] + Map(EntryOf, items)
  }

  method CaptureDirectory(codec: Codec, files: seq<Captured>, before: seq<Entry>, recorded: seq<FileRecord>)
    returns (entries: seq<Entry>, records: seq<FileRecord>)
    ensures entries == before + Map(EntryOf, ItemsOf(Directory(files)))
    ensures records == recorded + RecordsOf(codec, ItemsOf(Directory(files)))
  {
    entries, records := before, recorded;
    ghost var items := ItemsOf(Directory(files));
    var i := 0;
    while i < |files|
      invariant 0 <= i <= |files|
      invariant entries == before + Map(EntryOf, items)[..i]
      invariant records == recorded + RecordsOf(codec, items)[..i]
    {
      var archivePath := ToPosix(files[i].path);
      var data := files[i].data;
      entries := entries + [Entry(archivePath, data, Some(BACKUP_MODE), None)];
      records := records + [FileRecord(archivePath, codec.sha256(data), |data|, Plain)];
      i := i + 1;
    }
    assert Map(EntryOf, items)[..i] == Map(EntryOf, items);
    assert RecordsOf(codec, items)[..i] == RecordsOf(codec, items);
  }

  lemma MapAppend<A, B>(f: A -> B, s: seq<A>, t: seq<A>)
    ensures Map(f, s + t) == Map(f, s) + Map(f, t)
  {
  }

  lemma ItemsNext(codec: Codec, targets: seq<Target>, i: nat)
    requires i < |targets|
    ensures Map(EntryOf, Items(targets[..i + 1])) == Map(EntryOf, Items(targets[..i])) + Map(EntryOf, ItemsOf(targets[i]))
    ensures RecordsOf(codec, Items(targets[..i + 1]))
         == RecordsOf(codec, Items(targets[..i])) + RecordsOf(codec, ItemsOf(targets[i]))
  {
    hide ItemsOf, RecordOf, EntryOf;
    FlatMapNext(ItemsOf, targets, i);
    MapAppend(EntryOf, Items(targets[..i]), ItemsOf(targets[i]));
    MapAppend((j: Item) => RecordOf(codec, j), Items(targets[..i]), ItemsOf(targets[i]));
  }

  /** What is written for each file: its bytes under its path, for its owner alone, and its hash, size and kind. */
  lemma EntriesWritten(codec: Codec, manifest: Manifest, items: seq<Item>, i: nat)
    requires i < |items|
    ensures var entries, item := ArchiveEntries(codec, manifest, items), items[i];
            && |entries| == 1 + |items|
            && entries[0].name == "manifest.json" && entries[0].data == codec.toJson(manifest)
            && entries[0].mode == Some(6 * 64)
            && entries[1 + i].name == item.path && entries[1 + i].data == item.data && entries[1 + i].mode == Some(6 * 64)
            && RecordsOf(codec, items)[i] == FileRecord(item.path, codec.sha256(item.data), |item.data|, item.kind)
  {
    assert ArchiveEntries(codec, manifest, items)[1 + i] == Map(EntryOf, items)[i] == EntryOf(items[i]);
  }

  method CreateBackup(codec: Codec, targets: seq<Target>, createdAt: string, appVersion: string,
                      schemaVersion: Option<string>, preUpgrade: bool)
    returns (archive: seq<Byte>, manifest: Manifest)
    ensures manifest == Manifest(BACKUP_FORMAT_VERSION, createdAt, appVersion, schemaVersion, preUpgrade,
                                 RecordsOf(codec, Items(targets)))
    ensures manifest.formatVersion == 1
    ensures archive == codec.gzip(TarBytes(ArchiveEntries(codec, manifest, Items(targets))))
  {
    var entries: seq<Entry> := [];
    var fileRecords: seq<FileRecord> := [];
    var i := 0;
    while i < |targets|
      invariant 0 <= i <= |targets|
      invariant entries == Map(EntryOf, Items(targets[..i]))
      invariant fileRecords == RecordsOf(codec, Items(targets[..i]))
    {
      ItemsNext(codec, targets, i);
      match targets[i] {
        case Directory(files) =>
          entries, fileRecords := CaptureDirectory(codec, files, entries, fileRecords);
        case Single(kind, file) =>
          var archivePath := ToPosix(file.path);
          entries := entries + [Entry(archivePath, file.data, Some(BACKUP_MODE), None)];
          fileRecords := fileRecords + [FileRecord(archivePath, codec.sha256(file.data), |file.data|, kind)];
      }
      i := i + 1;
    }
    assert targets[..i] == targets;
    manifest := Manifest(BACKUP_FORMAT_VERSION, createdAt, appVersion, schemaVersion, preUpgrade, fileRecords);
    entries := [Entry(MANIFEST_NAME, codec.toJson(manifest), Some(BACKUP_MODE), None)] + entries;
    var tar := CreateTar(entries);
    archive := codec.gzip(tar);
  }

  // ---------------------------------------------------------------- paths

  predicate IsLetter(c: char) { 'a' <= c <= 'z' || 'A' <= c <= 'Z' }

  predicate IsSlash(c: char) { c == '/' || c == '\\' }

  /** Absolute on either kind of system: a leading slash, or a drive letter, a colon and a slash. */
  predicate IsAbsolute(path: string) {
    (path != "" && IsSlash(path[0])) || (|path| > 2 && IsLetter(path[0]) && path[1] == ':' && IsSlash(path[2]))
  }

  predicate ValidPath(path: string) {
    path != "" && !IsAbsolute(path) && ".." !in Split(ToPosix(path), '/')
  }

  function DropDots(segments: seq<string>): seq<string> {
    if segments == [] then []
    else if segments[0] == "" || segments[0] == "." then DropDots(segments[1..])
    else [segments[0]] + DropDots(segments[1..])
  }

  /** Where a path leads, relative to the root. */
  function Destination(path: string): Result<string, BackupError> {
    if !ValidPath(path) then Err(InvalidPath(path)) else
    var rel := Join(DropDots(Split(path, '/')), '/');
    if rel == "" || StartsWith(rel, "..") then Err(InvalidPath(path)) else Ok(rel)
  }

  // ---------------------------------------------------------------- inspection

  type Files = map<string, seq<Byte>>

  datatype Inspected = Inspected(manifest: Manifest, entries: Files)

  /** The entries by name, the last of a name winning; the first invalid name is an error. */
  function Collect(parsed: seq<Parsed>, entries: Files): Result<Files, BackupError> {
    if parsed == [] then Ok(entries)
    else if !ValidPath(parsed[0].name) then Err(InvalidPath(parsed[0].name))
    else Collect(parsed[1..], entries[parsed[0].name := parsed[0].data])
  }

  /** What is wrong with one recorded file. */
  function Fault(codec: Codec, entries: Files, file: FileRecord): Option<BackupError> {
    if !ValidPath(file.path) then Some(InvalidPath(file.path))
    else if file.path !in entries then Some(MissingFile(file.path))
    else if codec.sha256(entries[file.path]) != file.sha256 then Some(ChecksumMismatch(file.path))
    else None
  }

  function FirstFault(codec: Codec, entries: Files, files: seq<FileRecord>): Option<BackupError> {
    if files == [] then None
    else if Fault(codec, entries, files[0]).Some? then Fault(codec, entries, files[0])
    else FirstFault(codec, entries, files[1..])
  }

  function ReadManifest(codec: Codec, entries: Files): Result<Manifest, BackupError> {
    if MANIFEST_NAME !in entries then Err(MissingManifest) else
    match codec.fromJson(entries[MANIFEST_NAME])
    case None => Err(BadManifest)
    case Some(manifest) => Ok(manifest)
  }

  function CheckFiles(codec: Codec, entries: Files): Result<Inspected, BackupError> {
    match ReadManifest(codec, entries)
    case Err(e) => Err(e)
    case Ok(manifest) =>
      match FirstFault(codec, entries, manifest.files)
      case Some(e) => Err(e)
      case None => Ok(Inspected(manifest, entries))
  }

  function Inspect(codec: Codec, archive: seq<Byte>): Result<Inspected, BackupError> {
    match codec.gunzip(archive)
    case None => Err(NotGzip)
    case Some(tar) =>
      match Parse(tar)
      case Err(_) => Err(NotTar)
      case Ok(parsed) =>
        match Collect(parsed, map[])
        case Err(e) => Err(e)
        case Ok(entries) => CheckFiles(codec, entries)
  }

  method CollectEntries(parsed: seq<Parsed>) returns (r: Result<Files, BackupError>)
    ensures r == Collect(parsed, map[])
  {
    var entries: Files := map[];
    var i := 0;
    assert parsed[0..] == parsed;
    while i < |parsed|
      invariant 0 <= i <= |parsed|
      invariant Collect(parsed, map[]) == Collect(parsed[i..], entries)
    {
      if !ValidPath(parsed[i].name) { return Err(InvalidPath(parsed[i].name)); }
      entries := entries[parsed[i].name := parsed[i].data];
      assert parsed[i..][1..] == parsed[i + 1..];
      i := i + 1;
    }
    return Ok(entries);
  }

  method VerifyFiles(codec: Codec, entries: Files, files: seq<FileRecord>) returns (r: Option<BackupError>)
    ensures r == FirstFault(codec, entries, files)
  {
    var i := 0;
    assert files[0..] == files;
    while i < |files|
      invariant 0 <= i <= |files|
      invariant FirstFault(codec, entries, files) == FirstFault(codec, entries, files[i..])
    {
      var file := files[i];
      if !ValidPath(file.path) { return Some(InvalidPath(file.path)); }
      if file.path !in entries { return Some(MissingFile(file.path)); }
      if codec.sha256(entries[file.path]) != file.sha256 { return Some(ChecksumMismatch(file.path)); }
      assert files[i..][1..] == files[i + 1..];
      i := i + 1;
    }
    return None;
  }

  method InspectBackup(codec: Codec, archive: seq<Byte>) returns (r: Result<Inspected, BackupError>)
    ensures r == Inspect(codec, archive)
  {
    hide Parse, Collect, FirstFault;
    var tar := codec.gunzip(archive);
    if tar.None? { return Err(NotGzip); }
    var parsed := ParseTar(tar.value);
    if parsed.Err? { return Err(NotTar); }
    var entries := CollectEntries(parsed.value);
    if entries.Err? { return Err(entries.error); }
    if MANIFEST_NAME !in entries.value { return Err(MissingManifest); }
    var manifest := codec.fromJson(entries.value[MANIFEST_NAME]);
    if manifest.None? { return Err(BadManifest); }
    var fault := VerifyFiles(codec, entries.value, manifest.value.files);
    if fault.Some? { return Err(fault.value); }
    return Ok(Inspected(manifest.value, entries.value));
  }

  // ---------------------------------------------------------------- restoration

  /** The files SQLite keeps beside a database. */
  function Sidecars(path: string): set<string> { {path + "-wal", path + "-shm", path + "-journal"} }

  /** One file put in place; a restored database loses its sidecars. */
  function Place(files: Files, path: string, data: seq<Byte>, kind: Kind): Files {
    (if kind == Sqlite then files - Sidecars(path) else files)[path := data]
  }

  /** The files after restoring records one by one, and the error that stopped it. */
  datatype Restored = Restored(files: Files, restored: seq<string>, error: Option<BackupError>)

  function RestoreFiles(files: Files, restored: seq<string>, entries: Files, records: seq<FileRecord>): Restored
    decreases |records|
  {
    if records == [] then Restored(files, restored, None)
    else
      var file := records[0];
      if file.path !in entries then RestoreFiles(files, restored, entries, records[1..])
      else
        match Destination(file.path)
        case Err(e) => Restored(files, restored, Some(e))
        case Ok(dest) =>
          RestoreFiles(Place(files, dest, entries[file.path], file.kind), restored + [file.path], entries, records[1..])
  }

  /** A backup with a schema newer than the supported one is refused unless forced. */
  predicate Refused(manifest: Manifest, supported: string, force: bool) {
    manifest.schemaVersion.Some? && manifest.schemaVersion.value != "" && !force
    && Compare(Components(manifest.schemaVersion.value), Components(supported)) > 0
  }

  function Restore(codec: Codec, files: Files, archive: seq<Byte>, supported: string, force: bool): Restored {
    match Inspect(codec, archive)
    case Err(e) => Restored(files, [], Some(e))
    case Ok(backup) =>
      if Refused(backup.manifest, supported, force)
      then Restored(files, [], Some(NewerSchema(backup.manifest.schemaVersion.value)))
      else RestoreFiles(files, [], backup.entries, backup.manifest.files)
  }

  /** The files under a root directory. */
  class Root {
    var files: Files

    constructor (files: Files)
      ensures this.files == files
    {
      this.files := files;
    }

    method RestoreFile(path: string, data: seq<Byte>, kind: Kind)
      modifies this
      ensures files == Place(old(files), path, data, kind)
      ensures path in files && files[path] == data
      ensures forall p :: p != path ==>
                (p in files <==>
                   p in old(files) && !(kind == Sqlite && p in {path + "-wal", path + "-shm", path + "-journal"}))
                && (p in files ==> files[p] == old(files)[p])
    {
      if kind == Sqlite {
        files := files - Sidecars(path);
      }
      files := files[path := data];
    }

    method RestoreBackup(codec: Codec, archive: seq<Byte>, supported: string, force: bool)
      returns (restoredFiles: seq<string>, error: Option<BackupError>)
      modifies this
      ensures Restored(files, restoredFiles, error) == Restore(codec, old(files), archive, supported, force)
    {
      hide Inspect, Components, Destination;
      restoredFiles := [];
      var inspected := InspectBackup(codec, archive);
      if inspected.Err? { return [], Some(inspected.error); }
      var manifest, entries := inspected.value.manifest, inspected.value.entries;
      if manifest.schemaVersion.Some? && manifest.schemaVersion.value != "" {
        var cmp := CompareVersions(manifest.schemaVersion.value, supported);
        if cmp > 0 && !force { return [], Some(NewerSchema(manifest.schemaVersion.value)); }
      }
      var i := 0;
      ghost var goal := RestoreFiles(files, [], entries, manifest.files);
      assert manifest.files[0..] == manifest.files;
      while i < |manifest.files|
        invariant 0 <= i <= |manifest.files|
        invariant goal == RestoreFiles(files, restoredFiles, entries, manifest.files[i..])
      {
        var file := manifest.files[i];
        assert manifest.files[i..][1..] == manifest.files[i + 1..];
        if file.path in entries {
          var dest := Destination(file.path);
          if dest.Err? { return restoredFiles, Some(dest.error); }
          RestoreFile(dest.value, entries[file.path], file.kind);
          restoredFiles := restoredFiles + [file.path];
        }
        i := i + 1;
      }
      error := None;
    }
  }
}
