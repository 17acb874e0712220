/**
 Restoring a backup: the archive just created passes inspection, and its restoration puts back every recorded file.
 What can be lost is characterised: a recorded file is missing afterwards exactly when a database recorded later has it
 as a sidecar.
 */
module BackupRoundTrip {
  import opened Common
  import opened Utf8
  import opened TarHeader
  import opened TarArchive
  import opened TarRoundTrip
  import opened Text
  import opened Versions
  import opened Backup
  import opened BackupPaths

  ghost predicate Faithful(codec: Codec) {
    (forall m :: codec.fromJson(codec.toJson(m)) == Some(m)) && (forall b :: codec.gunzip(codec.gzip(b)) == Some(b))
  }

  // ---------------------------------------------------------------- paths

  /** Relative POSIX paths in their shortest form. */
  predicate Canonical(path: string) {
    && !IsAbsolute(path) && '\\' !in path && !StartsWith(path, "..")
    && (forall segment :: segment in Split(path, '/') ==> segment != "" && segment != "." && segment != "..")
  }

  lemma {:induction false} NothingToDrop(segments: seq<string>)
    requires forall i :: 0 <= i < |segments| ==> segments[i] != "" && segments[i] != "."
    ensures DropDots(segments) == segments
  {
    if segments != [] {
      NothingToDrop(segments[1..]);
    }
  }

  /** A canonical path is restored where it says. */
  lemma CanonicalDestination(path: string)
    requires Canonical(path)
    ensures ValidPath(path) && Destination(path) == Ok(path)
  {
    assert ToPosix(path) == path;
    var segments := Split(path, '/');
    assert forall i :: 0 <= i < |segments| ==> segments[i] in segments;
    NothingToDrop(segments);
    JoinSplit(path, '/');
    assert path == "" ==> "" in Split(path, '/');
  }

  // ---------------------------------------------------------------- contents

  function Contents(items: seq<Item>): Files {
    if items == [] then map[] else
      Contents(items[..|items| - 1])[items[|items| - 1].path := items[|items| - 1].data]
  }

  ghost predicate DistinctPaths(items: seq<Item>) {
    forall i, j :: 0 <= i < j < |items| ==> items[i].path != items[j].path
  }

  lemma {:induction false} ContentsAt(items: seq<Item>)
    requires DistinctPaths(items)
    ensures forall i :: 0 <= i < |items| ==>
              items[i].path in Contents(items) && Contents(items)[items[i].path] == items[i].data
    ensures forall p :: p in Contents(items) ==> exists i :: 0 <= i < |items| && items[i].path == p
  {
    if items != [] {
      var init := items[..|items| - 1];
      ContentsAt(init);
      forall p | p in Contents(items)
        ensures exists i :: 0 <= i < |items| && items[i].path == p
      {
        if p != items[|items| - 1].path {
          assert p in Contents(init);
          var i :| 0 <= i < |init| && init[i].path == p;
          assert items[i].path == p;
        }
      }
    }
  }

  /** Files restored in record order, with the removal of sidecars. */
  function Replay(files: Files, items: seq<Item>): Files {
    if items == [] then files else
      var last := items[|items| - 1];
      Place(Replay(files, items[..|items| - 1]), last.path, last.data, last.kind)
  }

  /** A database recorded after item i has that item as a sidecar. */
  ghost predicate Lost(items: seq<Item>, i: nat)
    requires i < |items|
  {
    exists j :: i < j < |items| && items[j].kind == Sqlite && items[i].path in Sidecars(items[j].path)
  }

  lemma LostLater(items: seq<Item>, i: nat)
    requires i < |items| - 1
    ensures Lost(items, i) <==>
            Lost(items[..|items| - 1], i)
            || (items[|items| - 1].kind == Sqlite && items[i].path in Sidecars(items[|items| - 1].path))
  {
    var init := items[..|items| - 1];
    if Lost(items, i) {
      var j :| i < j < |items| && items[j].kind == Sqlite && items[i].path in Sidecars(items[j].path);
      assert j < |items| - 1 ==> init[j] == items[j];
    }
    if Lost(init, i) {
      var j :| i < j < |init| && init[j].kind == Sqlite && init[i].path in Sidecars(init[j].path);
      assert items[j] == init[j];
    }
  }

  lemma LastIsNotLost(items: seq<Item>)
    requires items != []
    ensures !Lost(items, |items| - 1)
  {
  }

  /** A recorded file is there with its bytes after the restoration, unless a later database took it away. */
  lemma {:induction false} ReplayAt(files: Files, items: seq<Item>, i: nat)
    requires DistinctPaths(items) && i < |items|
    ensures items[i].path in Replay(files, items) <==> !Lost(items, i)
    ensures items[i].path in Replay(files, items) ==> Replay(files, items)[items[i].path] == items[i].data
    decreases |items|
  {
    if i == |items| - 1 {
      LastIsNotLost(items);
    } else {
      LostLater(items, i);
      ReplayAt(files, items[..|items| - 1], i);
    }
  }

  /** Every other file is as before, or removed as the sidecar of a restored database. */
  lemma {:induction false} ReplayElsewhere(files: Files, items: seq<Item>, path: string)
    requires forall i :: 0 <= i < |items| ==> items[i].path != path
    ensures path in Replay(files, items) <==>
            path in files
            && forall i :: 0 <= i < |items| ==> !(items[i].kind == Sqlite && path in Sidecars(items[i].path))
    ensures path in Replay(files, items) ==> Replay(files, items)[path] == files[path]
  {
    if items != [] {
      var init, last := items[..|items| - 1], items[|items| - 1];
      ReplayElsewhere(files, init, path);
      assert forall i :: 0 <= i < |items| ==> items[i] == if i < |init| then init[i] else last;
    }
  }

  /** Restored into an empty root, the recorded files come back exactly unless one is lost. */
  lemma ReplayIsContents(items: seq<Item>)
    requires DistinctPaths(items)
    ensures Replay(map[], items) == Contents(items) <==> forall i :: 0 <= i < |items| ==> !Lost(items, i)
  {
    ContentsAt(items);
    forall i | 0 <= i < |items|
      ensures items[i].path in Replay(map[], items) <==> !Lost(items, i)
      ensures items[i].path in Replay(map[], items) ==> Replay(map[], items)[items[i].path] == items[i].data
    {
      ReplayAt(map[], items, i);
    }
    forall p | p in Replay(map[], items)
      ensures p in Contents(items)
    {
      if forall i :: 0 <= i < |items| ==> items[i].path != p {
        ReplayElsewhere(map[], items, p);
      }
    }
    if forall i :: 0 <= i < |items| ==> !Lost(items, i) {
      assert Replay(map[], items).Keys == Contents(items).Keys;
    }
  }

  /** As backups are captured, databases come first and are named *.db, so that no file is lost. */
  lemma DatabasesFirst(items: seq<Item>)
    requires forall i :: 0 <= i < |items| && items[i].kind == Sqlite ==> EndsWith(items[i].path, ".db")
    requires forall i, j :: 0 <= i < j < |items| && items[j].kind == Sqlite ==> items[i].kind == Sqlite
    ensures forall i :: 0 <= i < |items| ==> !Lost(items, i)
  {
    forall i, j | 0 <= i < j < |items| && items[j].kind == Sqlite
      ensures items[i].path !in Sidecars(items[j].path)
    {
      var p, q := items[i].path, items[j].path;
      assert p[|p| - 3..] == ".db" && p[|p| - 1] == 'b';
      assert (q + "-wal")[|q| + 3] == 'l' && (q + "-shm")[|q| + 3] == 'm' && (q + "-journal")[|q| + 7] == 'l';
    }
  }

  // ---------------------------------------------------------------- inspection of a fresh archive

  lemma {:induction false} SplitWhole(s: string, separator: char)
    requires separator !in s
    ensures Split(s, separator) == [s]
  {
    if s != "" {
      assert s == [s[0]] + s[1..];
      SplitWhole(s[1..], separator);
    }
  }

  /** A single plain segment is a fine path and a fine entry name. */
  lemma PlainName(name: string)
    requires 2 < |name| <= 100
    requires forall i :: 0 <= i < |name| ==> 0 < name[i] as int < 128 && !IsSlash(name[i]) && name[i] != ':'
    ensures ValidPath(name) && Survives(name) && !IsLong(name)
  {
    PlainPath(name);
    PlainText(name);
  }

  lemma PlainPath(name: string)
    requires 2 < |name| && forall i :: 0 <= i < |name| ==> !IsSlash(name[i]) && name[i] != ':'
    ensures ValidPath(name)
  {
    assert ToPosix(name) == name;
    SplitWhole(name, '/');
  }

  lemma PlainText(name: string)
    requires |name| <= 100 && forall i :: 0 <= i < |name| ==> 0 < name[i] as int < 128
    ensures Survives(name) && !IsLong(name)
  {
    hide Encode;
    AsciiIsPlain(name);
  }

  lemma ManifestNamed(name: string)
    requires name == MANIFEST_NAME
    ensures ValidPath(name) && Survives(name) && !IsLong(name)
  {
    hide ValidPath, Survives, IsLong;
    PlainName(name);
  }

  function ParsedItem(item: Item): Parsed { Parsed(item.path, item.data, BACKUP_MODE) }

  lemma {:induction false} ContentsFront(items: seq<Item>)
    requires items != []
    ensures Contents(items) == map[items[0].path := items[0].data] + Contents(items[1..])
  {
    var last := items[|items| - 1];
    if |items| == 1 {
      assert Contents(items[..0]) == map[];
    } else {
      assert items[..|items| - 1][1..] == items[1..][..|items| - 2];
      assert items[1..][|items| - 2] == last;
      ContentsFront(items[..|items| - 1]);
    }
  }

  lemma {:induction false} ItemsCollected(items: seq<Item>, entries: Files)
    requires forall i :: 0 <= i < |items| ==> ValidPath(items[i].path)
    ensures Collect(Map(ParsedItem, items), entries) == Ok(entries + Contents(items))
    decreases |items|
  {
    hide ValidPath, Contents;
    if items != [] {
      ContentsFront(items);
      assert Map(ParsedItem, items)[1..] == Map(ParsedItem, items[1..]);
      ItemsCollected(items[1..], entries[items[0].path := items[0].data]);
      assert entries[items[0].path := items[0].data] == entries + map[items[0].path := items[0].data];
      assert entries + map[items[0].path := items[0].data] + Contents(items[1..]) == entries + Contents(items);
    } else {
      ContentsOfNothing();
      assert entries + map[] == entries;
    }
  }

  lemma ContentsOfNothing()
    ensures Contents([]) == map[]
  {
  }

  lemma {:induction false} NoFaults(codec: Codec, items: seq<Item>, entries: Files)
    requires forall i :: 0 <= i < |items| ==>
               ValidPath(items[i].path) && items[i].path in entries && entries[items[i].path] == items[i].data
    ensures FirstFault(codec, entries, RecordsOf(codec, items)) == None
    decreases |items|
  {
    hide ValidPath;
    if items != [] {
      assert RecordsOf(codec, items)[1..] == RecordsOf(codec, items[1..]);
      NoFaults(codec, items[1..], entries);
    }
  }

  /** Files an archive can carry: distinct canonical paths other than the manifest's, whose names and sizes a tar entry
      holds. */
  ghost predicate Archivable(items: seq<Item>) {
    DistinctPaths(items) && forall i :: 0 <= i < |items| ==> Carried(items[i])
  }

  predicate Carried(item: Item) {
    Canonical(item.path) && item.path != MANIFEST_NAME && Survives(item.path) && Fits(EntryOf(item))
  }

  lemma EntriesComeBack(codec: Codec, manifest: Manifest, items: seq<Item>)
    requires Archivable(items) && Storable(|codec.toJson(manifest)|)
    ensures Parse(TarBytes(ArchiveEntries(codec, manifest, items)))
         == Ok(Map(ParsedItem, [Item(MANIFEST_NAME, codec.toJson(manifest), Plain)] + items))
  {
    hide Survives, Canonical, TarBytes, Parse, IsLong, ValidPath, Encode, IsAscii, NulsGuarded;
    assert BACKUP_MODE < Pow8(7) == 2097152;
    var es := ArchiveEntries(codec, manifest, items);
    ManifestNamed(MANIFEST_NAME);
    forall i | 0 <= i < |es|
      ensures Fits(es[i]) && Survives(es[i].name) && ModeSurvives(es[i].mode)
    {
      assert i > 0 ==> es[i] == EntryOf(items[i - 1]) && Carried(items[i - 1]);
    }
    RoundTripExactly(es);
    assert Wanted(es) == Map(ParsedItem, [Item(MANIFEST_NAME, codec.toJson(manifest), Plain)] + items);
  }

  lemma RecordsHold(codec: Codec, manifest: Manifest, items: seq<Item>, entries: Files)
    requires Archivable(items)
    requires entries == map[MANIFEST_NAME := codec.toJson(manifest)] + Contents(items)
    ensures entries[MANIFEST_NAME] == codec.toJson(manifest)
    ensures forall i :: 0 <= i < |items| ==>
              ValidPath(items[i].path) && items[i].path in entries && entries[items[i].path] == items[i].data
  {
    hide Contents, ValidPath, Canonical, Survives, Fits, Destination;
    ContentsAt(items);
    forall i | 0 <= i < |items|
      ensures ValidPath(items[i].path) && items[i].path != MANIFEST_NAME
    {
      assert Carried(items[i]);
      CanonicalDestination(items[i].path);
    }
  }

  lemma AllCollected(first: Item, items: seq<Item>)
    requires ValidPath(first.path) && forall i :: 0 <= i < |items| ==> ValidPath(items[i].path)
    ensures Collect(Map(ParsedItem, [first] + items), map[]) == Ok(map[first.path := first.data] + Contents(items))
  {
    hide *;
    var all := [first] + items;
    assert all[1..] == items;
    ContentsFront(all);
    ItemsCollected(all, map[]);
    assert map[] + Contents(all) == Contents(all);
  }

  /** A fresh archive passes inspection, which finds the manifest and every file. */
  lemma FreshArchiveInspected(codec: Codec, manifest: Manifest, items: seq<Item>, archive: seq<Byte>)
    requires Faithful(codec) && Archivable(items) && Storable(|codec.toJson(manifest)|)
    requires manifest.files == RecordsOf(codec, items)
    requires archive == codec.gzip(TarBytes(ArchiveEntries(codec, manifest, items)))
    ensures Inspect(codec, archive)
         == Ok(Inspected(manifest, map[MANIFEST_NAME := codec.toJson(manifest)] + Contents(items)))
  {
    hide TarBytes, Parse, ValidPath, RecordsOf, ArchiveEntries, Collect, FirstFault, Storable, Map, Contents, Carried,
         ParsedItem;
    EntriesComeBack(codec, manifest, items);
    RecordsHold(codec, manifest, items, map[MANIFEST_NAME := codec.toJson(manifest)] + Contents(items));
    ManifestNamed(MANIFEST_NAME);
    AllCollected(Item(MANIFEST_NAME, codec.toJson(manifest), Plain), items);
    NoFaults(codec, items, map[MANIFEST_NAME := codec.toJson(manifest)] + Contents(items));
  }

  // ---------------------------------------------------------------- restoration

  function PathsOf(items: seq<Item>): seq<string> { Map((i: Item) => i.path, items) }

  lemma {:induction false} FilesRestored(codec: Codec, files: Files, items: seq<Item>, entries: Files, k: nat)
    requires Archivable(items) && k <= |items|
    requires forall i :: 0 <= i < |items| ==> items[i].path in entries && entries[items[i].path] == items[i].data
    ensures RestoreFiles(Replay(files, items[..k]), PathsOf(items)[..k], entries, RecordsOf(codec, items)[k..])
         == Restored(Replay(files, items), PathsOf(items), None)
    decreases |items| - k
  {
    hide Destination, Canonical, Survives, Fits, ValidPath;
    if k == |items| {
      assert items[..k] == items && PathsOf(items)[..k] == PathsOf(items);
    } else {
      assert Carried(items[k]);
      CanonicalDestination(items[k].path);
      assert items[..k + 1][..k] == items[..k];
      assert PathsOf(items)[..k + 1] == PathsOf(items)[..k] + [items[k].path];
      assert RecordsOf(codec, items)[k..][1..] == RecordsOf(codec, items)[k + 1..];
      FilesRestored(codec, files, items, entries, k + 1);
    }
  }

  /** Restoring the archive of a backup puts every file back, in record order, over whatever the root holds; only a
      schema newer than the supported one stops it. */
  lemma BackupRestores(codec: Codec, files: Files, manifest: Manifest, items: seq<Item>, archive: seq<Byte>,
                       supported: string, force: bool)
    requires Faithful(codec) && Archivable(items) && Storable(|codec.toJson(manifest)|)
    requires manifest.files == RecordsOf(codec, items)
    requires archive == codec.gzip(TarBytes(ArchiveEntries(codec, manifest, items)))
    ensures Restore(codec, files, archive, supported, force) ==
            if Refused(manifest, supported, force)
            then Restored(files, [], Some(NewerSchema(manifest.schemaVersion.value)))
            else Restored(Replay(files, items), PathsOf(items), None)
  {
    hide Inspect, Compare, Components, Carried, ValidPath, ArchiveEntries;
    var entries := map[MANIFEST_NAME := codec.toJson(manifest)] + Contents(items);
    FreshArchiveInspected(codec, manifest, items, archive);
    RecordsHold(codec, manifest, items, entries);
    FilesRestored(codec, files, items, entries, 0);
    assert items[..0] == [] && PathsOf(items)[..0] == [];
    assert RecordsOf(codec, items)[0..] == manifest.files;
  }

  /** Restored into an empty root, a backup gives back exactly the recorded files if and only if none of them is a
      sidecar of a database recorded later. */
  lemma EmptyRootReproduced(codec: Codec, manifest: Manifest, items: seq<Item>, archive: seq<Byte>, supported: string,
                            force: bool)
    requires Faithful(codec) && Archivable(items) && Storable(|codec.toJson(manifest)|)
    requires manifest.files == RecordsOf(codec, items) && !Refused(manifest, supported, force)
    requires archive == codec.gzip(TarBytes(ArchiveEntries(codec, manifest, items)))
    ensures Restore(codec, map[], archive, supported, force).files == Contents(items)
            <==> forall i :: 0 <= i < |items| ==> !Lost(items, i)
  {
    hide Restore, Contents, Replay, Lost, ArchiveEntries;
    BackupRestores(codec, map[], manifest, items, archive, supported, force);
    ReplayIsContents(items);
  }

  // ---------------------------------------------------------------- any archive

  lemma {:induction false} FaultFound(codec: Codec, entries: Files, files: seq<FileRecord>)
    ensures FirstFault(codec, entries, files) == None <==>
            forall i :: 0 <= i < |files| ==> Fault(codec, entries, files[i]) == None
  {
    if files != [] {
      FaultFound(codec, entries, files[1..]);
      assert forall i :: 0 < i < |files| ==> files[i] == files[1..][i - 1];
    }
  }

  lemma {:induction false} NamesCollected(parsed: seq<Parsed>, entries: Files)
    requires Collect(parsed, entries).Ok?
    ensures forall p :: p in Collect(parsed, entries).value ==> p in entries || ValidPath(p)
    decreases |parsed|
  {
    if parsed != [] {
      NamesCollected(parsed[1..], entries[parsed[0].name := parsed[0].data]);
    }
  }

  /** Whatever the archive, a restoration that meets no error has written only files whose bytes hash to what the
      manifest records, to paths that do not climb out of the root. */
  lemma InspectionIsSound(codec: Codec, archive: seq<Byte>)
    requires Inspect(codec, archive).Ok?
    ensures var b := Inspect(codec, archive).value;
            && (forall p :: p in b.entries ==> p != "" && !Rooted(p) && !Climbs(p))
            && forall i :: 0 <= i < |b.manifest.files| ==>
                 var f := b.manifest.files[i];
                 && f.path != "" && !Rooted(f.path) && !Climbs(f.path)
                 && f.path in b.entries && codec.sha256(b.entries[f.path]) == f.sha256
  {
    hide Parse, ValidPath, Rooted, Climbs;
    var b := Inspect(codec, archive).value;
    FaultFound(codec, b.entries, b.manifest.files);
    NamesCollected(Parse(codec.gunzip(archive).value).value, map[]);
    forall p | p in b.entries
      ensures p != "" && !Rooted(p) && !Climbs(p)
    {
      ValidPathExactly(p);
    }
    forall i | 0 <= i < |b.manifest.files|
      ensures Fault(codec, b.entries, b.manifest.files[i]) == None
    {
    }
  }
}
