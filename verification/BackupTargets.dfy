/**
 What a backup captures: the databases of the root and of the plugins, then the plain files, then the workspace. Because
 databases come first and are named as such, restoring into an empty root loses nothing of what was captured.
 */
module BackupTargets {
  import opened Common
  import opened Utf8
  import opened TarArchive
  import opened TarRoundTrip
  import opened Text
  import opened Backup
  import opened BackupRoundTrip

  const SQLITE_FILES: seq<string> := ["memory.db", "deals.db"]

  const PLAIN_FILES: seq<string> :=
    ["config.yaml", "wallet.json", "telegram_session.txt", "gramjs_bot_session.txt", "telegram-offset.json"]

  const PLUGIN_DATA: string := "plugins/data/"

  /** The root as it is enumerated: the bytes captured for each regular file, the names listed in plugins/data, and the
      files found under workspace, if it is a directory. */
  datatype Disk = Disk(files: Files, pluginEntries: seq<string>, workspace: Option<seq<Captured>>)

  /** Targets for those of the paths that exist, in order. */
  function Existing(disk: Disk, kind: Kind, paths: seq<string>): seq<Target> {
    if paths == [] then [] else
      var before, path := Existing(disk, kind, paths[..|paths| - 1]), paths[|paths| - 1];
      if path in disk.files then before + [Single(kind, Captured(path, disk.files[path]))] else before
  }

  function PluginPaths(entries: seq<string>): seq<string> {
    if entries == [] then [] else
      var before, entry := PluginPaths(entries[..|entries| - 1]), entries[|entries| - 1];
      if EndsWith(entry, ".db") then before + [PLUGIN_DATA + entry] else before
  }

  function DatabaseTargets(disk: Disk): seq<Target> {
    Existing(disk, Sqlite, SQLITE_FILES) + Existing(disk, Sqlite, PluginPaths(disk.pluginEntries))
  }

  function OtherTargets(disk: Disk): seq<Target> {
    Existing(disk, Plain, PLAIN_FILES) + if disk.workspace.Some? then [Directory(disk.workspace.value)] else []
  }

  function Resolved(disk: Disk): seq<Target> { DatabaseTargets(disk) + OtherTargets(disk) }

  // ---------------------------------------------------------------- the enumeration

  method AddExisting(disk: Disk, kind: Kind, names: seq<string>, before: seq<Target>) returns (targets: seq<Target>)
    ensures targets == before + Existing(disk, kind, names)
  {
    targets := before;
    var i := 0;
    while i < |names|
      invariant 0 <= i <= |names|
      invariant targets == before + Existing(disk, kind, names[..i])
    {
      assert names[..i + 1][..i] == names[..i];
      if names[i] in disk.files {
        targets := targets + [Single(kind, Captured(names[i], disk.files[names[i]]))];
      }
      i := i + 1;
    }
    assert names[..i] == names;
  }

  method AddPlugins(disk: Disk, before: seq<Target>) returns (targets: seq<Target>)
    ensures targets == before + Existing(disk, Sqlite, PluginPaths(disk.pluginEntries))
  {
    var entries := disk.pluginEntries;
    targets := before;
    var i := 0;
    while i < |entries|
      invariant 0 <= i <= |entries|
      invariant targets == before + Existing(disk, Sqlite, PluginPaths(entries[..i]))
    {
      assert entries[..i + 1][..i] == entries[..i];
      if EndsWith(entries[i], ".db") {
        var path := PLUGIN_DATA + entries[i];
        ExistingNext(disk, Sqlite, PluginPaths(entries[..i]), path);
        if path in disk.files {
          targets := targets + [Single(Sqlite, Captured(path, disk.files[path]))];
        }
      }
      i := i + 1;
    }
    assert entries[..i] == entries;
  }

  lemma ExistingNext(disk: Disk, kind: Kind, paths: seq<string>, path: string)
    ensures Existing(disk, kind, paths + [path]) == Existing(disk, kind, paths) +
            if path in disk.files then [Single(kind, Captured(path, disk.files[path]))] else []
  {
    assert (paths + [path])[..|paths|] == paths;
  }

  method ResolveBackupTargets(disk: Disk) returns (targets: seq<Target>)
    ensures targets == Resolved(disk)
  {
    hide Existing, PluginPaths;
    targets := AddExisting(disk, Sqlite, SQLITE_FILES, []);
    targets := AddPlugins(disk, targets);
    targets := AddExisting(disk, Plain, PLAIN_FILES, targets);
    if disk.workspace.Some? {
      targets := targets + [Directory(disk.workspace.value)];
    }
  }

  // ---------------------------------------------------------------- what is captured

  /** The files of the root that are backed up, by name and place. */
  ghost predicate Wanted(disk: Disk, file: Item) {
    file.path in disk.files && file.data == disk.files[file.path] &&
    match file.kind
    case Sqlite =>
      || file.path in {"memory.db", "deals.db"}
      || exists entry :: entry in disk.pluginEntries && EndsWith(entry, ".db") && file.path == "plugins/data/" + entry
    case Plain =>
      file.path in {"config.yaml", "wallet.json", "telegram_session.txt", "gramjs_bot_session.txt", "telegram-offset.json"}
  }

  /** Or a file of the workspace. */
  predicate InWorkspace(disk: Disk, file: Item) {
    disk.workspace.Some? && file.kind == Plain && Captured(file.path, file.data) in disk.workspace.value
  }

  lemma {:induction false} ExistingOnes(disk: Disk, kind: Kind, paths: seq<string>, file: Item)
    ensures file in DiskItems(Existing(disk, kind, paths)) <==>
            file.kind == kind && file.path in paths && file.path in disk.files && file.data == disk.files[file.path]
    decreases |paths|
  {
    if paths != [] {
      var init, path := paths[..|paths| - 1], paths[|paths| - 1];
      ExistingOnes(disk, kind, init, file);
      assert paths == init + [path];
      if path in disk.files {
        var target := Single(kind, Captured(path, disk.files[path]));
        FlatMapAppend(OnDisk, Existing(disk, kind, init), [target]);
        assert DiskItems([target]) == OnDisk(target) + DiskItems([]);
      }
    }
  }

  lemma {:induction false} PluginsNamed(entries: seq<string>, path: string)
    ensures path in PluginPaths(entries) <==>
            exists entry :: entry in entries && EndsWith(entry, ".db") && path == "plugins/data/" + entry
  {
    if entries != [] {
      var init, last := entries[..|entries| - 1], entries[|entries| - 1];
      assert entries == init + [last];
      PluginsNamed(init, path);
    }
  }

  lemma WorkspaceOnes(disk: Disk, file: Item)
    ensures file in DiskItems(if disk.workspace.Some? then [Directory(disk.workspace.value)] else []) <==>
            InWorkspace(disk, file)
  {
    if disk.workspace.Some? {
      var files := disk.workspace.value;
      var targets := [Directory(files)];
      assert targets[1..] == [] && DiskItems(targets) == OnDisk(targets[0]) + DiskItems(targets[1..]);
      if InWorkspace(disk, file) {
        var k :| 0 <= k < |files| && files[k] == Captured(file.path, file.data);
        assert OnDisk(Directory(files))[k] == file;
      }
    }
  }

  /** A backup holds exactly these files, databases as databases. */
  lemma CapturedExactly(disk: Disk, file: Item)
    ensures file in DiskItems(Resolved(disk)) <==> Wanted(disk, file) || InWorkspace(disk, file)
  {
    hide Existing, PluginPaths, DiskItems;
    var workspace := if disk.workspace.Some? then [Directory(disk.workspace.value)] else [];
    var a, b, c := Existing(disk, Sqlite, SQLITE_FILES), Existing(disk, Sqlite, PluginPaths(disk.pluginEntries)),
                   Existing(disk, Plain, PLAIN_FILES);
    AllItems(a, b, c, workspace);
    assert Resolved(disk) == a + b + (c + workspace);
    ExistingOnes(disk, Sqlite, SQLITE_FILES, file);
    ExistingOnes(disk, Sqlite, PluginPaths(disk.pluginEntries), file);
    ExistingOnes(disk, Plain, PLAIN_FILES, file);
    PluginsNamed(disk.pluginEntries, file.path);
    WorkspaceOnes(disk, file);
  }

  lemma AllItems(a: seq<Target>, b: seq<Target>, c: seq<Target>, d: seq<Target>)
    ensures DiskItems(a + b + (c + d)) == DiskItems(a) + DiskItems(b) + (DiskItems(c) + DiskItems(d))
  {
    FlatMapAppend(OnDisk, a + b, c + d);
    FlatMapAppend(OnDisk, a, b);
    FlatMapAppend(OnDisk, c, d);
  }

  // ---------------------------------------------------------------- databases first

  predicate DatabaseItem(item: Item) { item.kind == Sqlite && EndsWith(item.path, ".db") }

  lemma {:induction false} ExistingItems(disk: Disk, kind: Kind, paths: seq<string>)
    requires kind == Sqlite ==> forall p :: p in paths ==> EndsWith(p, ".db")
    ensures forall item :: item in Items(Existing(disk, kind, paths)) ==>
              if kind == Sqlite then DatabaseItem(item) else item.kind == kind
    decreases |paths|
  {
    hide EndsWith, ToPosix;
    if paths != [] {
      var init, path := paths[..|paths| - 1], paths[|paths| - 1];
      ExistingItems(disk, kind, init);
      if path in disk.files {
        var target := Single(kind, Captured(path, disk.files[path]));
        FlatMapAppend(ItemsOf, Existing(disk, kind, init), [target]);
        assert Items([target]) == ItemsOf(target) + Items([]);
        SuffixKept(path);
      }
    }
  }

  lemma SuffixKept(path: string)
    ensures EndsWith(path, ".db") ==> EndsWith(ToPosix(path), ".db")
  {
    if EndsWith(path, ".db") {
      var p, q, n := path, ToPosix(path), |path| - 3;
      assert p[n..][0] == '.' && p[n..][1] == 'd' && p[n..][2] == 'b';
      assert q[n..] == ".db";
    }
  }

  lemma {:induction false} PluginPathsNamed(entries: seq<string>)
    ensures forall p :: p in PluginPaths(entries) ==> EndsWith(p, ".db")
  {
    if entries != [] {
      PluginPathsNamed(entries[..|entries| - 1]);
      var entry := entries[|entries| - 1];
      assert EndsWith(entry, ".db") ==> (PLUGIN_DATA + entry)[|PLUGIN_DATA + entry| - 3..] == entry[|entry| - 3..];
    }
  }

  lemma DatabasesNamed(disk: Disk)
    ensures forall item :: item in Items(DatabaseTargets(disk)) ==> DatabaseItem(item)
  {
    hide Existing, PluginPaths, DatabaseItem;
    var names := SQLITE_FILES;
    assert names[0][6..] == ".db" && names[1][5..] == ".db";
    assert forall p :: p in names ==> EndsWith(p, ".db");
    ExistingItems(disk, Sqlite, names);
    PluginPathsNamed(disk.pluginEntries);
    ExistingItems(disk, Sqlite, PluginPaths(disk.pluginEntries));
    FlatMapAppend(ItemsOf, Existing(disk, Sqlite, names), Existing(disk, Sqlite, PluginPaths(disk.pluginEntries)));
  }

  lemma OthersPlain(disk: Disk)
    ensures forall item :: item in Items(OtherTargets(disk)) ==> item.kind == Plain
  {
    hide Existing, ToPosix;
    ExistingItems(disk, Plain, PLAIN_FILES);
    var workspace := if disk.workspace.Some? then [Directory(disk.workspace.value)] else [];
    FlatMapAppend(ItemsOf, Existing(disk, Plain, PLAIN_FILES), workspace);
    if disk.workspace.Some? {
      assert Items(workspace) == ItemsOf(workspace[0]) + Items([]);
    }
  }

  /** Whatever the root holds, no captured file is a sidecar of a database recorded after it. */
  lemma NothingIsLost(disk: Disk)
    ensures var items := Items(Resolved(disk)); forall i :: 0 <= i < |items| ==> !Lost(items, i)
  {
    hide Lost, DatabaseTargets, OtherTargets, EndsWith;
    var databases, others := Items(DatabaseTargets(disk)), Items(OtherTargets(disk));
    var items := Items(Resolved(disk));
    FlatMapAppend(ItemsOf, DatabaseTargets(disk), OtherTargets(disk));
    assert items == databases + others;
    DatabasesNamed(disk);
    OthersPlain(disk);
    forall i | 0 <= i < |items|
      ensures if i < |databases| then DatabaseItem(items[i]) else items[i].kind == Plain
    {
      assert items[i] in databases || items[i] in others;
    }
    DatabasesFirst(items);
  }

  /** A backup of any root, restored into an empty one, gives back exactly the files captured, under the paths they are
      archived as. */
  lemma RootReproduced(codec: Codec, disk: Disk, manifest: Manifest, archive: seq<Byte>, supported: string, force: bool)
    requires Faithful(codec) && Archivable(Items(Resolved(disk))) && Storable(|codec.toJson(manifest)|)
    requires manifest.files == RecordsOf(codec, Items(Resolved(disk))) && !Refused(manifest, supported, force)
    requires archive == codec.gzip(TarBytes(ArchiveEntries(codec, manifest, Items(Resolved(disk)))))
    ensures Restore(codec, map[], archive, supported, force).files == Contents(Items(Resolved(disk)))
  {
    hide *;
    NothingIsLost(disk);
    EmptyRootReproduced(codec, manifest, Items(Resolved(disk)), archive, supported, force);
  }

  // ---------------------------------------------------------------- names with a backslash

  /** The files of a target under the paths they have on disk. */
  function OnDisk(target: Target): seq<Item> {
    match target
    case Single(kind, file) => [Item(file.path, file.data, kind)]
    case Directory(files) => Map((f: Captured) => Item(f.path, f.data, Plain), files)
  }

  function DiskItems(targets: seq<Target>): seq<Item> { FlatMap(OnDisk, targets) }

  lemma {:induction false} ArchivedAs(targets: seq<Target>)
    ensures var items, disk := Items(targets), DiskItems(targets);
            |items| == |disk| && forall i :: 0 <= i < |items| ==> items[i] == disk[i].(path := ToPosix(disk[i].path))
    decreases |targets|
  {
    hide ToPosix;
    if targets != [] {
      ArchivedAs(targets[1..]);
    }
  }

  lemma PosixPath(path: string)
    ensures ToPosix(path) == path <==> '\\' !in path
    ensures '\\' !in ToPosix(path)
  {
    if '\\' !in path {
      assert ToPosix(path) == path;
    }
  }

  /** Of a root with archivable files, the files come back under the paths they had, with their bytes, exactly if no path
      has a backslash: those come back with slashes instead. */
  lemma RootReproducedExactly(codec: Codec, disk: Disk, manifest: Manifest, archive: seq<Byte>, supported: string,
                              force: bool)
    requires Faithful(codec) && Archivable(Items(Resolved(disk))) && Storable(|codec.toJson(manifest)|)
    requires manifest.files == RecordsOf(codec, Items(Resolved(disk))) && !Refused(manifest, supported, force)
    requires archive == codec.gzip(TarBytes(ArchiveEntries(codec, manifest, Items(Resolved(disk)))))
    ensures var onDisk := DiskItems(Resolved(disk));
            Restore(codec, map[], archive, supported, force).files == Contents(onDisk)
            <==> forall i :: 0 <= i < |onDisk| ==> '\\' !in onDisk[i].path
  {
    hide *;
    RootReproduced(codec, disk, manifest, archive, supported, force);
    ArchivedAs(Resolved(disk));
    ArchivableDistinct(Items(Resolved(disk)));
    SameContentsExactly(Items(Resolved(disk)), DiskItems(Resolved(disk)));
  }

  lemma ArchivableDistinct(items: seq<Item>)
    requires Archivable(items)
    ensures DistinctPaths(items)
  {
  }

  lemma SameContentsExactly(items: seq<Item>, onDisk: seq<Item>)
    requires DistinctPaths(items) && |items| == |onDisk|
    requires forall i :: 0 <= i < |items| ==> items[i] == onDisk[i].(path := ToPosix(onDisk[i].path))
    ensures Contents(items) == Contents(onDisk) <==> forall i :: 0 <= i < |onDisk| ==> '\\' !in onDisk[i].path
  {
    hide Contents, ToPosix;
    forall i | 0 <= i < |onDisk|
      ensures items[i] == onDisk[i] <==> '\\' !in onDisk[i].path
      ensures '\\' !in items[i].path
    {
      PosixPath(onDisk[i].path);
    }
    if i :| 0 <= i < |onDisk| && '\\' in onDisk[i].path {
      assert DistinctPaths(onDisk);
      ContentsAt(items);
      ContentsAt(onDisk);
      assert onDisk[i].path in Contents(onDisk) && onDisk[i].path !in Contents(items);
    } else {
      assert items == onDisk;
    }
  }
}
