/** Which paths a backup may hold and where they lead, on the text of the path; and what an inspection accepts. */
module BackupPaths {
  import opened Common
  import opened Utf8
  import opened TarArchive
  import opened Text
  import opened Versions
  import opened Backup

  // ---------------------------------------------------------------- paths

  predicate Slash(c: char) { c == '/' || c == '\\' }

  /** Two dots stand alone here between slashes, backslashes or the ends. */
  predicate DotsAt(path: string, i: nat) {
    && i + 2 <= |path| && path[i] == '.' && path[i + 1] == '.'
    && (i == 0 || Slash(path[i - 1])) && (i + 2 == |path| || Slash(path[i + 2]))
  }

  ghost predicate Climbs(path: string) { exists i: nat :: DotsAt(path, i) }

  /** Absolute on one kind of system or the other. */
  predicate Rooted(path: string) {
    || (|path| >= 1 && Slash(path[0]))
    || (|path| >= 3 && ('a' <= path[0] <= 'z' || 'A' <= path[0] <= 'Z') && path[1] == ':' && Slash(path[2]))
  }

  lemma TwoDots(s: string, i: nat)
    requires i + 2 <= |s|
    ensures s[i..i + 2] == ".." <==> s[i] == '.' && s[i + 1] == '.'
  {
    assert s[i..i + 2] == [s[i], s[i + 1]];
  }

  /** Two dots alone between slashes are a part. */
  lemma DotsBetweenSlashes(s: string, i: nat)
    requires i + 2 <= |s| && s[i] == '.' && s[i + 1] == '.'
    requires (i == 0 || s[i - 1] == '/') && (i + 2 == |s| || s[i + 2] == '/')
    ensures ".." in Split(s, '/')
  {
    hide Split;
    TwoDots(s, i);
    assert IsSegment(s, '/', i, i + 2);
    var k := SegmentIsPart(s, '/', i, i + 2);
  }

  /** And such a part stands there. */
  lemma DotsFound(s: string) returns (i: nat)
    requires ".." in Split(s, '/')
    ensures i + 2 <= |s| && s[i] == '.' && s[i + 1] == '.'
    ensures (i == 0 || s[i - 1] == '/') && (i + 2 == |s| || s[i + 2] == '/')
  {
    hide Split;
    var k :| 0 <= k < |Split(s, '/')| && Split(s, '/')[k] == "..";
    var j;
    i, j := PartIsSegment(s, '/', k);
    assert |s[i..j]| == 2;
    TwoDots(s, i);
  }

  lemma DotsInText(path: string)
    ensures ".." in Split(ToPosix(path), '/') <==> Climbs(path)
  {
    hide Split;
    var q := ToPosix(path);
    if ".." in Split(q, '/') {
      var i := DotsFound(q);
      assert DotsAt(path, i);
    }
    if Climbs(path) {
      var i: nat :| DotsAt(path, i);
      DotsBetweenSlashes(q, i);
    }
  }

  /** A path is valid exactly if it is not empty, not absolute and does not climb. */
  lemma ValidPathExactly(path: string)
    ensures ValidPath(path) <==> path != "" && !Rooted(path) && !Climbs(path)
  {
    DotsInText(path);
  }

  /** Dropping removes the empty segments and the single dots, and keeps the rest in order. */
  lemma {:induction false} DroppedExactly(a: seq<string>, b: seq<string>, segment: string)
    ensures DropDots(a + b) == DropDots(a) + DropDots(b)
    ensures DropDots([segment]) == if segment == "" || segment == "." then [] else [segment]
    ensures DropDots([]) == []
  {
    if a == [] {
      assert a + b == b;
    } else {
      assert (a + b)[1..] == a[1..] + b && (a + b)[0] == a[0];
      DroppedExactly(a[1..], b, segment);
    }
  }

  lemma {:induction false} NothingDropped(segments: seq<string>)
    ensures forall k :: 0 <= k < |DropDots(segments)| ==>
              DropDots(segments)[k] in segments && DropDots(segments)[k] != "" && DropDots(segments)[k] != "."
  {
    if segments != [] {
      NothingDropped(segments[1..]);
    }
  }

  /** A path that leads somewhere leads below the root, through its own segments without the empty ones and dots. */
  lemma LeadsBelow(path: string)
    requires Destination(path).Ok?
    ensures var d := Destination(path).value;
            && path != "" && !Rooted(path) && !Climbs(path)
            && Split(d, '/') == DropDots(Split(path, '/')) && d != "" && d[0] != '/'
            && forall segment :: segment in Split(d, '/') ==> segment !in {"", ".", ".."} && segment in Split(path, '/')
  {
    ValidPathExactly(path);
    SplitSeparates(path, '/');
    var kept := DropDots(Split(path, '/'));
    NothingDropped(Split(path, '/'));
    SplitJoin(kept, '/');
    assert kept[0] != "" && kept[0] in Split(path, '/');
    JoinStarts(kept);
    NoDots(path);
  }

  /** A valid path leads nowhere exactly if it has no segment of its own, or the first of them begins with two dots. */
  lemma LeadsNowhereExactly(path: string)
    ensures Destination(path).Ok? <==>
            && path != "" && !Rooted(path) && !Climbs(path)
            && var kept := DropDots(Split(path, '/'));
               kept != [] && !(|kept[0]| >= 2 && kept[0][0] == '.' && kept[0][1] == '.')
  {
    ValidPathExactly(path);
    hide ValidPath, Rooted, Climbs;
    var kept := DropDots(Split(path, '/'));
    NothingDropped(Split(path, '/'));
    hide DropDots;
    SplitSeparates(path, '/');
    hide Split;
    if kept == [] {
      assert Join(kept, '/') == "";
    } else {
      JoinStarts(kept);
      JoinBegins(kept);
    }
  }

  lemma JoinBegins(parts: seq<string>)
    requires parts != [] && '/' !in parts[0]
    ensures StartsWith(Join(parts, '/'), "..") <==> |parts[0]| >= 2 && parts[0][0] == '.' && parts[0][1] == '.'
  {
    assert parts[0] <= Join(parts, '/');
    assert |parts| > 1 ==> Join(parts, '/')[|parts[0]|] == '/';
  }

  lemma JoinStarts(parts: seq<string>)
    requires parts != [] && parts[0] != ""
    ensures Join(parts, '/') != "" && Join(parts, '/')[0] == parts[0][0]
  {
  }

  /** Between slashes alone there are no two dots either. */
  lemma NoDots(path: string)
    ensures ".." in Split(path, '/') ==> Climbs(path)
  {
    hide Split;
    if ".." in Split(path, '/') {
      var i := DotsFound(path);
      assert DotsAt(path, i);
    }
  }

  // ---------------------------------------------------------------- inspection

  /** Every entry is found under its name, unless a later one has the same; and nothing else is there. */
  ghost predicate LastWins(parsed: seq<Parsed>, entries: Files) {
    && (forall i :: 0 <= i < |parsed| && !NamedIn(parsed[i + 1..], parsed[i].name) ==>
          parsed[i].name in entries && entries[parsed[i].name] == parsed[i].data)
    && (forall name :: name in entries ==> NamedIn(parsed, name))
  }

  lemma {:induction false} CollectsValid(parsed: seq<Parsed>, entries: Files)
    ensures Collect(parsed, entries).Ok? <==> forall i :: 0 <= i < |parsed| ==> ValidPath(parsed[i].name)
    decreases |parsed|
  {
    hide ValidPath;
    if parsed != [] {
      CollectsValid(parsed[1..], entries[parsed[0].name := parsed[0].data]);
      assert forall i :: 0 < i < |parsed| ==> parsed[i] == parsed[1..][i - 1];
    }
  }

  predicate NamedIn(parsed: seq<Parsed>, name: string) { exists i :: 0 <= i < |parsed| && parsed[i].name == name }

  /** A name none of them has is as before. */
  lemma {:induction false} CollectsOthers(parsed: seq<Parsed>, entries: Files, name: string)
    requires Collect(parsed, entries).Ok? && !NamedIn(parsed, name)
    ensures var all := Collect(parsed, entries).value;
            (name in all <==> name in entries) && (name in entries ==> all[name] == entries[name])
    decreases |parsed|
  {
    hide ValidPath;
    if parsed != [] {
      assert forall i :: 0 <= i < |parsed| - 1 ==> parsed[1..][i] == parsed[i + 1];
      CollectsOthers(parsed[1..], entries[parsed[0].name := parsed[0].data], name);
    }
  }

  /** The last with a name is found under it. */
  lemma {:induction false} CollectsLast(parsed: seq<Parsed>, entries: Files, i: nat)
    requires Collect(parsed, entries).Ok? && i < |parsed| && !NamedIn(parsed[i + 1..], parsed[i].name)
    ensures var all := Collect(parsed, entries).value;
            parsed[i].name in all && all[parsed[i].name] == parsed[i].data
    decreases |parsed|
  {
    hide ValidPath, NamedIn;
    var next := entries[parsed[0].name := parsed[0].data];
    if i == 0 {
      CollectsOthers(parsed[1..], next, parsed[0].name);
    } else {
      assert parsed[1..][i - 1 + 1..] == parsed[i + 1..];
      CollectsLast(parsed[1..], next, i - 1);
    }
  }

  /** The bytes of a recorded file are there and hash as recorded, under a path that may be restored. */
  ghost predicate Intact(codec: Codec, entries: Files, f: FileRecord) {
    && f.path != "" && !Rooted(f.path) && !Climbs(f.path)
    && f.path in entries && codec.sha256(entries[f.path]) == f.sha256
  }

  /** An inspection accepts exactly the archives that unpack to a tar without rooted, climbing or empty names, with a manifest
      that reads, and with every file the manifest records intact; and it returns these. */
  lemma InspectionExactly(codec: Codec, archive: seq<Byte>, manifest: Manifest, entries: Files)
    ensures Inspect(codec, archive) == Ok(Inspected(manifest, entries)) <==>
            && codec.gunzip(archive).Some? && Parse(codec.gunzip(archive).value).Ok?
            && Collect(Parse(codec.gunzip(archive).value).value, map[]) == Ok(entries)
            && "manifest.json" in entries && codec.fromJson(entries["manifest.json"]) == Some(manifest)
            && forall i :: 0 <= i < |manifest.files| ==> Intact(codec, entries, manifest.files[i])
  {
    hide Parse, Collect, Climbs, Rooted, ValidPath;
    FirstFaultExactly(codec, entries, manifest.files);
  }

  lemma {:induction false} FirstFaultExactly(codec: Codec, entries: Files, files: seq<FileRecord>)
    ensures FirstFault(codec, entries, files) == None <==>
            forall i :: 0 <= i < |files| ==> Intact(codec, entries, files[i])
  {
    hide Climbs, Rooted, ValidPath;
    if files != [] {
      ValidPathExactly(files[0].path);
      FirstFaultExactly(codec, entries, files[1..]);
      assert forall i :: 0 < i < |files| ==> files[i] == files[1..][i - 1];
      assert forall i :: 0 <= i < |files| - 1 ==> files[1..][i] == files[i + 1];
    }
  }

  /** The entries it collects. */
  lemma EntriesCollected(parsed: seq<Parsed>)
    ensures Collect(parsed, map[]).Ok? <==>
            forall i :: 0 <= i < |parsed| ==>
              parsed[i].name != "" && !Rooted(parsed[i].name) && !Climbs(parsed[i].name)
    ensures Collect(parsed, map[]).Ok? ==> LastWins(parsed, Collect(parsed, map[]).value)
  {
    hide Climbs, Rooted, ValidPath, Collect, NamedIn;
    forall i | 0 <= i < |parsed|
      ensures ValidPath(parsed[i].name) <==>
              parsed[i].name != "" && !Rooted(parsed[i].name) && !Climbs(parsed[i].name)
    {
      ValidPathExactly(parsed[i].name);
    }
    CollectsValid(parsed, map[]);
    if Collect(parsed, map[]).Ok? {
      var all := Collect(parsed, map[]).value;
      forall i | 0 <= i < |parsed| && !NamedIn(parsed[i + 1..], parsed[i].name)
        ensures parsed[i].name in all && all[parsed[i].name] == parsed[i].data
      {
        CollectsLast(parsed, map[], i);
      }
      forall name | name in all
        ensures NamedIn(parsed, name)
      {
        if !NamedIn(parsed, name) {
          CollectsOthers(parsed, map[], name);
        }
      }
    }
  }

  /** The error of a file that is not intact. */
  ghost function NamedFault(entries: Files, f: FileRecord): BackupError {
    if f.path == "" || Rooted(f.path) || Climbs(f.path) then InvalidPath(f.path)
    else if f.path !in entries then MissingFile(f.path) else ChecksumMismatch(f.path)
  }

  ghost predicate FirstBroken(codec: Codec, entries: Files, files: seq<FileRecord>, i: nat) {
    i < |files| && !Intact(codec, entries, files[i]) && forall j :: 0 <= j < i ==> Intact(codec, entries, files[j])
  }

  lemma {:induction false} FirstFaultNamed(codec: Codec, entries: Files, files: seq<FileRecord>, i: nat)
    requires FirstBroken(codec, entries, files, i)
    ensures FirstFault(codec, entries, files) == Some(NamedFault(entries, files[i]))
  {
    hide Climbs, Rooted, ValidPath;
    ValidPathExactly(files[0].path);
    if i > 0 {
      assert Intact(codec, entries, files[0]);
      assert forall j :: 0 <= j < i - 1 ==> files[1..][j] == files[j + 1];
      FirstFaultNamed(codec, entries, files[1..], i - 1);
    }
  }

  ghost predicate FirstBadName(parsed: seq<Parsed>, i: nat) {
    && i < |parsed| && (parsed[i].name == "" || Rooted(parsed[i].name) || Climbs(parsed[i].name))
    && forall j :: 0 <= j < i ==> parsed[j].name != "" && !Rooted(parsed[j].name) && !Climbs(parsed[j].name)
  }

  lemma {:induction false} FirstBadNamed(parsed: seq<Parsed>, entries: Files, i: nat)
    requires FirstBadName(parsed, i)
    ensures Collect(parsed, entries) == Err(InvalidPath(parsed[i].name))
    decreases |parsed|
  {
    hide Climbs, Rooted, ValidPath;
    ValidPathExactly(parsed[0].name);
    if i > 0 {
      assert parsed[0].name != "";
      assert forall j :: 0 <= j < i - 1 ==> parsed[1..][j] == parsed[j + 1];
      FirstBadNamed(parsed[1..], entries[parsed[0].name := parsed[0].data], i - 1);
    }
  }

  /** Why an archive is refused: the first thing that is wrong with it. */
  lemma RefusalsExactly(codec: Codec, archive: seq<Byte>)
    ensures var unzipped, r := codec.gunzip(archive), Inspect(codec, archive);
            && (unzipped == None ==> r == Err(NotGzip))
            && (unzipped.Some? && Parse(unzipped.value).Err? ==> r == Err(NotTar))
            && (unzipped.Some? && Parse(unzipped.value).Ok? ==>
                 var parsed := Parse(unzipped.value).value;
                 && (forall i: nat :: FirstBadName(parsed, i) ==> r == Err(InvalidPath(parsed[i].name)))
                 && (Collect(parsed, map[]).Ok? ==> RefusedFor(codec, Collect(parsed, map[]).value, r)))
  {
    hide Parse, Collect, ValidPath, Climbs, Rooted;
    if codec.gunzip(archive).Some? && Parse(codec.gunzip(archive).value).Ok? {
      var parsed := Parse(codec.gunzip(archive).value).value;
      forall i: nat | i < |parsed| && FirstBadName(parsed, i)
        ensures Collect(parsed, map[]) == Err(InvalidPath(parsed[i].name))
      {
        FirstBadNamed(parsed, map[], i);
      }
      if Collect(parsed, map[]).Ok? {
        ManifestRefusals(codec, Collect(parsed, map[]).value);
      }
    }
  }

  ghost predicate RefusedFor(codec: Codec, entries: Files, r: Result<Inspected, BackupError>) {
    && ("manifest.json" !in entries ==> r == Err(MissingManifest))
    && ("manifest.json" in entries ==>
         var manifest := codec.fromJson(entries["manifest.json"]);
         && (manifest == None ==> r == Err(BadManifest))
         && (manifest.Some? ==>
              forall i: nat :: FirstBroken(codec, entries, manifest.value.files, i) ==>
                r == Err(NamedFault(entries, manifest.value.files[i]))))
  }

  lemma ManifestRefusals(codec: Codec, entries: Files)
    ensures RefusedFor(codec, entries, CheckFiles(codec, entries))
  {
    hide FirstFault, NamedFault, Intact;
    if "manifest.json" in entries && codec.fromJson(entries["manifest.json"]).Some? {
      var files := codec.fromJson(entries["manifest.json"]).value.files;
      forall i: nat | i < |files| && FirstBroken(codec, entries, files, i)
        ensures FirstFault(codec, entries, files) == Some(NamedFault(entries, files[i]))
      {
        FirstFaultNamed(codec, entries, files, i);
      }
    }
  }

  // ---------------------------------------------------------------- the version gate

  /** A restoration is refused exactly without force, for a manifest that names a schema, if the schema is newer. */
  lemma RefusedExactly(manifest: Manifest, supported: string, force: bool)
    ensures Refused(manifest, supported, force) <==>
            && !force && manifest.schemaVersion.Some? && manifest.schemaVersion.value != ""
            && Newer(Components(manifest.schemaVersion.value), Components(supported))
  {
    hide Components, Newer;
    if manifest.schemaVersion.Some? {
      CompareIsNewer(Components(manifest.schemaVersion.value), Components(supported));
    }
  }

  /** So with versions written as numbers. */
  lemma WrittenVersions(manifest: Manifest, theirs: seq<nat>, ours: seq<nat>)
    requires theirs != [] && ours != [] && manifest.schemaVersion == Some(Versions.Written(theirs))
    ensures Refused(manifest, Versions.Written(ours), false) <==> Newer(theirs, ours)
    ensures !Refused(manifest, Versions.Written(ours), true)
  {
    WrittenComponents(theirs);
    WrittenComponents(ours);
    WrittenSomething(theirs);
    hide Components, Newer, Versions.Written;
    RefusedExactly(manifest, Versions.Written(ours), false);
  }

  lemma WrittenSomething(numbers: seq<nat>)
    requires numbers != []
    ensures Versions.Written(numbers) != ""
  {
    assert Map(Decimal, numbers)[0] == Decimal(numbers[0]);
  }
}
