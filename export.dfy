/**
 * The export step of `export_spine.py`: the choice of target directory, the copy of the
 * spine directory's regular files into it, and the asset manifest written there.
 *
 * A directory is its listing in enumeration order, an association list from entry name
 * to entry; copying a file over an existing name replaces that entry where it stands.
 */
module Export {
  import opened Base
  import opened Json

  /** A directory entry: a regular file (its size and, when it is valid JSON, its document) or a folder. */
  datatype Node = File(size: nat, content: Option<Json>) | Folder

  type Listing = seq<(string, Node)>

  /** The regular files of a listing, in listing order (`glob("*")` filtered by `is_file()`). */
  function RegularFiles(listing: Listing): (r: Listing)
    ensures |r| <= |listing|
    ensures forall e :: e in r ==> e in listing && e.1.File?
    ensures forall e :: e in listing && e.1.File? ==> e in r
  {
    if listing == [] then []
    else
      var last := listing[|listing| - 1];
      RegularFiles(listing[..|listing| - 1]) + (if last.1.File? then [last] else [])
  }

  /** The files of `files` copied one by one into `target`, each over any entry of its name. */
  function CopyInto(target: Listing, files: Listing): Listing
  {
    if files == [] then target
    else
      var last := files[|files| - 1];
      Put(CopyInto(target, files[..|files| - 1]), last.0, last.1)
  }

  datatype CopyResult = Copied(files: seq<string>) | CopyFailed

  /**
   * What `copy_spine_assets` returns and leaves in the target directory. `failAt` is the
   * position, among the regular files, of the first copy that raises (None when every copy
   * succeeds); the files before it stay copied.
   */
  function CopyOutcome(source: Listing, target: Listing, failAt: Option<nat>): (r: (CopyResult, Listing))
    ensures r.0.CopyFailed? <==> failAt.Some? && failAt.value < |RegularFiles(source)|
    ensures r.0.Copied? ==> r.0.files == Keys(RegularFiles(source)) && r.1 == CopyInto(target, RegularFiles(source))
    ensures r.0.CopyFailed? ==> r.1 == CopyInto(target, RegularFiles(source)[..failAt.value])
  {
    var files := RegularFiles(source);
    if failAt.Some? && failAt.value < |files| then (CopyFailed, CopyInto(target, files[..failAt.value]))
    else (Copied(Keys(files)), CopyInto(target, files))
  }

  /** `copy_spine_assets`: copy every regular file, collecting its name; an exception ends it in failure. */
  method CopySpineAssets(source: Listing, target: Listing, failAt: Option<nat>)
    returns (r: CopyResult, target': Listing)
    ensures (r, target') == CopyOutcome(source, target, failAt)
  {
    target' := target;
    var copied: seq<string> := [];
    var copies: nat := 0;
    ghost var done: Listing := [];
    var i := 0;
    while i < |source|
      invariant 0 <= i <= |source|
      invariant done == RegularFiles(source[..i])
      invariant copies == |done|
      invariant failAt.Some? ==> copies <= failAt.value
      invariant copied == Keys(done)
      invariant target' == CopyInto(target, done)
    {
      RegularFilesStep(source, i);
      var entry := source[i];
      if entry.1.File? {
        if failAt.Some? && failAt.value == copies {
          CopyFailsAt(source, target, i);
          return CopyFailed, target';
        }
        CopyIntoStep(target, done, entry);
        target' := Put(target', entry.0, entry.1);
        copied := copied + [entry.0];
        copies := copies + 1;
        done := done + [entry];
      }
      i := i + 1;
    }
    assert source[..i] == source;
    r := Copied(copied);
  }

  /** A copy that raises on the file at position `i` of the listing leaves the files before it copied. */
  lemma CopyFailsAt(source: Listing, target: Listing, i: nat)
    requires i < |source| && source[i].1.File?
    ensures var n := |RegularFiles(source[..i])|;
            CopyOutcome(source, target, Some(n)) == (CopyFailed, CopyInto(target, RegularFiles(source[..i])))
  {
    RegularFilesPrefix(source, i);
  }

  /** The regular files of a prefix ending before a file are a proper prefix of the regular files. */
  lemma {:induction false} RegularFilesPrefix(source: Listing, i: nat)
    requires i < |source| && source[i].1.File?
    ensures |RegularFiles(source[..i])| < |RegularFiles(source)|
    ensures RegularFiles(source)[..|RegularFiles(source[..i])|] == RegularFiles(source[..i])
  {
    var a, b := source[..i + 1], source[i + 1..];
    assert a + b == source;
    assert a[..i] == source[..i];
    RegularFilesAppend(a, b);
    assert RegularFiles(a) == RegularFiles(source[..i]) + [source[i]];
  }

  lemma CopyIntoStep(target: Listing, done: Listing, file: (string, Node))
    ensures CopyInto(target, done + [file]) == Put(CopyInto(target, done), file.0, file.1)
    ensures Keys(done + [file]) == Keys(done) + [file.0]
  {
    assert (done + [file])[..|done|] == done;
  }

  /** One more entry of the listing adds it to the regular files exactly when it is a file. */
  lemma RegularFilesStep(source: Listing, i: nat)
    requires i < |source|
    ensures RegularFiles(source[..i + 1]) == RegularFiles(source[..i]) + (if source[i].1.File? then [source[i]] else [])
  {
    assert source[..i + 1][..i] == source[..i];
  }

  lemma {:induction false} RegularFilesAppend(xs: Listing, ys: Listing)
    ensures RegularFiles(xs + ys) == RegularFiles(xs) + RegularFiles(ys)
    decreases |ys|
  {
    if ys == [] {
      assert xs + ys == xs;
    } else {
      var init := ys[..|ys| - 1];
      assert (xs + ys)[..|xs + ys| - 1] == xs + init;
      RegularFilesAppend(xs, init);
    }
  }

  /**
   * After copying files with distinct names, each copied name holds its file and every
   * other name of the target is as it was.
   */
  lemma {:induction false} CopyIntoGet(target: Listing, files: Listing, k: string)
    requires Distinct(Keys(files))
    ensures Get(CopyInto(target, files), k) == if HasKey(files, k) then Get(files, k) else Get(target, k)
    decreases |files|
  {
    if files != [] {
      var init, last := files[..|files| - 1], files[|files| - 1];
      assert files == init + [last];
      assert Keys(files) == Keys(init) + [last.0];
      assert Distinct(Keys(init));
      GetSome(init, last.0);
      CopyIntoGet(target, init, k);
      GetPut(CopyInto(target, init), last.0, last.1, k);
      GetAppend(init, last.0, last.1, k);
    }
  }

  // ---------------------------------------------------------------------------------
  // The manifest.

  datatype FileInfo = FileInfo(name: string, size: nat)

  datatype Manifest = Manifest(characterId: string, kind: string, files: seq<FileInfo>, animations: seq<string>)

  function FileInfos(files: Listing): (r: seq<FileInfo>)
    requires forall e :: e in files ==> e.1.File?
    ensures |r| == |files|
    ensures forall i :: 0 <= i < |r| ==> r[i] == FileInfo(files[i].0, files[i].1.size)
  {
    seq(|files|, i requires 0 <= i < |files| => FileInfo(files[i].0, files[i].1.size))
  }

  /**
   * `list(skeleton.get("animations", {}).keys())` over the directory's `skeleton.json`:
   * `[]` without that entry; None where reading raises (a folder of that name, text that
   * is not JSON, a document that is not a dict, or an `animations` value that is not one).
   */
  function SkeletonAnimations(listing: Listing): (r: Option<seq<string>>)
    ensures !HasKey(listing, "skeleton.json") ==> r == Some([])
    ensures r.Some? && r.value != [] ==>
      && HasKey(listing, "skeleton.json")
      && var e := Get(listing, "skeleton.json").value;
      && e.File? && e.content.Some? && e.content.value.Obj?
      && var a := Get(e.content.value.fields, "animations");
      && a.Some? && a.value.Obj? && r.value == Keys(a.value.fields)
    ensures HasKey(listing, "skeleton.json") ==>
      var e := Get(listing, "skeleton.json").value;
      && (e.Folder? || e.content.None? || !e.content.value.Obj? ==> r.None?)
      && (e.File? && e.content.Some? && e.content.value.Obj? ==>
            var a := Get(e.content.value.fields, "animations");
            && (a.None? ==> r == Some([]))
            && (a.Some? && a.value.Obj? ==> r == Some(Keys(a.value.fields)))
            && (a.Some? && !a.value.Obj? ==> r.None?))
  {
    var entry := Get(listing, "skeleton.json");
    if entry.None? then Some([])
    else if entry.value.Folder? || entry.value.content.None? || !entry.value.content.value.Obj? then None
    else
      var anims := Get(entry.value.content.value.fields, "animations");
      if anims.None? then Some([])
      else if anims.value.Obj? then Some(Keys(anims.value.fields))
      else None
  }

  function FileInfoJson(f: FileInfo): Json
  {
    Obj([("name", Str(f.name)), ("size", Num(f.size as real))])
  }

  function ManifestJson(m: Manifest): Json
  {
    Obj([
      ("character_id", Str(m.characterId)),
      ("type", Str(m.kind)),
      ("files", Arr(seq(|m.files|, i requires 0 <= i < |m.files| => FileInfoJson(m.files[i])))),
      ("animations", Arr(seq(|m.animations|, i requires 0 <= i < |m.animations| => Str(m.animations[i]))))
    ])
  }

  datatype ManifestResult = ManifestWritten(manifest: Manifest, listing: Listing) | ManifestCrash

  /**
   * What `create_manifest` returns and leaves in the directory: the listing of regular
   * files taken before `manifest.json` is written, the skeleton's animation names, and
   * the directory with `manifest.json` (of `manifestSize` bytes) written; a crash where
   * reading `skeleton.json` raises.
   */
  function ManifestOutcome(characterId: string, listing: Listing, manifestSize: nat): (r: ManifestResult)
    ensures r.ManifestCrash? <==> SkeletonAnimations(listing).None?
    ensures r.ManifestWritten? ==>
      && r.manifest.characterId == characterId
      && r.manifest.kind == "spine"
      && |r.manifest.files| == |RegularFiles(listing)|
      && (forall i :: 0 <= i < |r.manifest.files| ==>
            r.manifest.files[i] == FileInfo(RegularFiles(listing)[i].0, RegularFiles(listing)[i].1.size))
      && r.manifest.animations == SkeletonAnimations(listing).value
      && Get(r.listing, "manifest.json") == Some(File(manifestSize, Some(ManifestJson(r.manifest))))
      && (forall k :: k != "manifest.json" ==> Get(r.listing, k) == Get(listing, k))
  {
    match SkeletonAnimations(listing)
    case None => ManifestCrash
    case Some(names) =>
      var m := Manifest(characterId, "spine", FileInfos(RegularFiles(listing)), names);
      var written := Put(listing, "manifest.json", File(manifestSize, Some(ManifestJson(m))));
      forall k ensures Get(written, k) == if k == "manifest.json" then Some(File(manifestSize, Some(ManifestJson(m)))) else Get(listing, k) {
        GetPut(listing, "manifest.json", File(manifestSize, Some(ManifestJson(m))), k);
      }
      ManifestWritten(m, written)
  }

  /** `create_manifest`: append one `{name, size}` per regular file, read the animations, write the file. */
  method CreateManifest(characterId: string, listing: Listing, manifestSize: nat) returns (r: ManifestResult)
    ensures r == ManifestOutcome(characterId, listing, manifestSize)
  {
    var files: seq<FileInfo> := [];
    var i := 0;
    while i < |listing|
      invariant 0 <= i <= |listing|
      invariant files == FileInfos(RegularFiles(listing[..i]))
    {
      assert listing[..i + 1][..i] == listing[..i];
      var (name, node) := listing[i];
      if node.File? {
        files := files + [FileInfo(name, node.size)];
      }
      i := i + 1;
    }
    assert listing[..i] == listing;
    var animations := SkeletonAnimations(listing);
    if animations.None? {
      return ManifestCrash;
    }
    var manifest := Manifest(characterId, "spine", files, animations.value);
    var written := Put(listing, "manifest.json", File(manifestSize, Some(ManifestJson(manifest))));
    r := ManifestWritten(manifest, written);
  }

  // ---------------------------------------------------------------------------------
  // `main`.

  /**
   * The parsed command line. An `--output` or `--game` given as the empty string counts
   * as not given, as Python's truth test on it does; an empty `--output` is the empty path.
   */
  datatype ExportArgs = ExportArgs(input: Path, game: Option<string>, output: Option<Path>,
                                   optimize: bool, thumbnail: bool)

  /** `input_dir.name`. */
  function CharacterId(args: ExportArgs): string
  {
    Name(args.input)
  }

  /**
   * The target directory: `--output` first, then `<repos>/<game>/spine/<id>`, then
   * `<input>/export`. `reposDir` stands for the directory four levels above the script.
   * An empty character id (an input path with no name) adds no component, as `pathlib`
   * drops an empty segment.
   */
  function TargetDir(args: ExportArgs, reposDir: Path): (t: Path)
    ensures args.output.Some? && args.output.value != [] ==> t == args.output.value
    ensures (args.output.None? || args.output.value == []) && args.game.Some? && args.game.value != "" ==>
              t == reposDir + [args.game.value, "spine"] + (if CharacterId(args) == "" then [] else [CharacterId(args)])
    ensures (args.output.None? || args.output.value == []) && (args.game.None? || args.game.value == "") ==>
              t == args.input + ["export"]
  {
    if args.output.Some? && args.output.value != [] then args.output.value
    else if args.game.Some? && args.game.value != "" then
      reposDir + [args.game.value, "spine"] + (if Name(args.input) == "" then [] else [Name(args.input)])
    else args.input + ["export"]
  }

  /** `generate_thumbnail`: a placeholder that always reports failure. */
  const ThumbnailResult := false

  /** `optimize_images`: a placeholder that always reports success with nothing optimised. */
  const OptimizeResult := (true, 0)

  datatype ExportOutcome =
    | NoSpineDir
    | CopyAborted(target: Path, listing: Listing)
    | ManifestAborted(target: Path, copied: seq<string>)
    | Exported(target: Path, copied: seq<string>, manifest: Manifest, listing: Listing)

  /**
   * `main`: nothing without `<input>/spine`; otherwise copy into the target, stop if that
   * fails, run the placeholders the flags ask for (they change nothing), and write the
   * manifest over the target directory. `spineListing` is the spine directory's listing,
   * `targetListing` the target's before the copy (the two directories are distinct).
   */
  method ExportMain(args: ExportArgs, reposDir: Path, spineExists: bool, spineListing: Listing,
                    targetListing: Listing, failAt: Option<nat>, manifestSize: nat)
    returns (o: ExportOutcome)
    ensures !spineExists <==> o == NoSpineDir
    ensures spineExists ==>
      var target := TargetDir(args, reposDir);
      var (copy, afterCopy) := CopyOutcome(spineListing, targetListing, failAt);
      && (copy.CopyFailed? ==> o == CopyAborted(target, afterCopy))
      && (copy.Copied? ==>
            match ManifestOutcome(CharacterId(args), afterCopy, manifestSize)
            case ManifestCrash => o == ManifestAborted(target, copy.files)
            case ManifestWritten(m, l) => o == Exported(target, copy.files, m, l))
  {
    if !spineExists {
      return NoSpineDir;
    }
    var characterId := CharacterId(args);
    var target := TargetDir(args, reposDir);
    var result, listing := CopySpineAssets(spineListing, targetListing, failAt);
    if result.CopyFailed? {
      return CopyAborted(target, listing);
    }
    // `--optimize` and `--thumbnail` call placeholders (`OptimizeResult`, `ThumbnailResult`)
    // that touch nothing, so neither flag changes the outcome.
    var manifest := CreateManifest(characterId, listing, manifestSize);
    if manifest.ManifestCrash? {
      return ManifestAborted(target, result.files);
    }
    o := Exported(target, result.files, manifest.manifest, manifest.listing);
  }

  /**
   * A fresh export directory after a successful copy: the manifest lists exactly the
   * copied files, with their sizes, in copy order.
   */
  lemma FreshExportManifest(characterId: string, source: Listing, manifestSize: nat)
    requires Distinct(Keys(source))
    requires SkeletonAnimations(CopyInto([], RegularFiles(source))).Some?
    ensures var r := ManifestOutcome(characterId, CopyInto([], RegularFiles(source)), manifestSize);
            r.ManifestWritten? && r.manifest.files == FileInfos(RegularFiles(source))
  {
    var files := RegularFiles(source);
    DistinctRegularFiles(source);
    CopyIntoEmpty(files);
    RegularFilesOfFiles(files);
  }

  lemma {:induction false} RegularFilesOfFiles(files: Listing)
    requires forall e :: e in files ==> e.1.File?
    ensures RegularFiles(files) == files
    decreases |files|
  {
    if files != [] {
      var init := files[..|files| - 1];
      assert forall e :: e in init ==> e in files;
      RegularFilesOfFiles(init);
      assert init + [files[|files| - 1]] == files;
    }
  }

  /** Copying distinct names into an empty directory gives the copied listing itself. */
  lemma {:induction false} CopyIntoEmpty(files: Listing)
    requires Distinct(Keys(files))
    ensures CopyInto([], files) == files
    decreases |files|
  {
    if files != [] {
      var init, last := files[..|files| - 1], files[|files| - 1];
      assert files == init + [last];
      assert Keys(files) == Keys(init) + [last.0];
      CopyIntoEmpty(init);
      GetSome(init, last.0);
      PutNew(init, last.0, last.1);
    }
  }

  lemma {:induction false} PutNew<V>(d: seq<(string, V)>, k: string, v: V)
    requires k !in Keys(d)
    ensures Put(d, k, v) == d + [(k, v)]
  {
    if d != [] {
      assert Keys(d) == [d[0].0] + Keys(d[1..]);
      PutNew(d[1..], k, v);
      assert d == [d[0]] + d[1..];
    }
  }

  lemma {:induction false} DistinctRegularFiles(source: Listing)
    requires Distinct(Keys(source))
    ensures Distinct(Keys(RegularFiles(source)))
    decreases |source|
  {
    if source != [] {
      var init, last := source[..|source| - 1], source[|source| - 1];
      assert Keys(source) == Keys(init) + [last.0];
      assert Distinct(Keys(init));
      DistinctRegularFiles(init);
      if last.1.File? {
        var r := RegularFiles(init);
        forall e | e in r ensures e.0 != last.0 {
          var j :| 0 <= j < |init| && init[j] == e;
        }
        assert Keys(r + [last]) == Keys(r) + [last.0];
        forall i | 0 <= i < |r| ensures Keys(r)[i] != last.0 {
          assert r[i] in r;
        }
      }
    }
  }
}
