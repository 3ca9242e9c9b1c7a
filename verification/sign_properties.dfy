/**
 * What the signing step's phases sign, proved about the functions that
 * say which commands each phase spawns: which files each phase picks,
 * that the step finishes once every tool is found, and how an archive is
 * extracted and repacked.
 */
module SignProperties {

  import opened Wrappers
  import opened Paths
  import opened Runtime
  import opened Bundle
  import opened BuildContext
  import opened MacSign

  // ---------------------------------------------------------------------------
  // The loops against a list of targets

  /** Signing a list in two parts is signing the first part, then the second unless the first raised. */
  lemma {:induction false} SignEachAppend(sg: Signer, a: seq<Path>, b: seq<Path>, cwd: Path)
    ensures SignEach(sg, a + b, cwd) == Then(SignEach(sg, a, cwd), SignEach(sg, b, cwd))
    decreases |a|
  {
    if a == [] {
      assert a + b == b;
      ThenDone(SignEach(sg, b, cwd));
    } else {
      assert (a + b)[1..] == a[1..] + b;
      SignEachAppend(sg, a[1..], b, cwd);
      ThenAssociative(SignRun(sg, a[0], cwd), SignEach(sg, a[1..], cwd), SignEach(sg, b, cwd));
    }
  }

  /** With `codesign` found, each target gets exactly one command, in the order of the list. */
  lemma {:induction false} SignEachWithTool(sg: Signer, targets: seq<Path>, cwd: Path)
    requires sg.codesign.Some?
    ensures SignEach(sg, targets, cwd).completed
    ensures |SignEach(sg, targets, cwd).spawned| == |targets|
    ensures forall k :: 0 <= k < |targets| ==> SignEach(sg, targets, cwd).spawned[k] == SignCommand(sg, targets[k], cwd)
    decreases |targets|
  {
    if targets != [] {
      SignEachWithTool(sg, targets[1..], cwd);
      forall k | 0 < k < |targets|
        ensures SignEach(sg, targets, cwd).spawned[k] == SignCommand(sg, targets[k], cwd)
      {
        assert targets[1..][k - 1] == targets[k];
      }
    }
  }

  /** Without `codesign`, the first target raises and nothing is recorded. */
  lemma SignEachWithoutTool(sg: Signer, targets: seq<Path>, cwd: Path)
    requires sg.codesign.None?
    ensures SignEach(sg, targets, cwd) == Run([], targets == [])
  {
  }

  /** With `codesign` found, a path is signed exactly when it is one of the targets. */
  lemma SignedExactly(sg: Signer, targets: seq<Path>, cwd: Path, p: Path)
    requires sg.codesign.Some?
    ensures SignCommand(sg, p, cwd) in SignEach(sg, targets, cwd).spawned <==> p in targets
  {
    SignEachWithTool(sg, targets, cwd);
    var spawned := SignEach(sg, targets, cwd).spawned;
    if SignCommand(sg, p, cwd) in spawned {
      var k :| 0 <= k < |spawned| && spawned[k] == SignCommand(sg, p, cwd);
      assert SignCommand(sg, targets[k], cwd).argv[6] == targets[k];
      assert SignCommand(sg, p, cwd).argv[6] == p;
    }
    if p in targets {
      var k :| 0 <= k < |targets| && targets[k] == p;
      assert spawned[k] == SignCommand(sg, p, cwd);
    }
  }

  // ---------------------------------------------------------------------------
  // The loops that test each path, against the filters that pick the targets

  /** The loop over found paths signs exactly their regular files, in order. */
  lemma {:induction false} FilesRunSignsRegularFiles(sg: Signer, found: seq<Found>, cwd: Path)
    ensures FilesRun(sg, found, cwd) == SignEach(sg, RegularFiles(found), cwd)
    decreases |found|
  {
    if found != [] {
      FilesRunSignsRegularFiles(sg, found[1..], cwd);
      if found[0].entry.File? {
        SignEachCons(sg, found[0].path, RegularFiles(found[1..]), cwd);
      } else {
        assert RegularFiles(found) == RegularFiles(found[1..]);
        ThenDone(FilesRun(sg, found[1..], cwd));
      }
    }
  }

  /** The loop of `_sign_extra` signs exactly the listed regular files, in list order. */
  lemma {:induction false} ExtrasRunSignsRegular(sg: Signer, extras: seq<Path>, regular: set<Path>, cwd: Path)
    ensures ExtrasRun(sg, extras, regular, cwd) == SignEach(sg, RegularOf(extras, regular), cwd)
    decreases |extras|
  {
    if extras != [] {
      ExtrasRunSignsRegular(sg, extras[1..], regular, cwd);
      if extras[0] in regular {
        SignEachCons(sg, extras[0], RegularOf(extras[1..], regular), cwd);
      } else {
        assert RegularOf(extras, regular) == RegularOf(extras[1..], regular);
        ThenDone(ExtrasRun(sg, extras[1..], regular, cwd));
      }
    }
  }

  /** `_sign_extra` with `codesign` found: it completes and signs a path exactly when it is listed and is a regular file. */
  lemma ExtrasSignedExactly(sg: Signer, extras: seq<Path>, regular: set<Path>, cwd: Path, p: Path)
    requires sg.codesign.Some?
    ensures ExtrasRun(sg, extras, regular, cwd).completed
    ensures SignCommand(sg, p, cwd) in ExtrasRun(sg, extras, regular, cwd).spawned <==> p in extras && p in regular
  {
    ExtrasRunSignsRegular(sg, extras, regular, cwd);
    SignEachWithTool(sg, RegularOf(extras, regular), cwd);
    SignedExactly(sg, RegularOf(extras, regular), cwd, p);
    RegularOfMembers(extras, regular, p);
  }

  /**
   * `_sign_binaries` with `codesign` found: it completes and signs a path
   * exactly when it names a regular file right inside the directory;
   * subdirectories and symbolic links are passed over.
   */
  lemma BinariesSignedExactly(sg: Signer, dir: Path, listing: seq<Entry>, cwd: Path, p: Path)
    requires sg.codesign.Some?
    ensures BinariesRun(sg, dir, listing, cwd).completed
    ensures SignCommand(sg, p, cwd) in BinariesRun(sg, dir, listing, cwd).spawned
        <==> exists k :: 0 <= k < |listing| && listing[k].File? && p == Join(dir, listing[k].name)
  {
    var found := Matching(dir, listing, AnyName);
    FilesRunSignsRegularFiles(sg, found, cwd);
    SignEachWithTool(sg, RegularFiles(found), cwd);
    SignedExactly(sg, RegularFiles(found), cwd, p);
    RegularFilesMembers(found, p);
    if p in RegularFiles(found) {
      var f :| f in found && f.entry.File? && f.path == p;
      MatchingMembers(dir, listing, AnyName, f);
    }
    if exists k :: 0 <= k < |listing| && listing[k].File? && p == Join(dir, listing[k].name) {
      var k :| 0 <= k < |listing| && listing[k].File? && p == Join(dir, listing[k].name);
      MatchingMembers(dir, listing, AnyName, Found(p, listing[k]));
    }
  }

  // ---------------------------------------------------------------------------
  // Frameworks and shared libraries

  /** The regular files of each group in turn. */
  function RegularFilesOfEach(contents: seq<seq<Found>>): seq<Path> {
    if contents == [] then [] else RegularFiles(contents[0]) + RegularFilesOfEach(contents[1..])
  }

  /** A path is among the regular files of the groups exactly when some group holds it as a regular file. */
  lemma {:induction false} RegularFilesOfEachMembers(contents: seq<seq<Found>>, p: Path)
    ensures p in RegularFilesOfEach(contents)
        <==> exists k, f :: 0 <= k < |contents| && f in contents[k] && f.entry.File? && f.path == p
    decreases |contents|
  {
    if contents != [] {
      RegularFilesOfEachMembers(contents[1..], p);
      RegularFilesMembers(contents[0], p);
      if exists k, f :: 0 < k < |contents| && f in contents[k] && f.entry.File? && f.path == p {
        var k: int, f: Found :| 0 < k < |contents| && f in contents[k] && f.entry.File? && f.path == p;
        assert contents[1..][k - 1] == contents[k];
      }
      if exists k, f :: 0 <= k < |contents[1..]| && f in contents[1..][k] && f.entry.File? && f.path == p {
        var k: int, f: Found :| 0 <= k < |contents[1..]| && f in contents[1..][k] && f.entry.File? && f.path == p;
        assert contents[1..][k] == contents[k + 1];
      }
    }
  }

  /** The outer loop of `_sign_framework` signs the regular files of each framework in turn. */
  lemma {:induction false} FrameworksRunSignsEach(sg: Signer, contents: seq<seq<Found>>, cwd: Path)
    ensures FrameworksRun(sg, contents, cwd) == SignEach(sg, RegularFilesOfEach(contents), cwd)
    decreases |contents|
  {
    if contents != [] {
      FrameworksRunSignsEach(sg, contents[1..], cwd);
      FilesRunSignsRegularFiles(sg, contents[0], cwd);
      SignEachAppend(sg, RegularFiles(contents[0]), RegularFilesOfEach(contents[1..]), cwd);
    }
  }

  /** The outer loop of `_sign_framework` with `codesign` found: it signs exactly the regular files of the groups. */
  lemma FrameworksSignedExactly(sg: Signer, contents: seq<seq<Found>>, cwd: Path, p: Path)
    requires sg.codesign.Some?
    ensures FrameworksRun(sg, contents, cwd).completed
    ensures SignCommand(sg, p, cwd) in FrameworksRun(sg, contents, cwd).spawned
        <==> exists k, f :: 0 <= k < |contents| && f in contents[k] && f.entry.File? && f.path == p
  {
    FrameworksRunSignsEach(sg, contents, cwd);
    SignEachWithTool(sg, RegularFilesOfEach(contents), cwd);
    SignedExactly(sg, RegularFilesOfEach(contents), cwd, p);
    RegularFilesOfEachMembers(contents, p);
  }

  /** A path is a regular file of some group of `ContentsOf(fws)` exactly when some framework of `fws` holds it. */
  lemma ContentsOfMembers(fws: seq<Found>, p: Path)
    ensures (exists k: int, f: Found :: 0 <= k < |ContentsOf(fws)| && f in ContentsOf(fws)[k] && f.entry.File? && f.path == p)
        <==> exists fw, f :: fw in fws && f in FrameworkContents(fw) && f.entry.File? && f.path == p
  {
    var contents := ContentsOf(fws);
    if exists k: int, f: Found :: 0 <= k < |contents| && f in contents[k] && f.entry.File? && f.path == p {
      var k: int, f: Found :| 0 <= k < |contents| && f in contents[k] && f.entry.File? && f.path == p;
      assert fws[k] in fws && f in FrameworkContents(fws[k]);
    }
    if exists fw: Found, f: Found :: fw in fws && f in FrameworkContents(fw) && f.entry.File? && f.path == p {
      var fw: Found, f: Found :| fw in fws && f in FrameworkContents(fw) && f.entry.File? && f.path == p;
      var k :| 0 <= k < |fws| && fws[k] == fw;
      assert f in contents[k];
    }
  }

  /**
   * `_sign_framework` with `codesign` found: it completes and signs a path
   * exactly when it is a regular file somewhere inside a `*.framework`
   * directory somewhere below `base`.
   */
  lemma FrameworkSignedExactly(sg: Signer, base: Path, es: seq<Entry>, cwd: Path, p: Path)
    requires sg.codesign.Some?
    ensures FrameworkRun(sg, base, es, cwd).completed
    ensures SignCommand(sg, p, cwd) in FrameworkRun(sg, base, es, cwd).spawned
        <==> exists fw, f :: fw in Glob(base, es, FrameworkPattern) && f in FrameworkContents(fw)
                          && f.entry.File? && f.path == p
  {
    var fws := Glob(base, es, FrameworkPattern);
    FrameworksSignedExactly(sg, ContentsOf(fws), cwd, p);
    ContentsOfMembers(fws, p);
  }

  /** `_sign_shared_libs` signs every path the `*.so` glob yields, then every path the `*.dylib` glob yields. */
  lemma SharedLibsInGlobOrder(sg: Signer, base: Path, es: seq<Entry>, cwd: Path)
    ensures SharedLibsRun(sg, base, es, cwd)
         == SignEach(sg, PathsOf(Glob(base, es, Suffix(".so"))) + PathsOf(Glob(base, es, Suffix(".dylib"))), cwd)
  {
    var so, dylib := PathsOf(Glob(base, es, Suffix(".so"))), PathsOf(Glob(base, es, Suffix(".dylib")));
    var patterns := SharedLibraryPatterns;
    assert patterns[0] == Suffix(".so") && patterns[1..][0] == Suffix(".dylib") && patterns[1..][1..] == [];
    assert LibsRun(sg, base, es, patterns[1..], cwd) == Then(SignEach(sg, dylib, cwd), Done());
    ThenDone(SignEach(sg, dylib, cwd));
    assert SharedLibsRun(sg, base, es, cwd) == Then(SignEach(sg, so, cwd), SignEach(sg, dylib, cwd));
    SignEachAppend(sg, so, dylib, cwd);
  }

  /**
   * With `codesign` found, `_sign_shared_libs` completes and signs every
   * `*.so` or `*.dylib` it finds, whatever kind of entry it is: a symbolic
   * link named `*.dylib` right inside `base` is signed, where the other
   * phases pass links over.
   */
  lemma SymlinkedLibrarySigned(sg: Signer, base: Path, es: seq<Entry>, cwd: Path, k: nat)
    requires sg.codesign.Some?
    requires k < |es| && es[k].Symlink? && EndsWith(es[k].name, ".dylib")
    ensures SharedLibsRun(sg, base, es, cwd).completed
    ensures SignCommand(sg, Join(base, es[k].name), cwd) in SharedLibsRun(sg, base, es, cwd).spawned
  {
    var so, dylib := Glob(base, es, Suffix(".so")), Glob(base, es, Suffix(".dylib"));
    var p := Join(base, es[k].name);
    SharedLibsInGlobOrder(sg, base, es, cwd);
    MatchingFindsDirectEntry(base, es, Suffix(".dylib"), k);
    var j :| 0 <= j < |dylib| && dylib[j] == Found(p, es[k]);
    PathsOfAt(so);
    PathsOfAt(dylib);
    assert (PathsOf(so) + PathsOf(dylib))[|so| + j] == p;
    SignEachWithTool(sg, PathsOf(so) + PathsOf(dylib), cwd);
    SignedExactly(sg, PathsOf(so) + PathsOf(dylib), cwd, p);
  }

  // ---------------------------------------------------------------------------
  // Bundled archives

  /** Every tool the library phases spawn is found. */
  predicate ToolsFound(sg: Signer, w: Workshop) {
    sg.codesign.Some? && w.unzip.Some? && w.zip.Some?
  }

  /** With every tool found, `_sign_libraries` completes, however deeply archives nest. */
  lemma {:induction false} LibrariesComplete(sg: Signer, w: Workshop, base: Path, es: seq<Entry>, cwd: Path, depth: nat)
    requires ToolsFound(sg, w)
    ensures LibrariesRun(sg, w, base, es, cwd, depth).completed
    decreases ListSize(es), 3, 0
  {
    FrameworkSignedExactly(sg, base, es, cwd, base);
    SharedLibsInGlobOrder(sg, base, es, cwd);
    SignEachWithTool(sg, PathsOf(Glob(base, es, Suffix(".so"))) + PathsOf(Glob(base, es, Suffix(".dylib"))), cwd);
    BundledZipsComplete(sg, w, base, es, "zip", cwd, depth);
    BundledZipsComplete(sg, w, base, es, "whl", cwd, depth);
  }

  lemma {:induction false} BundledZipsComplete(sg: Signer, w: Workshop, base: Path, es: seq<Entry>, ext: string, cwd: Path, depth: nat)
    requires ToolsFound(sg, w)
    ensures BundledZipsRun(sg, w, base, es, ext, cwd, depth).completed
    decreases ListSize(es), 2, 0
  {
    GlobBounded(base, es, Suffix("." + ext));
    ZipsComplete(sg, w, Glob(base, es, Suffix("." + ext)), cwd, depth, ListSize(es));
  }

  lemma {:induction false} ZipsComplete(sg: Signer, w: Workshop, found: seq<Found>, cwd: Path, depth: nat, bound: nat)
    requires ToolsFound(sg, w)
    requires forall f :: f in found ==> EntrySize(f.entry) <= bound
    ensures ZipsRun(sg, w, found, cwd, depth, bound).completed
    decreases bound, 1, |found|
  {
    if found != [] {
      assert found[0] in found;
      ZipCycleComplete(sg, w, found[0], cwd, depth);
      ZipsComplete(sg, w, found[1..], cwd, depth, bound);
    }
  }

  lemma {:induction false} ZipCycleComplete(sg: Signer, w: Workshop, archive: Found, cwd: Path, depth: nat)
    requires ToolsFound(sg, w)
    ensures ZipCycle(sg, w, archive, cwd, depth).completed
    decreases EntrySize(archive.entry), 0, 0
  {
    LibrariesComplete(sg, w, Workspace(w.buildDir, depth), Extracted(archive.entry), cwd, depth + 1);
  }

  /** An extract-sign-repack cycle begins by extracting the archive into its scratch directory, from the current directory. */
  lemma ZipCycleStartsWithUnzip(sg: Signer, w: Workshop, archive: Found, cwd: Path, depth: nat)
    requires w.unzip.Some?
    ensures var r := ZipCycle(sg, w, archive, cwd, depth);
      |r.spawned| >= 1 && r.spawned[0] == Command([w.unzip.value, archive.path, "-d", Workspace(w.buildDir, depth)], cwd)
  {
    var td := Workspace(w.buildDir, depth);
    var u := SpawnRun(w.unzip, UnzipArgs(archive.path, td), cwd);
    var z := SpawnRun(w.zip, ZipArgs(Absolute(cwd, archive.path)), Absolute(cwd, td));
    ThenEnds(u, LibrariesRun(sg, w, td, Extracted(archive.entry), cwd, depth + 1), z);
    assert [w.unzip.value] + UnzipArgs(archive.path, td) == [w.unzip.value, archive.path, "-d", td];
  }

  /** A cycle that completes ends by repacking the archive, under its absolute path, from inside the scratch directory. */
  lemma ZipCycleEndsWithZip(sg: Signer, w: Workshop, archive: Found, cwd: Path, depth: nat)
    requires w.unzip.Some? && ZipCycle(sg, w, archive, cwd, depth).completed
    ensures var r := ZipCycle(sg, w, archive, cwd, depth);
      w.zip.Some? && |r.spawned| >= 1
      && r.spawned[|r.spawned| - 1]
         == Command([w.zip.value, "-qyr", Absolute(cwd, archive.path), "."], Absolute(cwd, Workspace(w.buildDir, depth)))
  {
    var td := Workspace(w.buildDir, depth);
    var u := SpawnRun(w.unzip, UnzipArgs(archive.path, td), cwd);
    var z := SpawnRun(w.zip, ZipArgs(Absolute(cwd, archive.path)), Absolute(cwd, td));
    ThenEnds(u, LibrariesRun(sg, w, td, Extracted(archive.entry), cwd, depth + 1), z);
    assert [w.zip.value] + ZipArgs(Absolute(cwd, archive.path)) == [w.zip.value, "-qyr", Absolute(cwd, archive.path), "."];
  }

  /**
   * The repack writes back to the archive that was extracted: its archive
   * argument, resolved in the directory `zip` runs in, is the archive's
   * path resolved in the caller's directory, although `zip` runs in the
   * scratch directory `unzip` extracted into.
   */
  lemma RepackTargetsExtractedArchive(sg: Signer, w: Workshop, archive: Found, cwd: Path, depth: nat)
    requires w.unzip.Some? && IsAbsolute(cwd)
    requires ZipCycle(sg, w, archive, cwd, depth).completed
    ensures var r := ZipCycle(sg, w, archive, cwd, depth);
      var unzip, zip := r.spawned[0], r.spawned[|r.spawned| - 1];
      zip.cwd == Absolute(unzip.cwd, unzip.argv[3])
      && Absolute(zip.cwd, zip.argv[2]) == Absolute(unzip.cwd, unzip.argv[1])
  {
    ZipCycleStartsWithUnzip(sg, w, archive, cwd, depth);
    ZipCycleEndsWithZip(sg, w, archive, cwd, depth);
    AbsoluteIsStable(cwd, Absolute(cwd, Workspace(w.buildDir, depth)), archive.path);
  }

  // ---------------------------------------------------------------------------
  // The whole step

  /** The bundle the step signs, once a nice name is known. */
  function BundleOf(f: Fields, s: Surroundings): Path
    requires NiceNameOf(f.launch.givenNiceName, f.build.srcMetadata).Some?
  {
    BundlePath(s.buildDir, NiceNameOf(f.launch.givenNiceName, f.build.srcMetadata).value)
  }

  /**
   * With every tool found, the five phases complete: the extras, the
   * executables and the libraries are signed first, then the bundle itself,
   * and `spctl` assesses the bundle last.
   */
  lemma PhasesComplete(sg: Signer, s: Surroundings, extras: seq<Path>, binariesDir: Path, bundle: Path, cwd: Path)
    requires ToolsFound(sg, WorkshopOf(s)) && s.spctl.Some?
    ensures PhasesRun(sg, s, extras, binariesDir, bundle, cwd)
         == Run(ExtrasRun(sg, extras, s.regular, cwd).spawned
                + BinariesRun(sg, binariesDir, s.binaries, cwd).spawned
                + LibrariesRun(sg, WorkshopOf(s), bundle, s.bundle, cwd, 0).spawned
                + [SignCommand(sg, bundle, cwd), Command([s.spctl.value] + AssessArgs(bundle), cwd)], true)
  {
    var e := ExtrasRun(sg, extras, s.regular, cwd);
    var b := BinariesRun(sg, binariesDir, s.binaries, cwd);
    var l := LibrariesRun(sg, WorkshopOf(s), bundle, s.bundle, cwd, 0);
    var g := SignRun(sg, bundle, cwd);
    var a := AssessRun(s.spctl, bundle, cwd);
    ExtrasRunSignsRegular(sg, extras, s.regular, cwd);
    SignEachWithTool(sg, RegularOf(extras, s.regular), cwd);
    BinariesSignedExactly(sg, binariesDir, s.binaries, cwd, bundle);
    LibrariesComplete(sg, WorkshopOf(s), bundle, s.bundle, cwd, 0);
    ThenCompleted(g, a);
    ThenCompleted(l, Then(g, a));
    ThenCompleted(b, Then(l, Then(g, a)));
    ThenCompleted(e, Then(b, Then(l, Then(g, a))));
    assert g.spawned + a.spawned == [SignCommand(sg, bundle, cwd), Command([s.spctl.value] + AssessArgs(bundle), cwd)];
    Appended(e.spawned, b.spawned, l.spawned + (g.spawned + a.spawned));
    Appended(e.spawned + b.spawned, l.spawned, g.spawned + a.spawned);
  }

  /** With every prerequisite met and every tool found, the step finishes, spawning what its phases spawn. */
  lemma SigningFinishes(f: Fields, s: Surroundings, extras: Option<seq<Path>>, cwd: Path)
    requires ReachesPhases(f, s, extras)
    requires s.codesign.Some? && s.unzip.Some? && s.zip.Some? && s.spctl.Some?
    ensures Signing(f, s, extras, cwd)
         == Effect(Finished, PhasesRun(SignerOf(s), s, Rebased(SitePackages(f.build), extras.value),
                                       BinariesDir(f.build), BundleOf(f, s), cwd).spawned)
    ensures PhasesRun(SignerOf(s), s, Rebased(SitePackages(f.build), extras.value), BinariesDir(f.build), BundleOf(f, s), cwd).completed
  {
    PhasesComplete(SignerOf(s), s, Rebased(SitePackages(f.build), extras.value), BinariesDir(f.build), BundleOf(f, s), cwd);
  }

  /** The step raises for a missing tool only when one of the four tools is indeed missing. */
  lemma NoToolMeansMissingTool(f: Fields, s: Surroundings, extras: Option<seq<Path>>, cwd: Path)
    requires Signing(f, s, extras, cwd).outcome == Raised(NoTool)
    ensures s.codesign.None? || s.unzip.None? || s.zip.None? || s.spctl.None?
  {
    if s.codesign.Some? && s.unzip.Some? && s.zip.Some? && s.spctl.Some? {
      SigningFinishes(f, s, extras, cwd);
    }
  }

  /**
   * Every early exit happens before anything is spawned: the step is
   * skipped exactly when no identity is set, and it raises for anything
   * but a missing tool with nothing recorded.
   */
  lemma EarlyExitsSpawnNothing(f: Fields, s: Surroundings, extras: Option<seq<Path>>, cwd: Path)
    ensures Signing(f, s, extras, cwd).outcome == Skipped <==> IdentityVariable !in s.environ
    ensures Signing(f, s, extras, cwd).outcome != Finished && Signing(f, s, extras, cwd).outcome != Raised(NoTool)
        ==> Signing(f, s, extras, cwd).spawned == []
    ensures Signing(f, s, extras, cwd).spawned != [] ==> ReachesPhases(f, s, extras)
  {
  }

  /** Rewriting the list twice is rewriting it once, when the site-packages directory is absolute. */
  lemma RebasedIdempotent(site: Path, paths: seq<Path>)
    requires IsAbsolute(site)
    ensures Rebased(site, Rebased(site, paths)) == Rebased(site, paths)
  {
  }
}
