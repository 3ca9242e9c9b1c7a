/**
 * The `mac.sign-app-bundle` step: it signs, with `codesign`, the extra
 * files the project lists, the runtime's executables, the frameworks and
 * shared libraries inside the application bundle and inside every archive
 * bundled there (which it extracts, signs and repacks, recursively), then
 * the bundle itself, and finally asks `spctl` to assess the result.
 *
 * The functions say which commands each phase spawns, in which order and
 * in which directory; the class `SignStep` performs the phases one spawn
 * at a time and is proved to spawn exactly those.
 */
module MacSign {

  import opened Wrappers
  import opened Paths
  import opened Runtime
  import opened Bundle
  import opened BuildContext

  /** The environment variable holding the signing identity. */
  const IdentityVariable := "PUP_SIGNING_IDENTITY"

  /** The entitlements file, shipped next to the step. */
  const EntitlementsFile := "entitlements.plist"

  /** The prefix of the scratch directories archives are extracted into. */
  const ScratchPrefix := "sign-zip-"

  const FrameworkPattern := Suffix(".framework")

  /** The shared-library globs, in the order they are signed. */
  const SharedLibraryPatterns := [Suffix(".so"), Suffix(".dylib")]

  /** The step is usable when packaging on macOS for macOS. */
  predicate UsableIn(t: Target) {
    t.pkgPlatform == "darwin" && t.tgtPlatform == "darwin"
  }

  /** The step is usable exactly when packaging on and for macOS; never across platforms. */
  lemma UsableExactly(t: Target)
    ensures UsableIn(t) <==> t.pkgPlatform == "darwin" && t.tgtPlatform == "darwin"
    ensures t.pkgPlatform != t.tgtPlatform ==> !UsableIn(t)
  {
  }

  /** A built context packages on and for one platform, so it uses the step exactly when that platform is macOS. */
  lemma UsableForBuiltContext(a: Arguments, setup: Option<Setup>, fs: set<Path>, cwd: Path)
    requires Construct(a, setup, fs, cwd).Success?
    ensures UsableIn(Construct(a, setup, fs, cwd).value.target) <==> a.platform == "darwin"
  {
    ConstructTarget(a, setup, fs, cwd);
  }

  /** What every `codesign` call uses: the tool (`shutil.which`'s answer), the identity and the entitlements file. */
  datatype Signer = Signer(codesign: Option<Path>, identity: string, entitlements: Path)

  /** The archive tools and the dispatcher's build directory, where scratch directories go. */
  datatype Workshop = Workshop(unzip: Option<Path>, zip: Option<Path>, buildDir: Path)

  // ---------------------------------------------------------------------------
  // What each phase spawns

  /** The arguments of `_sign` after the executable. */
  function CodesignArgs(sg: Signer, target: Path): seq<string> {
    ["--sign", sg.identity, "--entitlements", sg.entitlements, "--deep", target,
     "--force", "--options", "runtime", "--timestamp"]
  }

  /** `_sign(target)`. */
  function SignRun(sg: Signer, target: Path, cwd: Path): Run {
    SpawnRun(sg.codesign, CodesignArgs(sg, target), cwd)
  }

  /** The command `_sign(target)` records when the tool is found. */
  function SignCommand(sg: Signer, target: Path, cwd: Path): Command
    requires sg.codesign.Some?
  {
    Command([sg.codesign.value] + CodesignArgs(sg, target), cwd)
  }

  /** `_sign` on each target in turn. */
  function SignEach(sg: Signer, targets: seq<Path>, cwd: Path): Run {
    if targets == [] then Done() else Then(SignRun(sg, targets[0], cwd), SignEach(sg, targets[1..], cwd))
  }

  /** The listed paths that are regular files and not symbolic links, in order. */
  function RegularOf(paths: seq<Path>, regular: set<Path>): seq<Path> {
    if paths == [] then []
    else (if paths[0] in regular then [paths[0]] else []) + RegularOf(paths[1..], regular)
  }

  /** `_sign_extra`: `_sign` on each listed path that is a regular file, in list order. */
  function ExtrasRun(sg: Signer, extras: seq<Path>, regular: set<Path>, cwd: Path): Run {
    if extras == [] then Done()
    else Then(if extras[0] in regular then SignRun(sg, extras[0], cwd) else Done(),
              ExtrasRun(sg, extras[1..], regular, cwd))
  }

  /** The loop shared by `_sign_binaries` and `_sign_framework`: `_sign` on each found path that is a regular file. */
  function FilesRun(sg: Signer, found: seq<Found>, cwd: Path): Run {
    if found == [] then Done()
    else Then(if found[0].entry.File? then SignRun(sg, found[0].path, cwd) else Done(),
              FilesRun(sg, found[1..], cwd))
  }

  /** `_sign_binaries`: the loop over what `dir.glob('*')` yields. */
  function BinariesRun(sg: Signer, dir: Path, listing: seq<Entry>, cwd: Path): Run {
    FilesRun(sg, Matching(dir, listing, AnyName), cwd)
  }

  /** What `framework.glob('**' + '/' + '*')` yields: everything inside the framework. */
  function FrameworkContents(fw: Found): seq<Found> {
    Glob(fw.path, Listing(fw.entry), AnyName)
  }

  /** What the inner glob of `_sign_framework` yields, for each framework in turn. */
  function ContentsOf(frameworks: seq<Found>): (r: seq<seq<Found>>)
    ensures |r| == |frameworks|
  {
    seq(|frameworks|, k requires 0 <= k < |frameworks| => FrameworkContents(frameworks[k]))
  }

  /** The outer loop of `_sign_framework`: the inner loop over each framework's contents in turn. */
  function FrameworksRun(sg: Signer, contents: seq<seq<Found>>, cwd: Path): Run {
    if contents == [] then Done()
    else Then(FilesRun(sg, contents[0], cwd), FrameworksRun(sg, contents[1..], cwd))
  }

  /** `_sign_framework`: every regular file of every `*.framework` below `base`. */
  function FrameworkRun(sg: Signer, base: Path, es: seq<Entry>, cwd: Path): Run {
    FrameworksRun(sg, ContentsOf(Glob(base, es, FrameworkPattern)), cwd)
  }

  /** The loop of `_sign_shared_libs` over its globs: every match is signed, whatever its kind. */
  function LibsRun(sg: Signer, base: Path, es: seq<Entry>, patterns: seq<Pattern>, cwd: Path): Run {
    if patterns == [] then Done()
    else Then(SignEach(sg, PathsOf(Glob(base, es, patterns[0])), cwd), LibsRun(sg, base, es, patterns[1..], cwd))
  }

  /** `_sign_shared_libs`: every `*.so`, then every `*.dylib`, below `base`. */
  function SharedLibsRun(sg: Signer, base: Path, es: seq<Entry>, cwd: Path): Run {
    LibsRun(sg, base, es, SharedLibraryPatterns, cwd)
  }

  /**
   * The scratch directory an archive at nesting depth `depth` is extracted
   * into. The real names are random; live directories only need distinct
   * names, and at most one is alive per depth.
   */
  function Workspace(buildDir: Path, depth: nat): Path {
    Join(buildDir, ScratchPrefix + NatToString(depth))
  }

  function UnzipArgs(archive: Path, td: Path): seq<string> {
    [archive, "-d", td]
  }

  function ZipArgs(archive: Path): seq<string> {
    ["-qyr", archive, "."]
  }

  /** `_sign_libraries(base)`: frameworks, shared libraries, then bundled `.zip` and `.whl` archives. */
  function LibrariesRun(sg: Signer, w: Workshop, base: Path, es: seq<Entry>, cwd: Path, depth: nat): Run
    decreases ListSize(es), 3, 0
  {
    Then(FrameworkRun(sg, base, es, cwd),
    Then(SharedLibsRun(sg, base, es, cwd),
    Then(BundledZipsRun(sg, w, base, es, "zip", cwd, depth),
         BundledZipsRun(sg, w, base, es, "whl", cwd, depth))))
  }

  /** `_sign_bundled_zips(base, extension)`: one extract-sign-repack cycle per archive found. */
  function BundledZipsRun(sg: Signer, w: Workshop, base: Path, es: seq<Entry>, ext: string, cwd: Path, depth: nat): Run
    decreases ListSize(es), 2, 0
  {
    var found := Glob(base, es, Suffix("." + ext));
    GlobBounded(base, es, Suffix("." + ext));
    ZipsRun(sg, w, found, cwd, depth, ListSize(es))
  }

  /** The loop of `_sign_bundled_zips`; `bound` bounds the size of every archive found. */
  function ZipsRun(sg: Signer, w: Workshop, found: seq<Found>, cwd: Path, depth: nat, bound: nat): Run
    requires forall f :: f in found ==> EntrySize(f.entry) <= bound
    decreases bound, 1, |found|
  {
    if found == [] then Done()
    else Then(ZipCycle(sg, w, found[0], cwd, depth), ZipsRun(sg, w, found[1..], cwd, depth, bound))
  }

  /**
   * `_sign_zip_contents(archive)`: extract it into a scratch directory,
   * sign what it holds as a bundle of its own, then, from inside the
   * scratch directory, repack it in place under its absolute path.
   */
  function ZipCycle(sg: Signer, w: Workshop, archive: Found, cwd: Path, depth: nat): Run
    decreases EntrySize(archive.entry), 0, 0
  {
    var td := Workspace(w.buildDir, depth);
    Then(SpawnRun(w.unzip, UnzipArgs(archive.path, td), cwd),
    Then(LibrariesRun(sg, w, td, Extracted(archive.entry), cwd, depth + 1),
         SpawnRun(w.zip, ZipArgs(Absolute(cwd, archive.path)), Absolute(cwd, td))))
  }

  function AssessArgs(bundle: Path): seq<string> {
    ["--assess", "-vvvv", bundle]
  }

  /** `_assess_signing_result(bundle)`. */
  function AssessRun(spctl: Option<Path>, bundle: Path, cwd: Path): Run {
    SpawnRun(spctl, AssessArgs(bundle), cwd)
  }

  // ---------------------------------------------------------------------------
  // The whole step

  /** Why the step raised. */
  datatype Failure =
    | NoNiceName        // neither a nice name nor metadata to read one from
    | NoRuntimeLayout   // a runtime path the step joins is still unset
    | NoExtraModule     // `pup_extra` cannot be imported
    | NoTool            // a spawned executable was not found

  /** `Skipped`: no signing identity, the step logs an error and returns. */
  datatype Outcome = Skipped | Finished | Raised(failure: Failure)

  datatype Effect = Effect(outcome: Outcome, spawned: seq<Command>)

  /** What the step reads besides the context and the `pup_extra` list. */
  datatype Surroundings = Surroundings(
    environ: map<string, string>,
    buildDir: Path,       // the dispatcher's build directory
    resources: Path,      // where the step's own resource files live
    codesign: Option<Path>,
    unzip: Option<Path>,
    zip: Option<Path>,
    spctl: Option<Path>,
    bundle: seq<Entry>,   // the application bundle's contents
    binaries: seq<Entry>, // the contents of the directory holding the Python executable
    regular: set<Path>)   // the paths that are regular files and not symbolic links

  function WorkshopOf(s: Surroundings): Workshop {
    Workshop(s.unzip, s.zip, s.buildDir)
  }

  function BundlePath(buildDir: Path, niceName: string): Path {
    Join(buildDir, niceName + ".app")
  }

  /** Every listed path, resolved against `site`, as the loop over `enumerate(sign_extra)` rewrites it. */
  function Rebased(site: Path, paths: seq<Path>): (r: seq<Path>)
    ensures |r| == |paths|
  {
    seq(|paths|, k requires 0 <= k < |paths| => Join(site, paths[k]))
  }

  /** The prerequisites up to the signer's tool lookup: an identity, a nice name, the executable's location. */
  predicate ReachesSigner(f: Fields, s: Surroundings) {
    IdentityVariable in s.environ
    && NiceNameOf(f.launch.givenNiceName, f.build.srcMetadata).Some?
    && f.build.pythonRuntimeDir.Some? && f.build.pythonRelExe.Some?
  }

  /** All prerequisites: the site-packages location and the `pup_extra` list as well. */
  predicate ReachesPhases(f: Fields, s: Surroundings, extras: Option<seq<Path>>) {
    ReachesSigner(f, s) && f.build.pythonRelSitePackages.Some? && extras.Some?
  }

  function SignerOf(s: Surroundings): Signer
    requires IdentityVariable in s.environ
  {
    Signer(s.codesign, s.environ[IdentityVariable], Join(s.resources, EntitlementsFile))
  }

  function SitePackages(b: Build): Path
    requires b.pythonRuntimeDir.Some? && b.pythonRelSitePackages.Some?
  {
    Join(b.pythonRuntimeDir.value, b.pythonRelSitePackages.value)
  }

  function BinariesDir(b: Build): Path
    requires b.pythonRuntimeDir.Some? && b.pythonRelExe.Some?
  {
    Parent(Join(b.pythonRuntimeDir.value, b.pythonRelExe.value))
  }

  /** The five phases, in the order `__call__` runs them. */
  function PhasesRun(sg: Signer, s: Surroundings, extras: seq<Path>, binariesDir: Path, bundle: Path, cwd: Path): Run {
    Then(ExtrasRun(sg, extras, s.regular, cwd),
    Then(BinariesRun(sg, binariesDir, s.binaries, cwd),
    Then(LibrariesRun(sg, WorkshopOf(s), bundle, s.bundle, cwd, 0),
    Then(SignRun(sg, bundle, cwd),
         AssessRun(s.spctl, bundle, cwd)))))
  }

  /** `Step()(ctx, dsp)`: the outcome and the commands spawned, given the `pup_extra` list (`None`: not importable). */
  function Signing(f: Fields, s: Surroundings, extras: Option<seq<Path>>, cwd: Path): Effect {
    if IdentityVariable !in s.environ then Effect(Skipped, [])
    else if NiceNameOf(f.launch.givenNiceName, f.build.srcMetadata).None? then Effect(Raised(NoNiceName), [])
    else if f.build.pythonRuntimeDir.None? || f.build.pythonRelExe.None? then Effect(Raised(NoRuntimeLayout), [])
    else if f.build.pythonRelSitePackages.None? then Effect(Raised(NoRuntimeLayout), [])
    else if extras.None? then Effect(Raised(NoExtraModule), [])
    else
      var bundle := BundlePath(s.buildDir, NiceNameOf(f.launch.givenNiceName, f.build.srcMetadata).value);
      var r := PhasesRun(SignerOf(s), s, Rebased(SitePackages(f.build), extras.value), BinariesDir(f.build), bundle, cwd);
      Effect(if r.completed then Finished else Raised(NoTool), r.spawned)
  }

  // ---------------------------------------------------------------------------
  // The step, performing the phases

  class SignStep {
    var identity: Option<string>
    var codesign: Option<Path>
    var entitlements: Option<Path>

    /** Set by `__call__` before any signing happens. */
    predicate Prepared()
      reads this
    {
      identity.Some? && entitlements.Some?
    }

    function Config(): Signer
      reads this
      requires Prepared()
    {
      Signer(codesign, identity.value, entitlements.value)
    }

    constructor ()
      ensures identity.None? && codesign.None? && entitlements.None?
    {
      identity, codesign, entitlements := None, None, None;
    }

    /**
     * `__call__`. The attributes are set as the source sets them: the
     * identity as soon as it is read, the tool and the entitlements once
     * the executable's directory is known; the `pup_extra` list is rewritten
     * in place once the site-packages directory is known.
     */
    method Call(ctx: Context, host: Host, s: Surroundings, extra: array?<Path>) returns (outcome: Outcome)
      requires host.Valid()
      modifies this, extra, host`spawned, host`cwd, host`scratch
      ensures host.Valid() && host.cwd == old(host.cwd) && host.scratch == old(host.scratch)
      ensures var e := Signing(ctx.Snapshot(), s, old(if extra == null then None else Some(extra[..])), host.cwd);
        outcome == e.outcome && host.spawned == old(host.spawned) + e.spawned
      ensures identity == if IdentityVariable in s.environ then Some(s.environ[IdentityVariable]) else old(identity)
      ensures ReachesSigner(ctx.Snapshot(), s) ==> codesign == s.codesign && entitlements == Some(Join(s.resources, EntitlementsFile))
      ensures !ReachesSigner(ctx.Snapshot(), s) ==> codesign == old(codesign) && entitlements == old(entitlements)
      ensures extra != null && ReachesPhases(ctx.Snapshot(), s, Some(old(extra[..]))) ==>
        extra[..] == Rebased(SitePackages(ctx.build), old(extra[..]))
      ensures extra != null && !ReachesPhases(ctx.Snapshot(), s, Some(old(extra[..]))) ==> extra[..] == old(extra[..])
    {
      if IdentityVariable !in s.environ {
        return Skipped;
      }
      identity := Some(s.environ[IdentityVariable]);
      var name := ctx.NiceName();
      if name.None? {
        return Raised(NoNiceName);
      }
      var bundle := BundlePath(s.buildDir, name.value);
      var b := ctx.build;
      if b.pythonRuntimeDir.None? || b.pythonRelExe.None? {
        return Raised(NoRuntimeLayout);
      }
      var binariesDir := BinariesDir(b);
      entitlements := Some(Join(s.resources, EntitlementsFile));
      codesign := s.codesign;
      if b.pythonRelSitePackages.None? {
        return Raised(NoRuntimeLayout);
      }
      if extra == null {
        return Raised(NoExtraModule);
      }
      RewriteExtras(extra, SitePackages(b));
      var ok := SignPhases(host, s, extra[..], binariesDir, bundle);
      outcome := if ok then Finished else Raised(NoTool);
    }

    /** The phases of `__call__` after its preparations, stopping at the first that raises. */
    method SignPhases(host: Host, s: Surroundings, extras: seq<Path>, binariesDir: Path, bundle: Path) returns (ok: bool)
      requires Prepared() && host.Valid()
      modifies host`spawned, host`cwd, host`scratch
      ensures host.Valid() && host.cwd == old(host.cwd) && host.scratch == old(host.scratch)
      ensures host.spawned == old(host.spawned) + PhasesRun(Config(), s, extras, binariesDir, bundle, host.cwd).spawned
      ensures ok == PhasesRun(Config(), s, extras, binariesDir, bundle, host.cwd).completed
    {
      ghost var sg, cwd := Config(), host.cwd;
      ghost var e := ExtrasRun(sg, extras, s.regular, cwd);
      ghost var b := BinariesRun(sg, binariesDir, s.binaries, cwd);
      ghost var l := LibrariesRun(sg, WorkshopOf(s), bundle, s.bundle, cwd, 0);
      ghost var g := SignRun(sg, bundle, cwd);
      ghost var a := AssessRun(s.spctl, bundle, cwd);
      ThenDone(PhasesRun(sg, s, extras, binariesDir, bundle, cwd));
      ThenStep([], e, Then(b, Then(l, Then(g, a))));
      ok := SignExtra(host, extras, s.regular);
      if !ok { return; }
      ghost var done := e.spawned;
      ThenStep(done, b, Then(l, Then(g, a)));
      ok := SignBinaries(host, binariesDir, s.binaries);
      Appended(old(host.spawned), done, b.spawned);
      if !ok { return; }
      done := done + b.spawned;
      ThenStep(done, l, Then(g, a));
      ok := SignLibraries(host, WorkshopOf(s), bundle, s.bundle, 0);
      Appended(old(host.spawned), done, l.spawned);
      if !ok { return; }
      done := done + l.spawned;
      ThenStep(done, g, a);
      ok := Sign(host, bundle);
      Appended(old(host.spawned), done, g.spawned);
      if !ok { return; }
      done := done + g.spawned;
      ThenStep(done, a, Done());
      ThenDone(a);
      ok := AssessSigningResult(host, s.spctl, bundle);
      Appended(old(host.spawned), done, a.spawned);
    }

    /** `_sign(target)`. */
    method Sign(host: Host, target: Path) returns (ok: bool)
      requires Prepared()
      modifies host`spawned
      ensures host.spawned == old(host.spawned) + SignRun(Config(), target, host.cwd).spawned
      ensures ok == SignRun(Config(), target, host.cwd).completed
    {
      ok := host.Spawn(codesign, CodesignArgs(Config(), target));
    }

    /** `_sign_extra`: sign each listed path that is a regular file. */
    method SignExtra(host: Host, extras: seq<Path>, regular: set<Path>) returns (ok: bool)
      requires Prepared()
      modifies host`spawned
      ensures host.spawned == old(host.spawned) + ExtrasRun(Config(), extras, regular, host.cwd).spawned
      ensures ok == ExtrasRun(Config(), extras, regular, host.cwd).completed
    {
      var sg, cwd := Config(), host.cwd;
      ghost var done: seq<Command> := [];
      var i := 0;
      while i < |extras|
        invariant i <= |extras|
        invariant host.spawned == old(host.spawned) + done
        invariant Then(Run(done, true), ExtrasRun(sg, extras[i..], regular, cwd)) == ExtrasRun(sg, extras, regular, cwd)
      {
        assert extras[i..][1..] == extras[i + 1..];
        if extras[i] in regular {
          ghost var r := SignRun(sg, extras[i], cwd);
          ThenStep(done, r, ExtrasRun(sg, extras[i + 1..], regular, cwd));
          ok := Sign(host, extras[i]);
          Appended(old(host.spawned), done, r.spawned);
          if !ok { return; }
          done := done + r.spawned;
        } else {
          ThenDone(ExtrasRun(sg, extras[i + 1..], regular, cwd));
        }
        i := i + 1;
      }
      ThenDone(Run(done, true));
      ok := true;
    }

    /** `_sign_binaries`: sign each regular file directly inside `dir`. */
    method SignBinaries(host: Host, dir: Path, listing: seq<Entry>) returns (ok: bool)
      requires Prepared()
      modifies host`spawned
      ensures host.spawned == old(host.spawned) + BinariesRun(Config(), dir, listing, host.cwd).spawned
      ensures ok == BinariesRun(Config(), dir, listing, host.cwd).completed
    {
      ok := SignFiles(host, Matching(dir, listing, AnyName));
    }

    /** The loop of `_sign_binaries` and the inner loop of `_sign_framework`: sign each found regular file. */
    method SignFiles(host: Host, found: seq<Found>) returns (ok: bool)
      requires Prepared()
      modifies host`spawned
      ensures host.spawned == old(host.spawned) + FilesRun(Config(), found, host.cwd).spawned
      ensures ok == FilesRun(Config(), found, host.cwd).completed
    {
      var sg, cwd := Config(), host.cwd;
      ghost var done: seq<Command> := [];
      var i := 0;
      while i < |found|
        invariant i <= |found|
        invariant host.spawned == old(host.spawned) + done
        invariant Then(Run(done, true), FilesRun(sg, found[i..], cwd)) == FilesRun(sg, found, cwd)
      {
        assert found[i..][1..] == found[i + 1..];
        if found[i].entry.File? {
          ghost var r := SignRun(sg, found[i].path, cwd);
          ThenStep(done, r, FilesRun(sg, found[i + 1..], cwd));
          ok := Sign(host, found[i].path);
          Appended(old(host.spawned), done, r.spawned);
          if !ok { return; }
          done := done + r.spawned;
        } else {
          ThenDone(FilesRun(sg, found[i + 1..], cwd));
        }
        i := i + 1;
      }
      ThenDone(Run(done, true));
      ok := true;
    }

    /** `_sign_libraries(base)`, where `es` is what `base` holds. */
    method SignLibraries(host: Host, w: Workshop, base: Path, es: seq<Entry>, depth: nat) returns (ok: bool)
      requires Prepared() && host.Valid()
      modifies host`spawned, host`cwd, host`scratch
      ensures host.Valid() && host.cwd == old(host.cwd) && host.scratch == old(host.scratch)
      ensures host.spawned == old(host.spawned) + LibrariesRun(Config(), w, base, es, host.cwd, depth).spawned
      ensures ok == LibrariesRun(Config(), w, base, es, host.cwd, depth).completed
      decreases ListSize(es), 3, 0
    {
      ghost var sg, cwd := Config(), host.cwd;
      ghost var fw := FrameworkRun(sg, base, es, cwd);
      ghost var sl := SharedLibsRun(sg, base, es, cwd);
      ghost var zp := BundledZipsRun(sg, w, base, es, "zip", cwd, depth);
      ghost var wh := BundledZipsRun(sg, w, base, es, "whl", cwd, depth);
      ThenDone(LibrariesRun(sg, w, base, es, cwd, depth));
      ThenStep([], fw, Then(sl, Then(zp, wh)));
      ok := SignFramework(host, base, es);
      if !ok { return; }
      ghost var done := fw.spawned;
      ThenStep(done, sl, Then(zp, wh));
      ok := SignSharedLibs(host, base, es);
      Appended(old(host.spawned), done, sl.spawned);
      if !ok { return; }
      done := done + sl.spawned;
      ThenStep(done, zp, wh);
      ok := SignBundledZips(host, w, base, es, "zip", depth);
      Appended(old(host.spawned), done, zp.spawned);
      if !ok { return; }
      done := done + zp.spawned;
      ThenStep(done, wh, Done());
      ThenDone(wh);
      ok := SignBundledZips(host, w, base, es, "whl", depth);
      Appended(old(host.spawned), done, wh.spawned);
    }

    /** `_sign_framework`: for each framework below `base`, sign each regular file inside it. */
    method SignFramework(host: Host, base: Path, es: seq<Entry>) returns (ok: bool)
      requires Prepared()
      modifies host`spawned
      ensures host.spawned == old(host.spawned) + FrameworkRun(Config(), base, es, host.cwd).spawned
      ensures ok == FrameworkRun(Config(), base, es, host.cwd).completed
    {
      ok := SignFrameworks(host, ContentsOf(Glob(base, es, FrameworkPattern)));
    }

    /** The outer loop of `_sign_framework`, given what each framework holds. */
    method SignFrameworks(host: Host, contents: seq<seq<Found>>) returns (ok: bool)
      requires Prepared()
      modifies host`spawned
      ensures host.spawned == old(host.spawned) + FrameworksRun(Config(), contents, host.cwd).spawned
      ensures ok == FrameworksRun(Config(), contents, host.cwd).completed
    {
      var sg, cwd := Config(), host.cwd;
      ghost var done: seq<Command> := [];
      var i := 0;
      while i < |contents|
        invariant i <= |contents|
        invariant host.spawned == old(host.spawned) + done
        invariant Then(Run(done, true), FrameworksRun(sg, contents[i..], cwd)) == FrameworksRun(sg, contents, cwd)
      {
        assert contents[i..][1..] == contents[i + 1..];
        ghost var r := FilesRun(sg, contents[i], cwd);
        ThenStep(done, r, FrameworksRun(sg, contents[i + 1..], cwd));
        ok := SignFiles(host, contents[i]);
        Appended(old(host.spawned), done, r.spawned);
        if !ok { return; }
        done := done + r.spawned;
        i := i + 1;
      }
      ThenDone(Run(done, true));
      ok := true;
    }

    /** `_sign_shared_libs`: for each shared-library glob, sign every match below `base`. */
    method SignSharedLibs(host: Host, base: Path, es: seq<Entry>) returns (ok: bool)
      requires Prepared()
      modifies host`spawned
      ensures host.spawned == old(host.spawned) + SharedLibsRun(Config(), base, es, host.cwd).spawned
      ensures ok == SharedLibsRun(Config(), base, es, host.cwd).completed
    {
      var sg, cwd := Config(), host.cwd;
      var patterns := SharedLibraryPatterns;
      ghost var done: seq<Command> := [];
      var i := 0;
      while i < |patterns|
        invariant i <= |patterns|
        invariant host.spawned == old(host.spawned) + done
        invariant Then(Run(done, true), LibsRun(sg, base, es, patterns[i..], cwd)) == SharedLibsRun(sg, base, es, cwd)
      {
        assert patterns[i..][1..] == patterns[i + 1..];
        ghost var later := LibsRun(sg, base, es, patterns[i + 1..], cwd);
        var libs := PathsOf(Glob(base, es, patterns[i]));
        var j := 0;
        while j < |libs|
          invariant j <= |libs|
          invariant host.spawned == old(host.spawned) + done
          invariant Then(Run(done, true), Then(SignEach(sg, libs[j..], cwd), later)) == SharedLibsRun(sg, base, es, cwd)
        {
          assert libs[j..][1..] == libs[j + 1..];
          ghost var r := SignRun(sg, libs[j], cwd);
          ghost var rest := SignEach(sg, libs[j + 1..], cwd);
          ThenAssociative(r, rest, later);
          ThenStep(done, r, Then(rest, later));
          ok := Sign(host, libs[j]);
          Appended(old(host.spawned), done, r.spawned);
          if !ok { return; }
          done := done + r.spawned;
          j := j + 1;
        }
        ThenDone(later);
        i := i + 1;
      }
      ThenDone(Run(done, true));
      ok := true;
    }

    /** `_sign_bundled_zips(base, extension)`: one extract-sign-repack cycle per archive below `base`. */
    method SignBundledZips(host: Host, w: Workshop, base: Path, es: seq<Entry>, ext: string, depth: nat) returns (ok: bool)
      requires Prepared() && host.Valid()
      modifies host`spawned, host`cwd, host`scratch
      ensures host.Valid() && host.cwd == old(host.cwd) && host.scratch == old(host.scratch)
      ensures host.spawned == old(host.spawned) + BundledZipsRun(Config(), w, base, es, ext, host.cwd, depth).spawned
      ensures ok == BundledZipsRun(Config(), w, base, es, ext, host.cwd, depth).completed
      decreases ListSize(es), 2, 0
    {
      var sg, cwd := Config(), host.cwd;
      var archives := Glob(base, es, Suffix("." + ext));
      GlobBounded(base, es, Suffix("." + ext));
      ghost var done: seq<Command> := [];
      var i := 0;
      while i < |archives|
        invariant i <= |archives|
        invariant host.Valid() && host.cwd == cwd && host.scratch == old(host.scratch)
        invariant host.spawned == old(host.spawned) + done
        invariant Then(Run(done, true), ZipsRun(sg, w, archives[i..], cwd, depth, ListSize(es)))
               == BundledZipsRun(sg, w, base, es, ext, cwd, depth)
      {
        assert archives[i..][1..] == archives[i + 1..];
        assert archives[i] in archives;
        ghost var r := ZipCycle(sg, w, archives[i], cwd, depth);
        ThenStep(done, r, ZipsRun(sg, w, archives[i + 1..], cwd, depth, ListSize(es)));
        ok := SignZipContents(host, w, archives[i], depth);
        Appended(old(host.spawned), done, r.spawned);
        if !ok { return; }
        done := done + r.spawned;
        i := i + 1;
      }
      ThenDone(Run(done, true));
      ok := true;
    }

    /**
     * `_sign_zip_contents(archive)`. The scratch directory is removed and the
     * working directory restored on every path out, as the `with` block and
     * the `finally` clause ensure.
     */
    method SignZipContents(host: Host, w: Workshop, archive: Found, depth: nat) returns (ok: bool)
      requires Prepared() && host.Valid()
      modifies host`spawned, host`cwd, host`scratch
      ensures host.Valid() && host.cwd == old(host.cwd) && host.scratch == old(host.scratch)
      ensures host.spawned == old(host.spawned) + ZipCycle(Config(), w, archive, host.cwd, depth).spawned
      ensures ok == ZipCycle(Config(), w, archive, host.cwd, depth).completed
      decreases EntrySize(archive.entry), 0, 0
    {
      var td := Workspace(w.buildDir, depth);
      ghost var sg, cwd0 := Config(), host.cwd;
      ghost var u := SpawnRun(w.unzip, UnzipArgs(archive.path, td), cwd0);
      ghost var l := LibrariesRun(sg, w, td, Extracted(archive.entry), cwd0, depth + 1);
      ghost var z := SpawnRun(w.zip, ZipArgs(Absolute(cwd0, archive.path)), Absolute(cwd0, td));
      host.OpenScratch(td);
      ok := host.Spawn(w.unzip, UnzipArgs(archive.path, td));
      if ok {
        ok := SignLibraries(host, w, td, Extracted(archive.entry), depth + 1);
        Appended(old(host.spawned), u.spawned, l.spawned);
        if ok {
          var cwd := host.cwd;
          var absolute := Absolute(host.cwd, archive.path);
          host.Chdir(td);
          ok := host.Spawn(w.zip, ZipArgs(absolute));
          host.Chdir(cwd);
          Appended(old(host.spawned), u.spawned + l.spawned, z.spawned);
          Appended(u.spawned, l.spawned, z.spawned);
        }
      }
      host.CloseScratch();
    }

    /** `_assess_signing_result(bundle)`. */
    method AssessSigningResult(host: Host, spctl: Option<Path>, bundle: Path) returns (ok: bool)
      modifies host`spawned
      ensures host.spawned == old(host.spawned) + AssessRun(spctl, bundle, host.cwd).spawned
      ensures ok == AssessRun(spctl, bundle, host.cwd).completed
    {
      ok := host.Spawn(spctl, AssessArgs(bundle));
    }

    /** The rewrite of `pup_extra.sign_extra` in place: each entry resolved against `site`. */
    method RewriteExtras(extra: array<Path>, site: Path)
      modifies extra
      ensures extra[..] == Rebased(site, old(extra[..]))
    {
      var k := 0;
      while k < extra.Length
        invariant k <= extra.Length
        invariant forall m :: 0 <= m < k ==> extra[m] == Join(site, old(extra[m]))
        invariant forall m :: k <= m < extra.Length ==> extra[m] == old(extra[m])
      {
        extra[k] := Join(site, extra[k]);
        k := k + 1;
      }
    }
  }

  // ---------------------------------------------------------------------------
  // Properties

  /** `RegularOf` keeps exactly the listed regular files. */
  lemma {:induction false} RegularOfMembers(paths: seq<Path>, regular: set<Path>, p: Path)
    ensures p in RegularOf(paths, regular) <==> p in paths && p in regular
    decreases |paths|
  {
    if paths != [] {
      RegularOfMembers(paths[1..], regular, p);
      assert paths == [paths[0]] + paths[1..];
    }
  }

  lemma SignEachCons(sg: Signer, target: Path, rest: seq<Path>, cwd: Path)
    ensures SignEach(sg, [target] + rest, cwd) == Then(SignRun(sg, target, cwd), SignEach(sg, rest, cwd))
  {
    assert ([target] + rest)[1..] == rest;
  }
}
