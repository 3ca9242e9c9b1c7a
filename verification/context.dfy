/**
 * The packaging context (`pup.context.Context`): the record every step reads
 * and writes. Construction applies, in this order, the class defaults, the
 * overrides of the optional `pup_setup` module found in the source tree, and
 * the explicit arguments; the icon and license setters refuse a path that
 * does not exist. `nice_name` and `application_id` are computed on each read.
 *
 * The pure part (`Fields`, `Construct`, `NiceNameOf`, `IdentifierOf`) is the
 * specification; the class `Context` updates its fields step by step and is
 * proved to end in the state `Construct` describes.
 */
module BuildContext {

  import opened Wrappers
  import opened Paths
  import opened Text

  /** The two parts of the home-page URL that `urlsplit` yields and the identifier uses. */
  datatype HomePage = HomePage(netloc: string, path: string)

  /** The source package metadata collected by the metadata step. */
  datatype Metadata = Metadata(name: string, homePage: HomePage)

  datatype Version = Version(major: nat, minor: nat, micro: nat)

  /**
   * The attributes a `pup_setup` module may define; `None` is an attribute
   * the module does not have. The module itself is `Option<Setup>`: `None`
   * when it cannot be imported.
   */
  datatype Setup = Setup(
    iconPath: Option<string>,
    licensePath: Option<string>,
    niceName: Option<string>,
    packageName: Option<string>,
    appId: Option<string>,
    teamId: Option<string>,
    appleUser: Option<string>,
    appPassword: Option<string>,
    signExtra: Option<seq<string>>)

  /**
   * The keyword arguments of `Context.__init__`. A string argument that is
   * `None` in Python is the empty string here: both are falsy and the
   * constructor treats them alike.
   */
  datatype Arguments = Arguments(
    src: Path,
    launchModule: string,
    launchPyflags: seq<string>,
    niceName: string,
    iconPath: Path,
    licensePath: Path,
    ignorePlugins: seq<string>,
    platform: string,
    pythonVersion: Version)

  /** The `EnvironmentError`s the setters raise. */
  datatype ConfigError = NonExistentIcon(path: Path) | NonExistentLicense(path: Path)

  /** The two paths the setters guard. */
  datatype Assets = Assets(iconPath: Option<Path>, licensePath: Option<Path>)

  /** The distribution and signing identity. */
  datatype Identity = Identity(
    packageName: string,
    appId: string,
    appleUser: string,
    teamId: string,
    appPassword: string,
    signExtra: seq<string>)

  /** What the packaging steps fill in later: the wheel, the metadata and the runtime layout. */
  datatype Build = Build(
    srcWheel: Option<Path>,
    srcMetadata: Option<Metadata>,
    relocatableRoot: Option<Path>,
    pythonRuntimeDir: Option<Path>,
    pythonRelExe: Option<Path>,
    pythonRelScripts: Option<Path>,
    pythonRelStdlib: Option<Path>,
    pythonRelSitePackages: Option<Path>,
    pythonRelTclLibrary: Option<Path>,
    finalArtifact: Option<Path>)

  /** How the packaged application is launched, and its given user-facing name. */
  datatype Launch = Launch(moduleName: string, pyflags: seq<string>, givenNiceName: string)

  /** The platform packaged on, the platform and Python version packaged for, and the plugins to skip. */
  datatype Target = Target(ignorePlugins: seq<string>, pkgPlatform: string, tgtPlatform: string, pythonVersion: Version)

  /** Every attribute of a context, as a value, grouped by concern. */
  datatype Fields = Fields(
    src: Path,
    assets: Assets,
    identity: Identity,
    build: Build,
    launch: Launch,
    target: Target)

  /** What the icon and license setters accept: nothing, or a path that exists. */
  predicate Admissible(fs: set<Path>, value: Option<Path>) {
    value.None? || value.value in fs
  }

  /** The attributes `__init__` assigns before it looks for `pup_setup`. */
  function Defaults(src: Path): Fields {
    Fields(src,
           Assets(None, None),
           Identity("", "", "", "", "", []),
           Build(None, None, None, None, None, None, None, None, None, None),
           Launch("", [], ""),
           Target([], "", "", Version(0, 0, 0)))
  }

  /**
   * The `pup_setup` overrides, in the source's order: the two paths, then
   * the nice name and the identity attributes, which are applied only when
   * both setup paths were accepted.
   */
  function WithSetup(f: Fields, setup: Option<Setup>, fs: set<Path>, cwd: Path): Fields {
    f.(assets := SetupAssetsOf(f.assets, setup, fs, cwd),
       identity := SetupIdentityOf(f.identity, setup, fs, cwd),
       launch := f.launch.(givenNiceName := SetupNiceNameOf(f.launch.givenNiceName, setup, fs, cwd)))
  }

  /** The icon and license paths after the setup block. */
  function SetupAssetsOf(assets: Assets, setup: Option<Setup>, fs: set<Path>, cwd: Path): Assets {
    if setup.None? then assets else SetupAssets(assets, setup.value, fs, cwd)
  }

  /** The identity after the setup block. */
  function SetupIdentityOf(id: Identity, setup: Option<Setup>, fs: set<Path>, cwd: Path): Identity {
    if setup.Some? && SetupCompleted(setup.value, fs, cwd) then Overrides(id, setup.value) else id
  }

  /** The given nice name after the setup block. */
  function SetupNiceNameOf(name: string, setup: Option<Setup>, fs: set<Path>, cwd: Path): string {
    if setup.Some? && SetupCompleted(setup.value, fs, cwd) then setup.value.niceName.GetOr(name) else name
  }

  /** A setup path made absolute; a `Path` object is truthy, so it is always checked. */
  function SetupPath(p: Option<string>, cwd: Path): Option<Path> {
    if p.Some? then Some(Absolute(cwd, p.value)) else None
  }

  /**
   * Whether the setup block gets past its two paths: a path that does not
   * exist raises, and the bare `except` swallows it, ending the block.
   */
  predicate SetupCompleted(s: Setup, fs: set<Path>, cwd: Path) {
    Admissible(fs, SetupPath(s.iconPath, cwd)) && Admissible(fs, SetupPath(s.licensePath, cwd))
  }

  /** The paths after the setup block: each one is assigned only if its check, and the icon's before it, passed. */
  function SetupAssets(assets: Assets, s: Setup, fs: set<Path>, cwd: Path): Assets {
    var icon := SetupPath(s.iconPath, cwd);
    var license := SetupPath(s.licensePath, cwd);
    if !Admissible(fs, icon) then assets
    else
      var withIcon := if icon.Some? then assets.(iconPath := icon) else assets;
      if !Admissible(fs, license) || license.None? then withIcon
      else withIcon.(licensePath := license)
  }

  /** The identity attributes of the setup module; each one it defines replaces the current value. */
  function Overrides(id: Identity, s: Setup): Identity {
    Identity(s.packageName.GetOr(id.packageName),
             s.appId.GetOr(id.appId),
             s.appleUser.GetOr(id.appleUser),
             s.teamId.GetOr(id.teamId),
             s.appPassword.GetOr(id.appPassword),
             s.signExtra.GetOr(id.signExtra))
  }

  /**
   * The explicit arguments: the launch settings, a truthy icon or license
   * path (made absolute, and raising when it does not exist), then the
   * platform pair and target version.
   */
  function WithArguments(f: Fields, a: Arguments, fs: set<Path>, cwd: Path): Result<Fields, ConfigError> {
    match ArgumentAssets(f.assets, a, fs, cwd)
    case Failure(e) => Failure(e)
    case Success(assets) => Success(f.(assets := assets, launch := LaunchOf(a), target := TargetOf(a)))
  }

  /** Lines 77-79: the launch module, the truthy pyflags, and the given nice name. */
  function LaunchOf(a: Arguments): Launch {
    Launch(a.launchModule, NonEmpty(a.launchPyflags), a.niceName)
  }

  /** Lines 81-84: a truthy icon or license argument, made absolute and checked by its setter. */
  function ArgumentAssets(assets: Assets, a: Arguments, fs: set<Path>, cwd: Path): Result<Assets, ConfigError> {
    var icon := Absolute(cwd, a.iconPath);
    if a.iconPath != "" && icon !in fs then Failure(NonExistentIcon(icon))
    else
      var withIcon := if a.iconPath != "" then assets.(iconPath := Some(icon)) else assets;
      var license := Absolute(cwd, a.licensePath);
      if a.licensePath != "" && license !in fs then Failure(NonExistentLicense(license))
      else Success(if a.licensePath != "" then withIcon.(licensePath := Some(license)) else withIcon)
  }

  /** Lines 87-90: ignored plugins, one platform for packaging and target, and the target version. */
  function TargetOf(a: Arguments): Target {
    Target(a.ignorePlugins, a.platform, a.platform, a.pythonVersion)
  }

  /** The whole of `Context.__init__`: the context it builds, or the error it raises. */
  function Construct(a: Arguments, setup: Option<Setup>, fs: set<Path>, cwd: Path): Result<Fields, ConfigError> {
    WithArguments(WithSetup(Defaults(a.src), setup, fs, cwd), a, fs, cwd)
  }

  /**
   * `nice_name`: the given name when it is truthy, otherwise the metadata
   * name; `None` stands for the `AttributeError` of reading a name from
   * metadata that has not been collected.
   */
  function NiceNameOf(given: string, metadata: Option<Metadata>): Option<string> {
    if given != "" then Some(given)
    else if metadata.Some? then Some(metadata.value.name)
    else None
  }

  /** The identifier derived from a home page: reversed host labels, '.', path segments, then the name. */
  function DerivedId(netloc: string, path: string, name: string): string {
    JoinWith('.', [JoinWith('.', Reversed(Split(netloc, '.'))),
                   JoinWith('.', NonEmpty(Split(path, '/')))]) + name
  }

  /** `application_id`: the explicit id when set, otherwise derived; `None` when there is no metadata to derive it from. */
  function IdentifierOf(appId: string, metadata: Option<Metadata>): Option<string> {
    if appId != "" then Some(appId)
    else if metadata.None? then None
    else Some(DerivedId(metadata.value.homePage.netloc, metadata.value.homePage.path, metadata.value.name))
  }

  /**
   * A packaging context. Its attributes are held grouped by concern, one
   * field per group, except the two setter-guarded paths.
   */
  class Context {
    var src: Path
    var iconPath: Option<Path>
    var licensePath: Option<Path>
    var identity: Identity
    var build: Build
    var launch: Launch
    var target: Target

    /** The context's attributes as a value. */
    function Snapshot(): Fields
      reads this
    {
      Fields(src, Assets(iconPath, licensePath), identity, build, launch, target)
    }

    /** The assignments of `__init__` that precede the `pup_setup` import. */
    constructor Blank(src: Path)
      ensures Snapshot() == Defaults(src)
    {
      this.src := src;
      iconPath, licensePath := None, None;
      identity := Identity("", "", "", "", "", []);
      build := Build(None, None, None, None, None, None, None, None, None, None);
      launch := Launch("", [], "");
      target := Target([], "", "", Version(0, 0, 0));
    }

    /** The `icon_path` setter: a path that does not exist is refused and nothing changes. */
    method SetIconPath(value: Option<Path>, fs: set<Path>) returns (ok: bool)
      modifies this`iconPath
      ensures ok == Admissible(fs, value)
      ensures iconPath == if ok then value else old(iconPath)
    {
      if value.Some? && value.value !in fs {
        return false;
      }
      iconPath := value;
      return true;
    }

    /** The `license_path` setter, with the same rule as the icon's. */
    method SetLicensePath(value: Option<Path>, fs: set<Path>) returns (ok: bool)
      modifies this`licensePath
      ensures ok == Admissible(fs, value)
      ensures licensePath == if ok then value else old(licensePath)
    {
      if value.Some? && value.value !in fs {
        return false;
      }
      licensePath := value;
      return true;
    }

    /** The `try: import pup_setup ... except:` block of `__init__`. */
    method ApplySetup(setup: Option<Setup>, fs: set<Path>, cwd: Path)
      modifies this`iconPath, this`licensePath, this`identity, this`launch
      ensures Snapshot() == WithSetup(old(Snapshot()), setup, fs, cwd)
    {
      if setup.Some? {
        var s := setup.value;
        var completed := ApplySetupPaths(s, fs, cwd);
        if completed {
          ApplyOverrides(s);
        }
      }
    }

    /** The two path assignments of the setup block; `false` when one of them raised. */
    method ApplySetupPaths(s: Setup, fs: set<Path>, cwd: Path) returns (completed: bool)
      modifies this`iconPath, this`licensePath
      ensures completed == SetupCompleted(s, fs, cwd)
      ensures Assets(iconPath, licensePath) == SetupAssets(old(Assets(iconPath, licensePath)), s, fs, cwd)
    {
      if s.iconPath.Some? {
        var ok := SetIconPath(SetupPath(s.iconPath, cwd), fs);
        if !ok {
          return false;
        }
      }
      if s.licensePath.Some? {
        var ok := SetLicensePath(SetupPath(s.licensePath, cwd), fs);
        if !ok {
          return false;
        }
      }
      return true;
    }

    /** The `hasattr` chain after the two paths: an attribute the module defines is copied. */
    method ApplyOverrides(s: Setup)
      modifies this`identity, this`launch
      ensures launch == old(launch).(givenNiceName := s.niceName.GetOr(old(launch.givenNiceName)))
      ensures identity == Overrides(old(identity), s)
    {
      if s.niceName.Some? {
        launch := launch.(givenNiceName := s.niceName.value);
      }
      if s.packageName.Some? {
        identity := identity.(packageName := s.packageName.value);
      }
      if s.appId.Some? {
        identity := identity.(appId := s.appId.value);
      }
      if s.teamId.Some? {
        identity := identity.(teamId := s.teamId.value);
      }
      if s.appleUser.Some? {
        identity := identity.(appleUser := s.appleUser.value);
      }
      if s.appPassword.Some? {
        identity := identity.(appPassword := s.appPassword.value);
      }
      if s.signExtra.Some? {
        identity := identity.(signExtra := s.signExtra.value);
      }
    }

    /** The assignments of `__init__` after the setup module; `Some(e)` is the error it raises. */
    method ApplyArguments(a: Arguments, fs: set<Path>, cwd: Path) returns (err: Option<ConfigError>)
      modifies this`launch, this`iconPath, this`licensePath, this`target
      ensures err.None? <==> WithArguments(old(Snapshot()), a, fs, cwd).Success?
      ensures err.Some? ==> err.value == WithArguments(old(Snapshot()), a, fs, cwd).error
      ensures err.None? ==> Snapshot() == WithArguments(old(Snapshot()), a, fs, cwd).value
    {
      launch := LaunchOf(a);
      err := ApplyArgumentPaths(a, fs, cwd);
      if err.None? {
        target := TargetOf(a);
      }
    }

    /** Lines 81-84 of `__init__`: `Some(e)` is the error a setter raises. */
    method ApplyArgumentPaths(a: Arguments, fs: set<Path>, cwd: Path) returns (err: Option<ConfigError>)
      modifies this`iconPath, this`licensePath
      ensures var r := ArgumentAssets(old(Assets(iconPath, licensePath)), a, fs, cwd);
              && (err.None? <==> r.Success?)
              && (err.None? ==> Assets(iconPath, licensePath) == r.value)
              && (err.Some? ==> err.value == r.error)
    {
      if a.iconPath != "" {
        var icon := Absolute(cwd, a.iconPath);
        var ok := SetIconPath(Some(icon), fs);
        if !ok {
          return Some(NonExistentIcon(icon));
        }
      }
      if a.licensePath != "" {
        var license := Absolute(cwd, a.licensePath);
        var ok := SetLicensePath(Some(license), fs);
        if !ok {
          return Some(NonExistentLicense(license));
        }
      }
      return None;
    }

    /** The `nice_name` property, evaluated on the current metadata; `None` when reading it raises. */
    function NiceName(): (r: Option<string>)
      reads this
      ensures launch.givenNiceName != "" ==> r == Some(launch.givenNiceName)
      ensures launch.givenNiceName == "" && build.srcMetadata.Some? ==> r == Some(build.srcMetadata.value.name)
      ensures r.None? <==> launch.givenNiceName == "" && build.srcMetadata.None?
    {
      NiceNameOf(launch.givenNiceName, build.srcMetadata)
    }

    /**
     * The `application_id` property, evaluated on the current metadata;
     * `None` when reading it raises.
     */
    function ApplicationId(): (r: Option<string>)
      reads this
      ensures identity.appId != "" ==> r == Some(identity.appId)
      ensures r.Some? <==> identity.appId != "" || build.srcMetadata.Some?
      ensures identity.appId == "" && r.Some? ==> EndsWith(r.value, build.srcMetadata.value.name)
    {
      IdentifierDerived(build.srcMetadata);
      IdentifierOf(identity.appId, build.srcMetadata)
    }
  }

  /** `Context(...)`: a new context in the state `Construct` describes, or the error it raises. */
  method NewContext(a: Arguments, setup: Option<Setup>, fs: set<Path>, cwd: Path)
    returns (r: Result<Context, ConfigError>)
    ensures r.Success? <==> Construct(a, setup, fs, cwd).Success?
    ensures r.Success? ==> fresh(r.value) && r.value.Snapshot() == Construct(a, setup, fs, cwd).value
    ensures r.Failure? ==> r.error == Construct(a, setup, fs, cwd).error
  {
    var ctx := new Context.Blank(a.src);
    ctx.ApplySetup(setup, fs, cwd);
    var err := ctx.ApplyArguments(a, fs, cwd);
    if err.Some? {
      return Failure(err.value);
    }
    return Success(ctx);
  }

  // ---------------------------------------------------------------------------
  // Properties of construction

  /** Construction fails exactly when a truthy icon or license argument names a path that does not exist. */
  lemma ConstructFailsOnMissingArgumentPath(a: Arguments, setup: Option<Setup>, fs: set<Path>, cwd: Path)
    ensures Construct(a, setup, fs, cwd).Failure? <==>
              (a.iconPath != "" && Absolute(cwd, a.iconPath) !in fs) ||
              (a.licensePath != "" && Absolute(cwd, a.licensePath) !in fs)
    ensures a.iconPath != "" && Absolute(cwd, a.iconPath) !in fs ==>
              Construct(a, setup, fs, cwd) == Failure(NonExistentIcon(Absolute(cwd, a.iconPath)))
    ensures (a.iconPath == "" || Absolute(cwd, a.iconPath) in fs) &&
            a.licensePath != "" && Absolute(cwd, a.licensePath) !in fs ==>
              Construct(a, setup, fs, cwd) == Failure(NonExistentLicense(Absolute(cwd, a.licensePath)))
  {
  }

  /** A built context packages for and targets the one platform it was given, with the given launch settings. */
  lemma ConstructTarget(a: Arguments, setup: Option<Setup>, fs: set<Path>, cwd: Path)
    requires Construct(a, setup, fs, cwd).Success?
    ensures Construct(a, setup, fs, cwd).value.target.pkgPlatform == a.platform
    ensures Construct(a, setup, fs, cwd).value.target.tgtPlatform == a.platform
    ensures Construct(a, setup, fs, cwd).value.target.pythonVersion == a.pythonVersion
    ensures Construct(a, setup, fs, cwd).value.target.ignorePlugins == a.ignorePlugins
    ensures Construct(a, setup, fs, cwd).value.launch.moduleName == a.launchModule
    ensures Construct(a, setup, fs, cwd).value.src == a.src
  {
  }

  /**
   * A truthy icon argument wins over the setup module; without one, the
   * setup module's icon is kept when it exists, and otherwise there is none.
   */
  lemma ConstructIconPrecedence(a: Arguments, setup: Option<Setup>, fs: set<Path>, cwd: Path)
    requires Construct(a, setup, fs, cwd).Success?
    ensures a.iconPath != "" ==>
              Construct(a, setup, fs, cwd).value.assets.iconPath == Some(Absolute(cwd, a.iconPath))
    ensures a.iconPath == "" ==>
              Construct(a, setup, fs, cwd).value.assets.iconPath ==
                if setup.Some? && setup.value.iconPath.Some? && Absolute(cwd, setup.value.iconPath.value) in fs
                then Some(Absolute(cwd, setup.value.iconPath.value))
                else None
  {
  }

  /**
   * The same precedence for the license path, which the setup module can
   * only supply when its icon, checked first, was accepted.
   */
  lemma ConstructLicensePrecedence(a: Arguments, setup: Option<Setup>, fs: set<Path>, cwd: Path)
    requires Construct(a, setup, fs, cwd).Success?
    ensures a.licensePath != "" ==>
              Construct(a, setup, fs, cwd).value.assets.licensePath == Some(Absolute(cwd, a.licensePath))
    ensures a.licensePath == "" ==>
              Construct(a, setup, fs, cwd).value.assets.licensePath ==
                if setup.Some? && setup.value.licensePath.Some?
                   && Absolute(cwd, setup.value.licensePath.value) in fs
                   && (setup.value.iconPath.Some? ==> Absolute(cwd, setup.value.iconPath.value) in fs)
                then Some(Absolute(cwd, setup.value.licensePath.value))
                else None
  {
  }

  /**
   * A setup icon that does not exist aborts the whole setup block: none of
   * the setup module's later attributes take effect.
   */
  lemma MissingSetupIconSkipsOverrides(a: Arguments, s: Setup, fs: set<Path>, cwd: Path)
    requires s.iconPath.Some? && Absolute(cwd, s.iconPath.value) !in fs
    requires Construct(a, Some(s), fs, cwd).Success?
    ensures Construct(a, Some(s), fs, cwd).value.identity == Defaults(a.src).identity
    ensures a.licensePath == "" ==> Construct(a, Some(s), fs, cwd).value.assets.licensePath == None
  {
  }

  /** With admissible setup paths, every identity attribute the setup module defines is applied. */
  lemma SetupOverridesApplied(a: Arguments, s: Setup, fs: set<Path>, cwd: Path)
    requires s.iconPath.Some? ==> Absolute(cwd, s.iconPath.value) in fs
    requires s.licensePath.Some? ==> Absolute(cwd, s.licensePath.value) in fs
    requires Construct(a, Some(s), fs, cwd).Success?
    ensures Construct(a, Some(s), fs, cwd).value.identity ==
              Identity(s.packageName.GetOr(""), s.appId.GetOr(""), s.appleUser.GetOr(""),
                       s.teamId.GetOr(""), s.appPassword.GetOr(""), s.signExtra.GetOr([]))
  {
  }

  /** Without a setup module the identity keeps its defaults. */
  lemma NoSetupKeepsDefaults(a: Arguments, fs: set<Path>, cwd: Path)
    requires Construct(a, None, fs, cwd).Success?
    ensures Construct(a, None, fs, cwd).value.identity == Defaults(a.src).identity
    ensures a.iconPath == "" ==> Construct(a, None, fs, cwd).value.assets.iconPath == None
  {
  }

  /** The nice-name argument is assigned after the setup block, so a setup `nice_name` never survives. */
  lemma SetupNiceNameOverwritten(a: Arguments, setup: Option<Setup>, fs: set<Path>, cwd: Path)
    requires Construct(a, setup, fs, cwd).Success?
    ensures Construct(a, setup, fs, cwd).value.launch.givenNiceName == a.niceName
  {
  }

  /** Metadata, the wheel and the runtime layout are not known yet when the context is built. */
  lemma ConstructLeavesBuildUnset(a: Arguments, setup: Option<Setup>, fs: set<Path>, cwd: Path)
    requires Construct(a, setup, fs, cwd).Success?
    ensures Construct(a, setup, fs, cwd).value.build == Defaults(a.src).build
    ensures Construct(a, setup, fs, cwd).value.build.srcMetadata == None
  {
  }

  // ---------------------------------------------------------------------------
  // Properties of launch_pyflags

  /** The kept flags are exactly the truthy input flags. */
  lemma PyflagsKeepTruthy(a: Arguments, setup: Option<Setup>, fs: set<Path>, cwd: Path, x: string)
    requires Construct(a, setup, fs, cwd).Success?
    ensures x in Construct(a, setup, fs, cwd).value.launch.pyflags <==> x in a.launchPyflags && x != ""
  {
    NonEmptyMembers(a.launchPyflags, x);
  }

  /** Filtering preserves order: it distributes over concatenation. */
  lemma {:induction false} PyflagsPreserveOrder(xs: seq<string>, ys: seq<string>)
    ensures NonEmpty(xs + ys) == NonEmpty(xs) + NonEmpty(ys)
  {
    if xs != [] {
      assert (xs + ys)[0] == xs[0] && (xs + ys)[1..] == xs[1..] + ys;
      PyflagsPreserveOrder(xs[1..], ys);
    } else {
      assert xs + ys == ys;
    }
  }

  /** Flags that are all truthy are kept unchanged. */
  lemma {:induction false} PyflagsAllTruthy(flags: seq<string>)
    requires forall k :: 0 <= k < |flags| ==> flags[k] != ""
    ensures NonEmpty(flags) == flags
  {
    if flags != [] {
      PyflagsAllTruthy(flags[1..]);
      assert [flags[0]] + flags[1..] == flags;
    }
  }

  // ---------------------------------------------------------------------------
  // Properties of nice_name

  /** A truthy given name wins; otherwise the metadata name, or failure when there is no metadata. */
  lemma NiceNameFallback(given: string, metadata: Option<Metadata>)
    ensures given != "" ==> NiceNameOf(given, metadata) == Some(given)
    ensures given == "" && metadata.Some? ==> NiceNameOf(given, metadata) == Some(metadata.value.name)
    ensures NiceNameOf(given, metadata).None? <==> given == "" && metadata.None?
  {
  }

  /**
   * Reading `nice_name` right after construction, with no nice-name
   * argument, fails; once metadata is collected the same context yields the
   * metadata name.
   */
  lemma NiceNameIsLazy(a: Arguments, setup: Option<Setup>, fs: set<Path>, cwd: Path, m: Metadata)
    requires Construct(a, setup, fs, cwd).Success?
    requires a.niceName == ""
    ensures NiceNameOf(Construct(a, setup, fs, cwd).value.launch.givenNiceName,
                       Construct(a, setup, fs, cwd).value.build.srcMetadata) == None
    ensures NiceNameOf(Construct(a, setup, fs, cwd).value.launch.givenNiceName, Some(m)) == Some(m.name)
  {
  }

  // ---------------------------------------------------------------------------
  // Properties of application_id

  /** A non-empty explicit id is returned verbatim, whatever the metadata says. */
  lemma IdentifierOverride(appId: string, metadata: Option<Metadata>)
    requires appId != ""
    ensures IdentifierOf(appId, metadata) == Some(appId)
  {
  }

  /** Without an explicit id the identifier needs metadata, and ends with the package name. */
  lemma IdentifierDerived(metadata: Option<Metadata>)
    ensures IdentifierOf("", metadata).Some? <==> metadata.Some?
    ensures metadata.Some? ==> EndsWith(IdentifierOf("", metadata).value, metadata.value.name)
  {
    if metadata.Some? {
      var m := metadata.value;
      var r := DerivedId(m.homePage.netloc, m.homePage.path, m.name);
      assert r[|r| - |m.name|..] == m.name;
    }
  }

  /**
   * The derived identifier reads back as its parts: strip the name, split
   * on '.', and the reversed host labels come first, followed by the
   * non-empty path segments (or one empty label, the trailing '.', when the
   * path has none). Host labels are kept even when empty.
   */
  lemma {:induction false} DerivedIdLabels(netloc: string, path: string, name: string)
    requires forall k :: 0 <= k < |NonEmpty(Split(path, '/'))| ==> '.' !in NonEmpty(Split(path, '/'))[k]
    ensures |name| <= |DerivedId(netloc, path, name)|
    ensures Split(DerivedId(netloc, path, name)[..|DerivedId(netloc, path, name)| - |name|], '.') ==
              Reversed(Split(netloc, '.')) +
              (if NonEmpty(Split(path, '/')) == [] then [""] else NonEmpty(Split(path, '/')))
  {
    var hosts := Reversed(Split(netloc, '.'));
    var segments := NonEmpty(Split(path, '/'));
    var tail := if segments == [] then [""] else segments;
    var host := JoinWith('.', hosts);
    var rest := JoinWith('.', segments);
    assert rest == JoinWith('.', tail);
    var r := DerivedId(netloc, path, name);
    JoinTwo(host, rest, '.');
    assert r == host + ['.'] + rest + name;
    assert r[..|r| - |name|] == host + ['.'] + rest;
    JoinAppend(hosts, tail, '.');
    SplitPiecesLackSeparator(netloc, '.');
    forall k | 0 <= k < |hosts + tail|
      ensures '.' !in (hosts + tail)[k]
    {
      if k < |hosts| {
        ReversedAt(Split(netloc, '.'), k);
      }
    }
    SplitJoin(hosts + tail, '.');
  }

  /**
   * The example of the `application_id` doc comment, for any two host
   * labels and two path segments: `https://example.com/a/path` gives
   * `com.example.a.path`, followed by the package name the code appends.
   */
  lemma DerivedIdExample(domain: string, tld: string, dir: string, leaf: string, name: string)
    requires '.' !in domain && '.' !in tld
    requires '/' !in dir && '/' !in leaf && dir != "" && leaf != ""
    ensures DerivedId(domain + "." + tld, "/" + dir + "/" + leaf, name) ==
              tld + "." + domain + "." + dir + "." + leaf + name
  {
    var netloc := domain + "." + tld;
    SplitTwo(domain, tld, '.');
    assert Reversed([domain, tld]) == [tld, domain] by {
      assert [domain, tld][1..] == [tld];
      assert [tld][1..] == [];
    }
    var host := tld + "." + domain;
    JoinTwo(tld, domain, '.');
    var segments := dir + "/" + leaf;
    SplitTwo(dir, leaf, '/');
    var path := "/" + dir + "/" + leaf;
    assert path == "" + ['/'] + segments;
    SplitAfterPiece("", segments, '/');
    assert Split(path, '/') == ["", dir, leaf];
    assert NonEmpty([leaf]) == [leaf] by {
      assert [leaf][1..] == [];
    }
    assert NonEmpty([dir, leaf]) == [dir, leaf] by {
      assert [dir, leaf][1..] == [leaf];
    }
    assert NonEmpty(["", dir, leaf]) == [dir, leaf] by {
      assert ["", dir, leaf][1..] == [dir, leaf];
    }
    var rest := dir + "." + leaf;
    JoinTwo(dir, leaf, '.');
    JoinTwo(host, rest, '.');
  }
}
