# pup, modelled in Dafny

`pup` packages a Python project as a native application. This project models
the core of that packager and proves what it does:

- **The packaging context** (`pup.context.Context`). Construction layers three
  sources in order: the class defaults, the attributes of an optional
  `pup_setup` module in the source tree, then the explicit arguments. The
  `icon_path` and `license_path` setters refuse a path that does not exist.
  `nice_name` and `application_id` are derived on each read.
- **The driver** (`pup.api.package`). It collects the project's metadata, then
  runs every step the dispatcher yields, in order, each between a "starting"
  and a "completed" log line. The first exception ends the run.
- **The `mac.sign-app-bundle` step**. It signs with `codesign`, in this order:
  - the extra files listed by the project's `pup_extra` module;
  - the regular files next to the Python executable;
  - every framework and shared library in the application bundle;
  - the contents of every `.zip` and `.whl` archive in the bundle, which it
    extracts, signs as a bundle of its own and repacks in place, recursively;
  - the bundle itself.

  It then runs `spctl` to assess the result.
- **The `pup.pip-install` step**. It reports where it applies, and running it
  only logs a reminder.

## Structure

- `wrappers.dfy` (`Wrappers`): `Option` and `Result`.
- `paths.dfy` (`Paths`): paths as strings. Joining mirrors pathlib's `/`:
  an absolute right-hand side wins. Also `absolute()` and `parent`.
- `text.dfy` (`Text`): `str.split`, `'.'.join`, `reversed` and
  `filter(None, …)`, with their round-trip lemmas.
- `context.dfy` (`BuildContext`): the context.
  - The functions `Construct`, `NiceNameOf` and `IdentifierOf` are its
    specification.
  - The class `Context` performs `__init__` assignment by assignment.
    `NewContext` is proved to end in the state `Construct` describes.
- `runtime.dfy` (`Runtime`): what a step can do to the world.
  - `Host` is the dispatcher's `spawn`, the working directory and the scratch
    directory.
  - `Run` is the commands a call records, and whether it returned rather than
    raised.
- `tree.dfy` (`Bundle`): a directory tree, and pathlib's `glob('*')` and
  `glob('**/pattern')` over it. A reference enumeration is proved to find
  the same paths.
- `sign.dfy` (`MacSign`): the signing step.
  - One function per phase says which commands it spawns, in which order and
    in which directory.
  - The class `SignStep` performs the phases one spawn at a time and is proved
    to spawn exactly those commands.
- `sign_properties.dfy` (`SignProperties`): which paths each phase signs,
  that the step finishes once every tool is found, and how an archive is
  extracted and repacked.
- `pip_install.dfy` (`PipInstall`): the pip-install step.
- `api.dfy` (`Driver`): `package`, against a dispatcher given by which steps
  it yields and which calls raise.

## How the model reads the code

- **Exceptions.** An exception is a `false` result or `Run.completed == false`.
  The commands recorded before it are kept. The core catches exceptions in
  two places, and both are modelled. The bare `except` around `pup_setup`
  in `Context.__init__` ends the setup block. The signing step's
  `except KeyError` for a missing `PUP_SIGNING_IDENTITY` logs an error and
  returns; this is the outcome `Skipped`.
- **Spawning.** A spawn fails only when the executable was not found, that is
  when `shutil.which` answered `None`. Then nothing is recorded and the call
  raises. The core never looks at exit codes.
- **Truthiness.** A `Path` is always truthy. So an icon or license path from
  the setup module is always checked for existence, while an empty string
  argument is skipped. A string argument of `None` is the empty string here.
- **The setup block is aborted by a bad path.** A setup path that does not
  exist raises inside the `try` block. The rest of that block, including the
  identity attributes, is then skipped (`MissingSetupIconSkipsOverrides`).
- **Given name versus setup name.** The given nice name is assigned after the
  setup block, so a `nice_name` from `pup_setup` never survives
  construction (`SetupNiceNameOverwritten`).
- **The derived identifier.** The code appends the package name to the
  joined host and path parts with no separator. The docstring's example
  (lines 141-143 of `src/pup/context.py`) leaves the name out. The model
  follows the code (`DerivedIdExample`).
- **The signing step's order of operations.** `__call__` sets the identity,
  then reads the nice name and the executable's directory. Only after that
  does it set `codesign` and the entitlements, then read the site-packages
  directory, then import `pup_extra`. Every early exit happens before any
  spawn (`EarlyExitsSpawnNothing`).
- **Shared libraries include symbolic links.** `_sign_shared_libs` signs
  every match, symbolic links included, while the other phases skip links
  (`SymlinkedLibrarySigned`).

## Model

| member | source | states |
|---|---|---|
| BuildContext.NewContext | src/pup/context.py:15-90 | A new context is built exactly when `Construct` succeeds. It is fresh and its attributes are `Construct`'s value. Otherwise the error raised is `Construct`'s error. |
| BuildContext.Context.Blank | src/pup/context.py:29-51 | Before the setup module is imported, every attribute holds its default: no icon or license, empty identity strings, nothing known about the build. |
| BuildContext.Context.SetIconPath | src/pup/context.py:111-116 | The setter accepts exactly nothing or an existing path, and assigns it. A refused path leaves the icon unchanged. |
| BuildContext.Context.SetLicensePath | src/pup/context.py:126-131 | The same rule as the icon setter, for the license path. |
| BuildContext.Context.ApplySetup | src/pup/context.py:53-75 | The `pup_setup` block leaves the context as `WithSetup` says. It does nothing when the module is missing. When a path check raises, the rest is skipped. |
| BuildContext.Context.ApplySetupPaths | src/pup/context.py:56-59 | The block gets past its two paths exactly when both exist. The paths end as `SetupAssets` says: the icon first, and the license only if the icon passed. |
| BuildContext.Context.ApplyOverrides | src/pup/context.py:60-73 | Each identity attribute and the nice name the module defines replaces the current value. The others are kept. |
| BuildContext.Context.ApplyArguments | src/pup/context.py:77-90 | The explicit arguments raise exactly when `WithArguments` fails, with its error. On success the attributes are its value. |
| BuildContext.Context.ApplyArgumentPaths | src/pup/context.py:81-84 | A truthy icon or license argument is made absolute and checked, the icon first. The first missing path is the error. |
| BuildContext.ConstructFailsOnMissingArgumentPath | src/pup/context.py:81-84 | Construction fails exactly when a truthy icon or license argument names a missing path. The icon's error comes first. |
| BuildContext.ConstructTarget | src/pup/context.py:77-90 | A built context packages on and for the one given platform, with the given Python version, ignored plugins, launch module and source. |
| BuildContext.ConstructIconPrecedence | src/pup/context.py:53-84 | A truthy icon argument wins. Otherwise the setup module's icon is used if it exists, else there is none. |
| BuildContext.ConstructLicensePrecedence | src/pup/context.py:53-84 | The same precedence for the license. The setup license is used only when the setup icon, checked first, was accepted. |
| BuildContext.MissingSetupIconSkipsOverrides | src/pup/context.py:54-75 | A missing setup icon aborts the setup block: the identity keeps its defaults and the setup license is not applied. |
| BuildContext.SetupOverridesApplied | src/pup/context.py:56-73 | With admissible setup paths, the identity is exactly what the setup module defines, with defaults for the rest. |
| BuildContext.NoSetupKeepsDefaults | src/pup/context.py:29-75 | Without a setup module the identity keeps its defaults, and there is no icon unless the arguments give one. |
| BuildContext.SetupNiceNameOverwritten | src/pup/context.py:60-79 | The given nice name is always the argument: a setup `nice_name` never survives. |
| BuildContext.ConstructLeavesBuildUnset | src/pup/context.py:40-51 | Construction knows no wheel, metadata or runtime layout yet. |
| BuildContext.PyflagsKeepTruthy | src/pup/context.py:78 | A flag is kept exactly when it is among the given flags and is truthy. |
| BuildContext.PyflagsPreserveOrder | src/pup/context.py:78 | Filtering the flags distributes over concatenation, so their order is kept. |
| BuildContext.PyflagsAllTruthy | src/pup/context.py:78 | Flags that are all truthy are kept unchanged. |
| BuildContext.NiceNameFallback | src/pup/context.py:95-100 | A truthy given name wins. Otherwise the metadata name is used. Reading fails exactly when there is neither. |
| BuildContext.NiceNameIsLazy | src/pup/context.py:95-100 | Without a given name, `nice_name` fails right after construction. Once metadata is collected, the same context yields the metadata name. |
| BuildContext.Context.NiceName | src/pup/context.py:95-100 | Reading `nice_name` on a context gives the truthy given name, or else the collected metadata's name. It raises exactly when there is neither. |
| BuildContext.IdentifierOverride | src/pup/context.py:145-146 | An explicit id is returned verbatim, whatever the metadata. |
| BuildContext.IdentifierDerived | src/pup/context.py:145-153 | Without an explicit id, an identifier exists exactly when metadata does, and it ends with the package name. |
| BuildContext.Context.ApplicationId | src/pup/context.py:134-153 | Reading `application_id` on a context returns a truthy explicit id verbatim. It raises exactly when there is neither an explicit id nor metadata. A derived id ends with the package name. |
| BuildContext.DerivedIdLabels | src/pup/context.py:148-153 | Strip the name from the derived identifier and split it on '.'. The result is the reversed host labels, then the non-empty path segments, or one empty label when there are none. |
| BuildContext.DerivedIdExample | src/pup/context.py:141-153 | The docstring's shape for two host labels and two path segments: `b.a.c.d` followed directly by the name. |
| Text.SplitJoin | src/pup/context.py:149-152 | Joining pieces that lack the separator and splitting the result gives the pieces back. |
| Text.JoinSplit | src/pup/context.py:149-152 | Splitting a string and joining the pieces gives the string back. |
| Paths.Join | src/pup/plugins/mac/sign.py:52-64 | pathlib's `/`: an absolute right-hand side is returned as is, and an absolute base gives an absolute path. |
| Paths.AbsoluteIsStable | src/pup/plugins/mac/sign.py:127-135 | An absolute path resolves to itself from any directory, which is why the archive path is made absolute before `chdir`. |
| Bundle.GlobIsWalkSelection | src/pup/plugins/mac/sign.py:96 | `glob('**/pattern')` finds the matching entries of a plain walk of the tree, as a permutation. |
| Bundle.GlobFindsExactly | src/pup/plugins/mac/sign.py:105 | A path is found exactly when it is in the tree and its name matches. |
| Bundle.GlobBounded | src/pup/plugins/mac/sign.py:111 | Every archive found is no larger than the tree searched, which bounds the recursion into archives. |
| Bundle.MatchingMembers | src/pup/plugins/mac/sign.py:77 | `glob('*')` finds exactly the matching entries right inside the directory, each under its own name. |
| Bundle.MatchingFindsDirectEntry | src/pup/plugins/mac/sign.py:105 | A matching entry right inside the base is found by both kinds of glob. |
| MacSign.UsableExactly | src/pup/plugins/mac/sign.py:28-33 | The signing step is usable exactly when packaging on and for macOS, and never across platforms. |
| MacSign.UsableForBuiltContext | src/pup/plugins/mac/sign.py:28-33 | A context built for one platform uses the signing step exactly when that platform is `darwin`. |
| MacSign.SignStep.constructor | src/pup/plugins/mac/sign.py:36-40 | The identity, the tool and the entitlements start unset. |
| MacSign.SignStep.Call | src/pup/plugins/mac/sign.py:42-72 | The outcome and the commands appended are those of `Signing`. The identity is set when the variable exists. The tool and the entitlements are set once the executable's directory is known. The extras are rewritten in place only when the phases are reached. |
| MacSign.SignStep.SignPhases | src/pup/plugins/mac/sign.py:66-72 | The five phases spawn exactly what `PhasesRun` says, stopping at the first that raises. The working and scratch directories are restored. |
| MacSign.SignStep.Sign | src/pup/plugins/mac/sign.py:142-162 | One `codesign` command with the identity, the entitlements and the target, or a raise when the tool is missing. |
| MacSign.SignStep.SignExtra | src/pup/plugins/mac/sign.py:81-84 | The loop spawns exactly what `ExtrasRun` says. |
| MacSign.SignStep.SignBinaries | src/pup/plugins/mac/sign.py:75-79 | Spawns exactly what `BinariesRun` says. |
| MacSign.SignStep.SignFiles | src/pup/plugins/mac/sign.py:77-79 | The loop over found paths spawns exactly what `FilesRun` says. |
| MacSign.SignStep.SignLibraries | src/pup/plugins/mac/sign.py:86-91 | Frameworks, shared libraries, `.zip` and then `.whl` archives spawn exactly what `LibrariesRun` says. The directories are restored. |
| MacSign.SignStep.SignFramework | src/pup/plugins/mac/sign.py:94-99 | Spawns exactly what `FrameworkRun` says. |
| MacSign.SignStep.SignFrameworks | src/pup/plugins/mac/sign.py:96-99 | The outer loop spawns exactly what `FrameworksRun` says. |
| MacSign.SignStep.SignSharedLibs | src/pup/plugins/mac/sign.py:102-106 | The two nested loops spawn exactly what `SharedLibsRun` says. |
| MacSign.SignStep.SignBundledZips | src/pup/plugins/mac/sign.py:109-112 | One extract-sign-repack cycle per archive found, exactly as `BundledZipsRun` says. |
| MacSign.SignStep.SignZipContents | src/pup/plugins/mac/sign.py:115-139 | Extract, sign as a bundle, then repack from inside the scratch directory, exactly as `ZipCycle` says. The working directory is restored and the scratch directory removed on every path. |
| MacSign.SignStep.AssessSigningResult | src/pup/plugins/mac/sign.py:165-178 | One `spctl --assess -vvvv` command on the bundle, or a raise when the tool is missing. |
| MacSign.SignStep.RewriteExtras | src/pup/plugins/mac/sign.py:63-64 | Each listed entry is replaced in place by itself resolved against site-packages. |
| MacSign.RegularOfMembers | src/pup/plugins/mac/sign.py:82-83 | The filter keeps exactly the listed paths that are regular files and not links. |
| SignProperties.SignEachAppend | src/pup/plugins/mac/sign.py:142-162 | Signing a list in two parts is signing the first part, then the second unless the first raised. |
| SignProperties.SignEachWithTool | src/pup/plugins/mac/sign.py:142-162 | With `codesign` found, each target gets exactly one command, in list order, and the loop completes. |
| SignProperties.SignEachWithoutTool | src/pup/plugins/mac/sign.py:142-162 | Without `codesign`, nothing is recorded, and the loop completes only when there is nothing to sign. |
| SignProperties.SignedExactly | src/pup/plugins/mac/sign.py:142-162 | With `codesign` found, a path is signed exactly when it is one of the targets. |
| SignProperties.FilesRunSignsRegularFiles | src/pup/plugins/mac/sign.py:77-79 | The loop over found paths signs exactly their regular files, in order. |
| SignProperties.ExtrasRunSignsRegular | src/pup/plugins/mac/sign.py:81-84 | `_sign_extra` signs exactly the listed regular files, in list order. |
| SignProperties.ExtrasSignedExactly | src/pup/plugins/mac/sign.py:81-84 | With `codesign` found, it completes and signs a path exactly when the path is listed and is a regular file. |
| SignProperties.BinariesSignedExactly | src/pup/plugins/mac/sign.py:75-79 | With `codesign` found, it completes and signs a path exactly when the path names a regular file right inside the executable's directory. |
| SignProperties.RegularFilesOfEachMembers | src/pup/plugins/mac/sign.py:96-98 | A path is among the regular files of the groups exactly when some group holds it as a regular file. |
| SignProperties.FrameworksRunSignsEach | src/pup/plugins/mac/sign.py:96-99 | The outer loop signs the regular files of each framework in turn. |
| SignProperties.FrameworksSignedExactly | src/pup/plugins/mac/sign.py:96-99 | With `codesign` found, it completes and signs exactly the regular files of the groups. |
| SignProperties.ContentsOfMembers | src/pup/plugins/mac/sign.py:96-97 | A regular file is in some framework's group exactly when some framework found holds it. |
| SignProperties.FrameworkSignedExactly | src/pup/plugins/mac/sign.py:94-99 | With `codesign` found, it completes and signs exactly the regular files anywhere inside a `*.framework` anywhere below the base. |
| SignProperties.SharedLibsInGlobOrder | src/pup/plugins/mac/sign.py:102-106 | It signs every path the `*.so` glob yields, then every path the `*.dylib` glob yields. |
| SignProperties.SymlinkedLibrarySigned | src/pup/plugins/mac/sign.py:102-106 | With `codesign` found, a symbolic link named `*.dylib` right inside the base is signed. |
| SignProperties.LibrariesComplete | src/pup/plugins/mac/sign.py:86-91 | With `codesign`, `unzip` and `zip` found, `_sign_libraries` completes, however deeply archives nest. |
| SignProperties.BundledZipsComplete | src/pup/plugins/mac/sign.py:109-112 | With every tool found, each archive cycle completes. |
| SignProperties.ZipsComplete | src/pup/plugins/mac/sign.py:111-112 | With every tool found, the loop over the archives found completes. |
| SignProperties.ZipCycleComplete | src/pup/plugins/mac/sign.py:115-139 | With every tool found, one extract-sign-repack cycle completes. |
| SignProperties.ZipCycleStartsWithUnzip | src/pup/plugins/mac/sign.py:119-125 | A cycle begins by running `unzip <archive> -d <scratch>` from the current directory. |
| SignProperties.ZipCycleEndsWithZip | src/pup/plugins/mac/sign.py:127-139 | A cycle that completes ends by running `zip -qyr <absolute archive> .` from inside the scratch directory. |
| SignProperties.RepackTargetsExtractedArchive | src/pup/plugins/mac/sign.py:119-137 | The repack runs in the directory the archive was extracted into, and writes back to the same archive. |
| SignProperties.PhasesComplete | src/pup/plugins/mac/sign.py:66-72 | With every tool found, the phases complete. They sign the extras, the executables and the libraries, then the bundle, and `spctl` assesses the bundle last. |
| SignProperties.SigningFinishes | src/pup/plugins/mac/sign.py:42-72 | With every prerequisite met and every tool found, the step finishes, spawning exactly what its phases spawn. |
| SignProperties.NoToolMeansMissingTool | src/pup/plugins/mac/sign.py:42-72 | The step raises for a missing tool only when one of the four tools is indeed missing. |
| SignProperties.EarlyExitsSpawnNothing | src/pup/plugins/mac/sign.py:44-62 | The step is skipped exactly when no identity is set. Every other early exit raises with nothing spawned. Anything spawned means every prerequisite was met. |
| SignProperties.RebasedIdempotent | src/pup/plugins/mac/sign.py:63-64 | Rewriting the extras twice gives the same list as rewriting once, when site-packages is absolute. |
| PipInstall.UsableExactly | src/pup/plugins/pip_install.py:18-25 | The step is usable exactly for macOS to macOS and for Windows to Windows. |
| PipInstall.NotUsableAcrossPlatforms | src/pup/plugins/pip_install.py:24 | Packaging for a platform other than the one packaged on never uses the step. |
| PipInstall.NotUsableElsewhere | src/pup/plugins/pip_install.py:21-22 | Packaging on any platform but macOS and Windows never uses the step. |
| PipInstall.UsableWhereSigning | src/pup/plugins/pip_install.py:18-25 | Wherever the signing step is usable, this one is too. |
| PipInstall.Call | src/pup/plugins/pip_install.py:27-30 | Running the step logs the reminder and changes neither the context nor the dispatcher. |
| Driver.FirstRaising | src/pup/api.py:38-41 | The index of the first step that raises: every earlier step returns. It equals the number of steps when none raises. |
| Driver.Session.CollectSrcMetadata | src/pup/api.py:36 | The metadata call is recorded, and it raises exactly when the dispatcher's collection does. |
| Driver.Session.Steps | src/pup/api.py:38 | The steps the dispatcher yields. |
| Driver.Session.RunPluggableStep | src/pup/api.py:40 | The run is recorded, and it raises exactly when the step does. |
| Driver.Session.Log | src/pup/api.py:31 | A log line is appended to the record. |
| Driver.Package | src/pup/api.py:29-43 | The events appended and the outcome are exactly `PackageTrace`'s. |
| Driver.RunsOfBracketed | src/pup/api.py:38-41 | The runs inside the brackets of returning steps are those steps, in order. |
| Driver.BracketedRuns | src/pup/api.py:38-41 | Inside the brackets, every run sits between its own starting and completed lines. |
| Driver.MetadataFirst | src/pup/api.py:31-36 | The starting line and then the metadata collection come first, before any step runs. |
| Driver.EveryStepOnceInOrder | src/pup/api.py:29-43 | `package` returns exactly when neither the metadata nor any step raises. Then every step has run exactly once, in order, and the completed line comes last. |
| Driver.RunsAreBracketed | src/pup/api.py:38-41 | Every run comes right after its starting line. Unless the step raises, its completed line comes right after it. |
| Driver.FailureRunsPrefix | src/pup/api.py:38-41 | When a step raises, the steps run are those before it, then that step. |
| Driver.FailureHalts | src/pup/api.py:38-43 | A step that raises is the last event: neither later steps nor the completed line follow. |
| Driver.MetadataFailureHalts | src/pup/api.py:36 | When collecting the metadata raises, no step runs at all. |

## Left out

- Logging and `print` calls are not modelled. The driver's "starting" and "completed" lines are kept as events. The signing step's error for a missing identity is the outcome `Skipped`.
- The metadata step (`src/pup/plugins/metadata.py`) is not modelled. Metadata is a given value holding the name and the two parts of the home page that `urlsplit` yields; URL parsing itself is not modelled.
- `sys.path.insert` and the imports of `pup_setup` and `pup_extra` are not modelled. Each module is a given value: an `Option` of its attributes, or of the `sign_extra` array.
- The signing step takes `shutil.which`, the environment, the entitlements resource location and the build directory as given values. No lookup is performed.
- The scratch directories' names: `tempfile` picks random names, and the model names them `sign-zip-<depth>` under the build directory. The code only needs them to be distinct while alive.
- The dispatcher's `spawn` is modelled through the executable-missing failure only. Output callbacks, exit codes and process I/O are not modelled.
- Archive contents after a repack are not modelled. What `unzip` extracts is part of the archive's entry in the tree, and the tree is not updated by signing.
- The tree is a snapshot. The regular-file test of the extras uses a given set, independent of the tree. Symbolic link targets are not followed. Path normalisation (`..`, repeated slashes) is not modelled.
- Bundle.Glob: the order is that of Python 3.8 to 3.11, depth first. Python 3.12 lists all of a directory's subdirectories before descending into any of them. It yields the same entries, the multiset `Bundle.GlobIsWalkSelection` proves, in that other order. So the `codesign` order that `MacSign.SignStep.SignFramework`, `MacSign.SignStep.SignSharedLibs`, `MacSign.SignStep.SignBundledZips` and `SignProperties.SharedLibsInGlobOrder` state is the order on 3.8 to 3.11. On 3.12 only which paths are signed carries over, not their order.
- Glob details: Python's generators are modelled as lists computed up front, so a tree changed during iteration is not covered. The model finds each path once and does not model pathlib's de-duplication or the `**` behaviour change of Python 3.13.
- `MacSign.SignStep.SignFramework` computes each framework's contents up front, before signing begins, where the source globs lazily.
- `pup.api._context` passes only four of the nine keyword arguments `Context.__init__` requires, so as written it raises `TypeError`. `Driver.Package` therefore takes an already-built dispatcher as given.
- `pup.api.directories`, `pup.api.download` and the dispatcher's internals (step discovery, plugin loading, `directories()`) are not modelled.
- `PipInstall.Call` is a module-level method: the source's `Step` class has no state, so no class is modelled.
