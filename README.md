# OpenVDB Rez build recipe, modelled in Dafny

`rezbuild.py` is the Rez build script for the OpenVDB package. Rez sets up a variant's environment and calls `build(source_path, build_path, install_path_env, targets)`. The function works in four stages:

1. It reads the project version from `REZ_BUILD_PROJECT_VERSION` and the Python version from `REZ_PYTHON_MAJOR_VERSION`/`REZ_PYTHON_MINOR_VERSION`.
2. It checks that `source/openvdb-<version>` exists. It then cleans the build directory, keeping resume markers (`*.rxt`) and `variant.json`. When the `install` target is given, it also replaces the install root under `/core/Linux/APPZ/packages/openvdb/<version>/<variant subpath>`.
3. It assembles `CMAKE_PREFIX_PATH`, the Python library and header probes, `CMAKE_CXX_FLAGS` and the cmake argument list from the `REZ_*_ROOT` variables and what exists on disk.
4. It runs configure and build. When installing, it then runs `cmake --install .`, writes `lib/pkgconfig/openvdb.pc`, copies `package.py` next to the versioned install tree and touches the `build.rxt` marker.

The project is split into six modules:

| module | what it models |
|---|---|
| `Text` (text.dfy) | `str.join`, `str.split`, `startswith` and `endswith`, on `seq<char>` |
| `PosixPath` (posix_path.dfy) | `os.path.join` on POSIX: an absolute component replaces the path so far, and a relative one is appended after a single `/` |
| `PkgConfig` (pkg_config.dfy) | `write_pkgconfig`: the `openvdb.pc` text as a list of lines, its directory and path, and a `.pc` reader that parses the text back |
| `BuildDir` (build_dir.dfy) | the build directory as a class whose fields the methods update: `clean_build_dir` as a loop over the listing, `os.makedirs(..., exist_ok=True)`, and the touch of the marker |
| `Resolver` (resolver.dfy) | everything `build` derives before it runs a command (see below) |
| `Build` (build.dfy) | the steps that act on the world, as a trace of effects that stops at the first failure (see below) |

`Resolver` covers:
- the version and source checks and the Python version default;
- the interpreter choice and the install root;
- the prefix path;
- the probe loops;
- the flag and argument lists.

`Resolve` is the imperative form of this stage, with loops and appends. It is proved equal to the function `Configuration`.

`Build` covers the steps that act on the world. Everything they depend on once the configuration is known is gathered into a `Job` value by `JobOf`:
- the paths: build path, install root, pkg-config directory, path and text, server base, `package.py` source and target, marker;
- the commands;
- the facts about the filesystem the steps run into.

`RunBuild` runs those steps against a `BuildDirectory`, and its result and new state are proved equal to `Plan`. The ordering lemmas are stated over `Execute` for every job.

The outside world is a set of parameters:
- `Host.env` is the environment.
- `Host.fs` is a snapshot of which paths are directories and which are other files.
- `Host.fallbackPython` is what `shutil.which("python3") or sys.executable` yields.
- `Host.failing` is the set of command lines that exit with a non-zero status.

A `Fatal` value records each exception that ends the script: `sys.exit`, `FileNotFoundError`, `FileExistsError`, `CalledProcessError` or `IsADirectoryError`.

`CMAKE_PREFIX_PATH` keeps duplicate values: a root set in two of the nine variables appears twice (`PrefixPathsInOrder`).

## Model

| member | source | states |
|---|---|---|
| Text.SplitJoin | rezbuild.py:116-117 | splitting a `";".join` on `;` gives back the list, when no element holds a `;` |
| PosixPath.JoinEndsWith | rezbuild.py:126 | `os.path.join(a, b)` always ends with `b` |
| PosixPath.JoinRelative | rezbuild.py:90 | joining a relative name appends it after one separator |
| PosixPath.Join3Relative | rezbuild.py:45 | a three-part join of a bare name and a relative name puts exactly one `/` between each pair |
| PkgConfig.Variable | rezbuild.py:48-51 | a `name=value` line holds no newline when its value holds none |
| PkgConfig.Keyword | rezbuild.py:53-58 | a `Name: value` line holds no newline when its value holds none |
| PkgConfig.PcPathUnderRoot | rezbuild.py:45-60 | the file goes in `<install_root>/lib/pkgconfig`, named `openvdb.pc` |
| PkgConfig.PcTextLines | rezbuild.py:47-59 | the text is the template's eleven lines, each ending in a newline and holding no other; splitting it on newlines gives those lines plus the empty piece after the final newline |
| PkgConfig.ReadBack | rezbuild.py:47-59 | line by line, the text is `prefix=<root>`, `exec_prefix`, `libdir` and `includedir` in terms of `${prefix}`, a blank line, then `Name`, `Description`, `Version: <version>`, `Requires`, `Libs` and `Cflags`, and the empty piece after the final newline |
| PkgConfig.PcRoundTrip | rezbuild.py:47-59 | a `.pc` reader reads back the install root as `prefix` and the version as `Version` |
| PkgConfig.PcDirsUnderPrefix | rezbuild.py:50-51 | the reader finds `libdir` and `includedir` declared relative to `${prefix}` |
| PkgConfig.Lookup | rezbuild.py:47-59 | a value the reader finds is the rest of one of the lines after the key |
| BuildDir.KeptEntries | rezbuild.py:26-33 | after a clean, exactly the entries ending in `.rxt` or named `variant.json` remain, with their kinds |
| BuildDir.CleanIdempotent | rezbuild.py:22-33 | cleaning a cleaned directory changes nothing |
| BuildDir.MarkerSurvivesClean | rezbuild.py:27 | `build.rxt` is on the allow-list, so a clean keeps it |
| BuildDir.Cleaned | rezbuild.py:22-33 | a clean keeps what stands at the path; in a directory it keeps exactly the allow-listed entries, and anything else is left alone |
| BuildDir.MadeDirs | rezbuild.py:96 | `os.makedirs(exist_ok=True)` fails exactly on a regular file; otherwise a directory stands there with its entries unchanged |
| BuildDir.Touched | rezbuild.py:195 | opening the marker for append succeeds exactly in a directory with no folder of that name, and then leaves a file of that name with the other names unchanged |
| BuildDir.BuildDirectory.constructor | rezbuild.py:22 | the build path as found when the script starts |
| BuildDir.BuildDirectory.Clean | rezbuild.py:22-33 | the loop over `os.listdir` removes every entry outside the allow-list and nothing else, and a non-directory is left untouched |
| BuildDir.BuildDirectory.MakeDirs | rezbuild.py:96 | the build path becomes a directory unless a regular file stands there, in which case the call fails |
| BuildDir.BuildDirectory.Touch | rezbuild.py:193-195 | the marker becomes a file in the directory, unless a folder of that name is in the way |
| Resolver.PythonVersion | rezbuild.py:72-74 | with neither variable set the version is `3.13`; with both set it is `major.minor` |
| Resolver.SourceDir | rezbuild.py:90 | the source tree is `<source_path>/source/openvdb-<version>` |
| Resolver.SetValuesAppend | rezbuild.py:116 | the comprehension over two lists of variables is the concatenation of the comprehensions |
| Resolver.SetValuesMembers | rezbuild.py:116 | a value is in `prefix_paths` exactly when some listed variable is set to it and is non-empty |
| Resolver.SetValuesEmpty | rezbuild.py:116 | `prefix_paths` is empty exactly when no listed variable is set and non-empty |
| Resolver.SetValuesStep | rezbuild.py:116 | the comprehension from one position is that variable's value, when set, followed by the rest |
| Resolver.PrefixPathsInOrder | rezbuild.py:105-116 | `prefix_paths` is the values of the nine variables that are set and non-empty, in list order, with duplicates kept |
| Resolver.CmakePrefixEmpty | rezbuild.py:116-117 | `CMAKE_PREFIX_PATH` is empty exactly when none of the nine variables is set and non-empty |
| Resolver.CmakePrefixSplits | rezbuild.py:116-117 | splitting `CMAKE_PREFIX_PATH` on `;` gives back the roots, when at least one is set and none holds a `;` |
| Resolver.FirstPresentIndex | rezbuild.py:124-136 | the position a probe stops at holds a present candidate, and every earlier candidate is absent |
| Resolver.Probe | rezbuild.py:124-136 | the loop with its `break` leaves the first candidate that is present, or `""` when none is |
| Resolver.ProbeChoice | rezbuild.py:124-136 | the library probe tries `libpython<v>.so` and then `libpython<v>m.so` by existence; the header probe tries `python<v>` and then `python<v>m` as directories |
| Resolver.AppendWhen | rezbuild.py:144-151 | a conditional `append` adds its element exactly when its condition holds |
| Resolver.CxxFlagParts | rezbuild.py:143-151 | the appends build the deprecation switch followed by the oneAPI TBB, Python and robin-map include flags, each only when its condition holds |
| Resolver.CxxFlagsShape | rezbuild.py:143-152 | the flag list opens with the deprecation switch, has between one and four elements, and every element after the first is an `-I` flag |
| Resolver.CxxFlagsPython | rezbuild.py:148-149 | the Python header flag is present exactly when the header probe found a directory |
| Resolver.FixedArgs | rezbuild.py:155-167 | every configure starts with eleven arguments: `cmake <src>` first, then the install prefix |
| Resolver.CmakeArgList | rezbuild.py:155-175 | the configure line has between 11 and 15 arguments, and its second is the install prefix |
| Resolver.BuildCmakeArgs | rezbuild.py:155-175 | the appends build the fixed arguments followed by the optional ones, each under its own condition, in source order |
| Resolver.InAppendWhen | rezbuild.py:168-175 | an element is in a list after a conditional append exactly when it was there already or is the appended element with its condition holding |
| Resolver.InFour | rezbuild.py:168-175 | four conditional appends of different elements contain each element exactly when its condition holds |
| Resolver.CmakeArgsShape | rezbuild.py:155-175 | the first eleven arguments are the fixed ones. The rest are exactly the optional arguments whose conditions hold: the library and header when probed, the TBB root when set, the TBB CMake directory when it exists |
| Resolver.Configuration | rezbuild.py:66-92 | the run stops with the version error exactly when the version is unset or empty. Otherwise it stops with the source error exactly when the source tree is missing; these are the only two errors. A configured run carries the version and an existing source tree |
| Resolver.Resolve | rezbuild.py:66-175 | the step-by-step derivation, with its loops and appends, gives the same result as `Configuration` |
| Resolver.InstallPrefixArgument | rezbuild.py:155-157 | cmake's install prefix is the deployment path `/core/Linux/APPZ/packages/openvdb/<version>/<variant subpath>` when installing, and the path Rez passed in otherwise |
| Resolver.PythonExecutableArgument | rezbuild.py:78-163 | cmake's `Python_EXECUTABLE` is `<REZ_PYTHON_ROOT>/bin/python3` when that root is set and non-empty and the path exists, and the host's fallback interpreter otherwise |
| Resolver.SettledExecutable | rezbuild.py:155-163 | the eighth cmake argument carries the interpreter chosen at the start of the run |
| Build.RunBuild | rezbuild.py:66-197 | the whole run on a build directory: the trace, the status and the directory afterwards are those of `Plan` |
| Build.PlanOk | rezbuild.py:94-197 | once both checks pass, the run is the execution of its job |
| Build.ExecuteSteps | rezbuild.py:94-102 | cleaning and creating the build directory, then clearing and creating the install root, yield the outcome of `Execute` |
| Build.CmakeSteps | rezbuild.py:177-181 | configure, then build, each stopping the run on a non-zero exit, yield the outcome of `RunCmake` |
| Build.PublishSteps | rezbuild.py:181-195 | install, pkg-config, the copy and the marker yield the outcome of `Publish`; the copy fails with `IsADirectoryError` when `package.py` is a directory and with `FileNotFoundError` when it is missing |
| Build.PublishPrefix | rezbuild.py:181-195 | publication attempts a prefix of its six steps, and all six when it completes |
| Build.RunCmakePrefix | rezbuild.py:178-195 | configure, build and publication attempt a prefix of their steps, and all of them on completion |
| Build.ExecutePrefix | rezbuild.py:94-195 | a run that passes both checks attempts at least the cleaning and creation of the build directory, and never more than the full sequence of steps; a completed run attempts all of it |
| Build.OrderInBlocks | rezbuild.py:178-195 | in a trace made of the preparation, configure/build and publication blocks, the build comes right after configure and every publication step after the build |
| Build.FullTraceBlocks | rezbuild.py:94-195 | the preparation runs no command and publishes nothing; configure precedes the build; publication steps exist only when installing, and their only command is install |
| Build.FullCompileAfterConfigure | rezbuild.py:178-179 | in the full trace the build command comes right after configure, and nothing else is a build |
| Build.FullPublicationAfterCompile | rezbuild.py:179-195 | in the full trace every publication step comes after the build, and only when installing |
| Build.FullCommands | rezbuild.py:178-182 | the only commands a run executes are configure, build and, when installing, install |
| Build.ChecksComeFirst | rezbuild.py:67-96 | the version check comes first and the source check second. A run that fails either attempts nothing and leaves the build directory as it was. Any other run starts by cleaning the build directory |
| Build.ExecuteOrdering | rezbuild.py:178-195 | in every execution the build follows configure immediately, and the install, the pkg-config write, the copy and the marker come after the build and only when installing |
| Build.ExecuteWithoutInstall | rezbuild.py:98-195 | without `install` a run attempts at most the preparation of the build directory, configure and build: it creates no install root, pkg-config or server directory, removes no install root and publishes nothing |
| Build.ExecuteAfterBuild | rezbuild.py:179-195 | every step a run attempts after the build is the next step of the install-only block, in order: install, the pkg-config directory and file, the server directory, the copy and the marker. Such steps come only when installing, and only after the build has run |
| Build.NoMarkerWithoutInstall | rezbuild.py:181-195 | without `install` a run adds no entry to the build directory |
| Build.ExecuteCompleted | rezbuild.py:177-197 | a completed run attempted every step and none of its commands is a failing one. When installing, the marker is a file in the build directory. The run reports the job's install root |
| Build.ExecuteCommandFailed | rezbuild.py:12-19 | a run stopped by a command stops right after running it, and that command is one that exits non-zero |
| Build.InstallWritesPkgConfig | rezbuild.py:183 | a completed install wrote the pkg-config text to the pkg-config path |
| Build.MarkerKeptByNextBuild | rezbuild.py:193-195 | the marker a completed install leaves survives the clean at the start of the next build |
| Build.InstallJob | rezbuild.py:181-183 | an install job deploys under `/core/Linux/APPZ/packages/openvdb/<version>/<subpath>`, writes the pc file at `<root>/lib/pkgconfig/openvdb.pc`, and writes the text from the root and the version |

## Left out

- The child processes themselves. What cmake does, the Ninja build and the installed files are not modelled. A command is an effect recorded in the trace, and `Host.failing` says which command lines exit with a non-zero status.
- The login shell that `run_cmd` wraps each command in (`bash -lc`), and the quoting of the joined command line as the shell parses it. The model keeps the command line as text.
- `shutil.which("python3") or sys.executable` is a parameter (`Host.fallbackPython`), because it depends on the search path of the running process.
- The `print` messages, which change no state.
- `package.py` and the `__main__` block: this model takes the arguments of `build` as given, and `package.py` is not part of this model.
- `Host.fs` is one snapshot taken when the script starts. Every existence test is made against it, including those that come after the build directory and the install root have been prepared. The model assumes these preparations do not touch the paths probed later: the Python and TBB roots, the robin-map root and `package.py`. It therefore assumes the build path and the install root lie outside all of them. It also assumes neither of the two lies inside the other. When they overlap, the model can differ from the script. For example, with the build path equal to the source path, `clean_build_dir` deletes `source/` and `package.py`, so the copy fails; the model lets that run complete. When installing with the build path inside an existing install root, `clean_install_dir` deletes the build directory and `makedirs` recreates only the root. The configure run from the missing working directory then fails, while the model completes the run and keeps the old `*.rxt` and `variant.json` entries. With the build path equal to the install root, the script leaves an empty build directory, while the model keeps those entries.
- `clean_install_dir` and the other writes outside the build directory (the pkg-config file, the server directory and the copy) are recorded as effects. The model does not track their result on disk.
- `Build.Execute`: does not model failures of `os.makedirs`, `shutil.rmtree`, `os.remove`, `open` or `shutil.copy` beyond the modelled ones, for example permission errors, full disks, or a regular file standing where the pkg-config or server directory goes. The modelled failures are:
  - a regular file at the build path or the install root (`FileExistsError`);
  - a missing `package.py` (`FileNotFoundError`) or a directory standing at its path (`IsADirectoryError`);
  - a folder named `build.rxt` that survives the clean (`IsADirectoryError`).
- `BuildDir.BuildDirectory.Clean`: `os.listdir` order is left arbitrary (the loop picks any remaining entry). A removal that fails is not modelled.
- The build directory is modelled on its own: files that cmake writes during the build are not added to it.
- `Resolver.PythonVersion`: its contract covers the two cases where both variables are set or neither is. A mixed case is still computed by the function (the default stands in for the missing one), but it is not stated separately.
- Unicode and bytes: paths and values are sequences of characters. No normalisation or encoding is modelled.
