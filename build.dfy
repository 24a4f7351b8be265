/**
 * The side of `build` that acts: the directory preparation, the three cmake runs and the
 * install-only publication steps, as a trace of effects that stops at the first failure.
 */
module Build {
  import opened Text
  import opened Resolver
  import opened BuildDir
  import PkgConfig
  import PosixPath

  /** The three cmake invocations. */
  datatype Phase = Configure | Compile | Install

  /** One effect on the outside world, recorded when it is attempted. */
  datatype Effect =
    | CleanBuildDir(path: string)
    | MakeDir(path: string)
    | RemoveTree(path: string)
    | Run(phase: Phase, cmd: string, cwd: string)
    | WriteFile(path: string, text: string)
    | CopyFile(src: string, dst: string)
    | TouchFile(path: string)

  /** How a run ends: the final message with the install root, or an exception. */
  datatype Status = Completed(installRoot: string) | Aborted(reason: Fatal)

  /** The effects attempted, in order, how the run ended and what the build path holds afterwards. */
  datatype Outcome = Outcome(trace: seq<Effect>, status: Status, dir: DirView)

  const CompileCmd := "cmake --build . --parallel"
  const InstallCmd := "cmake --install ."

  predicate Installing(inv: Invocation) {
    "install" in inv.targets
  }

  /** `" ".join(cmake_args)` */
  function ConfigureCmd(c: Config): string {
    Join(c.cmakeArgs, ' ')
  }

  /** `/core/Linux/APPZ/packages/openvdb/{version}`, which receives `package.py`. */
  function ServerBase(version: string): string {
    ServerRoot + version
  }

  /** `os.makedirs(install_root, exist_ok=True)` fails when a non-directory stands there. */
  predicate RootBlocked(fs: Fs, root: string) {
    root in fs.files && root !in fs.dirs
  }

  /** Everything the effects of a run depend on once the configuration is known. */
  datatype Job = Job(
    buildPath: string,
    installing: bool,
    installRoot: string,
    rootIsDir: bool,
    rootBlocked: bool,
    configure: string,
    pcDir: string,
    pcPath: string,
    pcText: string,
    serverBase: string,
    packageSource: string,
    packageTarget: string,
    packageIsDir: bool,
    packageExists: bool,
    marker: string)

  /** The job of a configured run: the paths it writes and the facts about the filesystem it acts on. */
  function JobOf(h: Host, inv: Invocation, c: Config): Job {
    var src := PosixPath.Join(inv.sourcePath, "package.py");
    Job(inv.buildPath, Installing(inv), c.installRoot, IsDir(h.fs, c.installRoot), RootBlocked(h.fs, c.installRoot),
        ConfigureCmd(c),
        PkgConfig.PcDir(c.installRoot), PkgConfig.PcPath(c.installRoot), PkgConfig.PcText(c.installRoot, c.version),
        ServerBase(c.version), src, PosixPath.Join(ServerBase(c.version), "package.py"), IsDir(h.fs, src), src in h.fs.files,
        PosixPath.Join(inv.buildPath, Marker))
  }

  /** Cleaning and creating the build directory. */
  function Preparation(j: Job): seq<Effect> {
    [CleanBuildDir(j.buildPath), MakeDir(j.buildPath)]
  }

  /** `clean_install_dir(install_root)` and `os.makedirs(install_root, exist_ok=True)`, when installing. */
  function InstallPreparation(j: Job): seq<Effect> {
    if !j.installing then []
    else (if j.rootIsDir then [RemoveTree(j.installRoot)] else []) + [MakeDir(j.installRoot)]
  }

  /** Configure, then build. */
  function Cmake(j: Job): seq<Effect> {
    [Run(Configure, j.configure, j.buildPath), Run(Compile, CompileCmd, j.buildPath)]
  }

  /** The install-only steps after the build: install, pkg-config, the `package.py` copy and the marker. */
  function Publication(j: Job): seq<Effect> {
    if !j.installing then []
    else
      [ Run(Install, InstallCmd, j.buildPath),
        MakeDir(j.pcDir),
        WriteFile(j.pcPath, j.pcText),
        MakeDir(j.serverBase),
        CopyFile(j.packageSource, j.packageTarget),
        TouchFile(j.marker) ]
  }

  /** Every effect of a run that nothing stops. */
  function FullTrace(j: Job): seq<Effect> {
    Preparation(j) + InstallPreparation(j) + Cmake(j) + Publication(j)
  }

  /** A run of `build`: both checks, then the effects up to and including the first one that fails. */
  function Plan(h: Host, inv: Invocation, v: DirView): Outcome {
    match Configuration(h, inv)
    case Err(e) => Outcome([], Aborted(e), v)
    case Ok(c) => Execute(JobOf(h, inv, c), h.failing, v)
  }

  /** The effects once the configuration is known; `failing` holds the command lines that exit non-zero. */
  function Execute(j: Job, failing: set<string>, v: DirView): Outcome {
    var made := MadeDirs(Cleaned(v));
    var t0 := Preparation(j);
    if !made.ok then Outcome(t0, Aborted(FileExists(j.buildPath)), made.view)
    else
      var t1 := t0 + InstallPreparation(j);
      if j.installing && j.rootBlocked then Outcome(t1, Aborted(FileExists(j.installRoot)), made.view)
      else RunCmake(j, failing, t1, made.view)
  }

  /** Configure and build, then publish when installing. */
  function RunCmake(j: Job, failing: set<string>, t1: seq<Effect>, d: DirView): Outcome {
    var t2 := t1 + [Run(Configure, j.configure, j.buildPath)];
    if j.configure in failing then Outcome(t2, Aborted(CommandFailed(j.configure)), d)
    else
      var t3 := t2 + [Run(Compile, CompileCmd, j.buildPath)];
      if CompileCmd in failing then Outcome(t3, Aborted(CommandFailed(CompileCmd)), d)
      else if !j.installing then Outcome(t3, Completed(j.installRoot), d)
      else Publish(j, failing, t3, d)
  }

  /** `cmake --install .`, `write_pkgconfig`, the `package.py` copy and the marker. */
  function Publish(j: Job, failing: set<string>, t3: seq<Effect>, d: DirView): Outcome {
    var t4 := t3 + [Run(Install, InstallCmd, j.buildPath)];
    if InstallCmd in failing then Outcome(t4, Aborted(CommandFailed(InstallCmd)), d)
    else
      var t5 := t4 + [MakeDir(j.pcDir), WriteFile(j.pcPath, j.pcText)];
      var t6 := t5 + [MakeDir(j.serverBase)] + [CopyFile(j.packageSource, j.packageTarget)];
      if j.packageIsDir then Outcome(t6, Aborted(IsADirectory(j.packageSource)), d)
      else if !j.packageExists then Outcome(t6, Aborted(FileNotFound(j.packageSource)), d)
      else
        var touched := Touched(d, Marker);
        var t7 := t6 + [TouchFile(j.marker)];
        if !touched.ok then Outcome(t7, Aborted(IsADirectory(j.marker)), d)
        else Outcome(t7, Completed(j.installRoot), touched.view)
  }

  // ---------------------------------------------------------------- the imperative run

  /** `build(source_path, build_path, install_path_env, targets)` acting on the build directory `bd`. */
  method RunBuild(h: Host, inv: Invocation, bd: BuildDirectory) returns (trace: seq<Effect>, status: Status)
    requires bd.Valid()
    modifies bd
    ensures bd.Valid()
    ensures Outcome(trace, status, bd.View()) == Plan(h, inv, old(bd.View()))
  {
    var r := Resolve(h, inv);
    if r.Err? {
      return [], Aborted(r.error);
    }
    var j := JobOf(h, inv, r.value);
    trace, status := ExecuteSteps(j, h.failing, bd);
    PlanOk(h, inv, r.value, old(bd.View()));
  }

  /** Once configured, a run is the execution of its job. */
  lemma PlanOk(h: Host, inv: Invocation, c: Config, v: DirView)
    requires Configuration(h, inv) == Ok(c)
    ensures Plan(h, inv, v) == Execute(JobOf(h, inv, c), h.failing, v)
  {
  }

  /** Preparing the build directory and, when installing, the install root. */
  method ExecuteSteps(j: Job, failing: set<string>, bd: BuildDirectory) returns (trace: seq<Effect>, status: Status)
    requires bd.Valid()
    modifies bd
    ensures bd.Valid()
    ensures Outcome(trace, status, bd.View()) == Execute(j, failing, old(bd.View()))
  {
    bd.Clean();
    var ok := bd.MakeDirs();
    trace := [CleanBuildDir(j.buildPath), MakeDir(j.buildPath)];
    if !ok {
      return trace, Aborted(FileExists(j.buildPath));
    }
    ghost var t0 := trace;
    if j.installing {
      if j.rootIsDir {
        trace := trace + [RemoveTree(j.installRoot)];
      }
      trace := trace + [MakeDir(j.installRoot)];
      assert trace == t0 + InstallPreparation(j);
      if j.rootBlocked {
        return trace, Aborted(FileExists(j.installRoot));
      }
    }
    trace, status := CmakeSteps(j, failing, trace, bd);
  }

  /** `run_cmd` for configure and build, then the publication when installing. */
  method CmakeSteps(j: Job, failing: set<string>, t1: seq<Effect>, bd: BuildDirectory) returns (trace: seq<Effect>, status: Status)
    requires bd.Valid()
    modifies bd
    ensures bd.Valid()
    ensures Outcome(trace, status, bd.View()) == RunCmake(j, failing, t1, old(bd.View()))
  {
    trace := t1 + [Run(Configure, j.configure, j.buildPath)];
    if j.configure in failing {
      return trace, Aborted(CommandFailed(j.configure));
    }
    trace := trace + [Run(Compile, CompileCmd, j.buildPath)];
    if CompileCmd in failing {
      return trace, Aborted(CommandFailed(CompileCmd));
    }
    if !j.installing {
      return trace, Completed(j.installRoot);
    }
    trace, status := PublishSteps(j, failing, trace, bd);
  }

  /** The install-only steps after a successful build. */
  method PublishSteps(j: Job, failing: set<string>, t3: seq<Effect>, bd: BuildDirectory) returns (trace: seq<Effect>, status: Status)
    requires bd.Valid()
    modifies bd
    ensures bd.Valid()
    ensures Outcome(trace, status, bd.View()) == Publish(j, failing, t3, old(bd.View()))
  {
    trace := t3 + [Run(Install, InstallCmd, j.buildPath)];
    if InstallCmd in failing {
      return trace, Aborted(CommandFailed(InstallCmd));
    }
    trace := trace + [MakeDir(j.pcDir), WriteFile(j.pcPath, j.pcText)];
    trace := trace + [MakeDir(j.serverBase)];
    trace := trace + [CopyFile(j.packageSource, j.packageTarget)];
    if j.packageIsDir {
      return trace, Aborted(IsADirectory(j.packageSource));
    }
    if !j.packageExists {
      return trace, Aborted(FileNotFound(j.packageSource));
    }
    var touched := bd.Touch(Marker);
    trace := trace + [TouchFile(j.marker)];
    if !touched {
      return trace, Aborted(IsADirectory(j.marker));
    }
    status := Completed(j.installRoot);
  }

  // ---------------------------------------------------------------- properties of a run

  /** The steps that only an install performs after the build: install, pkg-config, the copy, the marker. */
  predicate PublicationStep(e: Effect) {
    (e.Run? && e.phase == Install) || e.WriteFile? || e.CopyFile? || e.TouchFile?
  }

  predicate IsCompile(e: Effect) {
    e.Run? && e.phase == Compile
  }

  lemma PrefixTrans(a: seq<Effect>, b: seq<Effect>, c: seq<Effect>)
    requires a <= b && b <= c
    ensures a <= c
  {
    assert c[..|b|][..|a|] == c[..|a|];
  }

  /** The partial traces of a six-step block are prefixes of the whole. */
  lemma SixSteps(t: seq<Effect>, p: seq<Effect>)
    requires |p| == 6
    ensures t + [p[0]] <= t + p
    ensures t + [p[0]] + [p[1], p[2]] + [p[3]] + [p[4]] <= t + p
    ensures t + [p[0]] + [p[1], p[2]] + [p[3]] + [p[4]] + [p[5]] == t + p
  {
    assert t + [p[0]] == (t + p)[..|t| + 1];
    assert t + [p[0]] + [p[1], p[2]] + [p[3]] + [p[4]] == (t + p)[..|t| + 5];
  }

  /** Publication stops at its first failure: what it attempts is a prefix of all its steps. */
  lemma PublishPrefix(j: Job, failing: set<string>, t3: seq<Effect>, d: DirView)
    requires j.installing
    ensures var o := Publish(j, failing, t3, d);
      |o.trace| > |t3| && o.trace <= t3 + Publication(j)
      && (o.status.Completed? ==> o.trace == t3 + Publication(j))
  {
    SixSteps(t3, Publication(j));
  }

  /** Configure and build stop at the first failure likewise. */
  lemma RunCmakePrefix(j: Job, failing: set<string>, t1: seq<Effect>, d: DirView)
    ensures var o := RunCmake(j, failing, t1, d);
      |o.trace| > |t1| && o.trace <= t1 + Cmake(j) + Publication(j)
      && (o.status.Completed? ==> o.trace == t1 + Cmake(j) + Publication(j))
  {
    var m := Cmake(j);
    var t3 := t1 + m;
    var full := t3 + Publication(j);
    assert t1 + [m[0]] == full[..|t1| + 1];
    assert t1 + [m[0]] + [m[1]] == t3;
    if j.installing {
      PublishPrefix(j, failing, t3, d);
    } else {
      assert full == t3;
    }
  }

  /**
   * Every run that passes both checks attempts a prefix of the full trace, at least the cleaning and
   * creation of the build directory, and a completed run attempts all of it.
   */
  lemma ExecutePrefix(j: Job, failing: set<string>, v: DirView)
    ensures var o := Execute(j, failing, v);
      |o.trace| >= 2 && o.trace <= FullTrace(j)
      && (o.status.Completed? ==> o.trace == FullTrace(j))
  {
    var t0 := Preparation(j);
    var t1 := t0 + InstallPreparation(j);
    var full := FullTrace(j);
    assert t0 <= t1 && t1 <= full;
    PrefixTrans(t0, t1, full);
    var made := MadeDirs(Cleaned(v));
    if made.ok && !(j.installing && j.rootBlocked) {
      RunCmakePrefix(j, failing, t1, made.view);
    }
  }

  /**
   * In blocks `p + x + m + q` where only `m[1]` is a build and publication steps occur in `q` alone,
   * a build is always `m[1]`, right after `m[0]`, and every publication step comes after it.
   */
  lemma OrderInBlocks(p: seq<Effect>, x: seq<Effect>, m: seq<Effect>, q: seq<Effect>)
    requires |p| == 2 && |m| == 2
    requires forall e | e in p + x :: !IsCompile(e) && !PublicationStep(e)
    requires !IsCompile(m[0]) && !PublicationStep(m[0]) && IsCompile(m[1]) && !PublicationStep(m[1])
    requires forall e | e in q :: !IsCompile(e)
    ensures var full := p + x + m + q;
      var n := |p + x|;
      (forall k :: 0 <= k < |full| && IsCompile(full[k]) ==> k == n + 1 && full[k - 1] == m[0])
      && (forall k :: 0 <= k < |full| && PublicationStep(full[k]) ==> n + 1 < k && full[n + 1] == m[1] && full[k] in q)
  {
    var full := p + x + m + q;
    var n := |p + x|;
    forall k | 0 <= k < |full|
      ensures k < n ==> full[k] in p + x
      ensures n + 1 < k ==> full[k] in q
      ensures full[n] == m[0] && full[n + 1] == m[1]
    {
      if k < n {
        assert full[k] == (p + x)[k];
      } else if n + 1 < k {
        assert full[k] == q[k - n - 2];
      }
    }
  }

  /** The blocks of the full trace meet the conditions of `OrderInBlocks`. */
  lemma FullTraceBlocks(j: Job)
    ensures forall e | e in Preparation(j) + InstallPreparation(j) :: !e.Run? && !PublicationStep(e)
    ensures var m := Cmake(j); |m| == 2 && !IsCompile(m[0]) && !PublicationStep(m[0]) && IsCompile(m[1]) && !PublicationStep(m[1])
    ensures forall e | e in Publication(j) :: !IsCompile(e) && j.installing && (e.Run? ==> e.cmd == InstallCmd)
  {
    var x := Preparation(j) + InstallPreparation(j);
    assert forall e | e in x :: e.CleanBuildDir? || e.RemoveTree? || e.MakeDir?;
  }

  /** In the full trace, the build command follows configure immediately, and nothing else is a build. */
  lemma FullCompileAfterConfigure(j: Job)
    ensures var full := FullTrace(j);
      forall k :: 0 <= k < |full| && IsCompile(full[k]) ==> k > 0 && full[k - 1] == Run(Configure, j.configure, j.buildPath)
  {
    FullTraceBlocks(j);
    OrderInBlocks(Preparation(j), InstallPreparation(j), Cmake(j), Publication(j));
  }

  /** In the full trace, every publication step comes after the build, and only when installing. */
  lemma FullPublicationAfterCompile(j: Job)
    ensures var full := FullTrace(j);
      forall k :: 0 <= k < |full| && PublicationStep(full[k]) ==>
        j.installing && exists i :: 0 <= i < k && full[i] == Run(Compile, CompileCmd, j.buildPath)
  {
    FullTraceBlocks(j);
    var x := InstallPreparation(j);
    OrderInBlocks(Preparation(j), x, Cmake(j), Publication(j));
    var full := FullTrace(j);
    var n := |Preparation(j) + x|;
    forall k | 0 <= k < |full| && PublicationStep(full[k])
      ensures j.installing && exists i :: 0 <= i < k && full[i] == Run(Compile, CompileCmd, j.buildPath)
    {
      assert full[n + 1] == Run(Compile, CompileCmd, j.buildPath);
    }
  }

  /** The commands of the full trace are configure, build and, when installing, install. */
  lemma FullCommands(j: Job)
    ensures var full := FullTrace(j);
      forall k :: 0 <= k < |full| && full[k].Run? ==>
        full[k].cmd in {j.configure, CompileCmd} || (j.installing && full[k].cmd == InstallCmd)
  {
    FullTraceBlocks(j);
    var p, x, m, q := Preparation(j), InstallPreparation(j), Cmake(j), Publication(j);
    var full := FullTrace(j);
    assert forall k :: 0 <= k < |full| ==> full[k] in p + x || full[k] in m || full[k] in q;
  }

  /**
   * The version check comes first, then the source check; a run that fails either attempts no effect
   * and leaves the build directory as it was, and any other run starts by cleaning the build directory.
   */
  lemma ChecksComeFirst(h: Host, inv: Invocation, v: DirView)
    ensures var o := Plan(h, inv, v);
      (!IsSet(h.env, VersionVar) ==> o == Outcome([], Aborted(MissingVersion), v))
      && (IsSet(h.env, VersionVar) && !IsDir(h.fs, SourceDir(inv.sourcePath, h.env[VersionVar]))
          ==> o == Outcome([], Aborted(SourceNotFound(SourceDir(inv.sourcePath, h.env[VersionVar]))), v))
      && (o.trace != [] ==> (IsSet(h.env, VersionVar) && IsDir(h.fs, SourceDir(inv.sourcePath, h.env[VersionVar]))
                             && o.trace[0] == CleanBuildDir(inv.buildPath)))
  {
    var r := Configuration(h, inv);
    if r.Ok? {
      PlanOk(h, inv, r.value, v);
      ExecutePrefix(JobOf(h, inv, r.value), h.failing, v);
    }
  }

  /** A run attempts the build only right after configure, and publication steps only after the build and only when installing. */
  lemma ExecuteOrdering(j: Job, failing: set<string>, v: DirView)
    ensures var t := Execute(j, failing, v).trace;
      (forall k :: 0 <= k < |t| && IsCompile(t[k]) ==> k > 0 && t[k - 1] == Run(Configure, j.configure, j.buildPath))
      && (forall k :: 0 <= k < |t| && PublicationStep(t[k]) ==>
            j.installing && exists i :: 0 <= i < k && t[i] == Run(Compile, CompileCmd, j.buildPath))
  {
    var t := Execute(j, failing, v).trace;
    var full := FullTrace(j);
    ExecutePrefix(j, failing, v);
    FullCompileAfterConfigure(j);
    FullPublicationAfterCompile(j);
    assert forall k :: 0 <= k < |t| ==> t[k] == full[k];
  }

  /**
   * Without the install target a run attempts at most the build-directory preparation, configure and
   * build: it creates no install root, pkg-config or server directory, publishes nothing and removes no
   * install root.
   */
  lemma ExecuteWithoutInstall(j: Job, failing: set<string>, v: DirView)
    requires !j.installing
    ensures Execute(j, failing, v).trace <= Preparation(j) + Cmake(j)
    ensures var t := Execute(j, failing, v).trace;
      forall k :: 0 <= k < |t| ==> !PublicationStep(t[k]) && !t[k].RemoveTree?
  {
    var t := Execute(j, failing, v).trace;
    var full := FullTrace(j);
    ExecutePrefix(j, failing, v);
    assert full == Preparation(j) + Cmake(j);
    assert forall k :: 0 <= k < |t| ==> t[k] in full;
  }

  /**
   * Everything a run attempts after the build is the publication block, in order: it comes only when
   * installing and only after the build, the creation of the pkg-config and server directories included.
   */
  lemma ExecuteAfterBuild(j: Job, failing: set<string>, v: DirView)
    ensures var t := Execute(j, failing, v).trace;
      var n := |Preparation(j) + InstallPreparation(j)|;
      forall k :: n + 2 <= k < |t| ==>
        j.installing && t[n + 1] == Run(Compile, CompileCmd, j.buildPath) && t[k] == Publication(j)[k - n - 2]
  {
    var t := Execute(j, failing, v).trace;
    var px := Preparation(j) + InstallPreparation(j);
    var n := |px|;
    var full := FullTrace(j);
    ExecutePrefix(j, failing, v);
    assert full == px + Cmake(j) + Publication(j);
    assert forall k :: 0 <= k < |t| ==> t[k] == full[k];
    assert forall k :: n + 2 <= k < |full| ==> full[k] == Publication(j)[k - n - 2];
    assert n + 1 < |full| ==> full[n + 1] == Cmake(j)[1];
  }

  /** Without the install target the build directory gains no entry: only an install writes the marker. */
  lemma NoMarkerWithoutInstall(j: Job, failing: set<string>, v: DirView)
    requires !j.installing
    ensures forall n :: n in Execute(j, failing, v).dir.entries ==> n in v.entries
  {
  }

  /**
   * A completed run attempted every step, none of its commands failed, and when installing it left the
   * marker file in the build directory; the install root it reports is the job's.
   */
  lemma ExecuteCompleted(j: Job, failing: set<string>, v: DirView)
    requires Execute(j, failing, v).status.Completed?
    ensures var o := Execute(j, failing, v);
      o.status.installRoot == j.installRoot && o.trace == FullTrace(j)
      && (forall k :: 0 <= k < |o.trace| && o.trace[k].Run? ==> o.trace[k].cmd !in failing)
      && (j.installing ==> Marker in o.dir.entries && o.dir.entries[Marker] == File)
  {
    ExecutePrefix(j, failing, v);
    FullCommands(j);
  }

  /** A run that stops on a command stops right after running it, and that command is one that fails. */
  lemma ExecuteCommandFailed(j: Job, failing: set<string>, v: DirView)
    requires var s := Execute(j, failing, v).status; s.Aborted? && s.reason.CommandFailed?
    ensures var o := Execute(j, failing, v);
      |o.trace| > 0 && o.trace[|o.trace| - 1].Run? && o.trace[|o.trace| - 1].cmd == o.status.reason.cmd
      && o.status.reason.cmd in failing
  {
  }

  /** A completed install writes the job's pkg-config text to the job's pkg-config path. */
  lemma InstallWritesPkgConfig(j: Job, failing: set<string>, v: DirView)
    requires j.installing && Execute(j, failing, v).status.Completed?
    ensures WriteFile(j.pcPath, j.pcText) in Execute(j, failing, v).trace
  {
    ExecutePrefix(j, failing, v);
    assert Publication(j)[2] in FullTrace(j);
  }

  /** The marker a completed install leaves survives the cleaning of the next build. */
  lemma MarkerKeptByNextBuild(j: Job, failing: set<string>, v: DirView)
    requires j.installing && Execute(j, failing, v).status.Completed?
    ensures var d := Execute(j, failing, v).dir;
      d.state == Directory && Marker in Cleaned(d).entries && Cleaned(d).entries[Marker] == File
  {
    ExecuteCompleted(j, failing, v);
    var d := Execute(j, failing, v).dir;
    MarkerSurvivesClean(d.entries);
  }

  /** The job of an install run writes `<install root>/lib/pkgconfig/openvdb.pc` for its version, under the deployment path. */
  lemma InstallJob(h: Host, inv: Invocation)
    requires Installing(inv) && Configuration(h, inv).Ok?
    ensures var c := Configuration(h, inv).value;
      var j := JobOf(h, inv, c);
      j.installing && j.installRoot == ServerRoot + c.version + "/" + Get(h.env, VariantSubpathVar, "")
      && j.pcPath == PosixPath.AsDir(j.installRoot) + "lib" + "/" + "pkgconfig" + "/" + "openvdb.pc"
      && j.pcText == PkgConfig.PcText(j.installRoot, c.version)
  {
    var c := Configuration(h, inv).value;
    PkgConfig.PcPathUnderRoot(c.installRoot);
  }
}
