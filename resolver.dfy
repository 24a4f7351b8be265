/**
 * The decision logic of `build` in rezbuild.py: everything it derives from the environment,
 * the command-line targets and what exists on disk before it runs any command.
 */
module Resolver {
  import opened Text
  import PosixPath

  /** The process environment, `os.environ`. */
  type Env = map<string, string>

  /** A snapshot of the filesystem: the paths that are directories and those that are other files. */
  datatype Fs = Fs(dirs: set<string>, files: set<string>)

  /** `os.path.isdir(p)` */
  predicate IsDir(fs: Fs, p: string) {
    p in fs.dirs
  }

  /** `os.path.exists(p)` */
  predicate PathExists(fs: Fs, p: string) {
    p in fs.dirs || p in fs.files
  }

  /** `os.environ.get(key, default)`: the default is used only when the variable is unset. */
  function Get(env: Env, key: string, default: string): string {
    if key in env then env[key] else default
  }

  /** The variable is set and non-empty, the truth value of `os.environ.get(key)`. */
  predicate IsSet(env: Env, key: string) {
    key in env && env[key] != ""
  }

  const VersionVar := "REZ_BUILD_PROJECT_VERSION"
  const PyMajorVar := "REZ_PYTHON_MAJOR_VERSION"
  const PyMinorVar := "REZ_PYTHON_MINOR_VERSION"
  const PythonRootVar := "REZ_PYTHON_ROOT"
  const VariantSubpathVar := "REZ_BUILD_VARIANT_SUBPATH"
  const TbbRootVar := "REZ_TBB_ROOT"
  const TslRootVar := "REZ_TSL_ROBIN_MAP_ROOT"

  /** The dependency roots that make up `CMAKE_PREFIX_PATH`, in this order. */
  const DepVars: seq<string> := [
    "REZ_BOOST_ROOT",
    TbbRootVar,
    "REZ_ZLIB_ROOT",
    "REZ_OPENEXR_ROOT",
    "REZ_IMATH_ROOT",
    "REZ_BLOSC_ROOT",
    "REZ_NANOBIND_ROOT",
    TslRootVar,
    PythonRootVar
  ]

  /** Where `install` deploys: the site's package tree, one directory per version. */
  const ServerRoot := "/core/Linux/APPZ/packages/openvdb/"

  // ---------------------------------------------------------------- versions and paths

  /** `f"{py_major}.{py_minor}"`, "3" and "13" standing in for unset variables. */
  function PythonVersion(env: Env): (r: string)
    ensures PyMajorVar !in env && PyMinorVar !in env ==> r == "3.13"
    ensures PyMajorVar in env && PyMinorVar in env ==> r == env[PyMajorVar] + "." + env[PyMinorVar]
  {
    Get(env, PyMajorVar, "3") + "." + Get(env, PyMinorVar, "13")
  }

  /** `os.path.join(source_path, f"source/openvdb-{version}")` */
  function SourceDir(sourcePath: string, version: string): (r: string)
    ensures r == PosixPath.AsDir(sourcePath) + "source/openvdb-" + version
  {
    assert ("source/openvdb-" + version)[0] == 's';
    PosixPath.JoinRelative(sourcePath, "source/openvdb-" + version);
    PosixPath.Join(sourcePath, "source/openvdb-" + version)
  }

  /** The Python interpreter: `<root>/bin/python3` if the root is set and that path exists, else the fallback. */
  function PythonExe(env: Env, fs: Fs, fallback: string): string
  {
    var root := Get(env, PythonRootVar, "");
    var exe := if root != "" then PosixPath.Join3(root, "bin", "python3") else "";
    if exe == "" || !PathExists(fs, exe) then fallback else exe
  }

  /** The install prefix: the deployment path when installing, otherwise the one Rez passed in. */
  function InstallRoot(env: Env, version: string, targets: seq<string>, installPathEnv: string): string
  {
    if "install" in targets then ServerRoot + version + "/" + Get(env, VariantSubpathVar, "")
    else installPathEnv
  }

  /** `os.path.join(tbb_root, "lib", "cmake", "tbb") if tbb_root else ""` */
  function TbbDir(tbbRoot: string): string {
    if tbbRoot != "" then PosixPath.Join(PosixPath.Join3(tbbRoot, "lib", "cmake"), "tbb") else ""
  }

  // ---------------------------------------------------------------- CMAKE_PREFIX_PATH

  /** The value of `v` when it is set and non-empty, else nothing. */
  function ValueIfSet(env: Env, v: string): seq<string> {
    if IsSet(env, v) then [env[v]] else []
  }

  /** The values of those of `vars` that are set and non-empty, in order (the list comprehension). */
  function SetValues(env: Env, vars: seq<string>): seq<string> {
    if vars == [] then [] else ValueIfSet(env, vars[0]) + SetValues(env, vars[1..])
  }

  /** The comprehension works variable by variable: it distributes over concatenation. */
  lemma {:induction false} SetValuesAppend(env: Env, a: seq<string>, b: seq<string>)
    ensures SetValues(env, a + b) == SetValues(env, a) + SetValues(env, b)
  {
    if a != [] {
      assert (a + b)[0] == a[0];
      assert (a + b)[1..] == a[1..] + b;
      SetValuesAppend(env, a[1..], b);
      var h := ValueIfSet(env, a[0]);
      calc {
        SetValues(env, a + b);
        h + SetValues(env, a[1..] + b);
        h + (SetValues(env, a[1..]) + SetValues(env, b));
        (h + SetValues(env, a[1..])) + SetValues(env, b);
      }
    } else {
      assert a + b == b;
    }
  }

  /** It keeps a value exactly when some variable holds it, set and non-empty. */
  lemma {:induction false} SetValuesMembers(env: Env, vars: seq<string>, x: string)
    ensures x in SetValues(env, vars) <==> exists i :: 0 <= i < |vars| && IsSet(env, vars[i]) && env[vars[i]] == x
  {
    if vars != [] {
      SetValuesMembers(env, vars[1..], x);
      assert forall i :: 1 <= i < |vars| ==> vars[1..][i - 1] == vars[i];
      if x in SetValues(env, vars[1..]) {
        var i :| 0 <= i < |vars| - 1 && IsSet(env, vars[1..][i]) && env[vars[1..][i]] == x;
        assert vars[i + 1] == vars[1..][i];
      }
    }
  }

  /** It is empty exactly when no variable is set and non-empty. */
  lemma {:induction false} SetValuesEmpty(env: Env, vars: seq<string>)
    ensures SetValues(env, vars) == [] <==> forall i :: 0 <= i < |vars| ==> !IsSet(env, vars[i])
  {
    if vars != [] {
      SetValuesEmpty(env, vars[1..]);
      assert forall i :: 1 <= i < |vars| ==> vars[1..][i - 1] == vars[i];
    }
  }

  /** Three steps of the comprehension from position `k`. */
  lemma SetValuesThree(env: Env, vars: seq<string>, k: nat)
    requires k + 3 <= |vars|
    ensures SetValues(env, vars[k..])
      == ValueIfSet(env, vars[k]) + (ValueIfSet(env, vars[k + 1]) + (ValueIfSet(env, vars[k + 2])
       + SetValues(env, vars[k + 3..])))
  {
    SetValuesStep(env, vars, k);
    SetValuesStep(env, vars, k + 1);
    SetValuesStep(env, vars, k + 2);
  }

  /** The comprehension over nine variables, written out. */
  lemma SetValuesNine(env: Env, vars: seq<string>)
    requires |vars| == 9
    ensures SetValues(env, vars)
      == ValueIfSet(env, vars[0]) + (ValueIfSet(env, vars[1]) + (ValueIfSet(env, vars[2])
       + (ValueIfSet(env, vars[3]) + (ValueIfSet(env, vars[4]) + (ValueIfSet(env, vars[5])
       + (ValueIfSet(env, vars[6]) + (ValueIfSet(env, vars[7]) + ValueIfSet(env, vars[8]))))))))
  {
    assert vars[0..] == vars;
    SetValuesThree(env, vars, 0);
    SetValuesThree(env, vars, 3);
    SetValuesStep(env, vars, 6);
    SetValuesStep(env, vars, 7);
    SetValuesLast(env, vars);
  }

  /** The comprehension over the last variable alone. */
  lemma SetValuesLast(env: Env, vars: seq<string>)
    requires |vars| > 0
    ensures SetValues(env, vars[|vars| - 1..]) == ValueIfSet(env, vars[|vars| - 1])
  {
    var v := ValueIfSet(env, vars[|vars| - 1]);
    assert vars[|vars| - 1..][1..] == [];
    assert v + [] == v;
  }

  /** One step of the comprehension at position `k`. */
  lemma SetValuesStep(env: Env, vars: seq<string>, k: nat)
    requires k < |vars|
    ensures SetValues(env, vars[k..]) == ValueIfSet(env, vars[k]) + SetValues(env, vars[k + 1..])
  {
    assert vars[k..][1..] == vars[k + 1..];
  }

  /**
   * `prefix_paths` for the nine variables: the value of each that is set and non-empty, in list order,
   * REZ_BOOST_ROOT first and REZ_PYTHON_ROOT last, with no merging of equal values.
   */
  lemma PrefixPathsInOrder(env: Env)
    ensures SetValues(env, DepVars)
      == ValueIfSet(env, "REZ_BOOST_ROOT") + (ValueIfSet(env, TbbRootVar) + (ValueIfSet(env, "REZ_ZLIB_ROOT")
       + (ValueIfSet(env, "REZ_OPENEXR_ROOT") + (ValueIfSet(env, "REZ_IMATH_ROOT") + (ValueIfSet(env, "REZ_BLOSC_ROOT")
       + (ValueIfSet(env, "REZ_NANOBIND_ROOT") + (ValueIfSet(env, TslRootVar) + ValueIfSet(env, PythonRootVar))))))))
  {
    SetValuesNine(env, DepVars);
  }

  /** `";".join(prefix_paths)` */
  function CmakePrefix(env: Env): string {
    Join(SetValues(env, DepVars), ';')
  }

  /** `CMAKE_PREFIX_PATH` is empty exactly when none of the nine variables is set and non-empty. */
  lemma CmakePrefixEmpty(env: Env)
    ensures CmakePrefix(env) == "" <==> forall i :: 0 <= i < |DepVars| ==> !IsSet(env, DepVars[i])
  {
    SetValuesEmpty(env, DepVars);
    var values := SetValues(env, DepVars);
    if values != [] {
      SetValuesMembers(env, DepVars, values[0]);
      JoinNonEmpty(values, ';');
    }
  }

  /** Splitting `CMAKE_PREFIX_PATH` on ";" gives the roots back when none of them holds a ";". */
  lemma CmakePrefixSplits(env: Env)
    requires exists i :: 0 <= i < |DepVars| && IsSet(env, DepVars[i])
    requires forall i :: 0 <= i < |DepVars| && DepVars[i] in env ==> ';' !in env[DepVars[i]]
    ensures Split(CmakePrefix(env), ';') == SetValues(env, DepVars)
  {
    var values := SetValues(env, DepVars);
    SetValuesEmpty(env, DepVars);
    forall k | 0 <= k < |values| ensures ';' !in values[k] {
      SetValuesMembers(env, DepVars, values[k]);
    }
    SplitJoin(values, ';');
  }

  // ---------------------------------------------------------------- probes

  /** Position of the first candidate in `present`, `|candidates|` when there is none. */
  function FirstPresentIndex(candidates: seq<string>, present: set<string>): (r: nat)
    ensures r <= |candidates|
    ensures r < |candidates| ==> candidates[r] in present
    ensures forall j :: 0 <= j < r ==> candidates[j] !in present
  {
    if candidates == [] then 0
    else if candidates[0] in present then 0
    else 1 + FirstPresentIndex(candidates[1..], present)
  }

  /** What a probe loop leaves behind: the first candidate present, or "" when none is. */
  function FirstPresent(candidates: seq<string>, present: set<string>): string {
    var k := FirstPresentIndex(candidates, present);
    if k < |candidates| then candidates[k] else ""
  }

  /** The `for candidate in ...: if exists: pick; break` loops. */
  method Probe(candidates: seq<string>, present: set<string>) returns (found: string)
    ensures found == FirstPresent(candidates, present)
  {
    found := "";
    var i := 0;
    while i < |candidates|
      invariant 0 <= i <= |candidates|
      invariant forall j :: 0 <= j < i ==> candidates[j] !in present
      invariant found == ""
    {
      if candidates[i] in present {
        found := candidates[i];
        break;
      }
      i := i + 1;
    }
  }

  /** `<root>/lib/libpython{v}.so`, then the ABI-suffixed `<root>/lib/libpython{v}m.so`. */
  function LibCandidates(root: string, pyVersion: string): seq<string> {
    [ PosixPath.Join3(root, "lib", "libpython" + pyVersion + ".so"),
      PosixPath.Join3(root, "lib", "libpython" + pyVersion + "m.so") ]
  }

  /** `<root>/include/python{v}`, then the ABI-suffixed `<root>/include/python{v}m`. */
  function IncludeCandidates(root: string, pyVersion: string): seq<string> {
    [ PosixPath.Join3(root, "include", "python" + pyVersion),
      PosixPath.Join3(root, "include", "python" + pyVersion + "m") ]
  }

  /** The library probe tests `os.path.exists`; the header probe tests `os.path.isdir`. */
  lemma ProbeChoice(root: string, pyVersion: string, fs: Fs)
    ensures var c := LibCandidates(root, pyVersion);
      FirstPresent(c, fs.dirs + fs.files)
      == if PathExists(fs, c[0]) then c[0] else if PathExists(fs, c[1]) then c[1] else ""
    ensures var c := IncludeCandidates(root, pyVersion);
      FirstPresent(c, fs.dirs)
      == if IsDir(fs, c[0]) then c[0] else if IsDir(fs, c[1]) then c[1] else ""
  {
    var c := LibCandidates(root, pyVersion);
    var k := FirstPresentIndex(c, fs.dirs + fs.files);
    assert PathExists(fs, c[0]) ==> k == 0;
    assert !PathExists(fs, c[0]) && PathExists(fs, c[1]) ==> k == 1;
    var d := IncludeCandidates(root, pyVersion);
    var m := FirstPresentIndex(d, fs.dirs);
    assert IsDir(fs, d[0]) ==> m == 0;
    assert !IsDir(fs, d[0]) && IsDir(fs, d[1]) ==> m == 1;
  }

  // ---------------------------------------------------------------- CMAKE_CXX_FLAGS

  const SuppressFlag := "-DTBB_SUPPRESS_DEPRECATED_MESSAGES=1"

  /** `[x]` when `c` holds, else nothing: one conditional `append`. */
  function When(c: bool, x: string): seq<string> {
    if c then [x] else []
  }

  /** A conditional `append` adds the element when the condition holds. */
  lemma AppendWhen(a: seq<string>, c: bool, x: string)
    ensures (if c then a + [x] else a) == a + When(c, x)
  {
  }

  /** `os.path.join(tbb_root, "include", "oneapi")` */
  function TbbOneapiInclude(tbbRoot: string): string {
    PosixPath.Join3(tbbRoot, "include", "oneapi")
  }

  /** `os.path.join(tsl_root, "include")` */
  function TslInclude(tslRoot: string): string {
    PosixPath.Join(tslRoot, "include")
  }

  /**
   * The compiler flags: the deprecation switch, then the oneAPI TBB headers, the Python headers and
   * the robin-map headers, each only when found.
   */
  function CxxFlagList(tbbRoot: string, pythonInclude: string, tslRoot: string, fs: Fs): seq<string> {
    [SuppressFlag]
    + When(tbbRoot != "" && IsDir(fs, TbbOneapiInclude(tbbRoot)), "-I" + TbbOneapiInclude(tbbRoot))
    + When(pythonInclude != "", "-I" + pythonInclude)
    + When(tslRoot != "" && IsDir(fs, TslInclude(tslRoot)), "-I" + TslInclude(tslRoot))
  }

  /** Builds `cxx_flags_parts` by appending. */
  method CxxFlagParts(tbbRoot: string, pythonInclude: string, tslRoot: string, fs: Fs) returns (parts: seq<string>)
    ensures parts == CxxFlagList(tbbRoot, pythonInclude, tslRoot, fs)
  {
    parts := [SuppressFlag];
    var oneapi := TbbOneapiInclude(tbbRoot);
    if tbbRoot != "" {
      if IsDir(fs, oneapi) {
        parts := parts + ["-I" + oneapi];
      }
    }
    AppendWhen([SuppressFlag], tbbRoot != "" && IsDir(fs, oneapi), "-I" + oneapi);
    ghost var p1 := parts;
    if pythonInclude != "" {
      parts := parts + ["-I" + pythonInclude];
    }
    AppendWhen(p1, pythonInclude != "", "-I" + pythonInclude);
    ghost var p2 := parts;
    var tslDir := if tslRoot != "" then TslInclude(tslRoot) else "";
    if tslDir != "" && IsDir(fs, tslDir) {
      parts := parts + ["-I" + tslDir];
    }
    AppendWhen(p2, tslRoot != "" && IsDir(fs, TslInclude(tslRoot)), "-I" + TslInclude(tslRoot));
  }

  /** An include flag starts with "-I" and is two characters longer than its directory. */
  lemma IncludeFlag(dir: string)
    ensures StartsWith("-I" + dir, "-I") && |"-I" + dir| == |dir| + 2
  {
    assert ("-I" + dir)[..2] == "-I";
  }

  /**
   * The flag list always opens with the deprecation switch and holds at most three include flags
   * after it, in the order oneAPI TBB, Python, robin-map.
   */
  lemma CxxFlagsShape(tbbRoot: string, pythonInclude: string, tslRoot: string, fs: Fs)
    ensures var f := CxxFlagList(tbbRoot, pythonInclude, tslRoot, fs);
      1 <= |f| <= 4 && f[0] == SuppressFlag
      && (forall k :: 1 <= k < |f| ==> StartsWith(f[k], "-I"))
  {
    IncludeFlag(TbbOneapiInclude(tbbRoot));
    IncludeFlag(pythonInclude);
    IncludeFlag(TslInclude(tslRoot));
  }

  /** An element is among the conditional appends exactly when its own condition holds, if no other element equals it. */
  lemma InAppends(s: string, c1: bool, y1: string, c2: bool, x: string, c3: bool, y3: string)
    requires s != x
    requires !c2 ==> (c1 ==> y1 != x) && (c3 ==> y3 != x)
    ensures x in [s] + When(c1, y1) + When(c2, x) + When(c3, y3) <==> c2
  {
  }

  /** The Python header flag is among the flags exactly when the header probe found a directory. */
  lemma CxxFlagsPython(tbbRoot: string, pythonInclude: string, tslRoot: string, fs: Fs)
    ensures ("-I" + pythonInclude) in CxxFlagList(tbbRoot, pythonInclude, tslRoot, fs) <==> pythonInclude != ""
  {
    var t, p, l := TbbOneapiInclude(tbbRoot), pythonInclude, TslInclude(tslRoot);
    var c1, c3 := tbbRoot != "" && IsDir(fs, t), tslRoot != "" && IsDir(fs, l);
    var x := "-I" + p;
    assert SuppressFlag[1] != x[1];
    if p == "" {
      PosixPath.JoinEndsWith(PosixPath.Join(tbbRoot, "include"), "oneapi");
      PosixPath.JoinEndsWith(tslRoot, "include");
      assert |"-I" + t| != |x| && |"-I" + l| != |x|;
    }
    InAppends(SuppressFlag, c1, "-I" + t, p != "", x, c3, "-I" + l);
  }

  // ---------------------------------------------------------------- cmake arguments

  /** The eleven arguments every configure carries, in this order. */
  function FixedArgs(srcDir: string, installRoot: string, pythonExe: string, cmakePrefix: string, cxxFlags: string): (r: seq<string>)
    ensures |r| == 11
    ensures r[0] == "cmake " + srcDir && r[1] == "-DCMAKE_INSTALL_PREFIX=" + installRoot
  {
    [ "cmake " + srcDir,
      "-DCMAKE_INSTALL_PREFIX=" + installRoot,
      "-DCMAKE_BUILD_TYPE=Release",
      "-DOPENVDB_USE_BLOSC=ON",
      "-DOPENVDB_BUILD_BINARIES=ON",
      "-DOPENVDB_BUILD_UNITTESTS=OFF",
      "-DOPENVDB_BUILD_PYTHON_MODULE=ON",
      "-DPython_EXECUTABLE=" + pythonExe,
      "-DCMAKE_PREFIX_PATH=\"" + cmakePrefix + "\"",
      "-DCMAKE_CXX_FLAGS='" + cxxFlags + "'",
      "-G Ninja" ]
  }

  const PythonLibraryKey := "-DPython_LIBRARY="
  const PythonIncludeKey := "-DPython_INCLUDE_DIR="
  const TbbRootKey := "-DTBB_ROOT="
  const TbbDirKey := "-DTbb_DIR="

  /** `tbb_dir and os.path.isdir(tbb_dir)` */
  predicate HasTbbDir(tbbRoot: string, fs: Fs) {
    TbbDir(tbbRoot) != "" && IsDir(fs, TbbDir(tbbRoot))
  }

  /** The arguments appended after the fixed ones, each under its own condition, in this order. */
  function OptionalArgs(pythonLib: string, pythonInclude: string, tbbRoot: string, fs: Fs): seq<string> {
    When(pythonLib != "", PythonLibraryKey + pythonLib)
    + When(pythonInclude != "", PythonIncludeKey + pythonInclude)
    + When(tbbRoot != "", TbbRootKey + tbbRoot)
    + When(HasTbbDir(tbbRoot, fs), TbbDirKey + TbbDir(tbbRoot))
  }

  /** `cmake_args` */
  function CmakeArgList(srcDir: string, installRoot: string, pythonExe: string, cmakePrefix: string, cxxFlags: string,
                        pythonLib: string, pythonInclude: string, tbbRoot: string, fs: Fs): (r: seq<string>)
    ensures 11 <= |r| <= 15 && r[1] == "-DCMAKE_INSTALL_PREFIX=" + installRoot
  {
    FixedArgs(srcDir, installRoot, pythonExe, cmakePrefix, cxxFlags) + OptionalArgs(pythonLib, pythonInclude, tbbRoot, fs)
  }

  lemma Regroup(a: seq<string>, b: seq<string>, c: seq<string>, d: seq<string>, e: seq<string>)
    ensures a + b + c + d + e == a + (b + c + d + e)
  {
  }

  /** Builds `cmake_args` by appending to the fixed list. */
  method BuildCmakeArgs(srcDir: string, installRoot: string, pythonExe: string, cmakePrefix: string, cxxFlags: string,
                        pythonLib: string, pythonInclude: string, tbbRoot: string, fs: Fs) returns (args: seq<string>)
    ensures args == CmakeArgList(srcDir, installRoot, pythonExe, cmakePrefix, cxxFlags, pythonLib, pythonInclude, tbbRoot, fs)
  {
    var fixed := FixedArgs(srcDir, installRoot, pythonExe, cmakePrefix, cxxFlags);
    var lib, inc, root := PythonLibraryKey + pythonLib, PythonIncludeKey + pythonInclude, TbbRootKey + tbbRoot;
    var tbbDir := TbbDir(tbbRoot);
    var dir := TbbDirKey + tbbDir;
    args := fixed;
    if pythonLib != "" {
      args := args + [lib];
    }
    AppendWhen(fixed, pythonLib != "", lib);
    ghost var a1 := args;
    if pythonInclude != "" {
      args := args + [inc];
    }
    AppendWhen(a1, pythonInclude != "", inc);
    ghost var a2 := args;
    if tbbRoot != "" {
      args := args + [root];
    }
    AppendWhen(a2, tbbRoot != "", root);
    ghost var a3 := args;
    if HasTbbDir(tbbRoot, fs) {
      args := args + [dir];
    }
    AppendWhen(a3, HasTbbDir(tbbRoot, fs), dir);
    Regroup(fixed, When(pythonLib != "", lib), When(pythonInclude != "", inc), When(tbbRoot != "", root), When(HasTbbDir(tbbRoot, fs), dir));
  }

  /** Two texts whose fixed heads differ somewhere are different, whatever follows. */
  lemma DifferAt(p: string, a: string, q: string, b: string, i: nat)
    requires i < |p| && i < |q| && p[i] != q[i]
    ensures p + a != q + b
  {
    assert (p + a)[i] == p[i] && (q + b)[i] == q[i];
  }

  /** The number of conditions that hold. */
  function Count(c1: bool, c2: bool, c3: bool, c4: bool): nat {
    (if c1 then 1 else 0) + (if c2 then 1 else 0) + (if c3 then 1 else 0) + (if c4 then 1 else 0)
  }

  /** An element is in a list after a conditional append when it was there or is the appended one. */
  lemma InAppendWhen(a: seq<string>, c: bool, y: string)
    ensures forall x :: x in a + When(c, y) <==> x in a || (c && x == y)
    ensures |a + When(c, y)| == |a| + if c then 1 else 0
  {
  }

  /** Four conditional appends of pairwise different elements hold each element exactly when its condition holds. */
  lemma InFour(c1: bool, x1: string, c2: bool, x2: string, c3: bool, x3: string, c4: bool, x4: string)
    requires x1 != x2 && x1 != x3 && x1 != x4 && x2 != x3 && x2 != x4 && x3 != x4
    ensures var s := When(c1, x1) + When(c2, x2) + When(c3, x3) + When(c4, x4);
      |s| == Count(c1, c2, c3, c4) && (x1 in s <==> c1) && (x2 in s <==> c2) && (x3 in s <==> c3) && (x4 in s <==> c4)
  {
    var s1 := When(c1, x1);
    var s2 := s1 + When(c2, x2);
    var s3 := s2 + When(c3, x3);
    InAppendWhen(s1, c2, x2);
    InAppendWhen(s2, c3, x3);
    InAppendWhen(s3, c4, x4);
  }

  /**
   * The configure line starts with the eleven fixed arguments; after them come exactly the optional
   * arguments whose conditions hold: the library and header only when the probes found them, the TBB
   * root only when it is set, the TBB CMake directory only when it exists.
   */
  lemma CmakeArgsShape(srcDir: string, installRoot: string, pythonExe: string, cmakePrefix: string, cxxFlags: string,
                       pythonLib: string, pythonInclude: string, tbbRoot: string, fs: Fs)
    ensures var a := CmakeArgList(srcDir, installRoot, pythonExe, cmakePrefix, cxxFlags, pythonLib, pythonInclude, tbbRoot, fs);
      var opt := a[11..];
      a[..11] == FixedArgs(srcDir, installRoot, pythonExe, cmakePrefix, cxxFlags)
      && |opt| == Count(pythonLib != "", pythonInclude != "", tbbRoot != "", HasTbbDir(tbbRoot, fs))
      && (PythonLibraryKey + pythonLib in opt <==> pythonLib != "")
      && (PythonIncludeKey + pythonInclude in opt <==> pythonInclude != "")
      && (TbbRootKey + tbbRoot in opt <==> tbbRoot != "")
      && (TbbDirKey + TbbDir(tbbRoot) in opt <==> HasTbbDir(tbbRoot, fs))
  {
    var f := FixedArgs(srcDir, installRoot, pythonExe, cmakePrefix, cxxFlags);
    var o := OptionalArgs(pythonLib, pythonInclude, tbbRoot, fs);
    assert (f + o)[..11] == f && (f + o)[11..] == o;
    var lib, inc, root, dir := PythonLibraryKey + pythonLib, PythonIncludeKey + pythonInclude, TbbRootKey + tbbRoot, TbbDirKey + TbbDir(tbbRoot);
    DifferAt(PythonLibraryKey, pythonLib, PythonIncludeKey, pythonInclude, 9);
    DifferAt(PythonLibraryKey, pythonLib, TbbRootKey, tbbRoot, 2);
    DifferAt(PythonLibraryKey, pythonLib, TbbDirKey, TbbDir(tbbRoot), 2);
    DifferAt(PythonIncludeKey, pythonInclude, TbbRootKey, tbbRoot, 2);
    DifferAt(PythonIncludeKey, pythonInclude, TbbDirKey, TbbDir(tbbRoot), 2);
    DifferAt(TbbRootKey, tbbRoot, TbbDirKey, TbbDir(tbbRoot), 3);
    InFour(pythonLib != "", lib, pythonInclude != "", inc, tbbRoot != "", root, HasTbbDir(tbbRoot, fs), dir);
  }

  // ---------------------------------------------------------------- the resolved configuration

  /** Why a build stops: the two early checks, then the failures of the steps that follow them. */
  datatype Fatal =
    | MissingVersion
    | SourceNotFound(path: string)
    | FileExists(path: string)
    | CommandFailed(cmd: string)
    | FileNotFound(path: string)
    | IsADirectory(path: string)

  datatype Result<T> = Ok(value: T) | Err(error: Fatal)

  /** What `build` works out before it runs cmake. */
  datatype Config = Config(
    version: string,
    pyVersion: string,
    pythonExe: string,
    srcDir: string,
    installRoot: string,
    cmakePrefix: string,
    pythonLib: string,
    pythonInclude: string,
    cxxFlags: string,
    cmakeArgs: seq<string>)

  /** The arguments of `build`. */
  datatype Invocation = Invocation(sourcePath: string, buildPath: string, installPathEnv: string, targets: seq<string>)

  /**
   * The machine the build runs on: its environment, its filesystem, what `shutil.which("python3") or
   * sys.executable` gives, and the command lines that exit non-zero there.
   */
  datatype Host = Host(env: Env, fs: Fs, fallbackPython: string, failing: set<string>)

  /** Everything `build` derives once both checks have passed. */
  function Settle(h: Host, inv: Invocation, version: string, srcDir: string): Config {
    var pyVersion := PythonVersion(h.env);
    var pythonRoot := Get(h.env, PythonRootVar, "");
    var exe := PythonExe(h.env, h.fs, h.fallbackPython);
    var root := InstallRoot(h.env, version, inv.targets, inv.installPathEnv);
    var prefix := CmakePrefix(h.env);
    var tbbRoot := Get(h.env, TbbRootVar, "");
    var lib := FirstPresent(LibCandidates(pythonRoot, pyVersion), h.fs.dirs + h.fs.files);
    var inc := FirstPresent(IncludeCandidates(pythonRoot, pyVersion), h.fs.dirs);
    var flags := Join(CxxFlagList(tbbRoot, inc, Get(h.env, TslRootVar, ""), h.fs), ' ');
    Config(version, pyVersion, exe, srcDir, root, prefix, lib, inc, flags,
           CmakeArgList(srcDir, root, exe, prefix, flags, lib, inc, tbbRoot, h.fs))
  }

  /** The version check, then the source check, then the derived settings. */
  function Configuration(h: Host, inv: Invocation): (r: Result<Config>)
    ensures r == Err(MissingVersion) <==> !IsSet(h.env, VersionVar)
    ensures r.Err? && r.error.SourceNotFound?
      <==> IsSet(h.env, VersionVar) && !IsDir(h.fs, SourceDir(inv.sourcePath, h.env[VersionVar]))
    ensures r.Err? ==> r.error.MissingVersion? || r.error == SourceNotFound(SourceDir(inv.sourcePath, h.env[VersionVar]))
    ensures r.Ok? ==> (r.value.version == h.env[VersionVar] && r.value.version != ""
                       && r.value.srcDir == SourceDir(inv.sourcePath, r.value.version) && IsDir(h.fs, r.value.srcDir))
  {
    if !IsSet(h.env, VersionVar) then Err(MissingVersion)
    else
      var version := h.env[VersionVar];
      var srcDir := SourceDir(inv.sourcePath, version);
      if !IsDir(h.fs, srcDir) then Err(SourceNotFound(srcDir))
      else Ok(Settle(h, inv, version, srcDir))
  }

  /** The resolution steps of `build`, probing with loops and assembling flags and arguments by appending. */
  method Resolve(h: Host, inv: Invocation) returns (r: Result<Config>)
    ensures r == Configuration(h, inv)
  {
    if !IsSet(h.env, VersionVar) {
      return Err(MissingVersion);
    }
    var version := h.env[VersionVar];
    var pyVersion := PythonVersion(h.env);
    var pythonRoot := Get(h.env, PythonRootVar, "");
    var exe := PythonExe(h.env, h.fs, h.fallbackPython);
    var srcDir := SourceDir(inv.sourcePath, version);
    if !IsDir(h.fs, srcDir) {
      return Err(SourceNotFound(srcDir));
    }
    var root := InstallRoot(h.env, version, inv.targets, inv.installPathEnv);
    var prefix := CmakePrefix(h.env);
    var tbbRoot := Get(h.env, TbbRootVar, "");
    var lib := Probe(LibCandidates(pythonRoot, pyVersion), h.fs.dirs + h.fs.files);
    var inc := Probe(IncludeCandidates(pythonRoot, pyVersion), h.fs.dirs);
    var parts := CxxFlagParts(tbbRoot, inc, Get(h.env, TslRootVar, ""), h.fs);
    var flags := Join(parts, ' ');
    var args := BuildCmakeArgs(srcDir, root, exe, prefix, flags, lib, inc, tbbRoot, h.fs);
    return Ok(Config(version, pyVersion, exe, srcDir, root, prefix, lib, inc, flags, args));
  }

  /**
   * The install prefix passed to cmake is the versioned deployment path when installing and the path
   * Rez passed in otherwise.
   */
  lemma InstallPrefixArgument(h: Host, inv: Invocation)
    requires Configuration(h, inv).Ok?
    ensures var c := Configuration(h, inv).value;
      c.cmakeArgs[1] == "-DCMAKE_INSTALL_PREFIX=" + c.installRoot
      && ("install" in inv.targets ==> c.installRoot == ServerRoot + c.version + "/" + Get(h.env, VariantSubpathVar, ""))
      && ("install" !in inv.targets ==> c.installRoot == inv.installPathEnv)
  {
  }

  /**
   * The interpreter cmake is given is `<REZ_PYTHON_ROOT>/bin/python3` when the root is set and non-empty
   * and that path exists, and the host's fallback interpreter otherwise.
   */
  lemma PythonExecutableArgument(h: Host, inv: Invocation)
    requires Configuration(h, inv).Ok?
    ensures var c := Configuration(h, inv).value;
      var root := Get(h.env, PythonRootVar, "");
      var exe := PosixPath.Join3(root, "bin", "python3");
      c.cmakeArgs[7] == "-DPython_EXECUTABLE=" + c.pythonExe
      && c.pythonExe == (if root != "" && PathExists(h.fs, exe) then exe else h.fallbackPython)
  {
    var version := h.env[VersionVar];
    var srcDir := SourceDir(inv.sourcePath, version);
    assert Configuration(h, inv).value == Settle(h, inv, version, srcDir);
    SettledExecutable(h, inv, version, srcDir);
  }

  /** The settled configuration passes the chosen interpreter as the eighth cmake argument. */
  lemma SettledExecutable(h: Host, inv: Invocation, version: string, srcDir: string)
    ensures var c := Settle(h, inv, version, srcDir);
      c.pythonExe == PythonExe(h.env, h.fs, h.fallbackPython) && c.cmakeArgs[7] == "-DPython_EXECUTABLE=" + c.pythonExe
  {
    var c := Settle(h, inv, version, srcDir);
    var f := FixedArgs(c.srcDir, c.installRoot, c.pythonExe, c.cmakePrefix, c.cxxFlags);
    assert f[7] == "-DPython_EXECUTABLE=" + c.pythonExe;
    assert c.cmakeArgs[..11] == f;
  }
}
