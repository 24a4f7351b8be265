/** `write_pkgconfig(install_root, version)`: the `openvdb.pc` text and where it goes. */
module PkgConfig {
  import opened Text
  import PosixPath

  datatype Option<+T> = None | Some(value: T)

  /** Text without a newline: the fixed parts of the template are all of this type. */
  type Line = s: string | '\n' !in s

  const ExecPrefixValue: Line := "${prefix}"
  const LibDirValue: Line := "${prefix}/lib"
  const IncludeDirValue: Line := "${prefix}/include"
  const NameValue: Line := "OpenVDB"
  const DescriptionValue: Line := "Sparse volume data storage and IO library"
  const RequiresValue: Line := "Imath"
  const LibsValue: Line := "-L${libdir} -lopenvdb"
  const CflagsValue: Line := "-I${includedir}"

  /** A variable definition line of a `.pc` file. */
  function Variable(name: Line, value: string): (r: string)
    ensures '\n' !in value ==> '\n' !in r
  {
    name + "=" + value
  }

  /** A keyword line of a `.pc` file. */
  function Keyword(name: Line, value: string): (r: string)
    ensures '\n' !in value ==> '\n' !in r
  {
    name + ": " + value
  }

  /** The variable block: `prefix` is the install root, the rest are derived from it. */
  function Variables(installRoot: string): (r: seq<string>)
    ensures '\n' !in installRoot ==> forall k :: 0 <= k < |r| ==> '\n' !in r[k]
  {
    [ Variable("prefix", installRoot),
      Variable("exec_prefix", ExecPrefixValue),
      Variable("libdir", LibDirValue),
      Variable("includedir", IncludeDirValue) ]
  }

  /** The keyword block: fixed metadata and the version. */
  function Keywords(version: string): (r: seq<string>)
    ensures '\n' !in version ==> forall k :: 0 <= k < |r| ==> '\n' !in r[k]
  {
    [ Keyword("Name", NameValue),
      Keyword("Description", DescriptionValue),
      Keyword("Version", version),
      Keyword("Requires", RequiresValue),
      Keyword("Libs", LibsValue),
      Keyword("Cflags", CflagsValue) ]
  }

  /** The lines of the generated file, in order: variables, a blank line, keywords. */
  function PcLines(installRoot: string, version: string): seq<string> {
    Variables(installRoot) + [""] + Keywords(version)
  }

  /** Each line followed by a newline: the text of the triple-quoted template, which ends in one too. */
  function Unlines(lines: seq<string>): string {
    if lines == [] then "" else lines[0] + "\n" + Unlines(lines[1..])
  }

  /** The file's contents; a function of the install root and the version alone. */
  function PcText(installRoot: string, version: string): string {
    Unlines(PcLines(installRoot, version))
  }

  /** `os.path.join(install_root, "lib", "pkgconfig")`, created before the write. */
  function PcDir(installRoot: string): string {
    PosixPath.Join3(installRoot, "lib", "pkgconfig")
  }

  /** `os.path.join(pc_dir, "openvdb.pc")` */
  function PcPath(installRoot: string): string {
    PosixPath.Join(PcDir(installRoot), "openvdb.pc")
  }

  /** The file lands at `<install_root>/lib/pkgconfig/openvdb.pc`. */
  lemma PcPathUnderRoot(installRoot: string)
    ensures PcDir(installRoot) == PosixPath.AsDir(installRoot) + "lib" + "/" + "pkgconfig"
    ensures PcPath(installRoot) == PosixPath.AsDir(installRoot) + "lib" + "/" + "pkgconfig" + "/" + "openvdb.pc"
  {
    PosixPath.Join3Relative(installRoot, "lib", "pkgconfig");
    var d := PcDir(installRoot);
    assert d[|d| - 1] == 'g';
    PosixPath.JoinRelative(d, "openvdb.pc");
  }

  /** The value after `key` on the first line that starts with `key`, as a `.pc` reader finds it. */
  function Lookup(lines: seq<string>, key: string): (r: Option<string>)
    ensures r.Some? ==> exists k :: 0 <= k < |lines| && lines[k] == key + r.value
  {
    if lines == [] then None
    else if StartsWith(lines[0], key) then
      assert lines[0] == key + lines[0][|key|..];
      Some(lines[0][|key|..])
    else
      var r := Lookup(lines[1..], key);
      assert r.Some? ==> exists k :: 1 <= k < |lines| && lines[k] == key + r.value;
      r
  }

  /** The value a `.pc` reader gives variable `name` of `text`. */
  function VariableOf(text: string, name: string): Option<string> {
    Lookup(Split(text, '\n'), name + "=")
  }

  /** The value a `.pc` reader gives keyword `name` of `text`. */
  function KeywordOf(text: string, name: string): Option<string> {
    Lookup(Split(text, '\n'), name + ": ")
  }

  /** A line-by-line reader recovers the lines, plus the empty piece after the final newline. */
  lemma {:induction false} SplitUnlines(lines: seq<string>)
    requires forall k :: 0 <= k < |lines| ==> '\n' !in lines[k]
    ensures Split(Unlines(lines), '\n') == lines + [""]
  {
    if lines == [] {
      assert Split("", '\n') == [""];
    } else {
      var head, rest := lines[0], Unlines(lines[1..]);
      var s := Unlines(lines);
      assert s == head + "\n" + rest;
      assert s[|head|] == '\n';
      var i := IndexOf(s, '\n');
      assert forall j :: 0 <= j < |head| ==> s[j] == head[j];
      assert i == |head|;
      assert s[..i] == head;
      assert s[i + 1..] == rest;
      SplitUnlines(lines[1..]);
      assert lines == [head] + lines[1..];
    }
  }

  /** Lookup finds the first line that starts with the key. */
  lemma {:induction false} LookupAt(lines: seq<string>, key: string, k: nat)
    requires k < |lines| && StartsWith(lines[k], key)
    requires forall j :: 0 <= j < k ==> !StartsWith(lines[j], key)
    ensures Lookup(lines, key) == Some(lines[k][|key|..])
  {
    if k > 0 {
      LookupAt(lines[1..], key, k - 1);
    }
  }

  /** Reading the generated text line by line gives back exactly its lines. */
  lemma PcTextLines(installRoot: string, version: string)
    requires '\n' !in installRoot && '\n' !in version
    ensures Split(PcText(installRoot, version), '\n') == PcLines(installRoot, version) + [""]
  {
    var l := PcLines(installRoot, version);
    assert forall k :: 0 <= k < |l| ==> '\n' !in l[k] by {
      var vs, ks := Variables(installRoot), Keywords(version);
      assert forall k :: 0 <= k < |l| ==> l[k] == if k < 4 then vs[k] else if k == 4 then "" else ks[k - 5];
    }
    SplitUnlines(l);
  }

  /** A line `name + sep + value` starts with `name + sep`, and its rest is the value. */
  lemma LineFields(name: string, sep: string, value: string)
    ensures StartsWith(name + sep + value, name + sep)
    ensures (name + sep + value)[|name + sep|..] == value
  {
    assert (name + sep + value)[..|name + sep|] == name + sep;
  }

  /** A line whose first character differs from the key's does not start with the key. */
  lemma OtherKey(name: string, sep: string, value: string, key: string)
    requires |name| > 0 && |key| > 0 && name[0] != key[0]
    ensures !StartsWith(name + sep + value, key)
  {
    assert (name + sep + value)[0] == name[0];
  }

  /** The lines a reader sees, numbered. */
  lemma ReadBack(installRoot: string, version: string)
    requires '\n' !in installRoot && '\n' !in version
    ensures var lines := Split(PcText(installRoot, version), '\n');
      |lines| == 12 && lines[0] == "prefix" + "=" + installRoot && lines[1] == "exec_prefix" + "=" + ExecPrefixValue
      && lines[2] == "libdir" + "=" + LibDirValue && lines[3] == "includedir" + "=" + IncludeDirValue
      && lines[4] == "" && lines[5] == "Name" + ": " + NameValue && lines[6] == "Description" + ": " + DescriptionValue
      && lines[7] == "Version" + ": " + version && lines[8] == "Requires" + ": " + RequiresValue
      && lines[9] == "Libs" + ": " + LibsValue && lines[10] == "Cflags" + ": " + CflagsValue && lines[11] == ""
  {
    PcTextLines(installRoot, version);
  }

  /** Generating and parsing back gives the install root as `prefix` and the version as `Version`. */
  lemma {:induction false} PcRoundTrip(installRoot: string, version: string)
    requires '\n' !in installRoot && '\n' !in version
    ensures VariableOf(PcText(installRoot, version), "prefix") == Some(installRoot)
    ensures KeywordOf(PcText(installRoot, version), "Version") == Some(version)
  {
    ReadBack(installRoot, version);
    var lines := Split(PcText(installRoot, version), '\n');
    LineFields("prefix", "=", installRoot);
    LookupAt(lines, "prefix=", 0);
    var key := "Version: ";
    OtherKey("prefix", "=", installRoot, key);
    OtherKey("exec_prefix", "=", ExecPrefixValue, key);
    OtherKey("libdir", "=", LibDirValue, key);
    OtherKey("includedir", "=", IncludeDirValue, key);
    OtherKey("Name", ": ", NameValue, key);
    OtherKey("Description", ": ", DescriptionValue, key);
    LineFields("Version", ": ", version);
    LookupAt(lines, key, 7);
  }

  /** The library and header directories are declared relative to `prefix`. */
  lemma {:induction false} PcDirsUnderPrefix(installRoot: string, version: string)
    requires '\n' !in installRoot && '\n' !in version
    ensures VariableOf(PcText(installRoot, version), "libdir") == Some(LibDirValue)
    ensures VariableOf(PcText(installRoot, version), "includedir") == Some(IncludeDirValue)
  {
    ReadBack(installRoot, version);
    var lines := Split(PcText(installRoot, version), '\n');
    OtherKey("prefix", "=", installRoot, "libdir=");
    OtherKey("exec_prefix", "=", ExecPrefixValue, "libdir=");
    LineFields("libdir", "=", LibDirValue);
    LookupAt(lines, "libdir=", 2);
    OtherKey("prefix", "=", installRoot, "includedir=");
    OtherKey("exec_prefix", "=", ExecPrefixValue, "includedir=");
    OtherKey("libdir", "=", LibDirValue, "includedir=");
    LineFields("includedir", "=", IncludeDirValue);
    LookupAt(lines, "includedir=", 3);
  }
}
