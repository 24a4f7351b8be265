/** The build directory: `clean_build_dir`, `os.makedirs(build_path, exist_ok=True)` and the `build.rxt` marker. */
module BuildDir {
  import opened Text

  /** What an entry of the directory is; `shutil.rmtree` or `os.remove` is chosen by it. */
  datatype Kind = File | Folder

  /** What stands at the build path itself. */
  datatype PathState = Missing | RegularFile | Directory

  /** Name of the marker written after a successful install. */
  const Marker: string := "build.rxt"

  /** The allow-list of `clean_build_dir`: resume markers and the variant descriptor. */
  predicate Preserved(name: string) {
    EndsWith(name, ".rxt") || name == "variant.json"
  }

  /** The entries a clean leaves behind. */
  function KeptEntries(m: map<string, Kind>): (r: map<string, Kind>)
    ensures forall n :: n in r <==> n in m && Preserved(n)
    ensures forall n :: n in r ==> r[n] == m[n]
  {
    map n | n in m && Preserved(n) :: m[n]
  }

  /** Cleaning twice is cleaning once. */
  lemma CleanIdempotent(m: map<string, Kind>)
    ensures KeptEntries(KeptEntries(m)) == KeptEntries(m)
  {
  }

  /** The marker matches the allow-list, so a clean never removes it. */
  lemma {:induction false} MarkerSurvivesClean(m: map<string, Kind>)
    requires Marker in m
    ensures Marker in KeptEntries(m) && KeptEntries(m)[Marker] == m[Marker]
  {
    assert Marker[|Marker| - 4..] == ".rxt";
    assert Preserved(Marker);
  }

  /** The build path as a value: what stands there and, for a directory, its entries. */
  datatype DirView = DirView(state: PathState, entries: map<string, Kind>)

  /** A path that is not a directory lists nothing. */
  predicate WellFormed(v: DirView) {
    v.state != Directory ==> v.entries == map[]
  }

  /** The result of a filesystem step on the build path: whether it succeeded, and the path after it. */
  datatype Step = Step(ok: bool, view: DirView)

  /** What `clean_build_dir` leaves: a directory keeps its allow-listed entries; anything else is untouched. */
  function Cleaned(v: DirView): (r: DirView)
    ensures r.state == v.state
    ensures forall n :: n in r.entries <==> n in v.entries && (v.state != Directory || Preserved(n))
  {
    if v.state == Directory then DirView(v.state, KeptEntries(v.entries)) else v
  }

  /** What `os.makedirs(path, exist_ok=True)` does: it fails on a regular file and otherwise leaves a directory. */
  function MadeDirs(v: DirView): (r: Step)
    ensures r.ok <==> v.state != RegularFile
    ensures r.view.entries == v.entries && (r.ok ==> r.view.state == Directory)
  {
    if v.state == RegularFile then Step(false, v) else Step(true, DirView(Directory, v.entries))
  }

  /** What `open(join(path, name), "a").close()` does: fails unless the path is a directory without a folder `name`. */
  function Touched(v: DirView, name: string): (r: Step)
    ensures r.ok <==> v.state == Directory && !(name in v.entries && v.entries[name] == Folder)
    ensures r.ok ==> name in r.view.entries && r.view.entries[name] == File
    ensures forall n :: n != name ==> (n in r.view.entries <==> n in v.entries)
  {
    if v.state == Directory && !(name in v.entries && v.entries[name] == Folder) then
      Step(true, DirView(v.state, v.entries[name := File]))
    else Step(false, v)
  }

  class BuildDirectory {
    var state: PathState
    /** `os.listdir(path)` with each entry's kind; meaningful only for a directory. */
    var entries: map<string, Kind>

    ghost predicate Valid()
      reads this
    {
      WellFormed(View())
    }

    /** The directory as a value. */
    function View(): DirView
      reads this
    {
      DirView(state, entries)
    }

    constructor (v: DirView)
      requires WellFormed(v)
      ensures Valid() && View() == v
    {
      state := v.state;
      entries := v.entries;
    }

    /** `clean_build_dir(path)`: when the path is a directory, remove every entry outside the allow-list. */
    method Clean()
      requires Valid()
      modifies this
      ensures Valid() && View() == Cleaned(old(View()))
      ensures state == old(state)
      ensures state == Directory ==> entries == KeptEntries(old(entries))
      ensures state != Directory ==> entries == old(entries)
    {
      if state == Directory {
        var listing := entries.Keys;
        while listing != {}
          invariant listing <= old(entries).Keys
          invariant forall n :: n in entries <==> n in old(entries) && (n in listing || Preserved(n))
          invariant forall n :: n in entries ==> entries[n] == old(entries)[n]
          invariant state == old(state)
          decreases listing
        {
          var item :| item in listing;
          listing := listing - {item};
          if Preserved(item) {
            continue;
          }
          // `shutil.rmtree` for a folder, `os.remove` for anything else: either way the entry goes
          entries := entries - {item};
        }
      }
    }

    /** `os.makedirs(path, exist_ok=True)`: creates a missing directory, fails on a regular file. */
    method MakeDirs() returns (ok: bool)
      requires Valid()
      modifies this
      ensures Valid() && Step(ok, View()) == MadeDirs(old(View()))
      ensures entries == old(entries)
      ensures ok <==> old(state) != RegularFile
      ensures state == if ok then Directory else old(state)
    {
      ok := state != RegularFile;
      if ok {
        state := Directory;
      }
    }

    /** `open(os.path.join(path, name), "a").close()`: creates an empty file unless a folder has that name. */
    method Touch(name: string) returns (ok: bool)
      requires Valid()
      modifies this
      ensures Valid() && Step(ok, View()) == Touched(old(View()), name)
      ensures state == old(state)
      ensures ok <==> old(state) == Directory && !(name in old(entries) && old(entries)[name] == Folder)
      ensures entries == if ok then old(entries)[name := File] else old(entries)
    {
      ok := state == Directory && !(name in entries && entries[name] == Folder);
      if ok {
        entries := entries[name := File];
      }
    }
  }
}
