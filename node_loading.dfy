/** How `main.py` fills the node registry at start-up: `load_custom_nodes`
    walks every custom-nodes folder, skips what cannot be a node module, and
    hands each candidate to `load_custom_node`, whose merge loop adds the
    module's classes to `NODE_CLASS_MAPPINGS` without ever replacing a class
    that was registered before the walk began. Importing a module is an
    oracle: the exports a path yields, or nothing when the import raises. */
module NodeLoading {
  import opened Wrappers
  import opened Strings
  import opened Paths
  import opened NodeInfo

  /** The two mappings a node module may export; `None` when the module does
      not define one (or defines it as `None`). */
  datatype ModuleExports = ModuleExports(
    classMappings: Option<map<string, NodeClass>>,
    displayNames: Option<map<string, string>>)

  /** `NODE_CLASS_MAPPINGS` and `NODE_DISPLAY_NAME_MAPPINGS`. */
  datatype Mappings = Mappings(classes: map<string, NodeClass>, displays: map<string, string>)

  /** The merge loop: every class of the module whose name is not ignored is
      registered under that name. */
  function MergeClasses(base: map<string, NodeClass>, mods: map<string, NodeClass>, ignore: set<string>): map<string, NodeClass> {
    map k | k in base.Keys + (mods.Keys - ignore) :: if k in mods && k !in ignore then mods[k] else base[k]
  }

  /** An ignored name keeps its binding (or its absence); any other name the
      mods defines takes the module's class; every other name is untouched. */
  lemma MergeClassesBindings(base: map<string, NodeClass>, mods: map<string, NodeClass>, ignore: set<string>, k: string)
    ensures var r := MergeClasses(base, mods, ignore);
      (k in ignore || k !in mods ==> (k in r <==> k in base) && (k in base ==> r[k] == base[k])) &&
      (k !in ignore && k in mods ==> k in r && r[k] == mods[k])
  {
  }

  /** `load_custom_node` once the module is imported: a module without class
      mappings is skipped (and reports failure), otherwise its classes are
      merged and its display names all copied over, protected or not. */
  function LoadOne(m: Mappings, e: Option<ModuleExports>, ignore: set<string>): (r: (Mappings, bool))
    ensures r.1 <==> e.Some? && e.value.classMappings.Some?
    ensures !r.1 ==> r.0 == m
    ensures r.1 ==> r.0.classes == MergeClasses(m.classes, e.value.classMappings.value, ignore)
    ensures r.1 ==> forall k :: k in r.0.displays <==>
      k in m.displays || (e.value.displayNames.Some? && k in e.value.displayNames.value)
    ensures r.1 && e.value.displayNames.Some? ==>
      forall k :: k in e.value.displayNames.value ==> r.0.displays[k] == e.value.displayNames.value[k]
    ensures r.1 ==> forall k :: k in m.displays && !(e.value.displayNames.Some? && k in e.value.displayNames.value) ==>
      r.0.displays[k] == m.displays[k]
  {
    if e.None? || e.value.classMappings.None? then (m, false)
    else
      var displays := if e.value.displayNames.Some? then m.displays + e.value.displayNames.value else m.displays;
      (Mappings(MergeClasses(m.classes, e.value.classMappings.value, ignore), displays), true)
  }

  /** The exports the import of a path yields; a path missing from the oracle
      raises on import. */
  function Import(exports: map<Path, ModuleExports>, p: Path): Option<ModuleExports> {
    if p in exports then Some(exports[p]) else None
  }

  /** Loading the candidates in order, each against the same ignored names,
      with whether each succeeded. */
  function LoadAll(m: Mappings, exports: map<Path, ModuleExports>, paths: seq<Path>, ignore: set<string>): (Mappings, seq<(Path, bool)>)
    decreases |paths|
  {
    if paths == [] then (m, [])
    else
      var n := |paths|;
      var (m1, rs) := LoadAll(m, exports, paths[..n - 1], ignore);
      var (m2, ok) := LoadOne(m1, Import(exports, paths[n - 1]), ignore);
      (m2, rs + [(paths[n - 1], ok)])
  }

  /** One outcome per candidate, in order: the path and whether its import
      yielded class mappings. */
  lemma {:induction false} LoadAllOutcomes(m: Mappings, exports: map<Path, ModuleExports>, paths: seq<Path>, ignore: set<string>)
    ensures var rs := LoadAll(m, exports, paths, ignore).1;
      |rs| == |paths| &&
      forall i :: 0 <= i < |paths| ==>
        rs[i].0 == paths[i] && (rs[i].1 <==> paths[i] in exports && exports[paths[i]].classMappings.Some?)
    decreases |paths|
  {
    if paths != [] {
      LoadAllOutcomes(m, exports, paths[..|paths| - 1], ignore);
    }
  }

  /** However many modules load, a name in the ignored set keeps the class it
      had before (or stays unregistered). */
  lemma {:induction false} LoadAllKeepsIgnored(m: Mappings, exports: map<Path, ModuleExports>, paths: seq<Path>, ignore: set<string>, k: string)
    requires k in ignore
    ensures var c := LoadAll(m, exports, paths, ignore).0.classes;
      (k in c <==> k in m.classes) && (k in m.classes ==> c[k] == m.classes[k])
    decreases |paths|
  {
    if paths != [] {
      var n := |paths|;
      LoadAllKeepsIgnored(m, exports, paths[..n - 1], ignore, k);
      var m1 := LoadAll(m, exports, paths[..n - 1], ignore).0;
      var e := Import(exports, paths[n - 1]);
      if e.Some? && e.value.classMappings.Some? {
        MergeClassesBindings(m1.classes, e.value.classMappings.value, ignore, k);
      }
    }
  }

  /** A name registered by no loaded module and not there before is not
      there after. */
  lemma {:induction false} LoadAllOnlyAddsExported(m: Mappings, exports: map<Path, ModuleExports>, paths: seq<Path>, ignore: set<string>, k: string)
    requires k !in m.classes
    requires forall p :: p in paths && p in exports && exports[p].classMappings.Some? ==> k !in exports[p].classMappings.value
    ensures k !in LoadAll(m, exports, paths, ignore).0.classes
    decreases |paths|
  {
    if paths != [] {
      var n := |paths|;
      assert forall p :: p in paths[..n - 1] ==> p in paths;
      LoadAllOnlyAddsExported(m, exports, paths[..n - 1], ignore, k);
      var m1 := LoadAll(m, exports, paths[..n - 1], ignore).0;
      var e := Import(exports, paths[n - 1]);
      if e.Some? && e.value.classMappings.Some? {
        assert paths[n - 1] in paths;
        MergeClassesBindings(m1.classes, e.value.classMappings.value, ignore, k);
      }
    }
  }

  /** One entry of `os.listdir` with whether it is a regular file. */
  datatype DirEntry = DirEntry(name: string, isFile: bool)

  /** A custom-nodes folder and its listing. */
  datatype Folder = Folder(path: Path, entries: seq<DirEntry>)

  const PyCache := "__pycache__"
  const DisabledSuffix := ".disabled"

  /** `possible_modules.remove("__pycache__")`: the first entry so named goes. */
  function RemovePyCache(es: seq<DirEntry>): (r: seq<DirEntry>)
    ensures forall e :: e in r ==> e in es
    ensures forall e :: e in es && e.name != PyCache ==> e in r
    decreases |es|
  {
    if es == [] then []
    else if es[0].name == PyCache then es[1..]
    else [es[0]] + RemovePyCache(es[1..])
  }

  /** The two `continue` tests: a file that is not a `.py` file, or any entry
      whose path ends in `.disabled`. */
  predicate Skipped(dir: Path, e: DirEntry) {
    var p := Join(dir, e.name);
    (e.isFile && SplitExt(p).1 != ".py") || EndsWith(p, DisabledSuffix)
  }

  /** The paths of one listing that reach `load_custom_node`, in listing order. */
  function Kept(dir: Path, es: seq<DirEntry>): seq<Path>
    decreases |es|
  {
    if es == [] then []
    else
      var n := |es|;
      var prefix := Kept(dir, es[..n - 1]);
      if Skipped(dir, es[n - 1]) then prefix else prefix + [Join(dir, es[n - 1].name)]
  }

  /** The listing's paths that reach the loader are exactly those of the
      entries no `continue` skips. */
  lemma KeptExactly(dir: Path, es: seq<DirEntry>)
    ensures forall p :: p in Kept(dir, es) ==> exists e :: e in es && !Skipped(dir, e) && p == Join(dir, e.name)
    ensures forall e :: e in es && !Skipped(dir, e) ==> Join(dir, e.name) in Kept(dir, es)
  {
    KeptSound(dir, es);
    KeptComplete(dir, es);
  }

  lemma {:induction false} KeptSound(dir: Path, es: seq<DirEntry>)
    ensures forall p :: p in Kept(dir, es) ==> exists e :: e in es && !Skipped(dir, e) && p == Join(dir, e.name)
    decreases |es|
  {
    if es != [] {
      var n := |es|;
      var init := es[..n - 1];
      KeptSound(dir, init);
      forall p | p in Kept(dir, es) ensures exists e :: e in es && !Skipped(dir, e) && p == Join(dir, e.name) {
        if p in Kept(dir, init) {
          var e :| e in init && !Skipped(dir, e) && p == Join(dir, e.name);
          assert e in es;
        } else {
          assert es[n - 1] in es;
        }
      }
    }
  }

  lemma {:induction false} KeptComplete(dir: Path, es: seq<DirEntry>)
    ensures forall e :: e in es && !Skipped(dir, e) ==> Join(dir, e.name) in Kept(dir, es)
    decreases |es|
  {
    if es != [] {
      var n := |es|;
      var init := es[..n - 1];
      KeptComplete(dir, init);
      forall e | e in es && !Skipped(dir, e) ensures Join(dir, e.name) in Kept(dir, es) {
        if e != es[n - 1] {
          var i :| 0 <= i < n && es[i] == e;
          assert init[i] == e;
        }
      }
    }
  }

  lemma KeptSnoc(dir: Path, es: seq<DirEntry>, j: nat)
    requires j < |es|
    ensures Kept(dir, es[..j + 1]) == Kept(dir, es[..j]) + if Skipped(dir, es[j]) then [] else [Join(dir, es[j].name)]
  {
    assert es[..j + 1][..j] == es[..j];
  }

  function Candidates(f: Folder): seq<Path> {
    Kept(f.path, RemovePyCache(f.entries))
  }

  function AllCandidates(folders: seq<Folder>): seq<Path>
    decreases |folders|
  {
    if folders == [] then []
    else
      var n := |folders|;
      AllCandidates(folders[..n - 1]) + Candidates(folders[n - 1])
  }

  /** Every candidate is a `.py` file or a directory, never a `.disabled`
      entry; every entry that is one of those (other than the cache
      directory) is a candidate. */
  lemma CandidatesExactly(f: Folder, e: DirEntry)
    requires e in f.entries && e.name != PyCache
    ensures Join(f.path, e.name) in Candidates(f) <== !Skipped(f.path, e)
    ensures forall p :: p in Candidates(f) ==>
      !EndsWith(p, DisabledSuffix) && exists e' :: e' in f.entries && p == Join(f.path, e'.name) && (!e'.isFile || SplitExt(p).1 == ".py")
  {
    KeptExactly(f.path, RemovePyCache(f.entries));
  }

  /** A module switched off by renaming it to its `.disabled` twin is never
      loaded. */
  lemma DisabledTwinNeverLoaded(f: Folder, name: string)
    ensures Join(f.path, name + DisabledSuffix) !in Candidates(f)
  {
    var p := Join(f.path, name + DisabledSuffix);
    KeptExactly(f.path, RemovePyCache(f.entries));
    assert EndsWith(p, DisabledSuffix) by {
      var q := name + DisabledSuffix;
      assert p[|p| - |q|..] == q;
      assert p[|p| - |DisabledSuffix|..] == p[|p| - |q|..][|q| - |DisabledSuffix|..];
    }
  }

  /** The cache directory is never loaded when the listing names it once. */
  lemma PyCacheNeverLoaded(f: Folder, i: nat)
    requires i < |f.entries| && f.entries[i].name == PyCache
    requires forall j :: 0 <= j < |f.entries| && j != i ==> f.entries[j].name != PyCache
    requires forall e :: e in f.entries ==> '/' !in e.name
    ensures Join(f.path, PyCache) !in Candidates(f)
  {
    var es := RemovePyCache(f.entries);
    assert forall e :: e in es ==> e.name != PyCache by {
      RemovePyCacheDropsIt(f.entries, i);
    }
    KeptExactly(f.path, es);
    forall e | e in es ensures Join(f.path, e.name) != Join(f.path, PyCache) {
      if Join(f.path, e.name) == Join(f.path, PyCache) {
        JoinInjective(f.path, e.name, PyCache);
      }
    }
  }

  lemma {:induction false} RemovePyCacheDropsIt(es: seq<DirEntry>, i: nat)
    requires i < |es| && es[i].name == PyCache
    requires forall j :: 0 <= j < |es| && j != i ==> es[j].name != PyCache
    ensures forall e :: e in RemovePyCache(es) ==> e.name != PyCache
    decreases |es|
  {
    if i > 0 {
      forall j | 0 <= j < |es[1..]| && j != i - 1 ensures es[1..][j].name != PyCache {
        assert es[1..][j] == es[j + 1];
      }
      RemovePyCacheDropsIt(es[1..], i - 1);
    } else {
      forall e | e in es[1..] ensures e.name != PyCache {
        var j :| 0 <= j < |es[1..]| && es[1..][j] == e;
        assert es[j + 1] == e;
      }
    }
  }

  /** Two names without `/` joined to the same folder give the same path only
      when they are equal. */
  lemma JoinInjective(dir: Path, a: string, b: string)
    requires '/' !in a && '/' !in b && Join(dir, a) == Join(dir, b)
    ensures a == b
  {
    if a != [] && b != [] {
      assert a[0] != '/' && b[0] != '/';
    }
    if |a| < |b| {
      var p := Join(dir, b);
      assert p[|p| - |a|..] == a;
      JoinLength(dir, a);
      JoinLength(dir, b);
    } else if |b| < |a| {
      JoinLength(dir, a);
      JoinLength(dir, b);
    } else {
      JoinLength(dir, a);
      JoinLength(dir, b);
      var p := Join(dir, a);
      assert a == p[|p| - |a|..] == b;
    }
  }

  lemma JoinLength(dir: Path, a: string)
    requires '/' !in a
    ensures |Join(dir, a)| == if dir == "" || EndsWith(dir, "/") then |dir| + |a| else |dir| + 1 + |a|
  {
    if a != [] {
      assert a[0] != '/';
      assert !StartsWith(a, "/");
    }
  }

  lemma LoadAllSnoc(m: Mappings, exports: map<Path, ModuleExports>, paths: seq<Path>, p: Path, ignore: set<string>)
    ensures var (m1, rs) := LoadAll(m, exports, paths, ignore);
      var (m2, ok) := LoadOne(m1, Import(exports, p), ignore);
      LoadAll(m, exports, paths + [p], ignore) == (m2, rs + [(p, ok)])
  {
    assert (paths + [p])[..|paths|] == paths;
  }

  lemma AppendAssoc(a: seq<Path>, b: seq<Path>, c: seq<Path>)
    ensures a + b + c == a + (b + c)
  {
  }

  lemma AllCandidatesSnoc(folders: seq<Folder>, i: nat)
    requires i < |folders|
    ensures AllCandidates(folders[..i + 1]) == AllCandidates(folders[..i]) + Candidates(folders[i])
  {
    assert folders[..i + 1][..i] == folders[..i];
  }

  /** The path of a listing entry and whether one of the two `continue`
      tests of `load_custom_nodes` skips it. */
  method ModulePath(dir: Path, entry: DirEntry) returns (modulePath: Path, skip: bool)
    ensures modulePath == Join(dir, entry.name) && skip == Skipped(dir, entry)
  {
    modulePath := Join(dir, entry.name);
    if entry.isFile && SplitExt(modulePath).1 != ".py" {
      return modulePath, true;
    }
    if EndsWith(modulePath, DisabledSuffix) {
      return modulePath, true;
    }
    return modulePath, false;
  }

  /** `NODE_CLASS_MAPPINGS` and `NODE_DISPLAY_NAME_MAPPINGS`, updated in place. */
  class NodeRegistry {
    var classes: map<string, NodeClass>
    var displays: map<string, string>

    function State(): Mappings
      reads this
    {
      Mappings(classes, displays)
    }

    constructor (classes: map<string, NodeClass>, displays: map<string, string>)
      ensures State() == Mappings(classes, displays)
    {
      this.classes := classes;
      this.displays := displays;
    }

    /** `load_custom_node(module_path, ignore)` after the import. */
    method LoadModule(e: Option<ModuleExports>, ignore: set<string>) returns (success: bool)
      modifies this
      ensures (State(), success) == LoadOne(old(State()), e, ignore)
    {
      if e.None? || e.value.classMappings.None? {
        return false;
      }
      var mods := e.value.classMappings.value;
      var pending := mods.Keys;
      while pending != {}
        invariant pending <= mods.Keys
        invariant classes == MergeClasses(old(classes), mods - pending, ignore)
        invariant displays == old(displays)
        decreases pending
      {
        var name :| name in pending;
        if name !in ignore {
          classes := classes[name := mods[name]];
        }
        pending := pending - {name};
      }
      assert mods - {} == mods;
      if e.value.displayNames.Some? {
        displays := displays + e.value.displayNames.value;
      }
      return true;
    }

    /** One call of `load_custom_node` from `load_custom_nodes`, with its
        outcome recorded. */
    method LoadPath(exports: map<Path, ModuleExports>, p: Path, base: set<string>, ghost start: Mappings, ghost done: seq<Path>, loaded: seq<(Path, bool)>)
      returns (results: seq<(Path, bool)>)
      requires State() == LoadAll(start, exports, done, base).0 && loaded == LoadAll(start, exports, done, base).1
      modifies this
      ensures State() == LoadAll(start, exports, done + [p], base).0
      ensures results == LoadAll(start, exports, done + [p], base).1
    {
      LoadAllSnoc(start, exports, done, p, base);
      var success := LoadModule(Import(exports, p), base);
      results := loaded + [(p, success)];
    }

    /** Entry `j` of a folder's listing: skipped by a `continue`, or loaded. */
    method LoadEntry(dir: Path, es: seq<DirEntry>, j: nat, exports: map<Path, ModuleExports>, base: set<string>, ghost start: Mappings, ghost done: seq<Path>, loaded: seq<(Path, bool)>)
      returns (results: seq<(Path, bool)>, ghost added: seq<Path>)
      requires j < |es|
      requires State() == LoadAll(start, exports, done, base).0 && loaded == LoadAll(start, exports, done, base).1
      modifies this
      ensures Kept(dir, es[..j + 1]) == Kept(dir, es[..j]) + added
      ensures State() == LoadAll(start, exports, done + added, base).0
      ensures results == LoadAll(start, exports, done + added, base).1
    {
      KeptSnoc(dir, es, j);
      var modulePath, skip := ModulePath(dir, es[j]);
      if skip {
        assert done + [] == done;
        return loaded, [];
      }
      results := LoadPath(exports, modulePath, base, start, done, loaded);
      added := [modulePath];
    }

    /** The inner loop of `load_custom_nodes` over one folder's listing. */
    method LoadFolder(f: Folder, exports: map<Path, ModuleExports>, base: set<string>, ghost start: Mappings, ghost done: seq<Path>, loaded: seq<(Path, bool)>)
      returns (results: seq<(Path, bool)>)
      requires State() == LoadAll(start, exports, done, base).0 && loaded == LoadAll(start, exports, done, base).1
      modifies this
      ensures State() == LoadAll(start, exports, done + Candidates(f), base).0
      ensures results == LoadAll(start, exports, done + Candidates(f), base).1
    {
      var possible := RemovePyCache(f.entries);
      ghost var kept: seq<Path> := [];
      results := loaded;
      assert Kept(f.path, possible[..0]) == [];
      assert done + kept == done;
      for j := 0 to |possible|
        invariant kept == Kept(f.path, possible[..j])
        invariant State() == LoadAll(start, exports, done + kept, base).0
        invariant results == LoadAll(start, exports, done + kept, base).1
      {
        ghost var added;
        results, added := LoadEntry(f.path, possible, j, exports, base, start, done + kept, results);
        AppendAssoc(done, kept, added);
        kept := kept + added;
      }
      assert possible[..|possible|] == possible;
    }

    /** `load_custom_nodes()`: every candidate of every folder is loaded
        against the class names registered before the walk. */
    method LoadCustomNodes(folders: seq<Folder>, exports: map<Path, ModuleExports>) returns (results: seq<(Path, bool)>)
      modifies this
      ensures State() == LoadAll(old(State()), exports, AllCandidates(folders), old(classes).Keys).0
      ensures results == LoadAll(old(State()), exports, AllCandidates(folders), old(classes).Keys).1
    {
      var base := classes.Keys;
      ghost var start := State();
      results := [];
      assert AllCandidates(folders[..0]) == [];
      for i := 0 to |folders|
        invariant State() == LoadAll(start, exports, AllCandidates(folders[..i]), base).0
        invariant results == LoadAll(start, exports, AllCandidates(folders[..i]), base).1
      {
        AllCandidatesSnoc(folders, i);
        results := LoadFolder(folders[i], exports, base, start, AllCandidates(folders[..i]), results);
      }
      assert folders[..|folders|] == folders;
    }
  }

  /** Loading never replaces a class registered before the walk began. */
  lemma LoadingKeepsBaseNames(m: Mappings, exports: map<Path, ModuleExports>, folders: seq<Folder>, k: string)
    requires k in m.classes
    ensures var c := LoadAll(m, exports, AllCandidates(folders), m.classes.Keys).0.classes;
      k in c && c[k] == m.classes[k]
  {
    LoadAllKeepsIgnored(m, exports, AllCandidates(folders), m.classes.Keys, k);
  }
}
