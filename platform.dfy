/** The machine the manager runs on: a filesystem, the processes it spawns and
    the outside services it talks to. Network, git, pip and subprocesses are not
    modelled; what they answer is fixed in a `World` of oracle functions. */
module Platform {
  import opened Wrappers
  import opened Strings
  import opened Paths

  /** A resolved location (see `Paths.Resolve`). */
  type Key = seq<string>

  /** A text file is the list of its lines, each as Python's line iteration
      yields it (with its trailing newline, when there is one). */
  datatype Node = Dir | File(lines: seq<string>)

  type Fs = map<Key, Node>

  /** A spawned process: its argument list and its working directory. */
  datatype Invocation = Invocation(cmd: seq<string>, cwd: Path)

  /** `custom_nodes_path`, `js_path` (web/extensions), `startup_script_path`,
      `sys.executable`, and whether `platform.system()` is `"Windows"`. */
  datatype Config = Config(customNodes: Path, jsPath: Path, startupScripts: Path, python: string, windows: bool)

  /** The answers of everything outside the model:
      - `exitCode`: the exit status of a spawned command;
      - `download`: the content `download_url` fetches, `None` when it raises;
      - `unzip`: the entries fetching and extracting an archive creates, named
        relative to the directory it is extracted into, `None` when that raises;
      - `cloned`: the entries `git clone` creates when it exits with 0, named
        relative to the repository directory it creates;
      - `deleteSucceeds(n)`: whether the n-th `shutil.rmtree` call of the run succeeds. */
  datatype World = World(
    exitCode: Invocation -> int,
    download: string -> Option<seq<string>>,
    unzip: string -> Option<Fs>,
    cloned: string -> Fs,
    deleteSucceeds: nat -> bool)

  /** The observable state: the filesystem, every process spawned so far, and
      how many tree deletions have been attempted so far. */
  datatype Os = Os(fs: Fs, spawned: seq<Invocation>, attempts: nat)

  /** `os.path.exists`. */
  predicate Exists(s: Os, p: Path) {
    Resolve(p) in s.fs
  }

  /** Everything at or below `root` is gone; everything else is untouched. */
  function RemoveTree(fs: Fs, root: Key): (r: Fs)
    ensures forall k :: k in r <==> k in fs && !(root <= k)
    ensures forall k :: k in r ==> r[k] == fs[k]
  {
    map k | k in fs && !(root <= k) :: fs[k]
  }

  /** Entries named relative to a directory, placed under that directory's key. */
  function Under(root: Key, entries: Fs): (r: Fs)
    ensures forall k :: k in r ==> root <= k
    ensures forall k :: k in entries <==> root + k in r
    ensures forall k :: k in entries ==> r[root + k] == entries[k]
  {
    PrefixInjective(root);
    map k | k in entries :: root + k := entries[k]
  }

  lemma PrefixInjective(root: Key)
    ensures forall a: Key, b: Key :: root + a == root + b ==> a == b
  {
    forall a: Key, b: Key | root + a == root + b ensures a == b {
      assert a == (root + a)[|root|..];
      assert b == (root + b)[|root|..];
    }
  }

  /** `os.remove`: raises unless `p` is a file. */
  function RemoveFile(s: Os, p: Path): (r: (Os, bool))
    ensures r.1 <==> Exists(s, p) && s.fs[Resolve(p)].File?
    ensures r.1 ==> r.0 == s.(fs := s.fs - {Resolve(p)})
    ensures !r.1 ==> r.0 == s
  {
    var k := Resolve(p);
    if k in s.fs && s.fs[k].File? then (s.(fs := s.fs - {k}), true) else (s, false)
  }

  /** `os.makedirs(p)`, called only where `p` does not exist yet. */
  function MakeDirs(s: Os, p: Path): (r: Os)
    ensures Exists(r, p) && r.spawned == s.spawned && r.attempts == s.attempts
    ensures forall k :: k in s.fs ==> k in r.fs && r.fs[k] == s.fs[k]
    ensures forall k :: k in r.fs && k != Resolve(p) ==> k in s.fs
  {
    if Resolve(p) in s.fs then s else s.(fs := s.fs[Resolve(p) := Dir])
  }

  /** Where `download_url(url, dir)` stores the file: its basename in `dir`. */
  function DownloadTarget(url: string, dir: Path): Key {
    Resolve(Join(dir, Basename(url)))
  }

  /** What makes `download_url(url, dir)` raise whatever the network answers:
      `os.makedirs(dir, exist_ok=True)` meets a file, or the file it opens for
      writing is a directory (the URL ends in no name, in `.`, or in `..`, or a
      directory of that name is already there). */
  predicate DownloadBlocked(s: Os, url: string, dir: Path) {
    var d := Resolve(dir);
    var t := DownloadTarget(url, dir);
    (d in s.fs && s.fs[d].File?) || t == d || Basename(url) == ".." || (t in s.fs && s.fs[t].Dir?)
  }

  /** `download_url(url, dir)`: creates `dir` when missing, then stores the
      fetched file under its basename in `dir`; it fails on a blocked target
      or when the fetch fails, with nothing written but the directory. */
  function Download(w: World, s: Os, url: string, dir: Path): (r: (Os, bool))
    ensures r.1 <==> !DownloadBlocked(s, url, dir) && w.download(url).Some?
    ensures r.1 ==> r.0 == MakeDirs(s, dir).(fs := MakeDirs(s, dir).fs[DownloadTarget(url, dir) := File(w.download(url).value)])
    ensures !r.1 ==> r.0 == MakeDirs(s, dir)
  {
    var s1 := MakeDirs(s, dir);
    if DownloadBlocked(s, url, dir) then (s1, false)
    else match w.download(url)
      case None => (s1, false)
      case Some(content) => (s1.(fs := s1.fs[DownloadTarget(url, dir) := File(content)]), true)
  }

  /** Creating the directory first changes neither whether a download into it
      is blocked nor what the download leaves behind. */
  lemma DownloadAfterMakeDirs(w: World, s: Os, url: string, dir: Path)
    ensures DownloadBlocked(MakeDirs(s, dir), url, dir) == DownloadBlocked(s, url, dir)
    ensures Download(w, MakeDirs(s, dir), url, dir) == Download(w, s, url, dir)
  {
  }

  /** A download leaves a second one unblocked when neither writes where
      the other needs a directory. */
  lemma DownloadKeepsClear(w: World, s: Os, url0: string, dir0: Path, url: string, dir: Path)
    requires Download(w, s, url0, dir0).1 && !DownloadBlocked(s, url, dir)
    requires DownloadTarget(url0, dir0) != Resolve(dir) && DownloadTarget(url, dir) != Resolve(dir0)
    ensures !DownloadBlocked(Download(w, s, url0, dir0).0, url, dir)
  {
    var s1 := MakeDirs(s, dir0);
    var t0 := DownloadTarget(url0, dir0);
    var s2 := Download(w, s, url0, dir0).0;
    assert s2.fs == s1.fs[t0 := File(w.download(url0).value)];
    var d := Resolve(dir);
    var t := DownloadTarget(url, dir);
    assert !(d in s2.fs && s2.fs[d].File?) by {
      if d in s2.fs && d != Resolve(dir0) {
        assert s2.fs[d] == s1.fs[d];
        assert d in s.fs && s1.fs[d] == s.fs[d];
      }
    }
    assert !(t in s2.fs && s2.fs[t].Dir?) by {
      if t in s2.fs && t != t0 {
        assert s2.fs[t] == s1.fs[t];
        assert t in s.fs && s1.fs[t] == s.fs[t];
      }
    }
  }

  /** Starting a process records it; its exit status comes from the world. */
  function Spawn(w: World, s: Os, inv: Invocation): (r: (Os, int))
    ensures r.0.fs == s.fs && r.0.attempts == s.attempts && r.0.spawned == s.spawned + [inv]
    ensures r.1 == w.exitCode(inv)
  {
    (s.(spawned := s.spawned + [inv]), w.exitCode(inv))
  }

  /** One call of `shutil.rmtree(p)`, which either removes the whole tree or
      raises and leaves the filesystem as it was. */
  function RmtreeAttempt(w: World, s: Os, p: Path): (r: (Os, bool))
    ensures r.1 == w.deleteSucceeds(s.attempts)
    ensures r.0.attempts == s.attempts + 1 && r.0.spawned == s.spawned
    ensures r.0.fs == if r.1 then RemoveTree(s.fs, Resolve(p)) else s.fs
  {
    var n := s.attempts;
    if w.deleteSucceeds(n) then (Os(RemoveTree(s.fs, Resolve(p)), s.spawned, n + 1), true)
    else (s.(attempts := n + 1), false)
  }

  /** The directory key that holds `k`. */
  function ParentKey(k: Key): (r: Key)
    ensures |k| > 0 ==> r + [k[|k| - 1]] == k
  {
    if |k| == 0 then k else k[..|k| - 1]
  }

  /** Where `open(p, "a")` raises: `p` is a directory (IsADirectoryError), or
      the directory that should hold it is a regular file (NotADirectoryError). */
  predicate AppendBlocked(s: Os, p: Path) {
    var k := Resolve(p);
    (k in s.fs && s.fs[k].Dir?) || (|k| > 0 && ParentKey(k) in s.fs && s.fs[ParentKey(k)].File?)
  }

  /** `open(p, "a").write(line)`: creates the file when it is absent and
      raises, changing nothing, when the target is blocked. */
  function AppendLine(s: Os, p: Path, line: string): (r: (Os, bool))
    ensures r.1 <==> !AppendBlocked(s, p)
    ensures r.1 ==> r.0 == s.(fs := s.fs[Resolve(p) := File(
      (if Exists(s, p) then s.fs[Resolve(p)].lines else []) + [line])])
    ensures !r.1 ==> r.0 == s
  {
    var k := Resolve(p);
    if AppendBlocked(s, p) then (s, false)
    else if k !in s.fs then (s.(fs := s.fs[k := File([] + [line])]), true)
    else (s.(fs := s.fs[k := File(s.fs[k].lines + [line])]), true)
  }

  /** The directory `git clone url` creates when given none: the last
      component of the URL without its `.git` suffix. */
  function GitDestName(url: string): (r: string)
    ensures EndsWith(Basename(url), ".git") ==> r + ".git" == Basename(url)
    ensures !EndsWith(Basename(url), ".git") ==> r == Basename(url)
  {
    var b := Basename(url);
    if EndsWith(b, ".git") then
      assert b == b[..|b| - 4] + b[|b| - 4..];
      b[..|b| - 4]
    else b
  }

  function CloneDest(url: string, cwd: Path): Key {
    Resolve(Join(cwd, GitDestName(url)))
  }

  /** git refuses a destination that exists and is not an empty directory. */
  predicate CloneBlocked(s: Os, url: string, cwd: Path) {
    var d := CloneDest(url, cwd);
    d in s.fs && (s.fs[d].File? || exists k :: k in s.fs && d < k)
  }

  /** `subprocess.check_output(['git', 'clone', url], cwd=cwd)`: on exit 0 the
      destination directory holds the cloned entries; a refused destination
      fails whatever the remote answers, and a failure changes no file. */
  function Clone(w: World, s: Os, url: string, cwd: Path): (r: (Os, bool))
    ensures r.0.spawned == s.spawned + [Invocation(["git", "clone", url], cwd)]
    ensures r.1 <==> !CloneBlocked(s, url, cwd) && w.exitCode(Invocation(["git", "clone", url], cwd)) == 0
    ensures r.0.fs == if r.1 then s.fs[CloneDest(url, cwd) := Dir] + Under(CloneDest(url, cwd), w.cloned(url)) else s.fs
    ensures r.0.attempts == s.attempts
  {
    var inv := Invocation(["git", "clone", url], cwd);
    var d := CloneDest(url, cwd);
    if !CloneBlocked(s, url, cwd) && w.exitCode(inv) == 0 then
      (Os(s.fs[d := Dir] + Under(d, w.cloned(url)), s.spawned + [inv], s.attempts), true)
    else (s.(spawned := s.spawned + [inv]), false)
  }

  /** A clone holds its `.git` directory, so cloning the same URL again into
      the same directory is refused, and only the spawn is recorded. */
  lemma CloneAgainRefused(w: World, s: Os, url: string, cwd: Path)
    requires Clone(w, s, url, cwd).1 && [".git"] in w.cloned(url)
    ensures var s1 := Clone(w, s, url, cwd).0;
      Clone(w, s1, url, cwd) == (s1.(spawned := s1.spawned + [Invocation(["git", "clone", url], cwd)]), false)
  {
    var s1 := Clone(w, s, url, cwd).0;
    var d := CloneDest(url, cwd);
    var k := d + [".git"];
    assert k in Under(d, w.cloned(url));
    assert k in s1.fs && d < k;
    assert CloneBlocked(s1, url, cwd);
  }

  /** Where `extractall` raises on the disk it meets: an entry lands on a
      node of the other kind (a file on a directory, a directory on a file),
      or the directory holding an entry is a regular file. */
  predicate ExtractClash(fs: Fs, root: Key, entries: Fs) {
    exists e :: e in entries &&
      var k := root + e;
      (k in fs && fs[k].Dir? != entries[e].Dir?)
      || (|k| > 0 && ParentKey(k) in fs && fs[ParentKey(k)].File?)
  }

  /** Download an archive and `extractall` it into `dir`; earlier files are
      overwritten, and a clash with the disk fails the extraction. */
  function Extract(w: World, s: Os, url: string, dir: Path): (r: (Os, bool))
    ensures r.1 <==> w.unzip(url).Some? && !ExtractClash(s.fs, Resolve(dir), w.unzip(url).value)
    ensures r.0 == if r.1 then s.(fs := s.fs + Under(Resolve(dir), w.unzip(url).value)) else s
  {
    match w.unzip(url)
    case None => (s, false)
    case Some(entries) =>
      if ExtractClash(s.fs, Resolve(dir), entries) then (s, false)
      else (s.(fs := s.fs + Under(Resolve(dir), entries)), true)
  }

  /** The host, whose filesystem and process table the manager changes in place. */
  class Host {
    const cfg: Config
    const world: World
    var fs: Fs
    var spawned: seq<Invocation>
    var attempts: nat

    function State(): Os
      reads this
    {
      Os(fs, spawned, attempts)
    }

    constructor (cfg: Config, world: World, fs: Fs)
      ensures this.cfg == cfg && this.world == world
      ensures State() == Os(fs, [], 0)
    {
      this.cfg := cfg;
      this.world := world;
      this.fs := fs;
      this.spawned := [];
      this.attempts := 0;
    }

    method Remove(p: Path) returns (ok: bool)
      modifies this
      ensures (State(), ok) == RemoveFile(old(State()), p)
    {
      var k := Resolve(p);
      if k in fs && fs[k].File? {
        fs := fs - {k};
        ok := true;
      } else {
        ok := false;
      }
    }

    method MakeDir(p: Path)
      modifies this
      ensures State() == MakeDirs(old(State()), p)
    {
      var k := Resolve(p);
      if k !in fs {
        fs := fs[k := Dir];
      }
    }

    method Fetch(url: string, dir: Path) returns (ok: bool)
      modifies this
      ensures (State(), ok) == Download(world, old(State()), url, dir)
    {
      var blocked := DownloadBlocked(State(), url, dir);
      MakeDir(dir);
      if blocked {
        return false;
      }
      var content := world.download(url);
      ok := content.Some?;
      if ok {
        fs := fs[DownloadTarget(url, dir) := File(content.value)];
      }
    }

    method Run(inv: Invocation) returns (code: int)
      modifies this
      ensures (State(), code) == Spawn(world, old(State()), inv)
    {
      spawned := spawned + [inv];
      code := world.exitCode(inv);
    }

    method DeleteTree(p: Path) returns (ok: bool)
      modifies this
      ensures (State(), ok) == RmtreeAttempt(world, old(State()), p)
    {
      ok := world.deleteSucceeds(attempts);
      attempts := attempts + 1;
      if ok {
        fs := RemoveTree(fs, Resolve(p));
      }
    }

    method Append(p: Path, line: string) returns (ok: bool)
      modifies this
      ensures (State(), ok) == AppendLine(old(State()), p, line)
    {
      var k := Resolve(p);
      if AppendBlocked(State(), p) {
        ok := false;
      } else if k !in fs {
        fs := fs[k := File([] + [line])];
        ok := true;
      } else {
        fs := fs[k := File(fs[k].lines + [line])];
        ok := true;
      }
    }

    method GitClone(url: string, cwd: Path) returns (ok: bool)
      modifies this
      ensures (State(), ok) == Clone(world, old(State()), url, cwd)
    {
      var inv := Invocation(["git", "clone", url], cwd);
      ok := !CloneBlocked(State(), url, cwd) && world.exitCode(inv) == 0;
      spawned := spawned + [inv];
      if ok {
        var d := CloneDest(url, cwd);
        fs := fs[d := Dir] + Under(d, world.cloned(url));
      }
    }

    method Unzip(url: string, dir: Path) returns (ok: bool)
      modifies this
      ensures (State(), ok) == Extract(world, old(State()), url, dir)
    {
      var entries := world.unzip(url);
      ok := entries.Some? && !ExtractClash(fs, Resolve(dir), entries.value);
      if ok {
        fs := fs + Under(Resolve(dir), entries.value);
      }
    }
  }
}
