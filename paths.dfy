/** The parts of Python's `os.path` (POSIX flavour) the core uses, and the
    resolution of a path string to the location it names on disk. */
module Paths {
  import opened Strings

  type Path = string

  /** `if url.endswith("/"): url = url[:-1]` — exactly one trailing slash goes. */
  function StripSlash(url: string): (r: string)
    ensures EndsWith(url, "/") ==> r + "/" == url
    ensures !EndsWith(url, "/") ==> r == url
  {
    if EndsWith(url, "/") then url[..|url| - 1] else url
  }

  /** `os.path.basename`: everything after the last `/`. */
  function Basename(p: Path): (r: string)
    ensures '/' !in r
    ensures EndsWith(p, r)
    ensures r == p || p[|p| - |r| - 1] == '/'
  {
    p[LastIndexOf(p, '/') + 1..]
  }

  /** `os.path.join(a, b)`. */
  function Join(a: Path, b: Path): (r: Path)
    ensures EndsWith(r, b)
  {
    if StartsWith(b, "/") then b
    else if a == "" || EndsWith(a, "/") then a + b
    else a + "/" + b
  }

  predicate AllDots(s: string) {
    forall i :: 0 <= i < |s| ==> s[i] == '.'
  }

  /** `os.path.splitext`: the extension is the last `.` of the last component
      and what follows it, unless only dots precede it in that component. */
  function SplitExt(p: Path): (r: (string, string))
    ensures r.0 + r.1 == p
  {
    var sep := LastIndexOf(p, '/');
    var dot := LastIndexOf(p, '.');
    if dot > sep && !AllDots(p[sep + 1..dot]) then (p[..dot], p[dot..]) else (p, "")
  }

  /** The extension, when there is one, is a `.` followed by neither `/` nor `.`. */
  lemma SplitExtShape(p: Path)
    ensures var e := SplitExt(p).1;
      e == "" || (e[0] == '.' && forall j :: 1 <= j < |e| ==> e[j] != '/' && e[j] != '.')
  {
    var sep := LastIndexOf(p, '/');
    var dot := LastIndexOf(p, '.');
    if dot > sep && !AllDots(p[sep + 1..dot]) {
      var e := p[dot..];
      forall j | 1 <= j < |e| ensures e[j] != '/' && e[j] != '.' {
        assert e[j] == p[dot + j];
      }
    }
  }

  /** `p.split('/')`. */
  function Split(p: string): (r: seq<string>)
    ensures |r| >= 1
    decreases |p|
  {
    var i := IndexOf(p, '/');
    if i < 0 then [p] else [p[..i]] + Split(p[i + 1..])
  }

  /** Drops the segments that name no further directory: empty ones (from `//`
      or a trailing `/`) and `.`. */
  function Clean(segs: seq<string>): (r: seq<string>)
    ensures forall i :: 0 <= i < |r| ==> r[i] != "" && r[i] != "."
    decreases |segs|
  {
    if segs == [] then []
    else (if segs[0] == "" || segs[0] == "." then [] else [segs[0]]) + Clean(segs[1..])
  }

  /** The location a path names on disk, as a list of directory entries.
      `a/b`, `a//b`, `a/./b` and `a/b/` all name the same location. */
  function Resolve(p: Path): seq<string> {
    Clean(Split(p))
  }

  lemma {:induction false} SplitConcat(a: string, b: string)
    ensures Split(a + "/" + b) == Split(a) + Split(b)
    decreases |a|
  {
    var s := a + "/" + b;
    var i := IndexOf(a, '/');
    if i < 0 {
      assert IndexOf(s, '/') == |a| by {
        assert s[|a|] == '/';
        forall j | 0 <= j < |a| ensures s[j] != '/' {
          assert s[j] == a[j];
        }
        IndexOfFirst(s, '/', |a|);
      }
      assert s[..|a|] == a;
      assert s[|a| + 1..] == b;
    } else {
      assert IndexOf(s, '/') == i by {
        assert s[i] == a[i];
        forall j | 0 <= j < i ensures s[j] != '/' {
          assert s[j] == a[j];
        }
        IndexOfFirst(s, '/', i);
      }
      assert s[..i] == a[..i];
      assert s[i + 1..] == a[i + 1..] + "/" + b;
      SplitConcat(a[i + 1..], b);
    }
  }

  /** `IndexOf` finds the first occurrence. */
  lemma {:induction false} IndexOfFirst(s: string, c: char, k: int)
    requires 0 <= k < |s| && s[k] == c
    requires forall j :: 0 <= j < k ==> s[j] != c
    ensures IndexOf(s, c) == k
  {
  }

  lemma {:induction false} CleanConcat(x: seq<string>, y: seq<string>)
    ensures Clean(x + y) == Clean(x) + Clean(y)
    decreases |x|
  {
    if x != [] {
      assert (x + y)[1..] == x[1..] + y;
      CleanConcat(x[1..], y);
    } else {
      assert x + y == y;
    }
  }

  lemma ResolveSlashConcat(a: string, b: string)
    ensures Resolve(a + "/" + b) == Resolve(a) + Resolve(b)
  {
    SplitConcat(a, b);
    CleanConcat(Split(a), Split(b));
  }

  /** A single path component resolves to itself, unless it is empty or `.`. */
  lemma ResolveComponent(n: string)
    requires '/' !in n
    ensures Resolve(n) == if n == "" || n == "." then [] else [n]
  {
    assert IndexOf(n, '/') < 0;
    assert Split(n) == [n];
    assert [n][1..] == [];
    assert Clean([n]) == (if n == "" || n == "." then [] else [n]) + Clean([]);
  }

  /** A trailing `/` names the same location. */
  lemma ResolveTrailingSlash(a: string)
    ensures Resolve(a + "/") == Resolve(a)
  {
    assert a + "/" == a + "/" + "";
    ResolveSlashConcat(a, "");
    ResolveComponent("");
  }

  /** Joining a relative path descends into it: `os.path.join` never leaves
      the location of its first argument. */
  lemma ResolveJoin(a: Path, b: Path)
    requires !StartsWith(b, "/")
    ensures Resolve(Join(a, b)) == Resolve(a) + Resolve(b)
  {
    if a == "" {
      assert Join(a, b) == b;
      ResolveComponent("");
    } else if EndsWith(a, "/") {
      var a' := a[..|a| - 1];
      assert a == a' + "/";
      assert Join(a, b) == a' + "/" + b;
      ResolveTrailingSlash(a');
      ResolveSlashConcat(a', b);
    } else {
      assert Join(a, b) == a + "/" + b;
      ResolveSlashConcat(a, b);
    }
  }

  /** The last component of `prefix/name` is `name`. */
  lemma BasenameOf(prefix: Path, name: string)
    requires '/' !in name
    ensures Basename(prefix + "/" + name) == name
  {
    var p := prefix + "/" + name;
    forall j | |prefix| < j < |p| ensures p[j] != '/' {
      assert p[j] == name[j - |prefix| - 1];
    }
    assert p[|prefix|] == '/';
    assert LastIndexOf(p, '/') == |prefix|;
    assert p[|prefix| + 1..] == name;
  }

  /** The name `splitext` leaves has no separator when the path has none. */
  lemma SplitExtRootNoSlash(p: Path)
    requires '/' !in p
    ensures '/' !in SplitExt(p).0
  {
    var r := SplitExt(p).0;
    assert p[..|r|] == r;
  }

  /** A suffix appended to a joined path lands on its last component. */
  lemma JoinAppend(a: Path, b: Path, x: string)
    requires !StartsWith(b, "/") && !StartsWith(b + x, "/")
    ensures Join(a, b) + x == Join(a, b + x)
  {
  }

  /** `os.path.join(a, ".")` names `a` itself. */
  lemma ResolveJoinDot(a: Path)
    ensures Resolve(Join(a, ".")) == Resolve(a)
  {
    assert "."[..1][0] == '.' && "/"[0] == '/';
    ResolveJoin(a, ".");
    ResolveComponent(".");
    assert Resolve(a) + [] == Resolve(a);
  }

  /** `os.path.join(a, "")` adds a trailing separator and so names `a` itself. */
  lemma ResolveJoinEmpty(a: Path)
    ensures Resolve(Join(a, "")) == Resolve(a)
  {
    ResolveJoin(a, "");
    ResolveComponent("");
    assert Resolve(a) + [] == Resolve(a);
  }

  /** A plain file name as a child entry of `dir`. */
  lemma ResolveChild(dir: Path, name: string)
    requires '/' !in name && name != "" && name != "."
    ensures Resolve(Join(dir, name)) == Resolve(dir) + [name]
  {
    assert name[0] != '/';
    ResolveJoin(dir, name);
    ResolveComponent(name);
  }
}
