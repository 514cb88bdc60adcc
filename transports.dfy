/** The five batch operations that put plugin files in place or take them
    away: `copy_install`, `copy_uninstall`, `unzip_install`,
    `gitclone_uninstall` (`_external_functions.py`) and `gitclone_install`
    (`main.py`). Each walks its list of URLs in order and gives up, returning
    `False`, at the first URL whose step fails. */
module Transports {
  import opened Wrappers
  import opened Strings
  import opened Paths
  import opened Platform
  import opened Scripts
  import opened Urls

  datatype Transport =
    | CopyIn(jsDir: Option<string>)    // copy_install(files, js_path_name)
    | CopyOut(jsName: string)          // copy_uninstall(files, js_path_name)
    | UnzipIn                          // unzip_install(files)
    | GitIn                            // gitclone_install(files)
    | GitOut                           // gitclone_uninstall(files)

  const Disabled := ".disabled"

  // ---------------------------------------------------------------- copy

  /** Where `copy_install` puts a non-`.py` file. */
  function JsTarget(cfg: Config, jsName: Option<string>): Path {
    if jsName.Some? then Join(cfg.jsPath, jsName.value) else cfg.jsPath
  }

  /** The directory `copy_install` downloads one URL into. */
  function CopyDir(cfg: Config, jsName: Option<string>, url: string): Path {
    if EndsWith(url, ".py") then cfg.customNodes else JsTarget(cfg, jsName)
  }

  /** One URL of `copy_install`: a `.py` file is downloaded into the custom
      nodes directory, anything else into the (created if missing) script
      directory. Either way the directory exists afterwards, and the step
      succeeds exactly when the target is not blocked and the download
      succeeds, the downloaded file then being the only other change. */
  function CopyInstallStep(cfg: Config, w: World, s: Os, jsName: Option<string>, url0: string): (r: (Os, bool))
    ensures var url := StripSlash(url0); r == Download(w, s, url, CopyDir(cfg, jsName, url))
    ensures var url := StripSlash(url0);
      r.1 <==> !DownloadBlocked(s, url, CopyDir(cfg, jsName, url)) && w.download(url).Some?
    ensures var url := StripSlash(url0); var dir := CopyDir(cfg, jsName, url); var s1 := MakeDirs(s, dir);
      r.0 == if r.1 then s1.(fs := s1.fs[DownloadTarget(url, dir) := File(w.download(url).value)]) else s1
  {
    var url := StripSlash(url0);
    if EndsWith(url, ".py") then Download(w, s, url, cfg.customNodes)
    else
      var path := JsTarget(cfg, jsName);
      var s1 := if Exists(s, path) then s else MakeDirs(s, path);
      DownloadAfterMakeDirs(w, s, url, path);
      Download(w, s1, url, path)
  }

  /** The file `copy_uninstall` removes for one URL (before the `.disabled`
      fallback). */
  function CopyTarget(cfg: Config, jsName: string, url: string): Path {
    var base := if EndsWith(url, ".py") then cfg.customNodes else Join(cfg.jsPath, jsName);
    Join(base, Basename(url))
  }

  /** One URL of `copy_uninstall`: the file, or failing that its `.disabled`
      twin, is removed; neither existing is not an error, but removing a
      directory is (`os.remove` raises). */
  function CopyUninstallStep(cfg: Config, s: Os, jsName: string, url0: string): (r: (Os, bool))
    ensures r.0.spawned == s.spawned && r.0.attempts == s.attempts
  {
    var fp := CopyTarget(cfg, jsName, StripSlash(url0));
    if Exists(s, fp) then RemoveFile(s, fp)
    else if Exists(s, fp + Disabled) then RemoveFile(s, fp + Disabled)
    else (s, true)
  }

  // ---------------------------------------------------------------- unzip

  /** One URL of `unzip_install`: the archive is fetched and extracted over
      the custom nodes directory. */
  function UnzipInstallStep(cfg: Config, w: World, s: Os, url0: string): (r: (Os, bool))
    ensures r.1 <==> (w.unzip(StripSlash(url0)).Some?
      && !ExtractClash(s.fs, Resolve(cfg.customNodes), w.unzip(StripSlash(url0)).value))
    ensures r.0.spawned == s.spawned && r.0.attempts == s.attempts
  {
    Extract(w, s, StripSlash(url0), cfg.customNodes)
  }

  // ---------------------------------------------------------------- git clone

  /** `os.path.splitext(os.path.basename(url))[0]`: the clone's directory name. */
  function RepoName(url: string): string {
    SplitExt(Basename(url)).0
  }

  /** The URL handed to `git clone`: `.git` is appended when missing. */
  function CloneUrl(url: string): (r: string)
    ensures EndsWith(r, ".git")
    ensures StartsWith(r, url)
    ensures EndsWith(url, ".git") ==> r == url
    ensures !EndsWith(url, ".git") ==> |r| == |url| + 4
  {
    if EndsWith(url, ".git") then url else url + ".git"
  }

  /** One URL of `gitclone_install`. The validity check sees the URL before
      its trailing slash is dropped; the requirements and `install.py` run in
      the directory named after the repository. */
  function GitcloneInstallStep(cfg: Config, w: World, s: Os, url0: string): (r: (Os, bool))
    ensures r.0.attempts == s.attempts
    ensures !IsValidUrl(url0) ==> r == (s, false)
  {
    if !IsValidUrl(url0) then (s, false)
    else
      var url := StripSlash(url0);
      var repoPath := Join(cfg.customNodes, RepoName(url));
      var (s1, cloned) := Clone(w, s, CloneUrl(url), cfg.customNodes);
      if !cloned then (s1, false)
      else ExecuteInstallScriptSpec(cfg, w, s1, repoPath, false)
  }

  /** `os.path.splitext(os.path.basename(url))[0].replace(".git", "")`. */
  function GitDirName(url: string): string {
    RemoveAll(RepoName(url), ".git")
  }

  /** The safety check of `gitclone_uninstall` as the source writes it: it
      refuses the file system root and a drive root. */
  predicate UnsafeTargetAsWritten(dirPath: Path) {
    dirPath == "/" || (|dirPath| >= 1 && dirPath[1..] == ":/") || dirPath == ""
  }

  /** The check the model uses: it also refuses a directory name that does
      not name a child of the custom nodes directory (empty, `.` or `..`). */
  predicate UnsafeTarget(dirName: string, dirPath: Path) {
    UnsafeTargetAsWritten(dirPath) || dirName == "" || dirName == "." || dirName == ".."
  }

  /** The script `gitclone_uninstall` runs before deleting, if any:
      `uninstall.py` first, else `disable.py`. */
  function UninstallHook(s: Os, dirPath: Path): Option<string> {
    if Exists(s, Join(dirPath, "uninstall.py")) then Some("uninstall.py")
    else if Exists(s, Join(dirPath, "disable.py")) then Some("disable.py")
    else None
  }

  /** The common part of one `gitclone_uninstall` URL once the check has
      passed: the hook runs (its exit status only prints a warning), then the
      directory, or failing that its `.disabled` twin, is deleted. */
  function UninstallDir(cfg: Config, w: World, s: Os, dirPath: Path): (r: (Os, bool))
  {
    var hook := UninstallHook(s, dirPath);
    var s1 := if hook.Some? then RunScriptSpec(w, s, [cfg.python, hook.value], dirPath).0 else s;
    if Exists(s1, dirPath) then RmtreeSpec(cfg, w, s1, dirPath)
    else if Exists(s1, dirPath + Disabled) then RmtreeSpec(cfg, w, s1, dirPath + Disabled)
    else (s1, true)
  }

  /** One URL of `gitclone_uninstall`, with the source's safety check. */
  function GitcloneUninstallStepAsWritten(cfg: Config, w: World, s: Os, url0: string): (r: (Os, bool))
  {
    var url := StripSlash(url0);
    var dirPath := Join(cfg.customNodes, GitDirName(url));
    if UnsafeTargetAsWritten(dirPath) then (s, false)
    else UninstallDir(cfg, w, s, dirPath)
  }

  /** One URL of `gitclone_uninstall`, with the corrected safety check. */
  function GitcloneUninstallStep(cfg: Config, w: World, s: Os, url0: string): (r: (Os, bool))
  {
    var url := StripSlash(url0);
    var dirName := GitDirName(url);
    var dirPath := Join(cfg.customNodes, dirName);
    if UnsafeTarget(dirName, dirPath) then (s, false)
    else UninstallDir(cfg, w, s, dirPath)
  }

  // ---------------------------------------------------------------- batches

  function Step(cfg: Config, w: World, s: Os, t: Transport, url: string): (Os, bool) {
    match t
    case CopyIn(jsName) => CopyInstallStep(cfg, w, s, jsName, url)
    case CopyOut(jsName) => CopyUninstallStep(cfg, s, jsName, url)
    case UnzipIn => UnzipInstallStep(cfg, w, s, url)
    case GitIn => GitcloneInstallStep(cfg, w, s, url)
    case GitOut => GitcloneUninstallStep(cfg, w, s, url)
  }

  /** The `for url in files` loop shared by the five operations. */
  function Batch(cfg: Config, w: World, s: Os, t: Transport, files: seq<string>): (r: (Os, bool))
    decreases |files|
  {
    if files == [] then (s, true)
    else
      var (s1, ok) := Step(cfg, w, s, t, files[0]);
      if !ok then (s1, false) else Batch(cfg, w, s1, t, files[1..])
  }

  // ---------------------------------------------------------------- batch properties

  lemma StepGitIn(cfg: Config, w: World, s: Os, t: Transport, url: string)
    requires t.GitIn?
    ensures Step(cfg, w, s, t, url) == GitcloneInstallStep(cfg, w, s, url)
  {
  }

  lemma StepGitOut(cfg: Config, w: World, s: Os, t: Transport, url: string)
    requires t.GitOut?
    ensures Step(cfg, w, s, t, url) == GitcloneUninstallStep(cfg, w, s, url)
  {
  }

  /** One turn of the loop: the batch from URL `i` on is the step for URL `i`
      followed, if it succeeded, by the batch from URL `i + 1` on. */
  lemma BatchCons(cfg: Config, w: World, s: Os, t: Transport, files: seq<string>, i: nat)
    requires i < |files|
    ensures var r := Step(cfg, w, s, t, files[i]);
      Batch(cfg, w, s, t, files[i..]) == if r.1 then Batch(cfg, w, r.0, t, files[i + 1..]) else (r.0, false)
  {
    assert files[i..][0] == files[i];
    assert files[i..][1..] == files[i + 1..];
  }

  /** A batch over `a + b` is the batch over `a` followed, if it succeeded, by
      the batch over `b`; a failure in `a` means no URL of `b` is touched. */
  lemma {:induction false} BatchAppend(cfg: Config, w: World, s: Os, t: Transport, a: seq<string>, b: seq<string>)
    ensures Batch(cfg, w, s, t, a + b)
         == (var (s1, ok) := Batch(cfg, w, s, t, a); if ok then Batch(cfg, w, s1, t, b) else (s1, false))
    decreases |a|
  {
    if a == [] {
      assert a + b == b;
    } else {
      assert (a + b)[0] == a[0];
      assert (a + b)[1..] == a[1..] + b;
      var (s1, ok) := Step(cfg, w, s, t, a[0]);
      if ok {
        BatchAppend(cfg, w, s1, t, a[1..], b);
      }
    }
  }

  /** The batch over `files` is the batch over its first `i` URLs followed,
      if it succeeded, by the batch over the rest. */
  lemma BatchSplit(cfg: Config, w: World, s: Os, t: Transport, files: seq<string>, i: nat)
    requires i <= |files|
    ensures Batch(cfg, w, s, t, files)
         == (var (s1, ok) := Batch(cfg, w, s, t, files[..i]); if ok then Batch(cfg, w, s1, t, files[i..]) else (s1, false))
  {
    assert files == files[..i] + files[i..];
    BatchAppend(cfg, w, s, t, files[..i], files[i..]);
  }

  /** The archives of `files` extracted under `root` one over the other in
      order; `None` when one cannot be fetched and opened, or clashes with
      the disk as the archives before it left it. */
  function ExtractAll(w: World, root: Key, fs: Fs, files: seq<string>): Option<Fs>
    decreases |files|
  {
    if files == [] then Some(fs)
    else match w.unzip(StripSlash(files[0]))
      case None => None
      case Some(entries) =>
        if ExtractClash(fs, root, entries) then None
        else ExtractAll(w, root, fs + Under(root, entries), files[1..])
  }

  /** `unzip_install` succeeds exactly when every archive can be fetched,
      opened and extracted without a clash, and then the filesystem is the old
      one with every archive extracted into the custom nodes directory, later
      archives overwriting earlier ones; it never succeeds past an archive
      that cannot be fetched. */
  lemma {:induction false} UnzipBatchAllOrNothingReported(cfg: Config, w: World, s: Os, files: seq<string>)
    ensures var r := Batch(cfg, w, s, UnzipIn, files);
      (r.1 <==> ExtractAll(w, Resolve(cfg.customNodes), s.fs, files).Some?)
      && (r.1 ==> r.0.fs == ExtractAll(w, Resolve(cfg.customNodes), s.fs, files).value)
      && (r.1 ==> forall i :: 0 <= i < |files| ==> w.unzip(StripSlash(files[i])).Some?)
      && r.0.spawned == s.spawned && r.0.attempts == s.attempts
    decreases |files|
  {
    if files != [] {
      var (s1, ok) := UnzipInstallStep(cfg, w, s, files[0]);
      if ok {
        UnzipBatchAllOrNothingReported(cfg, w, s1, files[1..]);
        var r := Batch(cfg, w, s1, UnzipIn, files[1..]);
        if r.1 {
          forall i | 0 <= i < |files| ensures w.unzip(StripSlash(files[i])).Some? {
            if i > 0 {
              assert files[i] == files[1..][i - 1];
            }
          }
        }
      }
    }
  }

  /** Whatever `unzip_install` returns, it removes nothing, and everything it
      creates or overwrites lies in the custom nodes directory. */
  lemma {:induction false} UnzipBatchConfined(cfg: Config, w: World, s: Os, files: seq<string>)
    ensures var r := Batch(cfg, w, s, UnzipIn, files);
      (forall k :: k in s.fs ==> k in r.0.fs)
      && forall k :: k in r.0.fs && !(k in s.fs && r.0.fs[k] == s.fs[k]) ==> Resolve(cfg.customNodes) <= k
    decreases |files|
  {
    if files != [] {
      var (s1, ok) := UnzipInstallStep(cfg, w, s, files[0]);
      if ok {
        UnzipBatchConfined(cfg, w, s1, files[1..]);
      }
    }
  }

  /** `copy_install` succeeds only when every download does, and exactly
      then when no target is blocked (see `CopyTargetsClear`). */
  lemma {:induction false} CopyBatchSucceedsIffAllDownloads(cfg: Config, w: World, s: Os, jsDir: Option<string>, files: seq<string>)
    ensures Batch(cfg, w, s, CopyIn(jsDir), files).1 ==> AllDownloads(w, files)
    ensures CopyTargetsClear(cfg, s, jsDir, files) ==> (Batch(cfg, w, s, CopyIn(jsDir), files).1 <==> AllDownloads(w, files))
    decreases |files|
  {
    if files != [] {
      var (s1, ok) := CopyInstallStep(cfg, w, s, jsDir, files[0]);
      assert Step(cfg, w, s, CopyIn(jsDir), files[0]) == (s1, ok);
      if ok {
        CopyBatchSucceedsIffAllDownloads(cfg, w, s1, jsDir, files[1..]);
        if CopyTargetsClear(cfg, s, jsDir, files) {
          CopyClearTail(cfg, w, s, jsDir, files);
        }
      }
      AllDownloadsCons(w, files);
    }
  }

  /** No URL of the batch has a blocked target, and no target is one of the
      two directories `copy_install` writes into. */
  predicate CopyTargetsClear(cfg: Config, s: Os, jsDir: Option<string>, files: seq<string>) {
    forall i :: 0 <= i < |files| ==> CopyTargetClear(cfg, s, jsDir, StripSlash(files[i]))
  }

  predicate CopyTargetClear(cfg: Config, s: Os, jsDir: Option<string>, url: string) {
    var t := DownloadTarget(url, CopyDir(cfg, jsDir, url));
    !DownloadBlocked(s, url, CopyDir(cfg, jsDir, url))
    && t != Resolve(cfg.customNodes) && t != Resolve(JsTarget(cfg, jsDir))
  }

  lemma CopyClearTail(cfg: Config, w: World, s: Os, jsDir: Option<string>, files: seq<string>)
    requires files != [] && CopyTargetsClear(cfg, s, jsDir, files)
    requires CopyInstallStep(cfg, w, s, jsDir, files[0]).1
    ensures CopyTargetsClear(cfg, CopyInstallStep(cfg, w, s, jsDir, files[0]).0, jsDir, files[1..])
  {
    forall i | 0 <= i < |files[1..]|
      ensures CopyTargetClear(cfg, CopyInstallStep(cfg, w, s, jsDir, files[0]).0, jsDir, StripSlash(files[1..][i]))
    {
      assert files[1..][i] == files[i + 1];
      CopyClearAfterStep(cfg, w, s, jsDir, files[0], StripSlash(files[i + 1]));
    }
  }

  /** A successful step keeps every other clear target clear. */
  lemma CopyClearAfterStep(cfg: Config, w: World, s: Os, jsDir: Option<string>, u0: string, u: string)
    requires CopyTargetClear(cfg, s, jsDir, StripSlash(u0)) && CopyTargetClear(cfg, s, jsDir, u)
    requires CopyInstallStep(cfg, w, s, jsDir, u0).1
    ensures CopyTargetClear(cfg, CopyInstallStep(cfg, w, s, jsDir, u0).0, jsDir, u)
  {
    var url0 := StripSlash(u0);
    var d0 := CopyDir(cfg, jsDir, url0);
    var d := CopyDir(cfg, jsDir, u);
    assert Resolve(d0) == Resolve(cfg.customNodes) || Resolve(d0) == Resolve(JsTarget(cfg, jsDir));
    assert Resolve(d) == Resolve(cfg.customNodes) || Resolve(d) == Resolve(JsTarget(cfg, jsDir));
    DownloadKeepsClear(w, s, url0, d0, u, d);
  }

  /** Every URL of the batch can be downloaded. */
  predicate AllDownloads(w: World, files: seq<string>) {
    forall i :: 0 <= i < |files| ==> w.download(StripSlash(files[i])).Some?
  }

  lemma AllDownloadsCons(w: World, files: seq<string>)
    requires files != []
    ensures AllDownloads(w, files) <==> w.download(StripSlash(files[0])).Some? && AllDownloads(w, files[1..])
  {
    if w.download(StripSlash(files[0])).Some? && AllDownloads(w, files[1..]) {
      forall i | 0 <= i < |files| ensures w.download(StripSlash(files[i])).Some? {
        if i > 0 {
          assert files[i] == files[1..][i - 1];
        }
      }
    }
  }

  /** `copy_install` spawns no process and deletes nothing. */
  lemma {:induction false} CopyBatchSpawnsNothing(cfg: Config, w: World, s: Os, jsDir: Option<string>, files: seq<string>)
    ensures Batch(cfg, w, s, CopyIn(jsDir), files).0.spawned == s.spawned
    ensures Batch(cfg, w, s, CopyIn(jsDir), files).0.attempts == s.attempts
    decreases |files|
  {
    if files != [] {
      var (s1, ok) := CopyInstallStep(cfg, w, s, jsDir, files[0]);
      assert Step(cfg, w, s, CopyIn(jsDir), files[0]) == (s1, ok);
      if ok {
        CopyBatchSpawnsNothing(cfg, w, s1, jsDir, files[1..]);
      }
    }
  }

  /** A URL the safety check refuses changes nothing and fails, under the
      check as written and under the corrected one. */
  lemma UnsafeTargetRefused(cfg: Config, w: World, s: Os, url0: string)
    ensures var dirName := GitDirName(StripSlash(url0)); var dirPath := Join(cfg.customNodes, dirName);
      (UnsafeTargetAsWritten(dirPath) ==> GitcloneUninstallStepAsWritten(cfg, w, s, url0) == (s, false))
      && (UnsafeTarget(dirName, dirPath) ==> GitcloneUninstallStep(cfg, w, s, url0) == (s, false))
  {
  }

  /** `gitclone_uninstall` stops at the first refused URL: nothing of it or
      of any later URL is deleted, and the batch reports failure. */
  lemma GitBatchStopsAtRefused(cfg: Config, w: World, s: Os, t: Transport, files: seq<string>, i: nat)
    requires t.GitOut? && i < |files|
    requires var dirName := GitDirName(StripSlash(files[i])); UnsafeTarget(dirName, Join(cfg.customNodes, dirName))
    ensures var (s1, ok) := Batch(cfg, w, s, t, files[..i]);
      Batch(cfg, w, s, t, files) == (s1, false)
  {
    var (s1, ok) := Batch(cfg, w, s, t, files[..i]);
    BatchSplit(cfg, w, s, t, files, i);
    if ok {
      BatchCons(cfg, w, s1, t, files, i);
      StepGitOut(cfg, w, s1, t, files[i]);
      UnsafeTargetRefused(cfg, w, s1, files[i]);
    }
  }

  /** `gitclone_install` checks each URL before anything else: an invalid
      first URL ends the batch with nothing cloned. */
  lemma GitBatchRejectsInvalidFirst(cfg: Config, w: World, s: Os, t: Transport, files: seq<string>)
    requires t.GitIn? && files != [] && !IsValidUrl(files[0])
    ensures Batch(cfg, w, s, t, files) == (s, false)
  {
    StepGitIn(cfg, w, s, t, files[0]);
  }

  /** Installing an already installed repository fails: `git clone` finds
      its directory holding the first clone's `.git`, exits non-zero, and no
      install script runs, so `gitclone_install([u, u])` returns `False`. */
  lemma GitReinstallRefused(cfg: Config, w: World, s: Os, u: string)
    requires !StartsWith(cfg.python, "#")
    requires GitcloneInstallStep(cfg, w, s, u).1
    requires [".git"] in w.cloned(CloneUrl(StripSlash(u)))
    ensures var s1 := GitcloneInstallStep(cfg, w, s, u).0;
      GitcloneInstallStep(cfg, w, s1, u)
        == (s1.(spawned := s1.spawned + [Invocation(["git", "clone", CloneUrl(StripSlash(u))], cfg.customNodes)]), false)
    ensures !Batch(cfg, w, s, GitIn, [u, u]).1
  {
    var url := StripSlash(u);
    var repoPath := Join(cfg.customNodes, RepoName(url));
    var sc := Clone(w, s, CloneUrl(url), cfg.customNodes).0;
    ExecuteInstallRunsEachRequirement(cfg, w, sc, repoPath);
    CloneAgainRefused(w, s, CloneUrl(url), cfg.customNodes);
    var s1 := GitcloneInstallStep(cfg, w, s, u).0;
    assert s1.fs == sc.fs;
    assert CloneBlocked(s1, CloneUrl(url), cfg.customNodes);
    StepGitIn(cfg, w, s, GitIn, u);
    StepGitIn(cfg, w, s1, GitIn, u);
    assert [u, u][1..] == [u];
  }

  // ---------------------------------------------------------------- copy properties

  /** Where `copy_install` puts a file: a `.py` file directly in the custom
      nodes directory, anything else in the script directory (created first
      when missing), under the name the URL ends with, holding the
      download's content; nothing else on disk changes. */
  lemma CopyInstallPlacement(cfg: Config, w: World, s: Os, jsDir: Option<string>, url0: string)
    requires var n := Basename(StripSlash(url0)); n != "" && n != "."
    requires !DownloadBlocked(s, StripSlash(url0), CopyDir(cfg, jsDir, StripSlash(url0)))
    requires w.download(StripSlash(url0)).Some?
    ensures var url := StripSlash(url0);
      var dir := CopyDir(cfg, jsDir, url);
      var before := if Resolve(dir) in s.fs then s.fs else s.fs[Resolve(dir) := Dir];
      var r := CopyInstallStep(cfg, w, s, jsDir, url0);
      r.1 && r.0.fs == before[Resolve(dir) + [Basename(url)] := File(w.download(url).value)]
  {
    var url := StripSlash(url0);
    ResolveChild(CopyDir(cfg, jsDir, url), Basename(url));
  }

  /** `copy_install` refuses a URL whose file name is taken by a directory,
      or whose directory is a file: the step fails and nothing but the
      directory is created. */
  lemma CopyInstallRefusesDirectory(cfg: Config, w: World, s: Os, jsDir: Option<string>, url0: string)
    requires var n := Basename(StripSlash(url0)); n != "" && n != "."
    ensures var url := StripSlash(url0);
      var dir := CopyDir(cfg, jsDir, url);
      var key := Resolve(dir) + [Basename(url)];
      (key in s.fs && s.fs[key].Dir?) || (Resolve(dir) in s.fs && s.fs[Resolve(dir)].File?) ==>
        CopyInstallStep(cfg, w, s, jsDir, url0) == (MakeDirs(s, dir), false)
  {
    var url := StripSlash(url0);
    ResolveChild(CopyDir(cfg, jsDir, url), Basename(url));
  }

  /** The request handlers' defaults: `copy_install` without a script
      directory and `copy_uninstall` with `"."` name the same file. */
  lemma CopyTargetsAgree(cfg: Config, url: string)
    requires var n := Basename(url); n != "" && n != "."
    ensures var dir := if EndsWith(url, ".py") then cfg.customNodes else JsTarget(cfg, None);
      Resolve(CopyTarget(cfg, ".", url)) == Resolve(dir) + [Basename(url)]
  {
    if EndsWith(url, ".py") {
      ResolveChild(cfg.customNodes, Basename(url));
    } else {
      ResolveChild(Join(cfg.jsPath, "."), Basename(url));
      ResolveJoinDot(cfg.jsPath);
    }
  }

  /** Round trip: installing a file by copy and then uninstalling the same URL
      removes exactly the installed file and leaves everything else as the
      installation left it. */
  lemma CopyRoundTrip(cfg: Config, w: World, s: Os, url0: string)
    requires var n := Basename(StripSlash(url0)); n != "" && n != "."
    requires !DownloadBlocked(s, StripSlash(url0), CopyDir(cfg, None, StripSlash(url0)))
    requires w.download(StripSlash(url0)).Some?
    ensures var url := StripSlash(url0);
      var key := Resolve(CopyTarget(cfg, ".", url));
      var (s1, installed) := CopyInstallStep(cfg, w, s, None, url0);
      var (s2, removed) := CopyUninstallStep(cfg, s1, ".", url0);
      installed && key in s1.fs && removed && s2.fs == s1.fs - {key}
  {
    var url := StripSlash(url0);
    CopyInstallPlacement(cfg, w, s, None, url0);
    CopyTargetsAgree(cfg, url);
  }

  /** Uninstalling a file that is present under neither name changes nothing
      and is not an error. */
  lemma CopyUninstallAbsent(cfg: Config, s: Os, jsName: string, url0: string)
    requires var fp := CopyTarget(cfg, jsName, StripSlash(url0)); !Exists(s, fp) && !Exists(s, fp + Disabled)
    ensures CopyUninstallStep(cfg, s, jsName, url0) == (s, true)
  {
  }

  /** A disabled file is removed under its `.disabled` name; a directory in
      place of the file makes the step fail with nothing removed. */
  lemma CopyUninstallCases(cfg: Config, s: Os, jsName: string, url0: string)
    ensures var fp := CopyTarget(cfg, jsName, StripSlash(url0));
      var r := CopyUninstallStep(cfg, s, jsName, url0);
      (!Exists(s, fp) && Exists(s, fp + Disabled) && s.fs[Resolve(fp + Disabled)].File? ==>
        r == (s.(fs := s.fs - {Resolve(fp + Disabled)}), true))
      && (Exists(s, fp) && s.fs[Resolve(fp)].Dir? ==> r == (s, false))
      && (Exists(s, fp) && s.fs[Resolve(fp)].File? ==> r == (s.(fs := s.fs - {Resolve(fp)}), true))
  {
  }

  // ---------------------------------------------------------------- git properties

  /** A name without dots, with or without `.git`, keeps just the name
      under `splitext`. */
  lemma SplitExtOfName(name: string, ext: string)
    requires name != "" && '/' !in name && '.' !in name
    requires ext == "" || ext == ".git"
    ensures SplitExt(name + ext).0 == name
  {
    if ext == "" {
      assert name + ext == name;
      SplitExtOfPlainName(name);
    } else {
      SplitExtOfGitName(name);
    }
  }

  lemma SplitExtOfPlainName(name: string)
    requires '/' !in name && '.' !in name
    ensures SplitExt(name).0 == name
  {
    assert LastIndexOf(name, '.') == -1;
  }

  lemma SplitExtOfGitName(name: string)
    requires name != "" && '/' !in name && '.' !in name
    ensures SplitExt(name + ".git").0 == name
  {
    var b := name + ".git";
    assert '/' !in b;
    var sep := LastIndexOf(b, '/');
    assert sep == -1;
    assert b[|name|] == '.';
    forall j | |name| < j < |b| ensures b[j] != '.' {
      assert b[j] == ".git"[j - |name|];
    }
    var dot := LastIndexOf(b, '.');
    assert dot == |name|;
    assert b[..dot] == name;
    assert b[sep + 1..dot][0] == name[0];
  }

  /** A name without dots has no `.git` to remove. */
  lemma NoDotNoGitSuffix(name: string)
    requires '.' !in name
    ensures RemoveAll(name, ".git") == name
  {
    ContainsIffOccurs(name, ".git");
    forall i | 0 <= i && i + 4 <= |name| ensures !OccursAt(name, ".git", i) {
      assert name[i..i + 4][0] == name[i] != '.';
    }
    RemoveAllAbsent(name, ".git");
  }

  /** Dropping the one trailing slash of a repository URL. */
  lemma StripRepoUrl(u: string, slash: string)
    requires u != "" && u[|u| - 1] != '/'
    requires slash == "" || slash == "/"
    ensures StripSlash(u + slash) == u
  {
    if slash == "/" {
      assert EndsWith(u + slash, "/");
      assert (u + slash)[..|u|] == u;
    } else {
      assert u + slash == u;
    }
  }

  /** For the usual repository URLs `.../name`, `.../name.git` and either with
      a trailing slash, install clones `.../name.git` into `name`, and
      uninstall deletes that same `name`. */
  lemma GitNamesAgree(prefix: string, name: string, ext: string, slash: string)
    requires name != "" && '/' !in name && '.' !in name
    requires ext == "" || ext == ".git"
    requires slash == "" || slash == "/"
    ensures var url := StripSlash(prefix + "/" + name + ext + slash);
      RepoName(url) == name && GitDirName(url) == name && CloneUrl(url) == prefix + "/" + name + ".git"
  {
    var u := prefix + "/" + (name + ext);
    assert prefix + "/" + name + ext == u;
    assert u[|u| - 1] == (name + ext)[|name + ext| - 1];
    StripRepoUrl(u, slash);
    RepoNameOf(prefix, name, ext);
    NoDotNoGitSuffix(name);
    if ext == "" {
      CloneUrlAddsGit(prefix, name);
    } else {
      assert EndsWith(u, ".git");
    }
  }

  lemma RepoNameOf(prefix: string, name: string, ext: string)
    requires name != "" && '/' !in name && '.' !in name
    requires ext == "" || ext == ".git"
    ensures RepoName(prefix + "/" + (name + ext)) == name
  {
    assert '/' !in name + ext;
    BasenameOf(prefix, name + ext);
    SplitExtOfName(name, ext);
  }

  lemma CloneUrlAddsGit(prefix: string, name: string)
    requires name != "" && '.' !in name
    ensures CloneUrl(prefix + "/" + (name + "")) == prefix + "/" + name + ".git"
  {
    var u := prefix + "/" + (name + "");
    assert u == prefix + "/" + name;
    assert !EndsWith(u, ".git") by {
      if |u| >= 4 {
        if |name| >= 4 {
          assert u[|u| - 4..][0] == name[|name| - 4] != '.';
        } else {
          assert u[|u| - 4..][3 - |name|] == '/';
        }
      }
    }
  }


  /** The name a URL yields once `.git` is removed contains no separator. */
  lemma GitDirNameNoSlash(url: string)
    ensures '/' !in GitDirName(url)
  {
    SplitExtRootNoSlash(Basename(url));
    RemoveAllKeepsAbsent(RepoName(url), ".git", '/');
  }

  /** A URL whose last component is `.git` yields an empty directory name. */
  lemma DotGitNameIsEmpty(prefix: string)
    ensures GitDirName(StripSlash(prefix + "/.git")) == ""
  {
    var g := ".git";
    var url0 := prefix + "/.git";
    assert url0[|url0| - 1] == 't';
    assert StripSlash(url0) == prefix + "/" + g;
    BasenameOf(prefix, g);
    DotGitKeepsItsName(g);
    assert g[..4] == g && g[4..] == "";
  }

  /** `splitext(".git")` has no extension: a leading dot does not start one. */
  lemma DotGitKeepsItsName(g: string)
    requires g == ".git"
    ensures SplitExt(g).0 == g
  {
    assert g[0] == '.' && g[1] == 'g' && g[2] == 'i' && g[3] == 't';
    assert LastIndexOf(g, '/') == -1;
    assert LastIndexOf(g, '.') == 0;
    assert AllDots(g[0..0]);
  }

  /** Finding, as written: for a URL whose last component is `.git` the
      source's check lets the custom nodes directory itself through, and a
      successful step deletes it together with every plugin in it. */
  lemma AsWrittenGuardDeletesAllPlugins(cfg: Config, w: World, s: Os, prefix: string)
    requires |cfg.customNodes| >= 4
    requires Exists(s, cfg.customNodes)
    ensures var dirPath := Join(cfg.customNodes, GitDirName(StripSlash(prefix + "/.git")));
      !UnsafeTargetAsWritten(dirPath) && Resolve(dirPath) == Resolve(cfg.customNodes)
    ensures var r := GitcloneUninstallStepAsWritten(cfg, w, s, prefix + "/.git");
      r.1 ==> r.0.fs == RemoveTree(s.fs, Resolve(cfg.customNodes))
  {
    DotGitNameIsEmpty(prefix);
    var dirPath := Join(cfg.customNodes, "");
    ResolveJoinEmpty(cfg.customNodes);
    assert |dirPath| >= 4;
    assert |dirPath[1..]| >= 3;
    var hook := UninstallHook(s, dirPath);
    var s1 := if hook.Some? then RunScriptSpec(w, s, [cfg.python, hook.value], dirPath).0 else s;
    assert s1.fs == s.fs;
    RmtreeLoopAttempts(cfg, w, s1, dirPath, 3);
  }

  /** After the check, the step either leaves the disk alone or deletes
      exactly the tree of the named directory or of its `.disabled` twin. */
  lemma UninstallDirEffect(cfg: Config, w: World, s: Os, dirPath: Path)
    ensures var r := UninstallDir(cfg, w, s, dirPath);
      r.0.fs == s.fs
      || (r.1 && r.0.fs == RemoveTree(s.fs, Resolve(dirPath)))
      || (r.1 && r.0.fs == RemoveTree(s.fs, Resolve(dirPath + Disabled)))
  {
    var hook := UninstallHook(s, dirPath);
    var s1 := if hook.Some? then RunScriptSpec(w, s, [cfg.python, hook.value], dirPath).0 else s;
    assert s1.fs == s.fs;
    if Exists(s1, dirPath) {
      RmtreeFsEffect(cfg, w, s1, dirPath);
    } else if Exists(s1, dirPath + Disabled) {
      RmtreeFsEffect(cfg, w, s1, dirPath + Disabled);
    }
  }

  /** `rmtree` either leaves the disk alone or removes the whole tree. */
  lemma RmtreeFsEffect(cfg: Config, w: World, s: Os, p: Path)
    ensures var r := RmtreeSpec(cfg, w, s, p);
      r.0.fs == s.fs || (r.1 && r.0.fs == RemoveTree(s.fs, Resolve(p)))
  {
    RmtreeLoopAttempts(cfg, w, s, p, 3);
  }

  /** A name that passes the corrected check names a child of the custom
      nodes directory, and so does its `.disabled` twin. */
  lemma CheckedTargetIsChild(dir: Path, name: string)
    requires '/' !in name && name != "" && name != "."
    ensures Resolve(Join(dir, name)) == Resolve(dir) + [name]
    ensures Resolve(Join(dir, name) + Disabled) == Resolve(dir) + [name + Disabled]
  {
    ResolveChild(dir, name);
    assert '/' !in name + Disabled;
    assert (name + Disabled)[0] == name[0];
    ResolveChild(dir, name + Disabled);
    JoinAppend(dir, name, Disabled);
  }

  /** Corrected: whatever the URL, a step either deletes nothing or deletes
      the one plugin directory it names (or its `.disabled` twin), one level
      below the custom nodes directory, which itself is never deleted. */
  lemma GuardConfinesDeletion(cfg: Config, w: World, s: Os, url0: string)
    ensures var dirName := GitDirName(StripSlash(url0));
      var root := Resolve(cfg.customNodes);
      var r := GitcloneUninstallStep(cfg, w, s, url0);
      (r.0.fs == s.fs
       || r.0.fs == RemoveTree(s.fs, root + [dirName])
       || r.0.fs == RemoveTree(s.fs, root + [dirName + Disabled]))
      && (root in s.fs ==> root in r.0.fs)
  {
    var url := StripSlash(url0);
    var dirName := GitDirName(url);
    var dirPath := Join(cfg.customNodes, dirName);
    var root := Resolve(cfg.customNodes);
    if !UnsafeTarget(dirName, dirPath) {
      GitDirNameNoSlash(url);
      CheckedTargetIsChild(cfg.customNodes, dirName);
      UninstallDirEffect(cfg, w, s, dirPath);
      assert |root + [dirName]| > |root| && |root + [dirName + Disabled]| > |root|;
    }
  }

  // ---------------------------------------------------------------- the operations

  method CopyInstall(h: Host, files: seq<string>, jsName: Option<string>) returns (ok: bool)
    modifies h
    ensures (h.State(), ok) == Batch(h.cfg, h.world, old(h.State()), CopyIn(jsName), files)
  {
    for i := 0 to |files|
      invariant Batch(h.cfg, h.world, old(h.State()), CopyIn(jsName), files)
             == Batch(h.cfg, h.world, h.State(), CopyIn(jsName), files[i..])
    {
      assert files[i..][1..] == files[i + 1..];
      var url := StripSlash(files[i]);
      var fetched;
      if EndsWith(url, ".py") {
        fetched := h.Fetch(url, h.cfg.customNodes);
      } else {
        var path := JsTarget(h.cfg, jsName);
        if Resolve(path) !in h.fs {
          h.MakeDir(path);
        }
        fetched := h.Fetch(url, path);
      }
      if !fetched {
        return false;
      }
    }
    return true;
  }

  method CopyUninstall(h: Host, files: seq<string>, jsName: string) returns (ok: bool)
    modifies h
    ensures (h.State(), ok) == Batch(h.cfg, h.world, old(h.State()), CopyOut(jsName), files)
  {
    for i := 0 to |files|
      invariant Batch(h.cfg, h.world, old(h.State()), CopyOut(jsName), files)
             == Batch(h.cfg, h.world, h.State(), CopyOut(jsName), files[i..])
    {
      assert files[i..][1..] == files[i + 1..];
      var filePath := CopyTarget(h.cfg, jsName, StripSlash(files[i]));
      var removed := true;
      if Resolve(filePath) in h.fs {
        removed := h.Remove(filePath);
      } else if Resolve(filePath + Disabled) in h.fs {
        removed := h.Remove(filePath + Disabled);
      }
      if !removed {
        return false;
      }
    }
    return true;
  }

  method UnzipInstall(h: Host, files: seq<string>) returns (ok: bool)
    modifies h
    ensures (h.State(), ok) == Batch(h.cfg, h.world, old(h.State()), UnzipIn, files)
  {
    for i := 0 to |files|
      invariant Batch(h.cfg, h.world, old(h.State()), UnzipIn, files)
             == Batch(h.cfg, h.world, h.State(), UnzipIn, files[i..])
    {
      assert files[i..][1..] == files[i + 1..];
      var extracted := h.Unzip(StripSlash(files[i]), h.cfg.customNodes);
      if !extracted {
        return false;
      }
    }
    return true;
  }

  method GitcloneInstall(h: Host, files: seq<string>) returns (ok: bool)
    modifies h
    ensures h.State() == Batch(h.cfg, h.world, old(h.State()), GitIn, files).0
    ensures ok == Batch(h.cfg, h.world, old(h.State()), GitIn, files).1
  {
    for i := 0 to |files|
      invariant Batch(h.cfg, h.world, old(h.State()), GitIn, files).0
             == Batch(h.cfg, h.world, h.State(), GitIn, files[i..]).0
      invariant Batch(h.cfg, h.world, old(h.State()), GitIn, files).1
             == Batch(h.cfg, h.world, h.State(), GitIn, files[i..]).1
    {
      ghost var before := h.State();
      BatchCons(h.cfg, h.world, before, GitIn, files, i);
      StepGitIn(h.cfg, h.world, before, GitIn, files[i]);
      var installed := GitcloneInstallOne(h, files[i]);
      if !installed {
        return false;
      }
    }
    return true;
  }

  /** One URL of `gitclone_install`. */
  method GitcloneInstallOne(h: Host, url0: string) returns (ok: bool)
    modifies h
    ensures h.State() == GitcloneInstallStep(h.cfg, h.world, old(h.State()), url0).0
    ensures ok == GitcloneInstallStep(h.cfg, h.world, old(h.State()), url0).1
  {
    if !IsValidUrl(url0) {
      return false;
    }
    var url := StripSlash(url0);
    var repoPath := Join(h.cfg.customNodes, RepoName(url));
    var cloned := h.GitClone(CloneUrl(url), h.cfg.customNodes);
    if !cloned {
      return false;
    }
    ok := ExecuteInstallScript(h, repoPath, false);
  }

  /** The body of `gitclone_uninstall`'s loop after the safety check. */
  method UninstallDirectory(h: Host, dirPath: Path) returns (ok: bool)
    modifies h
    ensures h.State() == UninstallDir(h.cfg, h.world, old(h.State()), dirPath).0
    ensures ok == UninstallDir(h.cfg, h.world, old(h.State()), dirPath).1
  {
    if Resolve(Join(dirPath, "uninstall.py")) in h.fs {
      var _ := RunScript(h, [h.cfg.python, "uninstall.py"], dirPath);
    } else if Resolve(Join(dirPath, "disable.py")) in h.fs {
      var _ := RunScript(h, [h.cfg.python, "disable.py"], dirPath);
    }
    ok := true;
    if Resolve(dirPath) in h.fs {
      ok := Rmtree(h, dirPath);
    } else if Resolve(dirPath + Disabled) in h.fs {
      ok := Rmtree(h, dirPath + Disabled);
    }
  }

  /** One URL of `gitclone_uninstall`. */
  method GitcloneUninstallOne(h: Host, url0: string) returns (ok: bool)
    modifies h
    ensures h.State() == GitcloneUninstallStep(h.cfg, h.world, old(h.State()), url0).0
    ensures ok == GitcloneUninstallStep(h.cfg, h.world, old(h.State()), url0).1
  {
    var url := StripSlash(url0);
    var dirName := GitDirName(url);
    var dirPath := Join(h.cfg.customNodes, dirName);
    if UnsafeTarget(dirName, dirPath) {
      return false;
    }
    ok := UninstallDirectory(h, dirPath);
  }

  method GitcloneUninstall(h: Host, files: seq<string>) returns (ok: bool)
    modifies h
    ensures h.State() == Batch(h.cfg, h.world, old(h.State()), GitOut, files).0
    ensures ok == Batch(h.cfg, h.world, old(h.State()), GitOut, files).1
  {
    for i := 0 to |files|
      invariant Batch(h.cfg, h.world, old(h.State()), GitOut, files).0
             == Batch(h.cfg, h.world, h.State(), GitOut, files[i..]).0
      invariant Batch(h.cfg, h.world, old(h.State()), GitOut, files).1
             == Batch(h.cfg, h.world, h.State(), GitOut, files[i..]).1
    {
      ghost var before := h.State();
      BatchCons(h.cfg, h.world, before, GitOut, files, i);
      var deleted := GitcloneUninstallOne(h, files[i]);
      StepGitOut(h.cfg, h.world, before, GitOut, files[i]);
      if !deleted {
        return false;
      }
    }
    return true;
  }
}
