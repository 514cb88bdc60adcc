/** Running external commands and the post-fetch installer of
    `_external_functions.py`: `handle_stream`, `run_script`,
    `try_install_script`, `execute_install_script` and `rmtree`. */
module Scripts {
  import opened Strings
  import opened Paths
  import opened Platform

  // ---------------------------------------------------------------- handle_stream

  datatype Stream = Stdout | Stderr

  /** What `handle_stream` prints for one line, and where. */
  datatype Echo = Echo(stream: Stream, text: string)

  const StderrPrefix := "[!]"

  /** A tqdm-style progress update: an iteration rate and a bar or counter. */
  predicate IsProgressLine(msg: string) {
    (Contains(msg, "it/s]") || Contains(msg, "s/it]")) && (Contains(msg, "%|") || Contains(msg, "it ["))
  }

  /** The decision `handle_stream` makes for one line `msg` of the stream
      whose prefix is `prefix` (`"[!]"` for stderr, `""` for stdout).
      `print(prefix, msg, end="")` separates its two arguments by a space. */
  function EchoLine(msg: string, prefix: string): (r: Echo)
    ensures r.stream == if prefix == StderrPrefix then Stderr else Stdout
    ensures prefix == StderrPrefix && IsProgressLine(msg) ==>
      StartsWith(r.text, "\r") && StartsWith(msg, r.text[1..])
      && (StartsWith(msg, "100%") <==> r.text[1..] == msg)
      && (!StartsWith(msg, "100%") ==> |r.text| == |msg|)
    ensures !(prefix == StderrPrefix && IsProgressLine(msg)) ==> r.text == prefix + " " + msg
  {
    if prefix == StderrPrefix && IsProgressLine(msg) then
      if StartsWith(msg, "100%") then Echo(Stderr, "\r" + msg)
      else Echo(Stderr, "\r" + msg[..if |msg| > 0 then |msg| - 1 else 0])
    else if prefix == StderrPrefix then Echo(Stderr, prefix + " " + msg)
    else Echo(Stdout, prefix + " " + msg)
  }

  /** An unfinished progress update loses its newline, so the next update
      overwrites it in place; the final (100%) one keeps it. */
  lemma ProgressUpdateOverwrites(body: string)
    requires '\n' !in body && IsProgressLine(body + "\n")
    ensures !StartsWith(body + "\n", "100%") ==> '\n' !in EchoLine(body + "\n", StderrPrefix).text
    ensures StartsWith(body + "\n", "100%") ==> EchoLine(body + "\n", StderrPrefix).text == "\r" + body + "\n"
  {
    var msg := body + "\n";
    if !StartsWith(msg, "100%") {
      assert msg[..|msg| - 1] == body;
      assert "\r" + body == ['\r'] + body;
    }
  }

  /** `handle_stream`: one echo per line, in order. */
  method HandleStream(lines: seq<string>, prefix: string) returns (out: seq<Echo>)
    ensures |out| == |lines|
    ensures forall i :: 0 <= i < |lines| ==> out[i] == EchoLine(lines[i], prefix)
  {
    out := [];
    for i := 0 to |lines|
      invariant |out| == i
      invariant forall j :: 0 <= j < i ==> out[j] == EchoLine(lines[j], prefix)
    {
      out := out + [EchoLine(lines[i], prefix)];
    }
  }

  // ---------------------------------------------------------------- run_script

  /** A command whose first token starts with `#` is a deferred (lazy) one. */
  predicate IsDeferred(cmd: seq<string>) {
    |cmd| > 0 && StartsWith(cmd[0], "#")
  }

  /** `run_script(cmd, cwd)`: a deferred command is not started and reads as
      success; any other is started once and its exit status returned. */
  function RunScriptSpec(w: World, s: Os, cmd: seq<string>, cwd: Path): (r: (Os, int))
    ensures r.0.fs == s.fs && r.0.attempts == s.attempts
    ensures IsDeferred(cmd) ==> r.0.spawned == s.spawned && r.1 == 0
    ensures !IsDeferred(cmd) ==> r.0.spawned == s.spawned + [Invocation(cmd, cwd)]
                                 && r.1 == w.exitCode(Invocation(cmd, cwd))
  {
    if IsDeferred(cmd) then (s, 0) else Spawn(w, s, Invocation(cmd, cwd))
  }

  method RunScript(h: Host, cmd: seq<string>, cwd: Path) returns (code: int)
    modifies h
    ensures (h.State(), code) == RunScriptSpec(h.world, old(h.State()), cmd, cwd)
  {
    if IsDeferred(cmd) {
      return 0;
    }
    code := h.Run(Invocation(cmd, cwd));
  }

  // ---------------------------------------------------------------- try_install_script

  /** What `try_install_script` returns: `True` (queued), `False` (the command
      exited non-zero), `None` (it exited with 0), or an exception. */
  datatype TryOutcome = Queued | Failed | Finished | Raised

  const QueueName := "install-scripts.txt"

  function QueueFile(cfg: Config): Path {
    Join(cfg.startupScripts, QueueName)
  }

  /** The queue file is an entry of the startup script directory. */
  lemma QueueFileIsChild(cfg: Config)
    ensures Resolve(QueueFile(cfg)) == Resolve(cfg.startupScripts) + [QueueName]
  {
    assert QueueName[0] == 'i' && forall j :: 0 <= j < |QueueName| ==> QueueName[j] != '/';
    ResolveChild(cfg.startupScripts, QueueName);
  }

  /** `f"{[repo_path] + install_cmd}\n"`: the list's repr on one line. */
  function QueueEntry(repo: Path, cmd: seq<string>): string {
    "[" + QuotedJoin([repo] + cmd) + "]\n"
  }

  function TryInstallScriptSpec(cfg: Config, w: World, s: Os, repo: Path, cmd: seq<string>): (r: (Os, TryOutcome))
    ensures IsDeferred(cmd) ==>
      r.0.spawned == s.spawned && r.0.attempts == s.attempts && (r.1 == Queued || r.1 == Raised)
    ensures IsDeferred(cmd) && r.1 == Queued ==>
      Exists(r.0, QueueFile(cfg)) && r.0.fs[Resolve(QueueFile(cfg))].File?
      && |r.0.fs[Resolve(QueueFile(cfg))].lines| > 0
      && r.0.fs[Resolve(QueueFile(cfg))].lines[|r.0.fs[Resolve(QueueFile(cfg))].lines| - 1] == QueueEntry(repo, cmd)
    ensures !IsDeferred(cmd) ==>
      r.0 == s.(spawned := s.spawned + [Invocation(cmd, repo)])
      && r.1 == (if w.exitCode(Invocation(cmd, repo)) != 0 then Failed else Finished)
  {
    if IsDeferred(cmd) then
      var s1 := if Exists(s, cfg.startupScripts) then s else MakeDirs(s, cfg.startupScripts);
      var (s2, ok) := AppendLine(s1, QueueFile(cfg), QueueEntry(repo, cmd));
      (s2, if ok then Queued else Raised)
    else
      var (s1, code) := RunScriptSpec(w, s, cmd, repo);
      (s1, if code != 0 then Failed else Finished)
  }

  /** A deferred command is appended, as exactly one new line, to the queue
      file; nothing else on disk changes except the creation of the startup
      directory when it was missing. */
  lemma DeferredAppendsOneLine(cfg: Config, w: World, s: Os, repo: Path, cmd: seq<string>)
    requires IsDeferred(cmd)
    requires !(Exists(s, cfg.startupScripts) && s.fs[Resolve(cfg.startupScripts)].File?)
    requires !(Exists(s, QueueFile(cfg)) && s.fs[Resolve(QueueFile(cfg))].Dir?)
    ensures TryInstallScriptSpec(cfg, w, s, repo, cmd).1 == Queued
    ensures TryInstallScriptSpec(cfg, w, s, repo, cmd).0.fs[Resolve(QueueFile(cfg))]
         == File((if Exists(s, QueueFile(cfg)) then s.fs[Resolve(QueueFile(cfg))].lines else []) + [QueueEntry(repo, cmd)])
    ensures forall k :: k in s.fs && k != Resolve(QueueFile(cfg)) ==>
      k in TryInstallScriptSpec(cfg, w, s, repo, cmd).0.fs && TryInstallScriptSpec(cfg, w, s, repo, cmd).0.fs[k] == s.fs[k]
  {
    var q := Resolve(QueueFile(cfg));
    QueueFileIsChild(cfg);
    assert q != Resolve(cfg.startupScripts) by {
      assert |q| == |Resolve(cfg.startupScripts)| + 1;
    }
    var s1 := if Exists(s, cfg.startupScripts) then s else MakeDirs(s, cfg.startupScripts);
    assert q in s1.fs <==> q in s.fs;
    assert q in s.fs ==> s1.fs[q] == s.fs[q];
    var r := AppendLine(s1, QueueFile(cfg), QueueEntry(repo, cmd));
    assert r.1;
    assert TryInstallScriptSpec(cfg, w, s, repo, cmd) == (r.0, Queued);
  }

  /** The queue cannot be written: the startup path is a regular file, or a
      directory sits where the queue file goes. */
  predicate QueueBlocked(cfg: Config, s: Os) {
    (Exists(s, cfg.startupScripts) && s.fs[Resolve(cfg.startupScripts)].File?)
    || (Exists(s, QueueFile(cfg)) && s.fs[Resolve(QueueFile(cfg))].Dir?)
  }

  /** A deferred command raises exactly when the queue is blocked; when the
      startup path is a regular file, nothing is created. */
  lemma DeferredRaisesWhenBlocked(cfg: Config, w: World, s: Os, repo: Path, cmd: seq<string>)
    requires IsDeferred(cmd)
    ensures TryInstallScriptSpec(cfg, w, s, repo, cmd).1 == Raised <==> QueueBlocked(cfg, s)
    ensures Exists(s, cfg.startupScripts) && s.fs[Resolve(cfg.startupScripts)].File? ==>
      TryInstallScriptSpec(cfg, w, s, repo, cmd) == (s, Raised)
  {
    var d := Resolve(cfg.startupScripts);
    var q := Resolve(QueueFile(cfg));
    QueueFileIsChild(cfg);
    assert q != d && |q| > 0 && ParentKey(q) == d by {
      assert |q| == |d| + 1;
      assert q[..|q| - 1] == d;
    }
    var s1 := if Exists(s, cfg.startupScripts) then s else MakeDirs(s, cfg.startupScripts);
    assert q in s1.fs <==> q in s.fs;
    assert q in s.fs ==> s1.fs[q] == s.fs[q];
    assert d in s1.fs && (s1.fs[d].File? <==> d in s.fs && s.fs[d].File?);
    assert AppendBlocked(s1, QueueFile(cfg)) <==> QueueBlocked(cfg, s);
  }

  method TryInstallScript(h: Host, repo: Path, cmd: seq<string>) returns (outcome: TryOutcome)
    modifies h
    ensures (h.State(), outcome) == TryInstallScriptSpec(h.cfg, h.world, old(h.State()), repo, cmd)
  {
    if IsDeferred(cmd) {
      if Resolve(h.cfg.startupScripts) !in h.fs {
        h.MakeDir(h.cfg.startupScripts);
      }
      var ok := h.Append(QueueFile(h.cfg), QueueEntry(repo, cmd));
      outcome := if ok then Queued else Raised;
    } else {
      var code := RunScript(h, cmd, repo);
      outcome := if code != 0 then Failed else Finished;
    }
  }

  // ---------------------------------------------------------------- execute_install_script

  function PipCommand(cfg: Config, package: string): seq<string> {
    [cfg.python, "-m", "pip", "install", package]
  }

  const LazyCommandHead := "#LAZY-INSTALL-SCRIPT"

  /** `line.strip()` for every line of `requirements.txt`. */
  function StripAll(lines: seq<string>): (r: seq<string>)
    ensures |r| == |lines|
    ensures forall i :: 0 <= i < |lines| ==> r[i] == Strip(lines[i])
    decreases |lines|
  {
    if lines == [] then [] else [Strip(lines[0])] + StripAll(lines[1..])
  }

  /** The loop over the stripped lines of `requirements.txt`: one install per
      non-empty name, in order. An exception ends the loop. */
  function InstallPackages(cfg: Config, w: World, s: Os, repo: Path, names: seq<string>): (r: (Os, bool))
    ensures r.0.attempts == s.attempts
    decreases |names|
  {
    if names == [] then (s, true)
    else if names[0] == "" then InstallPackages(cfg, w, s, repo, names[1..])
    else
      var (s1, outcome) := TryInstallScriptSpec(cfg, w, s, repo, PipCommand(cfg, names[0]));
      if outcome == Raised then (s1, false)
      else InstallPackages(cfg, w, s1, repo, names[1..])
  }

  /** Reference definition: the pip commands, one per non-empty name, in order. */
  function PipInvocations(cfg: Config, repo: Path, names: seq<string>): (r: seq<Invocation>)
    ensures |r| <= |names|
    decreases |names|
  {
    if names == [] then []
    else (if names[0] == "" then [] else [Invocation(PipCommand(cfg, names[0]), repo)])
         + PipInvocations(cfg, repo, names[1..])
  }

  function NonBlankCount(lines: seq<string>): nat
    decreases |lines|
  {
    if lines == [] then 0 else (if AllSpace(lines[0]) then 0 else 1) + NonBlankCount(lines[1..])
  }

  /** Exactly one pip command per non-blank line, each installing that line's
      stripped text. */
  lemma PipInvocationsPerLine(cfg: Config, repo: Path, lines: seq<string>)
    ensures |PipInvocations(cfg, repo, StripAll(lines))| == NonBlankCount(lines)
    ensures forall inv :: inv in PipInvocations(cfg, repo, StripAll(lines)) ==>
      exists l :: l in lines && Strip(l) != "" && inv == Invocation(PipCommand(cfg, Strip(l)), repo)
  {
    PipInvocationsCount(cfg, repo, lines);
    PipInvocationsFrom(cfg, repo, StripAll(lines));
    forall inv | inv in PipInvocations(cfg, repo, StripAll(lines))
      ensures exists l :: l in lines && Strip(l) != "" && inv == Invocation(PipCommand(cfg, Strip(l)), repo)
    {
      var n :| n in StripAll(lines) && n != "" && inv == Invocation(PipCommand(cfg, n), repo);
      var i :| 0 <= i < |lines| && StripAll(lines)[i] == n;
      assert lines[i] in lines;
    }
  }

  lemma {:induction false} PipInvocationsCount(cfg: Config, repo: Path, lines: seq<string>)
    ensures |PipInvocations(cfg, repo, StripAll(lines))| == NonBlankCount(lines)
    decreases |lines|
  {
    if lines != [] {
      StripEmptyIffBlank(lines[0]);
      PipInvocationsCount(cfg, repo, lines[1..]);
      assert StripAll(lines)[1..] == StripAll(lines[1..]);
    }
  }

  /** Every pip command installs one of the non-empty names. */
  lemma {:induction false} PipInvocationsFrom(cfg: Config, repo: Path, names: seq<string>)
    ensures forall inv :: inv in PipInvocations(cfg, repo, names) ==>
      exists n :: n in names && n != "" && inv == Invocation(PipCommand(cfg, n), repo)
    decreases |names|
  {
    if names != [] {
      PipInvocationsFrom(cfg, repo, names[1..]);
      forall inv | inv in PipInvocations(cfg, repo, names)
        ensures exists n :: n in names && n != "" && inv == Invocation(PipCommand(cfg, n), repo)
      {
        if inv in PipInvocations(cfg, repo, names[1..]) {
          var n :| n in names[1..] && n != "" && inv == Invocation(PipCommand(cfg, n), repo);
          assert n in names;
        } else {
          assert names[0] in names;
        }
      }
    }
  }

  /** Split files give the commands of their parts, in order. */
  lemma {:induction false} PipInvocationsAppend(cfg: Config, repo: Path, a: seq<string>, b: seq<string>)
    ensures PipInvocations(cfg, repo, a + b) == PipInvocations(cfg, repo, a) + PipInvocations(cfg, repo, b)
    decreases |a|
  {
    if a == [] {
      assert a + b == b;
    } else {
      assert (a + b)[1..] == a[1..] + b;
      PipInvocationsAppend(cfg, repo, a[1..], b);
    }
  }

  /** With a real interpreter path, installing the packages spawns exactly
      the reference pip commands and touches nothing on disk. */
  lemma {:induction false} InstallPackagesSpawnsPip(cfg: Config, w: World, s: Os, repo: Path, names: seq<string>)
    requires !StartsWith(cfg.python, "#")
    ensures InstallPackages(cfg, w, s, repo, names)
         == (s.(spawned := s.spawned + PipInvocations(cfg, repo, names)), true)
    decreases |names|
  {
    if names == [] {
      assert s.spawned + [] == s.spawned;
    } else if names[0] == "" {
      InstallPackagesSpawnsPip(cfg, w, s, repo, names[1..]);
      assert PipInvocations(cfg, repo, names) == [] + PipInvocations(cfg, repo, names[1..]);
      assert [] + PipInvocations(cfg, repo, names[1..]) == PipInvocations(cfg, repo, names[1..]);
    } else {
      var inv := Invocation(PipCommand(cfg, names[0]), repo);
      var s1 := s.(spawned := s.spawned + [inv]);
      assert !IsDeferred(PipCommand(cfg, names[0]));
      InstallPackagesSpawnsPip(cfg, w, s1, repo, names[1..]);
      assert s.spawned + [inv] + PipInvocations(cfg, repo, names[1..])
          == s.spawned + PipInvocations(cfg, repo, names);
    }
  }

  function RequirementsFile(repo: Path): Path {
    Join(repo, "requirements.txt")
  }

  function SetupScript(repo: Path): Path {
    Join(repo, "install.py")
  }

  /** The `requirements.txt` step; reading a directory raises. */
  function InstallRequirements(cfg: Config, w: World, s: Os, repo: Path): (r: (Os, bool))
    ensures r.0.attempts == s.attempts
  {
    var req := RequirementsFile(repo);
    if !Exists(s, req) then (s, true)
    else match s.fs[Resolve(req)]
      case Dir => (s, false)
      case File(lines) => InstallPackages(cfg, w, s, repo, StripAll(lines))
  }

  /** The `install.py` step. */
  function RunSetup(cfg: Config, w: World, s: Os, repo: Path): (r: (Os, bool))
    ensures r.0.attempts == s.attempts
  {
    if Exists(s, SetupScript(repo)) then
      var (s1, outcome) := TryInstallScriptSpec(cfg, w, s, repo, [cfg.python, "install.py"]);
      (s1, outcome != Raised)
    else (s, true)
  }

  /** `execute_install_script(url, repo_path, lazy_mode)`: `true` unless an
      exception escaped (the source returns `True` or raises). */
  function ExecuteInstallScriptSpec(cfg: Config, w: World, s: Os, repo: Path, lazy: bool): (r: (Os, bool))
    ensures r.0.attempts == s.attempts
  {
    if lazy then
      var (s1, outcome) := TryInstallScriptSpec(cfg, w, s, repo, [LazyCommandHead, cfg.python]);
      (s1, outcome != Raised)
    else
      var (s1, ok) := InstallRequirements(cfg, w, s, repo);
      if !ok then (s1, false) else RunSetup(cfg, w, s1, repo)
  }

  /** The lines of `requirements.txt`, none when it is missing. */
  function RequirementLines(s: Os, repo: Path): seq<string> {
    if Exists(s, RequirementsFile(repo)) && s.fs[Resolve(RequirementsFile(repo))].File?
    then s.fs[Resolve(RequirementsFile(repo))].lines else []
  }

  lemma InstallRequirementsSpawnsPip(cfg: Config, w: World, s: Os, repo: Path)
    requires !StartsWith(cfg.python, "#")
    requires !(Exists(s, RequirementsFile(repo)) && s.fs[Resolve(RequirementsFile(repo))].Dir?)
    ensures InstallRequirements(cfg, w, s, repo)
         == (s.(spawned := s.spawned + PipInvocations(cfg, repo, StripAll(RequirementLines(s, repo)))), true)
  {
    if Exists(s, RequirementsFile(repo)) {
      InstallPackagesSpawnsPip(cfg, w, s, repo, StripAll(RequirementLines(s, repo)));
    } else {
      assert s.spawned + PipInvocations(cfg, repo, StripAll([])) == s.spawned;
    }
  }

  /** Non-lazy installation runs one pip command per non-blank requirement, in
      file order, then `install.py` once if it exists, and reports success
      whatever those commands' exit statuses were. */
  lemma ExecuteInstallRunsEachRequirement(cfg: Config, w: World, s: Os, repo: Path)
    requires !StartsWith(cfg.python, "#")
    requires !(Exists(s, RequirementsFile(repo)) && s.fs[Resolve(RequirementsFile(repo))].Dir?)
    ensures ExecuteInstallScriptSpec(cfg, w, s, repo, false)
      == (s.(spawned := s.spawned + PipInvocations(cfg, repo, StripAll(RequirementLines(s, repo)))
                        + (if Exists(s, SetupScript(repo)) then [Invocation([cfg.python, "install.py"], repo)] else [])),
          true)
  {
    InstallRequirementsSpawnsPip(cfg, w, s, repo);
    var s1 := s.(spawned := s.spawned + PipInvocations(cfg, repo, StripAll(RequirementLines(s, repo))));
    assert Exists(s1, SetupScript(repo)) == Exists(s, SetupScript(repo));
    if !Exists(s, SetupScript(repo)) {
      assert s1.spawned + [] == s1.spawned;
    }
  }

  method ExecuteInstallScript(h: Host, repo: Path, lazy: bool) returns (ok: bool)
    modifies h
    ensures (h.State(), ok) == ExecuteInstallScriptSpec(h.cfg, h.world, old(h.State()), repo, lazy)
  {
    if lazy {
      var outcome := TryInstallScript(h, repo, [LazyCommandHead, h.cfg.python]);
      return outcome != Raised;
    }
    var req := RequirementsFile(repo);
    if Resolve(req) in h.fs {
      if h.fs[Resolve(req)].Dir? {
        return false;
      }
      var lines := h.fs[Resolve(req)].lines;
      ghost var s0 := h.State();
      ghost var names := StripAll(lines);
      for i := 0 to |lines|
        invariant InstallPackages(h.cfg, h.world, s0, repo, names)
               == InstallPackages(h.cfg, h.world, h.State(), repo, names[i..])
      {
        assert names[i..][1..] == names[i + 1..];
        var package := Strip(lines[i]);
        if package != "" {
          var outcome := TryInstallScript(h, repo, PipCommand(h.cfg, package));
          if outcome == Raised {
            return false;
          }
        }
      }
    }
    if Resolve(SetupScript(repo)) in h.fs {
      var outcome := TryInstallScript(h, repo, [h.cfg.python, "install.py"]);
      return outcome != Raised;
    }
    return true;
  }

  // ---------------------------------------------------------------- rmtree

  /** On Windows, the read-only flags are cleared before every attempt. */
  function AttribCommand(p: Path): seq<string> {
    ["attrib", "-R", p + "\\*", "/S"]
  }

  /** One pass of the loop body: the Windows `attrib` call, then one attempt. */
  function RmtreeStep(cfg: Config, w: World, s: Os, p: Path): (r: (Os, bool))
    ensures r.1 == w.deleteSucceeds(s.attempts) && r.0.attempts == s.attempts + 1
    ensures r.0.spawned == s.spawned + (if cfg.windows then [Invocation(AttribCommand(p), ".")] else [])
    ensures r.0.fs == if r.1 then RemoveTree(s.fs, Resolve(p)) else s.fs
  {
    assert "attrib"[..1] == "a" != "#";
    assert AttribCommand(p)[0] == "attrib" && !IsDeferred(AttribCommand(p));
    assert s.spawned + [] == s.spawned;
    var s0 := if cfg.windows then RunScriptSpec(w, s, AttribCommand(p), ".").0 else s;
    RmtreeAttempt(w, s0, p)
  }

  /** The `while True` loop of `rmtree`, entered with `retry_count == count`:
      the counter is decremented before each attempt and the failure is
      re-raised once it is below zero. */
  function RmtreeLoop(cfg: Config, w: World, s: Os, p: Path, count: int): (r: (Os, bool))
    requires 0 <= count <= 3
    decreases count
  {
    var (s1, ok) := RmtreeStep(cfg, w, s, p);
    if ok then (s1, true)
    else if count - 1 < 0 then (s1, false)
    else RmtreeLoop(cfg, w, s1, p, count - 1)
  }

  /** `rmtree(path)`; `false` stands for the re-raised exception. */
  function RmtreeSpec(cfg: Config, w: World, s: Os, p: Path): (Os, bool) {
    RmtreeLoop(cfg, w, s, p, 3)
  }

  /** `n` copies of the `attrib` call on Windows, none elsewhere. */
  function AttribCalls(cfg: Config, p: Path, n: nat): (r: seq<Invocation>)
    ensures |r| == if cfg.windows then n else 0
  {
    if cfg.windows then seq(n, _ => Invocation(AttribCommand(p), ".")) else []
  }

  /** Entered with counter `count`, the loop makes at most `count + 1` attempts,
      stops at the first success, and fails only when all of them failed;
      the tree is removed exactly when it succeeds. */
  lemma {:induction false} RmtreeLoopAttempts(cfg: Config, w: World, s: Os, p: Path, count: int)
    requires 0 <= count <= 3
    ensures var r := RmtreeLoop(cfg, w, s, p, count);
      var n := r.0.attempts - s.attempts;
      1 <= n <= count + 1
      && r.0.spawned == s.spawned + AttribCalls(cfg, p, n)
      && (forall j :: s.attempts <= j < r.0.attempts - 1 ==> !w.deleteSucceeds(j))
      && (r.1 <==> w.deleteSucceeds(r.0.attempts - 1))
      && (!r.1 ==> n == count + 1 && r.0.fs == s.fs)
      && (r.1 ==> r.0.fs == RemoveTree(s.fs, Resolve(p)))
    decreases count
  {
    var (s1, ok) := RmtreeStep(cfg, w, s, p);
    if !ok && count >= 1 {
      RmtreeLoopAttempts(cfg, w, s1, p, count - 1);
      var r := RmtreeLoop(cfg, w, s1, p, count - 1);
      var n := r.0.attempts - s1.attempts;
      assert AttribCalls(cfg, p, 1) + AttribCalls(cfg, p, n) == AttribCalls(cfg, p, n + 1);
    } else {
      assert s1.spawned == s.spawned + AttribCalls(cfg, p, 1);
    }
  }

  /** `rmtree` succeeds exactly when one of its (at most four) attempts does,
      and then it has made no attempt after the first successful one. */
  lemma RmtreeSucceedsIffSomeAttempt(cfg: Config, w: World, s: Os, p: Path)
    ensures var r := RmtreeSpec(cfg, w, s, p);
      (r.1 <==> exists j :: s.attempts <= j < s.attempts + 4 && w.deleteSucceeds(j))
      && 1 <= r.0.attempts - s.attempts <= 4
  {
    RmtreeLoopAttempts(cfg, w, s, p, 3);
    var r := RmtreeSpec(cfg, w, s, p);
    if exists j :: s.attempts <= j < s.attempts + 4 && w.deleteSucceeds(j) {
      var j :| s.attempts <= j < s.attempts + 4 && w.deleteSucceeds(j);
      assert j < r.0.attempts - 1 || j == r.0.attempts - 1 || r.1;
    }
    if r.1 {
      assert w.deleteSucceeds(r.0.attempts - 1);
    }
  }

  /** A deletion that fails twice and then succeeds returns success after
      exactly three attempts; one that fails four times in a row re-raises. */
  lemma RmtreeRetryScenarios(cfg: Config, w: World, s: Os, p: Path)
    ensures !w.deleteSucceeds(s.attempts) && !w.deleteSucceeds(s.attempts + 1) && w.deleteSucceeds(s.attempts + 2)
      ==> RmtreeSpec(cfg, w, s, p).1 && RmtreeSpec(cfg, w, s, p).0.attempts == s.attempts + 3
    ensures (forall j :: s.attempts <= j < s.attempts + 4 ==> !w.deleteSucceeds(j))
      ==> !RmtreeSpec(cfg, w, s, p).1 && RmtreeSpec(cfg, w, s, p).0.attempts == s.attempts + 4
  {
    RmtreeLoopAttempts(cfg, w, s, p, 3);
    RmtreeSucceedsIffSomeAttempt(cfg, w, s, p);
  }

  method Rmtree(h: Host, p: Path) returns (ok: bool)
    modifies h
    ensures (h.State(), ok) == RmtreeSpec(h.cfg, h.world, old(h.State()), p)
  {
    var retryCount := 3;
    while true
      invariant 0 <= retryCount <= 3
      invariant RmtreeSpec(h.cfg, h.world, old(h.State()), p) == RmtreeLoop(h.cfg, h.world, h.State(), p, retryCount)
      decreases retryCount
    {
      retryCount := retryCount - 1;
      if h.cfg.windows {
        var _ := RunScript(h, AttribCommand(p), ".");
      }
      var attemptOk := h.DeleteTree(p);
      if attemptOk {
        return true;
      }
      if retryCount < 0 {
        return false;
      }
    }
  }
}
