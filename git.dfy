/** The Git gateway (`Git` in git.rs): the push hook that keeps each
    application's working tree at the pushed revision, and the two
    smart-protocol entry points with the receive side's hook bootstrap.

    Each operation is given twice: as a function from the machine's state
    to a `Run` (the new state, the steps asked for, and how it ended), and
    as a method of `Git` acting on a `Machine`, proved to do exactly what
    the function says. `app` is always the name after `sanitize_app_name`. */
module Git {
  import opened Basics
  import opened Strings
  import opened Paths
  import opened Host
  import SC = ServerConfig

  /** One line of post-receive input: old revision, new revision, ref. */
  datatype PushEvent = PushEvent(oldRev: string, newRev: string, refName: string)

  /** What reading one line of standard input gives. */
  datatype Line = Line(text: string) | Unreadable

  /** Which step ended an invocation. `Aborted` is the panic of the
      `.unwrap()` on `git init`. */
  datatype Failure = ReadFailed | StepFailed(effect: Effect) | Aborted(effect: Effect)

  datatype Status = Done | Failed(failure: Failure)

  /** The outcome of running an operation on a machine state: the new
      state, the steps asked for in order, and the status. */
  datatype Run = Run(world: World, issued: seq<Effect>, status: Status)

  function RepoPath(cfg: SC.ServerConfig, app: string): Path { Join(cfg.git_root, app) }
  function AppPath(cfg: SC.ServerConfig, app: string): Path { Join(cfg.apps_root, app) }
  function DataPath(cfg: SC.ServerConfig, app: string): Path { Join(cfg.data_root, app) }
  function GitDir(cfg: SC.ServerConfig, app: string): Path { Join(AppPath(cfg, app), ".git") }
  function HooksDir(cfg: SC.ServerConfig, app: string): Path { Join(RepoPath(cfg, app), "hooks") }
  function HookPath(cfg: SC.ServerConfig, app: string): Path { Join(HooksDir(cfg, app), "post-receive") }

  /** The owner-execute bit, `0o100`. */
  const OwnerExec: Mode := 0x40

  /** `perms.mode() | 0o100`: the owner-execute bit is set and every other
      bit is kept. */
  function WithOwnerExec(m: Mode): (r: Mode)
    ensures r & OwnerExec == OwnerExec
    ensures r & !OwnerExec == m & !OwnerExec
  {
    m | OwnerExec
  }

  /** The command handed to `git-shell -c`: the verb and the app name as
      one single-quoted argument. */
  function Handoff(verb: string, app: string): (c: string)
    ensures |c| == |verb| + |app| + 3
    ensures c[..|verb|] == verb && c[|verb|..|verb| + 2] == " '"
    ensures c[|verb| + 2..|c| - 1] == app && c[|c| - 1] == '\''
  {
    verb + " '" + app + "'"
  }

  /** For a verb and an app name without quotes, cutting the hand-off at
      quotes gives back the verb and its space, the name, and nothing
      after: the name is one single-quoted argument. */
  lemma HandoffQuotesApp(verb: string, app: string)
    ensures '\'' !in verb && '\'' !in app ==>
      Split(Handoff(verb, app), '\'') == [verb + " ", app, ""]
  {
    if '\'' !in verb && '\'' !in app {
      var q := '\'';
      var parts := [verb + " ", app, ""];
      assert parts[1..] == [app, ""] && parts[1..][1..] == [""];
      assert JoinWith(parts[1..], q) == app + [q] + "";
      assert JoinWith(parts, q) == Handoff(verb, app);
      SplitJoin(parts, q);
    }
  }

  /** `git-receive-pack '<app>'`, run by `git-shell` after the bootstrap. */
  function ReceiveCommand(app: string): (c: string)
    ensures '\'' !in app ==> Split(c, '\'') == ["git-receive-pack ", app, ""]
  {
    assert '\'' !in "git-receive-pack" && "git-receive-pack" + " " == "git-receive-pack ";
    HandoffQuotesApp("git-receive-pack", app);
    Handoff("git-receive-pack", app)
  }

  /** `git-upload-pack '<app>'`, the whole of the upload side. */
  function UploadCommand(app: string): (c: string)
    ensures '\'' !in app ==> Split(c, '\'') == ["git-upload-pack ", app, ""]
  {
    assert '\'' !in "git-upload-pack" && "git-upload-pack" + " " == "git-upload-pack ";
    HandoffQuotesApp("git-upload-pack", app);
    Handoff("git-upload-pack", app)
  }

  const Shebang: string := "#!/usr/bin/env bash"
  const StrictMode: string := "set -e; set -o pipefail;"

  /** The hook's last line: pipe standard input into the control-plane
      binary in `git-hook` mode for this app, with the control-plane root
      exported. It is one line, and its words are those six in order. */
  function Invocation(cfg: SC.ServerConfig, app: string): (line: string)
    ensures '\n' !in Display(cfg.ruku_root) && '\n' !in Display(cfg.ruku_binary) && '\n' !in app ==>
      '\n' !in line
    ensures ' ' !in Display(cfg.ruku_root) && ' ' !in Display(cfg.ruku_binary) && ' ' !in app ==>
      Split(line, ' ') ==
        ["cat", "|", "RUKU_ROOT=\"" + Display(cfg.ruku_root) + "\"", Display(cfg.ruku_binary), "git-hook", app]
  {
    var root := Display(cfg.ruku_root);
    var binary := Display(cfg.ruku_binary);
    var line := "cat | RUKU_ROOT=\"" + root + "\" " + binary + " git-hook " + app;
    InvocationOneLine(root, binary, app);
    if ' ' !in root && ' ' !in binary && ' ' !in app then
      InvocationWords(root, binary, app);
      line
    else
      line
  }

  lemma InvocationOneLine(root: string, binary: string, app: string)
    ensures '\n' !in root && '\n' !in binary && '\n' !in app ==>
      '\n' !in "cat | RUKU_ROOT=\"" + root + "\" " + binary + " git-hook " + app
  {
    assert '\n' !in "cat | RUKU_ROOT=\"" && '\n' !in "\" " && '\n' !in " git-hook ";
  }

  lemma InvocationWords(root: string, binary: string, app: string)
    requires ' ' !in root && ' ' !in binary && ' ' !in app
    ensures Split("cat | RUKU_ROOT=\"" + root + "\" " + binary + " git-hook " + app, ' ') ==
      ["cat", "|", "RUKU_ROOT=\"" + root + "\"", binary, "git-hook", app]
  {
    var quoted := "RUKU_ROOT=\"" + root + "\"";
    QuotedRoot(root);
    FixedWords();
    SplitSix("cat", "|", quoted, binary, "git-hook", app, ' ');
    InvocationSpaced(root, binary, app);
  }

  lemma FixedWords()
    ensures ' ' !in "cat" && ' ' !in "|" && ' ' !in "git-hook"
  {
    assert "cat" == ['c', 'a', 't'] && "|" == ['|'];
    assert "git-hook" == ['g', 'i', 't', '-', 'h', 'o', 'o', 'k'];
  }

  lemma QuotedRoot(root: string)
    requires ' ' !in root
    ensures ' ' !in "RUKU_ROOT=\"" + root + "\""
  {
    assert ' ' !in "RUKU_ROOT=\"" && ' ' !in "\"";
  }

  lemma InvocationSpaced(root: string, binary: string, app: string)
    ensures var sp := ' ';
      "cat | RUKU_ROOT=\"" + root + "\" " + binary + " git-hook " + app
        == "cat" + [sp] + "|" + [sp] + ("RUKU_ROOT=\"" + root + "\"")
           + [sp] + binary + [sp] + "git-hook" + [sp] + app
  {
    var sp := ' ';
    assert "cat | RUKU_ROOT=\"" == "cat" + [sp] + "|" + [sp] + "RUKU_ROOT=\"";
    assert "\" " == "\"" + [sp];
    assert " git-hook " == [sp] + "git-hook" + [sp];
  }

  /** The post-receive hook script written at bootstrap: exactly three
      newline-ended lines, the interpreter, strict mode, the invocation. */
  function HookScript(cfg: SC.ServerConfig, app: string): (script: string)
    ensures '\n' !in Display(cfg.ruku_root) && '\n' !in Display(cfg.ruku_binary) && '\n' !in app ==>
      Split(script, '\n') == [Shebang, StrictMode, Invocation(cfg, app), ""]
  {
    ScriptLines(Invocation(cfg, app));
    Shebang + "\n" + StrictMode + "\n" + Invocation(cfg, app) + "\n"
  }

  lemma ScriptLines(inv: string)
    ensures '\n' !in inv ==>
      Split(Shebang + "\n" + StrictMode + "\n" + inv + "\n", '\n') == [Shebang, StrictMode, inv, ""]
  {
    if '\n' !in inv {
      var nl := '\n';
      assert '\n' !in Shebang && '\n' !in StrictMode;
      assert Shebang + "\n" + StrictMode + "\n" + inv + "\n" == Shebang + [nl] + StrictMode + [nl] + inv + [nl];
      SplitEnded(Shebang, StrictMode, inv, nl);
    }
  }

  /** The three fields of a hook input line, if after trimming and
      splitting on single spaces it has exactly three (empty ones count). */
  function HookFields(line: string): (r: Option<PushEvent>)
    ensures r.Some? <==> Count(Trim(line), ' ') == 2
    ensures r.Some? ==> Trim(line) == r.value.oldRev + " " + r.value.newRev + " " + r.value.refName
    ensures r.Some? ==> ' ' !in r.value.oldRev && ' ' !in r.value.newRev && ' ' !in r.value.refName
  {
    var parts := Split(Trim(line), ' ');
    SplitLength(Trim(line), ' ');
    if |parts| == 3 then
      SplitThree(Trim(line), ' ');
      Some(PushEvent(parts[0], parts[1], parts[2]))
    else
      None
  }

  /** One step, reported as a `Run`. */
  function Step(w: World, e: Effect): (r: Run)
    ensures r.issued == [e]
    ensures r.status.Done? <==> w.clock !in w.faults && Possible(w, e)
    ensures r.status.Failed? ==> r.status.failure == StepFailed(e) && r.world == w.(clock := w.clock + 1)
    ensures r.status.Done? ==> r.world == Apply(w, e).(clock := w.clock + 1)
    ensures e.Exec? ==> r.world == w.(clock := w.clock + 1)
  {
    var (w', ok) := Attempt(w, e);
    Run(w', [e], if ok then Done else Failed(StepFailed(e)))
  }

  /** `second` run after `first`. */
  function Append(first: Run, second: Run): Run
  {
    Run(second.world, first.issued + second.issued, second.status)
  }

  /** A step whose failure panics instead of returning an error. */
  function Panicking(r: Run): Run
  {
    if r.status.Failed? && r.status.failure.StepFailed? then
      r.(status := Failed(Aborted(r.status.failure.effect)))
    else r
  }

  /** `checkout_latest`: fetch, then hard-reset to the new revision. */
  function CheckoutRun(cfg: SC.ServerConfig, app: string, w: World, rev: string): Run
  {
    var fetch := Step(w, Exec(Fetch(GitDir(cfg, app))));
    if fetch.status.Failed? then fetch
    else Append(fetch, Step(fetch.world, Exec(ResetHard(GitDir(cfg, app), rev))))
  }

  /** The first-push branch of the hook loop: when the working tree is
      missing, create it, create the data directory if that is missing too,
      and clone the bare repository without checking anything out. */
  function WorkTreeRun(cfg: SC.ServerConfig, app: string, w: World): Run
  {
    if AppPath(cfg, app) in w.paths then Run(w, [], Done)
    else
      var mkApp := Step(w, MkdirAll(AppPath(cfg, app)));
      if mkApp.status.Failed? then mkApp
      else
        var mkData :=
          if DataPath(cfg, app) in mkApp.world.paths then Run(mkApp.world, [], Done)
          else Step(mkApp.world, MkdirAll(DataPath(cfg, app)));
        var made := Append(mkApp, mkData);
        if made.status.Failed? then made
        else Append(made, Step(made.world, Exec(Clone(RepoPath(cfg, app), AppPath(cfg, app)))))
  }

  /** One well-formed hook line. */
  function EventRun(cfg: SC.ServerConfig, app: string, w: World, ev: PushEvent): Run
  {
    var tree := WorkTreeRun(cfg, app, w);
    if tree.status.Failed? then tree
    else Append(tree, CheckoutRun(cfg, app, tree.world, ev.newRev))
  }

  /** One line of hook input: a read error ends the invocation, a
      malformed line does nothing, a well-formed one is acted on. */
  function LineRun(cfg: SC.ServerConfig, app: string, w: World, line: Line): Run
  {
    match line
    case Unreadable => Run(w, [], Failed(ReadFailed))
    case Line(text) =>
      match HookFields(text)
      case None => Run(w, [], Done)
      case Some(ev) => EventRun(cfg, app, w, ev)
  }

  /** `cmd_git_hook`: the lines in order, until the first failure. */
  function HookRun(cfg: SC.ServerConfig, app: string, w: World, lines: seq<Line>): Run
    decreases |lines|
  {
    if |lines| == 0 then Run(w, [], Done)
    else
      var first := LineRun(cfg, app, w, lines[0]);
      if first.status.Failed? then first
      else Append(first, HookRun(cfg, app, first.world, lines[1..]))
  }

  /** `File::create` on the hook path, then `write_all` of the script. */
  function WriteHookRun(file: Path, content: string, w: World): Run
  {
    var create := Step(w, CreateFile(file));
    if create.status.Failed? then create
    else Append(create, Step(create.world, WriteAll(file, content)))
  }

  /** Read the file's mode, then write it back with the owner-execute bit. */
  function MakeExecutableRun(file: Path, w: World): Run
  {
    var stat := Step(w, Stat(file));
    if stat.status.Failed? then stat
    else Append(stat, Step(stat.world, SetMode(file, WithOwnerExec(w.files[file].mode))))
  }

  /** The first half of the bootstrap: the hooks directory, then a bare
      repository, whose failure panics. */
  function InitRepoRun(cfg: SC.ServerConfig, app: string, w: World): Run
  {
    var mkdir := Step(w, MkdirAll(HooksDir(cfg, app)));
    if mkdir.status.Failed? then mkdir
    else Append(mkdir, Panicking(Step(mkdir.world, Exec(InitBare(cfg.git_root, app)))))
  }

  /** The second half: the hook script, then the owner-execute bit on it. */
  function InstallScriptRun(cfg: SC.ServerConfig, app: string, w: World): Run
  {
    var write := WriteHookRun(HookPath(cfg, app), HookScript(cfg, app), w);
    if write.status.Failed? then write
    else Append(write, MakeExecutableRun(HookPath(cfg, app), write.world))
  }

  /** The bootstrap of `cmd_git_receive_pack`: the hooks directory, a bare
      repository, the hook script, and the owner-execute bit on it. */
  function InstallHookRun(cfg: SC.ServerConfig, app: string, w: World): Run
  {
    var init := InitRepoRun(cfg, app, w);
    if init.status.Failed? then init
    else Append(init, InstallScriptRun(cfg, app, init.world))
  }

  /** `cmd_git_receive_pack`: bootstrap only when the hook file is missing,
      then hand the exchange to `git-shell`. */
  function ReceiveRun(cfg: SC.ServerConfig, app: string, w: World): Run
  {
    var boot := if HookPath(cfg, app) in w.paths then Run(w, [], Done) else InstallHookRun(cfg, app, w);
    if boot.status.Failed? then boot
    else Append(boot, Step(boot.world, Exec(GitShell(cfg.git_root, ReceiveCommand(app)))))
  }

  /** `cmd_git_upload_pack`: the hand-off alone. */
  function UploadRun(cfg: SC.ServerConfig, app: string, w: World): Run
  {
    Step(w, Exec(GitShell(cfg.git_root, UploadCommand(app))))
  }

  /** A `Run` whose steps follow those already taken. */
  function After(done: seq<Effect>, r: Run): Run
  {
    r.(issued := done + r.issued)
  }

  lemma HookRunFirst(cfg: SC.ServerConfig, app: string, w: World, lines: seq<Line>)
    requires |lines| > 0
    ensures var first := LineRun(cfg, app, w, lines[0]);
      HookRun(cfg, app, w, lines)
        == if first.status.Failed? then first else Append(first, HookRun(cfg, app, first.world, lines[1..]))
  {
  }

  lemma ConcatAssociates(a: seq<Effect>, b: seq<Effect>, c: seq<Effect>)
    ensures a + b + c == a + (b + c)
  {
  }

  lemma AfterAppend(done: seq<Effect>, first: Run, second: Run)
    ensures After(done, Append(first, second)) == After(done + first.issued, second)
  {
    assert done + (first.issued + second.issued) == (done + first.issued) + second.issued;
  }

  /** One turn of the hook loop: the run of the whole input after `done`
      and one more line. */
  lemma HookLoopStep(cfg: SC.ServerConfig, app: string, w0: World, lines: seq<Line>, i: nat,
                     done: seq<Effect>, before: World)
    requires i < |lines|
    requires HookRun(cfg, app, w0, lines) == After(done, HookRun(cfg, app, before, lines[i..]))
    ensures var step := LineRun(cfg, app, before, lines[i]);
      && (step.status.Done? ==>
            HookRun(cfg, app, w0, lines) == After(done + step.issued, HookRun(cfg, app, step.world, lines[i + 1..])))
      && (step.status.Failed? ==>
            HookRun(cfg, app, w0, lines) == Run(step.world, done + step.issued, step.status))
  {
    var step := LineRun(cfg, app, before, lines[i]);
    HookRunFirst(cfg, app, before, lines[i..]);
    assert lines[i..][0] == lines[i] && lines[i..][1..] == lines[i + 1..];
    AfterAppend(done, step, HookRun(cfg, app, step.world, lines[i + 1..]));
  }

  class Git {
    const config: SC.ServerConfig

    constructor (config: SC.ServerConfig)
      ensures this.config == config
    {
      this.config := config;
    }

    method CmdGitReceivePack(host: Machine, app: string) returns (status: Status)
      modifies host
      ensures var r := ReceiveRun(config, app, old(host.State()));
        host.State() == r.world && host.trace == old(host.trace) + r.issued && status == r.status
    {
      ghost var w := host.State();
      ghost var t := host.trace;
      ghost var boot := if HookPath(config, app) in w.paths then Run(w, [], Done) else InstallHookRun(config, app, w);
      var hook := HookPath(config, app);
      if hook !in host.paths {
        status := InstallHook(host, app);
        if status.Failed? { return; }
      } else {
        assert t + [] == t;
      }
      assert host.State() == boot.world && host.trace == t + boot.issued;
      var command := ReceiveCommand(app);
      ghost var handoff := Step(boot.world, Exec(GitShell(config.git_root, command)));
      var ok := host.Perform(Exec(GitShell(config.git_root, command)));
      ConcatAssociates(t, boot.issued, handoff.issued);
      if !ok { return Failed(StepFailed(Exec(GitShell(config.git_root, command)))); }
      return Done;
    }

    /** The bootstrap branch of `cmd_git_receive_pack`. */
    method InstallHook(host: Machine, app: string) returns (status: Status)
      modifies host
      ensures var r := InstallHookRun(config, app, old(host.State()));
        host.State() == r.world && host.trace == old(host.trace) + r.issued && status == r.status
    {
      ghost var t0 := host.trace;
      ghost var init := InitRepoRun(config, app, host.State());
      status := InitRepo(host, app);
      if status.Failed? { return; }
      ghost var script := InstallScriptRun(config, app, host.State());
      status := InstallScript(host, app);
      ConcatAssociates(t0, init.issued, script.issued);
    }

    method InitRepo(host: Machine, app: string) returns (status: Status)
      modifies host
      ensures var r := InitRepoRun(config, app, old(host.State()));
        host.State() == r.world && host.trace == old(host.trace) + r.issued && status == r.status
    {
      var ok := host.Perform(MkdirAll(HooksDir(config, app)));
      if !ok { return Failed(StepFailed(MkdirAll(HooksDir(config, app)))); }
      ok := host.Perform(Exec(InitBare(config.git_root, app)));
      if !ok { return Failed(Aborted(Exec(InitBare(config.git_root, app)))); }
      return Done;
    }

    method InstallScript(host: Machine, app: string) returns (status: Status)
      modifies host
      ensures var r := InstallScriptRun(config, app, old(host.State()));
        host.State() == r.world && host.trace == old(host.trace) + r.issued && status == r.status
    {
      ghost var t0 := host.trace;
      ghost var write := WriteHookRun(HookPath(config, app), HookScript(config, app), host.State());
      status := WriteHook(host, HookPath(config, app), HookScript(config, app));
      if status.Failed? { return; }
      ghost var exec := MakeExecutableRun(HookPath(config, app), host.State());
      status := MakeExecutable(host, HookPath(config, app));
      ConcatAssociates(t0, write.issued, exec.issued);
    }

    method WriteHook(host: Machine, file: Path, content: string) returns (status: Status)
      modifies host
      ensures var r := WriteHookRun(file, content, old(host.State()));
        host.State() == r.world && host.trace == old(host.trace) + r.issued && status == r.status
    {
      var ok := host.Perform(CreateFile(file));
      if !ok { return Failed(StepFailed(CreateFile(file))); }
      ok := host.Perform(WriteAll(file, content));
      if !ok { return Failed(StepFailed(WriteAll(file, content))); }
      return Done;
    }

    /** Make the hook executable by its owner. */
    method MakeExecutable(host: Machine, file: Path) returns (status: Status)
      modifies host
      ensures var r := MakeExecutableRun(file, old(host.State()));
        host.State() == r.world && host.trace == old(host.trace) + r.issued && status == r.status
    {
      var ok := host.Perform(Stat(file));
      if !ok { return Failed(StepFailed(Stat(file))); }
      var mode := WithOwnerExec(host.files[file].mode);
      ok := host.Perform(SetMode(file, mode));
      if !ok { return Failed(StepFailed(SetMode(file, mode))); }
      return Done;
    }

    method CmdGitUploadPack(host: Machine, app: string) returns (status: Status)
      modifies host
      ensures var r := UploadRun(config, app, old(host.State()));
        host.State() == r.world && host.trace == old(host.trace) + r.issued && status == r.status
    {
      var command := UploadCommand(app);
      var ok := host.Perform(Exec(GitShell(config.git_root, command)));
      if !ok { return Failed(StepFailed(Exec(GitShell(config.git_root, command)))); }
      return Done;
    }

    method CmdGitHook(host: Machine, app: string, lines: seq<Line>) returns (status: Status)
      modifies host
      ensures var r := HookRun(config, app, old(host.State()), lines);
        host.State() == r.world && host.trace == old(host.trace) + r.issued && status == r.status
    {
      ghost var done: seq<Effect> := [];
      ghost var w0 := host.State();
      ghost var t0 := host.trace;
      var i := 0;
      status := Done;
      while i < |lines| && status.Done?
        invariant 0 <= i <= |lines|
        invariant host.trace == t0 + done
        invariant status.Done? ==> HookRun(config, app, w0, lines) == After(done, HookRun(config, app, host.State(), lines[i..]))
        invariant status.Failed? ==> HookRun(config, app, w0, lines) == Run(host.State(), done, status)
      {
        ghost var step := LineRun(config, app, host.State(), lines[i]);
        HookLoopStep(config, app, w0, lines, i, done, host.State());
        status := ProcessLine(host, app, lines[i]);
        ConcatAssociates(t0, done, step.issued);
        done := done + step.issued;
        i := i + 1;
      }
      assert done + [] == done;
    }

    /** The body of the hook loop. */
    method ProcessLine(host: Machine, app: string, line: Line) returns (status: Status)
      modifies host
      ensures var r := LineRun(config, app, old(host.State()), line);
        host.State() == r.world && host.trace == old(host.trace) + r.issued && status == r.status
    {
      match line {
        case Unreadable =>
          return Failed(ReadFailed);
        case Line(text) =>
          var event := HookFields(text);
          if event.None? { return Done; }
          status := ProcessEvent(host, app, event.value);
      }
    }

    /** One well-formed line. */
    method ProcessEvent(host: Machine, app: string, event: PushEvent) returns (status: Status)
      modifies host
      ensures var r := EventRun(config, app, old(host.State()), event);
        host.State() == r.world && host.trace == old(host.trace) + r.issued && status == r.status
    {
      var appPath := AppPath(config, app);
      if appPath !in host.paths {
        status := CloneWorkTree(host, app);
        if status.Failed? { return; }
      }
      status := CheckoutLatest(host, app, event.newRev);
    }

    /** The first-push branch: working tree, data directory, clone. */
    method CloneWorkTree(host: Machine, app: string) returns (status: Status)
      requires AppPath(config, app) !in host.paths
      modifies host
      ensures var r := WorkTreeRun(config, app, old(host.State()));
        host.State() == r.world && host.trace == old(host.trace) + r.issued && status == r.status
    {
      ghost var w := host.State();
      ghost var t := host.trace;
      var appPath := AppPath(config, app);
      var dataPath := DataPath(config, app);
      ghost var mkApp := Step(w, MkdirAll(appPath));
      var ok := host.Perform(MkdirAll(appPath));
      if !ok { return Failed(StepFailed(MkdirAll(appPath))); }
      ghost var mkData := if dataPath in mkApp.world.paths then Run(mkApp.world, [], Done)
        else Step(mkApp.world, MkdirAll(dataPath));
      if dataPath !in host.paths {
        ok := host.Perform(MkdirAll(dataPath));
        if !ok { return Failed(StepFailed(MkdirAll(dataPath))); }
      } else {
        assert [MkdirAll(appPath)] + [] == [MkdirAll(appPath)];
      }
      ghost var made := Append(mkApp, mkData);
      assert host.State() == made.world && host.trace == t + made.issued;
      var repoPath := RepoPath(config, app);
      ok := host.Perform(Exec(Clone(repoPath, appPath)));
      ConcatAssociates(t, made.issued, [Exec(Clone(repoPath, appPath))]);
      if !ok { return Failed(StepFailed(Exec(Clone(repoPath, appPath)))); }
      return Done;
    }

    method CheckoutLatest(host: Machine, app: string, rev: string) returns (status: Status)
      modifies host
      ensures var r := CheckoutRun(config, app, old(host.State()), rev);
        host.State() == r.world && host.trace == old(host.trace) + r.issued && status == r.status
    {
      var gitDir := GitDir(config, app);
      var ok := host.Perform(Exec(Fetch(gitDir)));
      if !ok { return Failed(StepFailed(Exec(Fetch(gitDir)))); }
      ok := host.Perform(Exec(ResetHard(gitDir, rev)));
      if !ok { return Failed(StepFailed(Exec(ResetHard(gitDir, rev)))); }
      return Done;
    }
  }
}
