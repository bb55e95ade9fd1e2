/** What the smart-protocol entry points of the Git gateway guarantee:
    the text they write and hand over, and what the receive side's
    bootstrap does to the machine. Stated over the functions of module
    `Git`, and so, through their postconditions, over the methods of
    `Git.Git`. */
module ReceiveProperties {
  import opened Basics
  import opened Strings
  import opened Paths
  import opened Host
  import opened Git
  import SC = ServerConfig

  // ---------------------------------------------------------------------
  // The permission bit

  /** Setting the owner-execute bit twice is setting it once, and a mode
      that has it already is left as it is. */
  lemma WithOwnerExecIdempotent(m: Mode)
    ensures WithOwnerExec(WithOwnerExec(m)) == WithOwnerExec(m)
    ensures m & OwnerExec == OwnerExec ==> WithOwnerExec(m) == m
  {
  }

  // ---------------------------------------------------------------------
  // The receive side's bootstrap

  /** The step the receive side ends with. */
  function ReceiveHandoff(cfg: SC.ServerConfig, app: string): Effect
  {
    Exec(GitShell(cfg.git_root, ReceiveCommand(app)))
  }

  /** The bootstrap steps, in order, on a machine whose new files get
      `mode`. */
  function Bootstrap(cfg: SC.ServerConfig, app: string, mode: Mode): seq<Effect>
  {
    [ MkdirAll(HooksDir(cfg, app)),
      Exec(InitBare(cfg.git_root, app)),
      CreateFile(HookPath(cfg, app)),
      WriteAll(HookPath(cfg, app), HookScript(cfg, app)),
      Stat(HookPath(cfg, app)),
      SetMode(HookPath(cfg, app), WithOwnerExec(mode)) ]
  }

  /** The two halves of the bootstrap plan, as `InitRepoRun` and
      `InstallScriptRun` ask for them. */
  lemma BootstrapHalves(cfg: SC.ServerConfig, app: string, mode: Mode)
    ensures var plan := Bootstrap(cfg, app, mode);
      var hook := HookPath(cfg, app);
      && plan[..2] == [MkdirAll(HooksDir(cfg, app)), Exec(InitBare(cfg.git_root, app))]
      && plan[2..] == [CreateFile(hook), WriteAll(hook, HookScript(cfg, app))]
           + [Stat(hook), SetMode(hook, WithOwnerExec(mode))]
      && plan == plan[..2] + plan[2..]
  {
  }

  /** The hook file a finished bootstrap leaves: the script, executable by
      its owner. */
  function InstalledHook(cfg: SC.ServerConfig, app: string, mode: Mode): File
  {
    File(HookScript(cfg, app), WithOwnerExec(mode))
  }

  /** The clock counts the run's steps; the fault plan and the creation
      mode stay. */
  predicate Counted(w: World, r: Run)
  {
    && r.world.clock == w.clock + |r.issued|
    && r.world.faults == w.faults
    && r.world.createMode == w.createMode
  }

  /** A failure that names the last step asked for, whose number was in the
      fault plan; only the repository creation panics. */
  predicate Refused(w: World, r: Run)
  {
    && r.status.Failed? && |r.issued| > 0
    && w.clock + |r.issued| - 1 in w.faults
    && var last := r.issued[|r.issued| - 1];
       r.status.failure == (if last.Exec? && last.cmd.InitBare? then Aborted(last) else StepFailed(last))
  }

  /** Only the hook file and the directories leading to it may change. */
  predicate HookOnly(cfg: SC.ServerConfig, app: string, w: World, r: Run)
  {
    && w.paths <= r.world.paths <= w.paths + Ancestors(HookPath(cfg, app))
    && r.world.files - {HookPath(cfg, app)} == w.files - {HookPath(cfg, app)}
  }

  lemma AncestorsJoin(p: Path, component: string)
    ensures Ancestors(Join(p, component)) == Ancestors(p) + {Join(p, component)}
  {
    var q := Join(p, component);
    assert q[..|q|] == q;
    forall k | 1 <= k <= |p|
      ensures q[..k] == p[..k]
    {
    }
  }

  lemma RefusedAfter(w: World, first: Run, second: Run)
    requires Counted(w, first) && first.status.Done?
    requires Refused(first.world, second)
    ensures Refused(w, Append(first, second))
  {
    var issued := first.issued + second.issued;
    assert issued[|issued| - 1] == second.issued[|second.issued| - 1];
  }

  /** Creating and writing a file that does not exist yet, in an existing
      directory. */
  lemma WriteHookShape(file: Path, content: string, w: World)
    requires Valid(w) && file !in w.files && |file| > 0 && Parent(file) in w.paths
    ensures var r := WriteHookRun(file, content, w);
      && Counted(w, r) && Valid(r.world)
      && r.issued <= [CreateFile(file), WriteAll(file, content)]
      && w.paths <= r.world.paths <= w.paths + {file}
      && r.world.files - {file} == w.files - {file}
      && (r.status.Done? ==>
            && r.issued == [CreateFile(file), WriteAll(file, content)]
            && r.world.paths == w.paths + {file}
            && r.world.files == w.files[file := File(content, w.createMode)])
      && (r.status.Failed? ==> Refused(w, r))
  {
    var create := Step(w, CreateFile(file));
    if create.status.Done? {
      var write := Step(create.world, WriteAll(file, content));
      assert create.world.files == w.files[file := File("", w.createMode)];
      if write.status.Failed? {
        RefusedAfter(w, create, write);
      }
    }
  }

  /** Reading a file's mode and writing it back with the owner-execute
      bit. */
  lemma MakeExecutableShape(file: Path, w: World)
    requires file in w.files
    ensures var r := MakeExecutableRun(file, w);
      && Counted(w, r) && r.world.paths == w.paths
      && r.issued <= [Stat(file), SetMode(file, WithOwnerExec(w.files[file].mode))]
      && r.world.files.Keys == w.files.Keys
      && r.world.files - {file} == w.files - {file}
      && (r.status.Done? ==>
            && r.issued == [Stat(file), SetMode(file, WithOwnerExec(w.files[file].mode))]
            && r.world.files == w.files[file := w.files[file].(mode := WithOwnerExec(w.files[file].mode))])
      && (r.status.Failed? ==> Refused(w, r))
  {
    var stat := Step(w, Stat(file));
    if stat.status.Done? {
      var chmod := Step(stat.world, SetMode(file, WithOwnerExec(w.files[file].mode)));
      if chmod.status.Failed? {
        RefusedAfter(w, stat, chmod);
      }
    }
  }

  /** The first half of the bootstrap: the hooks directory and the bare
      repository. */
  lemma InitRepoShape(cfg: SC.ServerConfig, app: string, w: World)
    requires Valid(w) && HookPath(cfg, app) !in w.paths
    ensures var init := InitRepoRun(cfg, app, w);
      && Counted(w, init) && Valid(init.world)
      && init.issued <= Bootstrap(cfg, app, w.createMode)[..2]
      && w.paths <= init.world.paths <= w.paths + Ancestors(HooksDir(cfg, app))
      && init.world.files == w.files
      && (init.status.Failed? ==> Refused(w, init))
      && (init.status.Done? ==>
            && init.issued == Bootstrap(cfg, app, w.createMode)[..2]
            && init.world.paths == w.paths + Ancestors(HooksDir(cfg, app))
            && HookPath(cfg, app) !in init.world.files
            && Parent(HookPath(cfg, app)) in init.world.paths)
  {
    var dir := HooksDir(cfg, app);
    assert dir[..|dir|] == dir;
    AncestorsJoin(dir, "post-receive");
    BootstrapHalves(cfg, app, w.createMode);
  }

  /** The second half: the script in a new file, then the owner-execute
      bit; only the hook file changes. */
  lemma InstallScriptShape(cfg: SC.ServerConfig, app: string, v: World)
    requires Valid(v) && HookPath(cfg, app) !in v.files && Parent(HookPath(cfg, app)) in v.paths
    ensures var r := InstallScriptRun(cfg, app, v);
      var hook := HookPath(cfg, app);
      && Counted(v, r) && Valid(r.world)
      && v.paths <= r.world.paths <= v.paths + {hook}
      && r.world.files - {hook} == v.files - {hook}
      && r.issued <= Bootstrap(cfg, app, v.createMode)[2..]
      && (r.status.Failed? ==> Refused(v, r))
      && (r.status.Done? ==>
            && r.issued == Bootstrap(cfg, app, v.createMode)[2..]
            && r.world.paths == v.paths + {hook}
            && r.world.files == v.files[hook := InstalledHook(cfg, app, v.createMode)])
  {
    var hook := HookPath(cfg, app);
    var script := HookScript(cfg, app);
    var written := WriteHookRun(hook, script, v);
    var writePlan := [CreateFile(hook), WriteAll(hook, script)];
    var execPlan := [Stat(hook), SetMode(hook, WithOwnerExec(v.createMode))];
    BootstrapHalves(cfg, app, v.createMode);
    WriteHookShape(hook, script, v);
    if written.status.Done? {
      var exec := MakeExecutableRun(hook, written.world);
      MakeExecutableShape(hook, written.world);
      assert written.world.files[hook].mode == v.createMode;
      PrefixConcat(writePlan, exec.issued, execPlan);
      if exec.status.Failed? {
        RefusedAfter(v, written, exec);
      }
    } else {
      PrefixConcat([], written.issued, writePlan);
    }
  }

  /** The bootstrap on a machine without the hook asks for a prefix of the
      bootstrap steps, touches only the hook and its directories, and when
      it fails names the refused step. */
  lemma InstallShape(cfg: SC.ServerConfig, app: string, w: World)
    requires Valid(w) && HookPath(cfg, app) !in w.paths
    ensures var r := InstallHookRun(cfg, app, w);
      && Counted(w, r) && Valid(r.world) && HookOnly(cfg, app, w, r)
      && r.issued <= Bootstrap(cfg, app, w.createMode)
      && (r.status.Failed? ==> Refused(w, r))
  {
    var plan := Bootstrap(cfg, app, w.createMode);
    AncestorsJoin(HooksDir(cfg, app), "post-receive");
    InitRepoShape(cfg, app, w);
    BootstrapHalves(cfg, app, w.createMode);
    var init := InitRepoRun(cfg, app, w);
    if init.status.Done? {
      var finish := InstallScriptRun(cfg, app, init.world);
      InstallScriptShape(cfg, app, init.world);
      PrefixConcat(init.issued, finish.issued, plan[2..]);
      if finish.status.Failed? {
        RefusedAfter(w, init, finish);
      }
    }
  }

  /** A finished bootstrap asked for every bootstrap step and leaves the
      script, executable by its owner, and the directories leading to
      it. */
  lemma InstallDone(cfg: SC.ServerConfig, app: string, w: World)
    requires Valid(w) && HookPath(cfg, app) !in w.paths
    ensures var r := InstallHookRun(cfg, app, w);
      r.status.Done? ==>
        && r.issued == Bootstrap(cfg, app, w.createMode)
        && r.world.paths == w.paths + Ancestors(HookPath(cfg, app))
        && r.world.files == w.files[HookPath(cfg, app) := InstalledHook(cfg, app, w.createMode)]
  {
    var plan := Bootstrap(cfg, app, w.createMode);
    AncestorsJoin(HooksDir(cfg, app), "post-receive");
    InitRepoShape(cfg, app, w);
    var init := InitRepoRun(cfg, app, w);
    BootstrapHalves(cfg, app, w.createMode);
    if init.status.Done? {
      InstallScriptShape(cfg, app, init.world);
    }
  }

  // ---------------------------------------------------------------------
  // `cmd_git_receive_pack` and `cmd_git_upload_pack`

  /** With the hook in place the receive side only hands over. */
  lemma ReceiveWithHookPresent(cfg: SC.ServerConfig, app: string, w: World)
    requires HookPath(cfg, app) in w.paths
    ensures var r := ReceiveRun(cfg, app, w);
      && r.issued == [ReceiveHandoff(cfg, app)]
      && r.world == w.(clock := w.clock + 1)
      && (r.status.Done? <==> w.clock !in w.faults)
  {
    assert [] + [ReceiveHandoff(cfg, app)] == [ReceiveHandoff(cfg, app)];
  }

  /** A successful first receive runs the whole bootstrap, then hands over;
      it leaves the hook script, executable by its owner, and the
      directories leading to it. */
  lemma ReceiveBootstrap(cfg: SC.ServerConfig, app: string, w: World)
    requires Valid(w) && HookPath(cfg, app) !in w.paths
    ensures var r := ReceiveRun(cfg, app, w);
      r.status.Done? ==>
        && r.issued == Bootstrap(cfg, app, w.createMode) + [ReceiveHandoff(cfg, app)]
        && r.world.paths == w.paths + Ancestors(HookPath(cfg, app))
        && r.world.files == w.files[HookPath(cfg, app) := InstalledHook(cfg, app, w.createMode)]
  {
    InstallDone(cfg, app, w);
  }

  /** Receiving touches only the hook file and the directories leading to
      it, asks for a prefix of what it plans, and keeps every file at an
      existing path. */
  lemma ReceiveConfined(cfg: SC.ServerConfig, app: string, w: World)
    requires Valid(w)
    ensures var r := ReceiveRun(cfg, app, w);
      var plan := (if HookPath(cfg, app) in w.paths then [] else Bootstrap(cfg, app, w.createMode))
        + [ReceiveHandoff(cfg, app)];
      && Counted(w, r) && Valid(r.world) && HookOnly(cfg, app, w, r)
      && r.issued <= plan
      && (r.status.Done? ==> r.issued == plan && HookPath(cfg, app) in r.world.paths)
  {
    AncestorsJoin(HooksDir(cfg, app), "post-receive");
    if HookPath(cfg, app) in w.paths {
      ReceiveWithHookPresent(cfg, app, w);
      assert [] + [ReceiveHandoff(cfg, app)] == [ReceiveHandoff(cfg, app)];
    } else {
      BootstrapConfined(cfg, app, w);
      var boot := InstallHookRun(cfg, app, w);
      if boot.status.Done? {
        var handoff := Step(boot.world, ReceiveHandoff(cfg, app));
        assert ReceiveRun(cfg, app, w) == Append(boot, handoff);
      } else {
        assert ReceiveRun(cfg, app, w) == boot;
      }
    }
  }

  /** The bootstrap half of `ReceiveConfined`. */
  lemma BootstrapConfined(cfg: SC.ServerConfig, app: string, w: World)
    requires Valid(w) && HookPath(cfg, app) !in w.paths
    ensures var boot := InstallHookRun(cfg, app, w);
      var plan := Bootstrap(cfg, app, w.createMode) + [ReceiveHandoff(cfg, app)];
      && Counted(w, boot) && Valid(boot.world) && HookOnly(cfg, app, w, boot)
      && boot.issued <= plan
      && (boot.status.Done? ==> boot.issued + [ReceiveHandoff(cfg, app)] == plan)
      && (boot.status.Done? ==> HookPath(cfg, app) in boot.world.paths)
  {
    AncestorsJoin(HooksDir(cfg, app), "post-receive");
    InstallShape(cfg, app, w);
    var boot := InstallHookRun(cfg, app, w);
    var plan := Bootstrap(cfg, app, w.createMode) + [ReceiveHandoff(cfg, app)];
    if boot.status.Done? {
      InstallDone(cfg, app, w);
      PrefixConcat(boot.issued, [], [ReceiveHandoff(cfg, app)]);
      assert boot.issued + [] == boot.issued;
    } else {
      PrefixConcat([], Bootstrap(cfg, app, w.createMode), plan);
    }
  }

  /** A failed receive names the last step it asked for, which the fault
      plan refused; the missing file cases never arise. Only a failed
      repository creation panics. */
  lemma ReceiveFailureReported(cfg: SC.ServerConfig, app: string, w: World)
    requires Valid(w)
    ensures var r := ReceiveRun(cfg, app, w);
      r.status.Failed? ==> Refused(w, r)
  {
    if HookPath(cfg, app) in w.paths {
      HandoffRefused(cfg, app, w);
    } else {
      InstallShape(cfg, app, w);
      var boot := InstallHookRun(cfg, app, w);
      if boot.status.Done? {
        var handoff := Step(boot.world, ReceiveHandoff(cfg, app));
        HandoffRefused(cfg, app, boot.world);
        if handoff.status.Failed? {
          RefusedAfter(w, boot, handoff);
        }
      }
    }
  }

  /** A failed hand-off is a refused step. */
  lemma HandoffRefused(cfg: SC.ServerConfig, app: string, w: World)
    ensures var r := Step(w, ReceiveHandoff(cfg, app));
      r.status.Failed? ==> Refused(w, r)
  {
    var r := Step(w, ReceiveHandoff(cfg, app));
    assert r.issued[|r.issued| - 1] == ReceiveHandoff(cfg, app);
  }

  /** With no faults the receive side succeeds. */
  lemma ReceiveSucceedsWithoutFaults(cfg: SC.ServerConfig, app: string, w: World)
    requires Valid(w) && w.faults == {}
    ensures ReceiveRun(cfg, app, w).status == Done
  {
    ReceiveFailureReported(cfg, app, w);
  }

  /** After a successful receive, the next one only hands over and changes
      nothing else: the bootstrap runs at most once. */
  lemma ReceiveIdempotent(cfg: SC.ServerConfig, app: string, w: World)
    requires Valid(w) && ReceiveRun(cfg, app, w).status.Done?
    ensures var again := ReceiveRun(cfg, app, ReceiveRun(cfg, app, w).world);
      && again.issued == [ReceiveHandoff(cfg, app)]
      && again.world == ReceiveRun(cfg, app, w).world.(clock := ReceiveRun(cfg, app, w).world.clock + 1)
  {
    ReceiveConfined(cfg, app, w);
    ReceiveWithHookPresent(cfg, app, ReceiveRun(cfg, app, w).world);
  }

  /** The upload side hands over and does nothing else. */
  lemma UploadOnlyHandsOff(cfg: SC.ServerConfig, app: string, w: World)
    ensures var r := UploadRun(cfg, app, w);
      && r.issued == [Exec(GitShell(cfg.git_root, Handoff("git-upload-pack", app)))]
      && r.world == w.(clock := w.clock + 1)
      && (r.status.Done? <==> w.clock !in w.faults)
  {
  }
}
