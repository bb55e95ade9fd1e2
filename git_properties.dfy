/** What the Git gateway guarantees, stated over the functions of module
    `Git` (and so, through their postconditions, over the methods of
    `Git.Git`). */
module GitProperties {
  import opened Basics
  import opened Strings
  import opened Paths
  import opened Host
  import opened Git
  import SC = ServerConfig

  // ---------------------------------------------------------------------
  // Views of a list of steps

  /** The revisions of the hard resets among `t`, in order. */
  function Resets(t: seq<Effect>): seq<string>
    decreases |t|
  {
    if |t| == 0 then []
    else (if t[0].Exec? && t[0].cmd.ResetHard? then [t[0].cmd.rev] else []) + Resets(t[1..])
  }

  /** How many clones `t` asks for. */
  function Clones(t: seq<Effect>): nat
    decreases |t|
  {
    if |t| == 0 then 0 else (if t[0].Exec? && t[0].cmd.Clone? then 1 else 0) + Clones(t[1..])
  }

  /** The new revision of a well-formed hook line; nothing for any other. */
  function LineRevisions(line: Line): seq<string>
  {
    if line.Line? && HookFields(line.text).Some? then [HookFields(line.text).value.newRev] else []
  }

  /** The new revisions of the well-formed hook lines, up to the first line
      that cannot be read. */
  function Revisions(lines: seq<Line>): seq<string>
    decreases |lines|
  {
    if |lines| == 0 || lines[0].Unreadable? then []
    else LineRevisions(lines[0]) + Revisions(lines[1..])
  }

  /** `lines` without the readable lines that are not three fields. */
  function WellFormed(lines: seq<Line>): seq<Line>
    decreases |lines|
  {
    if |lines| == 0 then []
    else if lines[0].Line? && HookFields(lines[0].text).None? then WellFormed(lines[1..])
    else [lines[0]] + WellFormed(lines[1..])
  }

  /** A fetch followed by a hard reset, per revision. */
  function Checkouts(gitDir: Path, revs: seq<string>): seq<Effect>
    decreases |revs|
  {
    if |revs| == 0 then []
    else [Exec(Fetch(gitDir)), Exec(ResetHard(gitDir, revs[0]))] + Checkouts(gitDir, revs[1..])
  }

  lemma CheckoutsSingle(gitDir: Path, rev: string)
    ensures Checkouts(gitDir, [rev]) == [Exec(Fetch(gitDir))] + [Exec(ResetHard(gitDir, rev))]
  {
    assert [rev][1..] == [];
  }

  /** The only steps the hook may ask for: about this app's working tree,
      its data directory, and its bare repository. */
  predicate HookEffect(cfg: SC.ServerConfig, app: string, e: Effect)
  {
    || e == MkdirAll(AppPath(cfg, app))
    || e == MkdirAll(DataPath(cfg, app))
    || e == Exec(Clone(RepoPath(cfg, app), AppPath(cfg, app)))
    || e == Exec(Fetch(GitDir(cfg, app)))
    || (e.Exec? && e.cmd.ResetHard? && e.cmd.gitDir == GitDir(cfg, app))
  }

  /** A run that asks only for directories and commands: the clock counts
      its steps, paths only appear, files and the fault plan stay. */
  predicate Framed(w: World, r: Run)
  {
    && r.world.clock == w.clock + |r.issued|
    && w.paths <= r.world.paths
    && r.world.files == w.files
    && r.world.faults == w.faults
    && r.world.createMode == w.createMode
  }

  /** A failure that names the last step asked for, whose number was in the
      fault plan. */
  predicate FaultedLast(w: World, r: Run)
  {
    && r.status.Failed? && r.status.failure.StepFailed?
    && |r.issued| > 0 && r.issued[|r.issued| - 1] == r.status.failure.effect
    && w.clock + |r.issued| - 1 in w.faults
  }

  lemma {:induction false} ResetsConcat(a: seq<Effect>, b: seq<Effect>)
    ensures Resets(a + b) == Resets(a) + Resets(b)
    decreases |a|
  {
    if |a| > 0 {
      assert (a + b)[1..] == a[1..] + b;
      ResetsConcat(a[1..], b);
    } else {
      assert a + b == b;
    }
  }

  lemma {:induction false} ClonesConcat(a: seq<Effect>, b: seq<Effect>)
    ensures Clones(a + b) == Clones(a) + Clones(b)
    decreases |a|
  {
    if |a| > 0 {
      assert (a + b)[1..] == a[1..] + b;
      ClonesConcat(a[1..], b);
    } else {
      assert a + b == b;
    }
  }

  lemma {:induction false} ResetsPrefix(a: seq<Effect>, b: seq<Effect>)
    requires a <= b
    ensures Resets(a) <= Resets(b)
    decreases |a|
  {
    if |a| > 0 {
      assert a[1..] <= b[1..];
      ResetsPrefix(a[1..], b[1..]);
    }
  }

  lemma {:induction false} ClonesPrefix(a: seq<Effect>, b: seq<Effect>)
    requires a <= b
    ensures Clones(a) <= Clones(b)
    decreases |a|
  {
    if |a| > 0 {
      assert a[1..] <= b[1..];
      ClonesPrefix(a[1..], b[1..]);
    }
  }

  // ---------------------------------------------------------------------
  // Reading a hook line

  /** Three space-free fields joined by single spaces, with no whitespace
      at the two ends of the line, are read back as those three fields. */
  lemma HookFieldsOfEvent(ev: PushEvent)
    requires ' ' !in ev.oldRev && ' ' !in ev.newRev && ' ' !in ev.refName
    requires |ev.oldRev| > 0 && !IsWhitespace(ev.oldRev[0])
    requires |ev.refName| > 0 && !IsWhitespace(ev.refName[|ev.refName| - 1])
    ensures HookFields(ev.oldRev + " " + ev.newRev + " " + ev.refName) == Some(ev)
  {
    var line := ev.oldRev + " " + ev.newRev + " " + ev.refName;
    assert line[0] == ev.oldRev[0] && line[|line| - 1] == ev.refName[|ev.refName| - 1];
    assert Trim(line) == line;
    var parts := [ev.oldRev, ev.newRev, ev.refName];
    assert parts[1..] == [ev.newRev, ev.refName] && parts[1..][1..] == [ev.refName];
    assert JoinWith(parts[1..], ' ') == ev.newRev + " " + ev.refName;
    assert JoinWith(parts, ' ') == line;
    SplitJoin(parts, ' ');
  }

  /** A ref update as git writes it is an event. */
  lemma SampleRefUpdate()
    ensures HookFields("abc123 def456 refs/heads/main") == Some(PushEvent("abc123", "def456", "refs/heads/main"))
  {
    var line := "abc123" + " " + "def456" + " " + "refs/heads/main";
    assert line == "abc123 def456 refs/heads/main";
    SampleWords();
    HookFieldsOfEvent(PushEvent("abc123", "def456", "refs/heads/main"));
  }

  lemma SampleWords()
    ensures ' ' !in "abc123" && ' ' !in "def456" && ' ' !in "refs/heads/main"
    ensures |"abc123"| > 0 && !IsWhitespace("abc123"[0])
    ensures |"refs/heads/main"| > 0 && !IsWhitespace("refs/heads/main"[14])
  {
    assert "abc123" == ['a', 'b', 'c', '1', '2', '3'] && "def456" == ['d', 'e', 'f', '4', '5', '6'];
    assert "refs/heads/main" == ['r', 'e', 'f', 's', '/', 'h', 'e', 'a', 'd', 's', '/', 'm', 'a', 'i', 'n'];
  }

  /** So is any three-word line: "only two fields" resets to `two`. */
  lemma SampleThreeWords()
    ensures HookFields("only two fields") == Some(PushEvent("only", "two", "fields"))
  {
    var line := "only" + " " + "two" + " " + "fields";
    assert line == "only two fields";
    assert "only" == ['o', 'n', 'l', 'y'] && "two" == ['t', 'w', 'o'];
    assert "fields" == ['f', 'i', 'e', 'l', 'd', 's'];
    HookFieldsOfEvent(PushEvent("only", "two", "fields"));
  }

  // ---------------------------------------------------------------------
  // One well-formed line

  /** The steps of a first push: working tree, data directory when
      missing, clone. */
  function FirstPush(cfg: SC.ServerConfig, app: string, makeData: bool): seq<Effect>
  {
    [MkdirAll(AppPath(cfg, app))]
    + (if makeData then [MkdirAll(DataPath(cfg, app))] else [])
    + [Exec(Clone(RepoPath(cfg, app), AppPath(cfg, app)))]
  }

  /** The steps one push event asks for when nothing fails. */
  function EventPlan(cfg: SC.ServerConfig, app: string, w: World, rev: string): seq<Effect>
  {
    (if AppPath(cfg, app) in w.paths then []
     else FirstPush(cfg, app, DataPath(cfg, app) !in w.paths + Ancestors(AppPath(cfg, app))))
    + Checkouts(GitDir(cfg, app), [rev])
  }

  lemma WorkTreeShape(cfg: SC.ServerConfig, app: string, w: World)
    ensures var r := WorkTreeRun(cfg, app, w);
      var plan := FirstPush(cfg, app, DataPath(cfg, app) !in w.paths + Ancestors(AppPath(cfg, app)));
      && Framed(w, r)
      && (AppPath(cfg, app) in w.paths ==> r == Run(w, [], Done))
      && (AppPath(cfg, app) !in w.paths ==> r.issued <= plan)
      && (AppPath(cfg, app) !in w.paths && r.status.Done? ==> r.issued == plan)
      && (r.status.Done? ==> AppPath(cfg, app) in r.world.paths)
      && (r.status.Failed? ==> FaultedLast(w, r))
  {
    var appPath := AppPath(cfg, app);
    assert appPath in Ancestors(appPath) by {
      assert appPath[..|appPath|] == appPath;
    }
    if appPath !in w.paths {
      var mkApp := Step(w, MkdirAll(appPath));
      if mkApp.status.Done? {
        var data := DataPath(cfg, app);
        var makeData := data !in w.paths + Ancestors(appPath);
        assert mkApp.world.paths == w.paths + Ancestors(appPath);
        var mkData := if data in mkApp.world.paths then Run(mkApp.world, [], Done)
          else Step(mkApp.world, MkdirAll(data));
        var made := Append(mkApp, mkData);
        assert mkData.issued == (if makeData then [MkdirAll(data)] else []);
        if made.status.Done? {
          var clone := Exec(Clone(RepoPath(cfg, app), appPath));
          assert made.issued + [clone] == FirstPush(cfg, app, makeData);
        } else {
          assert made.issued == FirstPush(cfg, app, makeData)[..2];
        }
      }
    }
  }

  lemma CheckoutShape(cfg: SC.ServerConfig, app: string, w: World, rev: string)
    ensures var r := CheckoutRun(cfg, app, w, rev);
      && Framed(w, r) && r.world.paths == w.paths
      && r.issued <= Checkouts(GitDir(cfg, app), [rev])
      && (r.status.Done? ==> r.issued == Checkouts(GitDir(cfg, app), [rev]))
      && (r.status.Failed? ==> FaultedLast(w, r))
  {
    CheckoutsSingle(GitDir(cfg, app), rev);
  }

  /** What acting on one push event does: a prefix of its plan, all of it
      when it succeeds, and a failure that names the refused step. */
  lemma EventShape(cfg: SC.ServerConfig, app: string, w: World, ev: PushEvent)
    ensures var r := EventRun(cfg, app, w, ev);
      && Framed(w, r)
      && r.issued <= EventPlan(cfg, app, w, ev.newRev)
      && (r.status.Done? ==> r.issued == EventPlan(cfg, app, w, ev.newRev))
      && (r.status.Done? ==> AppPath(cfg, app) in r.world.paths)
      && (AppPath(cfg, app) in w.paths ==> r.world.paths == w.paths)
      && (r.status.Failed? ==> FaultedLast(w, r))
  {
    EventFramed(cfg, app, w, ev);
    EventFollowsPlan(cfg, app, w, ev);
  }

  /** The frame half of `EventShape`. */
  lemma EventFramed(cfg: SC.ServerConfig, app: string, w: World, ev: PushEvent)
    ensures var r := EventRun(cfg, app, w, ev);
      && Framed(w, r)
      && (r.status.Done? ==> AppPath(cfg, app) in r.world.paths)
      && (AppPath(cfg, app) in w.paths ==> r.world.paths == w.paths)
  {
    var tree := WorkTreeRun(cfg, app, w);
    WorkTreeShape(cfg, app, w);
    if tree.status.Done? {
      CheckoutShape(cfg, app, tree.world, ev.newRev);
    }
  }

  /** The plan half of `EventShape`. */
  lemma EventFollowsPlan(cfg: SC.ServerConfig, app: string, w: World, ev: PushEvent)
    ensures var r := EventRun(cfg, app, w, ev);
      && r.issued <= EventPlan(cfg, app, w, ev.newRev)
      && (r.status.Done? ==> r.issued == EventPlan(cfg, app, w, ev.newRev))
      && (r.status.Failed? ==> FaultedLast(w, r))
  {
    var tree := WorkTreeRun(cfg, app, w);
    WorkTreeShape(cfg, app, w);
    var plan := FirstPush(cfg, app, DataPath(cfg, app) !in w.paths + Ancestors(AppPath(cfg, app)));
    var treePlan := if AppPath(cfg, app) in w.paths then [] else plan;
    var checkouts := Checkouts(GitDir(cfg, app), [ev.newRev]);
    assert EventPlan(cfg, app, w, ev.newRev) == treePlan + checkouts;
    if tree.status.Done? {
      var checkout := CheckoutRun(cfg, app, tree.world, ev.newRev);
      CheckoutShape(cfg, app, tree.world, ev.newRev);
      assert tree.issued == treePlan;
      PrefixConcat(treePlan, checkout.issued, checkouts);
      if checkout.status.Failed? {
        var issued := tree.issued + checkout.issued;
        assert issued[|issued| - 1] == checkout.issued[|checkout.issued| - 1];
      }
    } else {
      PrefixConcat([], tree.issued, treePlan);
      PrefixConcat(tree.issued, [], checkouts);
      assert tree.issued + [] == tree.issued;
    }
  }

  /** The plan of one push event: one reset to its revision, at most one
      clone, only this app's steps, and the data directory only on the
      first push when it is missing. */
  lemma PlanFacts(cfg: SC.ServerConfig, app: string, w: World, rev: string)
    ensures var plan := EventPlan(cfg, app, w, rev);
      && Resets(plan) == [rev]
      && Clones(plan) <= (if AppPath(cfg, app) in w.paths then 0 else 1)
      && (forall i :: 0 <= i < |plan| ==> HookEffect(cfg, app, plan[i]))
      && (MkdirAll(DataPath(cfg, app)) in plan ==>
            AppPath(cfg, app) !in w.paths && DataPath(cfg, app) !in w.paths)
  {
    var g := GitDir(cfg, app);
    var first := if AppPath(cfg, app) in w.paths then []
      else FirstPush(cfg, app, DataPath(cfg, app) !in w.paths + Ancestors(AppPath(cfg, app)));
    var checkouts := Checkouts(g, [rev]);
    CheckoutsSingle(g, rev);
    ResetsConcat([Exec(Fetch(g))], [Exec(ResetHard(g, rev))]);
    ClonesConcat([Exec(Fetch(g))], [Exec(ResetHard(g, rev))]);
    if AppPath(cfg, app) !in w.paths {
      var makeData := DataPath(cfg, app) !in w.paths + Ancestors(AppPath(cfg, app));
      var data := if makeData then [MkdirAll(DataPath(cfg, app))] else [];
      var clone := [Exec(Clone(RepoPath(cfg, app), AppPath(cfg, app)))];
      ResetsConcat([MkdirAll(AppPath(cfg, app))], data);
      ResetsConcat([MkdirAll(AppPath(cfg, app))] + data, clone);
      ClonesConcat([MkdirAll(AppPath(cfg, app))], data);
      ClonesConcat([MkdirAll(AppPath(cfg, app))] + data, clone);
    }
    ResetsConcat(first, checkouts);
    ClonesConcat(first, checkouts);
  }

  lemma ConfinedPrefix(cfg: SC.ServerConfig, app: string, a: seq<Effect>, b: seq<Effect>)
    requires a <= b
    requires forall i :: 0 <= i < |b| ==> HookEffect(cfg, app, b[i])
    ensures forall i :: 0 <= i < |a| ==> HookEffect(cfg, app, a[i])
    ensures MkdirAll(DataPath(cfg, app)) in a ==> MkdirAll(DataPath(cfg, app)) in b
  {
    assert forall i :: 0 <= i < |a| ==> a[i] == b[i];
  }

  /** The per-line facts the hook lemmas use, read off the plan. */
  lemma EventFacts(cfg: SC.ServerConfig, app: string, w: World, ev: PushEvent)
    ensures var r := EventRun(cfg, app, w, ev);
      && Resets(r.issued) <= [ev.newRev]
      && (r.status.Done? ==> Resets(r.issued) == [ev.newRev])
      && Clones(r.issued) <= (if AppPath(cfg, app) in w.paths then 0 else 1)
      && (forall i :: 0 <= i < |r.issued| ==> HookEffect(cfg, app, r.issued[i]))
      && (MkdirAll(DataPath(cfg, app)) in r.issued ==>
            AppPath(cfg, app) !in w.paths && DataPath(cfg, app) !in w.paths)
  {
    var r := EventRun(cfg, app, w, ev);
    var plan := EventPlan(cfg, app, w, ev.newRev);
    EventShape(cfg, app, w, ev);
    PlanFacts(cfg, app, w, ev.newRev);
    ResetsPrefix(r.issued, plan);
    ClonesPrefix(r.issued, plan);
    ConfinedPrefix(cfg, app, r.issued, plan);
  }

  // ---------------------------------------------------------------------
  // One hook line

  /** The steps one hook line asks for when nothing fails. */
  function LinePlan(cfg: SC.ServerConfig, app: string, w: World, line: Line): seq<Effect>
  {
    if line.Line? && HookFields(line.text).Some? then EventPlan(cfg, app, w, HookFields(line.text).value.newRev)
    else []
  }

  lemma {:induction false} CheckoutsConcat(g: Path, a: seq<string>, b: seq<string>)
    ensures Checkouts(g, a + b) == Checkouts(g, a) + Checkouts(g, b)
    decreases |a|
  {
    if |a| > 0 {
      assert (a + b)[1..] == a[1..] + b;
      CheckoutsConcat(g, a[1..], b);
    } else {
      assert a + b == b;
    }
  }

  /** On an existing working tree a line plans only its checkout. */
  lemma LinePlanOnExistingTree(cfg: SC.ServerConfig, app: string, w: World, line: Line)
    requires AppPath(cfg, app) in w.paths
    ensures LinePlan(cfg, app, w, line) == Checkouts(GitDir(cfg, app), LineRevisions(line))
  {
    if line.Line? && HookFields(line.text).Some? {
      var rev := HookFields(line.text).value.newRev;
      assert [] + Checkouts(GitDir(cfg, app), [rev]) == Checkouts(GitDir(cfg, app), [rev]);
    }
  }

  /** What one hook line does: nothing for a malformed line, a read
      failure for an unreadable one, a prefix of its plan otherwise. */
  lemma LineShape(cfg: SC.ServerConfig, app: string, w: World, line: Line)
    ensures var r := LineRun(cfg, app, w, line);
      && Framed(w, r)
      && r.issued <= LinePlan(cfg, app, w, line)
      && (r.status.Done? ==> r.issued == LinePlan(cfg, app, w, line))
      && (line.Unreadable? ==> r == Run(w, [], Failed(ReadFailed)))
      && (r.status.Failed? ==> line.Unreadable? || FaultedLast(w, r))
      && (AppPath(cfg, app) in w.paths ==> r.world.paths == w.paths)
      && (r.status.Done? && LineRevisions(line) != [] ==> AppPath(cfg, app) in r.world.paths)
  {
    match line
    case Unreadable =>
    case Line(text) =>
      match HookFields(text)
      case None =>
      case Some(ev) => EventShape(cfg, app, w, ev);
  }

  /** The per-line facts behind the hook lemmas. */
  lemma LineFacts(cfg: SC.ServerConfig, app: string, w: World, line: Line)
    ensures var r := LineRun(cfg, app, w, line);
      && Resets(r.issued) <= LineRevisions(line)
      && (r.status.Done? ==> Resets(r.issued) == LineRevisions(line))
      && Clones(r.issued) <= (if AppPath(cfg, app) in w.paths then 0 else 1)
      && (forall i :: 0 <= i < |r.issued| ==> HookEffect(cfg, app, r.issued[i]))
      && (MkdirAll(DataPath(cfg, app)) in r.issued ==>
            AppPath(cfg, app) !in w.paths && DataPath(cfg, app) !in w.paths)
  {
    match line
    case Unreadable =>
    case Line(text) =>
      match HookFields(text)
      case None =>
      case Some(ev) => EventFacts(cfg, app, w, ev);
  }

  // ---------------------------------------------------------------------
  // The hook loop

  /** The hook asks only for directories and commands and changes no file;
      paths it has created stay. */
  lemma {:induction false} HookFramed(cfg: SC.ServerConfig, app: string, w: World, lines: seq<Line>)
    ensures Framed(w, HookRun(cfg, app, w, lines))
    decreases |lines|
  {
    if |lines| > 0 {
      var first := LineRun(cfg, app, w, lines[0]);
      LineShape(cfg, app, w, lines[0]);
      if first.status.Done? {
        HookFramed(cfg, app, first.world, lines[1..]);
      }
    }
  }

  /** Malformed lines are skipped: the hook does on `lines` exactly what it
      does on the well-formed and unreadable lines alone. */
  lemma {:induction false} HookSkipsMalformed(cfg: SC.ServerConfig, app: string, w: World, lines: seq<Line>)
    ensures HookRun(cfg, app, w, lines) == HookRun(cfg, app, w, WellFormed(lines))
    decreases |lines|
  {
    if |lines| > 0 {
      var first := LineRun(cfg, app, w, lines[0]);
      var rest := WellFormed(lines[1..]);
      HookSkipsMalformed(cfg, app, first.world, lines[1..]);
      if lines[0].Line? && HookFields(lines[0].text).None? {
        assert HookRun(cfg, app, w, lines).issued == [] + HookRun(cfg, app, w, lines[1..]).issued;
      } else {
        assert WellFormed(lines) == [lines[0]] + rest;
        assert WellFormed(lines)[1..] == rest;
      }
    }
  }

  /** The hard resets follow the input: one per well-formed line, to its
      second field, in input order. A failure cuts the list short. */
  lemma {:induction false} HookResetsFollowInput(cfg: SC.ServerConfig, app: string, w: World, lines: seq<Line>)
    ensures Resets(HookRun(cfg, app, w, lines).issued) <= Revisions(lines)
    ensures HookRun(cfg, app, w, lines).status.Done? ==>
      Resets(HookRun(cfg, app, w, lines).issued) == Revisions(lines)
    decreases |lines|
  {
    if |lines| > 0 {
      var first := LineRun(cfg, app, w, lines[0]);
      LineShape(cfg, app, w, lines[0]);
      LineFacts(cfg, app, w, lines[0]);
      if first.status.Done? {
        var rest := HookRun(cfg, app, first.world, lines[1..]);
        HookResetsFollowInput(cfg, app, first.world, lines[1..]);
        ResetsConcat(first.issued, rest.issued);
        PrefixConcat(LineRevisions(lines[0]), Resets(rest.issued), Revisions(lines[1..]));
      } else if !lines[0].Unreadable? {
        PrefixConcat(Resets(first.issued), [], Revisions(lines[1..]));
        assert Resets(first.issued) + [] == Resets(first.issued);
      }
    }
  }

  /** One invocation clones at most once, and not at all when the working
      tree already exists. */
  lemma {:induction false} HookClonesAtMostOnce(cfg: SC.ServerConfig, app: string, w: World, lines: seq<Line>)
    ensures Clones(HookRun(cfg, app, w, lines).issued) <= (if AppPath(cfg, app) in w.paths then 0 else 1)
    decreases |lines|
  {
    if |lines| > 0 {
      var first := LineRun(cfg, app, w, lines[0]);
      LineShape(cfg, app, w, lines[0]);
      LineFacts(cfg, app, w, lines[0]);
      if first.status.Done? {
        var rest := HookRun(cfg, app, first.world, lines[1..]);
        HookClonesAtMostOnce(cfg, app, first.world, lines[1..]);
        ClonesConcat(first.issued, rest.issued);
        if Clones(first.issued) > 0 {
          assert LineRevisions(lines[0]) != [];
        }
      }
    }
  }

  /** Every step the hook asks for concerns this app alone, and the data
      directory is created only on the first push, and only when missing. */
  lemma {:induction false} HookEffectsConfined(cfg: SC.ServerConfig, app: string, w: World, lines: seq<Line>)
    ensures var r := HookRun(cfg, app, w, lines);
      forall i :: 0 <= i < |r.issued| ==> HookEffect(cfg, app, r.issued[i])
    ensures MkdirAll(DataPath(cfg, app)) in HookRun(cfg, app, w, lines).issued ==>
      AppPath(cfg, app) !in w.paths && DataPath(cfg, app) !in w.paths
    decreases |lines|
  {
    if |lines| > 0 {
      var first := LineRun(cfg, app, w, lines[0]);
      HookRunFirst(cfg, app, w, lines);
      LineShape(cfg, app, w, lines[0]);
      LineFacts(cfg, app, w, lines[0]);
      if first.status.Done? {
        var rest := HookRun(cfg, app, first.world, lines[1..]);
        HookEffectsConfined(cfg, app, first.world, lines[1..]);
        ConfinedConcat(cfg, app, first.issued, rest.issued);
      }
    }
  }

  lemma ConfinedConcat(cfg: SC.ServerConfig, app: string, a: seq<Effect>, b: seq<Effect>)
    requires forall i :: 0 <= i < |a| ==> HookEffect(cfg, app, a[i])
    requires forall i :: 0 <= i < |b| ==> HookEffect(cfg, app, b[i])
    ensures forall i :: 0 <= i < |a + b| ==> HookEffect(cfg, app, (a + b)[i])
    ensures MkdirAll(DataPath(cfg, app)) in a + b ==>
      MkdirAll(DataPath(cfg, app)) in a || MkdirAll(DataPath(cfg, app)) in b
  {
    forall i | 0 <= i < |a + b|
      ensures HookEffect(cfg, app, (a + b)[i])
    {
      if i >= |a| {
        assert (a + b)[i] == b[i - |a|];
      }
    }
  }

  /** On an existing working tree the hook changes no path, and a
      successful run is exactly a fetch and a hard reset per well-formed
      line, in order. */
  lemma {:induction false} HookOnExistingTree(cfg: SC.ServerConfig, app: string, w: World, lines: seq<Line>)
    requires AppPath(cfg, app) in w.paths
    ensures HookRun(cfg, app, w, lines).world.paths == w.paths
    ensures HookRun(cfg, app, w, lines).status.Done? ==>
      HookRun(cfg, app, w, lines).issued == Checkouts(GitDir(cfg, app), Revisions(lines))
    decreases |lines|
  {
    if |lines| > 0 {
      var first := LineRun(cfg, app, w, lines[0]);
      LineShape(cfg, app, w, lines[0]);
      LinePlanOnExistingTree(cfg, app, w, lines[0]);
      if first.status.Done? {
        HookOnExistingTree(cfg, app, first.world, lines[1..]);
        CheckoutsConcat(GitDir(cfg, app), LineRevisions(lines[0]), Revisions(lines[1..]));
      }
    }
  }

  /** On a first push (no working tree yet) a successful run asks for the
      first-push steps once, before the first well-formed line's checkout,
      then a fetch and a hard reset per well-formed line, in order; so it
      clones exactly once when some line is well formed. */
  lemma HookFirstPush(cfg: SC.ServerConfig, app: string, w: World, lines: seq<Line>)
    requires AppPath(cfg, app) !in w.paths
    ensures var r := HookRun(cfg, app, w, lines);
      r.status.Done? ==>
        r.issued == (if Revisions(lines) == [] then []
                     else FirstPush(cfg, app, DataPath(cfg, app) !in w.paths + Ancestors(AppPath(cfg, app))))
                    + Checkouts(GitDir(cfg, app), Revisions(lines))
    ensures var r := HookRun(cfg, app, w, lines);
      r.status.Done? && Revisions(lines) != [] ==> Clones(r.issued) == 1
  {
    var r := HookRun(cfg, app, w, lines);
    var g := GitDir(cfg, app);
    var makeData := DataPath(cfg, app) !in w.paths + Ancestors(AppPath(cfg, app));
    FirstPushIssued(cfg, app, w, lines, FirstPush(cfg, app, makeData));
    if r.status.Done? && Revisions(lines) != [] {
      ClonesConcat(FirstPush(cfg, app, makeData), Checkouts(g, Revisions(lines)));
      FirstPushClonesOnce(cfg, app, makeData);
      CheckoutsCloneFree(g, Revisions(lines));
    }
  }

  /** The induction behind `HookFirstPush`. */
  lemma {:induction false} FirstPushIssued(cfg: SC.ServerConfig, app: string, w: World, lines: seq<Line>, push: seq<Effect>)
    requires AppPath(cfg, app) !in w.paths
    requires push == FirstPush(cfg, app, DataPath(cfg, app) !in w.paths + Ancestors(AppPath(cfg, app)))
    ensures var r := HookRun(cfg, app, w, lines);
      r.status.Done? ==>
        r.issued == (if Revisions(lines) == [] then [] else push) + Checkouts(GitDir(cfg, app), Revisions(lines))
    decreases |lines|
  {
    var g := GitDir(cfg, app);
    if |lines| == 0 {
      assert [] + Checkouts(g, []) == [];
    } else {
      var first := LineRun(cfg, app, w, lines[0]);
      var rest := HookRun(cfg, app, first.world, lines[1..]);
      var revs := Revisions(lines[1..]);
      if first.status.Done? {
        assert HookRun(cfg, app, w, lines) == Append(first, rest);
        if LineRevisions(lines[0]) == [] {
          assert first == Run(w, [], Done);
          FirstPushIssued(cfg, app, w, lines[1..], push);
          assert Revisions(lines) == revs;
          assert [] + rest.issued == rest.issued;
        } else {
          WellFormedFirstPush(cfg, app, w, lines, push);
        }
      }
    }
  }

  /** A well-formed first line on a first push: the first-push steps and
      its checkout, then the checkouts of the later lines on the tree it
      made. */
  lemma WellFormedFirstPush(cfg: SC.ServerConfig, app: string, w: World, lines: seq<Line>, push: seq<Effect>)
    requires AppPath(cfg, app) !in w.paths
    requires push == FirstPush(cfg, app, DataPath(cfg, app) !in w.paths + Ancestors(AppPath(cfg, app)))
    requires |lines| > 0 && LineRevisions(lines[0]) != []
    ensures Revisions(lines) != []
    ensures var r := HookRun(cfg, app, w, lines);
      r.status.Done? ==> r.issued == push + Checkouts(GitDir(cfg, app), Revisions(lines))
  {
    var g := GitDir(cfg, app);
    var first := LineRun(cfg, app, w, lines[0]);
    var rest := HookRun(cfg, app, first.world, lines[1..]);
    var revs := Revisions(lines[1..]);
    var mine := Checkouts(g, LineRevisions(lines[0]));
    HookRunFirst(cfg, app, w, lines);
    assert Revisions(lines) == LineRevisions(lines[0]) + revs;
    assert Checkouts(g, Revisions(lines)) == mine + Checkouts(g, revs) by {
      CheckoutsConcat(g, LineRevisions(lines[0]), revs);
    }
    if first.status.Done? {
      assert first.issued == push + mine && AppPath(cfg, app) in first.world.paths by {
        FirstLineOnMissingTree(cfg, app, w, lines[0]);
      }
      assert rest.status.Done? ==> rest.issued == Checkouts(g, revs) by {
        HookOnExistingTree(cfg, app, first.world, lines[1..]);
      }
      assert HookRun(cfg, app, w, lines) == Append(first, rest);
      if rest.status.Done? {
        ConcatAssociates(push, mine, Checkouts(g, revs));
      }
    } else {
      assert HookRun(cfg, app, w, lines) == first;
    }
  }

  /** A well-formed line on a missing working tree asks, on success, for
      the first-push steps and its checkout, and leaves the tree in place. */
  lemma FirstLineOnMissingTree(cfg: SC.ServerConfig, app: string, w: World, line: Line)
    requires AppPath(cfg, app) !in w.paths
    requires LineRevisions(line) != []
    ensures var r := LineRun(cfg, app, w, line);
      r.status.Done? ==>
        && r.issued == FirstPush(cfg, app, DataPath(cfg, app) !in w.paths + Ancestors(AppPath(cfg, app)))
                       + Checkouts(GitDir(cfg, app), LineRevisions(line))
        && AppPath(cfg, app) in r.world.paths
  {
    var ev := HookFields(line.text).value;
    assert LineRun(cfg, app, w, line) == EventRun(cfg, app, w, ev);
    EventShape(cfg, app, w, ev);
  }

  /** The first-push steps hold exactly one clone. */
  lemma FirstPushClonesOnce(cfg: SC.ServerConfig, app: string, makeData: bool)
    ensures Clones(FirstPush(cfg, app, makeData)) == 1
  {
    var data := if makeData then [MkdirAll(DataPath(cfg, app))] else [];
    var clone := [Exec(Clone(RepoPath(cfg, app), AppPath(cfg, app)))];
    ClonesConcat([MkdirAll(AppPath(cfg, app))], data);
    ClonesConcat([MkdirAll(AppPath(cfg, app))] + data, clone);
  }

  /** Fetches and hard resets hold no clone. */
  lemma {:induction false} CheckoutsCloneFree(g: Path, revs: seq<string>)
    ensures Clones(Checkouts(g, revs)) == 0
    decreases |revs|
  {
    if |revs| > 0 {
      var pair := [Exec(Fetch(g)), Exec(ResetHard(g, revs[0]))];
      CheckoutsCloneFree(g, revs[1..]);
      ClonesConcat(pair, Checkouts(g, revs[1..]));
      assert pair[1..][1..] == [];
    }
  }

  /** The invocation stops at the first failure, and the failure names it:
      either a line could not be read, or it is the last step asked for and
      the machine refused it. */
  lemma {:induction false} HookStopsAtFirstFailure(cfg: SC.ServerConfig, app: string, w: World, lines: seq<Line>)
    ensures var r := HookRun(cfg, app, w, lines);
      r.status.Failed? ==>
        (r.status.failure == ReadFailed && Unreadable in lines) || FaultedLast(w, r)
    decreases |lines|
  {
    if |lines| > 0 {
      var first := LineRun(cfg, app, w, lines[0]);
      HookRunFirst(cfg, app, w, lines);
      LineShape(cfg, app, w, lines[0]);
      if first.status.Done? {
        var rest := HookRun(cfg, app, first.world, lines[1..]);
        HookStopsAtFirstFailure(cfg, app, first.world, lines[1..]);
        if rest.status.Failed? && !(rest.status.failure == ReadFailed && Unreadable in lines[1..]) {
          FaultedLastAfter(w, first, rest);
        }
        assert Unreadable in lines[1..] ==> Unreadable in lines;
      } else if lines[0].Unreadable? {
        assert lines[0] in lines;
      }
    }
  }

  /** A run that failed on its last step still did after another run. */
  lemma FaultedLastAfter(w: World, first: Run, rest: Run)
    requires Framed(w, first) && first.status.Done?
    requires FaultedLast(first.world, rest)
    ensures FaultedLast(w, Append(first, rest))
  {
    var issued := first.issued + rest.issued;
    assert issued[|issued| - 1] == rest.issued[|rest.issued| - 1];
  }

  /** With no faults and every line readable, the hook succeeds. */
  lemma HookSucceedsWithoutFaults(cfg: SC.ServerConfig, app: string, w: World, lines: seq<Line>)
    requires w.faults == {} && Unreadable !in lines
    ensures HookRun(cfg, app, w, lines).status == Done
  {
    HookStopsAtFirstFailure(cfg, app, w, lines);
  }
}
