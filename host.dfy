/** The machine the control plane runs on, as far as the Git gateway sees
    it: which paths exist, the files it writes (content and permission
    mode), and every step it asks for, in order. Each step may fail; which
    ones do is fixed in advance by `faults`, the set of step numbers at
    which the operating system or a spawned command reports an error. */
module Host {
  import opened Paths

  /** A Unix permission mode as `PermissionsExt::mode` reports it. */
  type Mode = bv32

  datatype File = File(content: string, mode: Mode)

  /** External commands, run through `run_cmd!`. */
  datatype Command =
    | InitBare(cwd: Path, name: string)        // cd cwd; git init --quiet --bare name
    | Clone(repo: Path, dest: Path)            // git clone --quiet --no-checkout repo dest
    | Fetch(gitDir: Path)                      // git --git-dir=gitDir fetch --quiet
    | ResetHard(gitDir: Path, rev: string)     // git --git-dir=gitDir reset --hard rev
    | GitShell(cwd: Path, command: string)     // cd cwd; git-shell -c command

  /** One fallible step: a file-system call or an external command. */
  datatype Effect =
    | MkdirAll(dir: Path)                      // fs::create_dir_all
    | CreateFile(file: Path)                   // File::create
    | WriteAll(file: Path, content: string)    // Write::write_all on that file
    | Stat(file: Path)                         // fs::metadata
    | SetMode(file: Path, mode: Mode)          // fs::set_permissions
    | Exec(cmd: Command)

  /** The machine's state. `clock` counts the steps asked for so far;
      `createMode` is the mode `File::create` gives a new file (0o666 less
      the umask). */
  datatype World = World(
    paths: set<Path>,
    files: map<Path, File>,
    clock: nat,
    faults: set<nat>,
    createMode: Mode)

  /** Every file is an existing path. */
  predicate Valid(w: World)
  {
    w.files.Keys <= w.paths
  }

  /** `p` and every directory above it. */
  function Ancestors(p: Path): set<Path>
  {
    set k | 1 <= k <= |p| :: p[..k]
  }

  /** Steps that fail whatever the fault plan says: creating a file in a
      missing directory, touching a file that does not exist. */
  predicate Possible(w: World, e: Effect)
  {
    match e
    case CreateFile(f) => |f| > 0 && (|f| == 1 || Parent(f) in w.paths)
    case WriteAll(f, _) => f in w.files
    case Stat(f) => f in w.files
    case SetMode(f, _) => f in w.files
    case _ => true
  }

  /** What a successful step changes. External commands change nothing the
      model tracks. */
  function Apply(w: World, e: Effect): World
    requires Possible(w, e)
  {
    match e
    case MkdirAll(d) => w.(paths := w.paths + Ancestors(d))
    case CreateFile(f) =>
      var created := if f in w.files then w.files[f].(content := "") else File("", w.createMode);
      w.(paths := w.paths + {f}, files := w.files[f := created])
    case WriteAll(f, c) => w.(files := w.files[f := w.files[f].(content := c)])
    case Stat(_) => w
    case SetMode(f, m) => w.(files := w.files[f := w.files[f].(mode := m)])
    case Exec(_) => w
  }

  /** Asks for one step: it succeeds unless it is impossible or its number
      is in the fault plan; a failed step changes nothing but the clock. */
  function Attempt(w: World, e: Effect): (r: (World, bool))
    ensures r.0.clock == w.clock + 1
    ensures r.0.faults == w.faults && r.0.createMode == w.createMode
    ensures r.1 <==> w.clock !in w.faults && Possible(w, e)
    ensures w.paths <= r.0.paths
    ensures Valid(w) ==> Valid(r.0)
    ensures !r.1 ==> r.0 == w.(clock := w.clock + 1)
  {
    var ok := w.clock !in w.faults && Possible(w, e);
    if ok then
      ApplyKeeps(w, e);
      (Apply(w, e).(clock := w.clock + 1), ok)
    else
      (w.(clock := w.clock + 1), ok)
  }

  /** A successful step leaves the clock, the fault plan and the creation
      mode alone, removes no path, and keeps every file at an existing path. */
  lemma ApplyKeeps(w: World, e: Effect)
    requires Possible(w, e)
    ensures Apply(w, e).clock == w.clock && Apply(w, e).faults == w.faults
    ensures Apply(w, e).createMode == w.createMode
    ensures w.paths <= Apply(w, e).paths
    ensures Valid(w) ==> Valid(Apply(w, e))
  {
    match e {
      case MkdirAll(d) =>
      case CreateFile(f) =>
      case WriteAll(f, c) =>
        assert Apply(w, e).files.Keys == w.files.Keys;
      case Stat(_) =>
      case SetMode(f, m) =>
        assert Apply(w, e).files.Keys == w.files.Keys;
      case Exec(_) =>
    }
  }

  /** The machine as an object: the Git gateway's methods act on it. */
  class Machine {
    var paths: set<Path>
    var files: map<Path, File>
    /** Every step asked for, failed ones included. */
    var trace: seq<Effect>
    const faults: set<nat>
    const createMode: Mode

    function State(): World
      reads this
    {
      World(paths, files, |trace|, faults, createMode)
    }

    constructor (paths: set<Path>, files: map<Path, File>, faults: set<nat>, createMode: Mode)
      ensures State() == World(paths, files, 0, faults, createMode)
      ensures trace == []
    {
      this.paths := paths;
      this.files := files;
      this.trace := [];
      this.faults := faults;
      this.createMode := createMode;
    }

    method Perform(e: Effect) returns (ok: bool)
      modifies this
      ensures (State(), ok) == Attempt(old(State()), e)
      ensures trace == old(trace) + [e]
    {
      ok := |trace| !in faults && Possible(State(), e);
      if ok {
        match e {
          case MkdirAll(d) =>
            paths := paths + Ancestors(d);
          case CreateFile(f) =>
            var created := if f in files then files[f].(content := "") else File("", createMode);
            paths := paths + {f};
            files := files[f := created];
          case WriteAll(f, c) =>
            files := files[f := files[f].(content := c)];
          case Stat(_) =>
          case SetMode(f, m) =>
            files := files[f := files[f].(mode := m)];
          case Exec(_) =>
        }
      }
      trace := trace + [e];
    }
  }
}
