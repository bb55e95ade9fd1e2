# ruku push-to-deploy core, modelled in Dafny

ruku is a single-host push-to-deploy control plane. A developer pushes a
Git branch over SSH. The host's Git gateway hands the pack exchange to
`git-shell`, and on the first push it bootstraps the bare repository and
its `post-receive` hook. For every ref update the hook receives, the hook
entry point makes sure the application's working tree exists and
hard-resets it to the pushed revision. Around this sit a few pure rules:
the per-application manifest (`RukuConfig`) validation, the `name:tag`
image reference, the root-path layout under the home directory, and two
pieces of command-line parsing.

The model has these modules:

- `Paths`: paths as component sequences, `PathBuf::join`, `Path::display`.
- `Strings`: `str::split` on one character, `str::trim` over Unicode
  White_Space, and the lemmas linking `Split` with `JoinWith`.
- `ServerConfig`, `Config`: the two path-layout constructors.
- `Manifest`: the field rules of `RukuConfig` and `validate_port`. The
  operating system's bind probe `is_free` is a function parameter.
- `Misc`: `get_image_name_with_version`.
- `Cli`: the `config:set KEY=VALUE` split and the app-name fallback.
- `Host`: the machine the gateway drives.
  - The state is the set of existing paths, the files with content and
    mode, a step counter and a fault plan.
  - Each file-system call or external command is an `Effect`.
  - Step number k fails when k is in the fault plan, or when the step is
    impossible (a missing file, or a missing parent directory).
  - `Machine` is the same state as an object whose `Perform` updates it
    in place and appends the step to a trace.
- `Git`: the Git gateway.
  - Each operation is a function from a state to a `Run`: the new
    state, the steps asked for, and the status.
  - Each operation is also a method of class `Git` acting on a
    `Machine`. Each method is proved to do exactly what its function
    says: same final state, trace extended by the same steps, same
    status.
  - The `.unwrap()` on `git init` panics. It is modelled as the status
    `Failed(Aborted(step))`.
- `GitProperties`, `ReceiveProperties`: what the gateway guarantees,
  proved over those functions and so over the methods.

## Model

| member | source | states |
|---|---|---|
| ServerConfig.New | src/server_config.rs:12-22 | fails, with "Could not determine home directory", exactly when the home directory is unknown; otherwise `ruku_root` is home/.ruku, `data_root` and `git_root` are .ruku/data and .ruku/repos, `apps_root` is home/apps, `ruku_binary` is /usr/bin/ruku whatever the home, and the roots are pairwise distinct with data and repos under `ruku_root` and apps outside it |
| Config.New | src/config.rs:12-22 | the same layout under the name `app_root`; fails exactly when the home directory is unknown |
| Config.AgreesWithServerConfig | src/config.rs:16-22 | for the same home, both constructors fail together and otherwise agree field by field |
| Manifest.PortInRange | src/model.rs:7-8 | the `range(1024, 65535)` rule on a `u16` holds exactly when the port is at least 1024 |
| Manifest.ValidatePort | src/model.rs:13-18 | an error, "port is already in use", exactly when the probe says the port is not free |
| Manifest.Validate | src/model.rs:5-11 | valid exactly when the port is ≥ 1024, free, and any version has 1 to 20 characters; otherwise one to three field errors, each present exactly when its rule fails, no other error, and none twice |
| Manifest.EmptyVersionRejected | src/model.rs:9-10 | an empty version string is rejected |
| Manifest.LowPortRejected | src/model.rs:7-8 | a port below 1024 is rejected with a `port`/`range` error whatever else holds |
| Misc.ImageNameWithVersion | src/misc.rs:1-7 | the result is the image name, a `:`, then the version or `latest`; its length is the sum of theirs plus one |
| Misc.NoVersionIsLatest | src/misc.rs:2-6 | no version and version `latest` give the same reference |
| Misc.ImageNameSplitsBack | src/misc.rs:6 | for a name without `:`, cutting the reference at its first `:` gives back the name and the tag |
| Cli.ParseConfigSet | src/main.rs:96-107 | accepted exactly when the argument holds one `=`; then the argument is key, `=`, value, with no `=` in either (both may be empty); otherwise the "Invalid format. Use KEY=VALUE" error |
| Cli.ParseConfigSetOfPair | src/main.rs:99-103 | any key and value free of `=` are parsed back from `key=value` |
| Cli.AppName | src/main.rs:83-86 | the configured name when present, else the last component of the current directory; no name for `/`, where the source panics |
| Strings.Trim | src/git.rs:88 | no whitespace is left at either end, and a string without whitespace at its ends is returned unchanged |
| Strings.TrimIsSlice | src/git.rs:88 | what `trim` keeps is one contiguous slice of the input with only whitespace before and after it |
| Strings.Split | src/git.rs:88 | `split` on one character always yields at least one piece |
| Strings.SplitLength | src/main.rs:99 | splitting gives one more piece than the input has separators, so `parts.len() == 2` means exactly one `=` |
| Strings.SplitPiecesFree | src/git.rs:88 | no piece holds the separator |
| Strings.JoinSplit | src/main.rs:99 | the pieces joined with the separator give back the input |
| Strings.SplitJoin | src/git.rs:88 | separator-free pieces are split back out of their join: `Split` inverts `JoinWith` |
| Git.WithOwnerExec | src/git.rs:50-52 | the new mode has the owner-execute bit and every other bit of the old mode |
| Git.Handoff | src/git.rs:56 | the hand-off is the verb, a space, a quote, the app name and a closing quote, position by position |
| Git.HandoffQuotesApp | src/git.rs:56 | for a verb and an app without quotes, cutting the hand-off at quotes gives the verb and a space, the app, and nothing |
| Git.ReceiveCommand | src/git.rs:56 | for an app without quotes, the receive command cut at quotes is `git-receive-pack `, the app, and nothing |
| Git.UploadCommand | src/git.rs:69 | for an app without quotes, the upload command cut at quotes is `git-upload-pack `, the app, and nothing |
| Git.Invocation | src/git.rs:39-43 | a newline-free root, binary and app give a one-line invocation; space-free ones give the words `cat`, `|`, the exported root, the binary, `git-hook`, the app, in that order |
| Git.HookScript | src/git.rs:36-44 | with a newline-free root, binary and app the script is exactly three newline-ended lines: the shebang, the strict-mode line, the invocation |
| Git.HookFields | src/git.rs:88-92 | a line is an event exactly when its trimmed text holds two spaces; the trimmed text is then the three fields joined by single spaces, none of them holding a space (empty fields count) |
| Git.Git.constructor | src/git.rs:17-19 | the gateway keeps the server configuration it is given |
| Git.Git.CmdGitHook | src/git.rs:78-109 | the loop over the input lines ends in the state, trace and status of `HookRun`: lines in order, until the first failure |
| Git.Git.ProcessLine | src/git.rs:87-105 | one input line: a read error fails, a malformed line changes nothing, a well-formed one is acted on (`LineRun`) |
| Git.Git.ProcessEvent | src/git.rs:92-105 | one event: working tree if missing, then checkout (`EventRun`) |
| Git.Git.CloneWorkTree | src/git.rs:94-103 | with the tree missing: create it, create the data directory if missing, clone without checkout (`WorkTreeRun`) |
| Git.Git.CheckoutLatest | src/git.rs:111-119 | fetch, then hard reset to the revision, stopping at a failure (`CheckoutRun`) |
| Git.Git.CmdGitReceivePack | src/git.rs:21-63 | bootstrap exactly when the hook file is missing, then the `git-shell` hand-off (`ReceiveRun`) |
| Git.Git.InstallHook | src/git.rs:26-53 | the bootstrap: the repository half, then the script half (`InstallHookRun`) |
| Git.Git.InitRepo | src/git.rs:28-34 | the hooks directory, then `git init --bare`, whose failure aborts (`InitRepoRun`) |
| Git.Git.InstallScript | src/git.rs:36-52 | write the hook script, then make it executable (`InstallScriptRun`) |
| Git.Git.WriteHook | src/git.rs:46-47 | create the file, then write the script into it (`WriteHookRun`) |
| Git.Git.MakeExecutable | src/git.rs:50-52 | read the mode, then write back the mode with owner-execute (`MakeExecutableRun`) |
| Git.Git.CmdGitUploadPack | src/git.rs:65-76 | the upload hand-off alone (`UploadRun`) |
| GitProperties.HookFieldsOfEvent | src/git.rs:88-92 | three space-free fields joined by single spaces, with no whitespace at the line's ends, are read back as those fields |
| GitProperties.SampleRefUpdate | src/git.rs:88-92 | the line `abc123 def456 refs/heads/main` is the event (abc123, def456, refs/heads/main) |
| GitProperties.SampleThreeWords | src/git.rs:88-92 | the line `only two fields` is an event whose reset target is `two` |
| GitProperties.WorkTreeShape | src/git.rs:94-103 | nothing happens on an existing tree; otherwise a prefix of mkdir app, mkdir data (only when missing) and clone, then all of them with the tree in place; a failure names the refused last step |
| GitProperties.CheckoutShape | src/git.rs:111-116 | a prefix of fetch then reset to the revision, all of it on success; paths and files unchanged |
| GitProperties.EventShape | src/git.rs:92-105 | one event asks for a prefix of its plan (first-push steps if the tree is missing, then fetch and reset), all of it on success; files never change |
| GitProperties.LineShape | src/git.rs:87-105 | one hook line: an unreadable line fails with nothing done, a malformed one does nothing, a well-formed one follows its event's plan |
| GitProperties.HookFramed | src/git.rs:86-106 | the hook changes no file, only adds paths, and counts one step per step asked for |
| GitProperties.HookSkipsMalformed | src/git.rs:88-91 | the hook does on the input exactly what it does on the input without its malformed lines |
| GitProperties.HookResetsFollowInput | src/git.rs:92-116 | the hard resets asked for are a prefix of the second fields of the well-formed lines read before any unreadable one, in input order, and on success all of them |
| GitProperties.HookClonesAtMostOnce | src/git.rs:94-103 | one invocation clones at most once, and never when the working tree already exists |
| GitProperties.HookEffectsConfined | src/git.rs:81-116 | every step concerns this app's tree, data directory or repository; the data directory is created only when both it and the tree were missing |
| GitProperties.HookOnExistingTree | src/git.rs:94-116 | with the tree present no path changes, and a successful run is exactly fetch and reset per well-formed line, in order |
| GitProperties.HookFirstPush | src/git.rs:86-116 | with the working tree missing, a successful run asks, for the first well-formed line only, for mkdir app, mkdir data (only when missing) and the clone, then a fetch and a hard reset per well-formed line in input order; it then clones exactly once |
| GitProperties.HookStopsAtFirstFailure | src/git.rs:86-105 | a failed run either read an unreadable line or ends with the refused step, whose number was in the fault plan |
| GitProperties.HookSucceedsWithoutFaults | src/git.rs:86-108 | with no faults and every line readable, the hook succeeds |
| ReceiveProperties.WithOwnerExecIdempotent | src/git.rs:50-52 | adding owner-execute twice equals adding it once, and a mode that has it stays as it is |
| ReceiveProperties.WriteHookShape | src/git.rs:46-47 | on a new file in an existing directory: a prefix of create then write; on success the file holds the script with the creation mode; a failure names the refused step |
| ReceiveProperties.MakeExecutableShape | src/git.rs:50-52 | a prefix of stat then chmod to the old mode with owner-execute; only that file's mode changes |
| ReceiveProperties.InitRepoShape | src/git.rs:28-34 | a prefix of mkdir hooks then `git init --bare`; on success the hooks directory and its ancestors exist; a failed init is the abort |
| ReceiveProperties.InstallScriptShape | src/git.rs:36-52 | a prefix of create, write, stat, chmod; on success the hook holds the script with owner-execute; only the hook changes |
| ReceiveProperties.InstallShape | src/git.rs:26-53 | the bootstrap asks for a prefix of its six steps, changes only the hook and the directories above it, and a failure names the refused step |
| ReceiveProperties.InstallDone | src/git.rs:26-53 | a finished bootstrap asked for all six steps and leaves the executable script |
| ReceiveProperties.ReceiveWithHookPresent | src/git.rs:24-26 | with the hook file present only the hand-off is asked for, nothing but the step counter changes, and the receive succeeds exactly when that step is not refused |
| ReceiveProperties.ReceiveBootstrap | src/git.rs:24-60 | a successful first receive is the six bootstrap steps then the hand-off, and leaves the script with owner-execute added to the creation mode |
| ReceiveProperties.ReceiveConfined | src/git.rs:24-60 | a receive changes only the hook file and the directories above it, asks for a prefix of its plan, and after success the hook exists |
| ReceiveProperties.ReceiveFailureReported | src/git.rs:28-60 | a failed receive names its last step, which the fault plan refused; only `git init` aborts |
| ReceiveProperties.ReceiveSucceedsWithoutFaults | src/git.rs:24-60 | with no faults the receive side succeeds |
| ReceiveProperties.ReceiveIdempotent | src/git.rs:24-26 | after a successful receive the next one only hands off: the bootstrap runs at most once |
| ReceiveProperties.UploadOnlyHandsOff | src/git.rs:65-76 | upload asks only for `git-upload-pack '<app>'` in the repository root and changes no path or file |

## Left out

- Process execution and the real file system are left out. External commands (`git`, `git-shell`) are steps recorded in order, and the model assumes they change nothing it tracks. In reality `git clone` and `git reset --hard` create directories and write files in the working tree, and `git init` writes files in the repository. So "changes no file" (`GitProperties.HookFramed`) and "files never change" (`GitProperties.EventShape`) hold only for the files the gateway writes itself.
- The fault plan stands in for every way a call can fail. `create_dir_all` is all-or-nothing in the model; the real call may fail after creating some of the directories.
- The hook reads its input from standard input. Here the input is a parameter: the lines, with `Unreadable` standing for a read error.
- `sanitize_app_name` is not part of this model, and its body is not in the source. Every operation takes the name after sanitizing and treats it as one path component.
- `is_free` is an operating-system bind probe. It is a function parameter.
- serde, YAML and envy deserialization, the clap command parser, tokio, Docker, `.env` loading and `Logger` output are left out, because they are foreign libraries or output only.
- src/deploy.rs wraps the nixpacks builder with fixed options, so it is not modelled.
- src/container.rs is an empty stub; there is no container reconciler, so none is modelled.
- `to_str().unwrap()` on paths and `parent().unwrap()` are left out: path components are Dafny strings, so `to_str()` cannot fail, and the hook path always has a parent.
- Manifest.Validate: the validator crate gathers errors per field. The model lists them in declaration order. The contract states which errors are present, that no other error appears and that none appears twice, not their order.
- Points where the model follows the code exactly:
  - The receive side bootstraps when the hook file is missing (src/git.rs:26); it never checks for the bare repository itself.
  - A three-word line such as `only two fields` is a ref update for the code (src/git.rs:88-89), and the hook resets to `two` (`GitProperties.SampleThreeWords`).
- Failure reports differ from the code. The code returns the `io::Error` of the failing call, which does not name the step, and panics when `git init` fails (src/git.rs:34). The model's status names the refused step: `StepFailed`, or `Aborted` for the panic.
