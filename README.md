# cmsmgmt: platform detection and command routing

cmsmgmt is a command-line tool that inspects a CMS installation and finds
out whether it is WordPress or Joomla. It then runs one of five commands
against the platform it found: `users list`, `users info`, `users edit
<USERNAME>`, `info db` and `info version`. This project models the decision
layer in `main.go`:

- `detectCMS`, the fixed-priority platform detection (module `Detection`).
- The persistent pre-run guard on `--path` (`Cli.PreRunCheck`).
- The `Run` handler of each leaf command (module `Handlers`).
- One whole invocation (`Cli.Execute`): the argument check, then the guard,
  then the handler, then the exit status.

Abstractions:

- **Filesystem.** `os.Stat` sees the filesystem as a map from paths to one of
  three outcomes: `Exists` (no error), `NotExist` (an error that
  `os.IsNotExist` recognises) and `StatFailed` (any other error). A path the
  map does not list does not exist.
- **Path join.** `filepath.Join(root, name)` is the constructor
  `Joined(root, name)`, so two joins are equal only when both parts are.
- **Adapters.** Each call into the `wordpress` or `joomla` package is an
  uninterpreted function of its arguments (`Adapters.AdapterSet`). It returns
  either a value or an error.
- **Trace.** The observable behaviour is a list of events:
  - an adapter call, with its arguments;
  - a line on standard output;
  - a `log.Printf` line;
  - a `log.Fatal`, which ends the trace with exit status 1.
- **`cmsPath`.** The package-level variable is written once by flag parsing
  (`-p`/`--path`, default `""`) before any handler runs. The model passes it
  as a parameter.

Each handler is a method. It builds its trace step by step, the way the Go
closure assigns `err`, `version` and `rel`. The method is proved equal to a
trace function (`UsersListTrace`, `UsersEditTrace`, ...). The properties are
lemmas about those functions, in module `Properties`.

Behaviour worth noting, modelled as the code has it:

- Detection checks `wp-config.php` first, so a directory holding both markers
  is WordPress.
- A marker whose `os.Stat` fails for any reason counts as absent. The path
  guard, however, rejects only a path that `os.IsNotExist` reports missing.
- The `users info` stub does no detection, but the path guard still runs
  before it.
- An adapter failure is only logged. The handler returns normally and the
  process exits with status 0. Of the cases modelled, only an undetected
  platform, a missing path or a wrong argument count exit with status 1.
- The Joomla `users list` and `users edit` handlers make two adapter calls:
  ProcessJoomla, then ListUsers or EditUser.
- A ListUsers failure is printed and logged, but it does not reach the
  handler's `err`.
- `Release:` is printed for every successful Joomla `info version`, even when
  the release is empty, and never for WordPress.
- `users edit` passes its single argument on unchecked. The empty string is
  accepted.

## Model

| member | source | states |
|---|---|---|
| `Detection.DetectCms` | main.go:194-205 | The result is WordPress exactly when `os.Stat` finds `wp-config.php` under the path without error. It is Joomla exactly when that marker is not found and `configuration.php` is. It is undetected exactly when neither is found. |
| `Detection.CmsType.Name` | main.go:199-204 | The empty string is returned exactly for the undetected result. |
| `Detection.WordPressWinsTies` | main.go:198-200 | When both markers exist, detection answers WordPress. |
| `Detection.FailedStatIsNoMarker` | main.go:198-204 | A WordPress marker whose stat fails with an error other than "not exist", with no Joomla marker, gives the undetected result. |
| `Detection.DetectionReadsOnlyMarkers` | main.go:195-204 | Two filesystems that agree on the two marker paths give the same detection result. |
| `Detection.NameIsInjective` | main.go:54-58 | Distinct platforms have distinct names, so each handler's switch on the name is a switch on the platform. |
| `Cli.PreRunCheck` | main.go:27-34 | The guard fails exactly when `--path` is non-empty and `os.Stat` reports it does not exist. Its error names that path. |
| `Handlers.PrintUsers` | main.go:70-72 | The loop prints one row per user, in the order the adapter returned them. |
| `Handlers.RunUsersList` | main.go:47-81 | The `users list` handler produces exactly the events and final `err` of `UsersListTrace`. The Properties lemmas prove what that trace contains. |
| `Handlers.RunUsersInfo` | main.go:87-89 | The `users info` handler prints only the not-implemented line and sets no error. |
| `Handlers.RunUsersEdit` | main.go:96-119 | Given the single argument cobra guarantees, the `users edit` handler produces exactly the events and final `err` of `UsersEditTrace`. |
| `Handlers.RunInfoDb` | main.go:134-151 | The `info db` handler produces exactly the events and final `err` of `InfoDbTrace`. |
| `Handlers.RunInfoVersion` | main.go:157-180 | The `info version` handler, built from the locals `version`, `rel` and `err`, produces exactly the events and final `err` of `InfoVersionTrace`. |
| `Cli.Execute` | main.go:189-191 | One invocation produces exactly the events and exit status of `ExecuteTrace`. Cobra checks the arguments, then runs the pre-run guard, then the handler. A returned error ends in `log.Fatal`. |
| `Properties.JoomlaListingCalls` | main.go:58-67 | After ProcessJoomla succeeds, `users list` makes exactly one more call: ListUsers, with the connection and default prefix that ProcessJoomla returned. |
| `Properties.UsersListCalls` | main.go:48-76 | `users list` makes these calls: none when the platform is undetected; `[ProcessWordPress(path)]` on WordPress; `[ProcessJoomla(path)]` on Joomla when setup fails; `[ProcessJoomla(path), ListUsers(db, prefix)]` when it succeeds. |
| `Properties.UsersEditCalls` | main.go:98-114 | `users edit` makes these calls: none when the platform is undetected; `[EditUser(path, name)]` on WordPress; `[ProcessJoomla(path)]` on Joomla when setup fails; `[ProcessJoomla(path), EditUser(db, prefix, path, name)]` when it succeeds. The name is passed unchanged. |
| `Properties.InfoDbCalls` | main.go:135-146 | `info db` calls exactly the detected platform's ShowInfo, and nothing when the platform is undetected. |
| `Properties.InfoVersionCalls` | main.go:158-170 | `info version` calls exactly the detected platform's GetVersion, and nothing when the platform is undetected. |
| `Properties.ListSetupFailureShortCircuits` | main.go:58-75 | On Joomla, when ProcessJoomla fails, `users list` calls nothing else and its `err` is ProcessJoomla's error. |
| `Properties.EditSetupFailureShortCircuits` | main.go:108-113 | On Joomla, when ProcessJoomla fails, `users edit` calls nothing else and its `err` is ProcessJoomla's error. |
| `Properties.ListUsersFailureLeavesErrNil` | main.go:64-80 | When ListUsers fails, the failure is logged and printed with its prefix. `err` stays nil, and no other kind of log line is written. |
| `Properties.UsersListShowsEveryUser` | main.go:64-72 | When ListUsers succeeds, the trace ends with the heading naming the prefix, then one row per user, in order. `err` is nil. |
| `Properties.HandlerErrorIsLoggedLast` | main.go:78-80 | A non-nil `err` is logged as the handler's last event, with its kind and the platform name. With a nil `err`, no line of that kind is logged. The same holds for the edit, db and version handlers (lines 116-118, 148-150, 172-173). |
| `Properties.AdapterErrorReachesErr` | main.go:53-146 | The handler's `err` is the error of the adapter call it depends on: ProcessWordPress in `users list` (line 56); the platform's EditUser in `users edit` (lines 106, 110), on Joomla once ProcessJoomla succeeded; the platform's ShowInfo in `info db` (lines 143, 145). No failure is dropped before the log line. |
| `Properties.VersionOutputRules` | main.go:163-179 | `err` is set exactly when the platform's GetVersion fails, and then holds its error. The version line is printed exactly when `err` is nil, and it shows the platform name and the version GetVersion returned. A Release line is printed exactly on Joomla with a nil `err`, and it shows the returned release. |
| `Properties.DetectedRunHasNoFatal` | main.go:48-51 | Once a platform is detected, no handler reaches `log.Fatal`. Neither does `users info`. |
| `Properties.RunTraceFatal` | main.go:48-51 | A handler reaches `log.Fatal` exactly when it is not `users info` and the platform is undetected. Its trace is then that single fatal event. |
| `Properties.ExitFailsExactlyOnFatal` | main.go:189-191 | The exit status is failure exactly when the trace holds a `log.Fatal`, and that event is always the last one. |
| `Properties.EditNeedsOneArgument` | main.go:95 | `users edit` without exactly one argument fails with the argument count before the guard or detection runs. |
| `Properties.PathGuardFailsExactly` | main.go:27-34 | The path error appears exactly when `--path` is non-empty and missing. The run then stops with only that fatal event, so an empty path always passes. |
| `Properties.UndetectedIsFatalBeforeAnyCall` | main.go:48-51 | With no marker found, every command except `users info` ends in `log.Fatal` before any adapter call. |
| `Properties.UsersInfoIgnoresPlatform` | main.go:87-89 | Once the guard passes, `users info` prints the not-implemented line and exits normally, whatever the markers and adapters are. |
| `Properties.RunCallsFollowDetectedPlatform` | main.go:53-170 | Every adapter call a handler makes belongs to the detected platform. |
| `Properties.CallsFollowDetectedPlatform` | main.go:27-191 | Every adapter call in a whole invocation belongs to the detected platform. |
| `Properties.DispatchIsTotal` | main.go:53-170 | With a detected platform, each command except `users info` first calls its one entry operation and makes at most one more call. The process exits normally whatever the adapters return. |

## Left out

- Cobra's command tree, help and usage output, `--version`, and the parent commands run without a subcommand (main.go:21-25, 39-42, 122-129, 183-187). The model keeps only the effect: the chosen command, its arguments and `cmsPath`. Cobra's own printing of a returned error is not modelled; that error appears only as the final `log.Fatal` event.
- Errors cobra itself returns from `rootCmd.Execute()`, such as an unknown flag or an unknown command (main.go:189-191). They also end in `log.Fatal` with status 1, but the model starts from a command cobra has already selected, so it does not cover flag parsing or command lookup.
- Cli.Execute: the order "argument check, then persistent pre-run" is cobra's. It is not in `main.go`.
- The real `os.Stat` and `filepath.Join` semantics: path cleaning, and joining onto `""` to give a path relative to the working directory. Joins are modelled as an injective constructor.
- The internals of the `wordpress` and `joomla` packages: configuration parsing, database access, user editing and version lookup. Each call's outcome is a deterministic function of its arguments. No operation is called twice in one run, so this loses nothing.
- Output text: the format strings of `fmt.Printf` and `log.Printf`, and log timestamps. Each line is modelled as an event holding the values it shows.
- `log.Fatal` mechanics beyond ending the trace with exit status 1.
- Handlers.RunUsersEdit: requires exactly one argument, which is what `cobra.ExactArgs(1)` guarantees before the handler runs. Cli.Execute models the failing case.
