/**
 * One invocation of cmsmgmt (main.go, main): argument validation, the
 * persistent pre-run path guard, the chosen handler, and the exit status.
 * The command tree itself (cobra) is reduced to the command it selects.
 */
module Cli {
  import opened Detection
  import opened Adapters
  import opened Trace
  import opened Handlers

  /** The leaf command cobra selected, with the positional arguments of `users edit`. */
  datatype Command = UsersList | UsersInfo | UsersEdit(args: seq<string>) | InfoDb | InfoVersion

  /** Process exit status: `log.Fatal` exits with status 1; otherwise the process exits normally. */
  datatype ExitStatus = ExitOk | ExitFailure

  datatype Invocation = Invocation(events: seq<Event>, exit: ExitStatus)

  /** The error PersistentPreRunE returns for a `--path` that does not exist. */
  datatype PathError = PathNotFound(path: string)

  /** PersistentPreRunE: a non-empty `--path` must not be reported missing by `os.Stat`;
      an empty one (the working directory) is never checked. */
  function PreRunCheck(fs: FileSystem, cmsPath: string): (r: Option<PathError>)
    ensures r.Some? <==> cmsPath != "" && Stat(fs, Root(cmsPath)) == NotExist
    ensures r.Some? ==> r.value.path == cmsPath
  {
    if cmsPath != "" && Stat(fs, Root(cmsPath)) == NotExist then Some(PathNotFound(cmsPath))
    else None
  }

  /** cobra.ExactArgs(1) on `users edit`; the other commands accept any arguments. */
  predicate ArgsAccepted(cmd: Command)
  {
    cmd.UsersEdit? ==> |cmd.args| == 1
  }

  /** The events of the handler cobra runs for `cmd`. */
  function RunTrace(cmd: Command, cmsPath: string, fs: FileSystem, ad: AdapterSet): Handled
    requires ArgsAccepted(cmd)
  {
    match cmd
    case UsersList => UsersListTrace(cmsPath, fs, ad)
    case UsersInfo => UsersInfoTrace()
    case UsersEdit(args) => UsersEditTrace(args[0], cmsPath, fs, ad)
    case InfoDb => InfoDbTrace(cmsPath, fs, ad)
    case InfoVersion => InfoVersionTrace(cmsPath, fs, ad)
  }

  /** rootCmd.Execute followed by `log.Fatal(err)` on an error: cobra validates the
      arguments, then runs the pre-run guard, then the handler. */
  function ExecuteTrace(cmd: Command, cmsPath: string, fs: FileSystem, ad: AdapterSet): Invocation
  {
    if !ArgsAccepted(cmd) then Invocation([Fatal(ArgCount(|cmd.args|))], ExitFailure)
    else match PreRunCheck(fs, cmsPath)
      case Some(e) => Invocation([Fatal(PathMissing(e.path))], ExitFailure)
      case None =>
        var h := RunTrace(cmd, cmsPath, fs, ad);
        Invocation(h.events, if EndsInFatal(h.events) then ExitFailure else ExitOk)
  }

  method Execute(cmd: Command, cmsPath: string, fs: FileSystem, ad: AdapterSet)
    returns (events: seq<Event>, exit: ExitStatus)
    ensures Invocation(events, exit) == ExecuteTrace(cmd, cmsPath, fs, ad)
  {
    if cmd.UsersEdit? && |cmd.args| != 1 {
      return [Fatal(ArgCount(|cmd.args|))], ExitFailure;
    }
    var guard := PreRunCheck(fs, cmsPath);
    if guard.Some? {
      return [Fatal(PathMissing(guard.value.path))], ExitFailure;
    }
    var err: Option<Error>;
    match cmd {
      case UsersList => events, err := RunUsersList(cmsPath, fs, ad);
      case UsersInfo => events := RunUsersInfo();
      case UsersEdit(args) => events, err := RunUsersEdit(args, cmsPath, fs, ad);
      case InfoDb => events, err := RunInfoDb(cmsPath, fs, ad);
      case InfoVersion => events, err := RunInfoVersion(cmsPath, fs, ad);
    }
    exit := if EndsInFatal(events) then ExitFailure else ExitOk;
  }
}
