/**
 * What the handlers and one whole invocation promise: which adapter calls
 * happen, in which order and on which platform, how errors flow into the
 * handler's `err`, the log and the exit status, and what is printed.
 */
module Properties {
  import opened Detection
  import opened Adapters
  import opened Trace
  import opened Handlers
  import opened Cli

  // ------------------------------------------------------------ adapter calls per handler

  /** The Joomla listing calls ListUsers once, with the session's connection and prefix. */
  lemma JoomlaListingCalls(s: JoomlaSession, ad: AdapterSet)
    ensures Calls(JoomlaListing(s, ad)) == [ListJoomlaUsers(s.db, s.defaultPrefix)]
  {
    var prints := [Print(JoomlaDbName(s.config.dbName)), Print(JoomlaDbUser(s.config.user)),
                   Print(JoomlaPrefixes(s.defaultPrefix))];
    var head := prints + [Call(ListJoomlaUsers(s.db, s.defaultPrefix))];
    NoCallEvents(prints);
    CallsAppend(prints, [Call(ListJoomlaUsers(s.db, s.defaultPrefix))]);
    match ad.listJoomlaUsers(s.db, s.defaultPrefix)
    case Failure(e) =>
      var failure := [Log(LogLine(ListUsersFailed, s.defaultPrefix, e)), Print(ListUsersError(s.defaultPrefix, e))];
      assert JoomlaListing(s, ad) == head + failure;
      NoCallEvents(failure);
      CallsAppend(head, failure);
    case Success(users) =>
      assert JoomlaListing(s, ad) == head + ([Print(UsersHeading(s.defaultPrefix))] + UserRows(users));
      CallsAppend(head, [Print(UsersHeading(s.defaultPrefix))] + UserRows(users));
      CallsAppend([Print(UsersHeading(s.defaultPrefix))], UserRows(users));
      UserRowsMakeNoCalls(users);
  }

  /** `users list` calls ProcessWordPress, or ProcessJoomla and then ListUsers only when
      ProcessJoomla succeeded, with the connection and prefix it returned. */
  lemma UsersListCalls(cmsPath: string, fs: FileSystem, ad: AdapterSet)
    ensures var ops := Calls(UsersListTrace(cmsPath, fs, ad).events);
            match DetectCms(fs, cmsPath)
            case Undetected => ops == []
            case WordPress => ops == [ProcessWordPress(cmsPath)]
            case Joomla =>
              match ad.processJoomla(cmsPath)
              case Failure(_) => ops == [ProcessJoomla(cmsPath)]
              case Success(s) => ops == [ProcessJoomla(cmsPath), ListJoomlaUsers(s.db, s.defaultPrefix)]
  {
    var t := DetectCms(fs, cmsPath);
    var h := UsersListTrace(cmsPath, fs, ad);
    if t == WordPress {
      var log := ErrorLog(ProcessingFailed, t.Name(), StatusError(ad.processWordPress(cmsPath)));
      assert h.events == [Call(ProcessWordPress(cmsPath))] + log;
      NoCallEvents(log);
      CallsAppend([Call(ProcessWordPress(cmsPath))], log);
    } else if t == Joomla {
      var setup := ad.processJoomla(cmsPath);
      var err := if setup.Failure? then Some(setup.error) else None;
      var listing := if setup.Success? then JoomlaListing(setup.value, ad) else [];
      var log := ErrorLog(ProcessingFailed, t.Name(), err);
      assert h.events == ([Call(ProcessJoomla(cmsPath))] + listing) + log;
      NoCallEvents(log);
      CallsAppend([Call(ProcessJoomla(cmsPath))] + listing, log);
      CallsAppend([Call(ProcessJoomla(cmsPath))], listing);
      if setup.Success? {
        JoomlaListingCalls(setup.value, ad);
      }
    }
  }

  /** `users edit` calls the WordPress editor directly, or ProcessJoomla and then the Joomla
      editor only when ProcessJoomla succeeded. The user name is passed on unchanged, even empty. */
  lemma UsersEditCalls(username: string, cmsPath: string, fs: FileSystem, ad: AdapterSet)
    ensures var ops := Calls(UsersEditTrace(username, cmsPath, fs, ad).events);
            match DetectCms(fs, cmsPath)
            case Undetected => ops == []
            case WordPress => ops == [EditWordPressUser(cmsPath, username)]
            case Joomla =>
              match ad.processJoomla(cmsPath)
              case Failure(_) => ops == [ProcessJoomla(cmsPath)]
              case Success(s) =>
                ops == [ProcessJoomla(cmsPath), EditJoomlaUser(s.db, s.defaultPrefix, cmsPath, username)]
  {
    var t := DetectCms(fs, cmsPath);
    if t == WordPress {
      var err := StatusError(ad.editWordPressUser(cmsPath, username));
      CallsAppend([Call(EditWordPressUser(cmsPath, username))], ErrorLog(EditFailed, t.Name(), err));
    } else if t == Joomla {
      match ad.processJoomla(cmsPath)
      case Failure(e) =>
        assert Calls([Log(LogLine(EditFailed, t.Name(), e))]) == [];
      case Success(s) =>
        var err := StatusError(ad.editJoomlaUser(s.db, s.defaultPrefix, cmsPath, username));
        var calls := [Call(ProcessJoomla(cmsPath)), Call(EditJoomlaUser(s.db, s.defaultPrefix, cmsPath, username))];
        CallsAppend(calls, ErrorLog(EditFailed, t.Name(), err));
    }
  }

  /** `info db` calls exactly the ShowInfo of the detected platform. */
  lemma InfoDbCalls(cmsPath: string, fs: FileSystem, ad: AdapterSet)
    ensures var ops := Calls(InfoDbTrace(cmsPath, fs, ad).events);
            match DetectCms(fs, cmsPath)
            case Undetected => ops == []
            case WordPress => ops == [ShowWordPressInfo(cmsPath)]
            case Joomla => ops == [ShowJoomlaInfo(cmsPath)]
  {
    var t := DetectCms(fs, cmsPath);
    if t != Undetected {
      var op := if t == WordPress then ShowWordPressInfo(cmsPath) else ShowJoomlaInfo(cmsPath);
      var err := StatusError(if t == WordPress then ad.showWordPressInfo(cmsPath) else ad.showJoomlaInfo(cmsPath));
      CallsAppend([Call(op)], ErrorLog(InfoFailed, t.Name(), err));
    }
  }

  /** `info version` calls exactly the GetVersion of the detected platform. */
  lemma InfoVersionCalls(cmsPath: string, fs: FileSystem, ad: AdapterSet)
    ensures var ops := Calls(InfoVersionTrace(cmsPath, fs, ad).events);
            match DetectCms(fs, cmsPath)
            case Undetected => ops == []
            case WordPress => ops == [GetWordPressVersion(cmsPath)]
            case Joomla => ops == [GetJoomlaVersion(cmsPath)]
  {
    var h := InfoVersionTrace(cmsPath, fs, ad);
    if DetectCms(fs, cmsPath) != Undetected {
      assert h.events == [h.events[0]] + h.events[1..];
      NoCallEvents(h.events[1..]);
      CallsAppend([h.events[0]], h.events[1..]);
    }
  }

  // ------------------------------------------------------------ error flow inside the handlers

  /** Joomla `users list`: when ProcessJoomla fails ListUsers is not called and the
      handler's error is ProcessJoomla's. */
  lemma ListSetupFailureShortCircuits(cmsPath: string, fs: FileSystem, ad: AdapterSet)
    requires DetectCms(fs, cmsPath) == Joomla && ad.processJoomla(cmsPath).Failure?
    ensures var h := UsersListTrace(cmsPath, fs, ad);
            && h.err == Some(ad.processJoomla(cmsPath).error)
            && Calls(h.events) == [ProcessJoomla(cmsPath)]
  {
    UsersListCalls(cmsPath, fs, ad);
  }

  /** Joomla `users edit`: when ProcessJoomla fails the Joomla editor is not called and the
      handler's error is ProcessJoomla's. */
  lemma EditSetupFailureShortCircuits(username: string, cmsPath: string, fs: FileSystem, ad: AdapterSet)
    requires DetectCms(fs, cmsPath) == Joomla && ad.processJoomla(cmsPath).Failure?
    ensures var h := UsersEditTrace(username, cmsPath, fs, ad);
            && h.err == Some(ad.processJoomla(cmsPath).error)
            && Calls(h.events) == [ProcessJoomla(cmsPath)]
  {
    UsersEditCalls(username, cmsPath, fs, ad);
  }

  /** Joomla `users list`: a ListUsers failure is logged and printed with its prefix, but
      the handler's error stays nil, so no "Error processing" line follows. */
  lemma ListUsersFailureLeavesErrNil(cmsPath: string, fs: FileSystem, ad: AdapterSet)
    requires DetectCms(fs, cmsPath) == Joomla && ad.processJoomla(cmsPath).Success?
    requires var s := ad.processJoomla(cmsPath).value;
             ad.listJoomlaUsers(s.db, s.defaultPrefix).Failure?
    ensures var s := ad.processJoomla(cmsPath).value;
            var e := ad.listJoomlaUsers(s.db, s.defaultPrefix).error;
            var h := UsersListTrace(cmsPath, fs, ad);
            && h.err == None
            && Log(LogLine(ListUsersFailed, s.defaultPrefix, e)) in h.events
            && Print(ListUsersError(s.defaultPrefix, e)) in h.events
            && (forall i :: 0 <= i < |h.events| && h.events[i].Log? ==> h.events[i].line.kind == ListUsersFailed)
  {
    var s := ad.processJoomla(cmsPath).value;
    var e := ad.listJoomlaUsers(s.db, s.defaultPrefix).error;
    var h := UsersListTrace(cmsPath, fs, ad);
    assert h.events == [Call(ProcessJoomla(cmsPath)), Print(JoomlaDbName(s.config.dbName)),
                        Print(JoomlaDbUser(s.config.user)), Print(JoomlaPrefixes(s.defaultPrefix)),
                        Call(ListJoomlaUsers(s.db, s.defaultPrefix)),
                        Log(LogLine(ListUsersFailed, s.defaultPrefix, e)), Print(ListUsersError(s.defaultPrefix, e))];
  }

  /** Joomla `users list`: when ListUsers succeeds, the heading with the prefix is followed by
      one line per user, in the adapter's order, and nothing else. */
  lemma UsersListShowsEveryUser(cmsPath: string, fs: FileSystem, ad: AdapterSet)
    requires DetectCms(fs, cmsPath) == Joomla && ad.processJoomla(cmsPath).Success?
    requires var s := ad.processJoomla(cmsPath).value;
             ad.listJoomlaUsers(s.db, s.defaultPrefix).Success?
    ensures var s := ad.processJoomla(cmsPath).value;
            var users := ad.listJoomlaUsers(s.db, s.defaultPrefix).value;
            var h := UsersListTrace(cmsPath, fs, ad);
            && h.err == None
            && |h.events| == 6 + |users|
            && h.events[5] == Print(UsersHeading(s.defaultPrefix))
            && h.events[6..] == UserRows(users)
  {
    var s := ad.processJoomla(cmsPath).value;
    var users := ad.listJoomlaUsers(s.db, s.defaultPrefix).value;
    var h := UsersListTrace(cmsPath, fs, ad);
    var listing := JoomlaListing(s, ad);
    var head := [Print(JoomlaDbName(s.config.dbName)), Print(JoomlaDbUser(s.config.user)),
                 Print(JoomlaPrefixes(s.defaultPrefix)), Call(ListJoomlaUsers(s.db, s.defaultPrefix)),
                 Print(UsersHeading(s.defaultPrefix))];
    assert listing == head + UserRows(users);
    assert h.events == [Call(ProcessJoomla(cmsPath))] + listing;
  }

  /** The log kind each handler uses for its `err`. */
  function HandlerLogKind(cmd: Command): LogKind
    requires !cmd.UsersInfo?
  {
    match cmd
    case UsersList => ProcessingFailed
    case UsersEdit(_) => EditFailed
    case InfoDb => InfoFailed
    case InfoVersion => VersionFailed
  }

  /** Every handler logs its `err`, qualified by the platform name, as its last event, and
      logs nothing of that kind when `err` is nil. */
  lemma HandlerErrorIsLoggedLast(cmd: Command, cmsPath: string, fs: FileSystem, ad: AdapterSet)
    requires ArgsAccepted(cmd) && !cmd.UsersInfo?
    ensures var h := RunTrace(cmd, cmsPath, fs, ad);
            && (h.err.Some? ==>
                  h.events[|h.events| - 1]
                    == Log(LogLine(HandlerLogKind(cmd), DetectCms(fs, cmsPath).Name(), h.err.value)))
            && (h.err.None? ==>
                  forall i :: 0 <= i < |h.events| && h.events[i].Log? ==>
                    h.events[i].line.kind != HandlerLogKind(cmd))
  {
    var h := RunTrace(cmd, cmsPath, fs, ad);
    var t := DetectCms(fs, cmsPath);
    match cmd
    case UsersList =>
      assert h == UsersListTrace(cmsPath, fs, ad);
      if t == Joomla && ad.processJoomla(cmsPath).Success? {
        var s := ad.processJoomla(cmsPath).value;
        if ad.listJoomlaUsers(s.db, s.defaultPrefix).Success? {
          UsersListShowsEveryUser(cmsPath, fs, ad);
        } else {
          ListUsersFailureLeavesErrNil(cmsPath, fs, ad);
        }
      }
    case UsersEdit(args) =>
      assert h == UsersEditTrace(args[0], cmsPath, fs, ad);
    case InfoDb =>
      assert h == InfoDbTrace(cmsPath, fs, ad);
    case InfoVersion =>
      assert h == InfoVersionTrace(cmsPath, fs, ad);
  }

  /** A failing adapter call reaches the handler's `err`, which is what gets logged:
      ProcessWordPress in `users list`, the platform's EditUser in `users edit` (on Joomla
      once ProcessJoomla succeeded), and the platform's ShowInfo in `info db`. */
  lemma AdapterErrorReachesErr(username: string, cmsPath: string, fs: FileSystem, ad: AdapterSet)
    ensures var t := DetectCms(fs, cmsPath);
            && (t == WordPress ==>
                  && UsersListTrace(cmsPath, fs, ad).err == StatusError(ad.processWordPress(cmsPath))
                  && UsersEditTrace(username, cmsPath, fs, ad).err
                       == StatusError(ad.editWordPressUser(cmsPath, username))
                  && InfoDbTrace(cmsPath, fs, ad).err == StatusError(ad.showWordPressInfo(cmsPath)))
            && (t == Joomla ==>
                  && InfoDbTrace(cmsPath, fs, ad).err == StatusError(ad.showJoomlaInfo(cmsPath))
                  && (ad.processJoomla(cmsPath).Success? ==>
                        var s := ad.processJoomla(cmsPath).value;
                        UsersEditTrace(username, cmsPath, fs, ad).err
                          == StatusError(ad.editJoomlaUser(s.db, s.defaultPrefix, cmsPath, username))))
  {
  }

  /** `info version`: the version line is printed exactly when GetVersion succeeded, with the
      version it returned, and a Release line only on Joomla, even when the release is empty. */
  lemma VersionOutputRules(cmsPath: string, fs: FileSystem, ad: AdapterSet)
    requires DetectCms(fs, cmsPath) != Undetected
    ensures var t := DetectCms(fs, cmsPath);
            var h := InfoVersionTrace(cmsPath, fs, ad);
            && (h.err.Some? <==> (if t == WordPress then ad.wordPressVersion(cmsPath).Failure?
                                  else ad.joomlaVersion(cmsPath).Failure?))
            && (PrintsVersion(h.events) <==> h.err.None?)
            && (PrintsRelease(h.events) <==> t == Joomla && h.err.None?)
            && (t == WordPress ==>
                  match ad.wordPressVersion(cmsPath)
                  case Failure(e) => h.err == Some(e)
                  case Success(v) => Print(VersionLine(t.Name(), v)) in h.events)
            && (t == Joomla ==>
                  match ad.joomlaVersion(cmsPath)
                  case Failure(e) => h.err == Some(e)
                  case Success(jv) =>
                    && Print(VersionLine(t.Name(), jv.version)) in h.events
                    && Print(ReleaseLine(jv.release)) in h.events)
  {
    var t := DetectCms(fs, cmsPath);
    var h := InfoVersionTrace(cmsPath, fs, ad);
    if h.err.None? {
      assert h.events[1].Print? && h.events[1].output.VersionLine?;
      if t == Joomla {
        assert h.events[2].Print? && h.events[2].output.ReleaseLine?;
      }
    }
  }

  // ------------------------------------------------------------ one whole invocation

  /** Once a platform is detected, no handler reaches `log.Fatal`; nor does `users info`. */
  lemma DetectedRunHasNoFatal(cmd: Command, cmsPath: string, fs: FileSystem, ad: AdapterSet)
    requires ArgsAccepted(cmd) && (cmd.UsersInfo? || DetectCms(fs, cmsPath) != Undetected)
    ensures !HasFatal(RunTrace(cmd, cmsPath, fs, ad).events)
  {
    var h := RunTrace(cmd, cmsPath, fs, ad);
    var t := DetectCms(fs, cmsPath);
    if cmd.UsersList? && t == Joomla {
      match ad.processJoomla(cmsPath)
      case Failure(e) =>
        assert h.events == [Call(ProcessJoomla(cmsPath)), Log(LogLine(ProcessingFailed, t.Name(), e))];
      case Success(s) =>
        var head := [Call(ProcessJoomla(cmsPath)), Print(JoomlaDbName(s.config.dbName)),
                     Print(JoomlaDbUser(s.config.user)), Print(JoomlaPrefixes(s.defaultPrefix)),
                     Call(ListJoomlaUsers(s.db, s.defaultPrefix))];
        match ad.listJoomlaUsers(s.db, s.defaultPrefix)
        case Failure(e) =>
          assert h.events == head + [Log(LogLine(ListUsersFailed, s.defaultPrefix, e)),
                                     Print(ListUsersError(s.defaultPrefix, e))];
        case Success(users) =>
          UsersListShowsEveryUser(cmsPath, fs, ad);
          forall i | 0 <= i < |h.events| ensures !h.events[i].Fatal? {
            if i >= 6 { assert h.events[i] == UserRows(users)[i - 6]; }
          }
    }
  }

  /** The shape of every handler's trace: `log.Fatal` happens only for an undetected
      platform, before any adapter call, and never for `users info`. */
  lemma RunTraceFatal(cmd: Command, cmsPath: string, fs: FileSystem, ad: AdapterSet)
    requires ArgsAccepted(cmd)
    ensures var h := RunTrace(cmd, cmsPath, fs, ad);
            && FatalIsLast(h.events)
            && (HasFatal(h.events) <==> !cmd.UsersInfo? && DetectCms(fs, cmsPath) == Undetected)
            && (HasFatal(h.events) ==> h.events == [Fatal(Undetectable)])
  {
    var h := RunTrace(cmd, cmsPath, fs, ad);
    if cmd.UsersInfo? || DetectCms(fs, cmsPath) != Undetected {
      DetectedRunHasNoFatal(cmd, cmsPath, fs, ad);
    } else {
      assert h.events == [Fatal(Undetectable)];
      assert h.events[0].Fatal?;
    }
  }

  /** The process exits with failure exactly when the trace holds a `log.Fatal`, which is its last event. */
  lemma ExitFailsExactlyOnFatal(cmd: Command, cmsPath: string, fs: FileSystem, ad: AdapterSet)
    ensures var inv := ExecuteTrace(cmd, cmsPath, fs, ad);
            && FatalIsLast(inv.events)
            && (inv.exit == ExitFailure <==> HasFatal(inv.events))
  {
    var inv := ExecuteTrace(cmd, cmsPath, fs, ad);
    if ArgsAccepted(cmd) && PreRunCheck(fs, cmsPath).None? {
      RunTraceFatal(cmd, cmsPath, fs, ad);
    } else {
      assert inv.events[0].Fatal?;
    }
  }

  /** `users edit` without exactly one argument stops before the path guard and detection. */
  lemma EditNeedsOneArgument(args: seq<string>, cmsPath: string, fs: FileSystem, ad: AdapterSet)
    requires |args| != 1
    ensures ExecuteTrace(UsersEdit(args), cmsPath, fs, ad) == Invocation([Fatal(ArgCount(|args|))], ExitFailure)
  {
  }

  /** A non-empty `--path` that does not exist stops the run before detection; this is the
      only way the path error arises, so an empty path always passes. */
  lemma PathGuardFailsExactly(cmd: Command, cmsPath: string, fs: FileSystem, ad: AdapterSet)
    requires ArgsAccepted(cmd)
    ensures var inv := ExecuteTrace(cmd, cmsPath, fs, ad);
            && (Fatal(PathMissing(cmsPath)) in inv.events <==> cmsPath != "" && Stat(fs, Root(cmsPath)) == NotExist)
            && (cmsPath != "" && Stat(fs, Root(cmsPath)) == NotExist ==>
                  inv == Invocation([Fatal(PathMissing(cmsPath))], ExitFailure))
  {
    var inv := ExecuteTrace(cmd, cmsPath, fs, ad);
    if PreRunCheck(fs, cmsPath).None? {
      RunTraceFatal(cmd, cmsPath, fs, ad);
    }
  }

  /** With no marker found, every command but `users info` ends in `log.Fatal` before any adapter call. */
  lemma UndetectedIsFatalBeforeAnyCall(cmd: Command, cmsPath: string, fs: FileSystem, ad: AdapterSet)
    requires ArgsAccepted(cmd) && PreRunCheck(fs, cmsPath).None?
    requires !cmd.UsersInfo? && DetectCms(fs, cmsPath) == Undetected
    ensures ExecuteTrace(cmd, cmsPath, fs, ad) == Invocation([Fatal(Undetectable)], ExitFailure)
    ensures Calls(ExecuteTrace(cmd, cmsPath, fs, ad).events) == []
  {
    RunTraceFatal(cmd, cmsPath, fs, ad);
  }

  /** `users info` prints the not-implemented line whatever the markers and adapters are. */
  lemma UsersInfoIgnoresPlatform(cmsPath: string, fs: FileSystem, ad: AdapterSet)
    requires PreRunCheck(fs, cmsPath).None?
    ensures ExecuteTrace(UsersInfo, cmsPath, fs, ad) == Invocation([Print(NotImplemented)], ExitOk)
  {
  }

  /** Every adapter call a handler makes belongs to the detected platform. */
  lemma RunCallsFollowDetectedPlatform(cmd: Command, cmsPath: string, fs: FileSystem, ad: AdapterSet)
    requires ArgsAccepted(cmd)
    ensures forall op :: op in Calls(RunTrace(cmd, cmsPath, fs, ad).events) ==>
              op.Platform() == DetectCms(fs, cmsPath)
  {
    match cmd
    case UsersList => UsersListCalls(cmsPath, fs, ad);
    case UsersInfo =>
      assert RunTrace(cmd, cmsPath, fs, ad).events == [Print(NotImplemented)];
    case UsersEdit(args) => UsersEditCalls(args[0], cmsPath, fs, ad);
    case InfoDb => InfoDbCalls(cmsPath, fs, ad);
    case InfoVersion => InfoVersionCalls(cmsPath, fs, ad);
  }

  /** Every adapter call of an invocation belongs to the detected platform. */
  lemma CallsFollowDetectedPlatform(cmd: Command, cmsPath: string, fs: FileSystem, ad: AdapterSet)
    ensures forall op :: op in Calls(ExecuteTrace(cmd, cmsPath, fs, ad).events) ==>
              op.Platform() == DetectCms(fs, cmsPath)
  {
    var inv := ExecuteTrace(cmd, cmsPath, fs, ad);
    if ArgsAccepted(cmd) && PreRunCheck(fs, cmsPath).None? {
      assert inv.events == RunTrace(cmd, cmsPath, fs, ad).events;
      RunCallsFollowDetectedPlatform(cmd, cmsPath, fs, ad);
    } else {
      assert inv.events[0].Fatal? && |inv.events| == 1;
      NoCallEvents(inv.events);
    }
  }

  /** The adapter operation each (command, platform) pair starts with. */
  function EntryOp(cmd: Command, t: CmsType, cmsPath: string): Op
    requires ArgsAccepted(cmd) && !cmd.UsersInfo? && t != Undetected
  {
    match cmd
    case UsersList => if t == WordPress then ProcessWordPress(cmsPath) else ProcessJoomla(cmsPath)
    case UsersEdit(args) => if t == WordPress then EditWordPressUser(cmsPath, args[0]) else ProcessJoomla(cmsPath)
    case InfoDb => if t == WordPress then ShowWordPressInfo(cmsPath) else ShowJoomlaInfo(cmsPath)
    case InfoVersion => if t == WordPress then GetWordPressVersion(cmsPath) else GetJoomlaVersion(cmsPath)
  }

  /** Dispatch is total: with a detected platform each command starts with its one entry
      operation, at most one more call follows, and the process exits normally whatever the
      adapters return (adapter errors are only logged). */
  lemma DispatchIsTotal(cmd: Command, cmsPath: string, fs: FileSystem, ad: AdapterSet)
    requires ArgsAccepted(cmd) && PreRunCheck(fs, cmsPath).None?
    requires !cmd.UsersInfo? && DetectCms(fs, cmsPath) != Undetected
    ensures var inv := ExecuteTrace(cmd, cmsPath, fs, ad);
            var ops := Calls(inv.events);
            && 1 <= |ops| <= 2
            && ops[0] == EntryOp(cmd, DetectCms(fs, cmsPath), cmsPath)
            && !HasFatal(inv.events)
            && inv.exit == ExitOk
  {
    RunTraceFatal(cmd, cmsPath, fs, ad);
    ExitFailsExactlyOnFatal(cmd, cmsPath, fs, ad);
    match cmd
    case UsersList => UsersListCalls(cmsPath, fs, ad);
    case UsersEdit(args) => UsersEditCalls(args[0], cmsPath, fs, ad);
    case InfoDb => InfoDbCalls(cmsPath, fs, ad);
    case InfoVersion => InfoVersionCalls(cmsPath, fs, ad);
  }
}
