/**
 * The Run handlers of the five leaf commands (main.go: listCmd, userInfoCmd,
 * editCmd, dbCmd, versionCmd). Each handler is a method that builds its trace
 * step by step, as the Go closure assigns `err`, `version` and `rel`; each is
 * proved equal to a trace function, and the properties of the handlers are
 * proved about those functions (module Properties).
 *
 * The package-level `cmsPath`, written once by flag parsing before any
 * handler runs, is passed as a parameter.
 */
module Handlers {
  import opened Detection
  import opened Adapters
  import opened Trace

  /** What a handler leaves behind: its events, and what its local `err` holds at the end. */
  datatype Handled = Handled(events: seq<Event>, err: Option<Error>)

  const UndetectedExit := Handled([Fatal(Undetectable)], None)

  // ---------------------------------------------------------------- users list

  /** The Joomla branch of `users list` once ProcessJoomla has succeeded. */
  function JoomlaListing(s: JoomlaSession, ad: AdapterSet): seq<Event>
  {
    [ Print(JoomlaDbName(s.config.dbName)),
      Print(JoomlaDbUser(s.config.user)),
      Print(JoomlaPrefixes(s.defaultPrefix)),
      Call(ListJoomlaUsers(s.db, s.defaultPrefix)) ]
    + (match ad.listJoomlaUsers(s.db, s.defaultPrefix)
       case Failure(e) =>
         [Log(LogLine(ListUsersFailed, s.defaultPrefix, e)), Print(ListUsersError(s.defaultPrefix, e))]
       case Success(users) =>
         [Print(UsersHeading(s.defaultPrefix))] + UserRows(users))
  }

  /** The loop that prints one line per listed user. */
  method PrintUsers(users: seq<User>) returns (rows: seq<Event>)
    ensures rows == UserRows(users)
  {
    rows := [];
    for i := 0 to |users|
      invariant rows == UserRows(users[..i])
    {
      assert users[..i + 1] == users[..i] + [users[i]];
      UserRowsSnoc(users[..i], users[i]);
      rows := rows + [Print(UserRow(users[i]))];
    }
    assert users[..|users|] == users;
  }

  function UsersListTrace(cmsPath: string, fs: FileSystem, ad: AdapterSet): Handled
  {
    var cmsType := DetectCms(fs, cmsPath);
    if cmsType == Undetected then UndetectedExit
    else if cmsType == WordPress then
      var err := StatusError(ad.processWordPress(cmsPath));
      Handled([Call(ProcessWordPress(cmsPath))] + ErrorLog(ProcessingFailed, cmsType.Name(), err), err)
    else
      var setup := ad.processJoomla(cmsPath);
      // err = err2: a ListUsers failure never reaches `err`
      var err := if setup.Failure? then Some(setup.error) else None;
      var listing := if setup.Success? then JoomlaListing(setup.value, ad) else [];
      Handled([Call(ProcessJoomla(cmsPath))] + listing + ErrorLog(ProcessingFailed, cmsType.Name(), err), err)
  }

  method RunUsersList(cmsPath: string, fs: FileSystem, ad: AdapterSet) returns (events: seq<Event>, err: Option<Error>)
    ensures Handled(events, err) == UsersListTrace(cmsPath, fs, ad)
  {
    var cmsType := DetectCms(fs, cmsPath);
    if cmsType == Undetected {
      return [Fatal(Undetectable)], None;
    }
    events, err := [], None;
    if cmsType == WordPress {
      events := events + [Call(ProcessWordPress(cmsPath))];
      err := StatusError(ad.processWordPress(cmsPath));
    } else if cmsType == Joomla {
      events := events + [Call(ProcessJoomla(cmsPath))];
      var setup := ad.processJoomla(cmsPath);
      if setup.Success? {
        var session := setup.value;
        var prefix := session.defaultPrefix;
        events := events + [Print(JoomlaDbName(session.config.dbName)),
                            Print(JoomlaDbUser(session.config.user)),
                            Print(JoomlaPrefixes(prefix))];
        events := events + [Call(ListJoomlaUsers(session.db, prefix))];
        var listed := ad.listJoomlaUsers(session.db, prefix);
        if listed.Failure? {
          events := events + [Log(LogLine(ListUsersFailed, prefix, listed.error)),
                              Print(ListUsersError(prefix, listed.error))];
        } else {
          var rows := PrintUsers(listed.value);
          events := events + [Print(UsersHeading(prefix))] + rows;
        }
        assert events == [Call(ProcessJoomla(cmsPath))] + JoomlaListing(session, ad);
      }
      err := if setup.Failure? then Some(setup.error) else None;
    }
    if err.Some? {
      events := events + [Log(LogLine(ProcessingFailed, cmsType.Name(), err.value))];
    }
  }

  // ---------------------------------------------------------------- users info

  function UsersInfoTrace(): Handled
  {
    Handled([Print(NotImplemented)], None)
  }

  /** `users info` is a stub: it neither detects the platform nor calls an adapter. */
  method RunUsersInfo() returns (events: seq<Event>)
    ensures Handled(events, None) == UsersInfoTrace()
  {
    events := [Print(NotImplemented)];
  }

  // ---------------------------------------------------------------- users edit

  function UsersEditTrace(username: string, cmsPath: string, fs: FileSystem, ad: AdapterSet): Handled
  {
    var cmsType := DetectCms(fs, cmsPath);
    if cmsType == Undetected then UndetectedExit
    else if cmsType == WordPress then
      var err := StatusError(ad.editWordPressUser(cmsPath, username));
      Handled([Call(EditWordPressUser(cmsPath, username))] + ErrorLog(EditFailed, cmsType.Name(), err), err)
    else
      match ad.processJoomla(cmsPath)
      case Failure(e) =>
        Handled([Call(ProcessJoomla(cmsPath)), Log(LogLine(EditFailed, cmsType.Name(), e))], Some(e))
      case Success(s) =>
        var err := StatusError(ad.editJoomlaUser(s.db, s.defaultPrefix, cmsPath, username));
        Handled([Call(ProcessJoomla(cmsPath)), Call(EditJoomlaUser(s.db, s.defaultPrefix, cmsPath, username))]
                + ErrorLog(EditFailed, cmsType.Name(), err), err)
  }

  /** `users edit`: cobra.ExactArgs(1) guarantees the single argument, which is passed on unchecked. */
  method RunUsersEdit(args: seq<string>, cmsPath: string, fs: FileSystem, ad: AdapterSet)
    returns (events: seq<Event>, err: Option<Error>)
    requires |args| == 1
    ensures Handled(events, err) == UsersEditTrace(args[0], cmsPath, fs, ad)
  {
    var username := args[0];
    var cmsType := DetectCms(fs, cmsPath);
    if cmsType == Undetected {
      return [Fatal(Undetectable)], None;
    }
    events, err := [], None;
    if cmsType == WordPress {
      events := events + [Call(EditWordPressUser(cmsPath, username))];
      err := StatusError(ad.editWordPressUser(cmsPath, username));
    } else if cmsType == Joomla {
      events := events + [Call(ProcessJoomla(cmsPath))];
      var setup := ad.processJoomla(cmsPath);
      if setup.Success? {
        var session := setup.value;
        events := events + [Call(EditJoomlaUser(session.db, session.defaultPrefix, cmsPath, username))];
        err := StatusError(ad.editJoomlaUser(session.db, session.defaultPrefix, cmsPath, username));
      } else {
        err := Some(setup.error);
      }
    }
    if err.Some? {
      events := events + [Log(LogLine(EditFailed, cmsType.Name(), err.value))];
    }
  }

  // ---------------------------------------------------------------- info db

  function InfoDbTrace(cmsPath: string, fs: FileSystem, ad: AdapterSet): Handled
  {
    var cmsType := DetectCms(fs, cmsPath);
    if cmsType == Undetected then UndetectedExit
    else
      var op := if cmsType == WordPress then ShowWordPressInfo(cmsPath) else ShowJoomlaInfo(cmsPath);
      var err := StatusError(if cmsType == WordPress then ad.showWordPressInfo(cmsPath) else ad.showJoomlaInfo(cmsPath));
      Handled([Call(op)] + ErrorLog(InfoFailed, cmsType.Name(), err), err)
  }

  method RunInfoDb(cmsPath: string, fs: FileSystem, ad: AdapterSet) returns (events: seq<Event>, err: Option<Error>)
    ensures Handled(events, err) == InfoDbTrace(cmsPath, fs, ad)
  {
    var cmsType := DetectCms(fs, cmsPath);
    if cmsType == Undetected {
      return [Fatal(Undetectable)], None;
    }
    events, err := [], None;
    if cmsType == WordPress {
      events := events + [Call(ShowWordPressInfo(cmsPath))];
      err := StatusError(ad.showWordPressInfo(cmsPath));
    } else if cmsType == Joomla {
      events := events + [Call(ShowJoomlaInfo(cmsPath))];
      err := StatusError(ad.showJoomlaInfo(cmsPath));
    }
    if err.Some? {
      events := events + [Log(LogLine(InfoFailed, cmsType.Name(), err.value))];
    }
  }

  // ---------------------------------------------------------------- info version

  function InfoVersionTrace(cmsPath: string, fs: FileSystem, ad: AdapterSet): Handled
  {
    var cmsType := DetectCms(fs, cmsPath);
    if cmsType == Undetected then UndetectedExit
    else if cmsType == WordPress then
      match ad.wordPressVersion(cmsPath)
      case Failure(e) =>
        Handled([Call(GetWordPressVersion(cmsPath)), Log(LogLine(VersionFailed, cmsType.Name(), e))], Some(e))
      case Success(v) =>
        Handled([Call(GetWordPressVersion(cmsPath)), Print(VersionLine(cmsType.Name(), v))], None)
    else
      match ad.joomlaVersion(cmsPath)
      case Failure(e) =>
        Handled([Call(GetJoomlaVersion(cmsPath)), Log(LogLine(VersionFailed, cmsType.Name(), e))], Some(e))
      case Success(jv) =>
        Handled([Call(GetJoomlaVersion(cmsPath)), Print(VersionLine(cmsType.Name(), jv.version)),
                 Print(ReleaseLine(jv.release))], None)
  }

  method RunInfoVersion(cmsPath: string, fs: FileSystem, ad: AdapterSet) returns (events: seq<Event>, err: Option<Error>)
    ensures Handled(events, err) == InfoVersionTrace(cmsPath, fs, ad)
  {
    var cmsType := DetectCms(fs, cmsPath);
    if cmsType == Undetected {
      return [Fatal(Undetectable)], None;
    }
    events, err := [], None;
    var version, rel := "", "";
    if cmsType == WordPress {
      events := events + [Call(GetWordPressVersion(cmsPath))];
      var r := ad.wordPressVersion(cmsPath);
      if r.Success? { version := r.value; } else { err := Some(r.error); }
    } else if cmsType == Joomla {
      events := events + [Call(GetJoomlaVersion(cmsPath))];
      var r := ad.joomlaVersion(cmsPath);
      if r.Success? { version, rel := r.value.version, r.value.release; } else { err := Some(r.error); }
    }
    if err.Some? {
      events := events + [Log(LogLine(VersionFailed, cmsType.Name(), err.value))];
    } else {
      events := events + [Print(VersionLine(cmsType.Name(), version))];
      if cmsType == Joomla {
        events := events + [Print(ReleaseLine(rel))];
      }
    }
  }
}
