/**
 * What one invocation of cmsmgmt does that can be observed: adapter calls,
 * lines on standard output, lines logged, and a `log.Fatal` that ends the
 * process. Output text is abstracted to the values it shows.
 */
module Trace {
  import opened Adapters

  /** A line on standard output. */
  datatype Output =
    | NotImplemented                              // `users info`
    | JoomlaDbName(name: string)
    | JoomlaDbUser(dbUser: string)
    | JoomlaPrefixes(prefix: string)
    | ListUsersError(prefix: string, error: Error) // printed copy of a ListUsers failure
    | UsersHeading(prefix: string)
    | UserRow(user: User)
    | VersionLine(cms: string, version: string)
    | ReleaseLine(release: string)

  datatype LogKind = ListUsersFailed | ProcessingFailed | EditFailed | InfoFailed | VersionFailed

  /** A `log.Printf` line: its kind, the platform name or table prefix it names, and the error. */
  datatype LogLine = LogLine(kind: LogKind, subject: string, error: Error)

  /** Why the process stopped through `log.Fatal`. */
  datatype FatalCause =
    | Undetectable          // no marker file found
    | PathMissing(path: string) // the pre-run path guard failed
    | ArgCount(given: nat)  // `users edit` without exactly one argument

  datatype Event = Call(op: Op) | Print(output: Output) | Log(line: LogLine) | Fatal(cause: FatalCause)

  /** The adapter calls of a trace, in order. */
  function Calls(events: seq<Event>): seq<Op>
  {
    if events == [] then []
    else (if events[0].Call? then [events[0].op] else []) + Calls(events[1..])
  }

  /** One output line per user, in the order the adapter returned them. */
  function UserRows(users: seq<User>): (rows: seq<Event>)
    ensures |rows| == |users|
    ensures forall i :: 0 <= i < |users| ==> rows[i] == Print(UserRow(users[i]))
  {
    if users == [] then [] else [Print(UserRow(users[0]))] + UserRows(users[1..])
  }

  /** Adding a user adds its row at the end. */
  lemma UserRowsSnoc(users: seq<User>, u: User)
    ensures UserRows(users + [u]) == UserRows(users) + [Print(UserRow(u))]
  {
    var lhs, rhs := UserRows(users + [u]), UserRows(users) + [Print(UserRow(u))];
    assert |lhs| == |rhs|;
    forall i | 0 <= i < |lhs| ensures lhs[i] == rhs[i] {
      if i < |users| { assert (users + [u])[i] == users[i]; }
    }
  }

  /** The calls of a concatenation are the calls of its parts. */
  lemma {:induction false} CallsAppend(a: seq<Event>, b: seq<Event>)
    ensures Calls(a + b) == Calls(a) + Calls(b)
  {
    if a == [] {
      assert a + b == b;
    } else {
      var head := if a[0].Call? then [a[0].op] else [];
      assert (a + b)[0] == a[0];
      assert (a + b)[1..] == a[1..] + b;
      CallsAppend(a[1..], b);
      calc {
        Calls(a + b);
        head + Calls(a[1..] + b);
        head + (Calls(a[1..]) + Calls(b));
        (head + Calls(a[1..])) + Calls(b);
        Calls(a) + Calls(b);
      }
    }
  }

  /** A trace without Call events has no calls. */
  lemma {:induction false} NoCallEvents(events: seq<Event>)
    requires forall i :: 0 <= i < |events| ==> !events[i].Call?
    ensures Calls(events) == []
  {
    if events != [] {
      NoCallEvents(events[1..]);
    }
  }

  /** Printing users makes no adapter call. */
  lemma UserRowsMakeNoCalls(users: seq<User>)
    ensures Calls(UserRows(users)) == []
  {
    NoCallEvents(UserRows(users));
  }

  predicate HasFatal(events: seq<Event>)
  {
    exists i :: 0 <= i < |events| && events[i].Fatal?
  }

  /** `log.Fatal` exits, so a Fatal event can only be the last one. */
  predicate FatalIsLast(events: seq<Event>)
  {
    forall i :: 0 <= i < |events| && events[i].Fatal? ==> i == |events| - 1
  }

  predicate EndsInFatal(events: seq<Event>)
  {
    |events| > 0 && events[|events| - 1].Fatal?
  }

  predicate PrintsVersion(events: seq<Event>)
  {
    exists i :: 0 <= i < |events| && events[i].Print? && events[i].output.VersionLine?
  }

  predicate PrintsRelease(events: seq<Event>)
  {
    exists i :: 0 <= i < |events| && events[i].Print? && events[i].output.ReleaseLine?
  }

  /** The `log.Printf` line a handler writes when its `err` is set. */
  function ErrorLog(kind: LogKind, subject: string, err: Option<Error>): seq<Event>
  {
    if err.Some? then [Log(LogLine(kind, subject, err.value))] else []
  }
}
