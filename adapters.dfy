/**
 * The collaborators behind the command handlers: the `wordpress` and `joomla`
 * packages. Their code is not part of this model; each call is an
 * uninterpreted function of its arguments that either succeeds with a value
 * or fails with an error.
 */
module Adapters {
  import opened Detection

  datatype Option<T> = None | Some(value: T)

  /** A Go `error` value; its text is opaque here. */
  datatype Error = Error(message: string)

  /** A call that returns only an `error`. */
  datatype Status = Ok | Failed(error: Error)

  /** A call that returns a value and an `error`. */
  datatype Result<T> = Success(value: T) | Failure(error: Error)

  /** The database connection ProcessJoomla opens, as an opaque token. */
  datatype DbHandle = DbHandle(id: nat)

  datatype JoomlaConfig = JoomlaConfig(dbName: string, user: string)

  /** What ProcessJoomla returns on success: connection, parsed configuration and default table prefix. */
  datatype JoomlaSession = JoomlaSession(db: DbHandle, config: JoomlaConfig, defaultPrefix: string)

  datatype User = User(id: int, username: string, name: string, email: string, roles: seq<string>)

  /** joomla.GetVersion's two values. */
  datatype JoomlaVersion = JoomlaVersion(version: string, release: string)

  /** The outcome of every adapter operation, as a function of the arguments it is called with. */
  datatype AdapterSet = AdapterSet(
    processWordPress: string -> Status,
    editWordPressUser: (string, string) -> Status,
    showWordPressInfo: string -> Status,
    wordPressVersion: string -> Result<string>,
    processJoomla: string -> Result<JoomlaSession>,
    listJoomlaUsers: (DbHandle, string) -> Result<seq<User>>,
    editJoomlaUser: (DbHandle, string, string, string) -> Status,
    showJoomlaInfo: string -> Status,
    joomlaVersion: string -> Result<JoomlaVersion>)

  /** One adapter call, with the arguments it received. */
  datatype Op =
    | ProcessWordPress(path: string)
    | EditWordPressUser(path: string, username: string)
    | ShowWordPressInfo(path: string)
    | GetWordPressVersion(path: string)
    | ProcessJoomla(path: string)
    | ListJoomlaUsers(db: DbHandle, prefix: string)
    | EditJoomlaUser(db: DbHandle, prefix: string, path: string, username: string)
    | ShowJoomlaInfo(path: string)
    | GetJoomlaVersion(path: string)
  {
    /** The package the operation belongs to. */
    function Platform(): (t: CmsType)
      ensures t != Undetected
    {
      match this
      case ProcessWordPress(_) => WordPress
      case EditWordPressUser(_, _) => WordPress
      case ShowWordPressInfo(_) => WordPress
      case GetWordPressVersion(_) => WordPress
      case ProcessJoomla(_) => Joomla
      case ListJoomlaUsers(_, _) => Joomla
      case EditJoomlaUser(_, _, _, _) => Joomla
      case ShowJoomlaInfo(_) => Joomla
      case GetJoomlaVersion(_) => Joomla
    }
  }

  /** The error a call that returns only an `error` leaves in `err`. */
  function StatusError(s: Status): Option<Error>
  {
    match s
    case Ok => None
    case Failed(x) => Some(x)
  }
}
