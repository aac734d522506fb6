/**
 * Platform detection of the cmsmgmt command-line tool (main.go, detectCMS).
 *
 * The filesystem is abstracted to what `os.Stat` reports for each path the
 * program asks about. `filepath.Join` is the constructor `Joined`, so two
 * joined paths are equal only when their directory and file name are.
 */
module Detection {

  /** A path the program stats: the `--path` value itself, or a file name joined onto it. */
  datatype Path = Root(dir: string) | Joined(dir: string, name: string)

  /** The three ways `os.Stat` comes back: no error, an error `os.IsNotExist`
      recognises, or any other error (permission denied, I/O failure, ...). */
  datatype StatOutcome = Exists | NotExist | StatFailed

  /** The filesystem as seen through `os.Stat`; a path that is not listed does not exist. */
  datatype FileSystem = FileSystem(entries: map<Path, StatOutcome>)

  function Stat(fs: FileSystem, p: Path): StatOutcome
  {
    if p in fs.entries then fs.entries[p] else NotExist
  }

  /** Marker file of a WordPress installation. */
  const WordPressMarker: string := "wp-config.php"

  /** Marker file of a Joomla installation. */
  const JoomlaMarker: string := "configuration.php"

  /** A marker counts only when `os.Stat` on it returns no error at all. */
  predicate HasMarker(fs: FileSystem, cmsPath: string, marker: string)
  {
    Stat(fs, Joined(cmsPath, marker)) == Exists
  }

  /** The result of detectCMS; `Name` is the string the program uses for it. */
  datatype CmsType = WordPress | Joomla | Undetected
  {
    function Name(): (s: string)
      ensures s == "" <==> this == Undetected
    {
      match this
      case WordPress => "wordpress"
      case Joomla => "joomla"
      case Undetected => ""
    }
  }

  /** detectCMS: WordPress is checked first, so it wins when both markers are present. */
  function DetectCms(fs: FileSystem, cmsPath: string): (t: CmsType)
    ensures t == WordPress <==> HasMarker(fs, cmsPath, WordPressMarker)
    ensures t == Joomla <==>
              !HasMarker(fs, cmsPath, WordPressMarker) && HasMarker(fs, cmsPath, JoomlaMarker)
    ensures t == Undetected <==>
              !HasMarker(fs, cmsPath, WordPressMarker) && !HasMarker(fs, cmsPath, JoomlaMarker)
  {
    if Stat(fs, Joined(cmsPath, WordPressMarker)) == Exists then WordPress
    else if Stat(fs, Joined(cmsPath, JoomlaMarker)) == Exists then Joomla
    else Undetected
  }

  /** When both marker files exist, detection answers WordPress. */
  lemma WordPressWinsTies(fs: FileSystem, cmsPath: string)
    requires HasMarker(fs, cmsPath, WordPressMarker) && HasMarker(fs, cmsPath, JoomlaMarker)
    ensures DetectCms(fs, cmsPath) == WordPress
  {
  }

  /** A marker whose stat fails for a reason other than non-existence is treated as absent. */
  lemma FailedStatIsNoMarker(fs: FileSystem, cmsPath: string)
    requires Stat(fs, Joined(cmsPath, WordPressMarker)) == StatFailed
    requires Stat(fs, Joined(cmsPath, JoomlaMarker)) != Exists
    ensures DetectCms(fs, cmsPath) == Undetected
  {
  }

  /** Detection looks at the two marker paths and nothing else. */
  lemma DetectionReadsOnlyMarkers(fs1: FileSystem, fs2: FileSystem, cmsPath: string)
    requires Stat(fs1, Joined(cmsPath, WordPressMarker)) == Stat(fs2, Joined(cmsPath, WordPressMarker))
    requires Stat(fs1, Joined(cmsPath, JoomlaMarker)) == Stat(fs2, Joined(cmsPath, JoomlaMarker))
    ensures DetectCms(fs1, cmsPath) == DetectCms(fs2, cmsPath)
  {
  }

  /** The switch on the returned string in each handler is a switch on the platform:
      distinct platforms have distinct names. */
  lemma NameIsInjective(a: CmsType, b: CmsType)
    requires a.Name() == b.Name()
    ensures a == b
  {
  }
}
