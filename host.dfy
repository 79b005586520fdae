/**
 * Everything the agent learns from, or does to, the machine it runs on.
 *
 * A `Host` is a snapshot of the operating system and of the libraries whose
 * internals are not modelled: the working directory (through `abspath`), the
 * file system (`pathExists`, `isDir`, `walk`), the running processes, the
 * browsers, `difflib.SequenceMatcher(None, a, b).ratio()`, float rounding,
 * the iteration order of a Python `set`, and the handlers whose bodies only
 * forward to the operating system. An `Effect` is one call that changes the
 * outside world; `fails(e)` is the message of the exception that call raises,
 * if it raises.
 */
module Host {
  import opened Base
  import opened Values
  import Paths

  /** One item of `os.walk(top)`: a directory, its sub-directory names and its file names. */
  datatype WalkEntry = WalkEntry(root: string, dirs: seq<string>, files: seq<string>)

  datatype Process = Process(name: string, pid: int)

  datatype Effect =
    | StartFile(path: string)                          // os.startfile(path)
    | Spawn(command: string)                           // subprocess.Popen(command, shell=True)
    | System(command: string)                          // os.system(command)
    | CopyTree(source: string, destination: string)    // shutil.copytree
    | MakeDirs(path: string)                           // os.makedirs(path, exist_ok=True)
    | CopyFile(source: string, destination: string)    // shutil.copy2
    | Terminate(pid: int)                              // psutil.Process(pid).terminate()
    | OpenUrl(url: string)                             // a browser's open(url)
    | Call(handler: string, args: Entries)             // a handler whose body is not modelled

  datatype Host = Host(
    abspath: string -> string,
    pathExists: string -> bool,
    isDir: string -> bool,
    walk: string -> seq<WalkEntry>,
    fails: Effect -> Option<string>,
    ratio: (string, string) -> real,
    roundScore: real -> Value,                         // round(x, 2)
    processes: seq<Process>,
    setJoin: seq<string> -> string,                    // ', '.join(set(xs))
    browsersFound: bool,                               // _check_available_browsers found one
    tryBrowsers: (string, string) -> Option<string>,   // the first browser matching the lower-cased name that opened the URL
    webOpen: string -> Outcome<bool>,                  // webbrowser.open(url)
    perform: (string, Entries) -> Entries              // result of a handler whose body is not modelled
  )

  /** `SequenceMatcher.ratio()` lies in [0, 1]. */
  ghost predicate RatioBounded(h: Host)
  {
    forall a, b :: 0.0 <= h.ratio(a, b) <= 1.0
  }

  /** Identical strings have ratio 1. */
  ghost predicate RatioReflexive(h: Host)
  {
    forall a :: h.ratio(a, a) == 1.0
  }

  /** `os.walk` yields nothing for a path that does not exist (its errors are ignored). */
  ghost predicate WalkOfMissingIsEmpty(h: Host)
  {
    forall p :: !h.pathExists(p) ==> h.walk(p) == []
  }

  /** Entries of a directory are plain names: no separator, no colon. */
  ghost predicate WalkNamesArePlain(h: Host)
  {
    forall p, i :: 0 <= i < |h.walk(p)| ==>
      (forall n :: n in h.walk(p)[i].dirs ==> Paths.PlainName(n)) &&
      (forall n :: n in h.walk(p)[i].files ==> Paths.PlainName(n))
  }

  /** `os.path.abspath(v)`, which raises for anything but a string. */
  function AbsPath(h: Host, v: Value): (r: Outcome<string>)
    ensures r.Ok? <==> v.Str?
  {
    if v.Str? then Ok(h.abspath(v.s)) else Raised(NotAPath(v))
  }
}
