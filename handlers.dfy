/**
 * The file handlers the agent's commands run: `_open_file`, `_open_folder`,
 * `_execute_code`, `_copy_item`, `_clarify` and `_respond`, which are the same
 * in `backend/jarvis_backend_v1.py`, `backend/jarvis_backend.py` and
 * `backend/.ipynb_checkpoints/jarvis_backend-checkpoint.py`.
 *
 * A handler catches its own exceptions and answers with `{"error": str(e)}`;
 * its reply is the result dictionary together with the calls it made to the
 * operating system, in order, whether or not they raised.
 */
module Handlers {
  import opened Base
  import opened Text
  import opened Values
  import Paths
  import opened Host

  datatype Reply = Reply(result: Entries, effects: seq<Effect>)

  function Message(s: string): Entries { [("message", Str(s))] }

  function Error(s: string): Entries { [("error", Str(s))] }

  function Clarification(q: string): Entries { [("clarify", Str(q))] }

  /** Making call `e`, answering `ok` unless it raises, in which case the handler answers with the exception's text. */
  function Attempt(h: Host, e: Effect, ok: Entries): (r: Reply)
    ensures r.effects == [e]
  {
    match h.fails(e)
    case Some(m) => Reply(Error(m), [e])
    case None => Reply(ok, [e])
  }

  /** `self.windows_apps`: spoken application names and the commands that start them. */
  function WindowsApps(): seq<(string, string)>
  {
    [ ("notepad", "notepad.exe"), ("notepad++", "notepad++.exe"), ("word", "winword.exe"),
      ("excel", "excel.exe"), ("powerpoint", "powerpnt.exe"), ("outlook", "outlook.exe"),
      ("calculator", "calc.exe"), ("paint", "mspaint.exe"), ("cmd", "cmd.exe"),
      ("powershell", "powershell.exe"), ("chrome", "chrome.exe"), ("firefox", "firefox.exe"),
      ("edge", "msedge.exe"), ("explorer", "explorer.exe"), ("task manager", "taskmgr.exe"),
      ("control panel", "control.exe"), ("calendar", "outlook.exe /select outlook:calendar"),
      ("vlc", "vlc.exe"), ("media player", "wmplayer.exe"), ("photos", "ms-photos:"),
      ("camera", "microsoft.windows.camera:"), ("settings", "ms-settings:"), ("store", "ms-windows-store:") ]
  }

  function Quoted(s: string): string { "\"" + s + "\"" }

  // ---------------------------------------------------------------------------
  // _open_file, _open_folder
  // ---------------------------------------------------------------------------

  /** `_open_file(path, application=None)`: with an application, through `start`; otherwise the default program. */
  function OpenFile(h: Host, path: Value, application: Value): Reply
  {
    match AbsPath(h, path)
    case Raised(m) => Reply(Error(m), [])
    case Ok(abs) =>
      var ok := Message("Opened file '" + abs + "'");
      if !h.pathExists(abs) then Reply(Error("File not found at '" + abs + "'"), [])
      else if Truthy(application) then
        match LowerOf(application)
        case Raised(m) => Reply(Error(m), [])
        case Ok(low) =>
          var app := match Lookup(WindowsApps(), low) case Some(c) => c case None => application.s;
          Attempt(h, System("start \"\" " + Quoted(app) + " " + Quoted(abs)), ok)
      else Attempt(h, StartFile(abs), ok)
  }

  /** `_open_folder(path)`: only a directory is opened. */
  function OpenFolder(h: Host, path: Value): Reply
  {
    match AbsPath(h, path)
    case Raised(m) => Reply(Error(m), [])
    case Ok(abs) =>
      if !h.isDir(abs) then Reply(Error("Folder not found: '" + abs + "'"), [])
      else Attempt(h, StartFile(abs), Message("Opened folder '" + abs + "'"))
  }

  // ---------------------------------------------------------------------------
  // _execute_code
  // ---------------------------------------------------------------------------

  /** The lower-cased extensions `_execute_code` knows how to run. */
  predicate Supported(ext: string)
  {
    ext in {".py", ".bat", ".cmd", ".ps1", ".js", ".sh", ".exe", ".html"}
  }

  /** The command that runs the file `abs` with extension `ext` in a new terminal, if there is one. */
  function Launcher(ext: string, abs: string): (r: Option<Effect>)
    ensures r.Some? <==> Supported(ext)
  {
    var q := Quoted(abs);
    if ext == ".py" then Some(Spawn("start cmd /K python " + q))
    else if ext == ".bat" || ext == ".cmd" then Some(Spawn("start cmd /K " + q))
    else if ext == ".ps1" then Some(Spawn("start powershell -NoExit -File " + q))
    else if ext == ".js" then Some(Spawn("start cmd /K node " + q))
    else if ext == ".sh" then Some(Spawn("start cmd /K wsl bash " + q))
    else if ext == ".exe" then Some(Spawn("start \"\" " + q))
    else if ext == ".html" then Some(System("start \"\" " + q))
    else None
  }

  /** The extension `_execute_code` dispatches on: `os.path.splitext(abs)[1].lower()`. */
  function Extension(abs: string): string
  {
    Lower(Paths.SplitExt(abs).1)
  }

  /** `_execute_code(path=None, language=None, **kwargs)`; a falsy `path` falls back to `kwargs["file_path"]`. */
  function ExecuteCode(h: Host, path: Value, kwargs: Entries): (r: Reply)
    ensures r.effects == [] || (|r.effects| == 1 && Launches(r.effects[0]))
  {
    var p := if !Truthy(path) && HasKey(kwargs, "file_path") then Lookup(kwargs, "file_path").value else path;
    match AbsPath(h, p)
    case Raised(m) => Reply(Error(m), [])
    case Ok(abs) =>
      if !h.pathExists(abs) then Reply(Error("File not found at '" + abs + "'"), [])
      else
        var ext := Extension(abs);
        match Launcher(ext, abs)
        case None => Reply(Error("Unsupported file type: " + ext), [])
        case Some(e) => Attempt(h, e, Message("Executed '" + abs + "' in new terminal (terminal remains open)"))
  }

  // ---------------------------------------------------------------------------
  // _copy_item
  // ---------------------------------------------------------------------------

  function CopiedMessage(src: string, dst: string): Entries
  {
    Message("Successfully copied '" + src + "' to '" + dst + "'")
  }

  /** `_copy_item(source, destination)`: a tree to a new place, or a file after creating its folder. */
  function CopyItem(h: Host, source: Value, destination: Value): (r: Reply)
    ensures |r.effects| <= 2
    ensures |r.effects| == 1 ==> r.effects[0].CopyTree? || r.effects[0].MakeDirs?
    ensures |r.effects| == 2 ==> r.effects[0].MakeDirs? && r.effects[1].CopyFile?
  {
    match AbsPath(h, source)
    case Raised(m) => Reply(Error(m), [])
    case Ok(src) =>
      match AbsPath(h, destination)
      case Raised(m) => Reply(Error(m), [])
      case Ok(dst) =>
        if !h.pathExists(src) then Reply(Error("Source '" + src + "' not found."), [])
        else if h.isDir(src) then
          if h.pathExists(dst) then Reply(Error("Destination '" + dst + "' already exists."), [])
          else Attempt(h, CopyTree(src, dst), CopiedMessage(src, dst))
        else
          var mk := MakeDirs(Paths.Dirname(dst));
          match h.fails(mk)
          case Some(m) => Reply(Error(m), [mk])
          case None =>
            var copied := Attempt(h, CopyFile(src, dst), CopiedMessage(src, dst));
            Reply(copied.result, [mk] + copied.effects)
  }

  /** `_clarify(question)` */
  function Clarify(question: Value): Reply { Reply([("clarify", question)], []) }

  /** `_respond(message)` */
  function Respond(message: Value): Reply { Reply([("response", message)], []) }

  /** A handler whose body only forwards to the operating system: its result comes from the host. */
  function Forward(h: Host, name: string, args: Entries): Reply
  {
    Reply(h.perform(name, args), [Call(name, args)])
  }

  // ---------------------------------------------------------------------------
  // Properties
  // ---------------------------------------------------------------------------

  predicate Copies(e: Effect) { e.CopyTree? || e.CopyFile? }

  predicate Launches(e: Effect) { e.Spawn? || e.System? }

  /** A missing file is reported before its extension is looked at, and nothing is run. */
  lemma {:induction false} ExecuteMissingFileFirst(h: Host, path: Value, kwargs: Entries)
    requires path.Str? && Truthy(path)
    requires !h.pathExists(h.abspath(path.s))
    ensures ExecuteCode(h, path, kwargs) == Reply(Error("File not found at '" + h.abspath(path.s) + "'"), [])
  {
  }

  /**
   * An existing file runs exactly when its lower-cased extension is one of the
   * eight supported ones; any other extension is refused and nothing is launched.
   */
  lemma {:induction false} ExecuteRunsIffSupported(h: Host, path: Value, kwargs: Entries)
    requires path.Str? && Truthy(path) && h.pathExists(h.abspath(path.s))
    ensures var abs := h.abspath(path.s);
      var r := ExecuteCode(h, path, kwargs);
      (Supported(Extension(abs)) ==> |r.effects| == 1 && Launches(r.effects[0])) &&
      (!Supported(Extension(abs)) ==> r == Reply(Error("Unsupported file type: " + Extension(abs)), []))
  {
    var abs := h.abspath(path.s);
    if Supported(Extension(abs)) {
      var e := Launcher(Extension(abs), abs).value;
      assert Launches(e);
    }
  }

  /** Every command `_execute_code` launches ends with the file's absolute path in double quotes. */
  lemma {:induction false} LauncherQuotesPath(ext: string, abs: string)
    requires Supported(ext)
    ensures var e := Launcher(ext, abs).value;
      var cmd := e.command;
      Launches(e) && |cmd| >= |abs| + 2 && cmd[|cmd| - |abs| - 2..] == Quoted(abs)
  {
  }

  /** Only a `.html` file goes through `os.system`; every other supported file gets a new process. */
  lemma {:induction false} OnlyHtmlUsesSystem(ext: string, abs: string)
    requires Supported(ext)
    ensures Launcher(ext, abs).value.System? <==> ext == ".html"
  {
  }

  /** `_copy_item` copies nothing when the source is missing, or when a folder's destination already exists. */
  lemma {:induction false} CopyRefusals(h: Host, source: string, destination: string)
    ensures var src, dst := h.abspath(source), h.abspath(destination);
      var r := CopyItem(h, Str(source), Str(destination));
      (!h.pathExists(src) ==> r == Reply(Error("Source '" + src + "' not found."), [])) &&
      (h.pathExists(src) && h.isDir(src) && h.pathExists(dst) ==>
        r == Reply(Error("Destination '" + dst + "' already exists."), []))
  {
  }

  /** When `_copy_item` does copy, it copies the source to the destination: the whole tree for a folder, else the file. */
  lemma {:induction false} CopyTargets(h: Host, source: string, destination: string)
    ensures var src, dst := h.abspath(source), h.abspath(destination);
      var r := CopyItem(h, Str(source), Str(destination));
      forall i :: 0 <= i < |r.effects| && Copies(r.effects[i]) ==>
        r.effects[i] == (if h.isDir(src) then CopyTree(src, dst) else CopyFile(src, dst))
  {
  }

  /** A file is copied only after its destination folder has been created. */
  lemma {:induction false} CopyFileAfterMakeDirs(h: Host, source: string, destination: string)
    requires var src := h.abspath(source); h.pathExists(src) && !h.isDir(src)
    ensures var r := CopyItem(h, Str(source), Str(destination));
      r.effects != [] && r.effects[0] == MakeDirs(Paths.Dirname(h.abspath(destination)))
  {
  }

  /** `_open_folder` opens nothing that is not a directory. */
  lemma {:induction false} OpenFolderOnlyDirectories(h: Host, path: Value)
    ensures var r := OpenFolder(h, path);
      r.effects != [] ==> path.Str? && h.isDir(h.abspath(path.s)) && r.effects == [StartFile(h.abspath(path.s))]
  {
  }

  /** `_open_file` opens nothing that does not exist; without an application it uses the default program. */
  lemma {:induction false} OpenFileOnlyExisting(h: Host, path: Value, application: Value)
    ensures var r := OpenFile(h, path, application);
      r.effects != [] ==>
        path.Str? && h.pathExists(h.abspath(path.s)) && |r.effects| == 1 &&
        (!Truthy(application) ==> r.effects == [StartFile(h.abspath(path.s))])
  {
  }
}
