/**
 * Starting and stopping programs: `_open_application` (the same in all three
 * `EnhancedFileAgent`/`FileAgent` backends) and `_close_program` (only in
 * `backend/jarvis_backend_v1.py`).
 */
module Apps {
  import opened Base
  import opened Text
  import opened Values
  import opened Host
  import opened Handlers

  // ---------------------------------------------------------------------------
  // _open_application
  // ---------------------------------------------------------------------------

  /** A store-app protocol (`ms-…`, `microsoft.…`) needs `start`; an executable is run as it is. */
  function LaunchString(command: string): string
  {
    if IsPrefix("ms-", command) || IsPrefix("microsoft.", command) then "start " + command else command
  }

  /** The table key an application name is looked up under: lower-cased, then stripped. */
  function AppKey(name: string): string
  {
    Strip(Lower(name))
  }

  /** `_open_application(application)`: a known name through its table command, anything else through `start`. */
  function OpenApplication(h: Host, application: Value): (r: Reply)
    ensures r.effects == [] || (|r.effects| == 1 && r.effects[0].Spawn?)
  {
    match LowerOf(application)
    case Raised(m) => Reply(Error(m), [])
    case Ok(low) =>
      match Lookup(WindowsApps(), Strip(low))
      case Some(command) => Attempt(h, Spawn(LaunchString(command)), Message("Opened " + application.s))
      case None => Attempt(h, Spawn("start " + application.s), Message("Attempted to open " + application.s))
  }

  // ---------------------------------------------------------------------------
  // _close_program
  // ---------------------------------------------------------------------------

  /** A process matches a lower-cased name it contains, or that equals its name without `.exe`. */
  predicate Matches(low: string, p: Process)
  {
    var name := Lower(p.name);
    IsSubstring(low, name) || low == ReplaceAll(name, ".exe", "")
  }

  /** The matching processes, in process order. */
  function Matching(ps: seq<Process>, low: string): (r: seq<Process>)
    ensures |r| <= |ps|
  {
    if ps == [] then []
    else Matching(ps[..|ps| - 1], low) + (if Matches(low, ps[|ps| - 1]) then [ps[|ps| - 1]] else [])
  }

  /** The names of the processes whose name is similar (ratio above 0.6) to the lower-cased name. */
  function Similar(h: Host, ps: seq<Process>, low: string): seq<string>
  {
    if ps == [] then []
    else
      var p := ps[|ps| - 1];
      Similar(h, ps[..|ps| - 1], low) + (if h.ratio(low, Lower(p.name)) > 0.6 then [p.name] else [])
  }

  function NamesOf(ps: seq<Process>): (r: seq<string>)
    ensures |r| == |ps|
  {
    if ps == [] then [] else NamesOf(ps[..|ps| - 1]) + [ps[|ps| - 1].name]
  }

  function Take<T>(s: seq<T>, n: nat): seq<T>
  {
    if |s| <= n then s else s[..n]
  }

  /**
   * `_close_program(program_name=None)`: asks which program when none or
   * several match, and terminates the single matching process otherwise.
   */
  function CloseProgram(h: Host, programName: Value): (r: Reply)
    ensures r.effects == [] || (|r.effects| == 1 && r.effects[0].Terminate?)
  {
    if !Truthy(programName) then
      Reply(Clarification("Which program would you like me to close? Please specify the program name."), [])
    else
      match LowerOf(programName)
      case Raised(m) => Reply(Error("Failed to close program: " + m), [])
      case Ok(low) =>
        var name := programName.s;
        var matching := Matching(h.processes, low);
        if matching == [] then
          var suggestions := Similar(h, h.processes, low);
          if suggestions != [] then
            Reply(Clarification("I couldn't find '" + name + "'. Did you mean: " + h.setJoin(Take(suggestions, 3)) + "?"), [])
          else Reply(Error("No running program found matching '" + name + "'"), [])
        else if |matching| > 1 then
          Reply(Clarification("Multiple programs found: " + h.setJoin(NamesOf(matching)) + ". Which one would you like to close?"), [])
        else
          var target := matching[0];
          var e := Terminate(target.pid);
          match h.fails(e)
          case Some(m) => Reply(Error("Failed to close program: " + m), [e])
          case None => Reply(Message("Successfully closed " + target.name), [e])
  }

  // ---------------------------------------------------------------------------
  // Properties
  // ---------------------------------------------------------------------------

  /** Opening an application launches exactly one command, and only a string name is launched. */
  lemma {:induction false} OpenApplicationLaunchesOnce(h: Host, application: Value)
    ensures var r := OpenApplication(h, application);
      (application.Str? ==> |r.effects| == 1 && r.effects[0].Spawn?) &&
      (!application.Str? ==> r == Reply(Error(NoAttribute(application, "lower")), []))
  {
  }

  /** A known name is found whatever its case and surrounding blanks, and launched through the table. */
  lemma {:induction false} OpenKnownApplication(h: Host, name: string)
    requires Lookup(WindowsApps(), AppKey(name)).Some?
    ensures OpenApplication(h, Str(name)).effects == [Spawn(LaunchString(Lookup(WindowsApps(), AppKey(name)).value))]
  {
  }

  /** An unknown name is handed to `start` exactly as it was given. */
  lemma {:induction false} OpenUnknownApplication(h: Host, name: string)
    requires Lookup(WindowsApps(), AppKey(name)).None?
    ensures OpenApplication(h, Str(name)).effects == [Spawn("start " + name)]
  {
  }

  /** The matching processes are exactly the processes that match, and they keep their order. */
  lemma {:induction false} MatchingIff(ps: seq<Process>, low: string)
    ensures forall p :: p in Matching(ps, low) <==> p in ps && Matches(low, p)
  {
    if ps != [] {
      MatchingIff(ps[..|ps| - 1], low);
      assert ps == ps[..|ps| - 1] + [ps[|ps| - 1]];
    }
  }

  /**
   * A process is terminated only when exactly one process matches, and it is
   * that process; with no name, no match or several, nothing is terminated.
   */
  lemma {:induction false} TerminatesOnlyUniqueMatch(h: Host, programName: Value)
    ensures var r := CloseProgram(h, programName);
      r.effects != [] ==>
        programName.Str? && Truthy(programName) &&
        var matching := Matching(h.processes, Lower(programName.s));
        |matching| == 1 && r.effects == [Terminate(matching[0].pid)] &&
        matching[0] in h.processes && Matches(Lower(programName.s), matching[0])
  {
    if programName.Str? && Truthy(programName) {
      var low := Lower(programName.s);
      var matching := Matching(h.processes, low);
      assert programName == Str(programName.s);
      if |matching| == 1 {
        MatchingIff(h.processes, low);
        assert matching[0] in matching;
        assert matching[0] in h.processes && Matches(low, matching[0]);
        TerminatesMatch(h, programName.s);
      } else {
        NoTermination(h, programName.s);
      }
    } else {
      NothingToClose(h, programName);
    }
  }

  /** When exactly one process matches, it is the one terminated. */
  lemma {:induction false} TerminatesMatch(h: Host, name: string)
    requires name != [] && |Matching(h.processes, Lower(name))| == 1
    ensures CloseProgram(h, Str(name)).effects == [Terminate(Matching(h.processes, Lower(name))[0].pid)]
  {
  }

  /** Without a name, or with one that is not a string, nothing is terminated. */
  lemma {:induction false} NothingToClose(h: Host, programName: Value)
    requires !(programName.Str? && Truthy(programName))
    ensures CloseProgram(h, programName).effects == []
  {
  }

  /** Unless exactly one process matches, nothing is terminated. */
  lemma {:induction false} NoTermination(h: Host, name: string)
    requires name != [] && |Matching(h.processes, Lower(name))| != 1
    ensures CloseProgram(h, Str(name)).effects == []
  {
  }

  /** Several matching processes always lead to a question, never to a termination. */
  lemma {:induction false} SeveralMatchesAsk(h: Host, name: string)
    requires name != [] && |Matching(h.processes, Lower(name))| > 1
    ensures var r := CloseProgram(h, Str(name));
      r.effects == [] && HasKey(r.result, "clarify")
  {
  }
}
