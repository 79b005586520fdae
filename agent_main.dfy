/**
 * `FileAgent` of `backend/.ipynb_checkpoints/main-checkpoint.py`, the agent
 * behind the `/file-agent` web endpoint: one command per reply, no aliases,
 * no workflows and no memory of earlier requests (the conversation lives in
 * the language model's chat session, which is a parameter here).
 *
 * `_execute_command` catches everything, so it always answers with a
 * dictionary; `_summarize_action` has a sentence per command; `_search_file`
 * walks the directory tree and keeps the directories holding a file of
 * exactly the requested name.
 */
module AgentMain {
  import opened Base
  import opened Text
  import opened Values
  import opened Host
  import opened Binding
  import opened Handlers
  import opened Workflow
  import Paths

  const Cls := "FileAgent"
  const ModuleName := "main"

  /** The commands of `command_map`. */
  datatype Command =
    | ListDirectory | CreateDirectory | CreateFile | ReadFile | WriteFile | MoveItem
    | DeleteFile | DeleteDirectory | SearchFileCommand | ClarifyCommand | RespondCommand

  /** The key of each command in `command_map`, which is also its method's name without the leading `_`. */
  function Name(c: Command): string
  {
    match c
    case ListDirectory => "list_directory"
    case CreateDirectory => "create_directory"
    case CreateFile => "create_file"
    case ReadFile => "read_file"
    case WriteFile => "write_file"
    case MoveItem => "move_item"
    case DeleteFile => "delete_file"
    case DeleteDirectory => "delete_directory"
    case SearchFileCommand => "search_file"
    case ClarifyCommand => "clarify"
    case RespondCommand => "respond"
  }

  /** `command in command_map` for a string `command`, and the command it names. */
  function Parse(s: string): Option<Command>
  {
    if s == "list_directory" then Some(ListDirectory)
    else if s == "create_directory" then Some(CreateDirectory)
    else if s == "create_file" then Some(CreateFile)
    else if s == "read_file" then Some(ReadFile)
    else if s == "write_file" then Some(WriteFile)
    else if s == "move_item" then Some(MoveItem)
    else if s == "delete_file" then Some(DeleteFile)
    else if s == "delete_directory" then Some(DeleteDirectory)
    else if s == "search_file" then Some(SearchFileCommand)
    else if s == "clarify" then Some(ClarifyCommand)
    else if s == "respond" then Some(RespondCommand)
    else None
  }

  /** The command a reply's `command` value names, if it is a key of `command_map`. */
  function CommandOf(v: Value): Option<Command>
  {
    if v.Str? then Parse(v.s) else None
  }

  /** The parameters after `self` of the method each command runs. */
  function HandlerParams(c: Command): seq<Param>
  {
    match c
    case ListDirectory => [Optional("path", Str("."))]
    case WriteFile => [Required("path"), Optional("content", Str(""))]
    case MoveItem => [Required("source"), Required("destination")]
    case SearchFileCommand => [Required("filename"), Optional("search_path", Str("."))]
    case ClarifyCommand => [Required("question")]
    case RespondCommand => [Required("message")]
    case _ => [Required("path")]
  }

  /** `def _<name>(self, <params>)`: none of these methods takes `**kwargs`. */
  function HandlerSignature(c: Command): Signature
  {
    Signature(Cls + "._" + Name(c), HandlerParams(c), false)
  }

  // ---------------------------------------------------------------------------
  // _search_file
  // ---------------------------------------------------------------------------

  /** Whether `filename in files` holds for one directory that `os.walk` yields. */
  predicate HoldsFile(w: WalkEntry, filename: Value)
  {
    filename.Str? && filename.s in w.files
  }

  /** The paths the loop of `_search_file` appends over the directories `walked`, in the order they were walked. */
  function Hits(walked: seq<WalkEntry>, filename: Value): seq<Value>
    decreases |walked|
  {
    if walked == [] then []
    else
      var w := walked[|walked| - 1];
      Hits(walked[..|walked| - 1], filename) + (if HoldsFile(w, filename) then [Str(Paths.Join(w.root, filename.s))] else [])
  }

  /**
   * `_search_file(filename, search_path=".")`. `os.walk` ignores the errors of
   * the directories it cannot list, so only a `search_path` that is not a
   * path at all raises, and the handler answers with that exception's text.
   */
  function SearchFile(h: Host, filename: Value, searchPath: Value): Entries
  {
    if !searchPath.Str? then Error(NotAPath(searchPath))
    else [("results", List(Hits(h.walk(searchPath.s), filename)))]
  }

  /** The loop of `_search_file`, appending to `results` one walked directory at a time. */
  method SearchFileIn(h: Host, filename: Value, searchPath: Value) returns (r: Entries)
    ensures r == SearchFile(h, filename, searchPath)
  {
    if !searchPath.Str? {
      return Error(NotAPath(searchPath));
    }
    var walked := h.walk(searchPath.s);
    var results: seq<Value> := [];
    var i := 0;
    while i < |walked|
      invariant 0 <= i <= |walked|
      invariant results == Hits(walked[..i], filename)
    {
      PrefixStep(walked, i);
      if filename.Str? && filename.s in walked[i].files {
        results := results + [Str(Paths.Join(walked[i].root, filename.s))];
      }
      i := i + 1;
    }
    PrefixStep(walked, i);
    r := [("results", List(results))];
  }

  // ---------------------------------------------------------------------------
  // _execute_command
  // ---------------------------------------------------------------------------

  /** What a bound handler answers: `_search_file`, `_clarify` and `_respond` here, the rest through the operating system. */
  function Handle(h: Host, c: Command, b: Bound): Reply
  {
    var a := b.args;
    match c
    case SearchFileCommand => Reply(SearchFile(h, Get(a, "filename", Null), Get(a, "search_path", Null)), [])
    case ClarifyCommand => Clarify(Get(a, "question", Null))
    case RespondCommand => Respond(Get(a, "message", Null))
    case _ => Forward(h, Name(c), a)
  }

  /** The answer to any exception the `try` of `_execute_command` catches. */
  function Failure(m: string): Entries
  {
    Error("An error occurred during execution: " + m)
  }

  const NoCommand := "Agent Error: Received a response without a command."

  function UnknownCommand(command: Value): Entries
  {
    Error("Agent Error: Unknown command '" + PyStr(command) + "'.")
  }

  /**
   * `_execute_command(response_json)`: the dictionary it returns and the calls
   * made on the way. It never raises; a reply that is not a dictionary has no
   * `get`, and that error is caught like any other.
   */
  function Execute(h: Host, response: Value): (r: Reply)
    ensures !response.Dict? ==> r == Reply(Failure(NoAttribute(response, "get")), [])
    ensures response.Dict? && !Truthy(Get(response.entries, "command", Null)) ==> r == Reply(Error(NoCommand), [])
  {
    match GetOr(response, "command", Null)
    case Raised(m) => Reply(Failure(m), [])
    case Ok(command) =>
      var params := Get(response.entries, "parameters", Dict([]));
      if !Truthy(command) then Reply(Error(NoCommand), [])
      else if !Hashable(command) then Reply(Failure(Unhashable(command)), [])
      else
        match CommandOf(command)
        case None => Reply(UnknownCommand(command), [])
        case Some(c) =>
          match Bind(HandlerSignature(c), ModuleName, params)
          case Raised(m) => Reply(Failure(m), [])
          case Ok(b) => Handle(h, c, b)
  }

  // ---------------------------------------------------------------------------
  // _summarize_action
  // ---------------------------------------------------------------------------

  /** `str(params.get(key, default))`, as an f-string renders it. */
  function Param(params: Value, key: string, default: Value): Outcome<string>
  {
    match GetOr(params, key, default)
    case Raised(m) => Raised(m)
    case Ok(v) => Ok(PyStr(v))
  }

  /** The sentence of one command: `head`, a parameter, `tail`; or two parameters with `middle` between them. */
  datatype Sentence =
    | One(head: string, key: string, default: Value, tail: string)
    | Two(head: string, first: string, middle: string, second: string, default: Value, tail: string)

  /** The sentence `_summarize_action` has for each command. */
  function SentenceOf(c: Command): Sentence
  {
    match c
    case CreateDirectory => One("\U{1F4C1} Created directory at '", "path", Null, "'")
    case CreateFile => One("\U{1F4C4} Created new file at '", "path", Null, "'")
    case ReadFile => One("\U{1F4D6} Read contents of file '", "path", Null, "'")
    case WriteFile => One("\U{270F}\U{FE0F} Wrote content to file '", "path", Null, "'")
    case MoveItem => Two("\U{1F4E6} Moved '", "source", "' \U{2192} '", "destination", Null, "'")
    case DeleteFile => One("\U{1F5D1}\U{FE0F} Deleted file '", "path", Null, "'")
    case DeleteDirectory => One("\U{1F5D1}\U{FE0F} Deleted directory '", "path", Null, "'")
    case ListDirectory => One("\U{1F4CB} Listed contents of '", "path", Str("."), "'")
    case SearchFileCommand => Two("\U{1F50D} Searched for '", "filename", "' in '", "search_path", Str("."), "'")
    case ClarifyCommand => One("\U{2753} Asked for clarification: '", "question", Null, "'")
    case RespondCommand => One("\U{1F4AC} Responded with: '", "message", Null, "'")
  }

  /** The sentence filled in from `params`; `params.get` raises when `params` is not a dictionary. */
  function Fill(t: Sentence, params: Value): Outcome<string>
  {
    match t
    case One(head, key, default, tail) =>
      (match Param(params, key, default)
       case Raised(m) => Raised(m)
       case Ok(v) => Ok(head + v + tail))
    case Two(head, first, middle, second, default, tail) =>
      match Param(params, first, Null)
      case Raised(m) => Raised(m)
      case Ok(v) =>
        match Param(params, second, default)
        case Raised(m) => Raised(m)
        case Ok(w) => Ok(head + v + middle + w + tail)
  }

  /** The sentence of a command that did not fail: its own, or the generic one for a command outside `command_map`. */
  function Template(cmd: Value, params: Value): Outcome<string>
  {
    match CommandOf(cmd)
    case Some(c) => Fill(SentenceOf(c), params)
    case None => Ok("\U{2705} Executed action '" + PyStr(cmd) + "'")
  }

  /** `_summarize_action(command, result)`: a failure first, whatever the command; otherwise the command's template. */
  function Summary(command: Value, result: Value): Outcome<string>
  {
    match GetOr(command, "command", Str(""))
    case Raised(m) => Raised(m)
    case Ok(cmd) =>
      var params := Get(command.entries, "parameters", Dict([]));
      match Contains(result, "error")
      case Raised(m) => Raised(m)
      case Ok(failed) =>
        if failed then
          match GetItem(result, "error")
          case Raised(m) => Raised(m)
          case Ok(error) => Ok("\U{274C} Failed to " + PyStr(cmd) + " with " + PyStr(params) + ". Reason: " + PyStr(error))
        else Template(cmd, params)
  }

  // ---------------------------------------------------------------------------
  // process_request
  // ---------------------------------------------------------------------------

  /** The prompt `process_request` sends for `user_prompt` in `current_dir`. */
  function FullPrompt(currentDir: string, userPrompt: string): string
  {
    "Current Working Directory: '" + currentDir + "'\nUser Request: '" + userPrompt + "'"
  }

  datatype Answer = Answer(result: Entries, effects: seq<Effect>)

  /**
   * `process_request(user_prompt, current_dir)`, with `send` standing for the
   * chat session and `json.loads`: the command, its result and its summary,
   * or the error that stopped it.
   */
  function ProcessRequest(h: Host, userPrompt: string, currentDir: string, send: string -> ModelReply): Answer
  {
    match send(FullPrompt(currentDir, userPrompt))
    case SendFailed(m) => Answer(Error(m), [])
    case InvalidJson(raw) => Answer([("error", Str("Failed to decode the AI's JSON response")), ("raw", Str(raw))], [])
    case Parsed(json) =>
      var reply := Execute(h, json);
      match Summary(json, Dict(reply.result))
      case Raised(m) => Answer(Error(m), reply.effects)
      case Ok(summary) =>
        Answer([("agent_command", json), ("result", Dict(reply.result)), ("summary", Str(summary))], reply.effects)
  }

  // ---------------------------------------------------------------------------
  // Properties
  // ---------------------------------------------------------------------------

  /** The paths over two stretches of the walk are those of the first stretch, then those of the second. */
  lemma {:induction false} HitsAppend(a: seq<WalkEntry>, b: seq<WalkEntry>, filename: Value)
    ensures Hits(a + b, filename) == Hits(a, filename) + Hits(b, filename)
    decreases |b|
  {
    if b == [] {
      assert a + b == a;
    } else {
      var n := |b| - 1;
      assert (a + b)[..|a + b| - 1] == a + b[..n];
      HitsAppend(a, b[..n], filename);
    }
  }

  /** One walked directory contributes its path exactly when it holds a file of exactly that name. */
  lemma {:induction false} HitsOfOne(w: WalkEntry, filename: Value)
    ensures Hits([w], filename) == if HoldsFile(w, filename) then [Str(Paths.Join(w.root, filename.s))] else []
  {
    assert [w][..0] == [];
  }

  /** Every path found is the join of a walked directory holding the file and the file's name. */
  lemma {:induction false} HitsComeFromHolders(walked: seq<WalkEntry>, filename: Value, k: nat)
    requires k < |Hits(walked, filename)|
    ensures exists i :: 0 <= i < |walked| && HoldsFile(walked[i], filename) && Hits(walked, filename)[k] == Str(Paths.Join(walked[i].root, filename.s))
    decreases |walked|
  {
    var n := |walked| - 1;
    var pre := Hits(walked[..n], filename);
    if k < |pre| {
      HitsComeFromHolders(walked[..n], filename, k);
      var i :| 0 <= i < n && HoldsFile(walked[..n][i], filename) && pre[k] == Str(Paths.Join(walked[..n][i].root, filename.s));
      assert walked[..n][i] == walked[i];
    } else {
      assert HoldsFile(walked[n], filename);
    }
  }

  /** Every walked directory holding the file is found, at the place the walk reached it. */
  lemma {:induction false} HoldersAreHits(walked: seq<WalkEntry>, filename: Value, i: nat)
    requires i < |walked| && HoldsFile(walked[i], filename)
    ensures |Hits(walked[..i], filename)| < |Hits(walked, filename)|
    ensures Str(Paths.Join(walked[i].root, filename.s)) == Hits(walked, filename)[|Hits(walked[..i], filename)|]
  {
    assert walked == walked[..i] + [walked[i]] + walked[i + 1..];
    HitsAppend(walked[..i] + [walked[i]], walked[i + 1..], filename);
    HitsAppend(walked[..i], [walked[i]], filename);
    HitsOfOne(walked[i], filename);
  }

  /** A name that differs from every listed file name, in case alone or otherwise, finds nothing. */
  lemma {:induction false} NoHolderNoHits(walked: seq<WalkEntry>, filename: Value)
    requires forall i :: 0 <= i < |walked| ==> !HoldsFile(walked[i], filename)
    ensures Hits(walked, filename) == []
    decreases |walked|
  {
    if walked != [] {
      var n := |walked| - 1;
      assert forall i :: 0 <= i < n ==> walked[..n][i] == walked[i];
      NoHolderNoHits(walked[..n], filename);
    }
  }

  /** Each command's name is a key of `command_map`, for that command. */
  lemma {:induction false} ParseName(c: Command)
    ensures Parse(Name(c)) == Some(c)
  {
  }

  /** Only the commands' names are keys of `command_map`. */
  lemma {:induction false} ParseOnlyNames(s: string)
    ensures Parse(s).Some? ==> Name(Parse(s).value) == s
  {
  }

  /** A command name outside `command_map` is refused by name, with nothing run. */
  lemma {:induction false} UnknownCommandRefused(h: Host, response: Entries, name: string)
    requires Lookup(response, "command") == Some(Str(name)) && name != []
    requires forall c :: Name(c) != name
    ensures Execute(h, Dict(response)) == Reply(Error("Agent Error: Unknown command '" + name + "'."), [])
  {
    ParseOnlyNames(name);
    assert CommandOf(Str(name)).None?;
  }

  /** Arguments that do not bind are caught like any other exception, with nothing run. */
  lemma {:induction false} BindFailureCaught(h: Host, response: Entries, c: Command)
    requires Lookup(response, "command") == Some(Str(Name(c)))
    requires Bind(HandlerSignature(c), ModuleName, Get(response, "parameters", Dict([]))).Raised?
    ensures Execute(h, Dict(response)) ==
      Reply(Failure(Bind(HandlerSignature(c), ModuleName, Get(response, "parameters", Dict([]))).message), [])
  {
    ParseName(c);
    assert Get(response, "command", Null) == Str(Name(c));
    assert CommandOf(Str(Name(c))) == Some(c);
  }

  /** A reply `_execute_command` hands to a handler: a dictionary naming a command of `command_map` whose arguments bind. */
  predicate Dispatched(response: Value)
  {
    response.Dict? &&
    var command := CommandOf(Get(response.entries, "command", Null));
    command.Some? && Bind(HandlerSignature(command.value), ModuleName, Get(response.entries, "parameters", Dict([]))).Ok?
  }

  /** Every reply that is not handed to a handler is answered with one `error` entry, and nothing runs. */
  lemma {:induction false} RefusalsAreErrors(h: Host, response: Value)
    requires !Dispatched(response)
    ensures Execute(h, response).effects == []
    ensures |Execute(h, response).result| == 1 && Execute(h, response).result[0].0 == "error"
  {
  }

  /** The operating system is touched only for a dispatched reply, and never by `_search_file`, `_clarify` or `_respond`. */
  lemma {:induction false} EffectsOnlyWhenDispatched(h: Host, response: Value)
    requires Execute(h, response).effects != []
    ensures Dispatched(response)
    ensures CommandOf(Get(response.entries, "command", Null)).value !in {SearchFileCommand, ClarifyCommand, RespondCommand}
  {
  }

  /** A failed step is summarised as a failure, whatever its command. */
  lemma {:induction false} FailureSummarisedFirst(command: Entries, result: Entries)
    requires HasKey(result, "error")
    ensures Summary(Dict(command), Dict(result)).Ok?
    ensures IsPrefix("\U{274C} Failed to ", Summary(Dict(command), Dict(result)).value)
  {
  }

  /** Every sentence starts with its own emoji, none of them the generic tick. */
  lemma {:induction false} SentenceHeads(c: Command)
    ensures SentenceOf(c).head != [] && SentenceOf(c).head[0] != '\U{2705}'
  {
  }

  /** With dictionary parameters a sentence can always be filled, and it starts with its head. */
  lemma {:induction false} FillOfDict(t: Sentence, params: Entries)
    requires t.head != []
    ensures Fill(t, Dict(params)).Ok? && Fill(t, Dict(params)).value[0] == t.head[0]
  {
  }

  /** With dictionary parameters a command of `command_map` is summarised by its own sentence. */
  lemma {:induction false} TemplateOfListed(c: Command, params: Entries)
    ensures Template(Str(Name(c)), Dict(params)).Ok?
    ensures SentenceOf(c).head != [] && Template(Str(Name(c)), Dict(params)).value != []
    ensures Template(Str(Name(c)), Dict(params)).value[0] == SentenceOf(c).head[0] != '\U{2705}'
  {
    ParseName(c);
    SentenceHeads(c);
    FillOfDict(SentenceOf(c), params);
  }

  /** With dictionary parameters every template can be filled, and only the generic one starts with the tick. */
  lemma {:induction false} TemplateOfDict(cmd: Value, params: Entries)
    ensures Template(cmd, Dict(params)).Ok?
    ensures IsPrefix("\U{2705}", Template(cmd, Dict(params)).value) <==> CommandOf(cmd).None?
  {
    if CommandOf(cmd).Some? {
      ParseOnlyNames(cmd.s);
      TemplateOfListed(CommandOf(cmd).value, params);
    }
  }

  /**
   * A successful step of a command outside `command_map` is summarised
   * generically, and one of a command inside it by its own sentence.
   */
  lemma {:induction false} GenericSummaryIffUnlisted(command: Entries, result: Entries)
    requires !HasKey(result, "error") && Get(command, "parameters", Dict([])).Dict?
    ensures Summary(Dict(command), Dict(result)).Ok?
    ensures IsPrefix("\U{2705}", Summary(Dict(command), Dict(result)).value) <==>
      CommandOf(Get(command, "command", Str(""))).None?
  {
    var cmd := Get(command, "command", Str(""));
    var params := Get(command, "parameters", Dict([]));
    assert Summary(Dict(command), Dict(result)) == Template(cmd, params);
    TemplateOfDict(cmd, params.entries);
  }

  /** What `_execute_command` answers for a dictionary reply can always be summarised. */
  lemma {:induction false} ExecutedSummarised(h: Host, json: Entries)
    ensures Summary(Dict(json), Dict(Execute(h, Dict(json)).result)).Ok?
  {
    var result := Execute(h, Dict(json)).result;
    var cmd := Get(json, "command", Str(""));
    var params := Get(json, "parameters", Dict([]));
    if !HasKey(result, "error") {
      assert Summary(Dict(json), Dict(result)) == Template(cmd, params);
      if CommandOf(cmd).Some? {
        assert Get(json, "command", Null) == cmd;
        if !Dispatched(Dict(json)) {
          RefusalsAreErrors(h, Dict(json));
          assert false;
        }
        TemplateOfDict(cmd, params.entries);
      }
    }
  }

  /** A reply that parses to a dictionary is answered with itself, its result and a summary, whatever the command did. */
  lemma {:induction false} ParsedDictAnswered(h: Host, userPrompt: string, currentDir: string, send: string -> ModelReply)
    requires send(FullPrompt(currentDir, userPrompt)).Parsed? && send(FullPrompt(currentDir, userPrompt)).json.Dict?
    ensures var json := send(FullPrompt(currentDir, userPrompt)).json;
      var r := ProcessRequest(h, userPrompt, currentDir, send);
      Keys(r.result) == ["agent_command", "result", "summary"] &&
      r.result[0].1 == json && r.result[1].1 == Dict(Execute(h, json).result) && r.effects == Execute(h, json).effects
  {
    var json := send(FullPrompt(currentDir, userPrompt)).json;
    ExecutedSummarised(h, json.entries);
  }
}
