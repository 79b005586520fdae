/**
 * The command dispatcher shared by the `EnhancedFileAgent`/`FileAgent`
 * backends: `_summarize_action`, and the part of `_execute_single_command`
 * that rewrites a step and routes it to a handler.
 *
 * `_execute_single_command` rewrites the `parameters` dictionary in place, so
 * the step the caller holds changes with it; `Prepare` returns that rewritten
 * step. A call `handler(**params)` binds as `Binding.Bind` says; `Handle` is
 * what the bound handler answers. `_search_item`, the one handler that needs
 * the agent's memory, is routed by the agents themselves.
 */
module Dispatch {
  import opened Base
  import opened Text
  import opened Values
  import opened Host
  import opened Binding
  import opened Handlers
  import Apps
  import Browse

  // ---------------------------------------------------------------------------
  // _summarize_action
  // ---------------------------------------------------------------------------

  /**
   * `_summarize_action(command, result)`: one sentence about a step of a
   * workflow. A handler answers with a dictionary, or with `None` when it has
   * no `return` on its path, and `"error" in None` raises.
   */
  function Summarize(step: Entries, result: Value): (r: Outcome<string>)
    ensures result.Dict? ==> r.Ok?
    ensures !(result.Dict? || result.List? || result.Str?) ==> r.Raised?
  {
    var cmd := Get(step, "command", Str(""));
    var params := Get(step, "parameters", Dict([]));
    match Contains(result, "error")
    case Raised(m) => Raised(m)
    case Ok(failed) =>
      if !failed then Ok("✅ " + PyStr(cmd) + " executed with " + PyStr(params))
      else
        match GetItem(result, "error")
        case Raised(m) => Raised(m)
        case Ok(error) => Ok("❌ Failed to " + PyStr(cmd) + " with " + PyStr(params) + ". Reason: " + PyStr(error))
  }

  // ---------------------------------------------------------------------------
  // Alias rewriting and the command alias
  // ---------------------------------------------------------------------------

  /** `if alias in params and "path" not in params: params["path"] = params.pop(alias)` */
  function Rename(params: Value, alias: string): Outcome<Value>
  {
    match Contains(params, alias)
    case Raised(m) => Raised(m)
    case Ok(hasAlias) =>
      if !hasAlias then Ok(params)
      else
        match Contains(params, "path")
        case Raised(m) => Raised(m)
        case Ok(hasPath) =>
          if hasPath then Ok(params)
          else
            match params
            case Dict(e) => Ok(Dict(Put(Remove(e, alias), "path", Lookup(e, alias).value)))
            case List(_) => Raised("'str' object cannot be interpreted as an integer")
            case _ => Raised(NoAttribute(params, "pop"))
  }

  /** `file_path`, then `folder_path`, become `path` when `path` is not given. */
  function Normalize(params: Value): Outcome<Value>
  {
    match Rename(params, "file_path")
    case Raised(m) => Raised(m)
    case Ok(p) => Rename(p, "folder_path")
  }

  /** `execute_file` is run as `execute_code`. */
  function Remap(command: Value): Value
  {
    if command == Str("execute_file") then Str("execute_code") else command
  }

  /** Where a step goes: the handler of a known command with its parameters, or the unknown-command error. */
  datatype Target = Run(name: string, params: Value) | Unknown(command: Value)

  /**
   * The step as the caller holds it afterwards (its parameters are rewritten
   * in place before the lookup can raise), and where it goes.
   */
  datatype Prepared = Prepared(step: Value, target: Outcome<Target>)

  /** The first half of `_execute_single_command`, up to the lookup in `command_map`. */
  function Prepare(step: Value, commands: set<string>): (r: Prepared)
    ensures r.step.Dict? <==> step.Dict?
    ensures r.target.Ok? ==> step.Dict?
  {
    match GetOr(step, "command", Null)
    case Raised(m) => Prepared(step, Raised(m))
    case Ok(command) =>
      match GetOr(step, "parameters", Dict([]))
      case Raised(m) => Prepared(step, Raised(m))
      case Ok(params) =>
        match Normalize(params)
        case Raised(m) => Prepared(step, Raised(m))
        case Ok(rewritten) =>
          var step' := if rewritten == params then step else Dict(Put(step.entries, "parameters", rewritten));
          var name := Remap(command);
          if !Hashable(name) then Prepared(step', Raised(Unhashable(name)))
          else if name.Str? && name.s in commands then Prepared(step', Ok(Run(name.s, rewritten)))
          else Prepared(step', Ok(Unknown(name)))
  }

  function UnknownError(command: Value): Entries
  {
    Error("Unknown command '" + PyStr(command) + "'")
  }

  // ---------------------------------------------------------------------------
  // command_map
  // ---------------------------------------------------------------------------

  /** The seventeen names every `command_map` has. */
  function CommonCommands(): set<string>
  {
    { "create_file", "write_file", "open_file", "open_folder", "execute_code", "execute_file",
      "search_item", "open_application", "list_directory", "read_file", "move_item",
      "delete_file", "delete_directory", "clarify", "respond", "copy_item", "create_directory" }
  }

  /** The browser and system commands `backend/jarvis_backend_v1.py` adds. */
  function SystemCommands(): set<string>
  {
    { "close_program", "list_running_programs", "browse_internet", "get_system_info",
      "get_current_time", "get_weather", "get_location", "check_browsers" }
  }

  /** The method a command name is bound to. */
  function MethodName(name: string): string
  {
    if name == "check_browsers" then "_check_available_browsers"
    else if name == "execute_file" then "_execute_code"
    else "_" + name
  }

  /** The parameters after `self` of the method a command runs. */
  function Params(name: string): seq<Param>
  {
    if name == "create_file" || name == "write_file" then
      [Required("path"), Optional("content", Str("")), Optional("open_after", Bool(false))]
    else if name == "open_file" then [Required("path"), Optional("application", Null)]
    else if name == "execute_code" || name == "execute_file" then [Optional("path", Null), Optional("language", Null)]
    else if name == "open_application" then [Required("application")]
    else if name == "list_directory" then [Optional("path", Str("."))]
    else if name == "move_item" || name == "copy_item" then [Required("source"), Required("destination")]
    else if name == "open_folder" || name == "read_file" || name == "delete_file" || name == "delete_directory" then
      [Required("path")]
    else if name == "create_directory" then [Required("path"), Optional("exist_ok", Bool(true))]
    else if name == "clarify" then [Required("question")]
    else if name == "respond" then [Required("message")]
    else if name == "close_program" then [Optional("program_name", Null)]
    else if name == "browse_internet" then
      [Optional("website", Null), Optional("query", Null), Optional("application", Str("chrome"))]
    else if name == "get_weather" then [Optional("location", Null)]
    else []
  }

  /** `_execute_code` and `_search_item` take `**kwargs`. */
  function TakesKeywords(name: string): bool
  {
    name == "execute_code" || name == "execute_file" || name == "search_item"
  }

  /** The signature of command `name` in class `cls`. */
  function SignatureOf(cls: string, name: string): Signature
  {
    Signature(cls + "." + MethodName(name), Params(name), TakesKeywords(name))
  }

  /** The signature of `_search_item(self, **kwargs)` in class `cls`. */
  function SearchSignature(cls: string): Signature
  {
    Signature(cls + "._search_item", [], true)
  }

  /** A bound argument by name. */
  function Arg(args: Entries, name: string): Value
  {
    Get(args, name, Null)
  }

  /** What the handler of `name` answers once its arguments are bound. */
  function Handle(h: Host, name: string, b: Bound): Reply
    requires name != "search_item"
  {
    var a := b.args;
    if name == "open_file" then OpenFile(h, Arg(a, "path"), Arg(a, "application"))
    else if name == "open_folder" then OpenFolder(h, Arg(a, "path"))
    else if name == "execute_code" || name == "execute_file" then ExecuteCode(h, Arg(a, "path"), b.extra)
    else if name == "open_application" then Apps.OpenApplication(h, Arg(a, "application"))
    else if name == "copy_item" then CopyItem(h, Arg(a, "source"), Arg(a, "destination"))
    else if name == "clarify" then Clarify(Arg(a, "question"))
    else if name == "respond" then Respond(Arg(a, "message"))
    else if name == "close_program" then Apps.CloseProgram(h, Arg(a, "program_name"))
    else if name == "browse_internet" then
      Browse.BrowseInternet(h, Arg(a, "website"), Arg(a, "query"), Arg(a, "application"))
    else Forward(h, name, a)
  }

  /** `command_map[name](**params)` for every command but `search_item`: binding raises, the handler does not. */
  function Invoke(h: Host, cls: string, moduleName: string, name: string, params: Value): (r: Outcome<Reply>)
    requires name != "search_item"
    ensures r.Raised? <==> Bind(SignatureOf(cls, name), moduleName, params).Raised?
  {
    match Bind(SignatureOf(cls, name), moduleName, params)
    case Raised(m) => Raised(m)
    case Ok(b) => Ok(Handle(h, name, b))
  }

  // ---------------------------------------------------------------------------
  // Properties
  // ---------------------------------------------------------------------------

  /** A dictionary result is always summarised: as a failure exactly when it has an `error` key, otherwise as a success. */
  lemma {:induction false} SummaryMarksFailure(step: Entries, result: Entries)
    ensures Summarize(step, Dict(result)).Ok?
    ensures IsPrefix("❌ Failed to ", Summarize(step, Dict(result)).value) <==> HasKey(result, "error")
    ensures IsPrefix("✅ ", Summarize(step, Dict(result)).value) <==> !HasKey(result, "error")
  {
    var s := Summarize(step, Dict(result)).value;
    var cmd := PyStr(Get(step, "command", Str("")));
    var params := PyStr(Get(step, "parameters", Dict([])));
    if HasKey(result, "error") {
      var rest := cmd + " with " + params + ". Reason: " + PyStr(Lookup(result, "error").value);
      assert s == "❌ Failed to " + rest;
      PrefixOfAppend("❌ Failed to ", rest);
      NotPrefixByHead("✅ ", s);
    } else {
      var rest := cmd + " executed with " + params;
      assert s == "✅ " + rest;
      PrefixOfAppend("✅ ", rest);
      NotPrefixByHead("❌ Failed to ", s);
    }
  }

  /** A result that is not a dictionary, a list or a string cannot be summarised: `in` raises. */
  lemma {:induction false} SummaryOfNoneRaises(step: Entries)
    ensures Summarize(step, Null) == Raised("argument of type 'NoneType' is not iterable")
  {
  }

  /** A step without a `command` is summarised with an empty command name and its parameters' `repr`. */
  lemma {:induction false} SummaryOfMissingCommand(step: Entries, result: Entries)
    requires !HasKey(step, "command") && !HasKey(result, "error") && Lookup(step, "parameters") == Some(Dict([]))
    ensures Summarize(step, Dict(result)) == Ok("✅  executed with {}")
  {
    assert Contains(Dict(result), "error") == Ok(false);
    assert Get(step, "command", Str("")) == Str("") && PyStr(Str("")) == "";
    assert Get(step, "parameters", Dict([])) == Dict([]);
    assert PyStr(Dict([])) == "{}";
    assert "✅ " + "" + " executed with " + "{}" == "✅  executed with {}";
  }

  /**
   * The alias rewrite of a parameters dictionary: `path` keeps a value it has;
   * otherwise it takes the value of `file_path`, or failing that of
   * `folder_path`, and that alias disappears. No other key changes.
   */
  lemma {:induction false} NormalizeDict(e: Entries)
    requires UniqueKeys(e)
    ensures Normalize(Dict(e)).Ok? && Normalize(Dict(e)).value.Dict?
    ensures var e' := Normalize(Dict(e)).value.entries;
      UniqueKeys(e') &&
      (HasKey(e, "path") ==> e' == e) &&
      (!HasKey(e, "path") && HasKey(e, "file_path") ==>
        Lookup(e', "path") == Lookup(e, "file_path") && !HasKey(e', "file_path") &&
        Lookup(e', "folder_path") == Lookup(e, "folder_path")) &&
      (!HasKey(e, "path") && !HasKey(e, "file_path") && HasKey(e, "folder_path") ==>
        Lookup(e', "path") == Lookup(e, "folder_path") && !HasKey(e', "folder_path")) &&
      (!HasKey(e, "path") && !HasKey(e, "file_path") && !HasKey(e, "folder_path") ==> e' == e) &&
      (forall k :: k != "path" && k != "file_path" && k != "folder_path" ==> Lookup(e', k) == Lookup(e, k))
  {
    if !HasKey(e, "path") && HasKey(e, "file_path") {
      RemoveKeepsKeysUnique(e, "file_path");
      PutKeepsKeysUnique(Remove(e, "file_path"), "path", Lookup(e, "file_path").value);
    } else if !HasKey(e, "path") && HasKey(e, "folder_path") {
      RemoveKeepsKeysUnique(e, "folder_path");
      PutKeepsKeysUnique(Remove(e, "folder_path"), "path", Lookup(e, "folder_path").value);
    }
  }

  /** A list of parameters that names an alias, and not `path`, cannot be popped by name. */
  lemma {:induction false} NormalizeListRaises(items: seq<Value>)
    requires Str("file_path") in items && Str("path") !in items
    ensures Normalize(List(items)) == Raised("'str' object cannot be interpreted as an integer")
  {
  }

  /** A string holding an alias also holds `path`, so a string of parameters is never rewritten. */
  lemma {:induction false} NormalizeKeepsStrings(s: string)
    ensures Normalize(Str(s)) == Ok(Str(s))
  {
    var fp, fo := "file_path", "folder_path";
    assert fp[5..] == "path" && fo[7..] == "path";
    if IsSubstring(fp, s) {
      SubstringOfTail(fp, 5, s);
    }
    if IsSubstring(fo, s) {
      SubstringOfTail(fo, 7, s);
    }
  }

  /** `execute_file` runs the `execute_code` handler; a name outside the map is reported as unknown, under its own name. */
  lemma {:induction false} PrepareRoutes(step: Entries, commands: set<string>)
    requires Prepare(Dict(step), commands).target.Ok?
    ensures var t := Prepare(Dict(step), commands).target.value;
      var command := Get(step, "command", Null);
      (command == Str("execute_file") ==>
        if "execute_code" in commands then t.Run? && t.name == "execute_code" else t == Unknown(Str("execute_code"))) &&
      (command != Str("execute_file") ==>
        if command.Str? && command.s in commands then t.Run? && t.name == command.s else t == Unknown(command))
  {
  }

  /** Preparing a step changes nothing in it but its `parameters`, which become the parameters the handler is called with. */
  lemma {:induction false} PrepareRewritesOnlyParameters(step: Entries, commands: set<string>)
    ensures var p := Prepare(Dict(step), commands);
      (forall k :: k != "parameters" ==> Lookup(p.step.entries, k) == Lookup(step, k)) &&
      (p.target.Ok? && p.target.value.Run? ==>
        p.step == Dict(step) || Lookup(p.step.entries, "parameters") == Some(p.target.value.params))
  {
  }

  /** A list or dictionary as command name cannot be looked up in `command_map`. */
  lemma {:induction false} UnhashableCommandRaises(step: Entries, commands: set<string>)
    requires HasKey(step, "command") && !Hashable(Lookup(step, "command").value)
    ensures Prepare(Dict(step), commands).target.Raised?
  {
  }
}
