/**
 * `EnhancedFileAgent` of `backend/.ipynb_checkpoints/jarvis_backend-checkpoint.py`:
 * the same memory and `_search_item` as the later backend, but seventeen
 * commands and no `try` around the handler call, so an exception raised by a
 * handler, or by binding its arguments, escapes `_execute_single_command` and
 * ends the whole `_execute_command`.
 *
 * `process_request` builds the prompt from the conversation context, hands it
 * to the language model (a parameter here), runs what comes back and records
 * the turn in the history.
 */
module AgentCheckpoint {
  import opened Base
  import opened Values
  import opened Host
  import opened Binding
  import opened Handlers
  import opened Memory
  import opened Dispatch
  import opened Workflow
  import Search

  const Cls := "EnhancedFileAgent"
  const ModuleName := "__main__"

  /** `_search_item(**params)`, with nothing around it to catch what it raises. */
  function SearchCommand(h: Host, c: Cache, step: Value, params: Value): Ran<Cache>
  {
    match Bind(SearchSignature(Cls), ModuleName, params)
    case Raised(m) => Ran(step, Raised(m), c, [])
    case Ok(b) =>
      match Search.SearchItem(h, c, b.extra)
      case Raised(m) => Ran(step, Raised(m), c, [])
      case Ok(s) => Ran(step, Ok(Dict(s.result)), s.cache, s.effects)
  }

  /** `command_map[name](**params)` for every other command, with nothing around it either. */
  function HandlerCommand(h: Host, c: Cache, step: Value, name: string, params: Value): Ran<Cache>
    requires name != "search_item"
  {
    match Invoke(h, Cls, ModuleName, name, params)
    case Raised(m) => Ran(step, Raised(m), c, [])
    case Ok(reply) => Ran(step, Ok(Dict(reply.result)), c, reply.effects)
  }

  /** What `_execute_single_command` does once the step has been looked at. */
  function Route(h: Host, c: Cache, p: Prepared): Ran<Cache>
  {
    match p.target
    case Raised(m) => Ran(p.step, Raised(m), c, [])
    case Ok(Unknown(command)) => Ran(p.step, Ok(Dict(UnknownError(command))), c, [])
    case Ok(Run(name, params)) =>
      if name == "search_item" then SearchCommand(h, c, p.step, params)
      else HandlerCommand(h, c, p.step, name, params)
  }

  /** `_execute_single_command(step)` from search cache `c`. */
  function Single(h: Host, c: Cache, step: Value): Ran<Cache>
  {
    Route(h, c, Prepare(step, CommonCommands()))
  }

  /** `self._execute_single_command`, as the workflow loop calls it. */
  function Step(h: Host): (Cache, Value) -> Ran<Cache>
  {
    (c: Cache, step: Value) => Single(h, c, step)
  }

  lemma StepIs(h: Host, c: Cache, step: Value)
    ensures Step(h)(c, step) == Single(h, c, step)
  {
  }

  /** The prompt `process_request` sends. */
  function FullPrompt(context: string, currentDir: string, userPrompt: string): string
  {
    context + "\n\nCurrent Directory: '" + currentDir + "'\nUser: '" + userPrompt + "'"
  }

  class Agent {
    const host: Host
    const memory: ConversationMemory
    ghost var effects: seq<Effect>
    ghost const single: (Cache, Value) -> Ran<Cache>

    ghost predicate Valid()
    {
      forall c: Cache, x: Value {:trigger Single(host, c, x)} :: single(c, x) == Single(host, c, x)
    }

    constructor (host: Host, memory: ConversationMemory)
      ensures this.host == host && this.memory == memory && effects == []
      ensures single == Step(host) && Valid()
    {
      this.host := host;
      this.memory := memory;
      effects := [];
      single := Step(host);
      new;
      forall c: Cache, x: Value ensures single(c, x) == Single(host, c, x) {
        StepIs(host, c, x);
      }
    }

    /** `process_request(user_prompt, current_dir)`, with the model's answer to the prompt given by `send`. */
    method ProcessRequest(userPrompt: string, currentDir: string, send: string -> ModelReply) returns (r: Entries)
      requires Valid()
      modifies memory`history, memory`cache, this`effects
      ensures match send(FullPrompt(Context(old(memory.history)), currentDir, userPrompt))
        case Parsed(json) =>
          var e := Execute(single, old(memory.cache), json);
          e.result.Dict? && r == [("agent_command", e.response), ("result", e.result)] &&
          memory.history == Trim(old(memory.history) + [Interaction(userPrompt, e.response, e.result.entries)], memory.maxHistory) &&
          memory.cache == e.state && effects == old(effects) + e.effects
        case InvalidJson(raw) =>
          r == [("error", Str("Invalid JSON from model")), ("raw", Str(raw))] &&
          memory.history == old(memory.history) && memory.cache == old(memory.cache) && effects == old(effects)
        case SendFailed(m) =>
          r == Error(m) &&
          memory.history == old(memory.history) && memory.cache == old(memory.cache) && effects == old(effects)
    {
      var context := memory.GetContext();
      var reply := send(FullPrompt(context, currentDir, userPrompt));
      match reply
      case SendFailed(m) =>
        r := Error(m);
      case InvalidJson(raw) =>
        r := [("error", Str("Invalid JSON from model")), ("raw", Str(raw))];
      case Parsed(json) =>
        forall t: Cache, x: Value ensures single(t, x).result.Ok? ==> single(t, x).result.value.Dict? {
          SingleAnswersDict(host, t, x);
        }
        AnswersDict(single, memory.cache, json);
        var result, response := ExecuteCommand(json);
        memory.AddInteraction(userPrompt, response, result.entries);
        r := [("agent_command", response), ("result", result)];
    }

    /** `self._execute_single_command(step)`, as `_execute_command` calls it. */
    method RunStep(step: Value) returns (step': Value, r: Outcome<Value>)
      requires Valid()
      modifies memory`cache, this`effects
      ensures var ran := single(old(memory.cache), step);
        step' == ran.step && r == ran.result && memory.cache == ran.state && effects == old(effects) + ran.effects
    {
      assert single(memory.cache, step) == Single(host, memory.cache, step);
      step', r := ExecuteSingleCommand(step);
    }

    /** `_execute_single_command(step)`: the step afterwards, and the dictionary returned or the exception raised. */
    method ExecuteSingleCommand(step: Value) returns (step': Value, r: Outcome<Value>)
      modifies memory`cache, this`effects
      ensures var ran := Single(host, old(memory.cache), step);
        step' == ran.step && r == ran.result && memory.cache == ran.state && effects == old(effects) + ran.effects
    {
      var p := Prepare(step, CommonCommands());
      step', r := RouteStep(p);
    }

    /** The rest of `_execute_single_command` once the step has been looked at. */
    method RouteStep(p: Prepared) returns (step': Value, r: Outcome<Value>)
      modifies memory`cache, this`effects
      ensures var ran := Route(host, old(memory.cache), p);
        step' == ran.step && r == ran.result && memory.cache == ran.state && effects == old(effects) + ran.effects
    {
      step' := p.step;
      if p.target.Raised? {
        return step', Raised(p.target.message);
      }
      if p.target.value.Unknown? {
        return step', Ok(Dict(UnknownError(p.target.value.command)));
      }
      var name, params := p.target.value.name, p.target.value.params;
      if name == "search_item" {
        r := RunSearch(step', params);
      } else {
        r := RunHandler(step', name, params);
      }
    }

    /** The `search_item` branch, on the agent's memory. */
    method RunSearch(step: Value, params: Value) returns (r: Outcome<Value>)
      modifies memory`cache, this`effects
      ensures var ran := SearchCommand(host, old(memory.cache), step, params);
        r == ran.result && memory.cache == ran.state && effects == old(effects) + ran.effects
    {
      var b := Bind(SearchSignature(Cls), ModuleName, params);
      if b.Raised? {
        return Raised(b.message);
      }
      var s := Search.SearchIn(host, memory, b.value.extra);
      if s.Raised? {
        return Raised(s.message);
      }
      effects := effects + s.value.effects;
      r := Ok(Dict(s.value.result));
    }

    /** Any other handler. */
    method RunHandler(step: Value, name: string, params: Value) returns (r: Outcome<Value>)
      requires name != "search_item"
      modifies this`effects
      ensures var ran := HandlerCommand(host, memory.cache, step, name, params);
        r == ran.result && effects == old(effects) + ran.effects
    {
      var ran := HandlerCommand(host, memory.cache, step, name, params);
      effects := effects + ran.effects;
      r := ran.result;
    }

    /** `_execute_command(response)`: the answer, and the reply as the caller holds it afterwards. */
    method ExecuteCommand(response: Value) returns (r: Value, response': Value)
      requires Valid()
      modifies memory`cache, this`effects
      ensures var e := Execute(single, old(memory.cache), response);
        r == e.result && response' == e.response && memory.cache == e.state && effects == old(effects) + e.effects
    {
      ExecuteByCase(single, memory.cache, response);
      var isWorkflow := Contains(response, "workflow");
      if isWorkflow.Raised? {
        return ExecutionError(isWorkflow.message), response;
      }
      var e;
      if isWorkflow.value {
        e := ExecuteWorkflowIn(response);
      } else {
        e := ExecuteStepIn(response);
      }
      r, response' := e.0, e.1;
    }

    /** The single-command branch of `_execute_command`: the step's dictionary, or the error it raised. */
    method ExecuteStepIn(response: Value) returns (e: (Value, Value))
      requires Valid()
      modifies memory`cache, this`effects
      ensures var ran := single(old(memory.cache), response);
        e == (match ran.result case Raised(m) => ExecutionError(m) case Ok(v) => v, ran.step) &&
        memory.cache == ran.state && effects == old(effects) + ran.effects
    {
      var step, result := RunStep(response);
      e := (if result.Raised? then ExecutionError(result.message) else result.value, step);
    }

    /** The `workflow` branch of `_execute_command`. */
    method ExecuteWorkflowIn(response: Value) returns (e: (Value, Value))
      requires Valid()
      modifies memory`cache, this`effects
      ensures var x := ExecuteWorkflow(single, old(memory.cache), response);
        e == (x.result, x.response) && memory.cache == x.state && effects == old(effects) + x.effects
    {
      var w := GetItem(response, "workflow");
      if w.Raised? {
        return (ExecutionError(w.message), response);
      }
      var items := Iterate(w.value);
      if items.Raised? {
        return (ExecutionError(items.message), response);
      }
      var f := RunWorkflow(items.value);
      var response' := if w.value.List? then Dict(Put(response.entries, "workflow", List(f.1))) else response;
      e := (if f.0.Raised? then ExecutionError(f.0.message) else Dict([("workflow", List(f.0.value))]), response');
    }

    /** The `for step in …` loop: its entries or the exception that ended it, and the steps afterwards. */
    method RunWorkflow(steps: seq<Value>) returns (f: (Outcome<seq<Value>>, seq<Value>))
      requires Valid()
      modifies memory`cache, this`effects
      ensures var flow := Flow(single, old(memory.cache), steps);
        f == (flow.entries, flow.steps) && memory.cache == flow.state && effects == old(effects) + flow.effects
    {
      ghost var c0 := memory.cache;
      ghost var e0 := effects;
      var entries: seq<Value> := [];
      var done: seq<Value> := [];
      ghost var effs: seq<Effect> := [];
      var j := 0;
      while j < |steps|
        invariant 0 <= j <= |steps|
        invariant Flow(single, c0, steps[..j]) == Flowed(Ok(entries), done, memory.cache, effs)
        invariant effects == e0 + effs
      {
        ghost var c := memory.cache;
        var step, result := RunStep(steps[j]);
        FlowPrefix(single, c0, steps, j);
        AppendAssoc(e0, effs, single(c, steps[j]).effects);
        effs := effs + single(c, steps[j]).effects;
        if result.Raised? || !step.Dict? {
          FlowStopped(single, c0, steps, j + 1);
          var m := if result.Raised? then result.message else NoAttribute(step, "get");
          return (Raised(m), done + [step] + steps[j + 1..]);
        }
        var summary := Summarize(step.entries, result.value);
        if summary.Raised? {
          FlowStopped(single, c0, steps, j + 1);
          return (Raised(summary.message), done + [step] + steps[j + 1..]);
        }
        entries := entries + [Entry(step.entries, result.value, summary.value)];
        done := done + [step];
        j := j + 1;
      }
      assert steps[..j] == steps;
      f := (Ok(entries), done);
    }
  }

  // ---------------------------------------------------------------------------
  // Properties
  // ---------------------------------------------------------------------------

  /** A handler whose arguments cannot be bound raises the binding error out of `_execute_single_command`, with no effect. */
  lemma {:induction false} BindFailureRaises(h: Host, c: Cache, step: Value, name: string, params: Value)
    requires Prepare(step, CommonCommands()).target == Ok(Run(name, params)) && name != "search_item"
    requires Bind(SignatureOf(Cls, name), ModuleName, params).Raised?
    ensures var ran := Single(h, c, step);
      ran.result == Raised(Bind(SignatureOf(Cls, name), ModuleName, params).message) &&
      ran.state == c && ran.effects == []
  {
  }

  /** Every step that does not raise answers with a dictionary. */
  lemma {:induction false} SingleAnswersDict(h: Host, c: Cache, step: Value)
    ensures Single(h, c, step).result.Ok? ==> Single(h, c, step).result.value.Dict?
  {
    var p := Prepare(step, CommonCommands());
    if p.target.Ok? && p.target.value.Run? {
      var name, params := p.target.value.name, p.target.value.params;
      if name == "search_item" {
        var b := Bind(SearchSignature(Cls), ModuleName, params);
        if b.Ok? {
          var s := Search.SearchItem(h, c, b.value.extra);
        }
      } else {
        var r := Invoke(h, Cls, ModuleName, name, params);
      }
    }
  }

  /**
   * One raising step aborts the whole workflow: when the steps before step
   * `j` have run and step `j` raises, `_execute_command` answers only
   * `Execution error: …` with that step's message, and every result of the
   * earlier steps is lost.
   */
  lemma {:induction false} RaiseAbortsWorkflow(h: Host, c: Cache, response: Entries, items: seq<Value>, j: nat)
    requires Lookup(response, "workflow") == Some(List(items)) && j < |items|
    requires Flow(Step(h), c, items[..j]).entries.Ok?
    requires Single(h, Flow(Step(h), c, items[..j]).state, items[j]).result.Raised?
    ensures Execute(Step(h), c, Dict(response)).result ==
      ExecutionError(Single(h, Flow(Step(h), c, items[..j]).state, items[j]).result.message)
  {
    var pre := Flow(Step(h), c, items[..j]);
    StepIs(h, pre.state, items[j]);
    FlowPrefix(Step(h), c, items, j);
    FlowStopped(Step(h), c, items, j + 1);
    RaiseDiscardsEntries(Step(h), c, response, items);
  }

  /** A command outside `command_map`, including the system commands of the later backend, answers `Unknown command '<name>'`. */
  lemma {:induction false} UnknownCommand(h: Host, c: Cache, step: Entries, name: string)
    requires Lookup(step, "command") == Some(Str(name)) && name != "execute_file" && name !in CommonCommands()
    requires !HasKey(step, "parameters")
    ensures Single(h, c, Dict(step)) == Ran(Dict(step), Ok(Dict(Error("Unknown command '" + name + "'"))), c, [])
  {
    assert Normalize(Dict([])) == Ok(Dict([]));
  }
}
