/**
 * `FileAgent` of `backend/jarvis_backend.py`: the dispatcher and workflow loop
 * of the checkpoint backend, without a conversation memory. Its
 * `_search_item` is the earlier one, which neither caches nor scores, and
 * there is no `try` around the handler call, so an exception raised by a
 * handler, or by binding its arguments, ends the whole `_execute_command`.
 *
 * `process_request` hands the prompt to the language model (a parameter
 * here) and runs what comes back; nothing is remembered between requests.
 */
module AgentBasic {
  import opened Base
  import opened Values
  import opened Host
  import opened Binding
  import opened Handlers
  import opened Dispatch
  import opened Workflow
  import Search

  const Cls := "FileAgent"
  const ModuleName := "__main__"

  /** The agent keeps no state between steps. */
  type NoState = ()

  /** `_search_item(**params)`: the earlier search, with nothing around it to catch what it raises. */
  function SearchCommand(h: Host, step: Value, params: Value): Ran<NoState>
  {
    match Bind(SearchSignature(Cls), ModuleName, params)
    case Raised(m) => Ran(step, Raised(m), (), [])
    case Ok(b) =>
      match Search.BasicSearch(h, b.extra)
      case Raised(m) => Ran(step, Raised(m), (), [])
      case Ok(reply) => Ran(step, Ok(Dict(reply.result)), (), reply.effects)
  }

  /** `command_map[name](**params)` for every other command, with nothing around it either. */
  function HandlerCommand(h: Host, step: Value, name: string, params: Value): Ran<NoState>
    requires name != "search_item"
  {
    match Invoke(h, Cls, ModuleName, name, params)
    case Raised(m) => Ran(step, Raised(m), (), [])
    case Ok(reply) => Ran(step, Ok(Dict(reply.result)), (), reply.effects)
  }

  /** What `_execute_single_command` does once the step has been looked at. */
  function Route(h: Host, p: Prepared): Ran<NoState>
  {
    match p.target
    case Raised(m) => Ran(p.step, Raised(m), (), [])
    case Ok(Unknown(command)) => Ran(p.step, Ok(Dict(UnknownError(command))), (), [])
    case Ok(Run(name, params)) =>
      if name == "search_item" then SearchCommand(h, p.step, params)
      else HandlerCommand(h, p.step, name, params)
  }

  /** `_execute_single_command(step)` */
  function Single(h: Host, step: Value): Ran<NoState>
  {
    Route(h, Prepare(step, CommonCommands()))
  }

  /** `self._execute_single_command`, as the workflow loop calls it. */
  function Step(h: Host): (NoState, Value) -> Ran<NoState>
  {
    (u: NoState, step: Value) => Single(h, step)
  }

  lemma StepIs(h: Host, u: NoState, step: Value)
    ensures Step(h)(u, step) == Single(h, step)
  {
  }

  /** The prompt `process_request` sends: the directory and the request, and no earlier turns. */
  function FullPrompt(currentDir: string, userPrompt: string): string
  {
    "Current Directory: '" + currentDir + "'\nUser: '" + userPrompt + "'"
  }

  class Agent {
    const host: Host
    ghost var effects: seq<Effect>
    ghost const single: (NoState, Value) -> Ran<NoState>

    ghost predicate Valid()
    {
      forall u: NoState, x: Value {:trigger Single(host, x), single(u, x)} :: single(u, x) == Single(host, x)
    }

    constructor (host: Host)
      ensures this.host == host && effects == []
      ensures single == Step(host) && Valid()
    {
      this.host := host;
      effects := [];
      single := Step(host);
      new;
      forall u: NoState, x: Value ensures single(u, x) == Single(host, x) {
        StepIs(host, u, x);
      }
    }

    /** `process_request(user_prompt, current_dir)`, with the model's answer to the prompt given by `send`. */
    method ProcessRequest(userPrompt: string, currentDir: string, send: string -> ModelReply) returns (r: Entries)
      requires Valid()
      modifies this`effects
      ensures match send(FullPrompt(currentDir, userPrompt))
        case Parsed(json) =>
          var e := Execute(single, (), json);
          e.result.Dict? && r == [("agent_command", e.response), ("result", e.result)] &&
          effects == old(effects) + e.effects
        case InvalidJson(raw) =>
          r == [("error", Str("Invalid JSON from model")), ("raw", Str(raw))] && effects == old(effects)
        case SendFailed(m) =>
          r == Error(m) && effects == old(effects)
    {
      var reply := send(FullPrompt(currentDir, userPrompt));
      match reply
      case SendFailed(m) =>
        r := Error(m);
      case InvalidJson(raw) =>
        r := [("error", Str("Invalid JSON from model")), ("raw", Str(raw))];
      case Parsed(json) =>
        forall u: NoState, x: Value ensures single(u, x).result.Ok? ==> single(u, x).result.value.Dict? {
          SingleAnswersDict(host, x);
        }
        AnswersDict(single, (), json);
        var result, response := ExecuteCommand(json);
        r := [("agent_command", response), ("result", result)];
    }

    /** `self._execute_single_command(step)`, as `_execute_command` calls it. */
    method RunStep(step: Value) returns (step': Value, r: Outcome<Value>)
      requires Valid()
      modifies this`effects
      ensures var ran := single((), step);
        step' == ran.step && r == ran.result && effects == old(effects) + ran.effects
    {
      assert single((), step) == Single(host, step);
      step', r := ExecuteSingleCommand(step);
    }

    /** `_execute_single_command(step)`: the step afterwards, and the dictionary returned or the exception raised. */
    method ExecuteSingleCommand(step: Value) returns (step': Value, r: Outcome<Value>)
      modifies this`effects
      ensures var ran := Single(host, step);
        step' == ran.step && r == ran.result && effects == old(effects) + ran.effects
    {
      var p := Prepare(step, CommonCommands());
      step', r := RouteStep(p);
    }

    /** The rest of `_execute_single_command` once the step has been looked at. */
    method RouteStep(p: Prepared) returns (step': Value, r: Outcome<Value>)
      modifies this`effects
      ensures var ran := Route(host, p);
        step' == ran.step && r == ran.result && effects == old(effects) + ran.effects
    {
      step' := p.step;
      if p.target.Raised? {
        return step', Raised(p.target.message);
      }
      if p.target.value.Unknown? {
        return step', Ok(Dict(UnknownError(p.target.value.command)));
      }
      var name, params := p.target.value.name, p.target.value.params;
      if name == "search_item" {
        r := RunSearch(step', params);
      } else {
        match Invoke(host, Cls, ModuleName, name, params)
        case Raised(m) =>
          r := Raised(m);
        case Ok(reply) =>
          effects := effects + reply.effects;
          r := Ok(Dict(reply.result));
      }
    }

    /** The `search_item` branch, through the loops of the earlier search. */
    method RunSearch(step: Value, params: Value) returns (r: Outcome<Value>)
      modifies this`effects
      ensures var ran := SearchCommand(host, step, params);
        r == ran.result && effects == old(effects) + ran.effects
    {
      var b := Bind(SearchSignature(Cls), ModuleName, params);
      if b.Raised? {
        return Raised(b.message);
      }
      var s := Search.BasicSearchIn(host, b.value.extra);
      if s.Raised? {
        return Raised(s.message);
      }
      effects := effects + s.value.effects;
      r := Ok(Dict(s.value.result));
    }

    /** `_execute_command(response)`: the answer, and the reply as the caller holds it afterwards. */
    method ExecuteCommand(response: Value) returns (r: Value, response': Value)
      requires Valid()
      modifies this`effects
      ensures var e := Execute(single, (), response);
        r == e.result && response' == e.response && effects == old(effects) + e.effects
    {
      ExecuteByCase(single, (), response);
      var isWorkflow := Contains(response, "workflow");
      if isWorkflow.Raised? {
        return ExecutionError(isWorkflow.message), response;
      }
      var e;
      if isWorkflow.value {
        e := ExecuteWorkflowIn(response);
      } else {
        e := ExecuteStepIn(response);
      }
      r, response' := e.0, e.1;
    }

    /** The single-command branch of `_execute_command`: the step's dictionary, or the error it raised. */
    method ExecuteStepIn(response: Value) returns (e: (Value, Value))
      requires Valid()
      modifies this`effects
      ensures var ran := single((), response);
        e == (match ran.result case Raised(m) => ExecutionError(m) case Ok(v) => v, ran.step) &&
        effects == old(effects) + ran.effects
    {
      var step, result := RunStep(response);
      e := (if result.Raised? then ExecutionError(result.message) else result.value, step);
    }

    /** The `workflow` branch of `_execute_command`. */
    method ExecuteWorkflowIn(response: Value) returns (e: (Value, Value))
      requires Valid()
      modifies this`effects
      ensures var x := ExecuteWorkflow(single, (), response);
        e == (x.result, x.response) && effects == old(effects) + x.effects
    {
      var w := GetItem(response, "workflow");
      if w.Raised? {
        return (ExecutionError(w.message), response);
      }
      var items := Iterate(w.value);
      if items.Raised? {
        return (ExecutionError(items.message), response);
      }
      var f := RunWorkflow(items.value);
      var response' := if w.value.List? then Dict(Put(response.entries, "workflow", List(f.1))) else response;
      e := (if f.0.Raised? then ExecutionError(f.0.message) else Dict([("workflow", List(f.0.value))]), response');
    }

    /** The `for step in …` loop: its entries or the exception that ended it, and the steps afterwards. */
    method RunWorkflow(steps: seq<Value>) returns (f: (Outcome<seq<Value>>, seq<Value>))
      requires Valid()
      modifies this`effects
      ensures var flow := Flow(single, (), steps);
        f == (flow.entries, flow.steps) && effects == old(effects) + flow.effects
    {
      ghost var e0 := effects;
      var entries: seq<Value> := [];
      var done: seq<Value> := [];
      ghost var effs: seq<Effect> := [];
      var j := 0;
      while j < |steps|
        invariant 0 <= j <= |steps|
        invariant var fl := Flow(single, (), steps[..j]); fl.entries == Ok(entries) && fl.steps == done && fl.effects == effs
        invariant effects == e0 + effs
      {
        ghost var pre := Flow(single, (), steps[..j]);
        assert pre.state == ();
        var step, result := RunStep(steps[j]);
        FlowPrefix(single, (), steps, j);
        assert single(pre.state, steps[j]) == single((), steps[j]);
        AppendAssoc(e0, effs, single((), steps[j]).effects);
        effs := effs + single((), steps[j]).effects;
        if result.Raised? || !step.Dict? {
          FlowStopped(single, (), steps, j + 1);
          var m := if result.Raised? then result.message else NoAttribute(step, "get");
          return (Raised(m), done + [step] + steps[j + 1..]);
        }
        var summary := Summarize(step.entries, result.value);
        if summary.Raised? {
          FlowStopped(single, (), steps, j + 1);
          return (Raised(summary.message), done + [step] + steps[j + 1..]);
        }
        entries := entries + [Entry(step.entries, result.value, summary.value)];
        done := done + [step];
        j := j + 1;
      }
      assert steps[..j] == steps;
      f := (Ok(entries), done);
    }
  }

  // ---------------------------------------------------------------------------
  // Properties
  // ---------------------------------------------------------------------------

  /** A handler whose arguments cannot be bound raises the binding error out of `_execute_single_command`, with no effect. */
  lemma {:induction false} BindFailureRaises(h: Host, step: Value, name: string, params: Value)
    requires Prepare(step, CommonCommands()).target == Ok(Run(name, params)) && name != "search_item"
    requires Bind(SignatureOf(Cls, name), ModuleName, params).Raised?
    ensures var ran := Single(h, step);
      ran.result == Raised(Bind(SignatureOf(Cls, name), ModuleName, params).message) && ran.effects == []
  {
  }

  /** Every step that does not raise answers with a dictionary. */
  lemma {:induction false} SingleAnswersDict(h: Host, step: Value)
    ensures Single(h, step).result.Ok? ==> Single(h, step).result.value.Dict?
  {
    var p := Prepare(step, CommonCommands());
    if p.target.Ok? && p.target.value.Run? {
      var name, params := p.target.value.name, p.target.value.params;
      if name == "search_item" {
        var b := Bind(SearchSignature(Cls), ModuleName, params);
        if b.Ok? {
          var s := Search.BasicSearch(h, b.value.extra);
        }
      } else {
        var r := Invoke(h, Cls, ModuleName, name, params);
      }
    }
  }

  /**
   * One raising step aborts the whole workflow: when the steps before step
   * `j` have run and step `j` raises, `_execute_command` answers only
   * `Execution error: …` with that step's message, and every result of the
   * earlier steps is lost.
   */
  lemma {:induction false} RaiseAbortsWorkflow(h: Host, response: Entries, items: seq<Value>, j: nat)
    requires Lookup(response, "workflow") == Some(List(items)) && j < |items|
    requires Flow(Step(h), (), items[..j]).entries.Ok?
    requires Single(h, items[j]).result.Raised?
    ensures Execute(Step(h), (), Dict(response)).result == ExecutionError(Single(h, items[j]).result.message)
  {
    var pre := Flow(Step(h), (), items[..j]);
    StepIs(h, pre.state, items[j]);
    FlowPrefix(Step(h), (), items, j);
    FlowStopped(Step(h), (), items, j + 1);
    RaiseDiscardsEntries(Step(h), (), response, items);
  }

  /** A search whose `search_path` is not a string raises out of `_search_item`, before its `try`. */
  lemma {:induction false} SearchPathRaises(h: Host, step: Value, params: Entries)
    requires Prepare(step, CommonCommands()).target == Ok(Run("search_item", Dict(params)))
    requires !HasKey(params, "self") && !Get(params, "search_path", Str(".")).Str?
    ensures Single(h, step).result.Raised? && Single(h, step).effects == []
  {
    SearchBindsEveryKey(params);
    assert Single(h, step) == SearchCommand(h, Prepare(step, CommonCommands()).step, Dict(params));
  }

  /** Binding `_search_item`'s arguments passes every key but `self` on as a keyword argument. */
  lemma {:induction false} SearchBindsEveryKey(params: Entries)
    requires !HasKey(params, "self")
    ensures Bind(SearchSignature(Cls), ModuleName, Dict(params)).Ok?
    ensures Bind(SearchSignature(Cls), ModuleName, Dict(params)).value.extra == params
  {
    var sig := SearchSignature(Cls);
    forall i | 0 <= i < |params| ensures KeyError(sig, params[i].0).None? {
      assert params[i].0 != "self";
    }
    BindSucceedsIff(sig, ModuleName, Dict(params));
    ExtraOfNone(params);
  }
}
