/**
 * `EnhancedFileAgent` of `backend/jarvis_backend_v1.py`: `_execute_single_command`
 * with twenty-five commands, each handler call inside its own `try`, and
 * `_execute_command`, which runs a workflow step by step.
 *
 * The agent's state that a step can change is the memory's search cache; the
 * calls a step makes to the operating system are kept in a ghost log.
 */
module AgentV1 {
  import opened Base
  import opened Values
  import opened Host
  import opened Binding
  import opened Handlers
  import opened Memory
  import opened Dispatch
  import opened Workflow
  import Search

  const Cls := "EnhancedFileAgent"
  const ModuleName := "__main__"

  /** The keys of this agent's `command_map`. */
  function Commands(): set<string>
  {
    CommonCommands() + SystemCommands()
  }

  /** `"Error executing {command}: {e}"`, the answer of a handler call that raised. */
  function Failed(name: string, m: string): Entries
  {
    Error("Error executing " + name + ": " + m)
  }

  /** `_search_item(**params)` inside the `try` of `_execute_single_command`. */
  function SearchCommand(h: Host, c: Cache, step: Value, params: Value): Ran<Cache>
  {
    match Bind(SearchSignature(Cls), ModuleName, params)
    case Raised(m) => Ran(step, Ok(Dict(Failed("search_item", m))), c, [])
    case Ok(b) =>
      match Search.SearchItem(h, c, b.extra)
      case Raised(m) => Ran(step, Ok(Dict(Failed("search_item", m))), c, [])
      case Ok(s) => Ran(step, Ok(Dict(s.result)), s.cache, s.effects)
  }

  /** `command_map[name](**params)` inside the `try`, for every other command. */
  function HandlerCommand(h: Host, c: Cache, step: Value, name: string, params: Value): Ran<Cache>
    requires name != "search_item"
  {
    match Invoke(h, Cls, ModuleName, name, params)
    case Raised(m) => Ran(step, Ok(Dict(Failed(name, m))), c, [])
    case Ok(reply) => Ran(step, Ok(Dict(reply.result)), c, reply.effects)
  }

  /** What `_execute_single_command` does once the step has been looked at: raise, answer an unknown command, or call the handler. */
  function Route(h: Host, c: Cache, p: Prepared): Ran<Cache>
  {
    match p.target
    case Raised(m) => Ran(p.step, Raised(m), c, [])
    case Ok(Unknown(command)) => Ran(p.step, Ok(Dict(UnknownError(command))), c, [])
    case Ok(Run(name, params)) =>
      if name == "search_item" then SearchCommand(h, c, p.step, params)
      else HandlerCommand(h, c, p.step, name, params)
  }

  /** `_execute_single_command(step)` from search cache `c`. */
  function Single(h: Host, c: Cache, step: Value): Ran<Cache>
  {
    Route(h, c, Prepare(step, Commands()))
  }

  /** `self._execute_single_command`, as the workflow loop calls it. */
  function Step(h: Host): (Cache, Value) -> Ran<Cache>
  {
    (c: Cache, step: Value) => Single(h, c, step)
  }

  /**
   * The agent: the host it runs on, its memory, and the calls it has made so
   * far. `single` is `Step(host)`, named once so that the workflow loop can be
   * reasoned about one step at a time.
   */
  class Agent {
    const host: Host
    const memory: ConversationMemory
    ghost var effects: seq<Effect>
    ghost const single: (Cache, Value) -> Ran<Cache>

    ghost predicate Valid()
    {
      forall c: Cache, x: Value {:trigger Single(host, c, x)} :: single(c, x) == Single(host, c, x)
    }

    constructor (host: Host, memory: ConversationMemory)
      ensures this.host == host && this.memory == memory && effects == []
      ensures single == Step(host) && Valid()
    {
      this.host := host;
      this.memory := memory;
      effects := [];
      single := Step(host);
      new;
      forall c: Cache, x: Value ensures single(c, x) == Single(host, c, x) {
        StepIs(host, c, x);
      }
    }

    /** `self._execute_single_command(step)`, as `_execute_command` calls it. */
    method RunStep(step: Value) returns (step': Value, r: Outcome<Value>)
      requires Valid()
      modifies memory`cache, this`effects
      ensures var ran := single(old(memory.cache), step);
        step' == ran.step && r == ran.result && memory.cache == ran.state && effects == old(effects) + ran.effects
    {
      assert single(memory.cache, step) == Single(host, memory.cache, step);
      step', r := ExecuteSingleCommand(step);
    }

    /** `_execute_single_command(step)`: the step afterwards, and the dictionary returned or the exception raised. */
    method ExecuteSingleCommand(step: Value) returns (step': Value, r: Outcome<Value>)
      modifies memory`cache, this`effects
      ensures var ran := Single(host, old(memory.cache), step);
        step' == ran.step && r == ran.result && memory.cache == ran.state && effects == old(effects) + ran.effects
    {
      var p := Prepare(step, Commands());
      step', r := RouteStep(p);
    }

    /** The rest of `_execute_single_command` once the step has been looked at. */
    method RouteStep(p: Prepared) returns (step': Value, r: Outcome<Value>)
      modifies memory`cache, this`effects
      ensures var ran := Route(host, old(memory.cache), p);
        step' == ran.step && r == ran.result && memory.cache == ran.state && effects == old(effects) + ran.effects
    {
      step' := p.step;
      if p.target.Raised? {
        return step', Raised(p.target.message);
      }
      if p.target.value.Unknown? {
        return step', Ok(Dict(UnknownError(p.target.value.command)));
      }
      var name, params := p.target.value.name, p.target.value.params;
      if name == "search_item" {
        r := RunSearch(step', params);
      } else {
        match Invoke(host, Cls, ModuleName, name, params)
        case Raised(m) =>
          r := Ok(Dict(Failed(name, m)));
        case Ok(reply) =>
          effects := effects + reply.effects;
          r := Ok(Dict(reply.result));
      }
    }

    /** The `search_item` branch, on the agent's memory. */
    method RunSearch(step: Value, params: Value) returns (r: Outcome<Value>)
      modifies memory`cache, this`effects
      ensures var ran := SearchCommand(host, old(memory.cache), step, params);
        r == ran.result && memory.cache == ran.state && effects == old(effects) + ran.effects
    {
      var b := Bind(SearchSignature(Cls), ModuleName, params);
      if b.Raised? {
        return Ok(Dict(Failed("search_item", b.message)));
      }
      var s := Search.SearchIn(host, memory, b.value.extra);
      if s.Raised? {
        return Ok(Dict(Failed("search_item", s.message)));
      }
      effects := effects + s.value.effects;
      r := Ok(Dict(s.value.result));
    }

    /** `_execute_command(response)`: the answer, and the reply as the caller holds it afterwards. */
    method ExecuteCommand(response: Value) returns (r: Value, response': Value)
      requires Valid()
      modifies memory`cache, this`effects
      ensures var e := Execute(single, old(memory.cache), response);
        r == e.result && response' == e.response && memory.cache == e.state && effects == old(effects) + e.effects
    {
      ExecuteByCase(single, memory.cache, response);
      var isWorkflow := Contains(response, "workflow");
      if isWorkflow.Raised? {
        return ExecutionError(isWorkflow.message), response;
      }
      var e;
      if isWorkflow.value {
        e := ExecuteWorkflowIn(response);
      } else {
        e := ExecuteStepIn(response);
      }
      r, response' := e.0, e.1;
    }

    /** The single-command branch of `_execute_command`: the step's dictionary, or the error it raised. */
    method ExecuteStepIn(response: Value) returns (e: (Value, Value))
      requires Valid()
      modifies memory`cache, this`effects
      ensures var ran := single(old(memory.cache), response);
        e == (match ran.result case Raised(m) => ExecutionError(m) case Ok(v) => v, ran.step) &&
        memory.cache == ran.state && effects == old(effects) + ran.effects
    {
      var step, result := RunStep(response);
      e := (if result.Raised? then ExecutionError(result.message) else result.value, step);
    }

    /** The `workflow` branch of `_execute_command`. */
    method ExecuteWorkflowIn(response: Value) returns (e: (Value, Value))
      requires Valid()
      modifies memory`cache, this`effects
      ensures var x := ExecuteWorkflow(single, old(memory.cache), response);
        e == (x.result, x.response) && memory.cache == x.state && effects == old(effects) + x.effects
    {
      var w := GetItem(response, "workflow");
      if w.Raised? {
        return (ExecutionError(w.message), response);
      }
      var items := Iterate(w.value);
      if items.Raised? {
        return (ExecutionError(items.message), response);
      }
      var f := RunWorkflow(items.value);
      var response' := if w.value.List? then Dict(Put(response.entries, "workflow", List(f.1))) else response;
      e := (if f.0.Raised? then ExecutionError(f.0.message) else Dict([("workflow", List(f.0.value))]), response');
    }

    /** The `for step in …` loop: its entries or the exception that ended it, and the steps afterwards. */
    method RunWorkflow(steps: seq<Value>) returns (f: (Outcome<seq<Value>>, seq<Value>))
      requires Valid()
      modifies memory`cache, this`effects
      ensures var flow := Flow(single, old(memory.cache), steps);
        f == (flow.entries, flow.steps) && memory.cache == flow.state && effects == old(effects) + flow.effects
    {
      ghost var c0 := memory.cache;
      ghost var e0 := effects;
      var entries: seq<Value> := [];
      var done: seq<Value> := [];
      ghost var effs: seq<Effect> := [];
      var j := 0;
      while j < |steps|
        invariant 0 <= j <= |steps|
        invariant Flow(single, c0, steps[..j]) == Flowed(Ok(entries), done, memory.cache, effs)
        invariant effects == e0 + effs
      {
        ghost var c := memory.cache;
        var step, result := RunStep(steps[j]);
        FlowPrefix(single, c0, steps, j);
        AppendAssoc(e0, effs, single(c, steps[j]).effects);
        effs := effs + single(c, steps[j]).effects;
        if result.Raised? || !step.Dict? {
          FlowStopped(single, c0, steps, j + 1);
          var m := if result.Raised? then result.message else NoAttribute(step, "get");
          return (Raised(m), done + [step] + steps[j + 1..]);
        }
        var summary := Summarize(step.entries, result.value);
        if summary.Raised? {
          FlowStopped(single, c0, steps, j + 1);
          return (Raised(summary.message), done + [step] + steps[j + 1..]);
        }
        entries := entries + [Entry(step.entries, result.value, summary.value)];
        done := done + [step];
        j := j + 1;
      }
      assert steps[..j] == steps;
      f := (Ok(entries), done);
    }
  }

  lemma StepIs(h: Host, c: Cache, step: Value)
    ensures Step(h)(c, step) == Single(h, c, step)
  {
  }

  // ---------------------------------------------------------------------------
  // Properties
  // ---------------------------------------------------------------------------

  /** A step raises only before its handler is called: in the lookup of `command` or `parameters`, the alias rewrite, or the hash of the name. */
  lemma {:induction false} RaisesOnlyBeforeHandler(h: Host, c: Cache, step: Value)
    ensures Single(h, c, step).result.Raised? <==> Prepare(step, Commands()).target.Raised?
    ensures Single(h, c, step).result.Ok? ==> Single(h, c, step).result.value.Dict?
    ensures Single(h, c, step).step == Prepare(step, Commands()).step
  {
    RouteRaises(h, c, Prepare(step, Commands()));
  }

  /** Once the step has been looked at, nothing raises: every handler call is inside a `try`. */
  lemma {:induction false} RouteRaises(h: Host, c: Cache, p: Prepared)
    ensures Route(h, c, p).result.Raised? <==> p.target.Raised?
    ensures Route(h, c, p).result.Ok? ==> Route(h, c, p).result.value.Dict?
    ensures Route(h, c, p).step == p.step
  {
    if p.target.Ok? && p.target.value.Run? {
      var name, params := p.target.value.name, p.target.value.params;
      if name == "search_item" {
        SearchAnswers(h, c, p.step, params);
      } else {
        HandlerAnswers(h, c, p.step, name, params);
      }
    }
  }

  /** `search_item` answers with a dictionary whatever happens inside it. */
  lemma {:induction false} SearchAnswers(h: Host, c: Cache, step: Value, params: Value)
    ensures SearchCommand(h, c, step, params).result.Ok? && SearchCommand(h, c, step, params).result.value.Dict?
    ensures SearchCommand(h, c, step, params).step == step
  {
    var b := Bind(SearchSignature(Cls), ModuleName, params);
    if b.Ok? {
      var s := Search.SearchItem(h, c, b.value.extra);
    }
  }

  /** Every other handler answers with a dictionary whatever happens inside it. */
  lemma {:induction false} HandlerAnswers(h: Host, c: Cache, step: Value, name: string, params: Value)
    requires name != "search_item"
    ensures HandlerCommand(h, c, step, name, params).result.Ok? && HandlerCommand(h, c, step, name, params).result.value.Dict?
    ensures HandlerCommand(h, c, step, name, params).step == step
  {
    var r := Invoke(h, Cls, ModuleName, name, params);
  }

  /** A well-formed step: a dict whose `command`, if any, is a string and whose `parameters`, if any, are a dict. */
  predicate WellFormed(step: Value)
  {
    step.Dict? &&
    (HasKey(step.entries, "command") ==> Lookup(step.entries, "command").value.Str?) &&
    (HasKey(step.entries, "parameters") ==> Lookup(step.entries, "parameters").value.Dict?)
  }

  /** A well-formed step never raises, whatever its handler does: it answers with a dict and stays a dict. */
  lemma {:induction false} WellFormedNeverRaises(h: Host, c: Cache, step: Value)
    requires WellFormed(step)
    ensures Answers(Single(h, c, step))
  {
    PrepareWellFormed(step, Commands());
    RaisesOnlyBeforeHandler(h, c, step);
  }

  /** Preparing a well-formed step cannot raise. */
  lemma {:induction false} PrepareWellFormed(step: Value, commands: set<string>)
    requires WellFormed(step)
    ensures Prepare(step, commands).target.Ok?
  {
    var params := Get(step.entries, "parameters", Dict([]));
    assert GetOr(step, "parameters", Dict([])) == Ok(params);
    var renamed := Rename(params, "file_path");
    assert renamed.Ok? && renamed.value.Dict?;
  }

  /**
   * A workflow of well-formed steps always completes: the answer is
   * `{"workflow": …}` with one entry per step, in order, each holding the
   * step as rewritten, its result and its summary.
   */
  lemma {:induction false} WorkflowCompletes(h: Host, c: Cache, response: Entries, items: seq<Value>)
    requires Lookup(response, "workflow") == Some(List(items))
    requires forall i :: 0 <= i < |items| ==> WellFormed(items[i])
    ensures var e := Execute(Step(h), c, Dict(response));
      var f := Flow(Step(h), c, items);
      f.entries.Ok? && e.result == Dict([("workflow", List(f.entries.value))]) &&
      |f.entries.value| == |items| &&
      (forall i :: 0 <= i < |items| ==> IsEntryFor(f.entries.value[i], f.steps[i]))
  {
    forall t: Cache, i | 0 <= i < |items|
      ensures Answers(Step(h)(t, items[i]))
    {
      WellFormedNeverRaises(h, t, items[i]);
    }
    FlowCompletes(Step(h), c, items);
    OneEntryPerStep(Step(h), c, items);
  }

  /** A command outside `command_map` answers `Unknown command '<name>'` and changes nothing. */
  lemma {:induction false} UnknownCommand(h: Host, c: Cache, step: Entries, name: string)
    requires Lookup(step, "command") == Some(Str(name)) && name != "execute_file" && name !in Commands()
    requires !HasKey(step, "parameters")
    ensures Single(h, c, Dict(step)) == Ran(Dict(step), Ok(Dict(Error("Unknown command '" + name + "'"))), c, [])
  {
    assert Normalize(Dict([])) == Ok(Dict([]));
  }

  /**
   * A handler call that cannot bind its arguments (a missing required one, an
   * unexpected keyword, or parameters that are not a mapping) answers
   * `Error executing <name>: <message>` instead of raising, and has no effect.
   */
  lemma {:induction false} BindFailureAnswers(h: Host, c: Cache, step: Value, name: string, params: Value)
    requires Prepare(step, Commands()).target == Ok(Run(name, params)) && name != "search_item"
    requires Bind(SignatureOf(Cls, name), ModuleName, params).Raised?
    ensures var ran := Single(h, c, step);
      ran.result == Ok(Dict(Failed(name, Bind(SignatureOf(Cls, name), ModuleName, params).message))) &&
      ran.state == c && ran.effects == []
  {
  }

  /** Only `search_item` writes to the cache. */
  lemma {:induction false} OnlySearchWritesCache(h: Host, c: Cache, step: Value)
    requires Single(h, c, step).state != c
    ensures Prepare(step, Commands()).target.Ok?
    ensures var t := Prepare(step, Commands()).target.value; t.Run? && t.name == "search_item"
  {
  }
}
