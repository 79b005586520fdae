/**
 * `_execute_command`, the same text in `backend/jarvis_backend_v1.py`,
 * `backend/jarvis_backend.py` and
 * `backend/.ipynb_checkpoints/jarvis_backend-checkpoint.py`: a reply with a
 * `workflow` runs each of its steps in order, anything else is one command,
 * and anything raised becomes `{"error": "Execution error: …"}`.
 *
 * What one step does is the backend's own `_execute_single_command`, given
 * here as a function `single` from the agent's state (its search cache, or
 * nothing) and the step to a `Ran`.
 */
module Workflow {
  import opened Base
  import opened Values
  import opened Host
  import opened Handlers
  import opened Dispatch

  /**
   * One call of `_execute_single_command`: the step as the caller holds it
   * afterwards, the dictionary returned or the exception raised, the agent's
   * new state, and the calls made to the operating system.
   */
  datatype Ran<S> = Ran(step: Value, result: Outcome<Value>, state: S, effects: seq<Effect>)

  /** The workflow loop: its entries or the exception that ended it, the steps afterwards, the state, the calls made. */
  datatype Flowed<S> = Flowed(entries: Outcome<seq<Value>>, steps: seq<Value>, state: S, effects: seq<Effect>)

  /** `_execute_command`'s answer, the reply as the caller holds it afterwards, the state and the calls made. */
  datatype Executed<S> = Executed(result: Value, response: Value, state: S, effects: seq<Effect>)

  /** What `self.conversation.send_message` and `json.loads` make of a prompt in `process_request`. */
  datatype ModelReply =
    | Parsed(json: Value)          // the cleaned-up reply text parsed as JSON
    | InvalidJson(raw: string)     // `json.JSONDecodeError`, with the reply text as sent
    | SendFailed(message: string)  // the call to the model raised

  /** `{"command": step, "result": result, "summary": summary}` */
  function Entry(step: Entries, result: Value, summary: string): Value
  {
    Dict([("command", Dict(step)), ("result", result), ("summary", Str(summary))])
  }

  /** One more step of the loop after `pre`: once a step has raised, or it cannot be summarised, nothing more runs. */
  function Next<S>(single: (S, Value) -> Ran<S>, pre: Flowed<S>, step: Value): Flowed<S>
  {
    match pre.entries
    case Raised(m) => Flowed(Raised(m), pre.steps + [step], pre.state, pre.effects)
    case Ok(es) =>
      var ran := single(pre.state, step);
      var effects := pre.effects + ran.effects;
      match ran.result
      case Raised(m) => Flowed(Raised(m), pre.steps + [ran.step], ran.state, effects)
      case Ok(result) =>
        if !ran.step.Dict? then Flowed(Raised(NoAttribute(ran.step, "get")), pre.steps + [ran.step], ran.state, effects)
        else
          match Summarize(ran.step.entries, result)
          case Raised(m) => Flowed(Raised(m), pre.steps + [ran.step], ran.state, effects)
          case Ok(summary) => Flowed(Ok(es + [Entry(ran.step.entries, result, summary)]), pre.steps + [ran.step], ran.state, effects)
  }

  /** The loop over `steps` from state `s`, one step after the other. */
  function Flow<S>(single: (S, Value) -> Ran<S>, s: S, steps: seq<Value>): (f: Flowed<S>)
    ensures |f.steps| == |steps|
    decreases |steps|
  {
    if steps == [] then Flowed(Ok([]), [], s, [])
    else Next(single, Flow(single, s, steps[..|steps| - 1]), steps[|steps| - 1])
  }

  function ExecutionError(m: string): Value
  {
    Dict(Error("Execution error: " + m))
  }

  /**
   * `_execute_command(response_json)`. A reply that cannot be searched for
   * `workflow` is an execution error and runs nothing; a reply without
   * `workflow` is one step, whose state, effects and rewritten form are the
   * answer's.
   */
  function Execute<S>(single: (S, Value) -> Ran<S>, s: S, response: Value): (r: Executed<S>)
    ensures !(response.Dict? || response.List? || response.Str?) ==>
      r.result.Dict? && HasKey(r.result.entries, "error") && r.effects == [] && r.state == s
    ensures response.Dict? && !HasKey(response.entries, "workflow") ==>
      r.response == single(s, response).step && r.state == single(s, response).state &&
      r.effects == single(s, response).effects
  {
    match Contains(response, "workflow")
    case Raised(m) => Executed(ExecutionError(m), response, s, [])
    case Ok(isWorkflow) =>
      if !isWorkflow then
        var ran := single(s, response);
        var result := match ran.result case Raised(m) => ExecutionError(m) case Ok(r) => r;
        Executed(result, ran.step, ran.state, ran.effects)
      else ExecuteWorkflow(single, s, response)
  }

  /** The `workflow` branch of `_execute_command`: every step of `response["workflow"]`, in order. */
  function ExecuteWorkflow<S>(single: (S, Value) -> Ran<S>, s: S, response: Value): Executed<S>
  {
    match GetItem(response, "workflow")
    case Raised(m) => Executed(ExecutionError(m), response, s, [])
    case Ok(w) =>
      match Iterate(w)
      case Raised(m) => Executed(ExecutionError(m), response, s, [])
      case Ok(steps) =>
        var f := Flow(single, s, steps);
        var response' := if w.List? then Dict(Put(response.entries, "workflow", List(f.steps))) else response;
        var result := match f.entries case Raised(m) => ExecutionError(m) case Ok(es) => Dict([("workflow", List(es))]);
        Executed(result, response', f.state, f.effects)
  }

  // ---------------------------------------------------------------------------
  // The loop, one step at a time
  // ---------------------------------------------------------------------------

  /** `Execute`, case by case on whether the reply holds `workflow`. */
  lemma ExecuteByCase<S>(single: (S, Value) -> Ran<S>, s: S, response: Value)
    ensures Contains(response, "workflow").Raised? ==>
      Execute(single, s, response) == Executed(ExecutionError(Contains(response, "workflow").message), response, s, [])
    ensures Contains(response, "workflow") == Ok(true) ==> Execute(single, s, response) == ExecuteWorkflow(single, s, response)
    ensures Contains(response, "workflow") == Ok(false) ==>
      var ran := single(s, response);
      Execute(single, s, response) ==
        Executed(match ran.result case Raised(m) => ExecutionError(m) case Ok(v) => v, ran.step, ran.state, ran.effects)
  {
  }

  /** The loop after `j + 1` steps is the loop after `j` steps and one more. */
  lemma {:induction false} FlowPrefix<S>(single: (S, Value) -> Ran<S>, s: S, steps: seq<Value>, j: nat)
    requires j < |steps|
    ensures Flow(single, s, steps[..j + 1]) == Next(single, Flow(single, s, steps[..j]), steps[j])
  {
    assert steps[..j + 1][..j] == steps[..j] && steps[..j + 1][j] == steps[j];
  }

  /** Once the loop has stopped after `j` steps, the rest of the steps are left as they are. */
  lemma {:induction false} FlowStopped<S>(single: (S, Value) -> Ran<S>, s: S, steps: seq<Value>, j: nat)
    requires j <= |steps| && Flow(single, s, steps[..j]).entries.Raised?
    ensures var pre := Flow(single, s, steps[..j]);
      Flow(single, s, steps) == Flowed(pre.entries, pre.steps + steps[j..], pre.state, pre.effects)
    decreases |steps|
  {
    var pre := Flow(single, s, steps[..j]);
    if j == |steps| {
      assert steps[..j] == steps && pre.steps + steps[j..] == pre.steps;
    } else {
      var n := |steps| - 1;
      assert steps[..n][..j] == steps[..j];
      FlowStopped(single, s, steps[..n], j);
      assert pre.steps + steps[..n][j..] + [steps[n]] == pre.steps + steps[j..];
    }
  }

  // ---------------------------------------------------------------------------
  // Properties
  // ---------------------------------------------------------------------------

  /** One workflow entry for `step`: the step itself, its result, and that result's summary. */
  predicate IsEntryFor(e: Value, step: Value)
  {
    step.Dict? && e.Dict? && |e.entries| == 3 &&
    e.entries[0] == ("command", step) && e.entries[1].0 == "result" &&
    Summarize(step.entries, e.entries[1].1).Ok? &&
    e.entries[2] == ("summary", Str(Summarize(step.entries, e.entries[1].1).value))
  }

  /**
   * A workflow that ends produces exactly one entry per step, in the steps'
   * order, each pairing the step (as rewritten) with its result and summary.
   */
  lemma {:induction false} OneEntryPerStep<S>(single: (S, Value) -> Ran<S>, s: S, steps: seq<Value>)
    requires Flow(single, s, steps).entries.Ok?
    ensures var f := Flow(single, s, steps);
      |f.entries.value| == |steps| &&
      forall i :: 0 <= i < |steps| ==> IsEntryFor(f.entries.value[i], f.steps[i])
    decreases |steps|
  {
    if steps != [] {
      var n := |steps| - 1;
      var pre := Flow(single, s, steps[..n]);
      OneEntryPerStep(single, s, steps[..n]);
      var ran := single(pre.state, steps[n]);
      var f := Flow(single, s, steps);
      var summary := Summarize(ran.step.entries, ran.result.value).value;
      assert f.entries.value == pre.entries.value + [Entry(ran.step.entries, ran.result.value, summary)];
      assert f.steps == pre.steps + [ran.step];
      forall i | 0 <= i < |steps|
        ensures IsEntryFor(f.entries.value[i], f.steps[i])
      {
        if i < n {
          assert f.entries.value[i] == pre.entries.value[i] && f.steps[i] == pre.steps[i];
        }
      }
    }
  }

  /** What a step must do for the loop to go on: answer, stay a dictionary, and answer something the summary can read. */
  predicate Answers<S>(ran: Ran<S>)
  {
    ran.result.Ok? && ran.step.Dict? && ran.result.value.Dict?
  }

  /** No step is skipped: when every step answers with a dictionary and stays a dictionary, the workflow completes. */
  lemma {:induction false} FlowCompletes<S>(single: (S, Value) -> Ran<S>, s: S, steps: seq<Value>)
    requires forall t: S, i :: 0 <= i < |steps| ==> Answers(single(t, steps[i]))
    ensures Flow(single, s, steps).entries.Ok?
    decreases |steps|
  {
    if steps != [] {
      var n := |steps| - 1;
      forall t: S, i | 0 <= i < n ensures Answers(single(t, steps[..n][i])) {
        assert steps[..n][i] == steps[i];
      }
      FlowCompletes(single, s, steps[..n]);
      var pre := Flow(single, s, steps[..n]);
      assert Answers(single(pre.state, steps[n]));
      NextGoesOn(single, pre, steps[n]);
    }
  }

  /** A step that answers with a dictionary, and stays one, adds its entry to a loop still running. */
  lemma {:induction false} NextGoesOn<S>(single: (S, Value) -> Ran<S>, pre: Flowed<S>, step: Value)
    requires pre.entries.Ok? && Answers(single(pre.state, step))
    ensures Next(single, pre, step).entries.Ok?
  {
    var ran := single(pre.state, step);
  }

  /** When every step that answers answers with a dictionary, so does `_execute_command`. */
  lemma {:induction false} AnswersDict<S>(single: (S, Value) -> Ran<S>, s: S, response: Value)
    requires forall t: S, x: Value :: single(t, x).result.Ok? ==> single(t, x).result.value.Dict?
    ensures Execute(single, s, response).result.Dict?
  {
    var c := Contains(response, "workflow");
    if c.Ok? && !c.value {
      var ran := single(s, response);
    }
  }

  /** A raised exception ends the loop: what it returns is the exception's message, and every earlier entry is lost. */
  lemma {:induction false} RaiseDiscardsEntries<S>(single: (S, Value) -> Ran<S>, s: S, response: Entries, items: seq<Value>)
    requires Lookup(response, "workflow") == Some(List(items))
    requires Flow(single, s, items).entries.Raised?
    ensures Execute(single, s, Dict(response)).result == ExecutionError(Flow(single, s, items).entries.message)
  {
  }

  /** A reply without `workflow` is one command, whose dictionary is returned as it is. */
  lemma {:induction false} SingleCommandPassesThrough<S>(single: (S, Value) -> Ran<S>, s: S, response: Entries)
    requires !HasKey(response, "workflow") && single(s, Dict(response)).result.Ok?
    ensures Execute(single, s, Dict(response)).result == single(s, Dict(response)).result.value
  {
  }
}
