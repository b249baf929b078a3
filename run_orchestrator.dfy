/**
 * The tool-call collection at the end of `run_and_stream` in
 * agentic_image_gen/run_orchestrator.py: the run's final steps are flattened into
 * one list of tool-call records.  Opening the client and streaming the run are
 * not modelled; the steps are the input.
 */
module RunOrchestrator {
  import opened Wrappers

  /** The `function` of a function tool call. */
  datatype FunctionCall = FunctionCall(name: string, arguments: string)
  /** A tool call; `fn` is `None` (the source's `function` attribute) for calls that have no such attribute. */
  datatype ToolCall = ToolCall(id: string, callType: string, fn: Option<FunctionCall>)
  /** `step.step_details`: its `type` and, for a tool-call step, its calls. */
  datatype StepDetails = StepDetails(kind: string, toolCalls: seq<ToolCall>)
  /** A final run step. */
  datatype RunStep = RunStep(stepDetails: StepDetails)

  /** A tool-call record: the dictionary built for one call. */
  type ToolCallInfo = map<string, string>

  /** The step type whose calls are collected. */
  const ToolCallsKind := "tool_calls"

  /** The calls a step contributes: its own, in order, if it is a tool-call step. */
  function StepCalls(step: RunStep): seq<ToolCall> {
    if step.stepDetails.kind == ToolCallsKind then step.stepDetails.toolCalls else []
  }

  /** Reference definition: the calls of all tool-call steps, steps in order. */
  function ToolCallsOf(steps: seq<RunStep>): seq<ToolCall> {
    if steps == [] then [] else StepCalls(steps[0]) + ToolCallsOf(steps[1..])
  }

  /** The number of calls held by tool-call steps. */
  function CallCount(steps: seq<RunStep>): nat {
    if steps == [] then 0
    else (if steps[0].stepDetails.kind == ToolCallsKind then |steps[0].stepDetails.toolCalls| else 0) + CallCount(steps[1..])
  }

  /**
   * The record of one call: `{"id", "type"}`, updated with `{"name", "arguments"}`
   * when the call has a function.
   */
  function CallInfo(call: ToolCall): (info: ToolCallInfo)
    ensures "id" in info && info["id"] == call.id
    ensures "type" in info && info["type"] == call.callType
    ensures "name" in info <==> call.fn.Some?
    ensures "arguments" in info <==> call.fn.Some?
    ensures call.fn.Some? ==>
      info["name"] == call.fn.value.name && info["arguments"] == call.fn.value.arguments
    ensures info.Keys <= {"id", "type", "name", "arguments"}
  {
    var info := map["id" := call.id, "type" := call.callType];
    match call.fn
    case None => info
    case Some(f) => info + map["name" := f.name, "arguments" := f.arguments]
  }

  /** Order: the calls of consecutive runs of steps follow each other. */
  lemma {:induction false} ToolCallsOfAppend(a: seq<RunStep>, b: seq<RunStep>)
    ensures ToolCallsOf(a + b) == ToolCallsOf(a) + ToolCallsOf(b)
  {
    if a != [] {
      assert (a + b)[0] == a[0] && (a + b)[1..] == a[1..] + b;
      ToolCallsOfAppend(a[1..], b);
      assert ToolCallsOf(a + b) == StepCalls(a[0]) + ToolCallsOf(a[1..] + b);
    } else {
      assert a + b == b;
    }
  }

  /** Length: one record per call of a tool-call step. */
  lemma {:induction false} ToolCallsOfLength(steps: seq<RunStep>)
    ensures |ToolCallsOf(steps)| == CallCount(steps)
  {
    if steps != [] {
      ToolCallsOfLength(steps[1..]);
    }
  }

  /** Steps of any other type contribute nothing. */
  lemma {:induction false} OtherStepsContributeNothing(steps: seq<RunStep>)
    requires forall j :: 0 <= j < |steps| ==> steps[j].stepDetails.kind != ToolCallsKind
    ensures ToolCallsOf(steps) == []
  {
    if steps != [] {
      OtherStepsContributeNothing(steps[1..]);
    }
  }

  /**
   * Position: call `c` of tool-call step `j` comes after the calls of the steps
   * before `j` and after the calls before it in its own step.
   */
  lemma ToolCallPosition(steps: seq<RunStep>, j: nat, c: nat)
    requires j < |steps| && steps[j].stepDetails.kind == ToolCallsKind && c < |steps[j].stepDetails.toolCalls|
    ensures CallCount(steps[..j]) + c < |ToolCallsOf(steps)|
    ensures ToolCallsOf(steps)[CallCount(steps[..j]) + c] == steps[j].stepDetails.toolCalls[c]
  {
    assert steps == steps[..j] + ([steps[j]] + steps[j + 1..]);
    ToolCallsOfAppend(steps[..j], [steps[j]] + steps[j + 1..]);
    ToolCallsOfLength(steps[..j]);
    assert ToolCallsOf([steps[j]] + steps[j + 1..]) == steps[j].stepDetails.toolCalls + ToolCallsOf(steps[j + 1..]);
  }

  /** The records of `calls`, one per call, in order. */
  function Records(calls: seq<ToolCall>): (infos: seq<ToolCallInfo>)
    ensures |infos| == |calls|
    ensures forall k :: 0 <= k < |calls| ==> infos[k] == CallInfo(calls[k])
  {
    if calls == [] then [] else Records(calls[..|calls| - 1]) + [CallInfo(calls[|calls| - 1])]
  }

  /** The records of consecutive calls follow each other. */
  lemma RecordsAppend(a: seq<ToolCall>, b: seq<ToolCall>)
    ensures Records(a + b) == Records(a) + Records(b)
  {
  }

  /** Appending a step appends its calls. */
  lemma ToolCallsOfSnoc(steps: seq<RunStep>, s: nat)
    requires s < |steps|
    ensures ToolCallsOf(steps[..s + 1]) == ToolCallsOf(steps[..s]) + StepCalls(steps[s])
  {
    assert steps[..s + 1] == steps[..s] + [steps[s]];
    ToolCallsOfAppend(steps[..s], [steps[s]]);
    assert ToolCallsOf([steps[s]]) == StepCalls(steps[s]);
  }

  /**
   * The collection loop of `run_and_stream`: one record per call of every
   * tool-call step, in order.
   */
  method CollectToolCalls(steps: seq<RunStep>) returns (toolCalls: seq<ToolCallInfo>)
    ensures toolCalls == Records(ToolCallsOf(steps))
  {
    toolCalls := [];
    for s := 0 to |steps|
      invariant toolCalls == Records(ToolCallsOf(steps[..s]))
    {
      var step := steps[s];
      ToolCallsOfSnoc(steps, s);
      if step.stepDetails.kind != ToolCallsKind {
        continue;
      }
      ghost var collected := toolCalls;
      var calls := step.stepDetails.toolCalls;
      for c := 0 to |calls|
        invariant toolCalls == collected + Records(calls[..c])
      {
        assert calls[..c + 1][..c] == calls[..c];
        toolCalls := toolCalls + [CallInfo(calls[c])];
      }
      assert calls[..|calls|] == calls;
      RecordsAppend(ToolCallsOf(steps[..s]), calls);
    }
    assert steps[..|steps|] == steps;
  }

  /**
   * One completed tool-call step holding one function call `foo` with arguments
   * `{}` yields exactly the record `{id, type, name, arguments}`.
   */
  method CollectsOneFunctionCall() returns (toolCalls: seq<ToolCallInfo>)
    ensures toolCalls == [map["id" := "call1", "type" := "function", "name" := "foo", "arguments" := "{}"]]
  {
    var call := ToolCall("call1", "function", Some(FunctionCall("foo", "{}")));
    var step := RunStep(StepDetails(ToolCallsKind, [call]));
    toolCalls := CollectToolCalls([step]);
    assert ToolCallsOf([step]) == [call];
    assert CallInfo(call) == map["id" := "call1", "type" := "function", "name" := "foo", "arguments" := "{}"];
  }
}
