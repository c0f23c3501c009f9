/**
 * Dispatch of finalized tool calls: each call is resolved by exact name in
 * the registry and its handler's outcome becomes a result record; lookup
 * failures and handler errors become failure records.
 */
module ToolExecutor {
  import opened Wrappers
  import opened Text
  import opened Tools
  import opened SkillTypes
  import opened Registry

  function UnknownToolMessage(name: string): (m: string)
    ensures StartsWith(m, "未知工具: " + name)
  {
    "未知工具: " + name + "。请确认该技能已安装并已刷新。"
  }

  function FailureMessage(error: string): (m: string)
    ensures StartsWith(m, "执行失败: ") && m[|"执行失败: "|..] == error
  {
    "执行失败: " + error
  }

  /** `executeTool`: one record per call, whatever happens to it. */
  function ExecuteTool(reg: SkillRegistry, call: ParsedToolCall): (r: ToolResult)
    reads reg
    ensures r.toolCallId == call.id && r.name == call.name
    ensures reg.GetSkillByName(call.name).None? ==>
      !r.success && r.result == UnknownToolMessage(call.name)
    ensures reg.GetSkillByName(call.name).Some? ==>
      var outcome := reg.GetSkillByName(call.name).value.handler(call.arguments);
      && r.success == outcome.Ok?
      && (outcome.Ok? ==> r.result == outcome.value)
      && (outcome.Err? ==> r.result == FailureMessage(outcome.error))
  {
    match reg.GetSkillByName(call.name)
    case None => ToolResult(call.id, call.name, false, UnknownToolMessage(call.name))
    case Some(skill) =>
      match skill.handler(call.arguments)
      case Ok(result) => ToolResult(call.id, call.name, true, result)
      case Err(error) => ToolResult(call.id, call.name, false, FailureMessage(error))
  }

  /** `executeTools`: the batch keeps its length and each record is that of its own call. */
  function ExecuteTools(reg: SkillRegistry, calls: seq<ParsedToolCall>): (r: seq<ToolResult>)
    reads reg
    ensures |r| == |calls|
    ensures forall i :: 0 <= i < |calls| ==> r[i] == ExecuteTool(reg, calls[i])
  {
    seq(|calls|, i requires 0 <= i < |calls| reads reg => ExecuteTool(reg, calls[i]))
  }

  /** Replacing one call of a batch leaves every other call's record as it was. */
  lemma BatchIsolation(reg: SkillRegistry, calls: seq<ParsedToolCall>, i: nat, other: ParsedToolCall, j: nat)
    requires i < |calls| && j < |calls| && i != j
    ensures ExecuteTools(reg, calls[i := other])[j] == ExecuteTools(reg, calls)[j]
  {
  }

  /** A failing call next to a succeeding one: both records are there, each with its own outcome. */
  lemma FailureDoesNotSpread(reg: SkillRegistry, a: ParsedToolCall, b: ParsedToolCall, skillA: Skill, skillB: Skill, error: string, result: string)
    requires reg.GetSkillByName(a.name) == Some(skillA) && skillA.handler(a.arguments) == Err(error)
    requires reg.GetSkillByName(b.name) == Some(skillB) && skillB.handler(b.arguments) == Ok(result)
    ensures ExecuteTools(reg, [a, b]) ==
      [ToolResult(a.id, a.name, false, FailureMessage(error)), ToolResult(b.id, b.name, true, result)]
  {
  }
}
