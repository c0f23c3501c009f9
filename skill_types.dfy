/** Skills as installed in the registry, and the definition offered to the model. */
module SkillTypes {
  import opened Wrappers
  import opened JsValues

  /** A handler either resolves with its result text or rejects with an error message. */
  type Handler = Json -> Result<string, string>

  datatype Skill = Skill(
    id: string,
    name: string,
    description: string,
    parameters: Json,
    handler: Handler)

  datatype ToolFunction = ToolFunction(name: string, description: string, parameters: Json)

  /** `{ type: 'function', function: ... }`; `kind` is the `type` field and `func` the `function` field. */
  datatype ToolDefinition = ToolDefinition(kind: string, func: ToolFunction)

  /** The definition sent to the model: the skill's name, description and schema, tagged as a function. */
  function SkillToToolDefinition(skill: Skill): (d: ToolDefinition)
    ensures d.kind == "function"
    ensures d.func.name == skill.name
    ensures d.func.description == skill.description
    ensures d.func.parameters == skill.parameters
  {
    ToolDefinition("function", ToolFunction(skill.name, skill.description, skill.parameters))
  }

  /** The definition carries neither the id nor the handler: skills that differ only there look alike to the model. */
  lemma ToolDefinitionIgnoresIdAndHandler(a: Skill, b: Skill)
    requires a.name == b.name && a.description == b.description && a.parameters == b.parameters
    ensures SkillToToolDefinition(a) == SkillToToolDefinition(b)
  {
  }
}
