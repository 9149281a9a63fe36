/** The tool catalog adapter of the weather client: the tools the tool provider
    declares are turned, one by one and in order, into the function-calling
    specifications the language model is given. */
module ToolCatalog {
  import opened Values

  /** Description used for a tool that declares none (or an empty one). */
  const NoDescription := "Инструмент без описания"

  /** The kind marker of every function-calling specification. */
  const FunctionKind := "function"

  /** A tool as the tool provider lists it. */
  datatype ToolDescriptor = ToolDescriptor(name: string, description: Option<string>, inputSchema: Value)

  /** The `function` part of a model-facing tool. */
  datatype FunctionSpec = FunctionSpec(name: string, description: string, parameters: Value)

  /** A model-facing tool: `{"type": kind, "function": definition}`. */
  datatype ModelTool = ModelTool(kind: string, definition: FunctionSpec)

  /** `description or "Инструмент без описания"`: the description is kept when it
      is truthy, replaced by the placeholder otherwise, and never empty. */
  function DescriptionOf(description: Option<string>): (r: string)
    ensures r != ""
    ensures !IsFalsyText(description) ==> r == description.value
    ensures IsFalsyText(description) ==> r == NoDescription
  {
    if IsFalsyText(description) then NoDescription else description.value
  }

  function ToModelTool(tool: ToolDescriptor): ModelTool {
    ModelTool(FunctionKind, FunctionSpec(tool.name, DescriptionOf(tool.description), tool.inputSchema))
  }

  /** Whether `m` is the model-facing form of `tool`. */
  predicate Adapts(m: ModelTool, tool: ToolDescriptor) {
    && m.kind == FunctionKind
    && m.definition.name == tool.name
    && m.definition.parameters == tool.inputSchema
    && m.definition.description != ""
    && (!IsFalsyText(tool.description) ==> m.definition.description == tool.description.value)
    && (IsFalsyText(tool.description) ==> m.definition.description == NoDescription)
  }

  /** The catalog conversion: one specification per tool, in the same order,
      each carrying the tool's name and schema unchanged. */
  function ConvertTools(tools: seq<ToolDescriptor>): (r: seq<ModelTool>)
    ensures |r| == |tools|
    ensures forall i :: 0 <= i < |tools| ==> Adapts(r[i], tools[i])
  {
    if tools == [] then []
    else [ToModelTool(tools[0])] + ConvertTools(tools[1..])
  }

  /** Reads a model-facing tool back as a descriptor. */
  function Describe(m: ModelTool): ToolDescriptor {
    ToolDescriptor(m.definition.name, Some(m.definition.description), m.definition.parameters)
  }

  function DescribeAll(specs: seq<ModelTool>): (r: seq<ToolDescriptor>)
    ensures |r| == |specs|
  {
    if specs == [] then []
    else [Describe(specs[0])] + DescribeAll(specs[1..])
  }

  /** Whether every tool of the catalog declares a non-empty description. */
  predicate AllDescribed(tools: seq<ToolDescriptor>) {
    forall i :: 0 <= i < |tools| ==> !IsFalsyText(tools[i].description)
  }

  /** The conversion loses nothing on a catalog whose tools are all described:
      reading the specifications back gives the catalog itself. */
  lemma {:induction false} ConvertToolsRoundTrip(tools: seq<ToolDescriptor>)
    requires AllDescribed(tools)
    ensures DescribeAll(ConvertTools(tools)) == tools
  {
    if tools != [] {
      assert AllDescribed(tools[1..]) by {
        forall i | 0 <= i < |tools[1..]|
          ensures !IsFalsyText(tools[1..][i].description)
        {
          assert tools[1..][i] == tools[i + 1];
        }
      }
      ConvertToolsRoundTrip(tools[1..]);
      assert !IsFalsyText(tools[0].description);
    }
  }

  /** The conversion is element-wise: converting two catalogs one after the
      other is converting their concatenation. */
  lemma {:induction false} ConvertToolsAppend(a: seq<ToolDescriptor>, b: seq<ToolDescriptor>)
    ensures ConvertTools(a + b) == ConvertTools(a) + ConvertTools(b)
  {
    if a == [] {
      assert a + b == b;
    } else {
      assert (a + b)[1..] == a[1..] + b;
      ConvertToolsAppend(a[1..], b);
    }
  }
}
