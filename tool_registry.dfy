/**
 * The tool registry `TOOLS`, the tool-execution route that looks a tool up
 * by name and runs its handler, and the advertisement of the available
 * tools without their handlers.
 */
module ToolRegistry {
  import opened Wrappers
  import opened JsonValues
  import opened StackedAreaChart

  /** A handler: the raw parameters and the clock reading give a record or a thrown error. */
  type Handler = (Option<Json>, nat) -> Result<ToolCall, HandlerError>

  /** A registry entry: name, description, handler and JSON-Schema-like parameter declaration. */
  datatype Tool = Tool(name: string, description: string, handler: Handler, parameters: Json)

  /** What is advertised of a tool: everything but its handler. */
  datatype ToolInfo = ToolInfo(name: string, description: string, parameters: Json)

  const ChartDescription := "Create a stacked area chart visualization with multiple data series"

  function Prop(description: string, jsonType: string): Json
  {
    JObj(map["type" := JStr(jsonType), "description" := JStr(description)])
  }

  function PropWithDefault(description: string, jsonType: string, default: Json): Json
  {
    JObj(map["type" := JStr(jsonType), "description" := JStr(description), "default" := default])
  }

  /** The declared fields of one area. */
  const AreaItemSchema: Json := JObj(map[
    "type" := JStr("object"),
    "properties" := JObj(map[
      "dataKey" := Prop("Key in data object for this area", "string"),
      "stackId" := Prop("Stack identifier for grouping areas", "string"),
      "fill" := Prop("Color for this area (hex code)", "string"),
      "name" := Prop("Display name for this area", "string")]),
    "required" := JArr([JStr("dataKey"), JStr("stackId"), JStr("fill")])])

  /** The declared top-level parameters, by name. */
  const ChartProperties: map<string, Json> := map[
    "title" := Prop("Title of the chart", "string"),
    "data" := JObj(map[
      "type" := JStr("array"),
      "description" := JStr("Array of data points for the chart"),
      "items" := JObj(map["type" := JStr("object"), "additionalProperties" := JBool(true)])]),
    "areas" := JObj(map[
      "type" := JStr("array"),
      "description" := JStr("Configuration for each area in the stack"),
      "items" := AreaItemSchema]),
    "xAxisKey" := PropWithDefault("Key for X-axis data (default: \"name\")", "string", JStr("name")),
    "height" := PropWithDefault("Height of the chart in pixels", "number", JNum(400)),
    "showGrid" := PropWithDefault("Whether to show grid lines", "boolean", JBool(true)),
    "showLegend" := PropWithDefault("Whether to show legend", "boolean", JBool(true)),
    "showTooltip" := PropWithDefault("Whether to show tooltip on hover", "boolean", JBool(true))]

  /** The declared parameters of `create_stacked_area_chart`. */
  const ChartSchema: Json := JObj(map[
    "type" := JStr("object"),
    "properties" := JObj(ChartProperties),
    "required" := JArr([JStr("data"), JStr("areas")])])

  /** `TOOLS`: the registry, in declaration order. */
  const Tools: seq<Tool> := [Tool(ToolName, ChartDescription, HandleCreateStackedAreaChart, ChartSchema)]

  /** The value at a path of object keys inside a JSON value, if every step exists. */
  function At(j: Json, path: seq<string>): Option<Json>
    decreases |path|
  {
    if path == [] then Some(j)
    else if j.JObj? && path[0] in j.fields then At(j.fields[path[0]], path[1..])
    else None
  }

  /** The declared default of a top-level parameter. */
  function DeclaredDefault(key: string): Option<Json>
  {
    At(ChartSchema, ["properties", key, "default"])
  }

  /** The elements of a declared `required` list (empty when there is none). */
  function RequiredList(path: seq<string>): seq<Json>
  {
    var r := At(ChartSchema, path);
    if r.Some? && r.value.JArr? then r.value.items else []
  }

  /** `t.name === toolName`: strict equality, so only a string equal to the name matches. */
  predicate NameMatches(t: Tool, toolName: Option<Json>)
  {
    toolName == Some(JStr(t.name))
  }

  /** `tools.find(t => t.name === toolName)`, from position `k` on: the first matching index. */
  function FindFrom(tools: seq<Tool>, toolName: Option<Json>, k: nat): (r: Option<nat>)
    requires k <= |tools|
    ensures r.None? <==> forall i :: k <= i < |tools| ==> !NameMatches(tools[i], toolName)
    ensures r.Some? ==>
      && k <= r.value < |tools|
      && NameMatches(tools[r.value], toolName)
      && forall i :: k <= i < r.value ==> !NameMatches(tools[i], toolName)
    decreases |tools| - k
  {
    if k == |tools| then None
    else if NameMatches(tools[k], toolName) then Some(k)
    else FindFrom(tools, toolName, k + 1)
  }

  function FindTool(tools: seq<Tool>, toolName: Option<Json>): Option<nat>
  {
    FindFrom(tools, toolName, 0)
  }

  const ExecutionFailedError := "Tool execution failed"

  /** What the tool-execution route answers (404, 200 with the record, or 500). */
  datatype ExecutionOutcome =
    | NotFound(error: string)
    | Executed(call: ToolCall)
    | ExecutionFailed(error: string, message: string)

  /** The route's logic once the body is read: look the tool up and run its handler. */
  function Dispatch(tools: seq<Tool>, toolName: Option<Json>, parameters: Option<Json>, now: nat): ExecutionOutcome
  {
    match FindTool(tools, toolName)
    case None =>
      if ConvertsToString(toolName) then NotFound("Tool " + JsString(toolName) + " not found")
      else ExecutionFailed(ExecutionFailedError, NoPrimitive)
    case Some(i) =>
      match tools[i].handler(parameters, now)
      case Success(call) => Executed(call)
      case Failure(e) => ExecutionFailed(ExecutionFailedError, e.Message())
  }

  /** `handleToolExecution`: `toolName` and `parameters` are read from the request body. */
  function HandleToolExecution(body: map<string, Json>, now: nat): ExecutionOutcome
  {
    Dispatch(Tools, Get(body, "toolName"), Get(body, "parameters"), now)
  }

  /** `getAvailableTools` over a registry: each tool without its handler, in order. */
  function AvailableTools(tools: seq<Tool>): (r: seq<ToolInfo>)
    ensures |r| == |tools|
    ensures forall i :: 0 <= i < |tools| ==>
      r[i] == ToolInfo(tools[i].name, tools[i].description, tools[i].parameters)
  {
    seq(|tools|, i requires 0 <= i < |tools| => ToolInfo(tools[i].name, tools[i].description, tools[i].parameters))
  }

  function GetAvailableTools(): seq<ToolInfo>
  {
    AvailableTools(Tools)
  }

  /** No two tools of a registry share a name. */
  predicate UniqueNames(tools: seq<Tool>)
  {
    forall i, j :: 0 <= i < j < |tools| ==> tools[i].name != tools[j].name
  }

  /**
   * An unknown name is answered "not found", whatever the handlers would do,
   * unless building the not-found text throws (an object with its own
   * `toString` key), which the route answers as "Tool execution failed".
   */
  lemma UnknownToolNotFound(tools: seq<Tool>, toolName: Option<Json>, parameters: Option<Json>, now: nat)
    requires forall i :: 0 <= i < |tools| ==> !NameMatches(tools[i], toolName)
    ensures ConvertsToString(toolName) ==>
      Dispatch(tools, toolName, parameters, now) == NotFound("Tool " + JsString(toolName) + " not found")
    ensures !ConvertsToString(toolName) ==>
      Dispatch(tools, toolName, parameters, now) == ExecutionFailed(ExecutionFailedError, NoPrimitive)
  {
  }

  /**
   * A known name runs the first tool of that name: its record is answered
   * as is, and a thrown error as "Tool execution failed" with its message.
   */
  lemma KnownToolRunsHandler(tools: seq<Tool>, i: nat, toolName: Option<Json>, parameters: Option<Json>, now: nat)
    requires i < |tools| && NameMatches(tools[i], toolName)
    requires forall j :: 0 <= j < i ==> !NameMatches(tools[j], toolName)
    ensures var out := Dispatch(tools, toolName, parameters, now);
            var result := tools[i].handler(parameters, now);
            && (result.Success? ==> out == Executed(result.value))
            && (result.Failure? ==> out == ExecutionFailed(ExecutionFailedError, result.error.Message()))
  {
  }

  /** In a registry with unique names, whichever tool carries the name is the one run. */
  lemma {:induction false} UniqueNameIsFound(tools: seq<Tool>, i: nat)
    requires UniqueNames(tools) && i < |tools|
    ensures FindTool(tools, Some(JStr(tools[i].name))) == Some(i)
  {
    var found := FindTool(tools, Some(JStr(tools[i].name)));
    assert found.Some?;
    assert tools[found.value].name == tools[i].name;
  }

  /** `TOOLS` declares each name once. */
  lemma RegistryNamesUnique()
    ensures UniqueNames(Tools)
  {
  }

  /** The tool-execution route for `create_stacked_area_chart` answers exactly its handler's result. */
  lemma ChartToolExecution(body: map<string, Json>, now: nat)
    requires Get(body, "toolName") == Some(JStr(ToolName))
    ensures var out := HandleToolExecution(body, now);
            var result := HandleCreateStackedAreaChart(Get(body, "parameters"), now);
            && (out.Executed? <==> ValidParams(Get(body, "parameters")))
            && (result.Success? ==> out == Executed(result.value) && out.call.name == ToolName)
            && (result.Failure? ==> out == ExecutionFailed("Tool execution failed", result.error.Message()))
  {
    KnownToolRunsHandler(Tools, 0, Get(body, "toolName"), Get(body, "parameters"), now);
  }

  /**
   * Any other `toolName` is "not found": always when it is absent or a
   * string, and for other values unless they hold an object with its own
   * `toString` key, for which the route answers "Tool execution failed".
   */
  lemma OtherNamesNotFound(body: map<string, Json>, now: nat)
    requires Get(body, "toolName") != Some(JStr(ToolName))
    ensures var name := Get(body, "toolName");
            (name.None? || name.value.JStr?) ==> ConvertsToString(name)
    ensures var name := Get(body, "toolName");
            ConvertsToString(name) ==> HandleToolExecution(body, now) == NotFound("Tool " + JsString(name) + " not found")
    ensures var name := Get(body, "toolName");
            !ConvertsToString(name) ==>
              HandleToolExecution(body, now) == ExecutionFailed("Tool execution failed", "Cannot convert object to primitive value")
  {
  }

  /** The advertised names are exactly the names the execution route can find, with their schemas. */
  lemma {:induction false} AdvertisedToolsAreDispatchable(tools: seq<Tool>, name: string)
    ensures (exists k :: 0 <= k < |tools| && AvailableTools(tools)[k].name == name)
        <==> FindTool(tools, Some(JStr(name))).Some?
    ensures var found := FindTool(tools, Some(JStr(name)));
            found.Some? ==> AvailableTools(tools)[found.value].parameters == tools[found.value].parameters
  {
    var infos := AvailableTools(tools);
    if exists k :: 0 <= k < |tools| && infos[k].name == name {
      var k :| 0 <= k < |tools| && infos[k].name == name;
      assert NameMatches(tools[k], Some(JStr(name)));
    }
    var found := FindTool(tools, Some(JStr(name)));
    if found.Some? {
      assert infos[found.value].name == name;
    }
  }

  /** `getAvailableTools()` lists the one chart tool with its declared schema. */
  lemma AvailableToolsListing()
    ensures GetAvailableTools() == [ToolInfo(ToolName, ChartDescription, ChartSchema)]
  {
  }

  /**
   * The defaults the handler applies to absent fields are the ones the
   * schema declares: `"name"`, `400` and `true` for the three flags.
   */
  lemma DefaultsMatchSchema(params: Option<Json>, now: nat)
    requires ValidParams(params)
    ensures var c := HandleCreateStackedAreaChart(params, now).value.parameters.config;
            && (Field(params, "xAxisKey") == None ==> DeclaredDefault("xAxisKey") == Some(c.xAxisKey))
            && (Field(params, "height") == None ==> DeclaredDefault("height") == Some(c.height))
            && (Field(params, "showGrid") == None ==> DeclaredDefault("showGrid") == Some(JBool(c.showGrid)))
            && (Field(params, "showLegend") == None ==> DeclaredDefault("showLegend") == Some(JBool(c.showLegend)))
            && (Field(params, "showTooltip") == None ==> DeclaredDefault("showTooltip") == Some(JBool(c.showTooltip)))
  {
    assert DeclaredDefault("xAxisKey") == Some(JStr("name"));
    assert DeclaredDefault("height") == Some(JNum(400));
    assert DeclaredDefault("showGrid") == Some(JBool(true));
    assert DeclaredDefault("showLegend") == Some(JBool(true));
    assert DeclaredDefault("showTooltip") == Some(JBool(true));
  }

  /** Omitting any parameter the schema lists as required makes the handler throw. */
  lemma RequiredParamsMatchSchema(params: Option<Json>, now: nat)
    ensures forall e :: e in RequiredList(["required"]) ==>
      e.JStr? && (Field(params, e.s) == None ==> HandleCreateStackedAreaChart(params, now).Failure?)
  {
    assert RequiredList(["required"]) == [JStr("data"), JStr("areas")];
  }

  /** The schema's list of required area keys. */
  lemma AreaRequiredList()
    ensures RequiredList(["properties", "areas", "items", "required"])
      == [JStr("dataKey"), JStr("stackId"), JStr("fill")]
  {
    assert At(ChartSchema, ["properties", "areas", "items", "required"])
      == At(AreaItemSchema, ["required"]) by {
      assert ChartSchema.fields["properties"] == JObj(ChartProperties);
      assert ChartProperties["areas"].fields["items"] == AreaItemSchema;
    }
  }

  /** An area passes the handler's check exactly when the schema's required area keys are all truthy. */
  lemma AreaRequiredMatchesSchema(area: Json)
    ensures var required := RequiredList(["properties", "areas", "items", "required"]);
            WellFormedArea(area) <==>
              area.JObj? && forall e :: e in required ==> e.JStr? && Truthy(Get(area.fields, e.s))
  {
    AreaRequiredList();
    var keys := [JStr("dataKey"), JStr("stackId"), JStr("fill")];
    if WellFormedArea(area) {
      forall e | e in keys ensures e.JStr? && Truthy(Get(area.fields, e.s)) {
        assert e == keys[0] || e == keys[1] || e == keys[2];
      }
    } else if area.JObj? {
      assert !Truthy(Get(area.fields, keys[0].s))
          || !Truthy(Get(area.fields, keys[1].s))
          || !Truthy(Get(area.fields, keys[2].s));
    }
  }
}
