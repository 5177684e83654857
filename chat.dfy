/**
 * The chat route: it rejects an empty message, routes a message that
 * mentions an area chart to the chart tool with built-in sample
 * parameters, and assembles the reply with its conversation id.
 */
module Chat {
  import opened Wrappers
  import opened JsonValues
  import opened StackedAreaChart

  const MessageRequired := "Message is required"
  const InternalServerError := "Internal server error"
  /** The TypeError thrown when a truthy `message` that is not a string is lower-cased. */
  const NotAString := "message.toLowerCase is not a function"
  const CreatedContent := "I've created a stacked area chart for you."
  const FallbackContent :=
    "I understand you want to create charts. Please specify what type of data you'd like to visualize."
  const ConversationPrefix := "conv-"

  /** The JSON reply: `toolCalls` is `None` (left out of the reply) when no tool was called. */
  datatype ChatResponse = ChatResponse(content: string, toolCalls: Option<seq<ToolCall>>, conversationId: Json)

  /** What the chat route answers: 400, the reply, or 500. */
  datatype ChatOutcome =
    | BadRequest(error: string)
    | Replied(response: ChatResponse)
    | ServerError(error: string, message: string)

  /** `toLowerCase` on the ASCII letters. */
  function LowerChar(c: char): char
  {
    if 'A' <= c <= 'Z' then (c as int - 'A' as int + 'a' as int) as char else c
  }

  function Lower(s: string): (r: string)
    ensures |r| == |s|
    ensures forall i :: 0 <= i < |s| ==> r[i] == LowerChar(s[i])
  {
    seq(|s|, i requires 0 <= i < |s| => LowerChar(s[i]))
  }

  /** `part` occurs in `s` starting at position `i`. */
  predicate OccursAt(s: string, part: string, i: int)
  {
    0 <= i <= |s| - |part| && s[i..i + |part|] == part
  }

  /** `s.includes(part)`. */
  predicate Contains(s: string, part: string)
  {
    exists i :: 0 <= i <= |s| - |part| && OccursAt(s, part, i)
  }

  /** Every text that contains "stacked area chart" contains "area chart". */
  lemma StackedMentionIsAreaMention(s: string)
    requires Contains(s, "stacked area chart")
    ensures Contains(s, "area chart")
  {
    var i :| 0 <= i <= |s| - 18 && OccursAt(s, "stacked area chart", i);
    assert s[i..i + 18] == "stacked area chart";
    assert s[i + 8..i + 18] == s[i..i + 18][8..] == "area chart";
    assert OccursAt(s, "area chart", i + 8);
  }

  /** The routing test of the chat route. */
  predicate MentionsAreaChart(message: string)
  {
    Contains(Lower(message), "stacked area chart") || Contains(Lower(message), "area chart")
  }

  /** The two tests of the route come down to one: the lower-cased text contains "area chart". */
  lemma RoutingIsAreaChartMatch(message: string)
    ensures MentionsAreaChart(message) <==> Contains(Lower(message), "area chart")
  {
    if Contains(Lower(message), "stacked area chart") {
      StackedMentionIsAreaMention(Lower(message));
    }
  }

  /** Routing ignores the case of ASCII letters. */
  lemma RoutingIgnoresCase(a: string, b: string)
    requires |a| == |b| && forall i :: 0 <= i < |a| ==> LowerChar(a[i]) == LowerChar(b[i])
    ensures MentionsAreaChart(a) <==> MentionsAreaChart(b)
  {
    assert Lower(a) == Lower(b);
  }

  function DataPoint(name: string, s1: int, s2: int, s3: int): Json
  {
    JObj(map["name" := JStr(name), "series1" := JNum(s1), "series2" := JNum(s2), "series3" := JNum(s3)])
  }

  function AreaSpec(dataKey: string, fill: string, name: string): Json
  {
    JObj(map["dataKey" := JStr(dataKey), "stackId" := JStr("1"), "fill" := JStr(fill), "name" := JStr(name)])
  }

  const ExampleData: seq<Json> := [
    DataPoint("Jan", 4000, 2400, 2400),
    DataPoint("Feb", 3000, 1398, 2210),
    DataPoint("Mar", 2000, 9800, 2290),
    DataPoint("Apr", 2780, 3908, 2000),
    DataPoint("May", 1890, 4800, 2181),
    DataPoint("Jun", 2390, 3800, 2500)]

  const ExampleAreas: seq<Json> := [
    AreaSpec("series1", "#8884d8", "Series 1"),
    AreaSpec("series2", "#82ca9d", "Series 2"),
    AreaSpec("series3", "#ffc658", "Series 3")]

  lemma AreaSpecWellFormed(area: Json)
    requires area in ExampleAreas
    ensures WellFormedArea(area)
  {
  }

  const ExampleTitle := "Sample Stacked Area Chart"

  /** The parameters the route passes to the chart handler. */
  const ExampleParams: Json :=
    JObj(map["title" := JStr(ExampleTitle), "data" := JArr(ExampleData), "areas" := JArr(ExampleAreas)])

  /** The sample chart the route creates, with every default applied. */
  function ExampleChart(now: nat): ToolCall
  {
    ToolCall(
      IdPrefix + Decimal(now),
      ToolName,
      ChartParameters(
        ChartType,
        ChartConfig(Some(JStr(ExampleTitle)), JStr("name"), ExampleAreas, JNum(400), true, true, true),
        ExampleData))
  }

  /** The sample parameters pass validation. */
  lemma ExampleParamsValid()
    ensures ValidParams(Some(ExampleParams))
  {
    forall k | 0 <= k < |ExampleAreas| ensures WellFormedArea(ExampleAreas[k]) {
      AreaSpecWellFormed(ExampleAreas[k]);
    }
  }

  /** The handler accepts the sample parameters, so the route's call never throws. */
  lemma ExampleChartIsCreated(now: nat)
    ensures HandleCreateStackedAreaChart(Some(ExampleParams), now) == Success(ExampleChart(now))
  {
    var params := Some(ExampleParams);
    ExampleParamsValid();
    ValidParamsRecord(params, now);
    TruthinessDefaults(params, now);
    FlagsOffOnlyForFalse(params, now);
    assert Field(params, "title") == Some(JStr(ExampleTitle));
    assert Field(params, "xAxisKey") == None;
    assert Field(params, "height") == None;
    assert Field(params, "showGrid") == None;
    assert Field(params, "showLegend") == None;
    assert Field(params, "showTooltip") == None;
    var call := HandleCreateStackedAreaChart(params, now).value;
    assert call.parameters.config == ExampleChart(now).parameters.config;
  }

  /**
   * `handleChatRequest`: `body` is the parsed request body; `chartTime` and
   * `conversationTime` are the two `Date.now()` readings (chart id, then
   * conversation id).
   */
  method HandleChatRequest(body: map<string, Json>, chartTime: nat, conversationTime: nat)
    returns (outcome: ChatOutcome)
    ensures outcome.BadRequest? <==> !Truthy(Get(body, "message"))
    ensures outcome.BadRequest? ==> outcome.error == MessageRequired
    ensures outcome.ServerError? <==> Truthy(Get(body, "message")) && !Get(body, "message").value.JStr?
    ensures outcome.ServerError? ==> outcome == ServerError(InternalServerError, NotAString)
    ensures outcome.Replied? ==>
      var message := Get(body, "message").value.s;
      var r := outcome.response;
      && (r.toolCalls.Some? <==> Contains(Lower(message), "area chart"))
      && (r.toolCalls.Some? ==> r.toolCalls.value == [ExampleChart(chartTime)])
      && (r.content == CreatedContent <==> r.toolCalls.Some?)
      && (r.toolCalls.None? ==> r.content == FallbackContent)
      && (Truthy(Get(body, "conversation_id")) ==> Some(r.conversationId) == Get(body, "conversation_id"))
      && (!Truthy(Get(body, "conversation_id")) ==>
            r.conversationId == JStr(ConversationPrefix + Decimal(conversationTime)))
  {
    var message := Get(body, "message");
    var conversationId := Get(body, "conversation_id");
    if !Truthy(message) {
      return BadRequest(MessageRequired);
    }
    if !message.value.JStr? {
      return ServerError(InternalServerError, NotAString);
    }
    var text := message.value.s;

    var toolCalls: seq<ToolCall> := [];
    if Contains(Lower(text), "stacked area chart") || Contains(Lower(text), "area chart") {
      ExampleChartIsCreated(chartTime);
      var chartTool := HandleCreateStackedAreaChart(Some(ExampleParams), chartTime).value;
      toolCalls := toolCalls + [chartTool];
    }
    RoutingIsAreaChartMatch(text);

    var response := ChatResponse(
      if |toolCalls| > 0 then CreatedContent else FallbackContent,
      if |toolCalls| > 0 then Some(toolCalls) else None,
      OrElse(conversationId, JStr(ConversationPrefix + Decimal(conversationTime))));
    outcome := Replied(response);
  }
}
