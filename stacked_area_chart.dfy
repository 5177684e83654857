/**
 * The `create_stacked_area_chart` tool handler: it validates an untrusted
 * parameter object, fail-fast, and turns it into a tool-call record with
 * the chart's defaults applied by JavaScript truthiness.
 */
module StackedAreaChart {
  import opened Wrappers
  import opened JsonValues

  const ToolName := "create_stacked_area_chart"
  const ChartType := "stacked-area"
  const IdPrefix := "chart-"
  const DefaultXAxisKey := JStr("name")
  const DefaultHeight := JNum(400)

  /** The errors the handler throws. */
  datatype HandlerError =
      /** TypeError from reading property `key` of `null` or `undefined`. */
    | ReadOfNullish(receiver: Option<Json>, key: string)
    | DataRequired
    | AreasRequired
    | AreaFieldsRequired
  {
    /** The thrown error's `message`. */
    function Message(): string
    {
      match this
      case ReadOfNullish(receiver, key) =>
        "Cannot read properties of " + JsString(receiver) + " (reading '" + key + "')"
      case DataRequired => "Data array is required for stacked area chart"
      case AreasRequired => "Areas configuration is required for stacked area chart"
      case AreaFieldsRequired => "Each area must have dataKey, stackId, and fill properties"
    }
  }

  /** `parameters.config` of the record. `title` is `None` when the caller gave none. */
  datatype ChartConfig = ChartConfig(
    title: Option<Json>,
    xAxisKey: Json,
    areas: seq<Json>,
    height: Json,
    showGrid: bool,
    showLegend: bool,
    showTooltip: bool)

  /** `parameters` of the record: the chart type, its config and the data points. */
  datatype ChartParameters = ChartParameters(chartType: string, config: ChartConfig, data: seq<Json>)

  /** A tool invocation record handed to the renderer. */
  datatype ToolCall = ToolCall(id: string, name: string, parameters: ChartParameters)

  /** The error the validation loop throws on one area, if any. */
  function AreaError(area: Json): Option<HandlerError>
  {
    if area == JNull then Some(ReadOfNullish(Some(JNull), "dataKey"))
    else if !Truthy(Property(Some(area), "dataKey"))
         || !Truthy(Property(Some(area), "stackId"))
         || !Truthy(Property(Some(area), "fill"))
    then Some(AreaFieldsRequired)
    else None
  }

  /** An area the handler accepts: an object with truthy `dataKey`, `stackId` and `fill`. */
  predicate WellFormedArea(area: Json)
  {
    && area.JObj?
    && Truthy(Get(area.fields, "dataKey"))
    && Truthy(Get(area.fields, "stackId"))
    && Truthy(Get(area.fields, "fill"))
  }

  /**
   * The `for (const area of params.areas)` guard: it stops at the first
   * area that is rejected and reports that area's error.
   */
  function CheckAreas(areas: seq<Json>): (r: Outcome<HandlerError>)
    ensures r.Pass? <==> forall i :: 0 <= i < |areas| ==> WellFormedArea(areas[i])
    ensures r.Fail? ==>
      exists i :: 0 <= i < |areas| && AreaError(areas[i]) == Some(r.error)
        && forall j :: 0 <= j < i ==> WellFormedArea(areas[j])
    decreases |areas|
  {
    if areas == [] then Pass
    else
      match AreaError(areas[0])
      case Some(e) => Fail(e)
      case None =>
        var rest := CheckAreas(areas[1..]);
        if rest.Fail? then
          ghost var i :| 0 <= i < |areas[1..]| && AreaError(areas[1..][i]) == Some(rest.error)
            && forall j :: 0 <= j < i ==> WellFormedArea(areas[1..][j]);
          assert AreaError(areas[i + 1]) == Some(rest.error);
          rest
        else
          rest
  }

  /** Parameters the handler accepts: `data` and `areas` arrays and only well-formed areas. */
  predicate ValidParams(params: Option<Json>)
  {
    && params.Some? && params.value.JObj?
    && IsArray(Get(params.value.fields, "data"))
    && IsArray(Get(params.value.fields, "areas"))
    && forall a :: a in Get(params.value.fields, "areas").value.items ==> WellFormedArea(a)
  }

  /**
   * `handleCreateStackedAreaChart`: validates `params` and builds the record.
   * `now` is the clock reading that `Date.now()` supplies for the id.
   */
  function HandleCreateStackedAreaChart(params: Option<Json>, now: nat): (r: Result<ToolCall, HandlerError>)
    ensures r.Success? <==> ValidParams(params)
  {
    if Nullish(params) then Failure(ReadOfNullish(params, "data"))
    else
      var data := Property(params, "data");
      if !Truthy(data) || !IsArray(data) then Failure(DataRequired)
      else
        var areas := Property(params, "areas");
        if !Truthy(areas) || !IsArray(areas) then Failure(AreasRequired)
        else
          match CheckAreas(areas.value.items)
          case Fail(e) => Failure(e)
          case Pass =>
            Success(ToolCall(
              IdPrefix + Decimal(now),
              ToolName,
              ChartParameters(
                ChartType,
                ChartConfig(
                  Property(params, "title"),
                  OrElse(Property(params, "xAxisKey"), DefaultXAxisKey),
                  areas.value.items,
                  OrElse(Property(params, "height"), DefaultHeight),
                  NotFalse(Property(params, "showGrid")),
                  NotFalse(Property(params, "showLegend")),
                  NotFalse(Property(params, "showTooltip"))),
                data.value.items)))
  }

  /** Shorthand for a field of an object parameter value. */
  function Field(params: Option<Json>, key: string): Option<Json>
  {
    if params.Some? && params.value.JObj? then Get(params.value.fields, key) else None
  }

  /** Reading a property of null or undefined parameters throws before any check. */
  lemma NullishParamsThrow(params: Option<Json>, now: nat)
    requires Nullish(params)
    ensures HandleCreateStackedAreaChart(params, now) == Failure(ReadOfNullish(params, "data"))
    ensures HandleCreateStackedAreaChart(params, now).error.Message()
      == "Cannot read properties of " + (if params == None then "undefined" else "null") + " (reading 'data')"
  {
  }

  /** `data` is checked first: when it is absent or not an array, that is the error. */
  lemma DataCheckedFirst(params: Option<Json>, now: nat)
    requires !Nullish(params) && !IsArray(Field(params, "data"))
    ensures HandleCreateStackedAreaChart(params, now) == Failure(DataRequired)
  {
  }

  /** With a `data` array, an absent or non-array `areas` is the error. */
  lemma AreasCheckedSecond(params: Option<Json>, now: nat)
    requires !Nullish(params) && IsArray(Field(params, "data")) && !IsArray(Field(params, "areas"))
    ensures HandleCreateStackedAreaChart(params, now) == Failure(AreasRequired)
  {
  }

  /**
   * With both arrays present, the handler fails exactly when some area is
   * rejected, and the error is that of the first rejected area.
   */
  lemma FirstBadAreaDecides(params: Option<Json>, now: nat, i: nat)
    requires !Nullish(params) && IsArray(Field(params, "data")) && IsArray(Field(params, "areas"))
    requires i < |Field(params, "areas").value.items|
    requires !WellFormedArea(Field(params, "areas").value.items[i])
    requires forall j :: 0 <= j < i ==> WellFormedArea(Field(params, "areas").value.items[j])
    ensures HandleCreateStackedAreaChart(params, now)
      == Failure(AreaError(Field(params, "areas").value.items[i]).value)
  {
  }

  /** `CheckAreas` reports the error of the first area that is not well formed. */
  lemma FirstRejectedArea(areas: seq<Json>, i: nat)
    requires i < |areas| && !WellFormedArea(areas[i])
    requires forall j :: 0 <= j < i ==> WellFormedArea(areas[j])
    ensures AreaError(areas[i]).Some?
    ensures CheckAreas(areas) == Fail(AreaError(areas[i]).value)
  {
  }

  /** A `null` area aborts with a TypeError, any other rejected area with the "Each area" error. */
  lemma AreaErrorKinds(area: Json)
    ensures AreaError(area).None? <==> WellFormedArea(area)
    ensures area == JNull ==> AreaError(area) == Some(ReadOfNullish(Some(JNull), "dataKey"))
    ensures area != JNull && !WellFormedArea(area) ==> AreaError(area) == Some(AreaFieldsRequired)
  {
  }

  /** The data points are never inspected: any `data` array gives the same verdict. */
  lemma DataElementsIgnored(fields: map<string, Json>, otherData: seq<Json>, now: nat)
    requires IsArray(Get(fields, "data"))
    ensures var r := HandleCreateStackedAreaChart(Some(JObj(fields)), now);
            var r' := HandleCreateStackedAreaChart(Some(JObj(fields["data" := JArr(otherData)])), now);
            && (r.Failure? <==> r'.Failure?)
            && (r.Failure? ==> r.error == r'.error)
            && (r.Success? ==>
                  r'.value.parameters.config == r.value.parameters.config && r'.value.parameters.data == otherData)
  {
    var fields' := fields["data" := JArr(otherData)];
    assert Get(fields', "areas") == Get(fields, "areas");
    forall k | k != "data" ensures Get(fields', k) == Get(fields, k) { }
  }

  /**
   * On valid input the record is built: the tool name and chart type are
   * fixed, `areas` and `data` are the caller's arrays unchanged, and the
   * title is passed through (absent when the caller gave none).
   */
  lemma ValidParamsRecord(params: Option<Json>, now: nat)
    requires ValidParams(params)
    ensures var r := HandleCreateStackedAreaChart(params, now);
            && r.Success?
            && r.value.name == ToolName
            && r.value.parameters.chartType == ChartType
            && r.value.id == IdPrefix + Decimal(now)
            && Some(JArr(r.value.parameters.config.areas)) == Field(params, "areas")
            && Some(JArr(r.value.parameters.data)) == Field(params, "data")
            && r.value.parameters.config.title == Field(params, "title")
  {
  }

  /**
   * `xAxisKey` and `height` fall back to `"name"` and `400` when absent or
   * falsy (so an empty key or a height of `0` is replaced) and otherwise
   * keep the caller's value.
   */
  lemma TruthinessDefaults(params: Option<Json>, now: nat)
    requires ValidParams(params)
    ensures var c := HandleCreateStackedAreaChart(params, now).value.parameters.config;
            && (Truthy(Field(params, "xAxisKey")) ==> Some(c.xAxisKey) == Field(params, "xAxisKey"))
            && (!Truthy(Field(params, "xAxisKey")) ==> c.xAxisKey == JStr("name"))
            && (Truthy(Field(params, "height")) ==> Some(c.height) == Field(params, "height"))
            && (!Truthy(Field(params, "height")) ==> c.height == JNum(400))
  {
  }

  /** Each flag is off exactly when the caller passed the boolean `false`. */
  lemma FlagsOffOnlyForFalse(params: Option<Json>, now: nat)
    requires ValidParams(params)
    ensures var c := HandleCreateStackedAreaChart(params, now).value.parameters.config;
            && (!c.showGrid <==> Field(params, "showGrid") == Some(JBool(false)))
            && (!c.showLegend <==> Field(params, "showLegend") == Some(JBool(false)))
            && (!c.showTooltip <==> Field(params, "showTooltip") == Some(JBool(false)))
  {
  }

  /** The record's id is `chart-` followed by the clock reading in decimal, which it determines. */
  lemma IdEncodesClock(params: Option<Json>, now: nat)
    requires ValidParams(params)
    ensures var id := HandleCreateStackedAreaChart(params, now).value.id;
            && id[..|IdPrefix|] == IdPrefix
            && IsDigits(id[|IdPrefix|..])
            && DecimalValue(id[|IdPrefix|..]) == now
  {
    var id := HandleCreateStackedAreaChart(params, now).value.id;
    assert id[|IdPrefix|..] == Decimal(now);
    DecimalRoundTrip(now);
  }

  /**
   * With `data` and `areas` arrays, an object area without `stackId` that
   * follows only accepted areas makes the whole call fail with the single
   * "Each area" error; no record and no field path are produced.
   */
  lemma MissingStackIdRejected(params: Option<Json>, now: nat, i: nat)
    requires !Nullish(params) && IsArray(Field(params, "data")) && IsArray(Field(params, "areas"))
    requires i < |Field(params, "areas").value.items|
    requires forall j :: 0 <= j < i ==> WellFormedArea(Field(params, "areas").value.items[j])
    requires var area := Field(params, "areas").value.items[i];
             area.JObj? && "stackId" !in area.fields
    ensures HandleCreateStackedAreaChart(params, now) == Failure(AreaFieldsRequired)
    ensures AreaFieldsRequired.Message() == "Each area must have dataKey, stackId, and fill properties"
  {
    FirstBadAreaDecides(params, now, i);
  }
}
