/** The request records of the agent and how they are built from keyword
    arguments: a field with a default may be left out, a field without one may
    not, and a supplied value must already have the field's type. */
module Schemas {
  import opened Wrappers

  /** What `analyze` is asked to do. */
  datatype DataAnalystInput = DataAnalystInput(
    tickerSymbols: seq<string>,
    timePeriod: string,
    analysisType: string,
    specificMetrics: seq<string>)

  /** The named-tool envelope around a request. */
  datatype InputSchema = InputSchema(toolName: string, toolInputData: DataAnalystInput)

  const DefaultAnalysisType: string := "brief"
  const DefaultMetrics: seq<string> := ["PE", "Revenue Growth", "Profit Margins"]
  const DefaultToolName: string := "analyze"

  /** An untyped argument value: a string, a list of strings, a nested keyword
      dictionary, an already built `DataAnalystInput`, or anything else. */
  datatype Value =
    | Str(text: string)
    | StrList(items: seq<string>)
    | Record(fields: map<string, Value>)
    | AnalystInput(input: DataAnalystInput)
    | Other

  datatype ErrorKind = Missing | WrongType

  /** One validation error: the path of field names that leads to the bad
      field, and what is wrong with it. */
  datatype FieldError = FieldError(loc: seq<string>, kind: ErrorKind)

  type Validated<T> = Result<T, seq<FieldError>>

  predicate HasStr(fields: map<string, Value>, name: string) {
    name in fields && fields[name].Str?
  }

  predicate HasStrList(fields: map<string, Value>, name: string) {
    name in fields && fields[name].StrList?
  }

  function StrField(fields: map<string, Value>, name: string, default: Option<string>): Validated<string> {
    if name !in fields then
      if default.Some? then Success(default.value) else Failure([FieldError([name], Missing)])
    else if fields[name].Str? then Success(fields[name].text)
    else Failure([FieldError([name], WrongType)])
  }

  function StrListField(fields: map<string, Value>, name: string, default: Option<seq<string>>): Validated<seq<string>> {
    if name !in fields then
      if default.Some? then Success(default.value) else Failure([FieldError([name], Missing)])
    else if fields[name].StrList? then Success(fields[name].items)
    else Failure([FieldError([name], WrongType)])
  }

  function ErrorsOf<T>(r: Validated<T>): seq<FieldError> {
    if r.Failure? then r.error else []
  }

  /** `DataAnalystInput(**fields)`: every field is checked and all the errors
      are reported together, in declaration order; unknown keys are ignored. */
  function NewDataAnalystInput(fields: map<string, Value>): (r: Validated<DataAnalystInput>)
    ensures r.Success? <==>
      && HasStrList(fields, "ticker_symbols")
      && HasStr(fields, "time_period")
      && ("analysis_type" in fields ==> fields["analysis_type"].Str?)
      && ("specific_metrics" in fields ==> fields["specific_metrics"].StrList?)
  {
    var tickers := StrListField(fields, "ticker_symbols", None);
    var period := StrField(fields, "time_period", None);
    var kind := StrField(fields, "analysis_type", Some(DefaultAnalysisType));
    var metrics := StrListField(fields, "specific_metrics", Some(DefaultMetrics));
    var errors := ErrorsOf(tickers) + ErrorsOf(period) + ErrorsOf(kind) + ErrorsOf(metrics);
    if errors == [] then
      Success(DataAnalystInput(tickers.value, period.value, kind.value, metrics.value))
    else
      Failure(errors)
  }

  /** A successful construction takes every supplied field as supplied and
      fills in the defaults of the fields left out. */
  lemma NewDataAnalystInputValues(fields: map<string, Value>)
    requires NewDataAnalystInput(fields).Success?
    ensures var r := NewDataAnalystInput(fields).value;
      && r.tickerSymbols == fields["ticker_symbols"].items
      && r.timePeriod == fields["time_period"].text
      && r.analysisType == (if "analysis_type" in fields then fields["analysis_type"].text else DefaultAnalysisType)
      && r.specificMetrics == (if "specific_metrics" in fields then fields["specific_metrics"].items else DefaultMetrics)
  {
  }

  /** The fields without a default must be supplied. */
  lemma RequiredFieldsMissing(fields: map<string, Value>)
    ensures "ticker_symbols" !in fields ==>
      NewDataAnalystInput(fields).Failure? && FieldError(["ticker_symbols"], Missing) in NewDataAnalystInput(fields).error
    ensures "time_period" !in fields ==>
      NewDataAnalystInput(fields).Failure? && FieldError(["time_period"], Missing) in NewDataAnalystInput(fields).error
  {
    var tickers := StrListField(fields, "ticker_symbols", None);
    var period := StrField(fields, "time_period", None);
    var kind := StrField(fields, "analysis_type", Some(DefaultAnalysisType));
    var metrics := StrListField(fields, "specific_metrics", Some(DefaultMetrics));
    var errors := ErrorsOf(tickers) + ErrorsOf(period) + ErrorsOf(kind) + ErrorsOf(metrics);
    if "ticker_symbols" !in fields {
      assert errors[0] == FieldError(["ticker_symbols"], Missing);
    }
    if "time_period" !in fields {
      assert FieldError(["time_period"], Missing) in ErrorsOf(period);
    }
  }

  /** Each reported error is about one field of the record, named by its key. */
  lemma ErrorsNameFields(fields: map<string, Value>)
    requires NewDataAnalystInput(fields).Failure?
    ensures forall e | e in NewDataAnalystInput(fields).error ::
      e.loc in [["ticker_symbols"], ["time_period"], ["analysis_type"], ["specific_metrics"]]
  {
  }

  /** An error of a nested record, located under the field that holds it. */
  function Nest(name: string, errors: seq<FieldError>): (r: seq<FieldError>)
    ensures |r| == |errors|
    ensures forall i | 0 <= i < |r| :: r[i].loc == [name] + errors[i].loc && r[i].kind == errors[i].kind
  {
    if errors == [] then []
    else [FieldError([name] + errors[0].loc, errors[0].kind)] + Nest(name, errors[1..])
  }

  /** The request data of an envelope: an already built `DataAnalystInput` is
      taken as it is, a nested keyword dictionary is validated in turn. */
  function ToolInputDataField(fields: map<string, Value>): Validated<DataAnalystInput> {
    if "tool_input_data" !in fields then Failure([FieldError(["tool_input_data"], Missing)])
    else match fields["tool_input_data"]
      case AnalystInput(input) => Success(input)
      case Record(inner) =>
        var r := NewDataAnalystInput(inner);
        if r.Success? then Success(r.value) else Failure(Nest("tool_input_data", r.error))
      case _ => Failure([FieldError(["tool_input_data"], WrongType)])
  }

  /** `InputSchema(**fields)`. */
  function NewInputSchema(fields: map<string, Value>): (r: Validated<InputSchema>)
    ensures r.Success? <==>
      && ("tool_name" in fields ==> fields["tool_name"].Str?)
      && "tool_input_data" in fields
      && (|| fields["tool_input_data"].AnalystInput?
          || (fields["tool_input_data"].Record? && NewDataAnalystInput(fields["tool_input_data"].fields).Success?))
    ensures r.Success? ==> r.value.toolName == (if "tool_name" in fields then fields["tool_name"].text else DefaultToolName)
    ensures "tool_name" in fields && !fields["tool_name"].Str? ==> r.Failure? && FieldError(["tool_name"], WrongType) in r.error
    ensures "tool_input_data" !in fields ==> r.Failure? && FieldError(["tool_input_data"], Missing) in r.error
    ensures r.Success? && fields["tool_input_data"].AnalystInput? ==>
      r.value.toolInputData == fields["tool_input_data"].input
    ensures "tool_input_data" in fields && fields["tool_input_data"].Record? ==>
      var inner := NewDataAnalystInput(fields["tool_input_data"].fields);
      (inner.Failure? ==> r.Failure? && forall e | e in inner.error :: FieldError(["tool_input_data"] + e.loc, e.kind) in r.error) &&
      (r.Success? ==> inner.Success? && r.value.toolInputData == inner.value)
  {
    var name := StrField(fields, "tool_name", Some(DefaultToolName));
    var data := ToolInputDataField(fields);
    var errors := ErrorsOf(name) + ErrorsOf(data);
    if errors == [] then Success(InputSchema(name.value, data.value)) else Failure(errors)
  }

  /** Given only the two required fields, the defaults fill in the rest. */
  lemma DefaultsApplied(tickers: seq<string>, period: string)
    ensures NewDataAnalystInput(map["ticker_symbols" := StrList(tickers), "time_period" := Str(period)])
      == Success(DataAnalystInput(tickers, period, "brief", ["PE", "Revenue Growth", "Profit Margins"]))
  {
  }

  /** A field supplied with the right type is kept exactly as supplied. */
  lemma ExplicitValuesKept(tickers: seq<string>, period: string, kind: string, metrics: seq<string>)
    ensures NewDataAnalystInput(map[
        "ticker_symbols" := StrList(tickers), "time_period" := Str(period),
        "analysis_type" := Str(kind), "specific_metrics" := StrList(metrics)])
      == Success(DataAnalystInput(tickers, period, kind, metrics))
  {
  }

  /** Keys that are not fields of the record make no difference. */
  lemma UnknownKeysIgnored(fields: map<string, Value>, key: string, v: Value)
    requires key !in {"ticker_symbols", "time_period", "analysis_type", "specific_metrics"}
    ensures NewDataAnalystInput(fields[key := v]) == NewDataAnalystInput(fields)
  {
  }
}
