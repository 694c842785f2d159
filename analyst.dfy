/** The financial data analyst agent: for each requested ticker symbol, fetch
    the market data, extract the requested metrics, ask the language model for
    an analysis, and collect the per-symbol results in a dict keyed by symbol.
    The market-data provider and the language model are outside the model: they
    are passed in as functions that may fail. Each takes as first argument the
    position, in the request's symbol list, of the symbol being processed, so
    two calls for the same symbol may answer differently. */
module Analyst {
  import opened Wrappers
  import opened Seqs
  import opened Dicts
  import opened Schemas
  import Metrics

  /** A statement table as `DataFrame.to_dict()` gives it: column to index to value. */
  type Table<V> = map<string, map<string, V>>

  /** What the market-data provider returns for one symbol. */
  datatype FinancialData<V> = FinancialData(
    info: map<string, V>,
    incomeStmt: Table<V>,
    balanceSheet: Table<V>,
    calendar: map<string, V>,
    history: Table<V>)

  /** An exception raised by a collaborator, passed on unchanged. */
  datatype Exception = Exception(kind: string, message: string)

  datatype LlmConfig = LlmConfig(model: string, temperature: real)

  /** The chat-model client: the model name and temperature it was set up with. */
  datatype ChatModel = ChatModel(modelName: string, temperature: real)

  datatype ChatResponse = ChatResponse(content: string)

  /** What the prompt for one symbol embeds; its rendering as text is not modelled. */
  datatype Prompt<V> = Prompt(
    symbol: string,
    metrics: Dict<string, V>,
    incomeStmt: Table<V>,
    balanceSheet: Table<V>,
    analysisType: string)

  /** One entry of the result: `{"metrics": ..., "analysis": ...}`. */
  datatype SymbolResult<V> = SymbolResult(metrics: Dict<string, V>, analysis: string)

  type Results<V> = Dict<string, SymbolResult<V>>

  /** `get_financial_data(symbol, period)` at a given position of the symbol list. */
  type Fetcher<V> = (nat, string, string) -> Result<FinancialData<V>, Exception>

  /** `llm.invoke(prompt)` at a given position of the symbol list. */
  type Invoker<!V> = (nat, ChatModel, Prompt<V>) -> Result<ChatResponse, Exception>

  datatype Deployment = Deployment(config: DeploymentConfig)
  datatype DeploymentConfig = DeploymentConfig(llmConfig: LlmConfig)

  /** The run's inputs: either an untyped keyword dictionary or a built envelope. */
  datatype Inputs = Untyped(fields: map<string, Value>) | Typed(schema: InputSchema)

  datatype ModuleRun = ModuleRun(inputs: Inputs, deployment: Deployment)

  /** Why `run` fails: the inputs did not validate, or a collaborator raised. */
  datatype RunError = Invalid(errors: seq<FieldError>) | Raised(exception: Exception)

  /** The chat model `setup_llm` builds from a configuration. */
  function ModelOf(config: LlmConfig): ChatModel {
    ChatModel(config.model, config.temperature)
  }

  /** The prompt for the symbol at position `i`, given its data and extracted metrics. */
  function PromptFor<V>(input: DataAnalystInput, i: nat, data: FinancialData<V>, metrics: Dict<string, V>): Prompt<V>
    requires i < |input.tickerSymbols|
  {
    Prompt(input.tickerSymbols[i], metrics, data.incomeStmt, data.balanceSheet, input.analysisType)
  }

  /** One turn of the loop in `analyze`: the symbol at position `i` fetched,
      its metrics extracted and its analysis asked for. */
  function ProcessSymbol<V>(llm: ChatModel, input: DataAnalystInput, fetch: Fetcher<V>, invoke: Invoker<V>, i: nat)
    : Result<SymbolResult<V>, Exception>
    requires i < |input.tickerSymbols|
  {
    match fetch(i, input.tickerSymbols[i], input.timePeriod)
    case Failure(e) => Failure(e)
    case Success(data) =>
      var metrics := Metrics.Projection(data.info, input.specificMetrics);
      match invoke(i, llm, PromptFor(input, i, data, metrics))
      case Failure(e) => Failure(e)
      case Success(response) => Success(SymbolResult(metrics, response.content))
  }

  /** The results after the first `n` symbols, or the first exception raised. */
  function AnalyzePrefix<V>(llm: ChatModel, input: DataAnalystInput, fetch: Fetcher<V>, invoke: Invoker<V>, n: nat)
    : Result<Results<V>, Exception>
    requires n <= |input.tickerSymbols|
  {
    if n == 0 then Success(Empty())
    else
      match AnalyzePrefix(llm, input, fetch, invoke, n - 1)
      case Failure(e) => Failure(e)
      case Success(results) =>
        match ProcessSymbol(llm, input, fetch, invoke, n - 1)
        case Failure(e) => Failure(e)
        case Success(entry) => Success(Assign(results, input.tickerSymbols[n - 1], entry))
  }

  /** One more turn of the loop in `analyze`. */
  lemma AnalyzePrefixStep<V>(llm: ChatModel, input: DataAnalystInput, fetch: Fetcher<V>, invoke: Invoker<V>, n: nat)
    requires n < |input.tickerSymbols|
    requires AnalyzePrefix(llm, input, fetch, invoke, n).Success?
    ensures var results := AnalyzePrefix(llm, input, fetch, invoke, n).value;
      AnalyzePrefix(llm, input, fetch, invoke, n + 1) ==
        match ProcessSymbol(llm, input, fetch, invoke, n)
        case Failure(e) => Failure(e)
        case Success(entry) => Success(Assign(results, input.tickerSymbols[n], entry))
  {
  }

  /** A successful prefix is the previous prefix with its last symbol assigned. */
  lemma AnalyzePrefixSucceeded<V>(llm: ChatModel, input: DataAnalystInput, fetch: Fetcher<V>, invoke: Invoker<V>, n: nat)
    requires 0 < n <= |input.tickerSymbols|
    requires AnalyzePrefix(llm, input, fetch, invoke, n).Success?
    ensures AnalyzePrefix(llm, input, fetch, invoke, n - 1).Success?
    ensures ProcessSymbol(llm, input, fetch, invoke, n - 1).Success?
    ensures AnalyzePrefix(llm, input, fetch, invoke, n).value ==
      Assign(AnalyzePrefix(llm, input, fetch, invoke, n - 1).value, input.tickerSymbols[n - 1],
             ProcessSymbol(llm, input, fetch, invoke, n - 1).value)
  {
  }

  /** Once a symbol has raised, no later symbol changes the outcome. */
  lemma {:induction false} FailurePersists<V>(llm: ChatModel, input: DataAnalystInput, fetch: Fetcher<V>, invoke: Invoker<V>, k: nat, n: nat)
    requires k <= n <= |input.tickerSymbols|
    requires AnalyzePrefix(llm, input, fetch, invoke, k).Failure?
    ensures AnalyzePrefix(llm, input, fetch, invoke, n) == AnalyzePrefix(llm, input, fetch, invoke, k)
    decreases n
  {
    if k < n {
      FailurePersists(llm, input, fetch, invoke, k, n - 1);
    }
  }

  /** A symbol that raises after all earlier ones succeeded decides the outcome. */
  lemma FailureDecides<V>(llm: ChatModel, input: DataAnalystInput, fetch: Fetcher<V>, invoke: Invoker<V>, i: nat)
    requires i < |input.tickerSymbols|
    requires AnalyzePrefix(llm, input, fetch, invoke, i).Success?
    requires ProcessSymbol(llm, input, fetch, invoke, i).Failure?
    ensures AnalyzeAll(llm, input, fetch, invoke) == Failure(ProcessSymbol(llm, input, fetch, invoke, i).error)
  {
    AnalyzePrefixStep(llm, input, fetch, invoke, i);
    FailurePersists(llm, input, fetch, invoke, i + 1, |input.tickerSymbols|);
  }

  /** What `analyze` returns: the results for every symbol, or the first exception. */
  function AnalyzeAll<V>(llm: ChatModel, input: DataAnalystInput, fetch: Fetcher<V>, invoke: Invoker<V>)
    : Result<Results<V>, Exception>
  {
    AnalyzePrefix(llm, input, fetch, invoke, |input.tickerSymbols|)
  }

  /** An exception of `analyze`, as `run` lets it through. */
  function Raise<T>(r: Result<T, Exception>): Result<T, RunError> {
    match r
    case Success(v) => Success(v)
    case Failure(e) => Failure(Raised(e))
  }

  /** The envelope `run` works from: a built one as it is, an untyped one validated. */
  function ToolInput(inputs: Inputs): Validated<InputSchema> {
    match inputs
    case Typed(schema) => Success(schema)
    case Untyped(fields) => NewInputSchema(fields)
  }

  class FinancialDataAnalyst {
    var moduleRun: ModuleRun
    var llmConfig: LlmConfig
    var llm: ChatModel

    constructor (moduleRun: ModuleRun)
      ensures this.moduleRun == moduleRun
      ensures llmConfig == moduleRun.deployment.config.llmConfig
      ensures llm == ModelOf(llmConfig)
    {
      this.moduleRun := moduleRun;
      this.llmConfig := moduleRun.deployment.config.llmConfig;
      new;
      SetupLlm();
    }

    /** Builds the chat model from the stored configuration. */
    method SetupLlm()
      modifies this`llm
      ensures llm == ModelOf(llmConfig)
    {
      llm := ModelOf(llmConfig);
    }

    /** `analyze_metrics`: fills a fresh dict with the requested metrics that
        the data's `info` has. */
    method AnalyzeMetrics<V>(data: FinancialData<V>, metrics: seq<string>) returns (analysis: Dict<string, V>)
      ensures analysis == Metrics.Projection(data.info, metrics)
    {
      analysis := Empty();
      for i := 0 to |metrics|
        invariant analysis == Metrics.Projection(data.info, metrics[..i])
      {
        var metric := metrics[i];
        assert metrics[..i + 1][..i] == metrics[..i];
        if metric in data.info {
          analysis := Assign(analysis, metric, data.info[metric]);
        }
      }
      assert metrics[..|metrics|] == metrics;
    }

    /** `analyze`: processes the symbols in order and stops at the first exception. */
    method Analyze<V>(input: DataAnalystInput, fetch: Fetcher<V>, invoke: Invoker<V>)
      returns (r: Result<Results<V>, Exception>)
      ensures r == AnalyzeAll(llm, input, fetch, invoke)
    {
      var results := Empty();
      var i := 0;
      while i < |input.tickerSymbols|
        invariant i <= |input.tickerSymbols|
        invariant AnalyzePrefix(llm, input, fetch, invoke, i) == Success(results)
      {
        var symbol := input.tickerSymbols[i];
        var data := fetch(i, symbol, input.timePeriod);
        if data.Failure? {
          assert ProcessSymbol(llm, input, fetch, invoke, i) == Failure(data.error);
          FailureDecides(llm, input, fetch, invoke, i);
          return Failure(data.error);
        }
        var metricAnalysis := AnalyzeMetrics(data.value, input.specificMetrics);
        var response := invoke(i, llm, PromptFor(input, i, data.value, metricAnalysis));
        if response.Failure? {
          assert ProcessSymbol(llm, input, fetch, invoke, i) == Failure(response.error);
          FailureDecides(llm, input, fetch, invoke, i);
          return Failure(response.error);
        }
        assert ProcessSymbol(llm, input, fetch, invoke, i) == Success(SymbolResult(metricAnalysis, response.value.content));
        AnalyzePrefixStep(llm, input, fetch, invoke, i);
        results := Assign(results, symbol, SymbolResult(metricAnalysis, response.value.content));
        i := i + 1;
      }
      return Success(results);
    }
  }

  /** `run`: sets up the analyst, validates an untyped input, and analyses the
      envelope's request data; the tool name is not looked at. */
  method Run<V>(moduleRun: ModuleRun, fetch: Fetcher<V>, invoke: Invoker<V>)
    returns (r: Result<Results<V>, RunError>)
    ensures var llm := ModelOf(moduleRun.deployment.config.llmConfig);
      match moduleRun.inputs
      case Typed(schema) => r == Raise(AnalyzeAll(llm, schema.toolInputData, fetch, invoke))
      case Untyped(fields) =>
        match NewInputSchema(fields)
        case Failure(errors) => r == Failure(Invalid(errors))
        case Success(schema) => r == Raise(AnalyzeAll(llm, schema.toolInputData, fetch, invoke))
  {
    var analyst := new FinancialDataAnalyst(moduleRun);
    var inputParams := ToolInput(moduleRun.inputs);
    if inputParams.Failure? {
      return Failure(Invalid(inputParams.error));
    }
    var results := analyst.Analyze(inputParams.value.toolInputData, fetch, invoke);
    r := Raise(results);
  }
}
