# Financial data analyst: a Dafny model

This project models the core of the `financial_data_analyst` agent module. The
agent takes a request: ticker symbols, a time period, an analysis type and the
names of the metrics wanted. For each symbol it does four things in order:

1. fetches the market data;
2. cuts the company-info attributes down to the requested metrics (`analyze_metrics`);
3. asks a language model for a narrative analysis;
4. collects `{metrics, analysis}` per symbol in a dict keyed by symbol (`analyze`).

The entry point `run` accepts the request either as a ready-built envelope or
as an untyped keyword dictionary. The dictionary is validated into the
envelope, and the records' defaults fill in any field left out.

Files and modules:

- `wrappers.dfy` (`Wrappers`): `Option` and `Result`. A Python exception is
  modelled as the `Failure` case of a `Result`.
- `seqs.dfy` (`Seqs`): `Distinct`, the first-occurrence order of a sequence, and
  the positions `FirstIndex` and `LastIndex`.
- `dicts.dfy` (`Dicts`): a Python `dict` as a map plus its insertion order. `Assign`
  is `d[k] = v`: a new key goes to the end, and an existing key keeps its place.
- `schemas.dfy` (`Schemas`): the records `DataAnalystInput` and `InputSchema`, with
  their defaults. Building them from keyword arguments is modelled as validating
  a `map<string, Value>`.
- `metrics.dfy` (`Metrics`): what `analyze_metrics` computes. `Projection` assigns
  the metrics one by one. `Selection` is a closed-form description of the same
  result. `ProjectionIsSelection` proves the two agree.
- `analyst.dfy` (`Analyst`): the collaborator types, the specification of one loop
  turn (`ProcessSymbol`) and of the whole loop (`AnalyzePrefix`, `AnalyzeAll`), the
  class `FinancialDataAnalyst` with its loop methods, and `Run`.
- `analysis_properties.dfy` (`AnalysisProperties`): what `analyze` promises,
  proved over `AnalyzeAll`.

The collaborators are parameters, not code:

- `Fetcher<V>` stands for `get_financial_data`.
- `Invoker<V>` stands for `llm.invoke`.

Each of them may fail with an `Exception`. Each takes as its first argument the
position, in `ticker_symbols`, of the symbol being processed. So a symbol listed
twice may get different data or a different reply the second time, and "no later
symbol is processed" can be stated as "the answers at later positions make no
difference". Attribute values of the market data are an arbitrary type `V`.

The specification functions the contracts below are stated over, and the code
each one describes:

- `Metrics.Projection`: the metric loop of `analyze_metrics` (financial_data_analyst/run.py:41-45).
- `Analyst.ProcessSymbol`: one turn of the loop in `analyze`, from fetching the
  data to building the `{metrics, analysis}` entry (financial_data_analyst/run.py:51-71).
- `Analyst.AnalyzePrefix` and `Analyst.AnalyzeAll`: the loop in `analyze` after its
  first `n` symbols and after all of them (financial_data_analyst/run.py:49-72).
- `Analyst.ToolInput`: the choice in `run` between a built envelope and an untyped
  dictionary to validate (financial_data_analyst/run.py:82-85).

## Model

| member | source | states |
|---|---|---|
| `Analyst.FinancialDataAnalyst.AnalyzeMetrics` | financial_data_analyst/run.py:40-45 | the loop that fills a fresh dict computes `Projection(data.info, metrics)` |
| `Metrics.ProjectionIsSelection` | financial_data_analyst/run.py:41-45 | assigning the requested metrics one by one gives the same dict as the closed form: the available requested names, each once, in first-request order, with the values of `info` |
| `Metrics.ProjectionContents` | financial_data_analyst/run.py:42-44 | the result has a key exactly when the metric was requested and `info` has it; the value is `info`'s value unchanged; each key appears once; a missing metric is skipped without error |
| `Metrics.ProjectionInRequestOrder` | financial_data_analyst/run.py:42-44 | the result's keys come in the order their metrics were first requested |
| `Metrics.ProjectionIgnoresRepeats` | financial_data_analyst/run.py:42-44 | requesting a metric several times gives the same result as requesting it once |
| `Metrics.Available` | financial_data_analyst/run.py:43 | keeps exactly the requested names that `info` has and introduces no repeats |
| `Analyst.FinancialDataAnalyst.constructor` | financial_data_analyst/run.py:18-21 | keeps the module run, takes the LLM configuration from its deployment, and sets up the chat model from it |
| `Analyst.FinancialDataAnalyst.SetupLlm` | financial_data_analyst/run.py:23-28 | the chat model gets the configured model name and temperature |
| `Analyst.FinancialDataAnalyst.Analyze` | financial_data_analyst/run.py:47-76 | the loop over the symbols returns `AnalyzeAll`: the results of all symbols in order, or the first exception and no results |
| `Analyst.FailurePersists` | financial_data_analyst/run.py:74-76 | once a symbol has raised, processing later symbols cannot change the outcome |
| `Analyst.Run` | financial_data_analyst/run.py:78-87 | a typed input is used as is; an untyped one is validated as `InputSchema`, and a validation failure is raised before any analysis; in both cases `tool_input_data` goes to `analyze`, `tool_name` is ignored, and an exception from `analyze` is passed on unchanged |
| `AnalysisProperties.AnalyzeSucceedsIff` | financial_data_analyst/run.py:49-72 | `analyze` returns results exactly when every symbol's fetch and model call succeed |
| `AnalysisProperties.AnalyzeKeys` | financial_data_analyst/run.py:49-71 | on success, the result's keys are exactly the requested symbols, each once, in the order each symbol first appears in the request |
| `AnalysisProperties.AnalyzeEntry` | financial_data_analyst/run.py:50-71 | on success, a symbol's entry comes from its last position in the request; its metrics are the extraction of the data fetched there, and its analysis is the model's reply to that position's prompt, verbatim |
| `AnalysisProperties.AnalyzeFailsAtFirstFailure` | financial_data_analyst/run.py:48-76 | when the symbol at position k is the first to raise, `analyze` raises that very exception and returns no partial results |
| `AnalysisProperties.AnalyzeStopsAtFirstFailure` | financial_data_analyst/run.py:50-67 | fail-fast: after the first failure at position k, the collaborators' answers at later positions make no difference, and neither does the model's answer at position k when the fetch there failed |
| `AnalysisProperties.EndToEnd` | financial_data_analyst/run.py:47-72 | for `AAPL` with `info = {"PE": 28.5, "other": 1.0}` (the stub's values are `real`) and a model answering "OK", the result is `{"AAPL": {"metrics": {"PE": 28.5}, "analysis": "OK"}}` |
| `AnalysisProperties.RepeatedSymbolOverwritten` | financial_data_analyst/run.py:50-71 | a symbol listed twice is processed twice, and the second processing's metrics and text replace the first's |
| `AnalysisProperties.UntypedInputGetsDefaults` | financial_data_analyst/run.py:82-83 | an untyped input holding only the symbols and the period becomes an envelope named "analyze" whose request has the default analysis type and metrics |
| `Schemas.NewDataAnalystInput` | financial_data_analyst/schemas.py:5-9 | construction succeeds exactly when the symbols (a list) and the period (a string) are given and any supplied analysis type or metric list has the right type |
| `Schemas.NewDataAnalystInputValues` | financial_data_analyst/schemas.py:5-9 | supplied fields are kept as supplied; an absent analysis type becomes "brief"; absent metrics become `["PE", "Revenue Growth", "Profit Margins"]` |
| `Schemas.RequiredFieldsMissing` | financial_data_analyst/schemas.py:6-7 | leaving out `ticker_symbols` or `time_period` fails, with a "missing" error for that field |
| `Schemas.ErrorsNameFields` | financial_data_analyst/schemas.py:5-9 | every validation error names one of the four fields |
| `Schemas.DefaultsApplied` | financial_data_analyst/schemas.py:8-9 | given only the symbols and the period, the request gets analysis type "brief" and the three default metrics |
| `Schemas.ExplicitValuesKept` | financial_data_analyst/schemas.py:5-9 | with all four fields supplied, the request holds exactly those values |
| `Schemas.UnknownKeysIgnored` | financial_data_analyst/schemas.py:5-9 | a keyword that is not a field of the record does not change the outcome |
| `Schemas.NewInputSchema` | financial_data_analyst/schemas.py:11-13 | `tool_name` defaults to "analyze"; `tool_input_data` is required; a built request is taken as is; a nested dictionary is validated, and its errors are reported under `tool_input_data` |

## Left out

- Market-data access (`get_financial_data`, financial_data_analyst/run.py:30-38) is a network call. It is the `Fetcher` parameter, which returns the info map, the statements, the calendar and the history, or an exception.
- The language model (`ChatOpenAI`, financial_data_analyst/run.py:25-28 and 67) is a networked foreign call. It is the `Invoker` parameter, from (position, chat model, prompt) to a reply or an exception. The float temperature is a `real`.
- Prompt text (financial_data_analyst/run.py:54-65): its rendering depends on pandas. `Prompt` records what the prompt embeds: the symbol, the extracted metrics, both statements and the analysis type.
- The `except` branch logs before re-raising (financial_data_analyst/run.py:75). Logging, `load_dotenv`, the module-level print and the `__main__` block are side effects or deployment setup, so they are not modelled.
- Exceptions that do not come from the two collaborators are not modelled. Examples: `to_dict()` on a statement that is not a table, or the chat client's constructor failing for lack of credentials. `FinancialDataAnalyst.constructor` and `AnalyzeMetrics` cannot fail in the model.
- Pydantic's type coercion and the wording of its errors are not modelled. A `Value` is accepted only when it already has the field's type. An error is its field path plus "missing" or "wrong type".
- The model works on values, so object identity is not modelled. `analyze_metrics` leaving `info` and `metrics` untouched, and returning a fresh dict, hold by construction.
- Errors carry no symbol or stage: the code re-raises the collaborator's exception unchanged (financial_data_analyst/run.py:74-76), and so does the model.
- An empty `ticker_symbols` is accepted: neither the record nor `analyze` checks it, and `analyze` then returns an empty result.
- Prompt size is not bounded, in the code or in the model.
