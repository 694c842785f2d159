/** What `analyze` promises about its result, stated over its specification
    `AnalyzeAll`, which the `Analyze` method is proved to compute. */
module AnalysisProperties {
  import opened Wrappers
  import opened Seqs
  import opened Dicts
  import opened Schemas
  import Metrics
  import opened Analyst

  /** The analysis succeeds exactly when every symbol's fetch and model call do. */
  lemma {:induction false} AnalyzePrefixSucceedsIff<V>(llm: ChatModel, input: DataAnalystInput, fetch: Fetcher<V>, invoke: Invoker<V>, n: nat)
    requires n <= |input.tickerSymbols|
    ensures AnalyzePrefix(llm, input, fetch, invoke, n).Success? <==>
      forall i | 0 <= i < n :: ProcessSymbol(llm, input, fetch, invoke, i).Success?
  {
    if n > 0 {
      AnalyzePrefixSucceedsIff(llm, input, fetch, invoke, n - 1);
      assert AnalyzePrefix(llm, input, fetch, invoke, n).Success? <==>
        AnalyzePrefix(llm, input, fetch, invoke, n - 1).Success? && ProcessSymbol(llm, input, fetch, invoke, n - 1).Success?;
    }
  }

  lemma AnalyzeSucceedsIff<V>(llm: ChatModel, input: DataAnalystInput, fetch: Fetcher<V>, invoke: Invoker<V>)
    ensures AnalyzeAll(llm, input, fetch, invoke).Success? <==>
      forall i | 0 <= i < |input.tickerSymbols| :: ProcessSymbol(llm, input, fetch, invoke, i).Success?
  {
    AnalyzePrefixSucceedsIff(llm, input, fetch, invoke, |input.tickerSymbols|);
  }

  lemma {:induction false} AnalyzePrefixKeys<V>(llm: ChatModel, input: DataAnalystInput, fetch: Fetcher<V>, invoke: Invoker<V>, n: nat)
    requires n <= |input.tickerSymbols|
    requires AnalyzePrefix(llm, input, fetch, invoke, n).Success?
    ensures AnalyzePrefix(llm, input, fetch, invoke, n).value.Valid()
    ensures AnalyzePrefix(llm, input, fetch, invoke, n).value.keys == Distinct(input.tickerSymbols[..n])
  {
    if n > 0 {
      AnalyzePrefixSucceeded(llm, input, fetch, invoke, n);
      AnalyzePrefixKeys(llm, input, fetch, invoke, n - 1);
      AssignDistinct(AnalyzePrefix(llm, input, fetch, invoke, n - 1).value, input.tickerSymbols, n,
                     ProcessSymbol(llm, input, fetch, invoke, n - 1).value);
    }
  }

  /** On success the result has one entry per distinct requested symbol and no
      other, listed in the order the symbols first appear in the request. */
  lemma AnalyzeKeys<V>(llm: ChatModel, input: DataAnalystInput, fetch: Fetcher<V>, invoke: Invoker<V>)
    requires AnalyzeAll(llm, input, fetch, invoke).Success?
    ensures var results := AnalyzeAll(llm, input, fetch, invoke).value;
      && results.Valid()
      && (forall s :: s in results.entries <==> s in input.tickerSymbols)
      && results.keys == Distinct(input.tickerSymbols)
      && InFirstOccurrenceOrder(results.keys, input.tickerSymbols)
  {
    var symbols := input.tickerSymbols;
    assert symbols[..|symbols|] == symbols;
    AnalyzePrefixKeys(llm, input, fetch, invoke, |symbols|);
    DistinctInFirstOccurrenceOrder(symbols);
  }

  lemma {:induction false} AnalyzePrefixEntries<V>(llm: ChatModel, input: DataAnalystInput, fetch: Fetcher<V>, invoke: Invoker<V>, n: nat)
    requires n <= |input.tickerSymbols|
    requires AnalyzePrefix(llm, input, fetch, invoke, n).Success?
    ensures var results := AnalyzePrefix(llm, input, fetch, invoke, n).value;
      forall s | s in results.entries ::
        && s in input.tickerSymbols[..n]
        && ProcessSymbol(llm, input, fetch, invoke, LastIndex(input.tickerSymbols[..n], s)) == Success(results.entries[s])
  {
    if n > 0 {
      var symbols := input.tickerSymbols[..n];
      var init := input.tickerSymbols[..n - 1];
      assert symbols[..n - 1] == init;
      AnalyzePrefixEntries(llm, input, fetch, invoke, n - 1);
      var before := AnalyzePrefix(llm, input, fetch, invoke, n - 1).value;
      var results := AnalyzePrefix(llm, input, fetch, invoke, n).value;
      var last := input.tickerSymbols[n - 1];
      assert results == Assign(before, last, ProcessSymbol(llm, input, fetch, invoke, n - 1).value);
      forall s | s in results.entries
        ensures s in symbols
        ensures ProcessSymbol(llm, input, fetch, invoke, LastIndex(symbols, s)) == Success(results.entries[s])
      {
        if s != last {
          assert s in before.entries;
          assert LastIndex(symbols, s) == LastIndex(init, s);
          assert s in init;
        }
      }
    }
  }

  /** On success, the entry of a symbol comes from the LAST position at which
      it was requested (a repeated symbol is overwritten by its later
      processing): its metrics are the extraction of the data fetched there,
      and its analysis is the model's reply to that position's prompt,
      word for word. */
  lemma AnalyzeEntry<V>(llm: ChatModel, input: DataAnalystInput, fetch: Fetcher<V>, invoke: Invoker<V>, s: string)
    requires AnalyzeAll(llm, input, fetch, invoke).Success?
    requires s in input.tickerSymbols
    ensures var results := AnalyzeAll(llm, input, fetch, invoke).value;
      var j := LastIndex(input.tickerSymbols, s);
      && s in results.entries
      && fetch(j, s, input.timePeriod).Success?
      && var data := fetch(j, s, input.timePeriod).value;
      && results.entries[s].metrics == Metrics.Projection(data.info, input.specificMetrics)
      && invoke(j, llm, Prompt(s, results.entries[s].metrics, data.incomeStmt, data.balanceSheet, input.analysisType))
         == Success(ChatResponse(results.entries[s].analysis))
  {
    var symbols := input.tickerSymbols;
    assert symbols[..|symbols|] == symbols;
    AnalyzeKeys(llm, input, fetch, invoke);
    AnalyzePrefixEntries(llm, input, fetch, invoke, |symbols|);
  }

  lemma {:induction false} AnalyzePrefixFailsAt<V>(llm: ChatModel, input: DataAnalystInput, fetch: Fetcher<V>, invoke: Invoker<V>, k: nat, n: nat)
    requires k < n <= |input.tickerSymbols|
    requires ProcessSymbol(llm, input, fetch, invoke, k).Failure?
    requires forall i | 0 <= i < k :: ProcessSymbol(llm, input, fetch, invoke, i).Success?
    ensures AnalyzePrefix(llm, input, fetch, invoke, n) == Failure(ProcessSymbol(llm, input, fetch, invoke, k).error)
  {
    if n - 1 == k {
      AnalyzePrefixSucceedsIff(llm, input, fetch, invoke, k);
    } else {
      AnalyzePrefixFailsAt(llm, input, fetch, invoke, k, n - 1);
    }
  }

  /** When the symbol at position `k` is the first to raise, `analyze` raises
      that very exception and returns no results. */
  lemma AnalyzeFailsAtFirstFailure<V>(llm: ChatModel, input: DataAnalystInput, fetch: Fetcher<V>, invoke: Invoker<V>, k: nat)
    requires k < |input.tickerSymbols|
    requires ProcessSymbol(llm, input, fetch, invoke, k).Failure?
    requires forall i | 0 <= i < k :: ProcessSymbol(llm, input, fetch, invoke, i).Success?
    ensures AnalyzeAll(llm, input, fetch, invoke) == Failure(ProcessSymbol(llm, input, fetch, invoke, k).error)
  {
    AnalyzePrefixFailsAt(llm, input, fetch, invoke, k, |input.tickerSymbols|);
  }

  /** Fail-fast: when the symbol at position `k` is the first to raise, what the
      collaborators would answer at later positions, or the model at position
      `k` after a failed fetch there, makes no difference: those calls are
      never made. */
  lemma AnalyzeStopsAtFirstFailure<V>(llm: ChatModel, input: DataAnalystInput,
                                      fetch: Fetcher<V>, invoke: Invoker<V>,
                                      fetch': Fetcher<V>, invoke': Invoker<V>, k: nat)
    requires k < |input.tickerSymbols|
    requires ProcessSymbol(llm, input, fetch, invoke, k).Failure?
    requires forall i | 0 <= i < k :: ProcessSymbol(llm, input, fetch, invoke, i).Success?
    requires forall i, s, p | 0 <= i <= k :: fetch'(i, s, p) == fetch(i, s, p)
    requires forall i, m, pr | 0 <= i < k :: invoke'(i, m, pr) == invoke(i, m, pr)
    requires fetch(k, input.tickerSymbols[k], input.timePeriod).Success? ==>
      forall m, pr :: invoke'(k, m, pr) == invoke(k, m, pr)
    ensures AnalyzeAll(llm, input, fetch', invoke') == AnalyzeAll(llm, input, fetch, invoke)
    ensures AnalyzeAll(llm, input, fetch', invoke').Failure?
  {
    forall i | 0 <= i <= k
      ensures ProcessSymbol(llm, input, fetch', invoke', i) == ProcessSymbol(llm, input, fetch, invoke, i)
    {
      var symbol := input.tickerSymbols[i];
      var data := fetch(i, symbol, input.timePeriod);
      assert fetch'(i, symbol, input.timePeriod) == data;
      if data.Success? {
        var prompt := PromptFor(input, i, data.value, Metrics.Projection(data.value.info, input.specificMetrics));
        assert invoke'(i, llm, prompt) == invoke(i, llm, prompt);
      }
    }
    AnalyzeFailsAtFirstFailure(llm, input, fetch, invoke, k);
    AnalyzeFailsAtFirstFailure(llm, input, fetch', invoke', k);
  }

  /** A market-data stub whose `info` has a P/E of 28.5 and one other attribute. */
  function StubFetch(i: nat, symbol: string, period: string): Result<FinancialData<real>, Exception> {
    Success(FinancialData(map["PE" := 28.5, "other" := 1.0], map[], map[], map[], map[]))
  }

  /** A model stub that always answers "OK". */
  function StubInvoke(i: nat, llm: ChatModel, prompt: Prompt<real>): Result<ChatResponse, Exception> {
    Success(ChatResponse("OK"))
  }

  /** End to end: one symbol, one requested metric; the attribute that was not
      requested is left out and the model's text is stored as it came. */
  lemma EndToEnd(llm: ChatModel)
    ensures AnalyzeAll(llm, DataAnalystInput(["AAPL"], "1y", "comprehensive", ["PE"]), StubFetch, StubInvoke)
      == Success(Dict(["AAPL"], map["AAPL" := SymbolResult(Dict(["PE"], map["PE" := 28.5]), "OK")]))
  {
    var info := map["PE" := 28.5, "other" := 1.0];
    var input := DataAnalystInput(["AAPL"], "1y", "comprehensive", ["PE"]);
    assert ["PE"][..0] == [];
    var metrics := Dict(["PE"], map["PE" := 28.5]);
    assert Metrics.Projection(info, ["PE"]) == Assign(Empty(), "PE", 28.5);
    assert map[]["PE" := 28.5] == map["PE" := 28.5];
    assert Metrics.Projection(info, ["PE"]) == metrics;
    var entry := SymbolResult(metrics, "OK");
    assert ProcessSymbol(llm, input, StubFetch, StubInvoke, 0) == Success(entry);
    assert AnalyzePrefix(llm, input, StubFetch, StubInvoke, 0) == Success(Empty());
    assert Assign(Empty(), "AAPL", entry) == Dict(["AAPL"], map["AAPL" := entry]);
  }

  /** A stub whose answers depend on the position of the call. */
  function PositionalFetch(i: nat, symbol: string, period: string): Result<FinancialData<real>, Exception> {
    Success(FinancialData(map["PE" := i as real], map[], map[], map[], map[]))
  }

  function PositionalInvoke(i: nat, llm: ChatModel, prompt: Prompt<real>): Result<ChatResponse, Exception> {
    Success(ChatResponse(if i == 0 then "first" else "second"))
  }

  /** A symbol requested twice is processed twice, and its second processing
      overwrites the first. */
  lemma RepeatedSymbolOverwritten(llm: ChatModel)
    ensures AnalyzeAll(llm, DataAnalystInput(["AAPL", "AAPL"], "1y", "brief", ["PE"]), PositionalFetch, PositionalInvoke)
      == Success(Dict(["AAPL"], map["AAPL" := SymbolResult(Dict(["PE"], map["PE" := 1.0]), "second")]))
  {
    var input := DataAnalystInput(["AAPL", "AAPL"], "1y", "brief", ["PE"]);
    assert ["PE"][..0] == [];
    var first := SymbolResult(Dict(["PE"], map["PE" := 0.0]), "first");
    var second := SymbolResult(Dict(["PE"], map["PE" := 1.0]), "second");
    assert Metrics.Projection(map["PE" := 0.0], ["PE"]) == first.metrics;
    assert Metrics.Projection(map["PE" := 1.0], ["PE"]) == second.metrics;
    assert ProcessSymbol(llm, input, PositionalFetch, PositionalInvoke, 0) == Success(first);
    assert ProcessSymbol(llm, input, PositionalFetch, PositionalInvoke, 1) == Success(second);
    assert AnalyzePrefix(llm, input, PositionalFetch, PositionalInvoke, 0) == Success(Empty());
    assert Assign(Empty(), "AAPL", first) == Dict(["AAPL"], map["AAPL" := first]);
    assert AnalyzePrefix(llm, input, PositionalFetch, PositionalInvoke, 1) == Success(Dict(["AAPL"], map["AAPL" := first]));
    assert map["AAPL" := first]["AAPL" := second] == map["AAPL" := second];
  }

  /** An untyped run input is funnelled through the envelope, which validates
      the nested request and fills in the defaults. */
  lemma UntypedInputGetsDefaults(tickers: seq<string>, period: string)
    ensures ToolInput(Untyped(map["tool_input_data" := Record(map["ticker_symbols" := StrList(tickers), "time_period" := Str(period)])]))
      == Success(InputSchema("analyze", DataAnalystInput(tickers, period, "brief", ["PE", "Revenue Growth", "Profit Margins"])))
  {
  }
}
