/** `FinancialAnalyzer`: four market-data requests per symbol with their
    "unexpected shape gives an empty default" handling, the per-symbol
    aggregate, the watchlist loop that skips failed symbols, and the text
    summary. */
module Analyzer {
  import opened Outcomes
  import opened JsonValues
  import opened Text
  import opened Subsequences
  import opened Host

  /** The four market-data requests of one symbol. */
  datatype Endpoint = GlobalQuote | EarningCalendar | AnalystRecommendations | StockNews

  /** One request issued for one symbol. */
  datatype Call = Call(endpoint: Endpoint, symbol: string)

  /** The network: `requests.get(...).json()` for one request, or the
      exception the HTTP client or the JSON decoder raised. */
  datatype Market = Market(fetch: (Endpoint, string) -> Result<Json>)

  /** The dictionary `analyze_stock` builds for one symbol. */
  datatype Analysis = Analysis(
    symbol: string,
    timestamp: string,
    priceData: map<string, Json>,
    earnings: Option<map<string, Json>>,
    analystRecs: seq<Json>,
    news: Json)

  // ---------------------------------------------------------------------
  // Shape handling after each response

  /** `get_stock_price`: the response if it is a dictionary, else `{}`. */
  function PriceData(resp: Json): (d: map<string, Json>)
    ensures resp.Obj? ==> d == resp.fields
    ensures !resp.Obj? ==> d == map[]
  {
    if resp.Obj? then resp.fields else map[]
  }

  /** `get_analyst_recommendations`: the response if it is a list, else `[]`. */
  function Recommendations(resp: Json): (recs: seq<Json>)
    ensures resp.Arr? ==> recs == resp.items
    ensures !resp.Arr? ==> recs == []
  {
    if resp.Arr? then resp.items else []
  }

  /** `get_stock_news`: `data.get('data', [])` if the response is a
      dictionary, else `[]`. The value under `data` is kept whatever its type. */
  function NewsData(resp: Json): (news: Json)
    ensures resp.Obj? && "data" in resp.fields ==> news == resp.fields["data"]
    ensures !(resp.Obj? && "data" in resp.fields) ==> news == EmptyArr
  {
    if resp.Obj? then Get(resp.fields, "data", EmptyArr) else EmptyArr
  }

  /** A calendar entry for `symbol`: `item.get('symbol') == symbol`. */
  predicate IsEntryFor(item: Json, symbol: string) {
    item.Obj? && Get(item.fields, "symbol", Null) == Str(symbol)
  }

  /** The list comprehension of `get_earnings_calendar` followed by
      `earnings[0] if earnings else None`: every item is asked for its
      `symbol`, so an item that is not a dictionary raises; otherwise the
      first entry for `symbol`, or `None`. */
  function EarningsEntry(items: seq<Json>, symbol: string): (r: Result<Option<map<string, Json>>>)
    ensures r.Raised? <==> exists i :: 0 <= i < |items| && !items[i].Obj?
    ensures r.Ok? && r.value.None? ==> forall i :: 0 <= i < |items| ==> !IsEntryFor(items[i], symbol)
    ensures r.Ok? && r.value.Some? ==>
              exists i :: 0 <= i < |items| && items[i] == Obj(r.value.value) && IsEntryFor(items[i], symbol)
                && forall j :: 0 <= j < i ==> !IsEntryFor(items[j], symbol)
  {
    if |items| == 0 then Ok(None)
    else if !items[0].Obj? then Raised(AttributeError("get"))
    else
      match EarningsEntry(items[1..], symbol)
      case Raised(e) => Raised(e)
      case Ok(later) =>
        assert forall i :: 1 <= i < |items| ==> items[i] == items[1..][i - 1];
        Ok(if IsEntryFor(items[0], symbol) then Some(items[0].fields) else later)
  }

  /** `get_earnings_calendar` after the response: `None` unless it is a list. */
  function EarningsFor(resp: Json, symbol: string): (r: Result<Option<map<string, Json>>>)
    ensures !resp.Arr? ==> r == Ok(None)
    ensures resp.Arr? ==> r == EarningsEntry(resp.items, symbol)
  {
    if resp.Arr? then EarningsEntry(resp.items, symbol) else Ok(None)
  }

  // ---------------------------------------------------------------------
  // One symbol and the watchlist

  /** What analysing one symbol produced, with the requests it issued. */
  datatype Attempt = Attempt(result: Result<Analysis>, calls: seq<Call>)

  /** The requests of one symbol, in the order the dictionary literal of
      `analyze_stock` evaluates them. */
  function StockCalls(symbol: string): seq<Call> {
    [Call(GlobalQuote, symbol), Call(EarningCalendar, symbol),
     Call(AnalystRecommendations, symbol), Call(StockNews, symbol)]
  }

  /** `analyze_stock(symbol)` with `timestamp` the ISO text of now. The first
      exception stops the remaining requests. */
  function AnalyzeStock(symbol: string, market: Market, timestamp: string): (a: Attempt)
    ensures 1 <= |a.calls| <= 4 && a.calls == StockCalls(symbol)[..|a.calls|]
    ensures a.result.Ok? <==>
              && market.fetch(GlobalQuote, symbol).Ok?
              && market.fetch(EarningCalendar, symbol).Ok?
              && EarningsFor(market.fetch(EarningCalendar, symbol).value, symbol).Ok?
              && market.fetch(AnalystRecommendations, symbol).Ok?
              && market.fetch(StockNews, symbol).Ok?
    ensures a.result.Ok? ==>
              var r := a.result.value;
              var recs := Recommendations(market.fetch(AnalystRecommendations, symbol).value);
              && |a.calls| == 4
              && r.symbol == symbol && r.timestamp == timestamp
              && r.priceData == PriceData(market.fetch(GlobalQuote, symbol).value)
              && r.earnings == EarningsFor(market.fetch(EarningCalendar, symbol).value, symbol).value
              && r.analystRecs <= recs
              && |r.analystRecs| == (if |recs| < 3 then |recs| else 3)
              && r.news == NewsData(market.fetch(StockNews, symbol).value)
  {
    var calls := StockCalls(symbol);
    var quote := market.fetch(GlobalQuote, symbol);
    if quote.Raised? then Attempt(Raised(quote.exc), calls[..1])
    else
      var calendar := market.fetch(EarningCalendar, symbol);
      if calendar.Raised? then Attempt(Raised(calendar.exc), calls[..2])
      else
        var earnings := EarningsFor(calendar.value, symbol);
        if earnings.Raised? then Attempt(Raised(earnings.exc), calls[..2])
        else
          var ratings := market.fetch(AnalystRecommendations, symbol);
          if ratings.Raised? then Attempt(Raised(ratings.exc), calls[..3])
          else
            var news := market.fetch(StockNews, symbol);
            if news.Raised? then Attempt(Raised(news.exc), calls)
            else
              var recs := Recommendations(ratings.value);
              var latest := recs[..if |recs| < 3 then |recs| else 3];
              Attempt(Ok(Analysis(symbol, timestamp, PriceData(quote.value), earnings.value,
                                  latest, NewsData(news.value))), calls)
  }

  /** A raising request or earnings lookup ends the analysis of a symbol:
      no later request is sent, and its exception is the result. */
  lemma AnalyzeStockStopsAtFirstFailure(symbol: string, market: Market, timestamp: string)
    ensures var a, quote := AnalyzeStock(symbol, market, timestamp), market.fetch(GlobalQuote, symbol);
      quote.Raised? ==> |a.calls| == 1 && a.result == Raised(quote.exc)
    ensures var a, calendar := AnalyzeStock(symbol, market, timestamp), market.fetch(EarningCalendar, symbol);
      market.fetch(GlobalQuote, symbol).Ok? && calendar.Raised? ==>
        |a.calls| == 2 && a.result == Raised(calendar.exc)
    ensures var a, calendar := AnalyzeStock(symbol, market, timestamp), market.fetch(EarningCalendar, symbol);
      market.fetch(GlobalQuote, symbol).Ok? && calendar.Ok? && EarningsFor(calendar.value, symbol).Raised? ==>
        |a.calls| == 2 && a.result == Raised(EarningsFor(calendar.value, symbol).exc)
    ensures var a, ratings := AnalyzeStock(symbol, market, timestamp), market.fetch(AnalystRecommendations, symbol);
      && market.fetch(GlobalQuote, symbol).Ok? && market.fetch(EarningCalendar, symbol).Ok?
      && EarningsFor(market.fetch(EarningCalendar, symbol).value, symbol).Ok? && ratings.Raised? ==>
        |a.calls| == 3 && a.result == Raised(ratings.exc)
    ensures var a, news := AnalyzeStock(symbol, market, timestamp), market.fetch(StockNews, symbol);
      && market.fetch(GlobalQuote, symbol).Ok? && market.fetch(EarningCalendar, symbol).Ok?
      && EarningsFor(market.fetch(EarningCalendar, symbol).value, symbol).Ok?
      && market.fetch(AnalystRecommendations, symbol).Ok? && news.Raised? ==>
        |a.calls| == 4 && a.result == Raised(news.exc)
  {
  }

  /** The analysis of a symbol as an optional value, for selection. */
  function Analyzed(market: Market, timestamp: string): string -> Option<Analysis> {
    s => var a := AnalyzeStock(s, market, timestamp);
         if a.result.Ok? then Some(a.result.value) else None
  }

  /** All requests issued for `stocks`, symbol after symbol. */
  function WatchlistCalls(stocks: seq<string>, market: Market, timestamp: string): seq<Call> {
    if |stocks| == 0 then []
    else WatchlistCalls(stocks[..|stocks| - 1], market, timestamp)
         + AnalyzeStock(stocks[|stocks| - 1], market, timestamp).calls
  }

  /** `analyze_watchlist`: analyse every symbol in order and keep the
      analyses of those that did not raise. */
  method AnalyzeWatchlist(stocks: seq<string>, market: Market, timestamp: string)
    returns (results: seq<Analysis>, calls: seq<Call>)
    ensures results == KeepMap(stocks, Analyzed(market, timestamp))
    ensures calls == WatchlistCalls(stocks, market, timestamp)
  {
    results := [];
    calls := [];
    var i := 0;
    while i < |stocks|
      invariant 0 <= i <= |stocks|
      invariant results == KeepMap(stocks[..i], Analyzed(market, timestamp))
      invariant calls == WatchlistCalls(stocks[..i], market, timestamp)
    {
      var attempt := AnalyzeStock(stocks[i], market, timestamp);
      assert stocks[..i + 1][..i] == stocks[..i];
      calls := calls + attempt.calls;
      if attempt.result.Ok? {
        results := results + [attempt.result.value];
      }
      i := i + 1;
    }
    assert stocks[..|stocks|] == stocks;
  }

  /** The aggregate keeps, in watchlist order, exactly the analyses of the
      symbols that did not raise; each is that symbol's analysis. */
  lemma {:induction false} WatchlistKeepsSucceeded(stocks: seq<string>, market: Market, timestamp: string)
    ensures var results := KeepMap(stocks, Analyzed(market, timestamp));
      var idx := KeptIndices(stocks, Analyzed(market, timestamp));
      && |results| <= |stocks|
      && |idx| == |results|
      && (forall k, l :: 0 <= k < l < |idx| ==> idx[k] < idx[l])
      && (forall k :: 0 <= k < |idx| ==>
            (0 <= idx[k] < |stocks|
             && AnalyzeStock(stocks[idx[k]], market, timestamp).result == Ok(results[k])
             && results[k].symbol == stocks[idx[k]]))
      && (forall i :: 0 <= i < |stocks| ==>
            (AnalyzeStock(stocks[i], market, timestamp).result.Ok? <==> i in idx))
  {
    KeepMapSelects(stocks, Analyzed(market, timestamp));
  }

  /** The quote request of each call sequence, as the symbol it was for. */
  function QuoteSymbol(c: Call): Option<string> {
    if c.endpoint == GlobalQuote then Some(c.symbol) else None
  }

  /** A failing symbol never stops the loop: the quote requests issued are
      one per watchlist symbol, in watchlist order. */
  lemma {:induction false} WatchlistTriesEverySymbol(stocks: seq<string>, market: Market, timestamp: string)
    ensures KeepMap(WatchlistCalls(stocks, market, timestamp), QuoteSymbol) == stocks
  {
    if |stocks| > 0 {
      var init := stocks[..|stocks| - 1];
      var last := stocks[|stocks| - 1];
      var calls := AnalyzeStock(last, market, timestamp).calls;
      WatchlistTriesEverySymbol(init, market, timestamp);
      KeepMapAppend(WatchlistCalls(init, market, timestamp), calls, QuoteSymbol);
      AttemptQuotesOnce(last, market, timestamp);
      assert stocks == init + [last];
    }
  }

  /** Whatever fails, analysing a symbol issues its quote request exactly once. */
  lemma AttemptQuotesOnce(symbol: string, market: Market, timestamp: string)
    ensures KeepMap(AnalyzeStock(symbol, market, timestamp).calls, QuoteSymbol) == [symbol]
  {
    StockCallsQuoteOnce(symbol, |AnalyzeStock(symbol, market, timestamp).calls|);
  }

  /** Any non-empty prefix of one symbol's requests holds its quote request once. */
  lemma StockCallsQuoteOnce(symbol: string, n: nat)
    requires 1 <= n <= 4
    ensures KeepMap(StockCalls(symbol)[..n], QuoteSymbol) == [symbol]
  {
    var calls := StockCalls(symbol);
    assert calls[..1][..0] == [];
    assert KeepMap(calls[..1], QuoteSymbol) == [symbol];
    assert calls[..2][..1] == calls[..1];
    assert KeepMap(calls[..2], QuoteSymbol) == [symbol];
    assert calls[..3][..2] == calls[..2];
    assert KeepMap(calls[..3], QuoteSymbol) == [symbol];
    assert calls[..4][..3] == calls[..3];
    assert KeepMap(calls[..4], QuoteSymbol) == [symbol];
  }

  // ---------------------------------------------------------------------
  // The text summary

  /** The keywords that make a news title worth a summary line. */
  const SummaryKeywords: seq<string> := ["earnings", "upgrade", "downgrade"]

  /** `item.get('title', '')`, checked to support `.lower()`: an item that
      is not a dictionary, or a title that is not a string, raises. */
  function TitleOf(item: Json): (r: Result<string>)
    ensures r.Ok? <==> item.Obj? && Get(item.fields, "title", Str("")).Str?
    ensures r.Ok? ==> r.value == Get(item.fields, "title", Str("")).s
  {
    if !item.Obj? then Raised(AttributeError("get"))
    else
      var title := Get(item.fields, "title", Str(""));
      if title.Str? then Ok(title.s) else Raised(AttributeError("lower"))
  }

  /** The summary's list comprehension over all news items, then its first
      element: every item's title is read, and the first title that mentions
      a summary keyword is chosen. */
  function HeadlineIn(items: seq<Json>): (r: Result<Option<string>>)
    ensures r.Raised? <==> exists i :: 0 <= i < |items| && TitleOf(items[i]).Raised?
    ensures r.Ok? && r.value.None? ==>
              forall i :: 0 <= i < |items| ==> !MentionsAny(TitleOf(items[i]).value, SummaryKeywords)
    ensures r.Ok? && r.value.Some? ==>
              exists i :: 0 <= i < |items| && TitleOf(items[i]) == Ok(r.value.value)
                && MentionsAny(r.value.value, SummaryKeywords)
                && forall j :: 0 <= j < i ==> !MentionsAny(TitleOf(items[j]).value, SummaryKeywords)
  {
    if |items| == 0 then Ok(None)
    else
      match TitleOf(items[0])
      case Raised(e) => Raised(e)
      case Ok(title) =>
        assert forall i :: 1 <= i < |items| ==> items[i] == items[1..][i - 1];
        match HeadlineIn(items[1..])
        case Raised(e) => Raised(e)
        case Ok(later) => Ok(if MentionsAny(title, SummaryKeywords) then Some(title) else later)
  }

  /** The headline of an analysis' `news` value. Iterating a non-empty
      string or dictionary yields strings, which have no `get`; numbers,
      booleans and `None` cannot be iterated. */
  function Headline(news: Json): (r: Result<Option<string>>)
    ensures news.Arr? ==> r == HeadlineIn(news.items)
    ensures !news.Arr? ==> (r.Ok? <==> (news.Str? || news.Obj?) && !Truthy(news))
    ensures r.Ok? && !news.Arr? ==> r.value.None?
  {
    match news
    case Arr(items) => HeadlineIn(items)
    case Str(s) => if |s| == 0 then Ok(None) else Raised(AttributeError("get"))
    case Obj(fields) => if |fields| == 0 then Ok(None) else Raised(AttributeError("get"))
    case _ => Raised(TypeError("iter"))
  }

  /** What one block of the summary shows. */
  datatype BlockParts = BlockParts(
    quote: Option<(string, string)>,
    earningsDate: Option<string>,
    latest: Option<(string, string)>,
    headline: Option<string>)

  /** `analysis.get('price_data', {}).get('Global Quote', {})`. */
  function GlobalQuoteOf(a: Analysis): Json {
    Get(a.priceData, "Global Quote", EmptyObj)
  }

  /** The values one summary block shows, or the exception computing them raises. */
  function BlockOf(a: Analysis, rt: Runtime): (r: Result<BlockParts>)
    ensures r.Raised? <==>
              || (Truthy(GlobalQuoteOf(a)) && !GlobalQuoteOf(a).Obj?)
              || (|a.analystRecs| > 0 && !a.analystRecs[0].Obj?)
              || Headline(a.news).Raised?
    ensures r.Ok? ==> (r.value.quote.Some? <==> Truthy(GlobalQuoteOf(a)))
    ensures r.Ok? && r.value.quote.Some? ==>
              var q := GlobalQuoteOf(a).fields;
              r.value.quote.value == (Show(rt, Get(q, "05. price", Str("N/A"))),
                                      Show(rt, Get(q, "10. change percent", Str("N/A"))))
    ensures r.Ok? ==> (r.value.earningsDate.Some? <==> a.earnings.Some? && |a.earnings.value| > 0)
    ensures r.Ok? && r.value.earningsDate.Some? ==>
              r.value.earningsDate.value == Show(rt, Get(a.earnings.value, "date", Str("N/A")))
    ensures r.Ok? ==> (r.value.latest.Some? <==> |a.analystRecs| > 0)
    ensures r.Ok? && r.value.latest.Some? ==>
              var rec := a.analystRecs[0].fields;
              r.value.latest.value == (Show(rt, Get(rec, "newGrade", Str("N/A"))),
                                       Show(rt, Get(rec, "analystCompany", Str("Unknown"))))
    ensures r.Ok? ==> r.value.headline == Headline(a.news).value
  {
    var gq := GlobalQuoteOf(a);
    if Truthy(gq) && !gq.Obj? then Raised(AttributeError("get"))
    else
      var quote :=
        if Truthy(gq) then
          Some((Show(rt, Get(gq.fields, "05. price", Str("N/A"))),
                Show(rt, Get(gq.fields, "10. change percent", Str("N/A")))))
        else None;
      var earningsDate :=
        if a.earnings.Some? && |a.earnings.value| > 0 then
          Some(Show(rt, Get(a.earnings.value, "date", Str("N/A"))))
        else None;
      if |a.analystRecs| > 0 && !a.analystRecs[0].Obj? then Raised(AttributeError("get"))
      else
        var latest :=
          if |a.analystRecs| > 0 then
            var rec := a.analystRecs[0].fields;
            Some((Show(rt, Get(rec, "newGrade", Str("N/A"))),
                  Show(rt, Get(rec, "analystCompany", Str("Unknown")))))
          else None;
        match Headline(a.news)
        case Raised(e) => Raised(e)
        case Ok(headline) => Ok(BlockParts(quote, earningsDate, latest, headline))
  }

  /** The first line of a block. */
  function SymbolLine(symbol: string): string {
    "\U{1F539} *" + symbol + "*\n"
  }

  /** The news line: the title cut to its first 50 characters, and "..."
      appended whether or not anything was cut. */
  function NewsLine(title: string): (line: string)
    ensures var lead := "   \U{1F4F0} News: ";
      && |line| == |lead| + (if |title| < 50 then |title| else 50) + 4
      && lead <= line && line[|line| - 4..] == "...\n"
      && line[|lead|..|line| - 4] <= title
  {
    "   \U{1F4F0} News: " + Take(title, 50) + "...\n"
  }

  predicate EndsWithNewline(s: string) {
    |s| > 0 && s[|s| - 1] == '\n'
  }

  /** An optional line: empty, or text ending with a newline. */
  predicate OptionalLine(s: string) {
    s == "" || EndsWithNewline(s)
  }

  function QuoteLine(p: BlockParts): (line: string)
    ensures OptionalLine(line)
  {
    if p.quote.Some? then "   Price: $" + p.quote.value.0 + " (" + p.quote.value.1 + ")\n" else ""
  }

  function EarningsLine(p: BlockParts): (line: string)
    ensures OptionalLine(line)
  {
    if p.earningsDate.Some? then "   \U{1F4C5} Earnings: " + p.earningsDate.value + "\n" else ""
  }

  function LatestLine(p: BlockParts): (line: string)
    ensures OptionalLine(line)
  {
    if p.latest.Some? then "   \U{1F4C8} Latest: " + p.latest.value.0 + " by " + p.latest.value.1 + "\n" else ""
  }

  function HeadlineLine(p: BlockParts): (line: string)
    ensures OptionalLine(line)
  {
    if p.headline.Some? then NewsLine(p.headline.value) else ""
  }

  /** The text of one block, ending with an empty line. */
  function Render(symbol: string, p: BlockParts): string {
    SymbolLine(symbol) + QuoteLine(p) + EarningsLine(p) + LatestLine(p) + HeadlineLine(p) + "\n"
  }

  /** Every block opens with the symbol line and closes with a blank line. */
  lemma {:induction false} RenderFrame(symbol: string, p: BlockParts)
    ensures SymbolLine(symbol) <= Render(symbol, p)
    ensures var b := Render(symbol, p); |b| >= 2 && b[|b| - 2..] == "\n\n"
  {
  }

  /** The blocks of all analyses, in order; the first block that raises
      stops the summary. */
  function Blocks(analyses: seq<Analysis>, rt: Runtime): (r: Result<string>)
    ensures r.Raised? <==> exists i :: 0 <= i < |analyses| && BlockOf(analyses[i], rt).Raised?
    ensures r.Raised? ==>
              exists i :: 0 <= i < |analyses| && BlockOf(analyses[i], rt) == Raised(r.exc)
                && forall j :: 0 <= j < i ==> BlockOf(analyses[j], rt).Ok?
    ensures r.Ok? && |analyses| > 0 ==>
              Render(analyses[0].symbol, BlockOf(analyses[0], rt).value) <= r.value
  {
    if |analyses| == 0 then Ok("")
    else
      match BlockOf(analyses[0], rt)
      case Raised(e) => Raised(e)
      case Ok(parts) =>
        assert forall i :: 1 <= i < |analyses| ==> analyses[i] == analyses[1..][i - 1];
        match Blocks(analyses[1..], rt)
        case Raised(e) => Raised(e)
        case Ok(rest) => Ok(Render(analyses[0].symbol, parts) + rest)
  }

  /** The text of one analysis' block, or nothing if computing it raises. */
  function BlockText(a: Analysis, rt: Runtime): string {
    match BlockOf(a, rt)
    case Ok(parts) => Render(a.symbol, parts)
    case Raised(_) => ""
  }

  /** The block texts of all analyses, one per analysis. */
  function BlockTexts(analyses: seq<Analysis>, rt: Runtime): (texts: seq<string>)
    ensures |texts| == |analyses|
    ensures forall i :: 0 <= i < |analyses| ==> texts[i] == BlockText(analyses[i], rt)
  {
    seq(|analyses|, i requires 0 <= i < |analyses| => BlockText(analyses[i], rt))
  }

  /** A successful summary body is exactly one rendered block per analysis,
      in input order. */
  lemma {:induction false} BlocksOnePerAnalysis(analyses: seq<Analysis>, rt: Runtime)
    requires Blocks(analyses, rt).Ok?
    ensures Blocks(analyses, rt).value == Join(BlockTexts(analyses, rt), "")
  {
    if |analyses| > 0 {
      var rest := analyses[1..];
      BlocksOnePerAnalysis(rest, rt);
      var texts := BlockTexts(analyses, rt);
      assert texts[1..] == BlockTexts(rest, rt);
      if |rest| == 0 {
        assert Blocks(rest, rt).value == "";
      } else {
        assert Join(texts, "") == texts[0] + "" + Join(texts[1..], "");
      }
    }
  }

  /** The first line of the summary. */
  function SummaryHeader(date: string): string {
    "\U{1F4CA} Daily Stock Analysis - " + date + "\n\n"
  }

  /** `generate_summary(analyses)` on the day with ordinal `today`: the dated
      header, then one block per analysis in input order. */
  function GenerateSummary(analyses: seq<Analysis>, rt: Runtime, today: int): (r: Result<string>)
    ensures r.Ok? ==> r.value == SummaryHeader(rt.dateText(today)) + Join(BlockTexts(analyses, rt), "")
    ensures r.Raised? <==> exists i :: 0 <= i < |analyses| && BlockOf(analyses[i], rt).Raised?
    ensures r.Raised? ==>
              exists i :: 0 <= i < |analyses| && BlockOf(analyses[i], rt) == Raised(r.exc)
                && forall j :: 0 <= j < i ==> BlockOf(analyses[j], rt).Ok?
  {
    match Blocks(analyses, rt)
    case Raised(e) => Raised(e)
    case Ok(blocks) =>
      BlocksOnePerAnalysis(analyses, rt);
      Ok(SummaryHeader(rt.dateText(today)) + blocks)
  }

  /** A summary opens with its dated header, followed directly by the
      first analysis' symbol line. */
  lemma SummaryFrame(analyses: seq<Analysis>, rt: Runtime, today: int, summary: string)
    requires GenerateSummary(analyses, rt, today) == Ok(summary)
    ensures SummaryHeader(rt.dateText(today)) <= summary
    ensures |analyses| > 0 ==> SummaryHeader(rt.dateText(today)) + SymbolLine(analyses[0].symbol) <= summary
  {
  }

  /** A summary line for news needs one of three keywords, all of which
      the importance filter also looks for: a title the summary shows
      always mentions an importance keyword. */
  lemma SummaryKeywordsAreImportant(title: string, important: seq<string>)
    requires forall k :: k in SummaryKeywords ==> k in important
    requires MentionsAny(title, SummaryKeywords)
    ensures MentionsAny(title, important)
  {
    var i :| 0 <= i < |SummaryKeywords| && Contains(Lower(title), SummaryKeywords[i]);
    assert SummaryKeywords[i] in important;
    var j :| 0 <= j < |important| && important[j] == SummaryKeywords[i];
  }
}
