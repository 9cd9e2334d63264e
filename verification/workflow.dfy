/** `StockAnalysisWorkflow` of `main_workflow.py`: loading the watchlist,
    the weekday gate, aggregation, filtering, the choice of message, the
    notification and the error path. */
module Workflow {
  import opened Outcomes
  import opened JsonValues
  import opened Text
  import opened Subsequences
  import opened Calendar
  import opened Host
  import opened Analyzer
  import opened Importance

  // ---------------------------------------------------------------------
  // The watchlist

  /** The symbols watched when no configuration exists. */
  const DefaultWatchlist: seq<string> := ["AAPL", "MSFT", "GOOGL", "AMZN", "TSLA"]

  /** `config/watchlist.json`: missing, or what `json.load` made of it. */
  datatype ConfigFile = NoConfigFile | ConfigFile(parsed: Result<Json>)

  /** The environment branch: one symbol per comma-separated piece, in
      order, stripped and upper-cased. */
  function ParseWatchlist(env: string): (symbols: seq<string>)
    ensures |symbols| == Count(env, ',') + 1
    ensures forall i :: 0 <= i < |symbols| ==> symbols[i] == Upper(Strip(Split(env, ',')[i]))
  {
    var pieces := Split(env, ',');
    seq(|pieces|, i requires 0 <= i < |pieces| => Upper(Strip(pieces[i])))
  }

  /** `config.get('stocks', [])` for a list of symbols. */
  function ConfigStocks(config: Json): (r: Result<seq<string>>)
    ensures r.Ok? ==> config.Obj?
    ensures config.Obj? && "stocks" !in config.fields ==> r == Ok([])
    ensures config.Obj? && "stocks" in config.fields && config.fields["stocks"].Arr? ==>
              var items := config.fields["stocks"].items;
              (r.Ok? <==> forall i :: 0 <= i < |items| ==> items[i].Str?)
              && (r.Ok? ==> |r.value| == |items| && forall i :: 0 <= i < |items| ==> items[i] == Str(r.value[i]))
  {
    if !config.Obj? then Raised(AttributeError("get"))
    else
      match Get(config.fields, "stocks", EmptyArr)
      case Arr(items) =>
        if forall i :: 0 <= i < |items| ==> items[i].Str? then
          Ok(seq(|items|, i requires 0 <= i < |items| && items[i].Str? => items[i].s))
        else Raised(TypeError("stocks"))
      case _ => Raised(TypeError("stocks"))
  }

  /** `load_watchlist`: a non-empty `STOCK_WATCHLIST` value wins; otherwise
      the config file, or the default list when the file does not exist. */
  function LoadWatchlist(env: string, config: ConfigFile): (r: Result<seq<string>>)
    ensures env != "" ==> r.Ok? && |r.value| == Count(env, ',') + 1
    ensures env != "" ==> r.Ok? && forall i :: 0 <= i < |r.value| ==> r.value[i] == Upper(Strip(Split(env, ',')[i]))
    ensures env == "" && config.NoConfigFile? ==> r == Ok(DefaultWatchlist)
    ensures env == "" && config.ConfigFile? ==>
              r == (if config.parsed.Raised? then Raised(config.parsed.exc) else ConfigStocks(config.parsed.value))
  {
    if env != "" then Ok(ParseWatchlist(env))
    else
      match config
      case NoConfigFile => Ok(DefaultWatchlist)
      case ConfigFile(Raised(e)) => Raised(e)
      case ConfigFile(Ok(json)) => ConfigStocks(json)
  }

  /** A watchlist written without blanks or lower-case letters parses to
      exactly its comma-separated pieces: joining them back gives the value. */
  lemma CanonicalWatchlistRoundTrip(env: string)
    requires forall k :: 0 <= k < |env| ==> !IsSpace(env[k]) && !('a' <= env[k] <= 'z')
    ensures Join(ParseWatchlist(env), ",") == env
  {
    var pieces := Split(env, ',');
    forall i | 0 <= i < |pieces|
      ensures Upper(Strip(pieces[i])) == pieces[i]
    {
      StripKeepsTrimmed(pieces[i]);
      UpperKeepsUpper(pieces[i]);
    }
    assert ParseWatchlist(env) == pieces;
    JoinSplit(env, ',');
  }

  /** Every parsed symbol is free of surrounding blanks and of lower-case
      ASCII letters. */
  lemma {:induction false} ParsedSymbolsAreClean(env: string)
    ensures forall i :: 0 <= i < |ParseWatchlist(env)| ==>
              var s := ParseWatchlist(env)[i];
              (|s| > 0 ==> !IsSpace(s[0]) && !IsSpace(s[|s| - 1]))
              && forall k :: 0 <= k < |s| ==> !('a' <= s[k] <= 'z')
  {
  }

  // ---------------------------------------------------------------------
  // Messages and notification

  /** The first line of the message that lists important updates. */
  const ImportantHeader: string := "\U{1F6A8} *IMPORTANT STOCK UPDATES* \U{1F6A8}\n\n"

  /** The brief message sent when nothing is important: dated, and ending
      with the whole watchlist joined by ", ". */
  function QuietMessage(date: string, watchlist: seq<string>): (m: string)
    ensures |m| > 0 && m[0] == '\U{1F4CA}'
    ensures var listing := "Monitored: " + Join(watchlist, ", ");
      |listing| <= |m| && m[|m| - |listing|..] == listing
  {
    "\U{1F4CA} *Daily Market Check* - " + date + "\n\n"
    + "\U{2705} No major updates for your watchlist today.\n"
    + "Monitored: " + Join(watchlist, ", ")
  }

  /** The message of the error notification for exception text `detail`. */
  function ErrorMessage(detail: string): string {
    "\U{274C} Stock Analysis Error\n\n" + "Workflow failed: " + detail
  }

  /** What `TelegramNotifier.send_message` did: returned `True`, returned
      `False`, or raised. */
  datatype SendOutcome = Delivered | NotDelivered | SendFailed(exc: Exc)

  /** The outside world of one run: the market-data APIs, the Telegram
      channel, and whether `os.makedirs('results')` raises. */
  datatype World = World(
    market: Market,
    telegram: string -> SendOutcome,
    makeResultsDir: Option<Exc>)

  /** `send_notifications(message)`: Telegram is the only configured
      channel; its exception is caught and counted as a failure. */
  function SendNotifications(world: World, message: string): (ok: bool)
    ensures ok <==> world.telegram(message) == Delivered
    ensures world.telegram(message).SendFailed? ==> !ok
  {
    match world.telegram(message)
    case Delivered => true
    case NotDelivered => false
    case SendFailed(_) => false
  }

  /** The message of a run that fetched `analyses`: the important-updates
      summary if any analysis is important, the brief message otherwise,
      or the exception filtering or summarising raised. */
  function Compose(analyses: seq<Analysis>, watchlist: seq<string>, now: Now, rt: Runtime): (r: Result<string>)
    ensures ImportantUpdates(analyses, now, rt).Raised? ==> r == Raised(ImportantUpdates(analyses, now, rt).exc)
    ensures ImportantUpdates(analyses, now, rt) == Ok([]) ==>
              r == Ok(QuietMessage(rt.dateText(now.ordinal), watchlist))
    ensures var important := ImportantUpdates(analyses, now, rt);
      important.Ok? && important.value != [] ==>
        (r.Ok? <==> GenerateSummary(important.value, rt, now.ordinal).Ok?)
        && (r.Ok? ==> r.value == ImportantHeader + GenerateSummary(important.value, rt, now.ordinal).value)
        && (r.Raised? ==> r == GenerateSummary(important.value, rt, now.ordinal))
  {
    match ImportantUpdates(analyses, now, rt)
    case Raised(e) => Raised(e)
    case Ok(important) =>
      if important != [] then
        match GenerateSummary(important, rt, now.ordinal)
        case Raised(e) => Raised(e)
        case Ok(summary) => Ok(ImportantHeader + summary)
      else
        Ok(QuietMessage(rt.dateText(now.ordinal), watchlist))
  }

  /** The composed message opens with the IMPORTANT header exactly when
      some analysis is important. */
  lemma ComposeHeaderIffImportant(analyses: seq<Analysis>, watchlist: seq<string>, now: Now, rt: Runtime,
                                  message: string)
    requires Compose(analyses, watchlist, now, rt) == Ok(message)
    ensures ImportantHeader <= message <==> ImportantUpdates(analyses, now, rt).value != []
  {
  }

  // ---------------------------------------------------------------------
  // The run

  /** An observable effect of a run. */
  datatype Effect = Request(call: Call) | Notify(message: string) | SaveResults

  function Requests(calls: seq<Call>): (effects: seq<Effect>)
    ensures |effects| == |calls|
    ensures forall i :: 0 <= i < |calls| ==> effects[i] == Request(calls[i])
  {
    seq(|calls|, i requires 0 <= i < |calls| => Request(calls[i]))
  }

  /** The message of a notification effect. */
  function NotifyText(e: Effect): Option<string> {
    if e.Notify? then Some(e.message) else None
  }

  /** The messages a trace sent, in order. */
  function Notifications(trace: seq<Effect>): seq<string> {
    KeepMap(trace, NotifyText)
  }

  /** The analyses a weekday run works on. */
  function Fetched(watchlist: seq<string>, world: World, now: Now, rt: Runtime): seq<Analysis> {
    KeepMap(watchlist, Analyzed(world.market, rt.isoText(now)))
  }

  /** The requests a weekday run issues. */
  function FetchCalls(watchlist: seq<string>, world: World, now: Now, rt: Runtime): seq<Call> {
    WatchlistCalls(watchlist, world.market, rt.isoText(now))
  }

  /** Appending a notification appends its message. */
  lemma NotificationsAppend(trace: seq<Effect>, more: seq<Effect>)
    ensures Notifications(trace + more) == Notifications(trace) + Notifications(more)
  {
    KeepMapAppend(trace, more, NotifyText);
  }

  /** Requests send no messages. */
  lemma {:induction false} RequestsAreSilent(calls: seq<Call>)
    ensures Notifications(Requests(calls)) == []
  {
    if |calls| > 0 {
      var init := calls[..|calls| - 1];
      RequestsAreSilent(init);
      assert Requests(calls) == Requests(init) + [Request(calls[|calls| - 1])];
      NotificationsAppend(Requests(init), [Request(calls[|calls| - 1])]);
      assert [Request(calls[|calls| - 1])][..0] == [];
    }
  }

  /** The messages of a weekday run are those sent after the requests. */
  lemma RequestsThenEffects(calls: seq<Call>, effects: seq<Effect>)
    ensures Notifications(Requests(calls) + effects) == Notifications(effects)
  {
    RequestsAreSilent(calls);
    NotificationsAppend(Requests(calls), effects);
  }

  /** The notifications of a single effect. */
  lemma NotificationsOfOne(e: Effect)
    ensures Notifications([e]) == if e.Notify? then [e.message] else []
  {
  }

  /** The part of `run_analysis` after fetching: send the composed message
      (or the error notification if composing raised), then save the
      results; `os.makedirs` raising there also ends in the error path. */
  method Deliver(world: World, rt: Runtime, message: Result<string>)
    returns (success: bool, effects: seq<Effect>)
    ensures message.Raised? ==> !success && effects == [Notify(ErrorMessage(rt.describe(message.exc)))]
    ensures message.Ok? && world.makeResultsDir.None? ==> effects == [Notify(message.value), SaveResults]
    ensures message.Ok? && world.makeResultsDir.Some? ==>
              effects == [Notify(message.value), Notify(ErrorMessage(rt.describe(world.makeResultsDir.value)))]
    ensures message.Raised? ==> Notifications(effects) == [ErrorMessage(rt.describe(message.exc))]
    ensures message.Ok? && world.makeResultsDir.None? ==> Notifications(effects) == [message.value]
    ensures message.Ok? && world.makeResultsDir.Some? ==>
              Notifications(effects) == [message.value, ErrorMessage(rt.describe(world.makeResultsDir.value))]
    ensures success <==>
              message.Ok? && world.makeResultsDir.None? && world.telegram(message.value) == Delivered
  {
    match message {
      case Raised(e) =>
        // The error notification's own outcome is ignored.
        var failure := ErrorMessage(rt.describe(e));
        effects := [Notify(failure)];
        NotificationsOfOne(Notify(failure));
        success := false;
      case Ok(text) =>
        var sent := SendNotifications(world, text);
        NotificationsOfOne(Notify(text));
        match world.makeResultsDir {
          case Some(e) =>
            var failure := ErrorMessage(rt.describe(e));
            effects := [Notify(text), Notify(failure)];
            assert effects == [Notify(text)] + [Notify(failure)];
            NotificationsAppend([Notify(text)], [Notify(failure)]);
            NotificationsOfOne(Notify(failure));
            success := false;
          case None =>
            effects := [Notify(text), SaveResults];
            assert effects == [Notify(text)] + [SaveResults];
            NotificationsAppend([Notify(text)], [SaveResults]);
            NotificationsOfOne(SaveResults);
            success := sent;
        }
    }
  }

  /** `run_analysis`: on a weekday, fetch every symbol, fail when nothing
      was fetched, compose and send the message, then save the results.
      An exception after fetching sends one error notification and fails
      the run. Returns the run's success, the analyses it fetched and what
      it did, in order. */
  method RunAnalysis(watchlist: seq<string>, world: World, now: Now, rt: Runtime)
    returns (success: bool, analyses: seq<Analysis>, trace: seq<Effect>)
    ensures !IsMarketDay(now) ==> success && analyses == [] && trace == []
    ensures IsMarketDay(now) ==> analyses == Fetched(watchlist, world, now, rt)
    ensures IsMarketDay(now) ==> Requests(FetchCalls(watchlist, world, now, rt)) <= trace
    ensures IsMarketDay(now) && analyses == [] ==> !success && trace == Requests(FetchCalls(watchlist, world, now, rt))
    ensures var message, fetch := Compose(analyses, watchlist, now, rt), Requests(FetchCalls(watchlist, world, now, rt));
      IsMarketDay(now) && analyses != [] ==>
        && (message.Raised? ==> trace == fetch + [Notify(ErrorMessage(rt.describe(message.exc)))])
        && (message.Ok? && world.makeResultsDir.None? ==> trace == fetch + [Notify(message.value), SaveResults])
        && (message.Ok? && world.makeResultsDir.Some? ==>
              trace == fetch + [Notify(message.value), Notify(ErrorMessage(rt.describe(world.makeResultsDir.value)))])
    ensures success <==>
              || !IsMarketDay(now)
              || (var message := Compose(analyses, watchlist, now, rt);
                  && analyses != [] && message.Ok? && world.makeResultsDir.None?
                  && world.telegram(message.value) == Delivered)
  {
    if !IsMarketDay(now) {
      return true, [], [];
    }
    var calls;
    analyses, calls := AnalyzeWatchlist(watchlist, world.market, rt.isoText(now));
    trace := Requests(calls);
    if analyses == [] {
      return false, analyses, trace;
    }
    var message := Compose(analyses, watchlist, now, rt);
    var effects;
    success, effects := Deliver(world, rt, message);
    trace := trace + effects;
  }

  /** `main`: the process exit status of a run. */
  function ExitCode(success: bool): (code: int)
    ensures code == 0 <==> success
    ensures code == 0 || code == 1
  {
    if success then 0 else 1
  }
}
