/** `filter_important_updates`: four independent signals over one
    analysis (earnings soon, a recent analyst rating, a large price move,
    a news keyword), lifted to an order-preserving filter over the run's
    analyses. */
module Importance {
  import opened Outcomes
  import opened JsonValues
  import opened Text
  import opened Subsequences
  import opened Calendar
  import opened Host
  import opened Analyzer

  /** The news keywords that make an analysis important. */
  const Keywords: seq<string> :=
    ["earnings", "upgrade", "downgrade", "acquisition", "merger", "lawsuit", "fda approval"]

  /** The price move, in percent, that a change must exceed. */
  const PriceMoveThreshold: real := 5.0

  /** Earnings signal: an earnings entry with a truthy `date` that parses
      and lies in the window `0 <= days_until <= 7`. A date that does not
      parse counts for nothing; a truthy date that is not a string makes
      `strptime` raise. */
  function EarningsSignal(a: Analysis, now: Now, rt: Runtime): (r: Result<bool>)
    ensures r.Raised? <==>
              a.earnings.Some? && |a.earnings.value| > 0
              && var d := Get(a.earnings.value, "date", Null); Truthy(d) && !d.Str?
    ensures r == Ok(true) <==>
              a.earnings.Some? && "date" in a.earnings.value
              && var d := a.earnings.value["date"];
                 d.Str? && d.s != "" && rt.parseDate(d.s).Some?
                 && InEarningsWindow(rt.parseDate(d.s).value, now)
  {
    match a.earnings
    case None => Ok(false)
    case Some(entry) =>
      if |entry| == 0 then Ok(false)
      else
        var date := Get(entry, "date", Null);
        if !Truthy(date) then Ok(false)
        else if !date.Str? then Raised(TypeError("strptime"))
        else
          match rt.parseDate(date.s)
          case None => Ok(false)
          case Some(day) => Ok(InEarningsWindow(day, now))
  }

  /** One analyst rating: a dictionary whose truthy `date` parses to a day
      at most three days ago. `newGrade` plays no part. */
  function RatingSignal(rec: Json, now: Now, rt: Runtime): (r: Result<bool>)
    ensures r.Raised? <==>
              !rec.Obj? || var d := Get(rec.fields, "date", Str("")); Truthy(d) && !d.Str?
    ensures r == Ok(true) <==>
              rec.Obj? && "date" in rec.fields
              && var d := rec.fields["date"];
                 d.Str? && d.s != "" && rt.parseDate(d.s).Some?
                 && RecentRating(rt.parseDate(d.s).value, now)
  {
    if !rec.Obj? then Raised(AttributeError("get"))
    else
      var date := Get(rec.fields, "date", Str(""));
      if !Truthy(date) then Ok(false)
      else if !date.Str? then Raised(TypeError("strptime"))
      else
        match rt.parseDate(date.s)
        case None => Ok(false)
        case Some(day) => Ok(RecentRating(day, now))
  }

  /** Analyst signal: `recs[:2]`, both always examined. */
  function AnalystSignal(a: Analysis, now: Now, rt: Runtime): (r: Result<bool>)
    ensures r.Raised? <==>
              exists i :: 0 <= i < |a.analystRecs| && i < 2 && RatingSignal(a.analystRecs[i], now, rt).Raised?
    ensures r == Ok(true) <==>
              (forall i :: 0 <= i < |a.analystRecs| && i < 2 ==> RatingSignal(a.analystRecs[i], now, rt).Ok?)
              && exists i :: 0 <= i < |a.analystRecs| && i < 2 && RatingSignal(a.analystRecs[i], now, rt) == Ok(true)
  {
    var recs := a.analystRecs;
    var first := if |recs| > 0 then RatingSignal(recs[0], now, rt) else Ok(false);
    var second := if |recs| > 1 then RatingSignal(recs[1], now, rt) else Ok(false);
    Or(first, second)
  }

  /** Python's `abs` on a float. */
  function Abs(x: real): real {
    if x < 0.0 then -x else x
  }

  /** Price signal: a truthy `Global Quote` whose `10. change percent`
      (default "0%"), with every "%" removed, parses to a number whose
      magnitude is strictly above 5. */
  function PriceSignal(a: Analysis, rt: Runtime): (r: Result<bool>)
    ensures var q := GlobalQuoteOf(a);
      r.Raised? <==>
        Truthy(q) && (!q.Obj? || !Get(q.fields, "10. change percent", Str("0%")).Str?)
    ensures var q := GlobalQuoteOf(a);
      r == Ok(true) <==>
        Truthy(q) && q.Obj?
        && var c := Get(q.fields, "10. change percent", Str("0%"));
           c.Str? && rt.parseFloat(RemoveChar(c.s, '%')).Some?
           && var x := rt.parseFloat(RemoveChar(c.s, '%')).value;
              x > PriceMoveThreshold || x < -PriceMoveThreshold
  {
    var quote := GlobalQuoteOf(a);
    if !Truthy(quote) then Ok(false)
    else if !quote.Obj? then Raised(AttributeError("get"))
    else
      var change := Get(quote.fields, "10. change percent", Str("0%"));
      if !change.Str? then Raised(AttributeError("replace"))
      else
        match rt.parseFloat(RemoveChar(change.s, '%'))
        case None => Ok(false)
        case Some(x) => Ok(Abs(x) > PriceMoveThreshold)
  }

  /** The loop over the first news items: each title is read (raising on a
      malformed item) until one mentions a keyword, where the loop breaks. */
  function ScanNews(items: seq<Json>): (r: Result<bool>)
    ensures r == Ok(true) <==>
              exists i :: 0 <= i < |items| && TitleOf(items[i]).Ok?
                && MentionsAny(TitleOf(items[i]).value, Keywords)
                && forall j :: 0 <= j < i ==> TitleOf(items[j]).Ok?
    ensures r == Ok(false) <==>
              forall i :: 0 <= i < |items| ==>
                TitleOf(items[i]).Ok? && !MentionsAny(TitleOf(items[i]).value, Keywords)
  {
    if |items| == 0 then Ok(false)
    else
      assert forall i :: 1 <= i < |items| ==> items[i] == items[1..][i - 1];
      match TitleOf(items[0])
      case Raised(e) => Raised(e)
      case Ok(title) => if MentionsAny(title, Keywords) then Ok(true) else ScanNews(items[1..])
  }

  /** News signal: `news[:3]` scanned for a keyword. Slicing a string gives
      characters, which have no `get`; other non-list values cannot be sliced. */
  function NewsSignal(a: Analysis): (r: Result<bool>)
    ensures a.news.Arr? ==>
              r == ScanNews(a.news.items[..if |a.news.items| < 3 then |a.news.items| else 3])
    ensures !a.news.Arr? ==> (r.Ok? <==> a.news == Str("")) && r != Ok(true)
  {
    match a.news
    case Arr(items) => ScanNews(items[..if |items| < 3 then |items| else 3])
    case Str(s) => if |s| == 0 then Ok(false) else Raised(AttributeError("get"))
    case _ => Raised(TypeError("slice"))
  }

  /** The body of the filter loop for one analysis: all four signals are
      evaluated in order, and the first exception propagates. */
  function IsImportant(a: Analysis, now: Now, rt: Runtime): (r: Result<bool>)
    ensures r.Raised? <==>
              || EarningsSignal(a, now, rt).Raised? || AnalystSignal(a, now, rt).Raised?
              || PriceSignal(a, rt).Raised? || NewsSignal(a).Raised?
    ensures r == Ok(true) <==>
              && EarningsSignal(a, now, rt).Ok? && AnalystSignal(a, now, rt).Ok?
              && PriceSignal(a, rt).Ok? && NewsSignal(a).Ok?
              && (|| EarningsSignal(a, now, rt) == Ok(true) || AnalystSignal(a, now, rt) == Ok(true)
                  || PriceSignal(a, rt) == Ok(true) || NewsSignal(a) == Ok(true))
    ensures EarningsSignal(a, now, rt).Raised? ==> r == EarningsSignal(a, now, rt)
    ensures EarningsSignal(a, now, rt).Ok? && AnalystSignal(a, now, rt).Raised? ==> r == AnalystSignal(a, now, rt)
    ensures EarningsSignal(a, now, rt).Ok? && AnalystSignal(a, now, rt).Ok? && PriceSignal(a, rt).Raised? ==>
              r == PriceSignal(a, rt)
    ensures EarningsSignal(a, now, rt).Ok? && AnalystSignal(a, now, rt).Ok? && PriceSignal(a, rt).Ok? ==>
              NewsSignal(a).Raised? ==> r == NewsSignal(a)
  {
    Or(Or(Or(EarningsSignal(a, now, rt), AnalystSignal(a, now, rt)), PriceSignal(a, rt)), NewsSignal(a))
  }

  /** The analysis itself if it is important, for selection. */
  function Selected(now: Now, rt: Runtime): Analysis -> Option<Analysis> {
    a => if IsImportant(a, now, rt) == Ok(true) then Some(a) else None
  }

  /** `filter_important_updates(analyses)`: the important analyses in input
      order, or the first exception the loop meets. */
  function ImportantUpdates(analyses: seq<Analysis>, now: Now, rt: Runtime): (r: Result<seq<Analysis>>)
    ensures r.Ok? <==> forall i :: 0 <= i < |analyses| ==> IsImportant(analyses[i], now, rt).Ok?
    ensures r.Raised? ==>
              exists i :: 0 <= i < |analyses| && IsImportant(analyses[i], now, rt) == Raised(r.exc)
                && forall j :: 0 <= j < i ==> IsImportant(analyses[j], now, rt).Ok?
  {
    if |analyses| == 0 then Ok([])
    else
      var init := analyses[..|analyses| - 1];
      var last := analyses[|analyses| - 1];
      assert forall i :: 0 <= i < |init| ==> init[i] == analyses[i];
      match ImportantUpdates(init, now, rt)
      case Raised(e) => Raised(e)
      case Ok(kept) =>
        match IsImportant(last, now, rt)
        case Raised(e) => Raised(e)
        case Ok(important) => Ok(kept + if important then [last] else [])
  }

  /** When the filter succeeds it keeps exactly the analyses `Selected`
      picks, in input order. */
  lemma {:induction false} ImportantUpdatesSelects(analyses: seq<Analysis>, now: Now, rt: Runtime)
    requires ImportantUpdates(analyses, now, rt).Ok?
    ensures ImportantUpdates(analyses, now, rt).value == KeepMap(analyses, Selected(now, rt))
  {
    if |analyses| > 0 {
      var init := analyses[..|analyses| - 1];
      var last := analyses[|analyses| - 1];
      ImportantUpdatesSelects(init, now, rt);
      var select := Selected(now, rt);
      var important := IsImportant(last, now, rt).value;
      assert select(last) == if important then Some(last) else None;
      assert KeepMap(analyses, select)
          == KeepMap(init, select) + (if select(last).Some? then [select(last).value] else []);
    }
  }

  /** The filter returns an order-preserving subsequence of its input that
      holds exactly the analyses for which some signal fires. */
  lemma {:induction false} ImportantUpdatesIsSubsequence(analyses: seq<Analysis>, now: Now, rt: Runtime, kept: seq<Analysis>)
    requires ImportantUpdates(analyses, now, rt) == Ok(kept)
    ensures var idx := KeptIndices(analyses, Selected(now, rt));
      && EmbedsAt(kept, analyses, idx)
      && forall i :: 0 <= i < |analyses| ==> (IsImportant(analyses[i], now, rt) == Ok(true) <==> i in idx)
  {
    ImportantUpdatesSelects(analyses, now, rt);
    FilterIsSubsequence(analyses, Selected(now, rt));
  }

  // ---------------------------------------------------------------------
  // The signals in calendar and arithmetic terms

  /** With a sane clock, an earnings date fires iff it lies between today
      and today+7 when it is exactly midnight, and between tomorrow and
      today+8 at any later time: an earnings date of today is missed once
      the day has begun. */
  lemma EarningsSignalByCalendar(a: Analysis, now: Now, rt: Runtime, day: int)
    requires Valid(now)
    requires a.earnings.Some? && "date" in a.earnings.value
    requires a.earnings.value["date"].Str? && rt.parseDate(a.earnings.value["date"].s) == Some(day)
    requires a.earnings.value["date"].s != ""
    ensures EarningsSignal(a, now, rt) == Ok(true) <==>
              if now.micros == 0 then now.ordinal <= day <= now.ordinal + 7
              else now.ordinal + 1 <= day <= now.ordinal + 8
  {
  }

  /** A malformed earnings date is ignored without raising. */
  lemma MalformedEarningsDateIgnored(a: Analysis, now: Now, rt: Runtime)
    requires a.earnings.Some? && "date" in a.earnings.value
    requires a.earnings.value["date"].Str? && rt.parseDate(a.earnings.value["date"].s).None?
    ensures EarningsSignal(a, now, rt) == Ok(false)
  {
  }

  /** With a sane clock, a rating fires iff its date is at most three days
      ago, whatever the time of day; every future date fires. */
  lemma RatingSignalByCalendar(rec: Json, now: Now, rt: Runtime, day: int)
    requires Valid(now)
    requires rec.Obj? && "date" in rec.fields && rec.fields["date"].Str? && rec.fields["date"].s != ""
    requires rt.parseDate(rec.fields["date"].s) == Some(day)
    ensures RatingSignal(rec, now, rt) == Ok(true) <==> day >= now.ordinal - 3
  {
  }

  /** Ratings after the second are never looked at. */
  lemma {:induction false} AnalystSignalIgnoresOlder(a: Analysis, b: Analysis, now: Now, rt: Runtime)
    requires |a.analystRecs| >= 2 && |b.analystRecs| >= 2
    requires a.analystRecs[..2] == b.analystRecs[..2]
    ensures AnalystSignal(a, now, rt) == AnalystSignal(b, now, rt)
  {
  }

  /** The price threshold is strict on both sides: a move of exactly 5%
      up or down does not fire, anything beyond it does. */
  lemma PriceThresholdIsStrict(a: Analysis, rt: Runtime, x: real)
    requires GlobalQuoteOf(a).Obj? && Truthy(GlobalQuoteOf(a))
    requires var c := Get(GlobalQuoteOf(a).fields, "10. change percent", Str("0%"));
      c.Str? && rt.parseFloat(RemoveChar(c.s, '%')) == Some(x)
    ensures x == 5.0 || x == -5.0 ==> PriceSignal(a, rt) == Ok(false)
    ensures x > 5.0 || x < -5.0 ==> PriceSignal(a, rt) == Ok(true)
  {
  }

  /** A quote without a change field is read as "0%", which never fires
      when "0" parses as zero. */
  lemma MissingChangeNeverFires(a: Analysis, rt: Runtime)
    requires GlobalQuoteOf(a).Obj? && "10. change percent" !in GlobalQuoteOf(a).fields
    requires rt.parseFloat("0") == Some(0.0)
    ensures PriceSignal(a, rt) == Ok(false)
  {
    assert RemoveChar("0%", '%') == "0" by {
      assert "0%"[1..] == "%";
      assert RemoveChar("%", '%') == "" by {
        assert "%"[1..] == "";
      }
    }
  }

  /** News items after the third are never looked at. */
  lemma {:induction false} NewsSignalIgnoresLater(a: Analysis, b: Analysis)
    requires a.news.Arr? && b.news.Arr? && |a.news.items| >= 3 && |b.news.items| >= 3
    requires a.news.items[..3] == b.news.items[..3]
    ensures NewsSignal(a) == NewsSignal(b)
  {
  }

  /** The keyword match ignores letter case. */
  lemma NewsSignalIgnoresCase(title: string, other: string)
    requires SameIgnoringCase(title, other)
    ensures MentionsAny(title, Keywords) <==> MentionsAny(other, Keywords)
  {
    LowerIgnoresCase(title, other);
  }

  /** Every title the summary would show mentions an importance keyword. */
  lemma SummaryHeadlinesAreImportant(title: string)
    requires MentionsAny(title, SummaryKeywords)
    ensures MentionsAny(title, Keywords)
  {
    assert SummaryKeywords == Keywords[..3];
    SummaryKeywordsAreImportant(title, Keywords);
  }
}
