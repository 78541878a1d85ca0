/** The dashboard's answer to one chat query: the query is lower-cased and
    run through an ordered chain of substring tests; the first test that
    holds picks the insight to compute (and, for two of them, a sector
    chart). Also the table load that feeds it. */
module App {
  import opened Seqs
  import opened Strings
  import opened Tables
  import opened Insights
  import DataProcessor

  // ---------------------------------------------------------------------
  // Routing
  // ---------------------------------------------------------------------

  /** Which branch of the chain answers; one tag per branch. */
  datatype Route =
    | SectorRevenueRoute            // "sector" and "revenue"
    | MonthRoute                    // "month"
    | QuarterRoute(quarter: string) // "q1" .. "q4", "this quarter"
    | DiversificationRoute          // "diversified", "exposure", "breakdown"
    | TopSectorRoute                // "dominates", "top sector"
    | RiskRoute                     // "risk", "concentration", "dependency"
    | PipelineRoute                 // "pipeline", "deal", "opportunity"
    | RevenueRoute                  // "revenue", "financial", "billing"
    | LeadershipRoute               // "leadership", "update", "snapshot", "board"
    | DealCountRoute                // "how many" and "deal"
    | TotalValueRoute               // "total size", "total value"
    | LatePipelineRoute             // "pipeline", tested last
    | HelpRoute                     // nothing matched

  /** `any(word in q for word in words)`. */
  predicate AnyOf(q: string, words: seq<string>)
  {
    exists w :: w in words && Contains(q, w)
  }

  /** The chain of tests on the lower-cased query, in source order. */
  function RouteLowered(q: string): Route
  {
    if Contains(q, "sector") && Contains(q, "revenue") then SectorRevenueRoute
    else if Contains(q, "month") then MonthRoute
    else if Contains(q, "q1") then QuarterRoute("Q1")
    else if Contains(q, "q2") then QuarterRoute("Q2")
    else if Contains(q, "q3") then QuarterRoute("Q3")
    else if Contains(q, "q4") || Contains(q, "this quarter") then QuarterRoute("Q4")
    else if AnyOf(q, ["diversified", "exposure", "breakdown"]) then DiversificationRoute
    else if AnyOf(q, ["dominates", "top sector"]) then TopSectorRoute
    else if AnyOf(q, ["risk", "concentration", "dependency"]) then RiskRoute
    else if AnyOf(q, ["pipeline", "deal", "opportunity"]) then PipelineRoute
    else if AnyOf(q, ["revenue", "financial", "billing"]) then RevenueRoute
    else if AnyOf(q, ["leadership", "update", "snapshot", "board"]) then LeadershipRoute
    else if Contains(q, "how many") && Contains(q, "deal") then DealCountRoute
    else if Contains(q, "total size") || Contains(q, "total value") then TotalValueRoute
    else if Contains(q, "pipeline") then LatePipelineRoute
    else HelpRoute
  }

  /** `query = user_query.lower()`, then the chain. */
  function RouteQuery(query: string): Route
  {
    RouteLowered(Lower(query))
  }

  /** Whether the branch also calls `show_sector_chart`. */
  predicate ChartRequested(r: Route)
  {
    r == DiversificationRoute || r == TopSectorRoute
  }

  // ---------------------------------------------------------------------
  // The same chain as an ordered table of rules
  // ---------------------------------------------------------------------

  /** A test of a rule: all of the words occur, or one of them does. */
  datatype Guard = AllOf(all: seq<string>) | OneOf(some: seq<string>)

  datatype Rule = Rule(guard: Guard, route: Route)

  predicate Holds(g: Guard, q: string)
  {
    match g
    case AllOf(ws) => forall w :: w in ws ==> Contains(q, w)
    case OneOf(ws) => AnyOf(q, ws)
  }

  /** The rules in priority order. */
  const Rules: seq<Rule> := [
    Rule(AllOf(["sector", "revenue"]), SectorRevenueRoute),
    Rule(OneOf(["month"]), MonthRoute),
    Rule(OneOf(["q1"]), QuarterRoute("Q1")),
    Rule(OneOf(["q2"]), QuarterRoute("Q2")),
    Rule(OneOf(["q3"]), QuarterRoute("Q3")),
    Rule(OneOf(["q4", "this quarter"]), QuarterRoute("Q4")),
    Rule(OneOf(["diversified", "exposure", "breakdown"]), DiversificationRoute),
    Rule(OneOf(["dominates", "top sector"]), TopSectorRoute),
    Rule(OneOf(["risk", "concentration", "dependency"]), RiskRoute),
    Rule(OneOf(["pipeline", "deal", "opportunity"]), PipelineRoute),
    Rule(OneOf(["revenue", "financial", "billing"]), RevenueRoute),
    Rule(OneOf(["leadership", "update", "snapshot", "board"]), LeadershipRoute),
    Rule(AllOf(["how many", "deal"]), DealCountRoute),
    Rule(OneOf(["total size", "total value"]), TotalValueRoute),
    Rule(OneOf(["pipeline"]), LatePipelineRoute)
  ]

  /** The route of the first rule whose guard holds; the help route if none. */
  function FirstMatch(rules: seq<Rule>, q: string): Route
    decreases |rules|
  {
    if rules == [] then HelpRoute
    else if Holds(rules[0].guard, q) then rules[0].route
    else FirstMatch(rules[1..], q)
  }

  /** First-match evaluation returns the route of a rule that holds and
      after which no earlier rule holds; it returns the help route, when no
      rule routes there, exactly when no rule holds. */
  lemma {:induction false} FirstMatchSpec(rules: seq<Rule>, q: string)
    ensures (forall i :: 0 <= i < |rules| ==> rules[i].route != HelpRoute) ==>
            (FirstMatch(rules, q) == HelpRoute <==> forall i :: 0 <= i < |rules| ==> !Holds(rules[i].guard, q))
    ensures FirstMatch(rules, q) != HelpRoute ==>
            exists i :: 0 <= i < |rules| && Holds(rules[i].guard, q) && rules[i].route == FirstMatch(rules, q) &&
                        forall j :: 0 <= j < i ==> !Holds(rules[j].guard, q)
    decreases |rules|
  {
    if rules != [] && !Holds(rules[0].guard, q) {
      var r := FirstMatch(rules[1..], q);
      FirstMatchSpec(rules[1..], q);
      forall i | 1 <= i < |rules|
        ensures rules[i] == rules[1..][i - 1]
      {
      }
      if r != HelpRoute {
        var i :| 0 <= i < |rules[1..]| && Holds(rules[1..][i].guard, q) && rules[1..][i].route == r &&
                 forall j :: 0 <= j < i ==> !Holds(rules[1..][j].guard, q);
        assert rules[i + 1] == rules[1..][i];
        forall j | 0 <= j < i + 1
          ensures !Holds(rules[j].guard, q)
        {
          if j > 0 {
            assert rules[j] == rules[1..][j - 1];
          }
        }
      }
    }
  }

  /** One step of first-match evaluation, from rule `k` on. */
  lemma FirstMatchAt(rules: seq<Rule>, k: nat, q: string)
    requires k < |rules|
    ensures FirstMatch(rules[k..], q) ==
            if Holds(rules[k].guard, q) then rules[k].route else FirstMatch(rules[k + 1..], q)
  {
    assert rules[k..][0] == rules[k];
    assert rules[k..][1..] == rules[k + 1..];
  }

  /** Each one-word test of the chain is the matching guard of the table. */
  lemma OneWord(q: string, w: string)
    ensures Holds(OneOf([w]), q) <==> Contains(q, w)
    ensures Holds(AllOf([w]), q) <==> Contains(q, w)
  {
    assert w in [w];
  }

  lemma TwoWords(q: string, v: string, w: string)
    ensures Holds(OneOf([v, w]), q) <==> Contains(q, v) || Contains(q, w)
    ensures Holds(AllOf([v, w]), q) <==> Contains(q, v) && Contains(q, w)
  {
    assert v in [v, w] && w in [v, w];
  }

  /** The if/elif chain is first-match evaluation of the rule table: each
      test of the chain is the guard of the rule at the same position. */
  lemma {:induction false} ChainIsFirstMatch(q: string)
    ensures RouteLowered(q) == FirstMatch(Rules, q)
  {
    assert Rules[0..] == Rules;
    ChainRules0To5(q);
    ChainRules5To10(q);
    ChainRules10To15(q);
  }

  /** Rules 0 to 4 of the table are tests 0 to 4 of the chain. */
  lemma {:induction false} ChainRules0To5(q: string)
    ensures FirstMatch(Rules[0..], q) ==
            if Contains(q, "sector") && Contains(q, "revenue") then SectorRevenueRoute
            else if Contains(q, "month") then MonthRoute
            else if Contains(q, "q1") then QuarterRoute("Q1")
            else if Contains(q, "q2") then QuarterRoute("Q2")
            else if Contains(q, "q3") then QuarterRoute("Q3")
            else FirstMatch(Rules[5..], q)
  {
    var rs := Rules;
    FirstMatchAt(rs, 0, q);
    TwoWords(q, "sector", "revenue");
    FirstMatchAt(rs, 1, q);
    OneWord(q, "month");
    FirstMatchAt(rs, 2, q);
    OneWord(q, "q1");
    FirstMatchAt(rs, 3, q);
    OneWord(q, "q2");
    FirstMatchAt(rs, 4, q);
    OneWord(q, "q3");
  }

  /** Rules 5 to 9 of the table are tests 5 to 9 of the chain. */
  lemma {:induction false} ChainRules5To10(q: string)
    ensures FirstMatch(Rules[5..], q) ==
            if Contains(q, "q4") || Contains(q, "this quarter") then QuarterRoute("Q4")
            else if AnyOf(q, ["diversified", "exposure", "breakdown"]) then DiversificationRoute
            else if AnyOf(q, ["dominates", "top sector"]) then TopSectorRoute
            else if AnyOf(q, ["risk", "concentration", "dependency"]) then RiskRoute
            else if AnyOf(q, ["pipeline", "deal", "opportunity"]) then PipelineRoute
            else FirstMatch(Rules[10..], q)
  {
    var rs := Rules;
    FirstMatchAt(rs, 5, q);
    TwoWords(q, "q4", "this quarter");
    FirstMatchAt(rs, 6, q);
    FirstMatchAt(rs, 7, q);
    FirstMatchAt(rs, 8, q);
    FirstMatchAt(rs, 9, q);
  }

  /** Rules 10 to 14 of the table are tests 10 to 14 of the chain. */
  lemma {:induction false} ChainRules10To15(q: string)
    ensures FirstMatch(Rules[10..], q) ==
            if AnyOf(q, ["revenue", "financial", "billing"]) then RevenueRoute
            else if AnyOf(q, ["leadership", "update", "snapshot", "board"]) then LeadershipRoute
            else if Contains(q, "how many") && Contains(q, "deal") then DealCountRoute
            else if Contains(q, "total size") || Contains(q, "total value") then TotalValueRoute
            else if Contains(q, "pipeline") then LatePipelineRoute
            else HelpRoute
  {
    var rs := Rules;
    FirstMatchAt(rs, 10, q);
    FirstMatchAt(rs, 11, q);
    FirstMatchAt(rs, 12, q);
    TwoWords(q, "how many", "deal");
    FirstMatchAt(rs, 13, q);
    TwoWords(q, "total size", "total value");
    FirstMatchAt(rs, 14, q);
    OneWord(q, "pipeline");
    assert rs[15..] == [];
  }

  /** No rule of the table routes to the help message. */
  lemma NoRuleIsHelp()
    ensures forall i :: 0 <= i < |Rules| ==> Rules[i].route != HelpRoute
  {
    var rs := Rules;
    forall i | 0 <= i < |rs|
      ensures rs[i].route != HelpRoute
    {
    }
  }

  /** Routing ignores letter case: the route of a query is the route of its
      lower-cased form. */
  lemma CaseInsensitive(query: string)
    ensures RouteQuery(query) == RouteQuery(Lower(query))
  {
    LowerIdempotent(query);
  }

  /** The help message answers exactly the queries that no test accepts. */
  lemma HelpIffNoRule(query: string)
    ensures RouteQuery(query) == HelpRoute <==>
            forall i :: 0 <= i < |Rules| ==> !Holds(Rules[i].guard, Lower(query))
  {
    ChainIsFirstMatch(Lower(query));
    NoRuleIsHelp();
    FirstMatchSpec(Rules, Lower(query));
  }

  /** "sector" together with "revenue" always gives the sector revenue
      breakdown, whatever else the query says. */
  lemma SectorRevenueFirst(query: string)
    requires Contains(Lower(query), "sector") && Contains(Lower(query), "revenue")
    ensures RouteQuery(query) == SectorRevenueRoute
  {
  }

  /** "month" beats every quarter keyword; the quarter keywords are tried
      in the order q1, q2, q3, q4, and "this quarter" means Q4. */
  lemma MonthThenQuarters(query: string)
    requires !(Contains(Lower(query), "sector") && Contains(Lower(query), "revenue"))
    ensures Contains(Lower(query), "month") ==> RouteQuery(query) == MonthRoute
    ensures !Contains(Lower(query), "month") && Contains(Lower(query), "q1") ==> RouteQuery(query) == QuarterRoute("Q1")
    ensures !Contains(Lower(query), "month") && !Contains(Lower(query), "q1") && Contains(Lower(query), "q2") ==>
              RouteQuery(query) == QuarterRoute("Q2")
    ensures (!Contains(Lower(query), "month") && !Contains(Lower(query), "q1") && !Contains(Lower(query), "q2") &&
             Contains(Lower(query), "q3")) ==> RouteQuery(query) == QuarterRoute("Q3")
    ensures (!Contains(Lower(query), "month") && !Contains(Lower(query), "q1") && !Contains(Lower(query), "q2") &&
             !Contains(Lower(query), "q3") && Contains(Lower(query), "q4")) ==>
              RouteQuery(query) == QuarterRoute("Q4")
    ensures (!Contains(Lower(query), "month") && !Contains(Lower(query), "q1") && !Contains(Lower(query), "q2") &&
             !Contains(Lower(query), "q3") && Contains(Lower(query), "this quarter")) ==>
              RouteQuery(query) == QuarterRoute("Q4")
  {
  }

  /** The words of the rules before the diversification rule. */
  predicate NoEarlierWord(q: string)
  {
    && !(Contains(q, "sector") && Contains(q, "revenue"))
    && !Contains(q, "month")
    && !Contains(q, "q1") && !Contains(q, "q2") && !Contains(q, "q3") && !Contains(q, "q4")
    && !Contains(q, "this quarter")
  }

  /** "breakdown" without the earlier keywords asks for sector dominance on
      the deals, with a chart, and never for the revenue summary. */
  lemma BreakdownMeansDominance(query: string)
    requires NoEarlierWord(Lower(query)) && Contains(Lower(query), "breakdown")
    ensures RouteQuery(query) == DiversificationRoute
    ensures ChartRequested(RouteQuery(query))
    ensures RouteQuery(query) != RevenueRoute
  {
    assert "breakdown" in ["diversified", "exposure", "breakdown"];
  }

  /** A risk word together with "pipeline", without the keywords of the
      earlier rules, gives concentration risk: the risk rule comes first. */
  lemma RiskBeforePipeline(query: string, w: string)
    requires w in ["risk", "concentration", "dependency"]
    requires NoEarlierWord(Lower(query)) && Contains(Lower(query), w) && Contains(Lower(query), "pipeline")
    requires !AnyOf(Lower(query), ["diversified", "exposure", "breakdown"])
    requires !AnyOf(Lower(query), ["dominates", "top sector"])
    ensures RouteQuery(query) == RiskRoute
  {
  }

  /** The deal-count branch and the second "pipeline" branch never answer:
      any query containing "deal" or "pipeline" is taken by an earlier rule. */
  lemma DeadBranches(query: string)
    ensures RouteQuery(query) != DealCountRoute
    ensures RouteQuery(query) != LatePipelineRoute
  {
    var q := Lower(query);
    if Contains(q, "deal") {
      assert AnyOf(q, ["pipeline", "deal", "opportunity"]) by {
        assert "deal" in ["pipeline", "deal", "opportunity"];
      }
    }
    if Contains(q, "pipeline") {
      assert AnyOf(q, ["pipeline", "deal", "opportunity"]) by {
        assert "pipeline" in ["pipeline", "deal", "opportunity"];
      }
    }
  }

  /** The chart is requested exactly when one of the two sector-dominance
      rules is the first to hold. */
  lemma ChartRule(query: string)
    ensures ChartRequested(RouteQuery(query)) <==>
            NoEarlierWord(Lower(query)) &&
            (AnyOf(Lower(query), ["diversified", "exposure", "breakdown"]) ||
             AnyOf(Lower(query), ["dominates", "top sector"]))
  {
  }

  // ---------------------------------------------------------------------
  // Answering
  // ---------------------------------------------------------------------

  const HelpText := "Please ask about pipeline, sector exposure, revenue breakdown, month, quarter, or leadership update."

  /** The data of the bar chart `show_sector_chart` draws: the deal groups by
      sector, largest first. Nothing is drawn when a column is missing, and
      nothing when the value column's name is empty, since `if sector_col and
      value_col` reads "" as false (a sector column's name contains "sector"
      and so is never empty). */
  function SectorChart(deals: Frame): (bars: Option<seq<Group>>)
    requires WellFormed(deals)
    ensures bars.Some? <==>
              SectorRevenueBreakdown(deals).SectorBreakdown? && deals.columns[ValueIndex(deals).value].name != ""
    ensures bars.Some? ==> bars.value == SectorRevenueBreakdown(deals).lines
  {
    if SectorIndex(deals).None? || ValueIndex(deals).None? || deals.columns[ValueIndex(deals).value].name == "" then None
    else Some(SortDescending(GroupsBy(deals, SectorIndex(deals).value)))
  }

  /** The response of a route, on the work-order and deal tables; the quarter
      routes call `quarter_revenue` as written. */
  function Dispatch(r: Route, work: Frame, deals: Frame): Outcome
    requires WellFormed(work) && WellFormed(deals)
  {
    match r
    case SectorRevenueRoute => Returned(SectorRevenueBreakdown(work))
    case MonthRoute => Returned(MonthWiseRevenue(work))
    case QuarterRoute(q) => QuarterRevenueAsWritten(work, q)
    case DiversificationRoute => SectorDominance(deals)
    case TopSectorRoute => SectorDominance(deals)
    case RiskRoute => ConcentrationRisk(deals)
    case PipelineRoute => Returned(PipelineSummary(deals))
    case RevenueRoute => Returned(RevenueSummary(work))
    case LeadershipRoute => LeadershipUpdateOf(work, deals)
    case DealCountRoute => Returned(DealCountOf(deals))
    case TotalValueRoute => PipelineValueOf(deals)
    case LatePipelineRoute => Returned(PipelineSummary(deals))
    case HelpRoute => Returned(Notice(HelpText))
  }

  /** One turn of the chat: the response, and the chart drawn beside it. */
  datatype Reply = Reply(outcome: Outcome, chart: Option<seq<Group>>)

  /** A dominance branch draws its chart only after `sector_dominance` has
      returned: when it raises, the turn ends before `show_sector_chart`. */
  function Answer(query: string, work: Frame, deals: Frame): (a: Reply)
    requires WellFormed(work) && WellFormed(deals)
    ensures a.outcome == Dispatch(RouteQuery(query), work, deals)
    ensures a.chart.Some? <==> ChartRequested(RouteQuery(query)) && a.outcome.Returned? && SectorChart(deals).Some?
    ensures a.chart.Some? ==> a.chart == SectorChart(deals)
  {
    var r := RouteQuery(query);
    var outcome := Dispatch(r, work, deals);
    Reply(outcome, if ChartRequested(r) && outcome.Returned? then SectorChart(deals) else None)
  }

  /** A chart is drawn only beside a sector exposure answer, and its first
      bar is as large as the leading sector the answer names. */
  lemma ChartBesideExposure(query: string, work: Frame, deals: Frame)
    requires WellFormed(work) && WellFormed(deals)
    ensures var a := Answer(query, work, deals);
      a.chart.Some? ==>
        && a.outcome.Returned? && a.outcome.response.SectorExposure?
        && Dominance(deals).Leading? && a.outcome.response.leading == Dominance(deals).top.key
        && |a.chart.value| > 0 && a.chart.value[0].total == Dominance(deals).top.total
  {
    var a := Answer(query, work, deals);
    if a.chart.Some? {
      var r := RouteQuery(query);
      assert r == DiversificationRoute || r == TopSectorRoute;
      assert a.outcome == SectorDominance(deals);
      assert SectorIndex(deals).Some? && ValueIndex(deals).Some?;
      assert Dominance(deals).Leading?;
      LeaderHeadsChart(deals);
    }
  }

  /** On a loaded work-order table a quarter question never gets a total:
      the chat answers it with `quarter_revenue` as written. */
  lemma QuarterTurnAfterLoad(query: string, items: seq<DataProcessor.Item>, parse: string -> DataProcessor.Parsed,
                             parseDate: Cell -> Option<Date>, deals: Frame)
    requires WellFormed(deals) && RouteQuery(query).QuarterRoute?
    ensures var work := LoadTable(items, parse, parseDate);
      WellFormed(work) && !(Answer(query, work, deals).outcome.Returned? && Answer(query, work, deals).outcome.response.QuarterTotal?)
  {
    DataProcessor.ConvertedRows(items);
    QuarterRevenueAsWrittenAfterClean(DataProcessor.Converted(items), parse, parseDate, RouteQuery(query).quarter);
  }

  /** Every quarter a query can name is one the quarter table knows, so a
      routed quarter question never fails on the quarter key. */
  lemma RoutedQuartersKnown(query: string)
    ensures RouteQuery(query).QuarterRoute? ==> RouteQuery(query).quarter in Quarters
  {
  }

  // ---------------------------------------------------------------------
  // Loading
  // ---------------------------------------------------------------------

  /** `load_data` after the fetch: build and clean one board's table. */
  function LoadTable(items: seq<DataProcessor.Item>, parse: string -> DataProcessor.Parsed,
                     parseDate: Cell -> Option<Date>): Frame
  {
    DataProcessor.Clean(DataProcessor.Converted(items), parse, parseDate)
  }

  /** A loaded table has one row per item and is well formed, so every
      insight can be asked of it. */
  lemma LoadedTable(items: seq<DataProcessor.Item>, parse: string -> DataProcessor.Parsed,
                    parseDate: Cell -> Option<Date>)
    ensures WellFormed(LoadTable(items, parse, parseDate))
    ensures LoadTable(items, parse, parseDate).height == |items|
  {
    DataProcessor.ConvertedRows(items);
    DataProcessor.CleanShape(DataProcessor.Converted(items), parse, parseDate);
  }

  /** As written, `quarter_revenue` can never report a total on a cleaned
      table: cleaning turns every column whose name contains "month" (the
      only column it filters on) into dates, and a date's text is never a
      month name. This holds however pandas parses numbers and dates. */
  lemma QuarterRevenueAsWrittenAfterClean(f: Frame, parse: string -> DataProcessor.Parsed,
                                          parseDate: Cell -> Option<Date>, q: string)
    requires WellFormed(f)
    ensures var g := DataProcessor.Clean(f, parse, parseDate);
      WellFormed(g) && !(QuarterRevenueAsWritten(g, q).Returned? && QuarterRevenueAsWritten(g, q).response.QuarterTotal?)
  {
    var g := DataProcessor.Clean(f, parse, parseDate);
    DataProcessor.CleanShape(f, parse, parseDate);
    CleanedMonthColumn(f, parse, parseDate);
    QuarterAnswerNothingPicked(g, q, NamedIn);
  }

  /** With the corrected filter, the four quarters of a cleaned table account
      for every dated row: their reported totals add up to the total of the
      rows whose month parsed as a date. */
  lemma QuarterRevenueAfterClean(f: Frame, parse: string -> DataProcessor.Parsed,
                                 parseDate: Cell -> Option<Date>)
    requires WellFormed(f)
    ensures var g := DataProcessor.Clean(f, parse, parseDate);
      && WellFormed(g)
      && (MonthIndex(g).Some? && ValueIndex(g).Some? ==>
            ReportedTotal(QuarterRevenue(g, "Q1")) + ReportedTotal(QuarterRevenue(g, "Q2"))
            + ReportedTotal(QuarterRevenue(g, "Q3")) + ReportedTotal(QuarterRevenue(g, "Q4"))
            == DatedTotal(g.columns[MonthIndex(g).value].cells, Values(g)))
  {
    var g := DataProcessor.Clean(f, parse, parseDate);
    DataProcessor.CleanShape(f, parse, parseDate);
    CleanedMonthColumn(f, parse, parseDate);
    if MonthIndex(g).Some? && ValueIndex(g).Some? {
      QuarterRevenueSplitsDates(g);
    }
  }

  /** After cleaning, the month column (if any) holds only dates and NaT. */
  lemma CleanedMonthColumn(f: Frame, parse: string -> DataProcessor.Parsed, parseDate: Cell -> Option<Date>)
    requires WellFormed(f)
    ensures var g := DataProcessor.Clean(f, parse, parseDate);
      MonthIndex(g).Some? ==>
        var m := MonthIndex(g).value;
        |g.columns[m].cells| == g.height &&
        forall i :: 0 <= i < g.height ==> !g.columns[m].cells[i].Text?
  {
    var g := DataProcessor.Clean(f, parse, parseDate);
    if MonthIndex(g).Some? {
      var m := MonthIndex(g).value;
      assert NameHas(g, m, "month");
      DataProcessor.CleanedDateColumn(f, parse, parseDate, m);
    }
  }
}
