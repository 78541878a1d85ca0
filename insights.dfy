/** The column detectors and the insight functions. Each insight resolves
    the columns it needs, answers with a fixed diagnostic when one is
    missing, and otherwise aggregates the value column. Answers are tagged
    values carrying the exact amounts; the text around them, the division
    by 1e9 and the rounding are not modelled. */
module Insights {
  import opened Seqs
  import opened Strings
  import opened Tables

  // ---------------------------------------------------------------------
  // Column detection
  // ---------------------------------------------------------------------

  /** The column at `j` has a lower-cased name containing `word`. */
  predicate NameHas(f: Frame, j: int, word: string)
    requires 0 <= j < |f.columns|
  {
    Contains(Lower(f.columns[j].name), word)
  }

  /** Index of the first column whose lower-cased name contains `word`. */
  function FirstNamed(f: Frame, word: string, from: nat): (r: Option<nat>)
    requires from <= |f.columns|
    ensures r.Some? ==> from <= r.value < |f.columns| && NameHas(f, r.value, word) &&
                        forall j :: from <= j < r.value ==> !NameHas(f, j, word)
    ensures r.None? <==> forall j :: from <= j < |f.columns| ==> !NameHas(f, j, word)
    decreases |f.columns| - from
  {
    if from == |f.columns| then None
    else if NameHas(f, from, word) then Some(from)
    else FirstNamed(f, word, from + 1)
  }

  /** `detect_sector_column`, as a column index. */
  function SectorIndex(f: Frame): Option<nat>
  {
    FirstNamed(f, "sector", 0)
  }

  /** `detect_month_column`, as a column index. */
  function MonthIndex(f: Frame): Option<nat>
  {
    FirstNamed(f, "month", 0)
  }

  /** `detect_value_column`: index of the first column of numeric dtype. */
  function ValueIndex(f: Frame, from: nat := 0): (r: Option<nat>)
    requires from <= |f.columns|
    ensures r.Some? ==> from <= r.value < |f.columns| && f.columns[r.value].kind == NumericKind &&
                        forall j :: from <= j < r.value ==> f.columns[j].kind != NumericKind
    ensures r.None? <==> forall j :: from <= j < |f.columns| ==> f.columns[j].kind != NumericKind
    decreases |f.columns| - from
  {
    if from == |f.columns| then None
    else if f.columns[from].kind == NumericKind then Some(from)
    else ValueIndex(f, from + 1)
  }

  /** The name a detector returns for a column index. */
  function NameOf(f: Frame, r: Option<nat>): Option<string>
    requires r.Some? ==> r.value < |f.columns|
  {
    if r.Some? then Some(f.columns[r.value].name) else None
  }

  /** The loop shared by `detect_sector_column` and `detect_month_column`:
      return the first column whose lower-cased name contains `word`. */
  method FirstColumnContaining(f: Frame, word: string) returns (r: Option<string>)
    ensures r.None? <==> forall j :: 0 <= j < |f.columns| ==> !NameHas(f, j, word)
    ensures r.Some? ==> exists j :: 0 <= j < |f.columns| && f.columns[j].name == r.value &&
                                    NameHas(f, j, word) && forall j' :: 0 <= j' < j ==> !NameHas(f, j', word)
    ensures r == NameOf(f, FirstNamed(f, word, 0))
  {
    var j := 0;
    while j < |f.columns|
      invariant 0 <= j <= |f.columns|
      invariant FirstNamed(f, word, 0) == FirstNamed(f, word, j)
    {
      if Contains(Lower(f.columns[j].name), word) {
        return Some(f.columns[j].name);
      }
      j := j + 1;
    }
    return None;
  }

  method DetectSectorColumn(f: Frame) returns (r: Option<string>)
    ensures r == NameOf(f, SectorIndex(f))
  {
    r := FirstColumnContaining(f, "sector");
  }

  method DetectMonthColumn(f: Frame) returns (r: Option<string>)
    ensures r == NameOf(f, MonthIndex(f))
  {
    r := FirstColumnContaining(f, "month");
  }

  // ---------------------------------------------------------------------
  // Grouping and sums
  // ---------------------------------------------------------------------

  /** One entry of `df.groupby(key)[value].sum()`. */
  datatype Group = Group(key: Cell, total: real)

  /** The distinct non-missing keys, in order of first occurrence (pandas
      drops the rows whose key is NaN). */
  function GroupKeys(keys: seq<Cell>): seq<Cell>
    decreases |keys|
  {
    if keys == [] then []
    else
      var d := GroupKeys(keys[..|keys| - 1]);
      var k := keys[|keys| - 1];
      if k.Missing? || k in d then d else d + [k]
  }

  /** The sum of the values of the rows whose key is `k`. */
  function GroupSum(keys: seq<Cell>, vals: seq<Cell>, k: Cell): real
    requires |keys| == |vals|
    decreases |keys|
  {
    if keys == [] then 0.0
    else
      var n := |keys| - 1;
      GroupSum(keys[..n], vals[..n], k) + (if keys[n] == k then Amount(vals[n]) else 0.0)
  }

  /** `df.groupby(key)[value].sum()`: one group per distinct non-missing key. */
  function Groups(keys: seq<Cell>, vals: seq<Cell>): (gs: seq<Group>)
    requires |keys| == |vals|
    ensures |gs| == |GroupKeys(keys)|
    ensures forall i :: 0 <= i < |gs| ==> gs[i] == Group(GroupKeys(keys)[i], GroupSum(keys, vals, GroupKeys(keys)[i]))
  {
    var ks := GroupKeys(keys);
    seq(|ks|, i requires 0 <= i < |ks| => Group(ks[i], GroupSum(keys, vals, ks[i])))
  }

  /** The groups are exactly the distinct non-missing keys. */
  lemma {:induction false} GroupKeysElements(keys: seq<Cell>)
    ensures Distinct(GroupKeys(keys))
    ensures forall k :: k in GroupKeys(keys) <==> k in keys && !k.Missing?
    decreases |keys|
  {
    if keys != [] {
      GroupKeysElements(keys[..|keys| - 1]);
      assert keys == keys[..|keys| - 1] + [keys[|keys| - 1]];
    }
  }

  /** A key no row carries sums to nothing. */
  lemma {:induction false} GroupSumAbsent(keys: seq<Cell>, vals: seq<Cell>, k: Cell)
    requires |keys| == |vals| && k !in keys
    ensures GroupSum(keys, vals, k) == 0.0
    decreases |keys|
  {
    if keys != [] {
      GroupSumAbsent(keys[..|keys| - 1], vals[..|keys| - 1], k);
    }
  }

  /** The total of the rows whose key is not missing. */
  function KeyedTotal(keys: seq<Cell>, vals: seq<Cell>): real
    requires |keys| == |vals|
    decreases |keys|
  {
    if keys == [] then 0.0
    else
      var n := |keys| - 1;
      KeyedTotal(keys[..n], vals[..n]) + (if keys[n].Missing? then 0.0 else Amount(vals[n]))
  }

  /** The sum of the group sums of the keys `ks`. */
  function SumOver(ks: seq<Cell>, keys: seq<Cell>, vals: seq<Cell>): real
    requires |keys| == |vals|
    decreases |ks|
  {
    if ks == [] then 0.0 else SumOver(ks[..|ks| - 1], keys, vals) + GroupSum(keys, vals, ks[|ks| - 1])
  }

  /** Adding one row adds its value to the sum over `ks` when its key is one of them. */
  lemma {:induction false} SumOverStep(ks: seq<Cell>, keys: seq<Cell>, vals: seq<Cell>)
    requires |keys| == |vals| && |keys| > 0 && Distinct(ks)
    ensures var n := |keys| - 1;
      SumOver(ks, keys, vals) ==
      SumOver(ks, keys[..n], vals[..n]) + (if keys[n] in ks then Amount(vals[n]) else 0.0)
    decreases |ks|
  {
    if ks != [] {
      var init := ks[..|ks| - 1];
      assert Distinct(init);
      SumOverStep(init, keys, vals);
      assert keys[|keys| - 1] in ks <==> keys[|keys| - 1] in init || keys[|keys| - 1] == ks[|ks| - 1] by {
        assert ks == init + [ks[|ks| - 1]];
      }
      assert ks[|ks| - 1] !in init;
    }
  }

  /** The group sums add up to the total of the rows that have a key: no row
      is lost (except those whose key is NaN) and none is counted twice. */
  lemma {:induction false} GroupsPartition(keys: seq<Cell>, vals: seq<Cell>)
    requires |keys| == |vals|
    ensures SumOver(GroupKeys(keys), keys, vals) == KeyedTotal(keys, vals)
    decreases |keys|
  {
    if keys != [] {
      var n := |keys| - 1;
      var k := keys[n];
      var d := GroupKeys(keys[..n]);
      GroupsPartition(keys[..n], vals[..n]);
      GroupKeysElements(keys[..n]);
      SumOverStep(d, keys, vals);
      if !k.Missing? && k !in d {
        assert k !in keys[..n];
        GroupSumAbsent(keys[..n], vals[..n], k);
        assert (d + [k])[..|d|] == d;
      }
    }
  }

  /** With no missing key, the keyed total is the column total. */
  lemma {:induction false} KeyedTotalAll(keys: seq<Cell>, vals: seq<Cell>)
    requires |keys| == |vals|
    requires forall i :: 0 <= i < |keys| ==> !keys[i].Missing?
    ensures KeyedTotal(keys, vals) == Total(vals)
    decreases |keys|
  {
    if keys != [] {
      KeyedTotalAll(keys[..|keys| - 1], vals[..|keys| - 1]);
    }
  }

  function Totals(gs: seq<Group>): real
    decreases |gs|
  {
    if gs == [] then 0.0 else gs[0].total + Totals(gs[1..])
  }

  /** Index of the first largest group: `summary.idxmax()`. */
  function TopIndex(gs: seq<Group>): (t: nat)
    requires |gs| > 0
    ensures t < |gs|
    ensures forall i :: 0 <= i < |gs| ==> gs[i].total <= gs[t].total
    ensures forall i :: 0 <= i < t ==> gs[i].total < gs[t].total
    decreases |gs|
  {
    if |gs| == 1 then 0
    else
      var t := TopIndex(gs[..|gs| - 1]);
      if gs[|gs| - 1].total > gs[t].total then |gs| - 1 else t
  }

  /** `(top / total) * 100 if total != 0 else 0`. */
  function Share(top: real, total: real): real
  {
    if total != 0.0 then top / total * 100.0 else 0.0
  }

  /** Non-increasing in group total. */
  predicate Descending(gs: seq<Group>)
  {
    forall i, j :: 0 <= i < j < |gs| ==> gs[i].total >= gs[j].total
  }

  function Insert(g: Group, gs: seq<Group>): seq<Group>
    decreases |gs|
  {
    if gs == [] || g.total >= gs[0].total then [g] + gs
    else [gs[0]] + Insert(g, gs[1..])
  }

  /** `sort_values(ascending=False)`. */
  function SortDescending(gs: seq<Group>): seq<Group>
    decreases |gs|
  {
    if gs == [] then [] else Insert(gs[0], SortDescending(gs[1..]))
  }

  lemma {:induction false} InsertElements(g: Group, gs: seq<Group>)
    ensures multiset(Insert(g, gs)) == multiset([g] + gs)
    ensures forall x :: x in Insert(g, gs) <==> x == g || x in gs
    ensures Totals(Insert(g, gs)) == g.total + Totals(gs)
    decreases |gs|
  {
    if gs != [] && g.total < gs[0].total {
      InsertElements(g, gs[1..]);
      assert gs == [gs[0]] + gs[1..];
    }
  }

  /** Putting a group no smaller than any other in front keeps the order. */
  lemma DescendingCons(x: Group, rest: seq<Group>)
    requires Descending(rest)
    requires forall y :: y in rest ==> y.total <= x.total
    ensures Descending([x] + rest)
  {
    var r := [x] + rest;
    forall i, j | 0 <= i < j < |r|
      ensures r[i].total >= r[j].total
    {
      assert r[j] == rest[j - 1];
      if i > 0 {
        assert r[i] == rest[i - 1];
      }
    }
  }

  lemma {:induction false} InsertDescending(g: Group, gs: seq<Group>)
    requires Descending(gs)
    ensures Descending(Insert(g, gs))
    decreases |gs|
  {
    if gs == [] || g.total >= gs[0].total {
      forall y | y in gs
        ensures y.total <= g.total
      {
        var j :| 0 <= j < |gs| && gs[j] == y;
        assert gs[0].total >= gs[j].total || j == 0;
      }
      DescendingCons(g, gs);
    } else {
      var rest := Insert(g, gs[1..]);
      assert Descending(gs[1..]) by {
        forall i, j | 0 <= i < j < |gs[1..]|
          ensures gs[1..][i].total >= gs[1..][j].total
        {
          assert gs[1..][i] == gs[i + 1] && gs[1..][j] == gs[j + 1];
        }
      }
      InsertDescending(g, gs[1..]);
      InsertElements(g, gs[1..]);
      forall y | y in rest
        ensures y.total <= gs[0].total
      {
        if y != g {
          var j :| 0 <= j < |gs[1..]| && gs[1..][j] == y;
          assert gs[j + 1] == y;
        }
      }
      DescendingCons(gs[0], rest);
    }
  }

  /** Sorting yields the same groups, non-increasing in total, with the same sum. */
  lemma {:induction false} SortDescendingProperties(gs: seq<Group>)
    ensures Descending(SortDescending(gs))
    ensures multiset(SortDescending(gs)) == multiset(gs)
    ensures Totals(SortDescending(gs)) == Totals(gs)
    decreases |gs|
  {
    if gs != [] {
      var rest := SortDescending(gs[1..]);
      SortDescendingProperties(gs[1..]);
      InsertElements(gs[0], rest);
      InsertDescending(gs[0], rest);
      assert gs == [gs[0]] + gs[1..];
      calc {
        multiset(SortDescending(gs));
        multiset(Insert(gs[0], rest));
        multiset([gs[0]] + rest);
        multiset([gs[0]]) + multiset(rest);
        multiset([gs[0]]) + multiset(gs[1..]);
        multiset(gs);
      }
    }
  }

  /** Every row's value counts toward the group of its key, so a group sum
      never exceeds the column total when no value is negative. */
  lemma {:induction false} GroupSumBounds(keys: seq<Cell>, vals: seq<Cell>, k: Cell)
    requires |keys| == |vals|
    requires forall i :: 0 <= i < |vals| ==> Amount(vals[i]) >= 0.0
    ensures 0.0 <= GroupSum(keys, vals, k) <= Total(vals)
    decreases |keys|
  {
    if keys != [] {
      GroupSumBounds(keys[..|keys| - 1], vals[..|keys| - 1], k);
    }
  }

  // ---------------------------------------------------------------------
  // Answers
  // ---------------------------------------------------------------------

  /** What an insight function returns, with the amounts it would print. */
  datatype Response =
    | Notice(text: string)
    | PipelineHealth(deals: nat, value: real)
    | SectorExposure(leading: Cell, percentage: real)
    | HighConcentration(top: Cell, percentage: real)
    | NoSignificantConcentration(top: Cell, percentage: real)
    | RevenueSnapshot(total: real)
    | SectorBreakdown(lines: seq<Group>)
    | MonthBreakdown(lines: seq<Group>)
    | QuarterNoRecords(quarter: string)
    | QuarterTotal(quarter: string, total: real)
    | LeadershipUpdate(pipeline: Response, risk: Response, revenue: Response)
    | DealCount(deals: nat)
    | PipelineValue(total: real)

  /** The exceptions an insight function can raise. */
  datatype Failure =
    | EmptyArgmax              // `idxmax` of an empty group summary
    | UnknownQuarter(q: string) // `quarter_map[quarter]` with another key
    | NoneColumn               // `df[None]` when no value column exists

  datatype Outcome = Returned(response: Response) | Raised(failure: Failure)

  const NoDealValue := "No numeric deal value column detected."
  const NoSectorOrValue := "Sector or value column not detected."
  const NoFinancial := "No financial column detected."
  const NoSectorOrRevenue := "Sector or revenue column not detected."
  const NoMonthOrRevenue := "Month or revenue column not detected."

  /** The cells of the value column. */
  function Values(f: Frame): seq<Cell>
    requires ValueIndex(f).Some?
  {
    f.columns[ValueIndex(f).value].cells
  }

  /** `df[value_col].sum()`. */
  function ValueTotal(f: Frame): real
    requires ValueIndex(f).Some?
  {
    Total(Values(f))
  }

  /** `df.groupby(key_col)[value_col].sum()` for the column at `key`. */
  function GroupsBy(f: Frame, key: nat): seq<Group>
    requires WellFormed(f) && key < |f.columns| && ValueIndex(f).Some?
  {
    Groups(f.columns[key].cells, Values(f))
  }

  /** `pipeline_summary`: the number of deals and the total deal value, or
      the diagnostic when no column is numeric. */
  function PipelineSummary(f: Frame): (r: Response)
    ensures r.Notice? <==> ValueIndex(f).None?
    ensures r.Notice? ==> r.text == NoDealValue
    ensures r.Notice? || r.PipelineHealth?
    ensures r.PipelineHealth? ==> r.deals == f.height && r.value == ValueTotal(f)
  {
    if ValueIndex(f).None? then Notice(NoDealValue)
    else PipelineHealth(f.height, ValueTotal(f))
  }

  /** The leading group shared by `sector_dominance` and `concentration_risk`. */
  datatype Leader = NotDetected | NoGroups | Leading(top: Group, share: real)

  /** The group with the largest sum and its share of the value total. The
      share is 0 when the total is 0; with no group there is no leader. */
  function Dominance(f: Frame): (d: Leader)
    requires WellFormed(f)
    ensures d.NotDetected? <==> SectorIndex(f).None? || ValueIndex(f).None?
    ensures d.NoGroups? <==> !d.NotDetected? && GroupsBy(f, SectorIndex(f).value) == []
    ensures d.Leading? ==>
      var gs := GroupsBy(f, SectorIndex(f).value);
      && d.top in gs
      && (forall g :: g in gs ==> g.total <= d.top.total)
      && d.share == (if ValueTotal(f) != 0.0 then d.top.total / ValueTotal(f) * 100.0 else 0.0)
  {
    if SectorIndex(f).None? || ValueIndex(f).None? then NotDetected
    else
      var gs := GroupsBy(f, SectorIndex(f).value);
      if gs == [] then NoGroups
      else
        var top := gs[TopIndex(gs)];
        Leading(top, Share(top.total, ValueTotal(f)))
  }

  /** `sector_dominance`. */
  function SectorDominance(f: Frame): (r: Outcome)
    requires WellFormed(f)
    ensures r == Returned(Notice(NoSectorOrValue)) <==> SectorIndex(f).None? || ValueIndex(f).None?
    ensures r.Raised? <==>
              SectorIndex(f).Some? && ValueIndex(f).Some? && GroupsBy(f, SectorIndex(f).value) == []
    ensures r.Raised? ==> r.failure == EmptyArgmax
    ensures r.Returned? ==> r.response.Notice? || r.response.SectorExposure?
    ensures r.Returned? && r.response.Notice? ==> r.response.text == NoSectorOrValue
    ensures r.Returned? && r.response.SectorExposure? ==>
              SectorIndex(f).Some? && ValueIndex(f).Some? &&
              var gs := GroupsBy(f, SectorIndex(f).value);
              exists g :: g in gs && g.key == r.response.leading &&
                (forall h :: h in gs ==> h.total <= g.total) &&
                r.response.percentage == Share(g.total, ValueTotal(f))
  {
    match Dominance(f)
    case NotDetected => Returned(Notice(NoSectorOrValue))
    case NoGroups => Raised(EmptyArgmax)
    case Leading(top, share) => Returned(SectorExposure(top.key, share))
  }

  /** The fixed concentration threshold, in percent. */
  const Threshold: real := 50.0

  /** `concentration_risk`. */
  function ConcentrationRisk(f: Frame): (r: Outcome)
    requires WellFormed(f)
    ensures r == Returned(Notice(NoSectorOrValue)) <==> SectorIndex(f).None? || ValueIndex(f).None?
    ensures r.Raised? <==>
              SectorIndex(f).Some? && ValueIndex(f).Some? && GroupsBy(f, SectorIndex(f).value) == []
    ensures r.Raised? ==> r.failure == EmptyArgmax
    ensures r.Returned? ==>
              r.response.Notice? || r.response.HighConcentration? || r.response.NoSignificantConcentration?
    ensures r.Returned? && r.response.Notice? ==> r.response.text == NoSectorOrValue
  {
    match Dominance(f)
    case NotDetected => Returned(Notice(NoSectorOrValue))
    case NoGroups => Raised(EmptyArgmax)
    case Leading(top, share) =>
      if share > Threshold then Returned(HighConcentration(top.key, share))
      else Returned(NoSignificantConcentration(top.key, share))
  }

  /** The risk is high exactly when the leading share is strictly above 50%;
      a share of exactly 50% and a zero total are not; both answers name the
      same leading sector as `sector_dominance`, with the same share. */
  lemma ConcentrationClassification(f: Frame)
    requires WellFormed(f)
    ensures ConcentrationRisk(f) == Returned(Notice(NoSectorOrValue)) <==> SectorIndex(f).None? || ValueIndex(f).None?
    ensures ConcentrationRisk(f).Returned? && ConcentrationRisk(f).response.HighConcentration? <==>
            Dominance(f).Leading? && Dominance(f).share > 50.0
    ensures Dominance(f).Leading? && (Dominance(f).share == 50.0 || ValueTotal(f) == 0.0) ==>
            ConcentrationRisk(f) == Returned(NoSignificantConcentration(Dominance(f).top.key, Dominance(f).share))
    ensures SectorDominance(f).Returned? && SectorDominance(f).response.SectorExposure? ==>
            ConcentrationRisk(f).Returned? &&
            var risk := ConcentrationRisk(f).response;
            (risk.HighConcentration? || risk.NoSignificantConcentration?) &&
            risk.top == SectorDominance(f).response.leading &&
            risk.percentage == SectorDominance(f).response.percentage
    ensures SectorDominance(f).Raised? <==> ConcentrationRisk(f).Raised?
  {
  }

  /** With no negative value, the leading share is a percentage: between 0 and 100. */
  lemma ShareIsPercentage(f: Frame)
    requires WellFormed(f) && Dominance(f).Leading?
    requires forall i :: 0 <= i < |Values(f)| ==> Amount(Values(f)[i]) >= 0.0
    ensures 0.0 <= Dominance(f).share <= 100.0
  {
    var keys := f.columns[SectorIndex(f).value].cells;
    var d := Dominance(f);
    var gs := GroupsBy(f, SectorIndex(f).value);
    var i :| 0 <= i < |gs| && gs[i] == d.top;
    assert d.top.total == GroupSum(keys, Values(f), d.top.key);
    GroupSumBounds(keys, Values(f), d.top.key);
    if ValueTotal(f) != 0.0 {
      PartOfWhole(d.top.total, ValueTotal(f));
    }
  }

  /** The largest line of the sector breakdown has the leader's sum. */
  lemma LeaderHeadsChart(f: Frame)
    requires WellFormed(f) && Dominance(f).Leading?
    ensures var lines := SortDescending(GroupsBy(f, SectorIndex(f).value));
      |lines| > 0 && lines[0].total == Dominance(f).top.total
  {
    var gs := GroupsBy(f, SectorIndex(f).value);
    var lines := SortDescending(gs);
    SortDescendingProperties(gs);
    assert Dominance(f).top in multiset(lines);
    assert lines[0] in multiset(gs);
  }

  /** A part of a positive whole is at most 100 percent of it. */
  lemma PartOfWhole(x: real, t: real)
    requires 0.0 <= x <= t && t != 0.0
    ensures 0.0 <= x / t * 100.0 <= 100.0
  {
    var q := x / t;
    assert q * t == x;
  }

  /** `revenue_summary`: the total of the value column. */
  function RevenueSummary(f: Frame): (r: Response)
    ensures r.Notice? <==> ValueIndex(f).None?
    ensures r.Notice? ==> r.text == NoFinancial
    ensures r.Notice? || r.RevenueSnapshot?
    ensures r.RevenueSnapshot? ==> r.total == ValueTotal(f)
  {
    if ValueIndex(f).None? then Notice(NoFinancial) else RevenueSnapshot(ValueTotal(f))
  }

  /** `sector_revenue_breakdown`: one line per sector, largest first. */
  function SectorRevenueBreakdown(f: Frame): (r: Response)
    requires WellFormed(f)
    ensures r.Notice? <==> SectorIndex(f).None? || ValueIndex(f).None?
    ensures r.Notice? ==> r.text == NoSectorOrRevenue
    ensures r.Notice? || r.SectorBreakdown?
    ensures r.SectorBreakdown? ==> r.lines == SortDescending(GroupsBy(f, SectorIndex(f).value))
  {
    if SectorIndex(f).None? || ValueIndex(f).None? then Notice(NoSectorOrRevenue)
    else SectorBreakdown(SortDescending(GroupsBy(f, SectorIndex(f).value)))
  }

  /** `month_wise_revenue`: one line per month value, largest first. */
  function MonthWiseRevenue(f: Frame): (r: Response)
    requires WellFormed(f)
    ensures r.Notice? <==> MonthIndex(f).None? || ValueIndex(f).None?
    ensures r.Notice? ==> r.text == NoMonthOrRevenue
    ensures r.Notice? || r.MonthBreakdown?
    ensures r.MonthBreakdown? ==> r.lines == SortDescending(GroupsBy(f, MonthIndex(f).value))
  {
    if MonthIndex(f).None? || ValueIndex(f).None? then Notice(NoMonthOrRevenue)
    else MonthBreakdown(SortDescending(GroupsBy(f, MonthIndex(f).value)))
  }

  /** What a breakdown lists for the key column at `key`: every distinct
      non-missing key exactly once, with its sum, in non-increasing order of
      sum, the sums adding up to the total of the rows that have a key. */
  lemma BreakdownLines(f: Frame, key: nat)
    requires WellFormed(f) && key < |f.columns| && ValueIndex(f).Some?
    ensures var lines := SortDescending(GroupsBy(f, key));
      var keys := f.columns[key].cells;
      && Descending(lines)
      && multiset(lines) == multiset(GroupsBy(f, key))
      && (forall k :: (exists g :: g in lines && g.key == k) <==> k in keys && !k.Missing?)
      && (forall g :: g in lines ==> g.total == GroupSum(keys, Values(f), g.key))
      && (forall i, j :: 0 <= i < j < |lines| ==> lines[i].key != lines[j].key)
      && Totals(lines) == KeyedTotal(keys, Values(f))
  {
    var keys := f.columns[key].cells;
    SortDescendingProperties(Groups(keys, Values(f)));
    SortedGroupsKeys(keys, Values(f));
    SortedGroupsSums(keys, Values(f));
    SortedGroupsDistinct(keys, Values(f));
    SortedGroupsTotal(keys, Values(f));
  }

  /** The sorted groups name every distinct non-missing key and no other. */
  lemma SortedGroupsKeys(keys: seq<Cell>, vals: seq<Cell>)
    requires |keys| == |vals|
    ensures var lines := SortDescending(Groups(keys, vals));
      forall k :: (exists g :: g in lines && g.key == k) <==> k in keys && !k.Missing?
  {
    var gs := Groups(keys, vals);
    var lines := SortDescending(gs);
    SortDescendingProperties(gs);
    GroupKeysElements(keys);
    forall k
      ensures (exists g :: g in lines && g.key == k) <==> k in keys && !k.Missing?
    {
      if k in keys && !k.Missing? {
        var i :| 0 <= i < |GroupKeys(keys)| && GroupKeys(keys)[i] == k;
        assert gs[i] in multiset(lines);
        assert gs[i] in lines && gs[i].key == k;
      }
      if g :| g in lines && g.key == k {
        assert g in multiset(gs);
        var i :| 0 <= i < |gs| && gs[i] == g;
        assert GroupKeys(keys)[i] == k;
      }
    }
  }

  /** Each sorted group carries the sum of the rows with its key. */
  lemma SortedGroupsSums(keys: seq<Cell>, vals: seq<Cell>)
    requires |keys| == |vals|
    ensures var lines := SortDescending(Groups(keys, vals));
      forall g :: g in lines ==> g.total == GroupSum(keys, vals, g.key)
  {
    var gs := Groups(keys, vals);
    var lines := SortDescending(gs);
    SortDescendingProperties(gs);
    forall g | g in lines
      ensures g.total == GroupSum(keys, vals, g.key)
    {
      assert g in multiset(gs);
      var i :| 0 <= i < |gs| && gs[i] == g;
    }
  }

  /** No key is listed twice. */
  lemma SortedGroupsDistinct(keys: seq<Cell>, vals: seq<Cell>)
    requires |keys| == |vals|
    ensures var lines := SortDescending(Groups(keys, vals));
      forall i, j :: 0 <= i < j < |lines| ==> lines[i].key != lines[j].key
  {
    var gs := Groups(keys, vals);
    var lines := SortDescending(gs);
    SortDescendingProperties(gs);
    GroupKeysElements(keys);
    forall i, j | 0 <= i < j < |lines|
      ensures lines[i].key != lines[j].key
    {
      DistinctKeysInLines(gs, lines, i, j, GroupKeys(keys));
    }
  }

  /** The listed sums add up to the total of the rows that have a key. */
  lemma SortedGroupsTotal(keys: seq<Cell>, vals: seq<Cell>)
    requires |keys| == |vals|
    ensures Totals(SortDescending(Groups(keys, vals))) == KeyedTotal(keys, vals)
  {
    SortDescendingProperties(Groups(keys, vals));
    GroupsPartition(keys, vals);
    GroupsTotals(GroupKeys(keys), keys, vals);
  }

  /** The totals of the groups of `ks` add up to the sum over `ks`. */
  lemma {:induction false} GroupsTotals(ks: seq<Cell>, keys: seq<Cell>, vals: seq<Cell>)
    requires |keys| == |vals|
    ensures Totals(seq(|ks|, i requires 0 <= i < |ks| => Group(ks[i], GroupSum(keys, vals, ks[i])))) == SumOver(ks, keys, vals)
    decreases |ks|
  {
    var gs := seq(|ks|, i requires 0 <= i < |ks| => Group(ks[i], GroupSum(keys, vals, ks[i])));
    if ks != [] {
      var init := ks[..|ks| - 1];
      GroupsTotals(init, keys, vals);
      var gi := seq(|init|, i requires 0 <= i < |init| => Group(init[i], GroupSum(keys, vals, init[i])));
      assert gs == gi + [gs[|gs| - 1]];
      TotalsAppend(gi, gs[|gs| - 1]);
    }
  }

  lemma {:induction false} TotalsAppend(gs: seq<Group>, g: Group)
    ensures Totals(gs + [g]) == Totals(gs) + g.total
    decreases |gs|
  {
    if gs == [] {
      assert gs + [g] == [g];
    } else {
      assert (gs + [g])[1..] == gs[1..] + [g];
      TotalsAppend(gs[1..], g);
    }
  }

  /** A permutation of groups with distinct keys has distinct keys. */
  lemma DistinctKeysInLines(gs: seq<Group>, lines: seq<Group>, i: nat, j: nat, ks: seq<Cell>)
    requires multiset(lines) == multiset(gs)
    requires |gs| == |ks| && Distinct(ks)
    requires forall n :: 0 <= n < |gs| ==> gs[n].key == ks[n]
    requires i < j < |lines|
    ensures lines[i].key != lines[j].key
  {
    assert lines[i] in multiset(gs) && lines[j] in multiset(gs);
    var a :| 0 <= a < |gs| && gs[a] == lines[i];
    var b :| 0 <= b < |gs| && gs[b] == lines[j];
    if a == b {
      assert lines[i] == lines[j];
      assert multiset(lines)[lines[i]] >= 2 by {
        assert lines == lines[..i] + [lines[i]] + lines[i + 1..j] + [lines[j]] + lines[j + 1..];
      }
      MultisetOfDistinctKeys(gs, ks, a);
    }
  }

  /** A group of a list with distinct keys occurs once in it. */
  lemma {:induction false} MultisetOfDistinctKeys(gs: seq<Group>, ks: seq<Cell>, a: nat)
    requires |gs| == |ks| && Distinct(ks) && a < |gs|
    requires forall n :: 0 <= n < |gs| ==> gs[n].key == ks[n]
    ensures multiset(gs)[gs[a]] == 1
    decreases |gs|
  {
    var x := gs[a];
    var n := |gs| - 1;
    assert gs == gs[..n] + [gs[n]];
    if a == n {
      forall m | 0 <= m < n
        ensures gs[m] != x
      {
        assert ks[m] != ks[n];
      }
      assert x !in gs[..n];
    } else {
      assert Distinct(ks[..n]);
      MultisetOfDistinctKeys(gs[..n], ks[..n], a);
      assert gs[n] != x by {
        assert ks[a] != ks[n];
      }
    }
  }

  // ---------------------------------------------------------------------
  // Quarters
  // ---------------------------------------------------------------------

  /** `quarter_map[quarter]`; any other key raises. */
  function QuarterNames(q: string): Option<seq<string>>
  {
    if q == "Q1" then Some(["january", "jan", "february", "feb", "march", "mar"])
    else if q == "Q2" then Some(["april", "apr", "may", "june", "jun"])
    else if q == "Q3" then Some(["july", "jul", "august", "aug", "september", "sep"])
    else if q == "Q4" then Some(["october", "oct", "november", "nov", "december", "dec"])
    else None
  }

  const Quarters: seq<string> := ["Q1", "Q2", "Q3", "Q4"]

  const FullMonths: seq<string> :=
    ["january", "february", "march", "april", "may", "june",
     "july", "august", "september", "october", "november", "december"]

  const ShortMonths: seq<string> :=
    ["jan", "feb", "mar", "apr", "may", "jun", "jul", "aug", "sep", "oct", "nov", "dec"]

  /** The quarter table: only Q1-Q4 have lists; the lists are pairwise
      disjoint and together hold every full and every three-letter month
      name and nothing else; Q2 has five entries because "may" is both. */
  lemma QuarterTable()
    ensures forall q :: QuarterNames(q).Some? <==> q in Quarters
    ensures forall a, b, x :: a in Quarters && b in Quarters && a != b && x in QuarterNames(a).value ==>
              x !in QuarterNames(b).value
    ensures forall m :: m in FullMonths || m in ShortMonths ==>
              exists q :: q in Quarters && m in QuarterNames(q).value
    ensures forall q, m :: q in Quarters && m in QuarterNames(q).value ==> m in FullMonths || m in ShortMonths
    ensures |QuarterNames("Q2").value| == 5
  {
    QuarterKeys();
    QuartersDisjoint();
    QuartersCover();
    QuartersHoldMonths();
  }

  lemma QuarterKeys()
    ensures forall q :: QuarterNames(q).Some? <==> q in Quarters
  {
  }

  lemma QuartersDisjoint()
    ensures forall a, b, x :: a in Quarters && b in Quarters && a != b && x in QuarterNames(a).value ==>
              x !in QuarterNames(b).value
  {
    forall a, b, x | a in Quarters && b in Quarters && a != b && x in QuarterNames(a).value
      ensures x !in QuarterNames(b).value
    {
    }
  }

  lemma QuartersCover()
    ensures forall m :: m in FullMonths || m in ShortMonths ==>
              exists q :: q in Quarters && m in QuarterNames(q).value
  {
    forall m | m in FullMonths || m in ShortMonths
      ensures exists q :: q in Quarters && m in QuarterNames(q).value
    {
      if m in QuarterNames("Q1").value {
        assert "Q1" in Quarters;
      } else if m in QuarterNames("Q2").value {
        assert "Q2" in Quarters;
      } else if m in QuarterNames("Q3").value {
        assert "Q3" in Quarters;
      } else {
        assert "Q4" in Quarters;
      }
    }
  }

  lemma QuartersHoldMonths()
    ensures forall q, m :: q in Quarters && m in QuarterNames(q).value ==> m in FullMonths || m in ShortMonths
  {
  }

  /** `astype(str).str.strip().str.lower()` as far as month names go: a text
      cell gives its trimmed, lower-cased text. The text pandas gives any other
      cell ("nan", "NaT", "2024-01-31", "100.0") is never a month name. */
  function MonthText(c: Cell): Option<string>
  {
    if c.Text? then Some(Lower(Strip(c.s))) else None
  }

  /** The row filter of `quarter_revenue` as written: `isin(quarter_map[quarter])`. */
  predicate NamedIn(c: Cell, q: string)
  {
    MonthText(c).Some? && QuarterNames(q).Some? && MonthText(c).value in QuarterNames(q).value
  }

  /** The sum of the values of the rows whose month cell is picked. */
  function PickedTotal(months: seq<Cell>, vals: seq<Cell>, pick: Cell -> bool): real
    requires |months| == |vals|
    decreases |months|
  {
    if months == [] then 0.0
    else
      var n := |months| - 1;
      PickedTotal(months[..n], vals[..n], pick) + (if pick(months[n]) then Amount(vals[n]) else 0.0)
  }

  /** Rows that are not picked contribute nothing. */
  lemma {:induction false} PickedTotalNone(months: seq<Cell>, vals: seq<Cell>, pick: Cell -> bool)
    requires |months| == |vals|
    requires forall i :: 0 <= i < |months| ==> !pick(months[i])
    ensures PickedTotal(months, vals, pick) == 0.0
    decreases |months|
  {
    if months != [] {
      PickedTotalNone(months[..|months| - 1], vals[..|months| - 1], pick);
    }
  }

  /** The sum of the values of the rows whose month cell `pick` places in `q`. */
  function QuarterSum(months: seq<Cell>, vals: seq<Cell>, q: string, pick: (Cell, string) -> bool): real
    requires |months| == |vals|
  {
    PickedTotal(months, vals, c => pick(c, q))
  }

  /** The last row adds its value to the quarter sum when it is picked. */
  lemma QuarterSumStep(months: seq<Cell>, vals: seq<Cell>, q: string, pick: (Cell, string) -> bool)
    requires |months| == |vals| > 0
    ensures var n := |months| - 1;
      QuarterSum(months, vals, q, pick) ==
      QuarterSum(months[..n], vals[..n], q, pick) + (if pick(months[n], q) then Amount(vals[n]) else 0.0)
  {
  }

  /** The total of a quarter, shaped as `quarter_revenue` reports it. */
  function QuarterAnswer(f: Frame, q: string, pick: (Cell, string) -> bool): Outcome
    requires WellFormed(f)
  {
    if MonthIndex(f).None? || ValueIndex(f).None? then Returned(Notice(NoMonthOrRevenue))
    else match QuarterNames(q)
      case None => Raised(UnknownQuarter(q))
      case Some(_) =>
        var total := QuarterSum(f.columns[MonthIndex(f).value].cells, Values(f), q, pick);
        if total == 0.0 then Returned(QuarterNoRecords(q)) else Returned(QuarterTotal(q, total))
  }

  /** `quarter_revenue` as written: only month names in text cells match. */
  function QuarterRevenueAsWritten(f: Frame, q: string): Outcome
    requires WellFormed(f)
  {
    QuarterAnswer(f, q, NamedIn)
  }

  /** The calendar months of a quarter. */
  function QuarterOfMonth(m: Month): string
  {
    if m <= 3 then "Q1" else if m <= 6 then "Q2" else if m <= 9 then "Q3" else "Q4"
  }

  /** The corrected filter: a month name as before, or a parsed date whose
      month falls in the quarter. */
  predicate InQuarter(c: Cell, q: string)
  {
    NamedIn(c, q) || (c.When? && QuarterOfMonth(c.d.month) == q)
  }

  /** `quarter_revenue` corrected to read the month of a parsed date. */
  function QuarterRevenue(f: Frame, q: string): Outcome
    requires WellFormed(f)
  {
    QuarterAnswer(f, q, InQuarter)
  }

  /** What `quarter_revenue` answers: the diagnostic when a column is
      missing (whatever the quarter), a failure for a key other than Q1-Q4,
      the no-records message exactly when the picked values sum to 0, and the
      total otherwise. */
  lemma QuarterAnswerCases(f: Frame, q: string, pick: (Cell, string) -> bool)
    requires WellFormed(f)
    ensures var r := QuarterAnswer(f, q, pick);
      && (r == Returned(Notice(NoMonthOrRevenue)) <==> MonthIndex(f).None? || ValueIndex(f).None?)
      && (r.Raised? <==> MonthIndex(f).Some? && ValueIndex(f).Some? && q !in Quarters)
      && (r.Returned? && r.response.QuarterTotal? ==>
            && r.response.quarter == q && r.response.total != 0.0
            && r.response.total == QuarterSum(f.columns[MonthIndex(f).value].cells, Values(f), q, pick))
      && (r.Returned? && r.response.QuarterNoRecords? ==>
            && r.response.quarter == q
            && QuarterSum(f.columns[MonthIndex(f).value].cells, Values(f), q, pick) == 0.0)
  {
    QuarterTable();
  }

  /** When no cell of the month column is picked, no quarter has a total. */
  lemma QuarterAnswerNothingPicked(f: Frame, q: string, pick: (Cell, string) -> bool)
    requires WellFormed(f)
    requires MonthIndex(f).Some? ==>
               forall i :: 0 <= i < f.height ==> !pick(f.columns[MonthIndex(f).value].cells[i], q)
    ensures var r := QuarterAnswer(f, q, pick);
      r.Returned? ==> !r.response.QuarterTotal?
  {
    if MonthIndex(f).Some? && ValueIndex(f).Some? && QuarterNames(q).Some? {
      var months := f.columns[MonthIndex(f).value].cells;
      PickedTotalNone(months, Values(f), c => pick(c, q));
    }
  }

  /** The corrected filter puts every dated row in the one quarter of its
      month, and agrees with the written filter on text cells. */
  lemma InQuarterDates(c: Cell, q: string)
    requires q in Quarters
    ensures c.When? ==> (InQuarter(c, q) <==> QuarterOfMonth(c.d.month) == q)
    ensures c.Text? ==> (InQuarter(c, q) <==> NamedIn(c, q))
  {
  }

  /** The sum of the values of the rows whose month cell holds a parsed date. */
  function DatedTotal(months: seq<Cell>, vals: seq<Cell>): real
    requires |months| == |vals|
  {
    PickedTotal(months, vals, (c: Cell) => c.When?)
  }

  /** On a month column holding no text (as cleaning leaves it), the four
      quarters of the corrected filter split the dated rows: their totals add
      up to the total of all rows holding a parsed date. */
  lemma {:induction false} QuartersSplitDates(months: seq<Cell>, vals: seq<Cell>)
    requires |months| == |vals|
    requires forall i :: 0 <= i < |months| ==> !months[i].Text?
    ensures QuarterSum(months, vals, "Q1", InQuarter) + QuarterSum(months, vals, "Q2", InQuarter)
          + QuarterSum(months, vals, "Q3", InQuarter) + QuarterSum(months, vals, "Q4", InQuarter)
         == DatedTotal(months, vals)
    decreases |months|
  {
    if months != [] {
      var n := |months| - 1;
      QuartersSplitDates(months[..n], vals[..n]);
      var c := months[n];
      QuarterSumStep(months, vals, "Q1", InQuarter);
      QuarterSumStep(months, vals, "Q2", InQuarter);
      QuarterSumStep(months, vals, "Q3", InQuarter);
      QuarterSumStep(months, vals, "Q4", InQuarter);
      if c.When? {
        InQuarterDates(c, "Q1");
        InQuarterDates(c, "Q2");
        InQuarterDates(c, "Q3");
        InQuarterDates(c, "Q4");
      }
    }
  }

  /** `quarter_revenue` on a three-row table, row by row. */
  lemma QuarterAnswerThreeRows(f: Frame, q: string, pick: (Cell, string) -> bool)
    requires WellFormed(f) && f.height == 3 && MonthIndex(f).Some? && ValueIndex(f).Some? && q in Quarters
    ensures var months, vals := f.columns[MonthIndex(f).value].cells, Values(f);
      var total := (if pick(months[0], q) then Amount(vals[0]) else 0.0)
                 + (if pick(months[1], q) then Amount(vals[1]) else 0.0)
                 + (if pick(months[2], q) then Amount(vals[2]) else 0.0);
      QuarterAnswer(f, q, pick) == if total == 0.0 then Returned(QuarterNoRecords(q)) else Returned(QuarterTotal(q, total))
  {
    QuarterTable();
    var months, vals := f.columns[MonthIndex(f).value].cells, Values(f);
    PickedTotalThree(months, vals, c => pick(c, q));
  }

  lemma PickedTotalThree(months: seq<Cell>, vals: seq<Cell>, pick: Cell -> bool)
    requires |months| == |vals| == 3
    ensures PickedTotal(months, vals, pick) ==
            (if pick(months[0]) then Amount(vals[0]) else 0.0)
            + (if pick(months[1]) then Amount(vals[1]) else 0.0)
            + (if pick(months[2]) then Amount(vals[2]) else 0.0)
  {
    assert months[..2][..1] == months[..1] && vals[..2][..1] == vals[..1];
    assert months[..1][..0] == [] && vals[..1][..0] == [];
    assert PickedTotal(months[..1], vals[..1], pick) == (if pick(months[0]) then Amount(vals[0]) else 0.0);
    assert PickedTotal(months[..2], vals[..2], pick) == PickedTotal(months[..1], vals[..1], pick)
           + (if pick(months[1]) then Amount(vals[1]) else 0.0);
  }

  /** A work-order table whose month column still holds text. */
  const MonthNameTable: Frame :=
    Frame([Column("Month", TextKind, [Text(" Jan"), Text("FEB"), Text("march")]),
           Column("Amount", NumericKind, [Num(100.0), Num(50.0), Num(25.0)])], 3)

  lemma MonthNameTableColumns()
    ensures WellFormed(MonthNameTable)
    ensures MonthIndex(MonthNameTable) == Some(0) && ValueIndex(MonthNameTable) == Some(1)
  {
    assert NameHas(MonthNameTable, 0, "month") by {
      assert Lower("Month") == "month";
    }
  }

  /** A cell whose trimmed, lower-cased text is a first-quarter name is
      picked for Q1 and not for Q2. */
  lemma FirstQuarterName(c: Cell, l: string)
    requires MonthText(c) == Some(l) && l in QuarterNames("Q1").value
    ensures NamedIn(c, "Q1") && !NamedIn(c, "Q2")
  {
    QuartersDisjoint();
    assert "Q1" in Quarters && "Q2" in Quarters;
  }

  lemma MonthTextJan()
    ensures MonthText(Text(" Jan")) == Some("jan")
  {
    assert IsSpace(' ') && !IsSpace('J') && !IsSpace('n');
    MonthTextOf(" Jan", "Jan", "jan");
  }

  lemma MonthTextFeb()
    ensures MonthText(Text("FEB")) == Some("feb")
  {
    assert !IsSpace('F') && !IsSpace('B');
    MonthTextOf("FEB", "FEB", "feb");
  }

  lemma MonthTextMarch()
    ensures MonthText(Text("march")) == Some("march")
  {
    assert !IsSpace('m') && !IsSpace('h');
    MonthTextOf("march", "march", "march");
  }

  /** The text `quarter_revenue` compares for a text cell `s` whose trimmed
      form is `t`, lower-cased `l`. */
  lemma MonthTextOf(s: string, t: string, l: string)
    requires Trimmed(t) && |s| >= |t| && s[|s| - |t|..] == t && (forall i :: 0 <= i < |s| - |t| ==> IsSpace(s[i]))
    requires |l| == |t| && forall i :: 0 <= i < |t| ==> l[i] == LowerChar(t[i])
    ensures MonthText(Text(s)) == Some(l)
  {
    StripLeadingSpaces(s, t);
    assert Lower(t) == l;
  }

  /** Month names are matched after trimming and lower-casing, so on a table
      whose month column still holds text, " Jan", "FEB" and "march" are all
      the first quarter and their rows add up. */
  lemma QuarterByNameExample()
    ensures QuarterRevenueAsWritten(MonthNameTable, "Q1") == Returned(QuarterTotal("Q1", 175.0))
    ensures QuarterRevenueAsWritten(MonthNameTable, "Q2") == Returned(QuarterNoRecords("Q2"))
  {
    MonthNameTableColumns();
    MonthTextJan();
    MonthTextFeb();
    MonthTextMarch();
    FirstQuarterName(Text(" Jan"), "jan");
    FirstQuarterName(Text("FEB"), "feb");
    FirstQuarterName(Text("march"), "march");
    QuarterAnswerThreeRows(MonthNameTable, "Q1", NamedIn);
    QuarterAnswerThreeRows(MonthNameTable, "Q2", NamedIn);
  }

  /** A deal table in which sector A holds 700 of a 1000 total. */
  const DealTable: Frame :=
    Frame([Column("Sector", TextKind, [Text("A"), Text("B"), Text("A")]),
           Column("Deal Value", NumericKind, [Num(400.0), Num(300.0), Num(300.0)])], 3)

  lemma DealTableGroups()
    ensures WellFormed(DealTable) && SectorIndex(DealTable) == Some(0) && ValueIndex(DealTable) == Some(1)
    ensures GroupsBy(DealTable, 0) == [Group(Text("A"), 700.0), Group(Text("B"), 300.0)]
    ensures ValueTotal(DealTable) == 1000.0
  {
    assert NameHas(DealTable, 0, "sector") by {
      assert Lower("Sector") == "sector";
    }
    DealTableKeys();
    DealTableSums();
  }

  lemma DealTableKeys()
    ensures GroupKeys(DealTable.columns[0].cells) == [Text("A"), Text("B")]
  {
    var keys := DealTable.columns[0].cells;
    assert keys[..2][..1] == keys[..1] && keys[..1][..0] == [];
    assert keys[..1] == [Text("A")] && keys[..2] == [Text("A"), Text("B")];
    assert GroupKeys(keys[..1]) == [Text("A")];
    assert GroupKeys(keys[..2]) == [Text("A"), Text("B")];
  }

  lemma DealTableSums()
    ensures var keys, vals := DealTable.columns[0].cells, DealTable.columns[1].cells;
      && GroupSum(keys, vals, Text("A")) == 700.0
      && GroupSum(keys, vals, Text("B")) == 300.0
      && Total(vals) == 1000.0
  {
    var keys, vals := DealTable.columns[0].cells, DealTable.columns[1].cells;
    assert keys[..2][..1] == keys[..1] && keys[..1][..0] == [];
    assert vals[..2][..1] == vals[..1] && vals[..1][..0] == [];
    assert Total(vals[..1]) == 400.0;
    assert Total(vals[..2]) == 700.0;
    assert GroupSum(keys[..1], vals[..1], Text("A")) == 400.0;
    assert GroupSum(keys[..1], vals[..1], Text("B")) == 0.0;
    assert GroupSum(keys[..2], vals[..2], Text("A")) == 400.0;
    assert GroupSum(keys[..2], vals[..2], Text("B")) == 300.0;
  }

  /** 700 of 1000 is 70%, strictly above the threshold: sector A is a
      high concentration risk, and the leading sector of the exposure answer. */
  lemma ConcentrationExample()
    ensures SectorDominance(DealTable) == Returned(SectorExposure(Text("A"), 70.0))
    ensures ConcentrationRisk(DealTable) == Returned(HighConcentration(Text("A"), 70.0))
  {
    DealTableGroups();
  }

  /** The total a quarter answer reports; 0 for any other answer. */
  function ReportedTotal(o: Outcome): real
  {
    if o.Returned? && o.response.QuarterTotal? then o.response.total else 0.0
  }

  /** On a table whose month column holds no text, the corrected
      `quarter_revenue` of the four quarters reports totals that add up to
      the total of the dated rows. */
  lemma QuarterRevenueSplitsDates(f: Frame)
    requires WellFormed(f) && MonthIndex(f).Some? && ValueIndex(f).Some?
    requires forall i :: 0 <= i < f.height ==> !f.columns[MonthIndex(f).value].cells[i].Text?
    ensures ReportedTotal(QuarterRevenue(f, "Q1")) + ReportedTotal(QuarterRevenue(f, "Q2"))
            + ReportedTotal(QuarterRevenue(f, "Q3")) + ReportedTotal(QuarterRevenue(f, "Q4"))
            == DatedTotal(f.columns[MonthIndex(f).value].cells, Values(f))
  {
    QuarterTable();
    var months := f.columns[MonthIndex(f).value].cells;
    QuarterAnswerCases(f, "Q1", InQuarter);
    QuarterAnswerCases(f, "Q2", InQuarter);
    QuarterAnswerCases(f, "Q3", InQuarter);
    QuarterAnswerCases(f, "Q4", InQuarter);
    QuartersSplitDates(months, Values(f));
  }

  // ---------------------------------------------------------------------
  // Composite and trivial answers
  // ---------------------------------------------------------------------

  /** `leadership_update`: the pipeline summary and concentration risk of the
      deals and the revenue summary of the work orders; it raises exactly
      when `concentration_risk` raises. */
  function LeadershipUpdateOf(work: Frame, deals: Frame): (r: Outcome)
    requires WellFormed(deals)
    ensures r.Raised? <==> ConcentrationRisk(deals).Raised?
    ensures r.Returned? ==>
      && r.response.LeadershipUpdate?
      && r.response.pipeline == PipelineSummary(deals)
      && Returned(r.response.risk) == ConcentrationRisk(deals)
      && r.response.revenue == RevenueSummary(work)
  {
    match ConcentrationRisk(deals)
    case Raised(e) => Raised(e)
    case Returned(risk) => Returned(LeadershipUpdate(PipelineSummary(deals), risk, RevenueSummary(work)))
  }

  /** `deal_count`: the number of rows. */
  function DealCountOf(f: Frame): Response
  {
    DealCount(f.height)
  }

  /** `pipeline_value`: there is no guard, so with no numeric column the
      lookup `df[None]` raises. */
  function PipelineValueOf(f: Frame): Outcome
  {
    if ValueIndex(f).None? then Raised(NoneColumn) else Returned(PipelineValue(ValueTotal(f)))
  }

  /** `deal_count` and `pipeline_value` agree with the pipeline summary: the
      same deal count, and the same total when a numeric column exists;
      without one the summary answers with a diagnostic where
      `pipeline_value` raises. */
  lemma PipelineAnswersAgree(f: Frame)
    ensures DealCountOf(f).deals == f.height
    ensures PipelineSummary(f).PipelineHealth? <==> PipelineValueOf(f).Returned?
    ensures PipelineSummary(f).PipelineHealth? ==>
      PipelineSummary(f).deals == DealCountOf(f).deals &&
      PipelineSummary(f).value == PipelineValueOf(f).response.total == RevenueSummary(f).total
  {
  }

  /** When every row has a sector, the sector breakdown of the work orders
      adds up to their revenue total. */
  lemma BreakdownAddsUpToRevenue(f: Frame)
    requires WellFormed(f) && SectorIndex(f).Some? && ValueIndex(f).Some?
    requires forall i :: 0 <= i < f.height ==> !f.columns[SectorIndex(f).value].cells[i].Missing?
    ensures SectorRevenueBreakdown(f).SectorBreakdown?
    ensures RevenueSummary(f).RevenueSnapshot?
    ensures Totals(SectorRevenueBreakdown(f).lines) == RevenueSummary(f).total
  {
    BreakdownLines(f, SectorIndex(f).value);
    KeyedTotalAll(f.columns[SectorIndex(f).value].cells, Values(f));
  }
}
