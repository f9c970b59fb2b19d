/**
 * From a validated answer to chart data: string metrics become numbers with
 * the "no data" sentinel, two period rows feed the bar chart, the delta
 * ratios annotate the Current bars, and one metric row per present metric is
 * derived.
 */
module AgentMetrics {
  import opened Wrappers
  import opened Numbers
  import opened AgentSchema
  import opened MetricsChart

  /**
   * toNum: an absent or empty string is the "no data" sentinel, anything else
   * is whatever `parse` (JavaScript's Number) makes of it.
   */
  function ToNum(s: Option<string>, parse: string -> Num): (r: Num)
    ensures s.None? || s == Some("") ==> !IsFinite(r)
    ensures s.Some? && s.value != "" ==> r == parse(s.value)
  {
    if s.Some? && s.value != "" then parse(s.value) else None
  }

  /** Missing data is never confused with zero: "" is no data even where "0" is the number zero. */
  lemma MissingIsNotZero(parse: string -> Num)
    requires parse("0") == Some(0.0)
    ensures ToNum(Some(""), parse) != ToNum(Some("0"), parse)
  {
  }

  function CurrentOf(m: Option<Metric>): Option<string>
  {
    if m.Some? then Some(m.value.current) else None
  }

  function PreviousOf(m: Option<Metric>): Option<string>
  {
    if m.Some? then Some(m.value.previous) else None
  }

  function DeltaPctOf(m: Option<Metric>): Option<string>
  {
    if m.Some? then Some(m.value.deltaPct) else None
  }

  /** `x ?? ''` for an optional string. */
  function OrEmpty(s: Option<string>): string
  {
    if s.Some? then s.value else ""
  }

  /**
   * periodData: a Previous row and then a Current row. Each carries, per
   * metric, the raw string (or '' when the metric is absent) and its toNum,
   * so the plotted number always agrees with the raw text shown for it.
   */
  function PeriodData(d: AgentResponse, parse: string -> Num): (rows: seq<PeriodRow>)
    ensures |rows| == 2 && rows[0].period == Previous && rows[1].period == Current
    ensures rows[0].cacRaw == Some(OrEmpty(PreviousOf(d.cac))) && rows[0].roasRaw == Some(OrEmpty(PreviousOf(d.roas)))
    ensures rows[1].cacRaw == Some(OrEmpty(CurrentOf(d.cac))) && rows[1].roasRaw == Some(OrEmpty(CurrentOf(d.roas)))
    ensures forall i :: 0 <= i < |rows| ==>
              rows[i].cacRaw.Some? && rows[i].cac == ToNum(rows[i].cacRaw, parse) &&
              rows[i].roasRaw.Some? && rows[i].roas == ToNum(rows[i].roasRaw, parse)
  {
    [ PeriodRow(Previous, ToNum(PreviousOf(d.cac), parse), ToNum(PreviousOf(d.roas), parse),
                Some(OrEmpty(PreviousOf(d.cac))), Some(OrEmpty(PreviousOf(d.roas)))),
      PeriodRow(Current, ToNum(CurrentOf(d.cac), parse), ToNum(CurrentOf(d.roas), parse),
                Some(OrEmpty(CurrentOf(d.cac))), Some(OrEmpty(CurrentOf(d.roas)))) ]
  }

  /** An absent metric still has its bars: no data and the empty raw string, in both periods. */
  lemma AbsentMetricHasNoData(d: AgentResponse, parse: string -> Num, i: nat)
    requires i < 2
    ensures d.cac.None? ==> PeriodData(d, parse)[i].cac.None? && PeriodData(d, parse)[i].cacRaw == Some("")
    ensures d.roas.None? ==> PeriodData(d, parse)[i].roas.None? && PeriodData(d, parse)[i].roasRaw == Some("")
  {
  }

  /** deltas: the toNum of each metric's delta_pct. */
  function DeltasOf(d: AgentResponse, parse: string -> Num): (r: Deltas)
    ensures r.cac == ToNum(DeltaPctOf(d.cac), parse) && r.roas == ToNum(DeltaPctOf(d.roas), parse)
    ensures d.cac.None? ==> !IsFinite(r.cac)
    ensures d.roas.None? ==> !IsFinite(r.roas)
  {
    Deltas(ToNum(DeltaPctOf(d.cac), parse), ToNum(DeltaPctOf(d.roas), parse))
  }

  /** One metric summarised as numbers (the ChartData type). */
  datatype MetricRow = MetricRow(series: Series, current: Num, previous: Num, deltaPct: Num)

  /** The row of one present metric; an empty `previous` or `delta_pct` is no data. */
  function RowOf(series: Series, m: Metric, parse: string -> Num): (r: MetricRow)
    ensures r.series == series
    ensures r.current == ToNum(Some(m.current), parse)
    ensures r.previous == ToNum(Some(m.previous), parse) && r.deltaPct == ToNum(Some(m.deltaPct), parse)
    ensures m.previous == "" ==> !IsFinite(r.previous)
    ensures m.deltaPct == "" ==> !IsFinite(r.deltaPct)
  {
    MetricRow(series, ToNum(Some(m.current), parse), ToNum(Some(m.previous), parse), ToNum(Some(m.deltaPct), parse))
  }

  predicate HasLabel(rows: seq<MetricRow>, s: Series)
  {
    exists i :: 0 <= i < |rows| && rows[i].series == s
  }

  /**
   * rows: a CAC row exactly when the answer has CAC, a ROAS row exactly when
   * it has ROAS, CAC first; each row holds toNum of current, previous and
   * delta_pct.
   */
  method BuildRows(d: AgentResponse, parse: string -> Num) returns (rows: seq<MetricRow>)
    ensures |rows| == (if d.cac.Some? then 1 else 0) + (if d.roas.Some? then 1 else 0)
    ensures HasLabel(rows, CAC) <==> d.cac.Some?
    ensures HasLabel(rows, ROAS) <==> d.roas.Some?
    ensures d.cac.Some? ==> rows[0] == RowOf(CAC, d.cac.value, parse)
    ensures d.roas.Some? ==> rows[|rows| - 1] == RowOf(ROAS, d.roas.value, parse)
  {
    rows := [];
    if d.cac.Some? {
      rows := rows + [RowOf(CAC, d.cac.value, parse)];
    }
    if d.roas.Some? {
      rows := rows + [RowOf(ROAS, d.roas.value, parse)];
    }
    assert d.cac.Some? ==> rows[0].series == CAC;
    assert d.roas.Some? ==> rows[|rows| - 1].series == ROAS;
  }

  /**
   * When the chart hands a label formatter the bar's entry, that is, the
   * period row, the bar labels of an answer's chart data show the raw string
   * of the metric for that period; the numeric fallback is never used.
   */
  lemma AnswerLabelsShowRaw(d: AgentResponse, parse: string -> Num, i: nat, s: Series, value: Num, nfLabel: real -> string)
    requires i < 2
    ensures BarLabel(s, Some(PeriodData(d, parse)[i]), value, nfLabel) ==
            OrEmpty(match (s, i) {
                      case (CAC, 0) => PreviousOf(d.cac)
                      case (CAC, _) => CurrentOf(d.cac)
                      case (ROAS, 0) => PreviousOf(d.roas)
                      case (ROAS, _) => CurrentOf(d.roas)
                    })
  {
  }
}
