/**
 * The formatting decisions of the KPI bar chart: axis ticks, bar labels and
 * the tooltip. Rendering itself (recharts, SVG) is not modelled; the number
 * formatters are parameters.
 */
module MetricsChart {
  import opened Wrappers
  import opened Numbers

  datatype Period = Previous | Current

  /** The two plotted series. */
  datatype Series = CAC | ROAS

  /** One group of bars: a period with, per series, its value and the raw string it came from. */
  datatype PeriodRow = PeriodRow(period: Period, cac: Num, roas: Num, cacRaw: Option<string>, roasRaw: Option<string>)

  /** The delta ratios shown next to the Current values. */
  datatype Deltas = Deltas(cac: Num, roas: Num)

  /** The series a recharts series name refers to, if any. */
  function SeriesNamed(name: string): (s: Option<Series>)
    ensures s == Some(CAC) <==> name == "CAC"
    ensures s == Some(ROAS) <==> name == "ROAS"
  {
    if name == "CAC" then Some(CAC) else if name == "ROAS" then Some(ROAS) else None
  }

  function RawOf(row: PeriodRow, s: Series): Option<string>
  {
    match s
    case CAC => row.cacRaw
    case ROAS => row.roasRaw
  }

  /** `deltas?.CAC` / `deltas?.ROAS`; absent deltas give undefined, which is not finite. */
  function DeltaOf(deltas: Option<Deltas>, s: Series): Num
  {
    match deltas
    case None => None
    case Some(d) => match s case CAC => d.cac case ROAS => d.roas
  }

  /**
   * fmtAxis and fmtLabel, which differ only in their Intl.NumberFormat
   * instance `nf`: the formatted value when it is finite, else a dash.
   */
  function FmtFinite(v: Num, nf: real -> string): (r: string)
    ensures !IsFinite(v) ==> r == Dash
    ensures IsFinite(v) ==> r == nf(v.value)
  {
    if IsFinite(v) then nf(v.value) else Dash
  }

  /**
   * The tooltip's main text: for the CAC or ROAS series the raw string of the
   * hovered row when it has one, otherwise the value itself as JavaScript
   * prints it (`numText`).
   */
  function TooltipText(value: Num, name: string, row: Option<PeriodRow>, numText: Num -> string): (r: string)
    ensures SeriesNamed(name).Some? && row.Some? && RawOf(row.value, SeriesNamed(name).value).Some? ==>
              r == RawOf(row.value, SeriesNamed(name).value).value
    ensures SeriesNamed(name).None? || row.None? || RawOf(row.value, SeriesNamed(name).value).None? ==>
              r == numText(value)
  {
    match SeriesNamed(name)
    case None => numText(value)
    case Some(s) =>
      if row.Some? && RawOf(row.value, s).Some? then RawOf(row.value, s).value else numText(value)
  }

  /**
   * The delta suffix: " (Δ <delta>)" for a CAC or ROAS bar of the Current
   * period whose delta is finite, and nothing otherwise.
   */
  function TooltipSuffix(name: string, row: Option<PeriodRow>, deltas: Option<Deltas>, fixed2: real -> string): (r: string)
    ensures r != "" <==>
              row.Some? && row.value.period == Current &&
              SeriesNamed(name).Some? && IsFinite(DeltaOf(deltas, SeriesNamed(name).value))
    ensures r != "" ==> r == " (\U{0394} " + FmtDelta(DeltaOf(deltas, SeriesNamed(name).value), fixed2) + ")"
  {
    var isCurrent := row.Some? && row.value.period == Current;
    if isCurrent && name == "CAC" && IsFinite(DeltaOf(deltas, CAC)) then
      " (\U{0394} " + FmtDelta(DeltaOf(deltas, CAC), fixed2) + ")"
    else if isCurrent && name == "ROAS" && IsFinite(DeltaOf(deltas, ROAS)) then
      " (\U{0394} " + FmtDelta(DeltaOf(deltas, ROAS), fixed2) + ")"
    else ""
  }

  /** The tooltip formatter: the text with its suffix, and the series name unchanged. */
  function Tooltip(value: Num, name: string, row: Option<PeriodRow>, deltas: Option<Deltas>,
                   numText: Num -> string, fixed2: real -> string): (r: (string, string))
    ensures r.1 == name
    ensures r.0 == TooltipText(value, name, row, numText) + TooltipSuffix(name, row, deltas, fixed2)
  {
    (TooltipText(value, name, row, numText) + TooltipSuffix(name, row, deltas, fixed2), name)
  }

  /** A Previous row never gets a delta suffix, whatever the deltas are. */
  lemma PreviousHasNoSuffix(value: Num, name: string, row: PeriodRow, deltas: Option<Deltas>,
                            numText: Num -> string, fixed2: real -> string)
    requires row.period == Previous
    ensures Tooltip(value, name, Some(row), deltas, numText, fixed2).0 == TooltipText(value, name, Some(row), numText)
  {
    assert TooltipSuffix(name, Some(row), deltas, fixed2) == "";
  }

  /**
   * The bar label of series `s` (labelCAC, labelROAS): the row's raw string
   * whenever it has one, the empty string included, otherwise FmtFinite of the
   * bar's value with the label formatter.
   */
  function BarLabel(s: Series, row: Option<PeriodRow>, value: Num, nfLabel: real -> string): (r: string)
    ensures row.Some? && RawOf(row.value, s).Some? ==> r == RawOf(row.value, s).value
    ensures row.None? || RawOf(row.value, s).None? ==> r == FmtFinite(value, nfLabel)
  {
    if row.Some? && RawOf(row.value, s).Some? then RawOf(row.value, s).value else FmtFinite(value, nfLabel)
  }

  /**
   * A label formatter called without the bar's entry (no `payload`): there is
   * no raw string and no value, so the label is a dash.
   */
  lemma LabelWithoutEntry(s: Series, nfLabel: real -> string)
    ensures BarLabel(s, None, None, nfLabel) == Dash
  {
  }
}
