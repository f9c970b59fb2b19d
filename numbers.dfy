/**
 * Numbers as the dashboard uses them. The model keeps a finite value as
 * Some(x) and folds NaN (the "no data" sentinel) and the infinities into
 * None. Every consumer asks Number.isFinite, except the tooltip's fallback,
 * which prints the value itself; there the three non-finite texts are not
 * told apart.
 */
module Numbers {
  import opened Wrappers

  type Num = Option<real>

  /** Number.isFinite. */
  predicate IsFinite(n: Num)
  {
    n.Some?
  }

  /** The dash shown for a value that cannot be rendered. */
  const Dash := "\U{2014}"

  /**
   * Fixed-point renderings such as Number.prototype.toFixed(2) never start
   * with a plus sign; a negative value carries its own minus sign.
   */
  ghost predicate NoPlusPrefix(fixed2: real -> string)
  {
    forall x :: fixed2(x) == [] || fixed2(x)[0] != '+'
  }

  /**
   * The delta-percentage label: a dash for a non-finite value, otherwise the
   * two-decimal rendering (`fixed2`, standing for toFixed(2)) of 100 times the
   * value followed by '%', with a '+' prepended exactly for positive values.
   */
  function FmtDelta(d: Num, fixed2: real -> string): (r: string)
    ensures r == Dash <==> !IsFinite(d)
    ensures IsFinite(d) ==> r != [] && r[|r| - 1] == '%'
  {
    if !IsFinite(d) then Dash
    else
      var body := fixed2(d.value * 100.0) + "%";
      assert body[|body| - 1] == '%';
      if d.value > 0.0 then "+" + body else body
  }

  /** The sign rule: a finite delta is labelled with a leading '+' exactly when it is positive. */
  lemma FmtDeltaSign(d: Num, fixed2: real -> string)
    requires IsFinite(d) && NoPlusPrefix(fixed2)
    ensures FmtDelta(d, fixed2)[0] == '+' <==> d.value > 0.0
    ensures FmtDelta(d, fixed2) ==
            (if d.value > 0.0 then "+" else "") + fixed2(d.value * 100.0) + "%"
  {
    var digits := fixed2(d.value * 100.0);
    assert digits == [] || digits[0] != '+';
    if d.value <= 0.0 {
      assert FmtDelta(d, fixed2)[0] == (digits + "%")[0];
    }
  }

  /** The worked example: a CAC delta of -0.072456 renders as "-7.25%". */
  lemma FmtDeltaExample(fixed2: real -> string)
    requires fixed2(-7.2456) == "-7.25"
    ensures FmtDelta(Some(-0.072456), fixed2) == "-7.25%"
  {
  }
}
