/** The progress bar (components/ui/ProgressBar.tsx): the filled percentage,
    the WAI-ARIA 1.2 `progressbar` attributes (section 5.4, Definition of
    Roles: aria-valuenow, aria-valuemin, aria-valuemax, aria-label) and
    whether the label row is drawn. */
module ProgressBar {
  import opened Common

  /** An attribute value as React writes it into the element. */
  datatype AttrValue = Text(s: string) | Whole(i: int) | Number(r: real)

  type Attributes = map<string, AttrValue>

  /** `Math.round`: halves round up. */
  function Round(x: real): (n: int)
    ensures x - 0.5 < n as real <= x + 0.5
  {
    (x + 0.5).Floor
  }

  /** `value / max * 100`. */
  function Scaled(value: real, max: real): real
    requires max != 0.0
  {
    value / max * 100.0
  }

  /** Where the scaled value lies for a positive `max`. */
  lemma ScaledBounds(value: real, max: real)
    requires max != 0.0
    ensures max > 0.0 && value >= max ==> Scaled(value, max) >= 100.0
    ensures max > 0.0 && value <= 0.0 ==> Scaled(value, max) <= 0.0
    ensures max > 0.0 && 0.0 <= value <= max ==> 0.0 <= Scaled(value, max) <= 100.0
  {
    if max > 0.0 {
      assert value / max >= 1.0 <==> value >= max;
      assert value / max <= 0.0 <==> value <= 0.0;
    }
  }

  /** `Math.min(Math.max(value / max * 100, 0), 100)`. A zero `max` divides
      to an infinity (clamped to 0 or 100) or, for a zero value, to NaN,
      which `Math.max`/`Math.min` pass through; NaN is `None` here. */
  function Percentage(value: real, max: real): (p: Option<real>)
    ensures p.Some? ==> 0.0 <= p.value <= 100.0
    ensures p.None? <==> max == 0.0 && value == 0.0
    ensures max > 0.0 && 0.0 <= value <= max ==> p == Some(Scaled(value, max))
    ensures max > 0.0 && value >= max ==> p == Some(100.0)
    ensures max > 0.0 && value <= 0.0 ==> p == Some(0.0)
  {
    if max == 0.0 then
      if value > 0.0 then Some(100.0) else if value < 0.0 then Some(0.0) else None
    else
      var raw := Scaled(value, max);
      ScaledBounds(value, max);
      var low := if raw >= 0.0 then raw else 0.0;
      Some(if low <= 100.0 then low else 100.0)
  }

  /** A fuller bar for a larger value. */
  lemma {:induction false} PercentageMonotone(v1: real, v2: real, max: real)
    requires max > 0.0 && v1 <= v2
    ensures Percentage(v1, max).value <= Percentage(v2, max).value
  {
    assert v1 / max <= v2 / max by {
      assert v2 / max - v1 / max == (v2 - v1) / max;
    }
  }

  /** The element's attributes: the progressbar role and value range, the
      label if one is given, and then the caller's other props, which
      override any of them. */
  function BarAttributes(value: real, max: real, labelText: Option<string>, props: Attributes): (a: Attributes)
    ensures forall k :: k in props ==> k in a && a[k] == props[k]
    ensures "role" !in props ==> "role" in a && a["role"] == Text("progressbar")
    ensures "aria-valuenow" !in props ==> "aria-valuenow" in a && a["aria-valuenow"] == Whole(Round(value))
    ensures "aria-valuemin" !in props ==> "aria-valuemin" in a && a["aria-valuemin"] == Whole(0)
    ensures "aria-valuemax" !in props ==> "aria-valuemax" in a && a["aria-valuemax"] == Number(max)
    ensures "aria-label" !in props ==> ("aria-label" in a <==> labelText.Some?)
    ensures "aria-label" !in props && labelText.Some? ==> a["aria-label"] == Text(labelText.value)
  {
    var base := map["role" := Text("progressbar"), "aria-valuenow" := Whole(Round(value)),
                    "aria-valuemin" := Whole(0), "aria-valuemax" := Number(max)];
    var labelled := if labelText.Some? then base["aria-label" := Text(labelText.value)] else base;
    labelled + props
  }

  /** `(showLabel || label) && ...`: an empty label does not count. */
  predicate ShowsLabelRow(showLabel: bool, labelText: Option<string>) {
    showLabel || Truthy(labelText)
  }

  /** A caller's aria-label wins over the `label` prop. */
  lemma CallerLabelWins(value: real, max: real, labelText: Option<string>, props: Attributes, given: string)
    requires "aria-label" in props && props["aria-label"] == Text(given)
    ensures BarAttributes(value, max, labelText, props)["aria-label"] == Text(given)
  {
  }
}
