/** The semicircular gauge: the clamped reading, the needle angle, the threshold colour and the arc length. */
module Gauge {

  /** The two colour thresholds: below `danger` is red, below `warning` amber, otherwise green. */
  datatype Thresholds = Thresholds(danger: real, warning: real)

  /** The thresholds used when the caller gives none. */
  const DefaultThresholds := Thresholds(70.0, 85.0)

  /** The length of the arc path in the gauge's view box. */
  const ArcLength := 251.2

  datatype GaugeColor = Red | Amber | Green
  {
    /** Red < Amber < Green. */
    function Rank(): nat {
      match this
      case Red => 0
      case Amber => 1
      case Green => 2
    }
  }

  /** `Math.max(0, Math.min(100, value))`. */
  function Clamp(value: real): (c: real)
    ensures 0.0 <= c <= 100.0
    ensures 0.0 <= value <= 100.0 ==> c == value
    ensures value < 0.0 ==> c == 0.0
    ensures value > 100.0 ==> c == 100.0
  {
    var capped := if value < 100.0 then value else 100.0;
    if 0.0 < capped then capped else 0.0
  }

  /** The needle angle in degrees: -90 at 0 and 90 at 100. */
  function Angle(value: real): (a: real)
    ensures -90.0 <= a <= 90.0
    ensures value <= 0.0 ==> a == -90.0
    ensures value >= 100.0 ==> a == 90.0
  {
    -90.0 + (Clamp(value) / 100.0) * 180.0
  }

  /** The colour of the clamped reading. */
  function Color(value: real, t: Thresholds): (col: GaugeColor)
    ensures col == Red <==> Clamp(value) < t.danger
    ensures col == Amber <==> t.danger <= Clamp(value) < t.warning
    ensures col == Green <==> Clamp(value) >= t.warning && Clamp(value) >= t.danger
  {
    var c := Clamp(value);
    if c < t.danger then Red
    else if c < t.warning then Amber
    else Green
  }

  /** The visible length of the coloured arc. */
  function DashLength(value: real): (d: real)
    ensures 0.0 <= d <= ArcLength
  {
    (Clamp(value) / 100.0) * ArcLength
  }

  /** Clamping is monotone and does nothing the second time. */
  lemma ClampMonotone(v1: real, v2: real)
    requires v1 <= v2
    ensures Clamp(v1) <= Clamp(v2)
    ensures Clamp(Clamp(v1)) == Clamp(v1)
  {
  }

  /** The needle and the arc agree: both are the same fraction of their full sweep. */
  lemma NeedleMatchesArc(value: real)
    ensures (Angle(value) + 90.0) / 180.0 == DashLength(value) / ArcLength
    ensures DashLength(value) == 0.0 <==> Angle(value) == -90.0
    ensures DashLength(value) == ArcLength <==> Angle(value) == 90.0
  {
  }

  /** A higher reading never moves the needle back nor the colour towards red, when danger <= warning. */
  lemma HigherIsBetter(v1: real, v2: real, t: Thresholds)
    requires v1 <= v2
    requires t.danger <= t.warning
    ensures Angle(v1) <= Angle(v2)
    ensures DashLength(v1) <= DashLength(v2)
    ensures Color(v1, t).Rank() <= Color(v2, t).Rank()
  {
    ClampMonotone(v1, v2);
  }

  /** With the default thresholds: red below 70, amber from 70 to below 85, green from 85. */
  lemma DefaultBands(value: real)
    ensures Color(value, DefaultThresholds) == Red <==> Clamp(value) < 70.0
    ensures Color(value, DefaultThresholds) == Amber <==> 70.0 <= Clamp(value) < 85.0
    ensures Color(value, DefaultThresholds) == Green <==> Clamp(value) >= 85.0
    ensures value > 100.0 ==> Color(value, DefaultThresholds) == Green
    ensures value < 0.0 ==> Color(value, DefaultThresholds) == Red
  {
  }
}
