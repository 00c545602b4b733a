/** The offset suggestions and the cost estimate computed from the total
    emissions in `onSubmit` (src/pages/emissions.js). */
module CarbonOffsets {

  /** `carbonOffsets.treePlanting`: kg CO2 absorbed by one tree per year. */
  const TreePlanting: real := 0.1

  /** `carbonOffsets.solarPanels`: kg CO2 offset by one kWh of solar energy. */
  const SolarPanels: real := 0.12

  /** `costPerKgCO2`: rupees per kg CO2. */
  const CostPerKgCO2: real := 10.0

  /** `Math.ceil`: the least integer not below `x`. */
  function Ceil(x: real): (n: int)
    ensures n as real >= x
    ensures (n - 1) as real < x
  {
    -((-x).Floor)
  }

  /** `Math.ceil(total / rate)`: the number of offset units needed to cover `total`. */
  function UnitsRequired(total: real, rate: real): (n: int)
    requires rate > 0.0
    ensures n as real * rate >= total
    ensures (n - 1) as real * rate < total
  {
    var n := Ceil(total / rate);
    ScaleByRate(total, rate, n);
    n
  }

  /** `total - units * rate`: what is left of `total` after `units` offset units. */
  function EmissionsAfterOffset(total: real, rate: real): (r: real)
    requires rate > 0.0
    ensures -rate < r <= 0.0
  {
    total - UnitsRequired(total, rate) as real * rate
  }

  function TreesRequired(total: real): int
  {
    UnitsRequired(total, TreePlanting)
  }

  function SolarPanelsRequired(total: real): int
  {
    UnitsRequired(total, SolarPanels)
  }

  function EmissionsAfterTreeOffset(total: real): real
  {
    EmissionsAfterOffset(total, TreePlanting)
  }

  function EmissionsAfterSolarOffset(total: real): real
  {
    EmissionsAfterOffset(total, SolarPanels)
  }

  /** `totalEmissions * costPerKgCO2`. */
  function CostOfEmissions(total: real): real
  {
    total * CostPerKgCO2
  }

  /** Multiplying the defining bounds of the ceiling through by the rate. */
  lemma ScaleByRate(total: real, rate: real, n: int)
    requires rate > 0.0
    requires n as real >= total / rate && (n - 1) as real < total / rate
    ensures n as real * rate >= total && (n - 1) as real * rate < total
  {
  }

  lemma MultiplyLessEq(a: real, b: real, c: real)
    requires a <= b && c > 0.0
    ensures a * c <= b * c
  {
  }

  /** The number of units is the least integer whose units cover `total`:
      `n` units cover it exactly when `n` is at least the number required. */
  lemma UnitsRequiredIsLeast(total: real, rate: real, n: int)
    requires rate > 0.0
    ensures n as real * rate >= total <==> n >= UnitsRequired(total, rate)
  {
    var u := UnitsRequired(total, rate);
    if n >= u {
      MultiplyLessEq(u as real, n as real, rate);
    } else {
      assert n as real <= (u - 1) as real;
      MultiplyLessEq(n as real, (u - 1) as real, rate);
      assert (u - 1) as real * rate < total;
    }
  }

  /** Nothing to offset needs no unit. */
  lemma NoEmissionsNoUnits(rate: real)
    requires rate > 0.0
    ensures UnitsRequired(0.0, rate) == 0
    ensures EmissionsAfterOffset(0.0, rate) == 0.0
  {
    UnitsRequiredIsLeast(0.0, rate, 0);
    UnitsRequiredIsLeast(0.0, rate, -1);
  }

  /** A non-negative total needs a non-negative number of units, and a
      positive one at least one unit. */
  lemma UnitsNonNegative(total: real, rate: real)
    requires rate > 0.0 && total >= 0.0
    ensures UnitsRequired(total, rate) >= 0
    ensures total > 0.0 ==> UnitsRequired(total, rate) >= 1
  {
    UnitsRequiredIsLeast(total, rate, -1);
    if total > 0.0 {
      UnitsRequiredIsLeast(total, rate, 0);
    }
  }

  /** More emissions never need fewer units. */
  lemma UnitsMonotonic(t1: real, t2: real, rate: real)
    requires rate > 0.0 && t1 <= t2
    ensures UnitsRequired(t1, rate) <= UnitsRequired(t2, rate)
  {
    UnitsRequiredIsLeast(t1, rate, UnitsRequired(t2, rate));
  }

  /** The offsets of the tree and solar rates, and of the cost, for a
      non-negative total: counts and cost are non-negative, counts are 0
      exactly when the total is 0, and each residual lies in (-rate, 0]. */
  lemma OffsetsOfNonNegativeTotal(total: real)
    requires total >= 0.0
    ensures TreesRequired(total) >= 0 && SolarPanelsRequired(total) >= 0
    ensures TreesRequired(total) == 0 <==> total == 0.0
    ensures SolarPanelsRequired(total) == 0 <==> total == 0.0
    ensures -TreePlanting < EmissionsAfterTreeOffset(total) <= 0.0
    ensures -SolarPanels < EmissionsAfterSolarOffset(total) <= 0.0
    ensures CostOfEmissions(total) >= 0.0
  {
    UnitsNonNegative(total, TreePlanting);
    UnitsNonNegative(total, SolarPanels);
    if total == 0.0 {
      NoEmissionsNoUnits(TreePlanting);
      NoEmissionsNoUnits(SolarPanels);
    }
  }

  /** The offsets of a total of 10.6 kg CO2: 106 trees leave nothing, 89 solar
      units over-cover by 0.08, and the cost is 106 rupees. */
  lemma OffsetsOfTenPointSix()
    ensures TreesRequired(10.6) == 106
    ensures EmissionsAfterTreeOffset(10.6) == 0.0
    ensures SolarPanelsRequired(10.6) == 89
    ensures EmissionsAfterSolarOffset(10.6) == -0.08
    ensures CostOfEmissions(10.6) == 106.0
  {
    UnitsRequiredIsLeast(10.6, TreePlanting, 106);
    UnitsRequiredIsLeast(10.6, TreePlanting, 105);
    UnitsRequiredIsLeast(10.6, SolarPanels, 89);
    UnitsRequiredIsLeast(10.6, SolarPanels, 88);
  }
}
