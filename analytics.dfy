/** The arithmetic of the analytics endpoints: the dashboard's simulated cost
    figures and guarded rates, and the ROI calculator's linear cost tables
    folded into totals. The document counts are inputs; figures are exact
    reals, and a JavaScript NaN (a 0/0) is `None`. */
module Analytics {
  import opened Common
  import AircraftModel
  import PartModel
  import MaintenanceModel

  /** `part / total * 100`, or 0 when there is nothing to count. */
  function Rate(part: nat, total: nat): (rate: real)
    ensures total == 0 ==> rate == 0.0
    ensures total > 0 ==> rate * total as real == part as real * 100.0
    ensures part <= total ==> 0.0 <= rate <= 100.0
    ensures total > 0 && part == total ==> rate == 100.0
  {
    if total == 0 then 0.0
    else
      var r := part as real / total as real * 100.0;
      assert r * total as real == part as real * 100.0;
      r
  }

  /** Raising the counted share never lowers the rate. */
  lemma RateMonotone(part1: nat, part2: nat, total: nat)
    requires part1 <= part2
    ensures Rate(part1, total) <= Rate(part2, total)
  {
    if total > 0 {
      var t := total as real;
      assert Rate(part1, total) * t == part1 as real * 100.0;
      assert Rate(part2, total) * t == part2 as real * 100.0;
      CancelPositive(Rate(part1, total), Rate(part2, total), t);
    }
  }

  // ---- dashboard ----

  /** The document counts the dashboard reads from the store. */
  datatype Counts = Counts(
    totalAircraft: nat,
    compliantAircraft: nat,
    alertAircraft: nat,
    overdueAircraft: nat,
    totalParts: nat,
    authenticParts: nat,
    counterfeitParts: nat,
    totalMaintenance: nat,
    completedMaintenance: nat,
    overdueMaintenance: nat)

  /** Counts as a store yields them: each status count is a subset of its collection. */
  predicate Consistent(c: Counts) {
    && c.compliantAircraft + c.alertAircraft + c.overdueAircraft <= c.totalAircraft
    && c.authenticParts + c.counterfeitParts <= c.totalParts
    && c.completedMaintenance + c.overdueMaintenance <= c.totalMaintenance
  }

  /** The `countDocuments` queries of the dashboard, over the stored
      aircraft, parts and work orders. */
  function StoreCounts(aircraft: map<Id, AircraftModel.Aircraft>, parts: map<Id, PartModel.Part>,
                       orders: map<Id, MaintenanceModel.WorkOrder>): (c: Counts)
    ensures c.totalAircraft == |aircraft| && c.totalParts == |parts| && c.totalMaintenance == |orders|
    ensures c.compliantAircraft == |AircraftModel.WithStatus(aircraft, AircraftModel.Compliant)|
    ensures c.alertAircraft == |AircraftModel.WithStatus(aircraft, AircraftModel.Alert)|
    ensures c.overdueAircraft == |AircraftModel.WithStatus(aircraft, AircraftModel.Overdue)|
    ensures c.authenticParts == |PartModel.WithStatus(parts, PartModel.Authentic)|
    ensures c.counterfeitParts == |PartModel.WithStatus(parts, PartModel.Counterfeit)|
    ensures c.completedMaintenance == |MaintenanceModel.WithStatus(orders, MaintenanceModel.Completed)|
    ensures c.overdueMaintenance == |MaintenanceModel.WithStatus(orders, MaintenanceModel.Overdue)|
    ensures Consistent(c)
  {
    var compliant := AircraftModel.WithStatus(aircraft, AircraftModel.Compliant);
    var alert := AircraftModel.WithStatus(aircraft, AircraftModel.Alert);
    var overdue := AircraftModel.WithStatus(aircraft, AircraftModel.Overdue);
    var authentic := PartModel.WithStatus(parts, PartModel.Authentic);
    var counterfeit := PartModel.WithStatus(parts, PartModel.Counterfeit);
    var completed := MaintenanceModel.WithStatus(orders, MaintenanceModel.Completed);
    var late := MaintenanceModel.WithStatus(orders, MaintenanceModel.Overdue);
    DisjointCard(compliant, alert, aircraft.Keys - overdue);
    DisjointCard(compliant + alert, overdue, aircraft.Keys);
    DisjointCard(authentic, counterfeit, parts.Keys);
    DisjointCard(completed, late, orders.Keys);
    Counts(|aircraft|, |compliant|, |alert|, |overdue|, |parts|, |authentic|, |counterfeit|,
           |orders|, |completed|, |late|)
  }

  datatype CostReduction = CostReduction(traditional: int, skyChain: int, savings: int, percentage: Option<real>)

  datatype Dashboard = Dashboard(
    counts: Counts,
    complianceRate: real,
    authenticityRate: real,
    totalSavings: int,
    savingsPercentage: Option<real>,
    costReduction: CostReduction)

  /** Four fifths of the traditional cost is saved, whatever the fleet size. */
  lemma SavingsShare(n: nat)
    ensures n > 0 ==> ((n * 50000 - n * 10000) as real) / ((n * 50000) as real) * 100.0 == 80.0
  {
    if n > 0 {
      Cancel(40000.0, 50000.0, n as real);
    }
  }

  /** The KPI and cost-reduction part of the dashboard. The savings share is
      computed without a guard, so an empty fleet gives 0/0 (`None`). */
  function DashboardOf(c: Counts): (d: Dashboard)
    ensures d.costReduction.traditional == 50000 * c.totalAircraft
    ensures d.costReduction.skyChain == 10000 * c.totalAircraft
    ensures d.totalSavings == d.costReduction.savings == 40000 * c.totalAircraft
    ensures d.savingsPercentage == d.costReduction.percentage
    ensures d.savingsPercentage == (if c.totalAircraft > 0 then Some(80.0) else None)
    ensures d.complianceRate == Rate(c.compliantAircraft, c.totalAircraft)
    ensures d.authenticityRate == Rate(c.authenticParts, c.totalParts)
    ensures c.totalAircraft == 0 ==> d.complianceRate == 0.0
    ensures c.totalParts == 0 ==> d.authenticityRate == 0.0
    ensures Consistent(c) ==> 0.0 <= d.complianceRate <= 100.0 && 0.0 <= d.authenticityRate <= 100.0
    ensures d.counts == c
  {
    var traditional := c.totalAircraft * 50000;
    var skyChain := c.totalAircraft * 10000;
    var savings := traditional - skyChain;
    SavingsShare(c.totalAircraft);
    var percentage := if traditional == 0 then None else Some(savings as real / traditional as real * 100.0);
    Dashboard(c, Rate(c.compliantAircraft, c.totalAircraft), Rate(c.authenticParts, c.totalParts),
              savings, percentage, CostReduction(traditional, skyChain, savings, percentage))
  }

  /** GET /api/analytics/dashboard over a store: the rates are the shares of
      compliant aircraft and authentic parts, each within [0, 100]. */
  lemma StoreDashboardRates(aircraft: map<Id, AircraftModel.Aircraft>, parts: map<Id, PartModel.Part>,
                            orders: map<Id, MaintenanceModel.WorkOrder>)
    ensures var d := DashboardOf(StoreCounts(aircraft, parts, orders));
            && 0.0 <= d.complianceRate <= 100.0 && 0.0 <= d.authenticityRate <= 100.0
            && (|aircraft| > 0 ==> d.complianceRate * |aircraft| as real
                                   == |AircraftModel.WithStatus(aircraft, AircraftModel.Compliant)| as real * 100.0)
            && (|parts| > 0 ==> d.authenticityRate * |parts| as real
                                == |PartModel.WithStatus(parts, PartModel.Authentic)| as real * 100.0)
  {
    var c := StoreCounts(aircraft, parts, orders);
    assert Consistent(c);
  }

  // ---- ROI calculator ----

  /** `reduce((sum, cost) => sum + cost, 0)` over a table's values, left to right. */
  function Sum(values: seq<real>): real {
    if |values| == 0 then 0.0 else Sum(values[..|values| - 1]) + values[|values| - 1]
  }

  /** A table's total: its values are folded while the `total: 0`
      placeholder is still among them, which adds nothing. */
  function TableTotal(values: seq<real>): (total: real)
    ensures total == Sum(values)
  {
    var withPlaceholder := values + [0.0];
    assert withPlaceholder[..|withPlaceholder| - 1] == values;
    Sum(withPlaceholder)
  }

  function Scale(f: real, rates: seq<real>): (scaled: seq<real>)
    ensures |scaled| == |rates|
    ensures forall i :: 0 <= i < |rates| ==> scaled[i] == f * rates[i]
  {
    if |rates| == 0 then [] else Scale(f, rates[..|rates| - 1]) + [f * rates[|rates| - 1]]
  }

  /** Summing a table of per-aircraft rates scaled by the fleet size is
      scaling the sum. */
  lemma {:induction false} SumScale(f: real, rates: seq<real>)
    ensures Sum(Scale(f, rates)) == f * Sum(rates)
  {
    if |rates| > 0 {
      var init := rates[..|rates| - 1];
      var last := rates[|rates| - 1];
      var scaled := Scale(f, rates);
      assert scaled[..|scaled| - 1] == Scale(f, init);
      assert scaled[|scaled| - 1] == f * last;
      assert Sum(scaled) == Sum(Scale(f, init)) + f * last;
      SumScale(f, init);
      Distribute(f, Sum(init), last);
    }
  }

  lemma Distribute(f: real, a: real, b: real)
    ensures f * a + f * b == f * (a + b)
  {
  }

  /** A common non-zero factor cancels in a quotient. */
  lemma Cancel(a: real, b: real, f: real)
    requires b != 0.0 && f != 0.0
    ensures (a * f) / (b * f) == a / b
  {
    assert (a / b) * (b * f) == a * f;
  }

  lemma Sum4(a: real, b: real, c: real, d: real)
    ensures Sum([a, b, c, d]) == a + b + c + d
  {
    assert [a][..0] == [];
    assert Sum([a]) == a;
    assert [a, b][..1] == [a];
    assert Sum([a, b]) == a + b;
    assert [a, b, c][..2] == [a, b];
    assert Sum([a, b, c]) == a + b + c;
    assert [a, b, c, d][..3] == [a, b, c];
  }

  lemma Sum5(a: real, b: real, c: real, d: real, e: real)
    ensures Sum([a, b, c, d, e]) == a + b + c + d + e
  {
    assert [a, b, c, d, e][..4] == [a, b, c, d];
    Sum4(a, b, c, d);
  }

  /** Annual traditional costs per aircraft: maintenance errors, compliance
      audits, counterfeit parts, insurance premiums, regulatory fines. */
  const TraditionalRates: seq<real> := [180000.0, 45000.0, 25000.0, 35000.0, 15000.0]

  /** Annual platform costs per aircraft: licence, blockchain fees, training,
      amortised implementation. */
  const SkyChainRates: seq<real> := [12000.0, 3000.0, 2000.0, 8000.0]

  /** The share of each traditional cost category the platform saves. */
  const SavingFactors: seq<real> := [0.8, 0.95, 1.0, 0.3, 0.8]

  /** Each savings entry is the matching traditional cost times its factor. */
  function Savings(traditional: seq<real>): (s: seq<real>)
    requires |traditional| == |SavingFactors|
    ensures |s| == |traditional|
    ensures forall i :: 0 <= i < |s| ==> s[i] == traditional[i] * SavingFactors[i]
  {
    seq(|traditional|, i requires 0 <= i < |traditional| => traditional[i] * SavingFactors[i])
  }

  datatype RoiReport = RoiReport(
    fleetSize: real,
    traditionalCosts: seq<real>,
    traditionalTotal: real,
    skyChainCosts: seq<real>,
    skyChainTotal: real,
    savings: seq<real>,
    savingsTotal: real,
    netSavings: real,
    roi: Option<real>,
    paybackPeriod: Option<real>,
    costReductionPercentage: Option<real>)

  lemma RateTotals()
    ensures Sum(TraditionalRates) == 300000.0
    ensures Sum(SkyChainRates) == 25000.0
  {
    Sum5(180000.0, 45000.0, 25000.0, 35000.0, 15000.0);
    Sum4(12000.0, 3000.0, 2000.0, 8000.0);
  }

  /** The five savings entries of a fleet of `f`, summed. */
  lemma SavingsTotal(f: real)
    ensures Sum(Savings(Scale(f, TraditionalRates))) == 234250.0 * f
  {
    var s := Savings(Scale(f, TraditionalRates));
    assert s == [144000.0 * f, 42750.0 * f, 25000.0 * f, 10500.0 * f, 12000.0 * f];
    Sum5(144000.0 * f, 42750.0 * f, 25000.0 * f, 10500.0 * f, 12000.0 * f);
  }

  /** The three ratios of the report for a fleet of `f`: the factor cancels. */
  lemma RoiRatios(f: real)
    ensures f != 0.0 ==> (209250.0 * f) / (25000.0 * f) * 100.0 == 837.0
    ensures f != 0.0 ==> (25000.0 * f) / ((209250.0 * f) / 12.0) == 1200.0 / 837.0
    ensures f != 0.0 ==> (209250.0 * f) / (300000.0 * f) * 100.0 == 69.75
  {
    if f != 0.0 {
      Cancel(209250.0, 25000.0, f);
      Cancel(209250.0, 300000.0, f);
      Cancel(25000.0, 17437.5, f);
      assert (209250.0 * f) / 12.0 == 17437.5 * f;
    }
  }

  /** The ROI calculator for a fleet of `fleetSize` aircraft (100 when the
      query leaves it out). Every total is linear in the fleet size; for any
      non-empty fleet, the ROI (837 %), the payback period (1200/837 months)
      and the cost reduction (69.75 %) do not depend on it, and an empty
      fleet makes all three 0/0. */
  function RoiCalculator(fleetSize: Option<real>): (r: RoiReport)
    ensures r.fleetSize == (if fleetSize.Some? then fleetSize.value else 100.0)
    ensures r.traditionalTotal == 300000.0 * r.fleetSize
    ensures r.skyChainTotal == 25000.0 * r.fleetSize
    ensures r.savingsTotal == 234250.0 * r.fleetSize
    ensures r.netSavings == 209250.0 * r.fleetSize
    ensures r.fleetSize != 0.0 ==> r.roi == Some(837.0)
    ensures r.fleetSize != 0.0 ==> r.paybackPeriod == Some(1200.0 / 837.0)
    ensures r.fleetSize != 0.0 ==> r.costReductionPercentage == Some(69.75)
    ensures r.fleetSize == 0.0 <==> r.roi.None?
    ensures r.fleetSize == 0.0 <==> r.paybackPeriod.None?
    ensures r.fleetSize == 0.0 <==> r.costReductionPercentage.None?
  {
    var f := if fleetSize.Some? then fleetSize.value else 100.0;
    var traditional := Scale(f, TraditionalRates);
    var skyChain := Scale(f, SkyChainRates);
    var savings := Savings(traditional);
    var traditionalTotal := TableTotal(traditional);
    var skyChainTotal := TableTotal(skyChain);
    var savingsTotal := TableTotal(savings);
    RateTotals();
    SumScale(f, TraditionalRates);
    SumScale(f, SkyChainRates);
    SavingsTotal(f);
    var net := savingsTotal - skyChainTotal;
    assert net == 209250.0 * f;
    var roi := if skyChainTotal == 0.0 then None else Some(net / skyChainTotal * 100.0);
    var payback := if net == 0.0 then None else Some(skyChainTotal / (net / 12.0));
    var reduction := if traditionalTotal == 0.0 then None else Some(net / traditionalTotal * 100.0);
    RoiRatios(f);
    RoiReport(f, traditional, traditionalTotal, skyChain, skyChainTotal, savings, savingsTotal, net,
              roi, payback, reduction)
  }
}
