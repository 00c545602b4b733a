/** The calculation of `onSubmit` as one function, and the page state that
    `onSubmit` and `handleActivityChange` update (src/pages/emissions.js). */
module EmissionCalculator {
  import opened Wrappers
  import opened EmissionFactors
  import opened CarbonOffsets
  import ProcessLabel

  /** The object passed to `setResult`. */
  datatype EmissionResult = EmissionResult(
    totalEmissions: real,
    emissions: seq<SubProcess>,
    data: seq<NamedValue>,
    treesRequired: int,
    solarPanelsRequired: int,
    emissionsAfterTreeOffset: real,
    emissionsAfterSolarOffset: real,
    costOfEmissions: real)

  /** What a submission did. */
  datatype SubmitOutcome =
    | NoActivitySelected   // the "Select a mining activity." notice; nothing else happens
    | UnknownActivity      // the selection is not a key of the table; nothing happens
    | Calculated           // result and trends were set and the result panel toggled

  /** The result computed for the sub-processes of the selected activity from
      the submitted form values. */
  function Calculate(processes: seq<SubProcess>, data: FormValues): (r: EmissionResult)
    ensures r.totalEmissions == WeightedSum(processes, data)
    ensures r.emissions == processes
    ensures |r.data| == |processes|
    ensures SumValues(r.data) == r.totalEmissions
    ensures r.treesRequired as real * TreePlanting >= r.totalEmissions
    ensures (r.treesRequired - 1) as real * TreePlanting < r.totalEmissions
    ensures r.solarPanelsRequired as real * SolarPanels >= r.totalEmissions
    ensures (r.solarPanelsRequired - 1) as real * SolarPanels < r.totalEmissions
    ensures r.emissionsAfterTreeOffset == r.totalEmissions - r.treesRequired as real * TreePlanting
    ensures r.emissionsAfterSolarOffset == r.totalEmissions - r.solarPanelsRequired as real * SolarPanels
    ensures r.costOfEmissions == r.totalEmissions * CostPerKgCO2
  {
    TotalIsWeightedSum(processes, data);
    BreakdownSumIsTotal(processes, data);
    var total := Total(processes, data);
    EmissionResult(
      total,
      processes,
      Breakdown(processes, data),
      TreesRequired(total),
      SolarPanelsRequired(total),
      EmissionsAfterTreeOffset(total),
      EmissionsAfterSolarOffset(total),
      CostOfEmissions(total))
  }

  /** The chart data of the result has one row per sub-process, in table
      order, named by the sub-process's label and valued at its quantity
      times its factor. */
  lemma CalculateRows(processes: seq<SubProcess>, data: FormValues)
    ensures var r := Calculate(processes, data);
      forall i :: 0 <= i < |processes| ==>
        r.data[i].name == ProcessLabel.Label(processes[i].key) &&
        r.data[i].value == Quantity(data, processes[i].key) * processes[i].factor
  {
  }

  /** The rows passed to `setCarbonTrends`. */
  function CarbonTrends(r: EmissionResult): seq<NamedValue>
  {
    [ NamedValue("Total Emissions", r.totalEmissions),
      NamedValue("Emissions After Tree Offset", r.emissionsAfterTreeOffset),
      NamedValue("Emissions After Solar Offset", r.emissionsAfterSolarOffset) ]
  }

  /** With the table's non-negative factors and non-negative quantities, every
      field but the two residuals is non-negative, and the residuals lie in
      (-rate, 0]. */
  lemma CalculateNonNegative(processes: seq<SubProcess>, data: FormValues)
    requires FactorsNonNegative(processes) && QuantitiesNonNegative(data)
    ensures var r := Calculate(processes, data);
      && r.totalEmissions >= 0.0
      && (forall i :: 0 <= i < |r.data| ==> r.data[i].value >= 0.0)
      && r.treesRequired >= 0 && r.solarPanelsRequired >= 0
      && r.costOfEmissions >= 0.0
      && -TreePlanting < r.emissionsAfterTreeOffset <= 0.0
      && -SolarPanels < r.emissionsAfterSolarOffset <= 0.0
  {
    NonNegativeTotal(processes, data);
    OffsetsOfNonNegativeTotal(Total(processes, data));
  }

  /** A form with no number in it gives a result that is zero throughout. */
  lemma CalculateEmptyForm(processes: seq<SubProcess>, data: FormValues)
    requires forall k :: k in data ==> data[k].None?
    ensures var r := Calculate(processes, data);
      && r.totalEmissions == 0.0
      && (forall i :: 0 <= i < |r.data| ==> r.data[i].value == 0.0)
      && r.treesRequired == 0 && r.solarPanelsRequired == 0
      && r.emissionsAfterTreeOffset == 0.0 && r.emissionsAfterSolarOffset == 0.0
      && r.costOfEmissions == 0.0
  {
    EmptyFormGivesZero(processes, data);
    NoEmissionsNoUnits(TreePlanting);
    NoEmissionsNoUnits(SolarPanels);
  }

  /** The form of the worked example: 10 units of blasting, 5 of excavation
      and 2 of transportation. */
  const SurfaceMiningForm: FormValues :=
    map["blasting" := Some(10.0), "excavation" := Some(5.0), "transportation" := Some(2.0)]

  /** Surface mining with 10 units of blasting, 5 of excavation and 2 of
      transportation. */
  lemma SurfaceMiningScenario()
    ensures var r := Calculate(SurfaceMining, SurfaceMiningForm);
      && r.totalEmissions == 10.6
      && |r.data| == 3
      && r.data[0].value == 5.0 && r.data[1].value == 5.0 && r.data[2].value == 0.6
      && r.treesRequired == 106 && r.solarPanelsRequired == 89
      && r.emissionsAfterTreeOffset == 0.0 && r.emissionsAfterSolarOffset == -0.08
      && r.costOfEmissions == 106.0
  {
    var ps, data := SurfaceMining, SurfaceMiningForm;
    assert Quantity(data, ps[0].key) == 10.0 && Quantity(data, ps[1].key) == 5.0 && Quantity(data, ps[2].key) == 2.0;
    assert WeightedSum(ps[2..], data) == 0.6 by {
      assert ps[2..][1..] == [];
    }
    assert ps[1..][1..] == ps[2..];
    assert WeightedSum(ps, data) == 5.0 + (5.0 + WeightedSum(ps[2..], data));
    CalculateRows(ps, data);
    OffsetsOfTenPointSix();
  }

  /** The state of the calculator page. */
  class Calculator {
    /** `selectedActivity`, "" until an activity is chosen. */
    var selectedActivity: string
    /** The values of the registered form inputs. */
    var form: FormValues
    /** `result`, None for `null`. */
    var result: Option<EmissionResult>
    /** `carbonTrends`, None for `null`. */
    var carbonTrends: Option<seq<NamedValue>>
    /** `isOpen` of the result panel's disclosure. */
    var resultsOpen: bool
    /** The emission factor table the page reads (`emissionFactors`). */
    const factors: map<string, seq<SubProcess>>

    /** The trends are always those of the result. */
    ghost predicate Valid()
      reads this
    {
      && (result.Some? <==> carbonTrends.Some?)
      && (result.Some? ==> carbonTrends.value == CarbonTrends(result.value))
    }

    /** The table the page reads is the module's `emissionFactors`. It speaks
        only of a `const` field, so once the constructor establishes it, it
        holds for the object's whole life. */
    ghost predicate ReadsSourceTable()
    {
      factors == EmissionFactorTable
    }

    constructor ()
      ensures Valid() && ReadsSourceTable()
      ensures selectedActivity == "" && form == map[]
      ensures result == None && carbonTrends == None && !resultsOpen
    {
      factors := EmissionFactorTable;
      selectedActivity := "";
      form := map[];
      result := None;
      carbonTrends := None;
      resultsOpen := false;
    }

    /** Typing a value into the input registered under `key`. */
    method EnterQuantity(key: string, value: Option<real>)
      requires Valid()
      modifies this
      ensures Valid()
      ensures form == old(form)[key := value]
      ensures selectedActivity == old(selectedActivity)
      ensures result == old(result) && carbonTrends == old(carbonTrends) && resultsOpen == old(resultsOpen)
    {
      form := form[key := value];
    }

    /** `handleActivityChange`: select `activity` and clear the form inputs. */
    method HandleActivityChange(activity: string)
      requires Valid()
      modifies this
      ensures Valid()
      ensures selectedActivity == activity && form == map[]
      ensures result == old(result) && carbonTrends == old(carbonTrends) && resultsOpen == old(resultsOpen)
    {
      selectedActivity := activity;
      form := map[];
    }

    /** `onSubmit`: reject a submission without an activity, ignore one whose
        activity is not in the table, and otherwise compute the result and
        trends from the form and toggle the result panel. */
    method OnSubmit() returns (outcome: SubmitOutcome)
      requires Valid()
      modifies this
      ensures Valid()
      ensures outcome == NoActivitySelected <==> old(selectedActivity) == ""
      ensures outcome == UnknownActivity <==>
        old(selectedActivity) != "" && Lookup(factors, old(selectedActivity)).None?
      ensures selectedActivity == old(selectedActivity) && form == old(form)
      ensures outcome != Calculated ==>
        result == old(result) && carbonTrends == old(carbonTrends) && resultsOpen == old(resultsOpen)
      ensures outcome == Calculated ==>
        && Lookup(factors, selectedActivity).Some?
        && result == Some(Calculate(Lookup(factors, selectedActivity).value, form))
        && carbonTrends == Some(CarbonTrends(result.value))
        && resultsOpen == !old(resultsOpen)
    {
      if selectedActivity == "" {
        return NoActivitySelected;
      }
      var emissionData := Lookup(factors, selectedActivity);
      if emissionData.None? {
        return UnknownActivity;
      }
      var r := Calculate(emissionData.value, form);
      result := Some(r);
      carbonTrends := Some(CarbonTrends(r));
      resultsOpen := !resultsOpen;
      outcome := Calculated;
    }
  }

  /** A whole session on a fresh page: choose surface mining, type the worked
      example's three quantities and submit. The result shown is the
      calculation for that form (total 10.6, 106 trees, 89 solar units), and
      the result panel is open. */
  method SurfaceMiningSession() returns (outcome: SubmitOutcome, shown: Option<EmissionResult>, open: bool)
    ensures outcome == Calculated
    ensures shown == Some(Calculate(SurfaceMining, SurfaceMiningForm))
    ensures open
    ensures shown.Some? && shown.value.totalEmissions == 10.6
    ensures shown.Some? && shown.value.treesRequired == 106 && shown.value.solarPanelsRequired == 89
  {
    var page := new Calculator();
    page.HandleActivityChange("surface-mining");
    page.EnterQuantity("blasting", Some(10.0));
    page.EnterQuantity("excavation", Some(5.0));
    page.EnterQuantity("transportation", Some(2.0));
    assert page.form == SurfaceMiningForm;
    LookupTable("surface-mining");
    outcome := page.OnSubmit();
    shown, open := page.result, page.resultsOpen;
    SurfaceMiningScenario();
  }
}
