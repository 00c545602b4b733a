/** The static table of emission factors and the weighted sum that
    `onSubmit` folds over it (src/pages/emissions.js). */
module EmissionFactors {
  import opened Wrappers
  import ProcessLabel

  /** One sub-process of a mining activity with its emission factor
      (emissions per unit of quantity). */
  datatype SubProcess = SubProcess(key: string, factor: real)

  /** One row of the result's chart data (and of the trend chart): `{ name, value }`. */
  datatype NamedValue = NamedValue(name: string, value: real)

  /** The submitted form values, keyed by input name. A key that is absent is
      `undefined`; `None` is the NaN that an empty number input gives. */
  type FormValues = map<string, Option<real>>

  const SurfaceMining: seq<SubProcess> :=
    [SubProcess("blasting", 0.5), SubProcess("excavation", 1.0), SubProcess("transportation", 0.3)]

  const UndergroundMining: seq<SubProcess> :=
    [SubProcess("roomAndPillar", 0.7), SubProcess("longwall", 0.9), SubProcess("subLevelCaving", 0.6)]

  /** `emissionFactors`: the sub-processes of each mining activity, each
      list in the order of the source's object literal. */
  const EmissionFactorTable: map<string, seq<SubProcess>> :=
    map["surface-mining" := SurfaceMining, "underground-mining" := UndergroundMining]

  /** `emissionFactors[activity]`, None when `activity` is not a key. */
  function Lookup(table: map<string, seq<SubProcess>>, activity: string): Option<seq<SubProcess>>
  {
    if activity in table then Some(table[activity]) else None
  }

  /** The keys of the sub-processes, in table order: `Object.keys(emissionData)`. */
  function Keys(processes: seq<SubProcess>): seq<string>
  {
    seq(|processes|, i requires 0 <= i < |processes| => processes[i].key)
  }

  /** `parseFloat(data[key] || 0)`: an absent key and NaN both read as 0. */
  function Quantity(data: FormValues, key: string): real
  {
    if key in data then data[key].GetOr(0.0) else 0.0
  }

  /** The emissions of one sub-process: quantity times factor. */
  function Contribution(data: FormValues, p: SubProcess): real
  {
    Quantity(data, p.key) * p.factor
  }

  /** The `reduce` of onSubmit: a left fold from accumulator `acc` over the
      sub-processes in table order. */
  function TotalFrom(acc: real, processes: seq<SubProcess>, data: FormValues): real
    decreases |processes|
  {
    if processes == [] then acc
    else TotalFrom(acc + Contribution(data, processes[0]), processes[1..], data)
  }

  /** `totalEmissions`: the reduce started at 0. */
  function Total(processes: seq<SubProcess>, data: FormValues): real
  {
    TotalFrom(0.0, processes, data)
  }

  /** The reference definition: the sum of quantity times factor over the sub-processes. */
  function WeightedSum(processes: seq<SubProcess>, data: FormValues): real
  {
    if processes == [] then 0.0
    else Contribution(data, processes[0]) + WeightedSum(processes[1..], data)
  }

  /** `data` of the result: one labelled contribution per sub-process, in table order. */
  function Breakdown(processes: seq<SubProcess>, data: FormValues): seq<NamedValue>
  {
    seq(|processes|, i requires 0 <= i < |processes| =>
      NamedValue(ProcessLabel.Label(processes[i].key), Contribution(data, processes[i])))
  }

  /** The sum of the values of chart rows. */
  function SumValues(rows: seq<NamedValue>): real
  {
    if rows == [] then 0.0 else rows[0].value + SumValues(rows[1..])
  }

  /** The labels shown for a list of sub-processes (the form labels and the
      breakdown names). */
  function Labels(processes: seq<SubProcess>): seq<string>
  {
    seq(|processes|, i requires 0 <= i < |processes| => ProcessLabel.Label(processes[i].key))
  }

  predicate FactorsNonNegative(processes: seq<SubProcess>)
  {
    forall i :: 0 <= i < |processes| ==> processes[i].factor >= 0.0
  }

  predicate QuantitiesNonNegative(data: FormValues)
  {
    forall k :: k in data && data[k].Some? ==> data[k].value >= 0.0
  }

  // ---------------------------------------------------------------------------
  // The fold computes the weighted sum

  lemma {:induction false} TotalFromIsWeightedSum(acc: real, processes: seq<SubProcess>, data: FormValues)
    ensures TotalFrom(acc, processes, data) == acc + WeightedSum(processes, data)
    decreases |processes|
  {
    if processes != [] {
      TotalFromIsWeightedSum(acc + Contribution(data, processes[0]), processes[1..], data);
    }
  }

  /** `totalEmissions` is the sum of quantity times factor over the activity's sub-processes. */
  lemma TotalIsWeightedSum(processes: seq<SubProcess>, data: FormValues)
    ensures Total(processes, data) == WeightedSum(processes, data)
  {
    TotalFromIsWeightedSum(0.0, processes, data);
  }

  // ---------------------------------------------------------------------------
  // The breakdown

  /** The breakdown has one row per sub-process, in table order, named by its
      label and valued at its contribution. */
  lemma BreakdownRows(processes: seq<SubProcess>, data: FormValues)
    ensures |Breakdown(processes, data)| == |processes|
    ensures forall i :: 0 <= i < |processes| ==>
      Breakdown(processes, data)[i].name == ProcessLabel.Label(processes[i].key) &&
      Breakdown(processes, data)[i].value == Quantity(data, processes[i].key) * processes[i].factor
  {
  }

  /** The labels of the form inputs are the names of the breakdown rows, in the
      same order, whatever the form holds. */
  lemma LabelsAreBreakdownNames(processes: seq<SubProcess>, data: FormValues)
    ensures Labels(processes) == seq(|processes|, i requires 0 <= i < |processes| => Breakdown(processes, data)[i].name)
  {
  }

  /** The rows of the breakdown add up to `totalEmissions`. */
  lemma {:induction false} BreakdownSumIsTotal(processes: seq<SubProcess>, data: FormValues)
    ensures SumValues(Breakdown(processes, data)) == Total(processes, data)
  {
    BreakdownSumIsWeightedSum(processes, data);
    TotalIsWeightedSum(processes, data);
  }

  lemma {:induction false} BreakdownSumIsWeightedSum(processes: seq<SubProcess>, data: FormValues)
    ensures SumValues(Breakdown(processes, data)) == WeightedSum(processes, data)
    decreases |processes|
  {
    if processes != [] {
      BreakdownSumIsWeightedSum(processes[1..], data);
      assert Breakdown(processes, data)[1..] == Breakdown(processes[1..], data);
    }
  }

  // ---------------------------------------------------------------------------
  // Keys outside the activity are ignored, missing quantities count as 0

  /** Only the quantities of the activity's own keys matter: two forms that
      agree on them give the same total and the same breakdown. */
  lemma {:induction false} OnlyActivityKeysMatter(processes: seq<SubProcess>, d1: FormValues, d2: FormValues)
    requires forall i :: 0 <= i < |processes| ==> Quantity(d1, processes[i].key) == Quantity(d2, processes[i].key)
    ensures Total(processes, d1) == Total(processes, d2)
    ensures Breakdown(processes, d1) == Breakdown(processes, d2)
  {
    WeightedSumsAgree(processes, d1, d2);
    TotalIsWeightedSum(processes, d1);
    TotalIsWeightedSum(processes, d2);
    assert forall i :: 0 <= i < |processes| ==> Breakdown(processes, d1)[i] == Breakdown(processes, d2)[i];
  }

  lemma {:induction false} WeightedSumsAgree(processes: seq<SubProcess>, d1: FormValues, d2: FormValues)
    requires forall i :: 0 <= i < |processes| ==> Quantity(d1, processes[i].key) == Quantity(d2, processes[i].key)
    ensures WeightedSum(processes, d1) == WeightedSum(processes, d2)
    decreases |processes|
  {
    if processes != [] {
      assert forall i :: 0 <= i < |processes[1..]| ==> processes[1..][i] == processes[i + 1];
      WeightedSumsAgree(processes[1..], d1, d2);
    }
  }

  /** Dropping every form value whose key is not a sub-process of the
      activity changes neither the total nor the breakdown. */
  lemma OtherKeysIgnored(processes: seq<SubProcess>, data: FormValues)
    ensures var own := map k | k in data && k in Keys(processes) :: data[k];
      Total(processes, own) == Total(processes, data) &&
      Breakdown(processes, own) == Breakdown(processes, data)
  {
    var own := map k | k in data && k in Keys(processes) :: data[k];
    forall i | 0 <= i < |processes|
      ensures Quantity(own, processes[i].key) == Quantity(data, processes[i].key)
    {
      assert processes[i].key == Keys(processes)[i];
    }
    OnlyActivityKeysMatter(processes, own, data);
  }

  /** A form with no number in it (every input empty, or nothing entered) has
      total 0 and every breakdown value 0. */
  lemma {:induction false} EmptyFormGivesZero(processes: seq<SubProcess>, data: FormValues)
    requires forall k :: k in data ==> data[k].None?
    ensures Total(processes, data) == 0.0
    ensures forall i :: 0 <= i < |processes| ==> Breakdown(processes, data)[i].value == 0.0
  {
    ZeroWeightedSum(processes, data);
    TotalIsWeightedSum(processes, data);
  }

  lemma {:induction false} ZeroWeightedSum(processes: seq<SubProcess>, data: FormValues)
    requires forall k :: k in data ==> data[k].None?
    ensures WeightedSum(processes, data) == 0.0
    decreases |processes|
  {
    if processes != [] {
      ZeroWeightedSum(processes[1..], data);
    }
  }

  /** With non-negative factors and quantities, the total and every breakdown
      value are non-negative. */
  lemma {:induction false} NonNegativeTotal(processes: seq<SubProcess>, data: FormValues)
    requires FactorsNonNegative(processes) && QuantitiesNonNegative(data)
    ensures Total(processes, data) >= 0.0
    ensures forall i :: 0 <= i < |processes| ==> Breakdown(processes, data)[i].value >= 0.0
  {
    NonNegativeWeightedSum(processes, data);
    TotalIsWeightedSum(processes, data);
  }

  lemma {:induction false} NonNegativeWeightedSum(processes: seq<SubProcess>, data: FormValues)
    requires FactorsNonNegative(processes) && QuantitiesNonNegative(data)
    ensures WeightedSum(processes, data) >= 0.0
    decreases |processes|
  {
    if processes != [] {
      assert FactorsNonNegative(processes[1..]) by {
        assert forall i :: 0 <= i < |processes[1..]| ==> processes[1..][i] == processes[i + 1];
      }
      NonNegativeWeightedSum(processes[1..], data);
    }
  }

  // ---------------------------------------------------------------------------
  // The table itself

  /** The lookup finds exactly the two activities of the table; any other
      value (the empty selection among them) finds nothing. */
  lemma LookupTable(activity: string)
    ensures Lookup(EmissionFactorTable, "surface-mining") == Some(SurfaceMining)
    ensures Lookup(EmissionFactorTable, "underground-mining") == Some(UndergroundMining)
    ensures activity != "surface-mining" && activity != "underground-mining" ==> Lookup(EmissionFactorTable, activity) == None
  {
  }

  /** Every factor of the table is non-negative and no activity lists a
      sub-process twice. */
  lemma TableWellFormed(activity: string)
    requires activity in EmissionFactorTable
    ensures FactorsNonNegative(EmissionFactorTable[activity])
    ensures forall i, j :: 0 <= i < j < |EmissionFactorTable[activity]| ==>
      EmissionFactorTable[activity][i].key != EmissionFactorTable[activity][j].key
  {
  }
}
