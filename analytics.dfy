/**
 * The analytics dashboard: the mission cost estimator, the colour rules of
 * its tables, and which sections are shown for the selected tab.
 */
module Analytics {

  import opened Wrappers
  import opened Text
  import opened Seqs

  datatype EstimatorRocket = EstimatorRocket(id: int, name: string, payloadCapacity: real, mass: real)

  datatype EstimatorSatellite = EstimatorSatellite(id: int, name: string, mass: real, purpose: string)

  datatype CostFactors = CostFactors(
    rocketCostPerKg: real,
    satelliteCostPerKg: real,
    launchServices: real,
    insurance: real,
    contingency: real)

  datatype CostEstimatorData = CostEstimatorData(
    rockets: seq<EstimatorRocket>,
    satellites: seq<EstimatorSatellite>,
    costFactors: CostFactors)

  // ---------------------------------------------------------------- cost formula

  datatype CostBreakdown = CostBreakdown(
    rocketCost: real,
    satelliteCost: real,
    launchServicesCost: real,
    subtotal: real,
    insuranceCost: real,
    contingencyCost: real,
    total: real)

  /**
   * The estimate for one rocket and one satellite: the rocket is charged by
   * its payload capacity, satellite and launch services by the satellite's
   * mass, and insurance and contingency are rates on the subtotal.
   */
  function MissionCost(rocket: EstimatorRocket, satellite: EstimatorSatellite, f: CostFactors)
    : (c: CostBreakdown)
    ensures c.subtotal == rocket.payloadCapacity * f.rocketCostPerKg
      + satellite.mass * (f.satelliteCostPerKg + f.launchServices)
    ensures c.total == c.subtotal * (1.0 + f.insurance + f.contingency)
    ensures c.total == c.subtotal + c.insuranceCost + c.contingencyCost
  {
    var rocketCost := rocket.payloadCapacity * f.rocketCostPerKg;
    var satelliteCost := satellite.mass * f.satelliteCostPerKg;
    var launchServicesCost := satellite.mass * f.launchServices;
    var subtotal := rocketCost + satelliteCost + launchServicesCost;
    var insuranceCost := subtotal * f.insurance;
    var contingencyCost := subtotal * f.contingency;
    CostBreakdown(rocketCost, satelliteCost, launchServicesCost, subtotal,
      insuranceCost, contingencyCost, subtotal + insuranceCost + contingencyCost)
  }

  predicate NonNegativeFactors(f: CostFactors)
  {
    f.rocketCostPerKg >= 0.0 && f.satelliteCostPerKg >= 0.0 && f.launchServices >= 0.0 &&
    f.insurance >= 0.0 && f.contingency >= 0.0
  }

  /** With nothing negative going in, the total is at least the subtotal, which is at least zero. */
  lemma CostNonNegative(rocket: EstimatorRocket, satellite: EstimatorSatellite, f: CostFactors)
    requires rocket.payloadCapacity >= 0.0 && satellite.mass >= 0.0 && NonNegativeFactors(f)
    ensures var c := MissionCost(rocket, satellite, f);
      0.0 <= c.subtotal <= c.total
  {
    var c := MissionCost(rocket, satellite, f);
    MulNonNegative(rocket.payloadCapacity, f.rocketCostPerKg);
    MulNonNegative(satellite.mass, f.satelliteCostPerKg + f.launchServices);
    MulNonNegative(c.subtotal, f.insurance + f.contingency);
  }

  lemma MulNonNegative(a: real, b: real)
    requires a >= 0.0 && b >= 0.0
    ensures a * b >= 0.0
  {
  }

  /**
   * A payload capacity of 1000 and a satellite of 200 at rates 2, 5 and 1
   * with 10% insurance and 5% contingency: 2000 + 1000 + 200 = 3200 before
   * the rates, 3680 in all.
   */
  lemma CostExample()
    ensures var c := MissionCost(EstimatorRocket(1, "R", 1000.0, 0.0), EstimatorSatellite(2, "S", 200.0, ""),
        CostFactors(2.0, 5.0, 1.0, 0.1, 0.05));
      && c.rocketCost == 2000.0 && c.satelliteCost == 1000.0 && c.launchServicesCost == 200.0
      && c.subtotal == 3200.0 && c.insuranceCost == 320.0 && c.contingencyCost == 160.0
      && c.total == 3680.0
  {
  }

  // ---------------------------------------------------------------- estimator handler

  function RocketWithId(id: int): EstimatorRocket -> bool
  {
    (r: EstimatorRocket) => r.id == id
  }

  function SatelliteWithId(id: int): EstimatorSatellite -> bool
  {
    (s: EstimatorSatellite) => s.id == id
  }

  predicate HasRocket(data: CostEstimatorData, id: int)
  {
    exists i :: 0 <= i < |data.rockets| && data.rockets[i].id == id
  }

  predicate HasSatellite(data: CostEstimatorData, id: int)
  {
    exists j :: 0 <= j < |data.satellites| && data.satellites[j].id == id
  }

  /**
   * What `calculateMissionCost` would store: nothing without estimator data,
   * without both selections, or when either id matches no entry; otherwise
   * the total for the first rocket and the first satellite with those ids.
   */
  function Estimate(data: Option<CostEstimatorData>, rocketId: Option<int>, satelliteId: Option<int>)
    : (r: Option<real>)
    ensures data.None? || rocketId.None? || satelliteId.None? ==> r.None?
    ensures data.Some? && rocketId.Some? && !HasRocket(data.value, rocketId.value) ==> r.None?
    ensures data.Some? && satelliteId.Some? && !HasSatellite(data.value, satelliteId.value) ==> r.None?
    ensures r.Some? ==> data.Some? && rocketId.Some? && satelliteId.Some?
    ensures r.Some? ==> exists i, j ::
      && IsFirstMatch(data.value.rockets, RocketWithId(rocketId.value), i)
      && IsFirstMatch(data.value.satellites, SatelliteWithId(satelliteId.value), j)
      && r.value == MissionCost(data.value.rockets[i], data.value.satellites[j], data.value.costFactors).total
  {
    if data.None? || rocketId.None? || satelliteId.None? then None
    else
      var rocket := FindFirst(data.value.rockets, RocketWithId(rocketId.value));
      var satellite := FindFirst(data.value.satellites, SatelliteWithId(satelliteId.value));
      if rocket.None? || satellite.None? then None
      else Some(MissionCost(rocket.value, satellite.value, data.value.costFactors).total)
  }

  /** When both ids are listed, an estimate is produced. */
  lemma EstimateFound(data: CostEstimatorData, rocketId: int, satelliteId: int)
    requires HasRocket(data, rocketId) && HasSatellite(data, satelliteId)
    ensures Estimate(Some(data), Some(rocketId), Some(satelliteId)).Some?
  {
    var i :| 0 <= i < |data.rockets| && data.rockets[i].id == rocketId;
    var j :| 0 <= j < |data.satellites| && data.satellites[j].id == satelliteId;
    assert RocketWithId(rocketId)(data.rockets[i]);
    assert SatelliteWithId(satelliteId)(data.satellites[j]);
  }

  /**
   * A select's value through `Number(value) || null`. Option values are the
   * rendered ids; the placeholder is `""`, which `Number` reads as 0, and 0
   * is falsy, so both become no selection.
   */
  function SelectionOf(value: string): (r: Option<int>)
    ensures value == "" ==> r.None?
    ensures r.Some? ==> r.value > 0
  {
    if value != "" && AllDigits(value) && DigitsValue(value) != 0 then Some(DigitsValue(value)) else None
  }

  /** Choosing the option of a listed id selects that id, unless the id is 0. */
  lemma SelectionOfRenderedId(id: nat)
    ensures SelectionOf(NatToString(id)) == if id == 0 then None else Some(id)
  {
    DigitsValueOfNatToString(id);
  }

  /** The sections of the dashboard, in the order of the mobile tab bar. */
  datatype Tab = Overview | HumanMissions | Rockets | Costs | Timeline | Orbits | Missions | Family

  /** The page state that the estimator and the tab bar update. */
  class AnalyticsPage {
    var costEstimatorData: Option<CostEstimatorData>
    var selectedRocket: Option<int>
    var selectedSatellite: Option<int>
    var estimatedCost: Option<real>
    var activeTab: Tab

    constructor ()
      ensures costEstimatorData == None && selectedRocket == None && selectedSatellite == None
      ensures estimatedCost == None && activeTab == Overview
    {
      costEstimatorData, selectedRocket, selectedSatellite := None, None, None;
      estimatedCost, activeTab := None, Overview;
    }

    /** The estimator endpoint answered: `setCostEstimatorData(costData)`. */
    method Load(data: CostEstimatorData)
      modifies this`costEstimatorData
      ensures costEstimatorData == Some(data)
    {
      costEstimatorData := Some(data);
    }

    method SelectRocket(value: string)
      modifies this`selectedRocket
      ensures selectedRocket == SelectionOf(value)
    {
      selectedRocket := SelectionOf(value);
    }

    method SelectSatellite(value: string)
      modifies this`selectedSatellite
      ensures selectedSatellite == SelectionOf(value)
    {
      selectedSatellite := SelectionOf(value);
    }

    /**
     * The Calculate button. Each guard returns without touching the stored
     * estimate, so a failed lookup leaves the previous estimate on screen.
     */
    method CalculateMissionCost()
      modifies this`estimatedCost
      ensures estimatedCost ==
        if Estimate(costEstimatorData, selectedRocket, selectedSatellite).Some?
        then Estimate(costEstimatorData, selectedRocket, selectedSatellite)
        else old(estimatedCost)
    {
      if costEstimatorData.None? || selectedRocket.None? || selectedSatellite.None? {
        return;
      }
      var data := costEstimatorData.value;
      var rocket := FindFirst(data.rockets, RocketWithId(selectedRocket.value));
      var satellite := FindFirst(data.satellites, SatelliteWithId(selectedSatellite.value));
      if rocket.None? || satellite.None? {
        return;
      }
      var c := MissionCost(rocket.value, satellite.value, data.costFactors);
      estimatedCost := Some(c.total);
    }

    method SetActiveTab(tab: Tab)
      modifies this`activeTab
      ensures activeTab == tab
    {
      activeTab := tab;
    }
  }

  // ---------------------------------------------------------------- button and result box

  /** `disabled={!selectedRocket || !selectedSatellite}`: `null` and 0 are both falsy. */
  predicate CalculateDisabled(rocket: Option<int>, satellite: Option<int>)
  {
    rocket.None? || rocket.value == 0 || satellite.None? || satellite.value == 0
  }

  /**
   * Selections come from `SelectionOf`, which never yields 0, so the button
   * is enabled exactly when both selects name an entry.
   */
  lemma CalculateEnabledIffBothSelected(rocketValue: string, satelliteValue: string)
    ensures !CalculateDisabled(SelectionOf(rocketValue), SelectionOf(satelliteValue))
        <==> SelectionOf(rocketValue).Some? && SelectionOf(satelliteValue).Some?
  {
  }

  /** An enabled button whose selections are both listed produces an estimate. */
  lemma EnabledButtonEstimates(data: CostEstimatorData, rocket: Option<int>, satellite: Option<int>)
    requires !CalculateDisabled(rocket, satellite)
    requires HasRocket(data, rocket.value) && HasSatellite(data, satellite.value)
    ensures Estimate(Some(data), rocket, satellite).Some?
  {
    EstimateFound(data, rocket.value, satellite.value);
  }

  /**
   * What `{estimatedCost && (...)}` renders: nothing for `null`, the bare
   * text "0" for a cost of 0 (the `&&` yields the number itself, which React
   * prints), and the result box for any other cost.
   */
  datatype CostArea = NoResult | BareZero | ResultBox(cost: real)

  function CostAreaOf(estimatedCost: Option<real>): (area: CostArea)
    ensures estimatedCost.None? <==> area == NoResult
    ensures estimatedCost == Some(0.0) <==> area == BareZero
    ensures area.ResultBox? <==> estimatedCost.Some? && estimatedCost.value != 0.0
    ensures area.ResultBox? ==> area.cost == estimatedCost.value
  {
    match estimatedCost
    case None => NoResult
    case Some(cost) => if cost == 0.0 then BareZero else ResultBox(cost)
  }

  /** A rocket with some payload capacity at a positive rate always gets the result box. */
  lemma PositiveCostShowsBox(rocket: EstimatorRocket, satellite: EstimatorSatellite, f: CostFactors)
    requires rocket.payloadCapacity > 0.0 && f.rocketCostPerKg > 0.0
    requires satellite.mass >= 0.0 && NonNegativeFactors(f)
    ensures CostAreaOf(Some(MissionCost(rocket, satellite, f).total)).ResultBox?
  {
    var c := MissionCost(rocket, satellite, f);
    MulPositive(rocket.payloadCapacity, f.rocketCostPerKg);
    MulNonNegative(satellite.mass, f.satelliteCostPerKg + f.launchServices);
    MulPositive(c.subtotal, 1.0 + f.insurance + f.contingency);
  }

  /** With nothing to launch and nothing to carry, the estimate is 0 and only a bare "0" appears. */
  lemma EmptyMissionShowsBareZero(f: CostFactors)
    ensures CostAreaOf(Some(MissionCost(EstimatorRocket(1, "R", 0.0, 0.0),
      EstimatorSatellite(2, "S", 0.0, ""), f).total)) == BareZero
  {
  }

  lemma MulPositive(a: real, b: real)
    requires a > 0.0 && b > 0.0
    ensures a * b > 0.0
  {
  }

  // ---------------------------------------------------------------- presentation rules

  /** The organization table's success-rate colour: green from 80, yellow from 60, red below. */
  function SuccessRateColor(rate: real): (color: string)
    ensures rate >= 80.0 ==> color == "text-green-400"
    ensures 60.0 <= rate < 80.0 ==> color == "text-yellow-400"
    ensures rate < 60.0 ==> color == "text-red-400"
  {
    if rate >= 80.0 then "text-green-400" else if rate >= 60.0 then "text-yellow-400" else "text-red-400"
  }

  function ColorRank(color: string): nat
  {
    if color == "text-green-400" then 2 else if color == "text-yellow-400" then 1 else 0
  }

  /** A higher rate never gets a worse colour. */
  lemma SuccessRateColorMonotone(a: real, b: real)
    requires a <= b
    ensures ColorRank(SuccessRateColor(a)) <= ColorRank(SuccessRateColor(b))
  {
  }

  const LargeBreakpoint: int := 1024

  /**
   * The class of a section: `block` when its tab is active or the window is
   * at least 1024 pixels wide, otherwise hidden below the `lg` breakpoint.
   */
  function SectionClass(activeTab: Tab, section: Tab, innerWidth: int): (c: string)
    ensures c == "block" <==> activeTab == section || innerWidth >= LargeBreakpoint
    ensures c != "block" ==> c == "hidden lg:block"
  {
    if activeTab == section || innerWidth >= LargeBreakpoint then "block" else "hidden lg:block"
  }

  /** On a narrow window exactly the active section is shown; on a wide one, all of them. */
  lemma SectionVisibility(activeTab: Tab, innerWidth: int)
    ensures innerWidth < LargeBreakpoint ==>
      forall t: Tab :: SectionClass(activeTab, t, innerWidth) == "block" <==> t == activeTab
    ensures innerWidth >= LargeBreakpoint ==>
      forall t: Tab :: SectionClass(activeTab, t, innerWidth) == "block"
  {
  }

  /** `getStatusColor` of the mission lists. */
  function StatusColor(status: string): (color: string)
    ensures status == "completed" ==> color == "text-green-400"
    ensures status == "ongoing" ==> color == "text-blue-400"
    ensures status == "planned" ==> color == "text-yellow-400"
    ensures status !in ["completed", "ongoing", "planned"] ==> color == "text-gray-400"
  {
    match status
    case "completed" => "text-green-400"
    case "ongoing" => "text-blue-400"
    case "planned" => "text-yellow-400"
    case _ => "text-gray-400"
  }
}
