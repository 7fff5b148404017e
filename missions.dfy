/**
 * The missions page: the status filter with its four buttons and counts,
 * the status colour and icon, and the short objective and milestone lists
 * on each mission card.
 */
module Missions {

  import opened Wrappers
  import opened Seqs
  import opened Records

  datatype Milestone = Milestone(
    id: int,
    name: string,
    description: string,
    eventDate: string,
    milestoneType: string,
    status: string)

  datatype Objective = Objective(
    id: int,
    name: string,
    description: string,
    objectiveType: string,
    priority: int,
    isPrimary: bool)

  datatype SpaceMission = SpaceMission(
    id: int,
    name: string,
    description: string,
    status: string,
    startDate: string,
    endDate: string,
    organization: OrgRef,
    milestones: seq<Milestone>,
    objectives: seq<Objective>)

  function HasStatus(status: string): SpaceMission -> bool
  {
    (m: SpaceMission) => m.status == status
  }

  /** `filteredMissions`: every mission under "all", otherwise those whose status is the filter. */
  function FilteredMissions(missions: seq<SpaceMission>, filter: string): (r: seq<SpaceMission>)
    ensures filter == "all" ==> r == missions
    ensures filter != "all" ==>
      && IsSubsequence(r, missions)
      && (forall m :: m in r ==> m.status == filter)
      && (forall m :: m in missions && m.status == filter ==> m in r)
      && (forall m :: m in missions ==>
            multiset(r)[m] == if m.status == filter then multiset(missions)[m] else 0)
  {
    if filter == "all" then missions
    else
      FilterMultiplicity(missions, HasStatus(filter));
      Filter(missions, HasStatus(filter))
  }

  /** A key that no mission has as its status shows no card. */
  lemma FilterByUnknownStatusIsEmpty(missions: seq<SpaceMission>, filter: string)
    requires filter != "all" && forall m :: m in missions ==> m.status != filter
    ensures FilteredMissions(missions, filter) == []
  {
    FilterNone(missions, HasStatus(filter));
  }

  /** One filter button: its key, its caption, the count in brackets and whether it is highlighted. */
  datatype FilterButton = FilterButton(key: string, caption: string, count: nat, active: bool)

  /** The four buttons, in order, with the number of missions each would show. */
  function FilterButtons(missions: seq<SpaceMission>, filter: string): (r: seq<FilterButton>)
    ensures |r| == 4
    ensures r[0].key == "all" && r[1].key == "ongoing" && r[2].key == "planned" && r[3].key == "completed"
    ensures r[0].count == |missions|
    ensures forall i :: 0 <= i < 4 ==> (r[i].active <==> r[i].key == filter)
  {
    [ FilterButton("all", "All Missions", |missions|, filter == "all"),
      FilterButton("ongoing", "Ongoing", Count(missions, HasStatus("ongoing")), filter == "ongoing"),
      FilterButton("planned", "Planned", Count(missions, HasStatus("planned")), filter == "planned"),
      FilterButton("completed", "Completed", Count(missions, HasStatus("completed")), filter == "completed") ]
  }

  /** Each button's count is the number of cards shown once that button is pressed. */
  lemma ButtonCountIsShownCount(missions: seq<SpaceMission>, filter: string, i: nat)
    requires i < 4
    ensures FilterButtons(missions, filter)[i].count
            == |FilteredMissions(missions, FilterButtons(missions, filter)[i].key)|
  {
  }

  /** At most one button is highlighted, and none when the filter is not one of the four keys. */
  lemma AtMostOneButtonActive(missions: seq<SpaceMission>, filter: string, i: nat, j: nat)
    requires i < 4 && j < 4
    requires FilterButtons(missions, filter)[i].active && FilterButtons(missions, filter)[j].active
    ensures i == j
  {
  }

  /** The three status counts never add up to more than "All Missions". */
  lemma StatusCountsWithinTotal(missions: seq<SpaceMission>)
    ensures var b := FilterButtons(missions, "all");
      b[1].count + b[2].count + b[3].count <= b[0].count
  {
    var ongoing, planned, completed := HasStatus("ongoing"), HasStatus("planned"), HasStatus("completed");
    var either := (m: SpaceMission) => ongoing(m) || planned(m);
    var any := (m: SpaceMission) => either(m) || completed(m);
    CountDisjoint(missions, ongoing, planned, either);
    CountDisjoint(missions, either, completed, any);
  }

  // ---------------------------------------------------------------- colour and icon

  datatype Icon = PlayCircle | Clock | CheckCircle | AlertCircle

  /** `getStatusColor`: a colour per known status, gray otherwise (the match is case-sensitive). */
  function StatusColor(status: string): (color: string)
    ensures status == "ongoing" <==> color == "text-blue-400"
    ensures status == "planned" <==> color == "text-yellow-400"
    ensures status == "completed" <==> color == "text-green-400"
    ensures status == "cancelled" <==> color == "text-red-400"
    ensures status !in {"ongoing", "planned", "completed", "cancelled"} <==> color == "text-gray-400"
  {
    match status
    case "ongoing" => "text-blue-400"
    case "planned" => "text-yellow-400"
    case "completed" => "text-green-400"
    case "cancelled" => "text-red-400"
    case _ => "text-gray-400"
  }

  /** `getStatusIcon`: an icon per known status; planned missions and unknown statuses share the clock. */
  function StatusIcon(status: string): (icon: Icon)
    ensures icon == PlayCircle <==> status == "ongoing"
    ensures icon == CheckCircle <==> status == "completed"
    ensures icon == AlertCircle <==> status == "cancelled"
    ensures icon == Clock <==> status !in {"ongoing", "completed", "cancelled"}
  {
    match status
    case "ongoing" => PlayCircle
    case "planned" => Clock
    case "completed" => CheckCircle
    case "cancelled" => AlertCircle
    case _ => Clock
  }

  /**
   * The icon alone does not tell a planned mission from an unknown status;
   * the colour does.
   */
  lemma ClockIsAmbiguous()
    ensures StatusIcon("planned") == StatusIcon("delayed")
    ensures StatusColor("planned") != StatusColor("delayed")
  {
  }

  // ---------------------------------------------------------------- card previews

  /** The objectives on a card: the first three and a "+n more objectives" line for the rest. */
  function ObjectivesPreview(m: SpaceMission): (r: (seq<Objective>, Option<nat>))
    ensures |r.0| <= 3 && |r.0| <= |m.objectives| && r.0 == m.objectives[..|r.0|]
    ensures |m.objectives| <= 3 ==> r == (m.objectives, None)
    ensures |m.objectives| > 3 ==> |r.0| == 3 && r.1 == Some(|m.objectives| - 3)
  {
    Preview(m.objectives, 3)
  }

  /** The milestones on a card: the first three and a "+n more milestones" line for the rest. */
  function MilestonesPreview(m: SpaceMission): (r: (seq<Milestone>, Option<nat>))
    ensures |r.0| <= 3 && |r.0| <= |m.milestones| && r.0 == m.milestones[..|r.0|]
    ensures |m.milestones| <= 3 ==> r == (m.milestones, None)
    ensures |m.milestones| > 3 ==> |r.0| == 3 && r.1 == Some(|m.milestones| - 3)
  {
    Preview(m.milestones, 3)
  }
}
