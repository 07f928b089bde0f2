/**
 * The schedule feed: the staged filter `filterSchedule`, whose team fields may be
 * `null` and are tested for JavaScript truthiness, and the accessors
 * `getScheduleByDate` (a date prefix) and `getScheduleByTeam`.
 */
module Schedule {
  import opened Wrappers
  import opened Filtering

  /** A record of the schedule feed; the `team_<n>_*` fields other than the names may be `null`. */
  datatype ScheduleMatch = ScheduleMatch(
    date: string,
    boxScore: Option<string>,
    division: string,
    title: string,
    matchId: string,
    team1: string,
    team2: string,
    team1Id: Option<string>,
    team1Logo: Option<string>,
    team1Conference: Option<string>,
    team1Division: Option<string>,
    team1Name: string,
    team2Id: Option<string>,
    team2Logo: Option<string>,
    team2Conference: Option<string>,
    team2Division: Option<string>,
    team2Name: string,
    time: Option<string>)

  /** `(field && list.includes(field))`: a `null` or empty field never matches. */
  predicate SideIn(field: Option<string>, list: seq<string>)
  {
    Truthy(field) && field.value in list
  }

  function DivisionTest(divisions: seq<string>): ScheduleMatch -> bool
  {
    (m: ScheduleMatch) => SideIn(m.team1Division, divisions) || SideIn(m.team2Division, divisions)
  }

  function ConferenceTest(conferences: seq<string>): ScheduleMatch -> bool
  {
    (m: ScheduleMatch) => SideIn(m.team1Conference, conferences) || SideIn(m.team2Conference, conferences)
  }

  function TeamTest(teamIds: seq<string>): ScheduleMatch -> bool
  {
    (m: ScheduleMatch) => SideIn(m.team1Id, teamIds) || SideIn(m.team2Id, teamIds)
  }

  /** Whether one scheduled match survives the three stages of `filterSchedule`. */
  predicate Accepts(divisions: seq<string>, conferences: seq<string>, teamIds: seq<string>, m: ScheduleMatch)
  {
    && (|divisions| == 0 || SideIn(m.team1Division, divisions) || SideIn(m.team2Division, divisions))
    && (|conferences| == 0 || SideIn(m.team1Conference, conferences) || SideIn(m.team2Conference, conferences))
    && (|teamIds| == 0 || SideIn(m.team1Id, teamIds) || SideIn(m.team2Id, teamIds))
  }

  function AcceptsTest(divisions: seq<string>, conferences: seq<string>, teamIds: seq<string>): ScheduleMatch -> bool
  {
    m => Accepts(divisions, conferences, teamIds, m)
  }

  /** `filterSchedule`: the division, conference and team stages, each only when its list is non-empty. */
  function FilterSchedule(schedule: Option<seq<ScheduleMatch>>, divisions: seq<string>, conferences: seq<string>,
                          teamIds: seq<string>): (r: seq<ScheduleMatch>)
    ensures schedule.None? ==> r == []
    ensures forall m :: m in r <==>
      schedule.Some? && m in schedule.value && Accepts(divisions, conferences, teamIds, m)
  {
    match schedule
    case None => []
    case Some(all) =>
      var byDivision := Stage(all, divisions, DivisionTest(divisions));
      var byConference := Stage(byDivision, conferences, ConferenceTest(conferences));
      Stage(byConference, teamIds, TeamTest(teamIds))
  }

  /** The three stages together are one filter by `Accepts`. */
  lemma FilterScheduleIsOneFilter(all: seq<ScheduleMatch>, divisions: seq<string>, conferences: seq<string>,
                                  teamIds: seq<string>)
    ensures FilterSchedule(Some(all), divisions, conferences, teamIds)
         == Filter(all, AcceptsTest(divisions, conferences, teamIds))
  {
    var g1 := Guard(divisions, DivisionTest(divisions));
    var g2 := Guard(conferences, ConferenceTest(conferences));
    var g3 := Guard(teamIds, TeamTest(teamIds));
    StageIsFilter(all, divisions, DivisionTest(divisions));
    var f1 := Filter(all, g1);
    StageIsFilter(f1, conferences, ConferenceTest(conferences));
    var f2 := Filter(f1, g2);
    StageIsFilter(f2, teamIds, TeamTest(teamIds));
    FilterFuse(all, g1, g2);
    FilterFuse(all, Both(g1, g2), g3);
    FilterExtensional(all, Both(Both(g1, g2), g3), AcceptsTest(divisions, conferences, teamIds));
  }

  /** Without data the filter gives `[]`; otherwise it keeps exactly the accepted matches, in order. */
  lemma FilterScheduleKeeps(schedule: Option<seq<ScheduleMatch>>, divisions: seq<string>, conferences: seq<string>,
                            teamIds: seq<string>)
    ensures schedule.None? ==> FilterSchedule(schedule, divisions, conferences, teamIds) == []
    ensures schedule.Some? ==>
      Keeps(FilterSchedule(schedule, divisions, conferences, teamIds), schedule.value,
            AcceptsTest(divisions, conferences, teamIds))
  {
    if schedule.Some? {
      FilterScheduleIsOneFilter(schedule.value, divisions, conferences, teamIds);
    }
  }

  /** With all three lists empty, the filter returns the loaded schedule unchanged. */
  lemma FilterScheduleIdentity(all: seq<ScheduleMatch>)
    ensures FilterSchedule(Some(all), [], [], []) == all
  {
    FilterScheduleIsOneFilter(all, [], [], []);
    FilterKeepsAll(all, AcceptsTest([], [], []));
  }

  /** Filtering the filtered schedule again with the same lists changes nothing. */
  lemma FilterScheduleIdempotent(all: seq<ScheduleMatch>, divisions: seq<string>, conferences: seq<string>,
                                 teamIds: seq<string>)
    ensures var once := FilterSchedule(Some(all), divisions, conferences, teamIds);
            FilterSchedule(Some(once), divisions, conferences, teamIds) == once
  {
    var once := FilterSchedule(Some(all), divisions, conferences, teamIds);
    FilterScheduleIsOneFilter(all, divisions, conferences, teamIds);
    FilterScheduleIsOneFilter(once, divisions, conferences, teamIds);
    FilterIdempotent(all, AcceptsTest(divisions, conferences, teamIds));
  }

  /**
   * A match whose two division fields are both `null` or `""` is dropped by any non-empty
   * division list, even one that contains `""`.
   */
  lemma FalsyDivisionsNeverMatch(schedule: seq<ScheduleMatch>, divisions: seq<string>, conferences: seq<string>,
                                 teamIds: seq<string>, m: ScheduleMatch)
    requires |divisions| > 0
    requires !Truthy(m.team1Division) && !Truthy(m.team2Division)
    ensures m !in FilterSchedule(Some(schedule), divisions, conferences, teamIds)
  {
  }

  /** `getScheduleByDate`: exactly the matches whose date starts with `dateString`, in order. */
  function GetScheduleByDate(schedule: Option<seq<ScheduleMatch>>, dateString: string): (r: seq<ScheduleMatch>)
    ensures schedule.None? ==> r == []
    ensures schedule.Some? ==> Keeps(r, schedule.value, (m: ScheduleMatch) => dateString <= m.date)
    ensures forall m :: m in r <==>
      schedule.Some? && m in schedule.value && |dateString| <= |m.date| && m.date[..|dateString|] == dateString
  {
    match schedule
    case None => []
    case Some(all) => Filter(all, (m: ScheduleMatch) => dateString <= m.date)
  }

  /** The empty date prefix keeps the whole schedule. */
  lemma EmptyDateKeepsAll(all: seq<ScheduleMatch>)
    ensures GetScheduleByDate(Some(all), "") == all
  {
    FilterKeepsAll(all, (m: ScheduleMatch) => "" <= m.date);
  }

  /** `getScheduleByTeam`: exactly the matches with `teamId` on a side whose id is not `null`, in order. */
  function GetScheduleByTeam(schedule: Option<seq<ScheduleMatch>>, teamId: string): (r: seq<ScheduleMatch>)
    ensures schedule.None? ==> r == []
    ensures schedule.Some? ==>
      Keeps(r, schedule.value, (m: ScheduleMatch) => m.team1Id == Some(teamId) || m.team2Id == Some(teamId))
    ensures forall m :: m in r <==>
      && schedule.Some? && m in schedule.value
      && ((m.team1Id.Some? && m.team1Id.value == teamId) || (m.team2Id.Some? && m.team2Id.value == teamId))
  {
    match schedule
    case None => []
    case Some(all) => Filter(all, (m: ScheduleMatch) => m.team1Id == Some(teamId) || m.team2Id == Some(teamId))
  }
}
