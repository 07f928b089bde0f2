/**
 * The teams feed: the conference and division catalogues (deduplicated, then
 * sorted) and the by-conference and by-division team lists.
 */
module Teams {
  import opened Wrappers
  import opened Filtering
  import opened Ordering

  /** A record of the teams feed. */
  datatype Team = Team(
    teamId: string,
    shortName: string,
    name: string,
    division: string,
    conference: string,
    logo: string,
    avcaRanking: Option<string>)

  /**
   * `getConferencesByDivision`: the conferences of the teams in `division` (of all teams
   * when `division` is `null` or `""`), each once, in ascending order.
   */
  function GetConferencesByDivision(teams: Option<seq<Team>>, division: Option<string>): (r: seq<string>)
    ensures teams.None? ==> r == []
    ensures StrictlySorted(r)
    ensures forall c :: c in r <==>
      teams.Some? && exists t :: t in teams.value && t.conference == c && (!Truthy(division) || t.division == division.value)
  {
    match teams
    case None => []
    case Some(all) =>
      var filtered := if Truthy(division) then Filter(all, (t: Team) => t.division == division.value) else all;
      SortedDistinct(Map(filtered, (t: Team) => t.conference))
  }

  /** `getAllConferences`: the conferences of all teams, each once, in ascending order. */
  function GetAllConferences(teams: Option<seq<Team>>): (r: seq<string>)
    ensures teams.None? ==> r == []
    ensures StrictlySorted(r)
    ensures forall c :: c in r <==> teams.Some? && exists t :: t in teams.value && t.conference == c
  {
    match teams
    case None => []
    case Some(all) => SortedDistinct(Map(all, (t: Team) => t.conference))
  }

  /** `getDivisions`: the divisions of all teams, each once, in ascending order. */
  function GetDivisions(teams: Option<seq<Team>>): (r: seq<string>)
    ensures teams.None? ==> r == []
    ensures StrictlySorted(r)
    ensures forall d :: d in r <==> teams.Some? && exists t :: t in teams.value && t.division == d
  {
    match teams
    case None => []
    case Some(all) => SortedDistinct(Map(all, (t: Team) => t.division))
  }

  /** A `null` or `""` division gives the same list as `getAllConferences`. */
  lemma NoDivisionMeansAllConferences(teams: Option<seq<Team>>, division: Option<string>)
    requires !Truthy(division)
    ensures GetConferencesByDivision(teams, division) == GetAllConferences(teams)
  {
    StrictlySortedUnique(GetConferencesByDivision(teams, division), GetAllConferences(teams));
  }

  /** `getTeamsByConference`: exactly the teams of `conference`, in order. */
  function GetTeamsByConference(teams: Option<seq<Team>>, conference: string): (r: seq<Team>)
    ensures teams.None? ==> r == []
    ensures teams.Some? ==> Keeps(r, teams.value, (t: Team) => t.conference == conference)
    ensures forall t :: t in r ==> t.conference == conference
  {
    match teams
    case None => []
    case Some(all) => Filter(all, (t: Team) => t.conference == conference)
  }

  /** `getTeamsByDivision`: exactly the teams of `division`, in order. */
  function GetTeamsByDivision(teams: Option<seq<Team>>, division: string): (r: seq<Team>)
    ensures teams.None? ==> r == []
    ensures teams.Some? ==> Keeps(r, teams.value, (t: Team) => t.division == division)
    ensures forall t :: t in r ==> t.division == division
  {
    match teams
    case None => []
    case Some(all) => Filter(all, (t: Team) => t.division == division)
  }
}
