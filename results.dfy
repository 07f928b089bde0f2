/**
 * The results feed: the staged filter `filterResults` and the single-key
 * accessors `getResultsByDate` and `getResultsByTeam`.
 */
module Results {
  import opened Wrappers
  import opened Filtering

  /** One set's final scores; `None` is a `null` field. These scores are never classified. */
  datatype ResultSetScore = ResultSetScore(team1: Option<int>, team2: Option<int>)

  /** The five set score pairs of a result, set 1 first. */
  type FiveResultSets = s: seq<ResultSetScore> | |s| == 5
    witness [ResultSetScore(None, None), ResultSetScore(None, None), ResultSetScore(None, None),
             ResultSetScore(None, None), ResultSetScore(None, None)]

  /** A record of the results feed. */
  datatype ResultMatch = ResultMatch(
    sets: FiveResultSets,
    location: Option<string>,
    liveStatsUrl: Option<string>,
    team1Id: string,
    team2Id: string,
    team1Name: string,
    team2Name: string,
    team1Division: string,
    team1Conference: string,
    team2Division: string,
    team2Conference: string,
    team1Logo: string,
    team2Logo: string,
    date: string,
    matchId: string,
    boxScore: Option<string>,
    winnerId: string,
    time: string,
    team1Rank: Option<int>,
    team2Rank: Option<int>)

  function DivisionTest(divisions: seq<string>): ResultMatch -> bool
  {
    (m: ResultMatch) => m.team1Division in divisions || m.team2Division in divisions
  }

  function ConferenceTest(conferences: seq<string>): ResultMatch -> bool
  {
    (m: ResultMatch) => m.team1Conference in conferences || m.team2Conference in conferences
  }

  function TeamTest(teamIds: seq<string>): ResultMatch -> bool
  {
    (m: ResultMatch) => m.team1Id in teamIds || m.team2Id in teamIds
  }

  /** Whether one result survives the three stages of `filterResults`. */
  predicate Accepts(divisions: seq<string>, conferences: seq<string>, teamIds: seq<string>, m: ResultMatch)
  {
    && (|divisions| == 0 || m.team1Division in divisions || m.team2Division in divisions)
    && (|conferences| == 0 || m.team1Conference in conferences || m.team2Conference in conferences)
    && (|teamIds| == 0 || m.team1Id in teamIds || m.team2Id in teamIds)
  }

  function AcceptsTest(divisions: seq<string>, conferences: seq<string>, teamIds: seq<string>): ResultMatch -> bool
  {
    m => Accepts(divisions, conferences, teamIds, m)
  }

  /** `filterResults`: the division, conference and team stages, each only when its list is non-empty. */
  function FilterResults(results: Option<seq<ResultMatch>>, divisions: seq<string>, conferences: seq<string>,
                         teamIds: seq<string>): (r: seq<ResultMatch>)
    ensures results.None? ==> r == []
    ensures forall m :: m in r <==> results.Some? && m in results.value && Accepts(divisions, conferences, teamIds, m)
  {
    match results
    case None => []
    case Some(all) =>
      var byDivision := Stage(all, divisions, DivisionTest(divisions));
      var byConference := Stage(byDivision, conferences, ConferenceTest(conferences));
      Stage(byConference, teamIds, TeamTest(teamIds))
  }

  /** The three stages together are one filter by `Accepts`. */
  lemma FilterResultsIsOneFilter(all: seq<ResultMatch>, divisions: seq<string>, conferences: seq<string>,
                                 teamIds: seq<string>)
    ensures FilterResults(Some(all), divisions, conferences, teamIds)
         == Filter(all, AcceptsTest(divisions, conferences, teamIds))
  {
    var g1 := Guard(divisions, DivisionTest(divisions));
    var g2 := Guard(conferences, ConferenceTest(conferences));
    var g3 := Guard(teamIds, TeamTest(teamIds));
    StageIsFilter(all, divisions, DivisionTest(divisions));
    var f1 := Filter(all, g1);
    StageIsFilter(f1, conferences, ConferenceTest(conferences));
    var f2 := Filter(f1, g2);
    StageIsFilter(f2, teamIds, TeamTest(teamIds));
    FilterFuse(all, g1, g2);
    FilterFuse(all, Both(g1, g2), g3);
    FilterExtensional(all, Both(Both(g1, g2), g3), AcceptsTest(divisions, conferences, teamIds));
  }

  /** Without data the filter gives `[]`; otherwise it keeps exactly the accepted results, in order. */
  lemma FilterResultsKeeps(results: Option<seq<ResultMatch>>, divisions: seq<string>, conferences: seq<string>,
                           teamIds: seq<string>)
    ensures results.None? ==> FilterResults(results, divisions, conferences, teamIds) == []
    ensures results.Some? ==>
      Keeps(FilterResults(results, divisions, conferences, teamIds), results.value,
            AcceptsTest(divisions, conferences, teamIds))
  {
    if results.Some? {
      FilterResultsIsOneFilter(results.value, divisions, conferences, teamIds);
    }
  }

  /** With all three lists empty, the filter returns the loaded results unchanged. */
  lemma FilterResultsIdentity(all: seq<ResultMatch>)
    ensures FilterResults(Some(all), [], [], []) == all
  {
    FilterResultsIsOneFilter(all, [], [], []);
    FilterKeepsAll(all, AcceptsTest([], [], []));
  }

  /** Filtering the filtered results again with the same lists changes nothing. */
  lemma FilterResultsIdempotent(all: seq<ResultMatch>, divisions: seq<string>, conferences: seq<string>,
                                teamIds: seq<string>)
    ensures var once := FilterResults(Some(all), divisions, conferences, teamIds);
            FilterResults(Some(once), divisions, conferences, teamIds) == once
  {
    var once := FilterResults(Some(all), divisions, conferences, teamIds);
    FilterResultsIsOneFilter(all, divisions, conferences, teamIds);
    FilterResultsIsOneFilter(once, divisions, conferences, teamIds);
    FilterIdempotent(all, AcceptsTest(divisions, conferences, teamIds));
  }

  /** Running the stages in the opposite order (team, conference, division) gives the same result. */
  lemma FilterResultsStagesCommute(all: seq<ResultMatch>, divisions: seq<string>, conferences: seq<string>,
                                   teamIds: seq<string>)
    ensures Stage(Stage(Stage(all, teamIds, TeamTest(teamIds)), conferences, ConferenceTest(conferences)),
                  divisions, DivisionTest(divisions))
         == FilterResults(Some(all), divisions, conferences, teamIds)
  {
    var g1 := Guard(divisions, DivisionTest(divisions));
    var g2 := Guard(conferences, ConferenceTest(conferences));
    var g3 := Guard(teamIds, TeamTest(teamIds));
    StageIsFilter(all, teamIds, TeamTest(teamIds));
    var f3 := Filter(all, g3);
    StageIsFilter(f3, conferences, ConferenceTest(conferences));
    var f32 := Filter(f3, g2);
    StageIsFilter(f32, divisions, DivisionTest(divisions));
    FilterFuse(all, g3, g2);
    FilterFuse(all, Both(g3, g2), g1);
    FilterExtensional(all, Both(Both(g3, g2), g1), AcceptsTest(divisions, conferences, teamIds));
    FilterResultsIsOneFilter(all, divisions, conferences, teamIds);
  }

  /** `getResultsByDate`: exactly the results played on `dateString`, in order. */
  function GetResultsByDate(results: Option<seq<ResultMatch>>, dateString: string): (r: seq<ResultMatch>)
    ensures results.None? ==> r == []
    ensures results.Some? ==> Keeps(r, results.value, (m: ResultMatch) => m.date == dateString)
    ensures forall m :: m in r <==> results.Some? && m in results.value && m.date == dateString
  {
    match results
    case None => []
    case Some(all) => Filter(all, (m: ResultMatch) => m.date == dateString)
  }

  /** `getResultsByTeam`: exactly the results in which `teamId` played on either side, in order. */
  function GetResultsByTeam(results: Option<seq<ResultMatch>>, teamId: string): (r: seq<ResultMatch>)
    ensures results.None? ==> r == []
    ensures results.Some? ==> Keeps(r, results.value, (m: ResultMatch) => m.team1Id == teamId || m.team2Id == teamId)
    ensures forall m :: m in r <==>
      results.Some? && m in results.value && (m.team1Id == teamId || m.team2Id == teamId)
  {
    match results
    case None => []
    case Some(all) => Filter(all, (m: ResultMatch) => m.team1Id == teamId || m.team2Id == teamId)
  }
}
