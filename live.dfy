/**
 * The live-match feed: the status classifier for a match (`getMatchStatus`)
 * and the staged filter over the loaded matches (`filterMatches`).
 */
module Live {
  import opened Wrappers
  import opened Filtering

  /** The value `parseInt` gives for a score string: a number, or NaN when no digits could be read. */
  datatype ParsedScore = Num(n: int) | NaN

  /** One set's pair of scores, `set_<i>_team_1` and `set_<i>_team_2`; `None` is a `null` field. */
  datatype SetScore = SetScore(team1: Option<ParsedScore>, team2: Option<ParsedScore>)

  const NotPlayed := SetScore(None, None)

  /** The five sets of a match, set 1 first. */
  type FiveSets = s: seq<SetScore> | |s| == 5
    witness [NotPlayed, NotPlayed, NotPlayed, NotPlayed, NotPlayed]

  /** A record of the live feed. */
  datatype LiveMatch = LiveMatch(
    sets: FiveSets,
    location: Option<string>,
    liveStatsUrl: string,
    team1Id: string,
    team2Id: string,
    team1Name: string,
    team2Name: string,
    team1Division: string,
    team1Conference: string,
    team2Division: string,
    team2Conference: string,
    team1Logo: string,
    team2Logo: string,
    date: string,
    time: string)

  datatype MatchStatus = Live | Completed | Upcoming

  /** The `statusFilters` argument of `filterMatches`: which statuses to keep. */
  datatype StatusFilters = StatusFilters(live: bool, completed: bool, upcoming: bool)
  {
    /** `statusFilters[status]` */
    predicate Allows(status: MatchStatus)
    {
      match status
      case Live => live
      case Completed => completed
      case Upcoming => upcoming
    }
  }

  /** A set counts as played when neither of its two scores is `null`. */
  predicate Played(s: SetScore)
  {
    s.team1.Some? && s.team2.Some?
  }

  /** JavaScript `a > b` on two `parseInt` results: false whenever either side is NaN. */
  predicate Greater(a: ParsedScore, b: ParsedScore)
  {
    a.Num? && b.Num? && a.n > b.n
  }

  predicate Team1TakesSet(s: SetScore)
  {
    Played(s) && Greater(s.team1.value, s.team2.value)
  }

  predicate Team2TakesSet(s: SetScore)
  {
    Played(s) && Greater(s.team2.value, s.team1.value)
  }

  /** The three counters of the classifier. */
  datatype Tally = Tally(setsPlayed: nat, team1Wins: nat, team2Wins: nat)

  /** What one set adds to the counters. */
  function SetTally(s: SetScore): Tally
  {
    Tally(if Played(s) then 1 else 0,
          if Team1TakesSet(s) then 1 else 0,
          if Team2TakesSet(s) then 1 else 0)
  }

  function Add(t: Tally, u: Tally): Tally
  {
    Tally(t.setsPlayed + u.setsPlayed, t.team1Wins + u.team1Wins, t.team2Wins + u.team2Wins)
  }

  /** The counters after scanning the first `i` sets, in order. */
  function TallyUpTo(sets: seq<SetScore>, i: nat): Tally
    requires i <= |sets|
  {
    if i == 0 then Tally(0, 0, 0)
    else Add(TallyUpTo(sets, i - 1), SetTally(sets[i - 1]))
  }

  /** The counters after scanning every set. */
  function TallyOf(sets: seq<SetScore>): Tally
  {
    TallyUpTo(sets, |sets|)
  }

  /** The decision made once all five sets have been scanned. */
  function Classify(t: Tally): MatchStatus
  {
    if t.setsPlayed == 0 then Upcoming
    else if t.team1Wins >= 3 || t.team2Wins >= 3 then Completed
    else Live
  }

  /** The status `getMatchStatus` computes, as a function for the filter and the lemmas. */
  function StatusOf(m: LiveMatch): MatchStatus
  {
    Classify(TallyOf(m.sets))
  }

  /** `getMatchStatus`: walk sets 1 to 5, counting played sets and set wins. */
  method GetMatchStatus(m: LiveMatch) returns (status: MatchStatus)
    ensures status == StatusOf(m)
    ensures status == Upcoming <==> forall k :: 0 <= k < 5 ==> !Played(m.sets[k])
  {
    var setsPlayed, team1Wins, team2Wins := 0, 0, 0;
    for i := 1 to 6
      invariant Tally(setsPlayed, team1Wins, team2Wins) == TallyUpTo(m.sets, i - 1)
    {
      var s := m.sets[i - 1];
      if s.team1.Some? && s.team2.Some? {
        setsPlayed := setsPlayed + 1;
        var score1, score2 := s.team1.value, s.team2.value;
        if Greater(score1, score2) {
          team1Wins := team1Wins + 1;
        }
        if Greater(score2, score1) {
          team2Wins := team2Wins + 1;
        }
      }
    }
    forall k | 0 <= k < 5 && Played(m.sets[k]) ensures setsPlayed >= 1 {
      PlayedSetCounts(m.sets, 5, k);
    }
    if forall k :: 0 <= k < 5 ==> !Played(m.sets[k]) {
      NoSetPlayedMeansZeroPlayed(m.sets, 5);
    }
    if setsPlayed == 0 {
      status := Upcoming;
    } else if team1Wins >= 3 || team2Wins >= 3 {
      status := Completed;
    } else {
      status := Live;
    }
  }

  /** A played set among the first `i` makes the played counter positive. */
  lemma {:induction false} PlayedSetCounts(sets: seq<SetScore>, i: nat, k: nat)
    requires k < i <= |sets| && Played(sets[k])
    ensures TallyUpTo(sets, i).setsPlayed >= 1
  {
    if k < i - 1 {
      PlayedSetCounts(sets, i - 1, k);
    }
  }

  /** When none of the first `i` sets is played, the played counter is zero. */
  lemma {:induction false} NoSetPlayedMeansZeroPlayed(sets: seq<SetScore>, i: nat)
    requires i <= |sets|
    requires forall k :: 0 <= k < i ==> !Played(sets[k])
    ensures TallyUpTo(sets, i).setsPlayed == 0
  {
    if i > 0 {
      NoSetPlayedMeansZeroPlayed(sets, i - 1);
    }
  }

  /** Each played set credits at most one team, so the wins never exceed the played sets. */
  lemma {:induction false} TallyBounds(sets: seq<SetScore>, i: nat)
    requires i <= |sets|
    ensures TallyUpTo(sets, i).team1Wins + TallyUpTo(sets, i).team2Wins <= TallyUpTo(sets, i).setsPlayed <= i
  {
    if i > 0 {
      TallyBounds(sets, i - 1);
    }
  }

  /** With five sets, the two teams cannot both reach three set wins. */
  lemma NeverTwoWinners(m: LiveMatch)
    ensures !(TallyOf(m.sets).team1Wins >= 3 && TallyOf(m.sets).team2Wins >= 3)
  {
    TallyBounds(m.sets, 5);
  }

  /** How the status relates to the counters, case by case. */
  lemma StatusMeaning(m: LiveMatch)
    ensures StatusOf(m) == Upcoming <==> forall k :: 0 <= k < 5 ==> !Played(m.sets[k])
    ensures StatusOf(m) == Completed <==>
      TallyOf(m.sets).team1Wins >= 3 || TallyOf(m.sets).team2Wins >= 3
    ensures StatusOf(m) == Completed ==> TallyOf(m.sets).setsPlayed >= 3
    ensures StatusOf(m) == Live <==>
      1 <= TallyOf(m.sets).setsPlayed && TallyOf(m.sets).team1Wins <= 2 && TallyOf(m.sets).team2Wins <= 2
  {
    forall k | 0 <= k < 5 && Played(m.sets[k]) ensures TallyOf(m.sets).setsPlayed >= 1 {
      PlayedSetCounts(m.sets, 5, k);
    }
    if forall k :: 0 <= k < 5 ==> !Played(m.sets[k]) {
      NoSetPlayedMeansZeroPlayed(m.sets, 5);
    }
    TallyBounds(m.sets, 5);
  }

  /** The counters depend only on what each set adds to them. */
  lemma {:induction false} TallyPointwise(a: seq<SetScore>, b: seq<SetScore>, i: nat)
    requires i <= |a| == |b|
    requires forall k :: 0 <= k < i ==> SetTally(a[k]) == SetTally(b[k])
    ensures TallyUpTo(a, i) == TallyUpTo(b, i)
  {
    if i > 0 {
      TallyPointwise(a, b, i - 1);
    }
  }

  /** Replacing set `k` by one that adds the same to the counters leaves the status unchanged. */
  lemma ReplaceSetKeepsStatus(m: LiveMatch, k: nat, s: SetScore)
    requires k < 5
    requires SetTally(s) == SetTally(m.sets[k])
    ensures StatusOf(m.(sets := m.sets[k := s])) == StatusOf(m)
  {
    TallyPointwise(m.sets[k := s], m.sets, 5);
  }

  /** A half-filled set is ignored: the match has the status it would have with that set absent. */
  lemma HalfFilledSetIgnored(m: LiveMatch, k: nat)
    requires k < 5
    requires m.sets[k].team1.None? || m.sets[k].team2.None?
    ensures StatusOf(m) == StatusOf(m.(sets := m.sets[k := NotPlayed]))
  {
    ReplaceSetKeepsStatus(m, k, NotPlayed);
  }

  /**
   * A present score that parses to NaN still counts its set as played, but nobody
   * wins it: the match has the status it would have with that set tied 0-0.
   */
  lemma NaNSetCountsAsTie(m: LiveMatch, k: nat)
    requires k < 5
    requires Played(m.sets[k])
    requires m.sets[k].team1.value.NaN? || m.sets[k].team2.value.NaN?
    ensures SetTally(m.sets[k]) == Tally(1, 0, 0)
    ensures StatusOf(m) == StatusOf(m.(sets := m.sets[k := SetScore(Some(Num(0)), Some(Num(0)))]))
  {
    ReplaceSetKeepsStatus(m, k, SetScore(Some(Num(0)), Some(Num(0))));
  }

  function DivisionTest(divisions: seq<string>): LiveMatch -> bool
  {
    (m: LiveMatch) => m.team1Division in divisions || m.team2Division in divisions
  }

  function ConferenceTest(conferences: seq<string>): LiveMatch -> bool
  {
    (m: LiveMatch) => m.team1Conference in conferences || m.team2Conference in conferences
  }

  function TeamTest(teamIds: seq<string>): LiveMatch -> bool
  {
    (m: LiveMatch) => m.team1Id in teamIds || m.team2Id in teamIds
  }

  function StatusTest(statusFilters: StatusFilters): LiveMatch -> bool
  {
    m => statusFilters.Allows(StatusOf(m))
  }

  /** Whether one match survives all stages of `filterMatches`. */
  predicate Accepts(divisions: seq<string>, conferences: seq<string>, teamIds: seq<string>,
                    statusFilters: StatusFilters, m: LiveMatch)
  {
    && (|divisions| == 0 || m.team1Division in divisions || m.team2Division in divisions)
    && (|conferences| == 0 || m.team1Conference in conferences || m.team2Conference in conferences)
    && (|teamIds| == 0 || m.team1Id in teamIds || m.team2Id in teamIds)
    && statusFilters.Allows(StatusOf(m))
  }

  function AcceptsTest(divisions: seq<string>, conferences: seq<string>, teamIds: seq<string>,
                       statusFilters: StatusFilters): LiveMatch -> bool
  {
    m => Accepts(divisions, conferences, teamIds, statusFilters, m)
  }

  /** `filterMatches`: division, conference and team stages when their lists are non-empty, then the status stage. */
  function FilterMatches(matches: Option<seq<LiveMatch>>, divisions: seq<string>, conferences: seq<string>,
                         teamIds: seq<string>, statusFilters: StatusFilters): (r: seq<LiveMatch>)
    ensures matches.None? ==> r == []
    ensures forall m :: m in r <==>
      matches.Some? && m in matches.value && Accepts(divisions, conferences, teamIds, statusFilters, m)
  {
    match matches
    case None => []
    case Some(all) =>
      var byDivision := Stage(all, divisions, DivisionTest(divisions));
      var byConference := Stage(byDivision, conferences, ConferenceTest(conferences));
      var byTeam := Stage(byConference, teamIds, TeamTest(teamIds));
      Filter(byTeam, StatusTest(statusFilters))
  }

  /** The four stages together are one filter by `Accepts`. */
  lemma FilterMatchesIsOneFilter(all: seq<LiveMatch>, divisions: seq<string>, conferences: seq<string>,
                                 teamIds: seq<string>, statusFilters: StatusFilters)
    ensures FilterMatches(Some(all), divisions, conferences, teamIds, statusFilters)
         == Filter(all, AcceptsTest(divisions, conferences, teamIds, statusFilters))
  {
    var g1 := Guard(divisions, DivisionTest(divisions));
    var g2 := Guard(conferences, ConferenceTest(conferences));
    var g3 := Guard(teamIds, TeamTest(teamIds));
    var st := StatusTest(statusFilters);
    StageIsFilter(all, divisions, DivisionTest(divisions));
    var f1 := Filter(all, g1);
    StageIsFilter(f1, conferences, ConferenceTest(conferences));
    var f2 := Filter(f1, g2);
    StageIsFilter(f2, teamIds, TeamTest(teamIds));
    FilterFuse(all, g1, g2);
    FilterFuse(all, Both(g1, g2), g3);
    FilterFuse(all, Both(Both(g1, g2), g3), st);
    FilterExtensional(all, Both(Both(Both(g1, g2), g3), st), AcceptsTest(divisions, conferences, teamIds, statusFilters));
  }

  /** Without data the filter gives `[]`; otherwise it keeps exactly the accepted matches, in order. */
  lemma FilterMatchesKeeps(matches: Option<seq<LiveMatch>>, divisions: seq<string>, conferences: seq<string>,
                           teamIds: seq<string>, statusFilters: StatusFilters)
    ensures matches.None? ==> FilterMatches(matches, divisions, conferences, teamIds, statusFilters) == []
    ensures matches.Some? ==>
      Keeps(FilterMatches(matches, divisions, conferences, teamIds, statusFilters), matches.value,
            AcceptsTest(divisions, conferences, teamIds, statusFilters))
  {
    if matches.Some? {
      FilterMatchesIsOneFilter(matches.value, divisions, conferences, teamIds, statusFilters);
    }
  }

  /** With no criteria and every status flag set, the filter returns the loaded matches unchanged. */
  lemma FilterMatchesIdentity(all: seq<LiveMatch>)
    ensures FilterMatches(Some(all), [], [], [], StatusFilters(true, true, true)) == all
  {
    var sf := StatusFilters(true, true, true);
    FilterMatchesIsOneFilter(all, [], [], [], sf);
    FilterKeepsAll(all, AcceptsTest([], [], [], sf));
  }

  /** Filtering the filtered matches again with the same arguments changes nothing. */
  lemma FilterMatchesIdempotent(all: seq<LiveMatch>, divisions: seq<string>, conferences: seq<string>,
                                teamIds: seq<string>, statusFilters: StatusFilters)
    ensures var once := FilterMatches(Some(all), divisions, conferences, teamIds, statusFilters);
            FilterMatches(Some(once), divisions, conferences, teamIds, statusFilters) == once
  {
    var once := FilterMatches(Some(all), divisions, conferences, teamIds, statusFilters);
    FilterMatchesIsOneFilter(all, divisions, conferences, teamIds, statusFilters);
    FilterMatchesIsOneFilter(once, divisions, conferences, teamIds, statusFilters);
    FilterIdempotent(all, AcceptsTest(divisions, conferences, teamIds, statusFilters));
  }

  /** Over five sets the counters are the sum of what sets 1 to 5 add, in that order. */
  lemma TallyOfFive(s: seq<SetScore>)
    requires |s| == 5
    ensures TallyOf(s) == Add(Add(Add(Add(SetTally(s[0]), SetTally(s[1])), SetTally(s[2])), SetTally(s[3])), SetTally(s[4]))
  {
    assert TallyUpTo(s, 1) == Add(Tally(0, 0, 0), SetTally(s[0]));
    assert TallyUpTo(s, 2) == Add(TallyUpTo(s, 1), SetTally(s[1]));
    assert TallyUpTo(s, 3) == Add(TallyUpTo(s, 2), SetTally(s[2]));
    assert TallyUpTo(s, 4) == Add(TallyUpTo(s, 3), SetTally(s[3]));
  }
}
