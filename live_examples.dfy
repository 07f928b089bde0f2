/** Worked classifications of match records, checked against the classifier's specification. */
module LiveExamples {
  import opened Wrappers
  import opened Live

  /** Sets 25-20, 23-25, 25-18, 22-25, 15-10: three sets to two for team 1, so the match is over. */
  lemma CompletedExample(m: LiveMatch)
    requires m.sets[0] == SetScore(Some(Num(25)), Some(Num(20)))
    requires m.sets[1] == SetScore(Some(Num(23)), Some(Num(25)))
    requires m.sets[2] == SetScore(Some(Num(25)), Some(Num(18)))
    requires m.sets[3] == SetScore(Some(Num(22)), Some(Num(25)))
    requires m.sets[4] == SetScore(Some(Num(15)), Some(Num(10)))
    ensures TallyOf(m.sets) == Tally(5, 3, 2) && StatusOf(m) == Completed
  {
    var s := m.sets;
    assert SetTally(s[0]) == Tally(1, 1, 0);
    assert SetTally(s[1]) == Tally(1, 0, 1);
    assert SetTally(s[2]) == Tally(1, 1, 0);
    assert SetTally(s[3]) == Tally(1, 0, 1);
    assert SetTally(s[4]) == Tally(1, 1, 0);
    TallyOfFive(s);
  }

  /** Sets 25-20 and 20-25 with sets 3 to 5 absent: one set each, still in progress. */
  lemma LiveExample(m: LiveMatch)
    requires m.sets[0] == SetScore(Some(Num(25)), Some(Num(20)))
    requires m.sets[1] == SetScore(Some(Num(20)), Some(Num(25)))
    requires m.sets[2] == m.sets[3] == m.sets[4] == NotPlayed
    ensures TallyOf(m.sets) == Tally(2, 1, 1) && StatusOf(m) == Live
  {
    var s := m.sets;
    assert SetTally(s[0]) == Tally(1, 1, 0);
    assert SetTally(s[1]) == Tally(1, 0, 1);
    assert SetTally(NotPlayed) == Tally(0, 0, 0);
    TallyOfFive(s);
  }

  /** No set has scores yet. */
  lemma UpcomingExample(m: LiveMatch)
    requires forall k :: 0 <= k < 5 ==> m.sets[k] == NotPlayed
    ensures TallyOf(m.sets) == Tally(0, 0, 0) && StatusOf(m) == Upcoming
  {
    var t := TallyOf(m.sets);
    assert t == TallyUpTo(m.sets, 5);
    NoSetPlayedMeansZeroPlayed(m.sets, 5);
    TallyBounds(m.sets, 5);
    assert t.setsPlayed == 0 && t.team1Wins == 0 && t.team2Wins == 0;
  }
}
