/**
 * Weekly tournaments: the week number, its start and end (Unix seconds) and its
 * seed, computed from the time elapsed since the configured start.
 */
module Tournament {
  import opened Wrappers

  const SecsPerWeek: nat := 3600 * 24 * 7

  /** `Tournament { start_time, start_time_duration }`: the start as a duration since the epoch. */
  datatype Tournament = Tournament(startSecs: nat, startSubsecNanos: nat)

  datatype Duration = Duration(secs: nat, subsecNanos: nat)

  /** `Tournament::new(start_time)`: week 0 of the tournament starts at the configured instant. */
  function New(start: Duration): (t: Tournament)
    ensures forall seedOf: nat -> nat :: WeekData(t, 0, seedOf).startTime == start.secs
    ensures forall seedOf: nat -> nat :: WeekData(t, 0, seedOf).endTime == start.secs + SecsPerWeek
  {
    Tournament(start.secs, start.subsecNanos)
  }

  datatype TournamentData = TournamentData(week: nat, seed: nat, startTime: nat, endTime: nat)

  /**
   * One reading of `self.start_time.elapsed()` inside the retry loop: whole
   * seconds since the start, or a clock still before the start together with the
   * milliseconds spent retrying so far (`now.elapsed()`).
   */
  datatype Reading = Elapsed(secs: nat) | BeforeStart(retryMillis: nat)

  const RetryBudgetMillis: nat := 1000

  /** A reading that ends the retry loop. */
  predicate Decisive(r: Reading) {
    r.Elapsed? || r.retryMillis >= RetryBudgetMillis
  }

  /** Some reading in the stream ends the loop. */
  ghost predicate Terminates(readings: seq<Reading>) {
    exists i :: 0 <= i < |readings| && Decisive(readings[i])
  }

  /** The retry loop: the first reading that ends it decides between `Some(secs)` and `None`. */
  function ResolveElapsed(readings: seq<Reading>): (r: Option<nat>)
    requires Terminates(readings)
    ensures r.None? <==> exists k :: 0 <= k < |readings| && readings[k].BeforeStart?
                                     && readings[k].retryMillis >= RetryBudgetMillis
                                     && forall j :: 0 <= j < k ==> readings[j].BeforeStart?
    ensures r.Some? ==> exists k :: 0 <= k < |readings| && readings[k] == Elapsed(r.value)
                                    && forall j :: 0 <= j < k ==> readings[j].BeforeStart?
  {
    var k :| 0 <= k < |readings| && Decisive(readings[k]);
    if Decisive(readings[0]) then
      match readings[0]
      case Elapsed(secs) => Some(secs)
      case BeforeStart(_) => None
    else
      assert Decisive(readings[1..][k - 1]);
      var r := ResolveElapsed(readings[1..]);
      assert forall j :: 1 <= j < |readings| ==> readings[j] == readings[1..][j - 1];
      r
  }

  /** The body of `get_tournament_week` once the elapsed seconds are known. */
  function WeekData(t: Tournament, elapsedSecs: nat, seedOf: nat -> nat): TournamentData {
    var week := elapsedSecs / 3600 / 24 / 7;
    TournamentData(week, seedOf(week), week * 3600 * 24 * 7 + t.startSecs, (week + 1) * 3600 * 24 * 7 + t.startSecs)
  }

  /**
   * `get_tournament_week`. The clock readings replace `SystemTime`, and
   * `seedOf` stands for `StdRng::seed_from_u64(week).next_u32()`.
   */
  function GetTournamentWeek(t: Tournament, readings: seq<Reading>, seedOf: nat -> nat): (r: Option<TournamentData>)
    requires Terminates(readings)
    ensures r.None? <==> ResolveElapsed(readings).None?
    ensures r.Some? ==> r.value == WeekData(t, ResolveElapsed(readings).value, seedOf)
  {
    match ResolveElapsed(readings)
    case None => None
    case Some(elapsed) => Some(WeekData(t, elapsed, seedOf))
  }

  /** The week number, the week's bounds, and the current instant inside the week. */
  lemma WeekDataProperties(t: Tournament, elapsedSecs: nat, seedOf: nat -> nat)
    ensures var d := WeekData(t, elapsedSecs, seedOf);
      && d.week == elapsedSecs / SecsPerWeek
      && d.startTime == d.week * SecsPerWeek + t.startSecs
      && d.endTime - d.startTime == SecsPerWeek
      && d.startTime <= t.startSecs + elapsedSecs < d.endTime
      && d.seed == seedOf(d.week)
  {
    var week := elapsedSecs / 3600 / 24 / 7;
    assert week == elapsedSecs / SecsPerWeek by { DivDivDiv(elapsedSecs); }
    assert week * 3600 * 24 * 7 == week * SecsPerWeek;
    assert (week + 1) * SecsPerWeek == week * SecsPerWeek + SecsPerWeek;
  }

  lemma DivDivDiv(n: nat)
    ensures n / 3600 / 24 / 7 == n / SecsPerWeek
  {
    var q := n / SecsPerWeek;
    var r := n % SecsPerWeek;
    assert n == q * SecsPerWeek + r;
    assert n / 3600 == q * 168 + r / 3600;
    assert n / 3600 / 24 == q * 7 + r / 3600 / 24;
  }

  lemma WeekIsMonotonic(t: Tournament, e1: nat, e2: nat, seedOf: nat -> nat)
    requires e1 <= e2
    ensures WeekData(t, e1, seedOf).week <= WeekData(t, e2, seedOf).week
  {
    WeekDataProperties(t, e1, seedOf);
    WeekDataProperties(t, e2, seedOf);
  }

  /** Two instants in the same week get the same tournament, seed included. */
  lemma SameWeekSameData(t: Tournament, e1: nat, e2: nat, seedOf: nat -> nat)
    requires e1 / SecsPerWeek == e2 / SecsPerWeek
    ensures WeekData(t, e1, seedOf) == WeekData(t, e2, seedOf)
  {
    DivDivDiv(e1);
    DivDivDiv(e2);
  }
}
