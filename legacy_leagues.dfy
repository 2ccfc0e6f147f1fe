/** The legacy `createLeaguesFromTeams`: a `reduce` that pushes every team
    onto the list of its league and division inside the module-level
    `initialLeagues` object, which is also the value it returns. The object
    lives as long as the module, so calls accumulate. */
module LegacyLeagues {
  import opened Common
  import opened Domain
  import Leagues

  datatype DivisionEntry = DivisionEntry(name: string, teams: seq<Team>)

  datatype LeagueEntry = LeagueEntry(name: string, divisions: map<int, DivisionEntry>)

  /** The `Leagues` object, keyed by league id and then by division id (the
      source keys them by the ids' decimal strings; a number used as a
      property key is converted to the same string). */
  type LeagueTable = map<int, LeagueEntry>

  /** `initialLeagues`, with the names of the LEAGUE constant. */
  const InitialLeagues: LeagueTable := map[
    103 := LeagueEntry("ア・リーグ", map[
      201 := DivisionEntry("東地区", []),
      202 := DivisionEntry("中地区", []),
      200 := DivisionEntry("西地区", [])]),
    104 := LeagueEntry("ナ・リーグ", map[
      204 := DivisionEntry("東地区", []),
      205 := DivisionEntry("中地区", []),
      203 := DivisionEntry("西地区", [])])]

  /** The six pre-built keys, as pairs. */
  const Pairs: seq<(int, int)> := [(103, 201), (103, 202), (103, 200), (104, 204), (104, 205), (104, 203)]

  /** The table has exactly the pre-built leagues and divisions. */
  predicate Shaped(st: LeagueTable) {
    && st.Keys == {103, 104}
    && st[103].divisions.Keys == {201, 202, 200}
    && st[104].divisions.Keys == {204, 205, 203}
  }

  /** `acc[team.leagueId].divisions[team.divisionId]` exists. */
  predicate Known(st: LeagueTable, t: Team) {
    t.leagueId in st && t.divisionId in st[t.leagueId].divisions
  }

  /** Reading `.divisions` or `.teams` of `undefined` throws a TypeError. */
  function MissingKeyError(st: LeagueTable, t: Team): Thrown {
    if t.leagueId !in st then PlainError("Cannot read properties of undefined (reading 'divisions')")
    else PlainError("Cannot read properties of undefined (reading 'teams')")
  }

  /** The `push` of one team. */
  function AddTeam(st: LeagueTable, t: Team): LeagueTable
    requires Known(st, t)
  {
    var league := st[t.leagueId];
    var division := league.divisions[t.divisionId];
    st[t.leagueId := league.(divisions := league.divisions[t.divisionId := division.(teams := division.teams + [t])])]
  }

  /** The reduce over `teams`: the table after it, and the error of the first
      team whose keys are missing (the teams before it stay pushed). */
  function AddAll(st: LeagueTable, teams: seq<Team>): (LeagueTable, Option<Thrown>) {
    if teams == [] then (st, None)
    else
      var (before, failure) := AddAll(st, teams[..|teams| - 1]);
      var t := teams[|teams| - 1];
      if failure.Some? then (before, failure)
      else if Known(before, t) then (AddTeam(before, t), None)
      else (before, Some(MissingKeyError(before, t)))
  }

  function DivisionTeams(st: LeagueTable, leagueId: int, divisionId: int): seq<Team> {
    if leagueId in st && divisionId in st[leagueId].divisions then st[leagueId].divisions[divisionId].teams else []
  }

  /** The number of teams in the six division lists. */
  function TeamCount(st: LeagueTable): nat {
    |DivisionTeams(st, 103, 201)| + |DivisionTeams(st, 103, 202)| + |DivisionTeams(st, 103, 200)| +
    |DivisionTeams(st, 104, 204)| + |DivisionTeams(st, 104, 205)| + |DivisionTeams(st, 104, 203)|
  }

  /** The module-level object and the function that fills it. */
  class LeagueRegistry {
    var initialLeagues: LeagueTable

    predicate Valid()
      reads this
    {
      Shaped(initialLeagues)
    }

    constructor ()
      ensures Valid() && initialLeagues == InitialLeagues
    {
      initialLeagues := InitialLeagues;
    }

    /** `createLeaguesFromTeams(teams)`: returns the shared table's value at
        the end of the call. */
    method CreateLeaguesFromTeams(teams: seq<Team>) returns (r: Result<LeagueTable>)
      requires Valid()
      modifies this
      ensures Valid()
      ensures initialLeagues == AddAll(old(initialLeagues), teams).0
      ensures AddAll(old(initialLeagues), teams).1.None? ==> r == Ok(initialLeagues)
      ensures AddAll(old(initialLeagues), teams).1.Some? ==> r == Err(AddAll(old(initialLeagues), teams).1.value)
    {
      ghost var start := initialLeagues;
      for i := 0 to |teams|
        invariant Shaped(initialLeagues)
        invariant AddAll(start, teams[..i]) == (initialLeagues, None)
      {
        assert teams[..i + 1][..i] == teams[..i];
        var team := teams[i];
        if team.leagueId !in initialLeagues || team.divisionId !in initialLeagues[team.leagueId].divisions {
          AddAllStops(start, teams, i + 1);
          assert teams[..|teams|] == teams;
          return Err(MissingKeyError(initialLeagues, team));
        }
        AddTeamShaped(initialLeagues, team);
        initialLeagues := AddTeam(initialLeagues, team);
      }
      assert teams[..|teams|] == teams;
      r := Ok(initialLeagues);
    }
  }

  lemma AddTeamShaped(st: LeagueTable, t: Team)
    requires Shaped(st) && Known(st, t)
    ensures Shaped(AddTeam(st, t))
  {
  }

  /** After the first failure the reduce changes nothing more. */
  lemma {:induction false} AddAllStops(st: LeagueTable, teams: seq<Team>, n: nat)
    requires n <= |teams| && AddAll(st, teams[..n]).1.Some?
    ensures AddAll(st, teams) == AddAll(st, teams[..n])
    decreases |teams| - n
  {
    if n < |teams| {
      var p := teams[..n + 1];
      assert p[..n] == teams[..n];
      AddAllStops(st, teams, n + 1);
    } else {
      assert teams[..n] == teams;
    }
  }

  /** A team whose pair is not one of the six makes the call fail. */
  lemma KnownIffListed(st: LeagueTable, t: Team)
    requires Shaped(st)
    ensures Known(st, t) <==> (t.leagueId, t.divisionId) in Pairs
    ensures Known(st, t) <==> Leagues.Listed(t.leagueId, t.divisionId)
  {
  }

  /** Some team of `teams` has a pair that is not one of the six. */
  predicate SomeUnlisted(teams: seq<Team>) {
    exists k :: 0 <= k < |teams| && (teams[k].leagueId, teams[k].divisionId) !in Pairs
  }

  lemma SomeUnlistedSnoc(teams: seq<Team>)
    requires teams != []
    ensures var t := teams[|teams| - 1];
      SomeUnlisted(teams) <==> SomeUnlisted(teams[..|teams| - 1]) || (t.leagueId, t.divisionId) !in Pairs
  {
    var s' := teams[..|teams| - 1];
    if SomeUnlisted(s') {
      var k :| 0 <= k < |s'| && (s'[k].leagueId, s'[k].divisionId) !in Pairs;
      assert teams[k] == s'[k];
    }
    if SomeUnlisted(teams) {
      var k :| 0 <= k < |teams| && (teams[k].leagueId, teams[k].divisionId) !in Pairs;
      if k < |s'| {
        assert s'[k] == teams[k];
      }
    }
  }

  /** The reduce fails iff some team's pair is not one of the six. */
  lemma {:induction false} AddAllFailsIff(st: LeagueTable, teams: seq<Team>)
    requires Shaped(st)
    ensures Shaped(AddAll(st, teams).0)
    ensures AddAll(st, teams).1.Some? <==> exists k :: 0 <= k < |teams| && (teams[k].leagueId, teams[k].divisionId) !in Pairs
    decreases |teams|
  {
    if teams != [] {
      var s' := teams[..|teams| - 1];
      var t := teams[|teams| - 1];
      AddAllFailsIff(st, s');
      var before := AddAll(st, s').0;
      KnownIffListed(before, t);
      if Known(before, t) {
        AddTeamShaped(before, t);
      }
      SomeUnlistedSnoc(teams);
      assert SomeUnlisted(s') <==> AddAll(st, s').1.Some?;
    }
  }

  /** One push changes only the list of the team's own division. */
  lemma AddTeamEffect(st: LeagueTable, t: Team, leagueId: int, divisionId: int)
    requires Known(st, t)
    ensures DivisionTeams(AddTeam(st, t), leagueId, divisionId) ==
      DivisionTeams(st, leagueId, divisionId) + (if t.leagueId == leagueId && t.divisionId == divisionId then [t] else [])
  {
  }

  lemma AddTeamCount(st: LeagueTable, t: Team)
    requires Shaped(st) && Known(st, t)
    ensures TeamCount(AddTeam(st, t)) == TeamCount(st) + 1
  {
    var st' := AddTeam(st, t);
    AddTeamEffect(st, t, 103, 201);
    AddTeamEffect(st, t, 103, 202);
    AddTeamEffect(st, t, 103, 200);
    AddTeamEffect(st, t, 104, 204);
    AddTeamEffect(st, t, 104, 205);
    AddTeamEffect(st, t, 104, 203);
  }

  /** With every pair one of the six, the reduce does not fail and its last
      step pushes the last team. */
  lemma AddAllLast(st: LeagueTable, teams: seq<Team>)
    requires Shaped(st) && teams != []
    requires forall k :: 0 <= k < |teams| ==> (teams[k].leagueId, teams[k].divisionId) in Pairs
    ensures var before := AddAll(st, teams[..|teams| - 1]).0;
      && Shaped(before)
      && Known(before, teams[|teams| - 1])
      && AddAll(st, teams) == (AddTeam(before, teams[|teams| - 1]), None)
  {
    var s' := teams[..|teams| - 1];
    var t := teams[|teams| - 1];
    AddAllFailsIff(st, s');
    AddAllFailsIff(st, teams);
    KnownIffListed(AddAll(st, s').0, t);
  }

  /** With every pair one of the six, each division list grows by exactly its
      own teams, in input order. */
  lemma {:induction false} AddAllAppends(st: LeagueTable, teams: seq<Team>, leagueId: int, divisionId: int)
    requires Shaped(st)
    requires forall k :: 0 <= k < |teams| ==> (teams[k].leagueId, teams[k].divisionId) in Pairs
    ensures AddAll(st, teams).1.None?
    ensures DivisionTeams(AddAll(st, teams).0, leagueId, divisionId) ==
      DivisionTeams(st, leagueId, divisionId) + Leagues.TeamsOf(teams, leagueId, divisionId)
    decreases |teams|
  {
    if teams != [] {
      var s' := teams[..|teams| - 1];
      var t := teams[|teams| - 1];
      assert forall k :: 0 <= k < |s'| ==> s'[k] == teams[k];
      AddAllAppends(st, s', leagueId, divisionId);
      AddAllLast(st, teams);
      AddTeamEffect(AddAll(st, s').0, t, leagueId, divisionId);
    }
  }

  /** With every pair one of the six, the call adds exactly one team per input team. */
  lemma {:induction false} AddAllCounts(st: LeagueTable, teams: seq<Team>)
    requires Shaped(st)
    requires forall k :: 0 <= k < |teams| ==> (teams[k].leagueId, teams[k].divisionId) in Pairs
    ensures TeamCount(AddAll(st, teams).0) == TeamCount(st) + |teams|
    decreases |teams|
  {
    if teams != [] {
      var s' := teams[..|teams| - 1];
      assert forall k :: 0 <= k < |s'| ==> s'[k] == teams[k];
      AddAllCounts(st, s');
      AddAllLast(st, teams);
      AddTeamCount(AddAll(st, s').0, teams[|teams| - 1]);
    }
  }

  /** A second call continues from the first: calling with `a` and then with
      `b` leaves the table that one call with `a + b` would. */
  lemma {:induction false} AddAllTwice(st: LeagueTable, a: seq<Team>, b: seq<Team>)
    requires AddAll(st, a).1.None?
    ensures AddAll(AddAll(st, a).0, b) == AddAll(st, a + b)
    decreases |b|
  {
    if b == [] {
      assert a + b == a;
    } else {
      var b' := b[..|b| - 1];
      assert (a + b)[..|a + b| - 1] == a + b';
      AddAllTwice(st, a, b');
    }
  }
}
