/** `createLeaguesFromTeams` (the filter-based version): both leagues, each
    with its three divisions in their listed order, and each division with
    the teams of that league and division in input order. */
module Leagues {
  import Common
  import opened Domain

  datatype Division = Division(id: int, name: string, teams: seq<Team>)

  datatype League = League(id: int, name: string, divisions: seq<Division>)

  /** `Object.values(LEAGUE_ID)`: American, then National. */
  const AmericanLeague: int := 103
  const NationalLeague: int := 104
  const LeagueIds: seq<int> := [AmericanLeague, NationalLeague]

  /** LEAGUE_DIVISIONS: east, central, west of each league, with the ids of
      `DIVISION_ID`. */
  function LeagueDivisions(leagueId: int): seq<int>
    requires leagueId in LeagueIds
  {
    if leagueId == AmericanLeague then [201, 202, 200] else [204, 205, 203]
  }

  /** The league and division pairs that `createLeaguesFromTeams` lists. */
  predicate Listed(leagueId: int, divisionId: int) {
    leagueId in LeagueIds && divisionId in LeagueDivisions(leagueId)
  }

  /** `allTeams.filter(t => t.leagueId === leagueId && t.divisionId === divisionId)`. */
  function TeamsOf(allTeams: seq<Team>, leagueId: int, divisionId: int): (r: seq<Team>)
    ensures |r| <= |allTeams|
    ensures forall k :: 0 <= k < |r| ==> r[k].leagueId == leagueId && r[k].divisionId == divisionId
  {
    if allTeams == [] then []
    else
      var t := allTeams[|allTeams| - 1];
      TeamsOf(allTeams[..|allTeams| - 1], leagueId, divisionId) +
        (if t.leagueId == leagueId && t.divisionId == divisionId then [t] else [])
  }

  function MakeDivisions(allTeams: seq<Team>, leagueId: int, divisionIds: seq<int>,
                         divisionName: int -> string): (r: seq<Division>)
    ensures |r| == |divisionIds|
    ensures forall k :: 0 <= k < |r| ==>
      r[k] == Division(divisionIds[k], divisionName(divisionIds[k]), TeamsOf(allTeams, leagueId, divisionIds[k]))
  {
    if divisionIds == [] then []
    else
      var d := divisionIds[|divisionIds| - 1];
      MakeDivisions(allTeams, leagueId, divisionIds[..|divisionIds| - 1], divisionName) +
        [Division(d, divisionName(d), TeamsOf(allTeams, leagueId, d))]
  }

  function MakeLeague(allTeams: seq<Team>, leagueId: int, leagueName: int -> string,
                      divisionName: int -> string): League
    requires leagueId in LeagueIds
  {
    League(leagueId, leagueName(leagueId), MakeDivisions(allTeams, leagueId, LeagueDivisions(leagueId), divisionName))
  }

  /** `createLeaguesFromTeams(allTeams)`; `leagueName` and `divisionName`
      stand for LEAGUE_NAME_JP and DIVISION_NAME_JP. */
  function CreateLeaguesFromTeams(allTeams: seq<Team>, leagueName: int -> string,
                                  divisionName: int -> string): (r: seq<League>)
    ensures |r| == |LeagueIds|
    ensures forall l :: 0 <= l < |r| ==>
      && r[l].id == LeagueIds[l] && r[l].name == leagueName(LeagueIds[l])
      && |r[l].divisions| == |LeagueDivisions(LeagueIds[l])|
      && forall d :: 0 <= d < |r[l].divisions| ==>
           && r[l].divisions[d].id == LeagueDivisions(LeagueIds[l])[d]
           && r[l].divisions[d].name == divisionName(r[l].divisions[d].id)
           && r[l].divisions[d].teams == TeamsOf(allTeams, LeagueIds[l], r[l].divisions[d].id)
  {
    [MakeLeague(allTeams, AmericanLeague, leagueName, divisionName),
     MakeLeague(allTeams, NationalLeague, leagueName, divisionName)]
  }

  /** The filter keeps input order: it distributes over concatenation. */
  lemma {:induction false} TeamsOfAppend(a: seq<Team>, b: seq<Team>, leagueId: int, divisionId: int)
    ensures TeamsOf(a + b, leagueId, divisionId) == TeamsOf(a, leagueId, divisionId) + TeamsOf(b, leagueId, divisionId)
    decreases |b|
  {
    if b == [] {
      assert a + b == a;
    } else {
      var b' := b[..|b| - 1];
      assert (a + b)[..|a + b| - 1] == a + b';
      TeamsOfAppend(a, b', leagueId, divisionId);
    }
  }

  /** A team is in a division's list iff it is an input team of that league
      and that division. */
  lemma {:induction false} TeamsOfMembers(allTeams: seq<Team>, leagueId: int, divisionId: int, t: Team)
    ensures t in TeamsOf(allTeams, leagueId, divisionId) <==>
      t in allTeams && t.leagueId == leagueId && t.divisionId == divisionId
    decreases |allTeams|
  {
    if allTeams != [] {
      var s' := allTeams[..|allTeams| - 1];
      TeamsOfMembers(s', leagueId, divisionId, t);
      Common.LastSplit(allTeams);
    }
  }

  /** Where a team of the input ends up: in the one division of its pair when
      that pair is listed, and nowhere when it is not. */
  lemma TeamPlacement(allTeams: seq<Team>, leagueName: int -> string, divisionName: int -> string, t: Team)
    requires t in allTeams
    ensures var r := CreateLeaguesFromTeams(allTeams, leagueName, divisionName);
      forall l, d :: 0 <= l < |r| && 0 <= d < |r[l].divisions| ==>
        (t in r[l].divisions[d].teams <==> t.leagueId == r[l].id && t.divisionId == r[l].divisions[d].id)
    ensures !Listed(t.leagueId, t.divisionId) ==>
      var r := CreateLeaguesFromTeams(allTeams, leagueName, divisionName);
      forall l, d :: 0 <= l < |r| && 0 <= d < |r[l].divisions| ==> t !in r[l].divisions[d].teams
  {
    var r := CreateLeaguesFromTeams(allTeams, leagueName, divisionName);
    forall l, d | 0 <= l < |r| && 0 <= d < |r[l].divisions|
      ensures t in r[l].divisions[d].teams <==> t.leagueId == r[l].id && t.divisionId == r[l].divisions[d].id
    {
      TeamsOfMembers(allTeams, r[l].id, r[l].divisions[d].id, t);
    }
  }
}
