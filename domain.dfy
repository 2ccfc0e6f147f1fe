/** The domain records the MLB mappings produce and the notification job
    consumes: teams, players, standings and games, plus the player-status
    table that ranks roster statuses. */
module Domain {
  import opened Common

  /** PLAYER_STATUS (src/shared/constants/player-status.ts): each roster
      status code and its priority; the empty code stands for "traded or
      not registered". */
  const PlayerStatus: map<string, nat> := map[
    "A" := 100, "PL" := 95, "BRV" := 90, "D7" := 85, "D10" := 85,
    "D15" := 80, "D60" := 70, "FME" := 50, "LV" := 45, "RM" := 42,
    "MIN" := 40, "NRI" := 30, "DFA" := 25, "WV" := 20, "RST" := 15,
    "SUS" := 10, "FA" := 5, "RET" := 3, "UDP" := 2, "" := 0]

  /** `PlayerStatusCode`: a key of PLAYER_STATUS. */
  type StatusCode = s: string | s in PlayerStatus witness ""

  /** `PLAYER_STATUS[code].priority`. */
  function Priority(code: StatusCode): nat {
    PlayerStatus[code]
  }

  datatype Team = Team(id: int, name: string, teamName: string, abbreviation: string,
                       leagueId: int, divisionId: int)

  datatype Player = Player(id: int, teamId: int, name: string, positionCode: string,
                           statusCode: StatusCode)

  datatype Standing = Standing(teamId: int, leagueId: int, divisionId: int, divisionRank: string,
                               isWildCardLeader: bool, isInPlayoffSpot: bool)

  datatype Pitcher = Pitcher(id: int, fullName: string)

  /** One side of a game: the team and its probable pitcher, if announced. */
  datatype GameTeam = GameTeam(teamId: int, probablePitcher: Option<Pitcher>)

  datatype Game = Game(gamePk: int, gameDate: string, home: GameTeam, away: GameTeam)
}
