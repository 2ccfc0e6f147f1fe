/** The mappings the MLB Stats API client applies to each decoded response:
    teams, the 40-man roster, people by id, standings and the schedule.
    A response is its `ok` flag and its decoded JSON body; the request string
    a call sends is an argument of `fetch` where the call builds one. */
module MlbApi {
  import opened Common
  import opened Domain
  import opened Strings

  /** A `fetch` response: `res.ok` and the decoded `await res.json()`. */
  datatype HttpResponse<B> = HttpResponse(ok: bool, body: B)

  /** `throw new Error(message)` for a response that is not ok. */
  function Failure<T>(message: string): Result<T> {
    Err(PlainError(message))
  }

  // ---------------------------------------------------------------------
  // fetchTeamsApi
  // ---------------------------------------------------------------------

  datatype ApiTeam = ApiTeam(id: int, name: string, teamName: string, abbreviation: string,
                             leagueId: int, divisionId: int)

  function ToTeam(t: ApiTeam): (r: Team)
    ensures r.id == t.id && r.name == t.name && r.teamName == t.teamName
    ensures r.abbreviation == t.abbreviation && r.leagueId == t.leagueId && r.divisionId == t.divisionId
  {
    Team(t.id, t.name, t.teamName, t.abbreviation, t.leagueId, t.divisionId)
  }

  function ToTeams(ts: seq<ApiTeam>): (r: seq<Team>)
    ensures |r| == |ts| && forall k :: 0 <= k < |ts| ==> r[k] == ToTeam(ts[k])
  {
    if ts == [] then [] else ToTeams(ts[..|ts| - 1]) + [ToTeam(ts[|ts| - 1])]
  }

  /** `fetchTeamsApi()`. */
  function FetchTeams(res: HttpResponse<seq<ApiTeam>>): (r: Result<seq<Team>>)
    ensures !res.ok <==> r.Err?
    ensures r.Err? ==> r.error == PlainError("Failed to fetch teams")
    ensures r.Ok? ==> |r.value| == |res.body|
    ensures r.Ok? ==> forall k :: 0 <= k < |res.body| ==> r.value[k] == ToTeam(res.body[k])
  {
    if !res.ok then Failure("Failed to fetch teams") else Ok(ToTeams(res.body))
  }

  // ---------------------------------------------------------------------
  // fetchTeamRoster40ManApi
  // ---------------------------------------------------------------------

  datatype ApiRosterEntry = ApiRosterEntry(personId: int, fullName: string, parentTeamId: int,
                                           position: Option<string>, statusCode: string)

  /** The properties every plain object inherits from `Object.prototype`
      (section 20.1.3 of ECMA-262, with the Annex B accessors): a bracket
      lookup of any of these names on PLAYER_STATUS finds a function or an
      object, which is truthy. */
  const ObjectPrototypeKeys: set<string> := {
    "constructor", "hasOwnProperty", "isPrototypeOf", "propertyIsEnumerable",
    "toLocaleString", "toString", "valueOf", "__proto__",
    "__defineGetter__", "__defineSetter__", "__lookupGetter__", "__lookupSetter__"}

  /** `PLAYER_STATUS[code] ? code : ""` as written: the truthiness test
      passes for an own key and for an inherited one. */
  function StatusLookupPasses(code: string): bool {
    code in PlayerStatus || code in ObjectPrototypeKeys
  }

  /** The code the roster mapping keeps, as written. */
  function NormaliseStatusAsWritten(code: string): string {
    if StatusLookupPasses(code) then code else ""
  }

  /** A roster entry whose status is an inherited property name keeps it,
      although PLAYER_STATUS has no entry (and so no priority) for it. */
  lemma InheritedStatusSlipsThrough()
    ensures NormaliseStatusAsWritten("constructor") == "constructor"
    ensures "constructor" !in PlayerStatus
  {
    assert "constructor" in ObjectPrototypeKeys;
    assert "constructor" != "" && "constructor" != "A" && "constructor" != "PL";
  }

  /** The evidently intended normalisation: a code without its own entry in
      PLAYER_STATUS becomes `""`. */
  function NormaliseStatus(code: string): (r: StatusCode)
    ensures code in PlayerStatus ==> r == code
    ensures code !in PlayerStatus ==> r == ""
  {
    if code in PlayerStatus then code else ""
  }

  /** `player.position?.code || ""`. */
  function PositionCode(position: Option<string>): (r: string)
    ensures position.Some? ==> r == position.value
    ensures position.None? ==> r == ""
  {
    if position.Some? && position.value != "" then position.value else ""
  }

  function ToRosterPlayer(e: ApiRosterEntry): (r: Player)
    ensures r.id == e.personId && r.teamId == e.parentTeamId && r.name == e.fullName
    ensures r.positionCode == PositionCode(e.position)
    ensures r.statusCode == NormaliseStatus(e.statusCode)
  {
    Player(e.personId, e.parentTeamId, e.fullName, PositionCode(e.position), NormaliseStatus(e.statusCode))
  }

  function ToRosterPlayers(es: seq<ApiRosterEntry>): (r: seq<Player>)
    ensures |r| == |es| && forall k :: 0 <= k < |es| ==> r[k] == ToRosterPlayer(es[k])
  {
    if es == [] then [] else ToRosterPlayers(es[..|es| - 1]) + [ToRosterPlayer(es[|es| - 1])]
  }

  /** `fetchTeamRoster40ManApi(teamId)`. */
  function FetchTeamRoster40Man(res: HttpResponse<seq<ApiRosterEntry>>): (r: Result<seq<Player>>)
    ensures !res.ok <==> r.Err?
    ensures r.Err? ==> r.error == PlainError("Failed to fetch team roster")
    ensures r.Ok? ==> |r.value| == |res.body|
    ensures r.Ok? ==> forall k :: 0 <= k < |res.body| ==> r.value[k] == ToRosterPlayer(res.body[k])
  {
    if !res.ok then Failure("Failed to fetch team roster") else Ok(ToRosterPlayers(res.body))
  }

  /** Every status a mapped roster entry carries is a key of PLAYER_STATUS,
      and an unknown one has become `""`, whose priority is 0. */
  lemma RosterStatusKnown(e: ApiRosterEntry)
    ensures ToRosterPlayer(e).statusCode in PlayerStatus
    ensures e.statusCode !in PlayerStatus ==> Priority(ToRosterPlayer(e).statusCode) == 0
  {
  }

  // ---------------------------------------------------------------------
  // fetchPlayersByIdsApi
  // ---------------------------------------------------------------------

  datatype CurrentTeam = CurrentTeam(id: int, parentOrgId: Option<int>)

  datatype ApiPerson = ApiPerson(id: int, fullName: string, currentTeam: CurrentTeam)

  /** `currentTeam.parentOrgId ?? currentTeam.id`: a minor-league club maps
      to its parent organisation. */
  function TeamOf(c: CurrentTeam): (r: int)
    ensures c.parentOrgId.Some? ==> r == c.parentOrgId.value
    ensures c.parentOrgId.None? ==> r == c.id
  {
    if c.parentOrgId.Some? then c.parentOrgId.value else c.id
  }

  function ToPersonPlayer(p: ApiPerson): (r: Player)
    ensures r.id == p.id && r.teamId == TeamOf(p.currentTeam) && r.name == p.fullName
    ensures r.positionCode == "" && r.statusCode == ""
  {
    Player(p.id, TeamOf(p.currentTeam), p.fullName, "", "")
  }

  function ToPersonPlayers(ps: seq<ApiPerson>): (r: seq<Player>)
    ensures |r| == |ps| && forall k :: 0 <= k < |ps| ==> r[k] == ToPersonPlayer(ps[k])
  {
    if ps == [] then [] else ToPersonPlayers(ps[..|ps| - 1]) + [ToPersonPlayer(ps[|ps| - 1])]
  }

  /** The `personIds` parameter: the ids joined with commas. */
  function PersonIdsParam(personIds: seq<int>): string {
    Join(MapIntToString(personIds), ",")
  }

  /** The parameter names every id, in order: splitting it at the commas and
      reading each piece as a decimal gives the ids back. */
  lemma PersonIdsParamRoundTrip(personIds: seq<int>)
    requires personIds != []
    ensures var pieces := Split(PersonIdsParam(personIds), ',');
      && |pieces| == |personIds|
      && forall k :: 0 <= k < |pieces| ==> pieces[k] == IntToString(personIds[k])
    ensures forall k :: 0 <= k < |personIds| ==> ParseInt(IntToString(personIds[k])) == personIds[k]
  {
    var parts := MapIntToString(personIds);
    forall k | 0 <= k < |parts| ensures ',' !in parts[k] {
      assert parts[k] == IntToString(personIds[k]);
    }
    SplitJoin(parts, ',');
    forall k | 0 <= k < |personIds| ensures ParseInt(IntToString(personIds[k])) == personIds[k] {
      ParseIntToString(personIds[k]);
    }
  }

  /** `fetchPlayersByIdsApi(personIds)`: no request at all for no ids. */
  function FetchPlayersByIds(personIds: seq<int>, fetch: string -> HttpResponse<seq<ApiPerson>>): (r: Result<seq<Player>>)
    ensures personIds == [] ==> r == Ok([])
    ensures personIds != [] ==> (r.Err? <==> !fetch(PersonIdsParam(personIds)).ok)
    ensures r.Err? ==> r.error == PlainError("Failed to fetch people")
    ensures personIds != [] && r.Ok? ==> |r.value| == |fetch(PersonIdsParam(personIds)).body|
    ensures personIds != [] && r.Ok? ==> var people := fetch(PersonIdsParam(personIds)).body;
      forall k :: 0 <= k < |people| ==> r.value[k] == ToPersonPlayer(people[k])
  {
    if personIds == [] then Ok([])
    else
      var res := fetch(PersonIdsParam(personIds));
      if !res.ok then Failure("Failed to fetch people") else Ok(ToPersonPlayers(res.body))
  }

  // ---------------------------------------------------------------------
  // fetchStandingsApi
  // ---------------------------------------------------------------------

  datatype ApiTeamRecord = ApiTeamRecord(teamId: int, divisionRank: string, wildCardLeader: Option<bool>)

  datatype ApiRecord = ApiRecord(leagueId: int, divisionId: int, teamRecords: seq<ApiTeamRecord>)

  /** One pushed standing: `wildCardLeader ?? false`, and a playoff spot for
      a division leader or a wild-card leader. */
  function ToStanding(leagueId: int, divisionId: int, tr: ApiTeamRecord): (r: Standing)
    ensures r.teamId == tr.teamId && r.leagueId == leagueId && r.divisionId == divisionId
    ensures r.divisionRank == tr.divisionRank
    ensures r.isWildCardLeader <==> tr.wildCardLeader == Some(true)
    ensures r.isInPlayoffSpot <==> r.divisionRank == "1" || r.isWildCardLeader
  {
    var isWildCardLeader := if tr.wildCardLeader.Some? then tr.wildCardLeader.value else false;
    Standing(tr.teamId, leagueId, divisionId, tr.divisionRank, isWildCardLeader,
             tr.divisionRank == "1" || isWildCardLeader)
  }

  /** The standings one record contributes, in team-record order. */
  function RecordStandings(leagueId: int, divisionId: int, trs: seq<ApiTeamRecord>): (r: seq<Standing>)
    ensures |r| == |trs|
  {
    if trs == [] then []
    else RecordStandings(leagueId, divisionId, trs[..|trs| - 1]) + [ToStanding(leagueId, divisionId, trs[|trs| - 1])]
  }

  /** The standings of all records, record after record. */
  function StandingsOf(records: seq<ApiRecord>): seq<Standing> {
    if records == [] then []
    else
      var rec := records[|records| - 1];
      StandingsOf(records[..|records| - 1]) + RecordStandings(rec.leagueId, rec.divisionId, rec.teamRecords)
  }

  /** `fetchStandingsApi()`: the nested `forEach` pushing into `standings`. */
  method FetchStandings(res: HttpResponse<seq<ApiRecord>>) returns (r: Result<seq<Standing>>)
    ensures !res.ok ==> r == Failure("Failed to fetch standings")
    ensures res.ok ==> r == Ok(StandingsOf(res.body))
  {
    if !res.ok {
      return Failure("Failed to fetch standings");
    }
    var records := res.body;
    var standings: seq<Standing> := [];
    for i := 0 to |records|
      invariant standings == StandingsOf(records[..i])
    {
      var record := records[i];
      var leagueId, divisionId := record.leagueId, record.divisionId;
      for j := 0 to |record.teamRecords|
        invariant standings == StandingsOf(records[..i]) + RecordStandings(leagueId, divisionId, record.teamRecords[..j])
      {
        var trs := record.teamRecords[..j + 1];
        assert trs[..j] == record.teamRecords[..j];
        standings := standings + [ToStanding(leagueId, divisionId, record.teamRecords[j])];
      }
      assert record.teamRecords[..|record.teamRecords|] == record.teamRecords;
      assert records[..i + 1][..i] == records[..i];
    }
    assert records[..|records|] == records;
    r := Ok(standings);
  }

  lemma {:induction false} StandingsAppend(a: seq<ApiRecord>, b: seq<ApiRecord>)
    ensures StandingsOf(a + b) == StandingsOf(a) + StandingsOf(b)
    decreases |b|
  {
    if b == [] {
      assert a + b == a;
    } else {
      var b', rec := b[..|b| - 1], b[|b| - 1];
      assert (a + b)[..|a + b| - 1] == a + b';
      assert (a + b)[|a + b| - 1] == rec;
      StandingsAppend(a, b');
      var last := RecordStandings(rec.leagueId, rec.divisionId, rec.teamRecords);
      assert StandingsOf(a + b) == StandingsOf(a + b') + last;
      assert StandingsOf(b) == StandingsOf(b') + last;
    }
  }

  /** Every flattened standing comes from one team record of one record and
      carries that record's league and division; the playoff rule holds for
      each entry. */
  lemma {:induction false} StandingsEntries(records: seq<ApiRecord>)
    ensures forall st :: st in StandingsOf(records) ==>
      && (st.isInPlayoffSpot <==> st.divisionRank == "1" || st.isWildCardLeader)
      && (exists i, j :: 0 <= i < |records| && 0 <= j < |records[i].teamRecords| &&
           st == ToStanding(records[i].leagueId, records[i].divisionId, records[i].teamRecords[j]))
    decreases |records|
  {
    if records != [] {
      var rs', rec := records[..|records| - 1], records[|records| - 1];
      StandingsEntries(rs');
      RecordEntries(rec.leagueId, rec.divisionId, rec.teamRecords);
      forall st | st in StandingsOf(records)
        ensures exists i, j :: (0 <= i < |records| && 0 <= j < |records[i].teamRecords| &&
          st == ToStanding(records[i].leagueId, records[i].divisionId, records[i].teamRecords[j]))
      {
        if st in StandingsOf(rs') {
          var i, j :| 0 <= i < |rs'| && 0 <= j < |rs'[i].teamRecords| &&
            st == ToStanding(rs'[i].leagueId, rs'[i].divisionId, rs'[i].teamRecords[j]);
          assert records[i] == rs'[i];
        } else {
          var j :| 0 <= j < |rec.teamRecords| && st == ToStanding(rec.leagueId, rec.divisionId, rec.teamRecords[j]);
          assert records[|records| - 1] == rec;
        }
      }
    }
  }

  lemma {:induction false} RecordEntries(leagueId: int, divisionId: int, trs: seq<ApiTeamRecord>)
    ensures forall st :: st in RecordStandings(leagueId, divisionId, trs) ==>
      exists j :: 0 <= j < |trs| && st == ToStanding(leagueId, divisionId, trs[j])
    decreases |trs|
  {
    if trs != [] {
      var trs' := trs[..|trs| - 1];
      RecordEntries(leagueId, divisionId, trs');
      forall st | st in RecordStandings(leagueId, divisionId, trs)
        ensures exists j :: 0 <= j < |trs| && st == ToStanding(leagueId, divisionId, trs[j])
      {
        if st in RecordStandings(leagueId, divisionId, trs') {
          var j :| 0 <= j < |trs'| && st == ToStanding(leagueId, divisionId, trs'[j]);
          assert trs[j] == trs'[j];
        } else {
          assert st == ToStanding(leagueId, divisionId, trs[|trs| - 1]);
        }
      }
    }
  }

  // ---------------------------------------------------------------------
  // fetchGamesByDateApi
  // ---------------------------------------------------------------------

  datatype ApiSide = ApiSide(teamId: int, teamName: string, probablePitcher: Option<Pitcher>)

  datatype ApiGame = ApiGame(gamePk: int, gameDate: string, home: ApiSide, away: ApiSide)

  datatype ApiDate = ApiDate(games: seq<ApiGame>)

  /** `date.toISOString().split("T")[0]`. */
  function DateParam(iso: string): string {
    Split(iso, 'T')[0]
  }

  /** The shape of `toISOString()`: `YYYY-MM-DDTHH:mm:ss.sssZ`. */
  predicate IsIsoString(iso: string) {
    && |iso| == 24
    && iso[10] == 'T'
    && forall k :: 0 <= k < 10 ==> iso[k] == '-' || '0' <= iso[k] <= '9'
  }

  /** The date parameter is the UTC calendar date, `YYYY-MM-DD`. */
  lemma DateParamIsDatePart(iso: string)
    requires IsIsoString(iso)
    ensures DateParam(iso) == iso[..10]
  {
    assert iso[10] == 'T';
    assert FirstIndex(iso, 'T') == 10;
    SplitFirst(iso, 'T', 10);
  }

  function ToGameTeam(side: ApiSide): (r: GameTeam)
    ensures r.teamId == side.teamId && r.probablePitcher == side.probablePitcher
  {
    GameTeam(side.teamId, side.probablePitcher)
  }

  function ToGame(g: ApiGame): (r: Game)
    ensures r.gamePk == g.gamePk && r.gameDate == g.gameDate
    ensures r.home == ToGameTeam(g.home) && r.away == ToGameTeam(g.away)
  {
    Game(g.gamePk, g.gameDate, ToGameTeam(g.home), ToGameTeam(g.away))
  }

  function ToGames(gs: seq<ApiGame>): (r: seq<Game>)
    ensures |r| == |gs| && forall k :: 0 <= k < |gs| ==> r[k] == ToGame(gs[k])
  {
    if gs == [] then [] else ToGames(gs[..|gs| - 1]) + [ToGame(gs[|gs| - 1])]
  }

  /** Reading `.games` of `dates[0]` when `dates` is empty throws a TypeError. */
  const NoDatesError: Thrown := PlainError("Cannot read properties of undefined (reading 'games')")

  /** `fetchGamesByDateApi(date)` for `iso == date.toISOString()`: the games
      of the first date only, pushed one by one. */
  method FetchGamesByDate(iso: string, fetch: string -> HttpResponse<seq<ApiDate>>) returns (r: Result<seq<Game>>)
    ensures var res := fetch(DateParam(iso));
      && (!res.ok ==> r == Failure("Failed to fetch games"))
      && (res.ok && res.body == [] ==> r == Err(NoDatesError))
      && (res.ok && res.body != [] ==> r == Ok(ToGames(res.body[0].games)))
  {
    var dateString := DateParam(iso);
    var res := fetch(dateString);
    if !res.ok {
      return Failure("Failed to fetch games");
    }
    if res.body == [] {
      return Err(NoDatesError);
    }
    var source := res.body[0].games;
    var games: seq<Game> := [];
    for k := 0 to |source|
      invariant games == ToGames(source[..k])
    {
      assert source[..k + 1][..k] == source[..k];
      games := games + [ToGame(source[k])];
    }
    assert source[..|source|] == source;
    r := Ok(games);
  }
}
