/** The data the notification job prepares once per run: the games sorted by
    start time, each turned into the content of one game card, and the rule
    that decides whether a game concerns a user. */
module CronContent {
  import opened Common
  import opened Domain
  import Names
  import Sorting

  // ---------------------------------------------------------------------
  // sortGamesByStartTime
  // ---------------------------------------------------------------------

  /** `games.sort((a, b) => time(a) - time(b))`, with `timeOf` standing for
      `new Date(gameDate).getTime()`. */
  /** The comparator's key: the game's start time. */
  function StartTimeKey(timeOf: string -> int): Game -> int {
    (g: Game) => timeOf(g.gameDate)
  }

  method SortGamesByStartTime(games: array<Game>, timeOf: string -> int)
    modifies games
    ensures games[..] == Sorting.SortByKey(old(games[..]), StartTimeKey(timeOf))
  {
    Sorting.SortInPlace(games, StartTimeKey(timeOf));
  }

  /** The sorted games are the same games, by non-decreasing start time,
      and games starting at the same time keep their schedule order. */
  lemma SortedByStartTime(games: seq<Game>, timeOf: string -> int)
    ensures var key := StartTimeKey(timeOf);
      var r := Sorting.SortByKey(games, key);
      && multiset(r) == multiset(games)
      && (forall i, j :: 0 <= i < j < |r| ==> timeOf(r[i].gameDate) <= timeOf(r[j].gameDate))
      && (forall t: int :: Sorting.WithKey(r, key, t) == Sorting.WithKey(games, key, t))
  {
    var key := StartTimeKey(timeOf);
    var r := Sorting.SortByKey(games, key);
    Sorting.SortPermutes(games, key);
    Sorting.SortSorts(games, key);
    forall i, j | 0 <= i < j < |r| ensures timeOf(r[i].gameDate) <= timeOf(r[j].gameDate) {
      assert key(r[i]) <= key(r[j]);
    }
    forall t: int ensures Sorting.WithKey(r, key, t) == Sorting.WithKey(games, key, t) {
      Sorting.SortIsStable(games, key, t);
    }
  }

  // ---------------------------------------------------------------------
  // Lookup maps
  // ---------------------------------------------------------------------

  /** `new Map(s.map(x => [key(x), x]))`: a later entry with the same key
      overwrites an earlier one. */
  function IndexBy<T>(s: seq<T>, key: T -> int): (r: map<int, T>)
    ensures forall i :: 0 <= i < |s| ==> key(s[i]) in r
    ensures forall id :: id in r ==> key(r[id]) == id
  {
    if s == [] then map[] else IndexBy(s[..|s| - 1], key)[key(s[|s| - 1]) := s[|s| - 1]]
  }

  /** A key is in the map iff some element has it, and it maps to the last
      such element. */
  lemma {:induction false} IndexByLast<T>(s: seq<T>, key: T -> int, id: int)
    ensures id in IndexBy(s, key) <==> exists i :: 0 <= i < |s| && key(s[i]) == id
    ensures id in IndexBy(s, key) ==>
      exists i :: 0 <= i < |s| && IndexBy(s, key)[id] == s[i] && key(s[i]) == id &&
        forall j :: i < j < |s| ==> key(s[j]) != id
    decreases |s|
  {
    if s != [] {
      var s', x := s[..|s| - 1], s[|s| - 1];
      IndexByLast(s', key, id);
      if key(x) != id {
        if exists i :: 0 <= i < |s| && key(s[i]) == id {
          var i :| 0 <= i < |s| && key(s[i]) == id;
          assert s'[i] == s[i];
        }
        if id in IndexBy(s', key) {
          var i :| 0 <= i < |s'| && IndexBy(s', key)[id] == s'[i] && key(s'[i]) == id &&
            forall j :: i < j < |s'| ==> key(s'[j]) != id;
          assert s[i] == s'[i];
          assert forall j :: i < j < |s| ==> key(s[j]) != id by {
            forall j | i < j < |s| ensures key(s[j]) != id {
              if j < |s'| { assert s[j] == s'[j]; }
            }
          }
        }
      } else {
        assert IndexBy(s, key)[id] == s[|s| - 1];
      }
    }
  }

  function TeamKey(t: Team): int { t.id }

  function StandingKey(st: Standing): int { st.teamId }

  // ---------------------------------------------------------------------
  // generateStandingText
  // ---------------------------------------------------------------------

  const DefaultText: string := " - "

  /** DIVISION_ABBR_JP is not part of this model; a division without an
      abbreviation, or with an empty one, fails the `!divisionAbbr` test. */
  predicate HasAbbr(divisionAbbr: map<int, string>, divisionId: int) {
    divisionId in divisionAbbr && divisionAbbr[divisionId] != ""
  }

  /** `${divisionAbbr}${divisionRank}位`. */
  function RankText(divisionAbbr: map<int, string>, st: Standing): string
    requires HasAbbr(divisionAbbr, st.divisionId)
  {
    divisionAbbr[st.divisionId] + st.divisionRank + "位"
  }

  /** `generateStandingText(standing)`. */
  function GenerateStandingText(divisionAbbr: map<int, string>, standing: Option<Standing>): (r: string)
    ensures standing.None? || !HasAbbr(divisionAbbr, standing.value.divisionId) <==> r == DefaultText
    ensures standing.Some? && HasAbbr(divisionAbbr, standing.value.divisionId) ==>
      r == "(" + RankText(divisionAbbr, standing.value) + (if standing.value.isWildCardLeader then " WC" else "") + ")"
  {
    if standing.None? then DefaultText
    else if !HasAbbr(divisionAbbr, standing.value.divisionId) then DefaultText
    else if standing.value.isWildCardLeader then "(" + RankText(divisionAbbr, standing.value) + " WC)"
    else "(" + RankText(divisionAbbr, standing.value) + ")"
  }

  // ---------------------------------------------------------------------
  // generateGameContentDataList
  // ---------------------------------------------------------------------

  datatype SideContent = SideContent(teamId: int, teamName: string, standingText: string,
                                     pitcherLastName: string, probablePitcherId: Option<int>,
                                     isTeamInPlayoffSpot: bool)

  datatype GameContentData = GameContentData(startTimeJST: string, home: SideContent, away: SideContent)

  /** `pitcher?.fullName ? getLastName(pitcher.fullName) : " - "`. */
  function PitcherLastName(pitcher: Option<Pitcher>): (r: string)
    ensures pitcher.None? || pitcher.value.fullName == "" ==> r == DefaultText
    ensures pitcher.Some? && pitcher.value.fullName != "" ==> r == Names.GetLastName(pitcher.value.fullName)
  {
    if pitcher.Some? && pitcher.value.fullName != "" then Names.GetLastName(pitcher.value.fullName) else DefaultText
  }

  /** `pitcher?.id`. */
  function PitcherId(pitcher: Option<Pitcher>): Option<int> {
    if pitcher.Some? then Some(pitcher.value.id) else None
  }

  function Side(team: Team, standing: Option<Standing>, pitcher: Option<Pitcher>,
                divisionAbbr: map<int, string>): SideContent {
    SideContent(team.id, team.teamName, GenerateStandingText(divisionAbbr, standing),
                PitcherLastName(pitcher), PitcherId(pitcher),
                standing.Some? && standing.value.isInPlayoffSpot)
  }

  function Lookup<T>(m: map<int, T>, id: int): Option<T> {
    if id in m then Some(m[id]) else None
  }

  /** The card content of one game, or nothing when either team is unknown. */
  function ContentOf(teamsMap: map<int, Team>, standingsMap: map<int, Standing>,
                     divisionAbbr: map<int, string>, formatTime: string -> string, game: Game): (r: Option<GameContentData>)
    ensures r.None? <==> game.home.teamId !in teamsMap || game.away.teamId !in teamsMap
    ensures r.Some? ==>
      && r.value.startTimeJST == formatTime(game.gameDate)
      && r.value.home.teamId == teamsMap[game.home.teamId].id
      && r.value.away.teamId == teamsMap[game.away.teamId].id
      && (r.value.home.isTeamInPlayoffSpot <==> game.home.teamId in standingsMap && standingsMap[game.home.teamId].isInPlayoffSpot)
      && (r.value.away.isTeamInPlayoffSpot <==> game.away.teamId in standingsMap && standingsMap[game.away.teamId].isInPlayoffSpot)
      && r.value.home.probablePitcherId == PitcherId(game.home.probablePitcher)
      && r.value.away.probablePitcherId == PitcherId(game.away.probablePitcher)
    ensures r.Some? ==>
      && r.value.home.teamName == teamsMap[game.home.teamId].teamName
      && r.value.away.teamName == teamsMap[game.away.teamId].teamName
      && r.value.home.standingText == GenerateStandingText(divisionAbbr, Lookup(standingsMap, game.home.teamId))
      && r.value.away.standingText == GenerateStandingText(divisionAbbr, Lookup(standingsMap, game.away.teamId))
      && r.value.home.pitcherLastName == PitcherLastName(game.home.probablePitcher)
      && r.value.away.pitcherLastName == PitcherLastName(game.away.probablePitcher)
  {
    if game.home.teamId !in teamsMap || game.away.teamId !in teamsMap then None
    else
      Some(GameContentData(
        formatTime(game.gameDate),
        Side(teamsMap[game.home.teamId], Lookup(standingsMap, game.home.teamId), game.home.probablePitcher, divisionAbbr),
        Side(teamsMap[game.away.teamId], Lookup(standingsMap, game.away.teamId), game.away.probablePitcher, divisionAbbr)))
  }

  /** The contents of the games whose teams are both known, in game order. */
  function ContentList(teamsMap: map<int, Team>, standingsMap: map<int, Standing>,
                       divisionAbbr: map<int, string>, formatTime: string -> string, games: seq<Game>): (r: seq<GameContentData>)
    ensures |r| <= |games|
  {
    if games == [] then []
    else
      var c := ContentOf(teamsMap, standingsMap, divisionAbbr, formatTime, games[|games| - 1]);
      ContentList(teamsMap, standingsMap, divisionAbbr, formatTime, games[..|games| - 1]) + (if c.Some? then [c.value] else [])
  }

  /** `generateGameContentDataList(teams, standings, games)`; `formatTime`
      stands for the Asia/Tokyo `HH:mm` formatter. */
  method GenerateGameContentDataList(teams: seq<Team>, standings: seq<Standing>, games: seq<Game>,
                                     divisionAbbr: map<int, string>, formatTime: string -> string)
    returns (list: seq<GameContentData>)
    ensures list == ContentList(IndexBy(teams, TeamKey), IndexBy(standings, StandingKey), divisionAbbr, formatTime, games)
  {
    var teamsMap := IndexBy(teams, TeamKey);
    var standingsMap := IndexBy(standings, StandingKey);
    list := [];
    for i := 0 to |games|
      invariant list == ContentList(teamsMap, standingsMap, divisionAbbr, formatTime, games[..i])
    {
      assert games[..i + 1][..i] == games[..i];
      var game := games[i];
      var startTimeJST := formatTime(game.gameDate);
      var homeTeam := Lookup(teamsMap, game.home.teamId);
      var awayTeam := Lookup(teamsMap, game.away.teamId);
      if homeTeam.None? || awayTeam.None? {
        continue;
      }
      var homeTeamStanding := Lookup(standingsMap, game.home.teamId);
      var awayTeamStanding := Lookup(standingsMap, game.away.teamId);
      list := list + [GameContentData(startTimeJST,
        Side(homeTeam.value, homeTeamStanding, game.home.probablePitcher, divisionAbbr),
        Side(awayTeam.value, awayTeamStanding, game.away.probablePitcher, divisionAbbr))];
    }
    assert games[..|games|] == games;
  }

  lemma {:induction false} ContentListAppend(teamsMap: map<int, Team>, standingsMap: map<int, Standing>,
      divisionAbbr: map<int, string>, formatTime: string -> string, a: seq<Game>, b: seq<Game>)
    ensures ContentList(teamsMap, standingsMap, divisionAbbr, formatTime, a + b) ==
      ContentList(teamsMap, standingsMap, divisionAbbr, formatTime, a) + ContentList(teamsMap, standingsMap, divisionAbbr, formatTime, b)
    decreases |b|
  {
    if b == [] {
      assert a + b == a;
    } else {
      var b', g := b[..|b| - 1], b[|b| - 1];
      assert a + b == (a + b') + [g];
      assert b == b' + [g];
      ContentListSnoc(teamsMap, standingsMap, divisionAbbr, formatTime, a + b', g);
      ContentListSnoc(teamsMap, standingsMap, divisionAbbr, formatTime, b', g);
      ContentListAppend(teamsMap, standingsMap, divisionAbbr, formatTime, a, b');
    }
  }

  lemma ContentListSnoc(teamsMap: map<int, Team>, standingsMap: map<int, Standing>,
      divisionAbbr: map<int, string>, formatTime: string -> string, s: seq<Game>, g: Game)
    ensures var c := ContentOf(teamsMap, standingsMap, divisionAbbr, formatTime, g);
      ContentList(teamsMap, standingsMap, divisionAbbr, formatTime, s + [g]) ==
      ContentList(teamsMap, standingsMap, divisionAbbr, formatTime, s) + (if c.Some? then [c.value] else [])
  {
    assert (s + [g])[..|s|] == s;
  }

  /** An entry of the list is the content of one of the games. */
  lemma {:induction false} ContentListSound(teamsMap: map<int, Team>, standingsMap: map<int, Standing>,
      divisionAbbr: map<int, string>, formatTime: string -> string, games: seq<Game>, x: GameContentData)
    requires x in ContentList(teamsMap, standingsMap, divisionAbbr, formatTime, games)
    ensures exists i :: 0 <= i < |games| && ContentOf(teamsMap, standingsMap, divisionAbbr, formatTime, games[i]) == Some(x)
    decreases |games|
  {
    var g' := games[..|games| - 1];
    var c := ContentOf(teamsMap, standingsMap, divisionAbbr, formatTime, games[|games| - 1]);
    if x in ContentList(teamsMap, standingsMap, divisionAbbr, formatTime, g') {
      ContentListSound(teamsMap, standingsMap, divisionAbbr, formatTime, g', x);
      var i :| 0 <= i < |g'| && ContentOf(teamsMap, standingsMap, divisionAbbr, formatTime, g'[i]) == Some(x);
      assert games[i] == g'[i];
    } else {
      assert c == Some(x);
    }
  }

  /** The content of every game with two known teams is in the list. */
  lemma {:induction false} ContentListComplete(teamsMap: map<int, Team>, standingsMap: map<int, Standing>,
      divisionAbbr: map<int, string>, formatTime: string -> string, games: seq<Game>, i: nat)
    requires i < |games| && ContentOf(teamsMap, standingsMap, divisionAbbr, formatTime, games[i]).Some?
    ensures ContentOf(teamsMap, standingsMap, divisionAbbr, formatTime, games[i]).value in
      ContentList(teamsMap, standingsMap, divisionAbbr, formatTime, games)
    decreases |games|
  {
    var g' := games[..|games| - 1];
    if i < |g'| {
      assert g'[i] == games[i];
      ContentListComplete(teamsMap, standingsMap, divisionAbbr, formatTime, g', i);
    }
  }

  /** An entry is in the list iff it is the content of one of the games. */
  lemma ContentListMembers(teamsMap: map<int, Team>, standingsMap: map<int, Standing>,
      divisionAbbr: map<int, string>, formatTime: string -> string, games: seq<Game>, x: GameContentData)
    ensures x in ContentList(teamsMap, standingsMap, divisionAbbr, formatTime, games) <==>
      exists i :: 0 <= i < |games| && ContentOf(teamsMap, standingsMap, divisionAbbr, formatTime, games[i]) == Some(x)
  {
    if x in ContentList(teamsMap, standingsMap, divisionAbbr, formatTime, games) {
      ContentListSound(teamsMap, standingsMap, divisionAbbr, formatTime, games, x);
    }
    if exists i :: 0 <= i < |games| && ContentOf(teamsMap, standingsMap, divisionAbbr, formatTime, games[i]) == Some(x) {
      var i :| 0 <= i < |games| && ContentOf(teamsMap, standingsMap, divisionAbbr, formatTime, games[i]) == Some(x);
      ContentListComplete(teamsMap, standingsMap, divisionAbbr, formatTime, games, i);
    }
  }

  /** With every team known, no game is dropped. */
  lemma {:induction false} ContentListKeepsAll(teamsMap: map<int, Team>, standingsMap: map<int, Standing>,
      divisionAbbr: map<int, string>, formatTime: string -> string, games: seq<Game>)
    requires forall k :: 0 <= k < |games| ==> games[k].home.teamId in teamsMap && games[k].away.teamId in teamsMap
    ensures |ContentList(teamsMap, standingsMap, divisionAbbr, formatTime, games)| == |games|
    decreases |games|
  {
    if games != [] {
      var g' := games[..|games| - 1];
      assert forall k :: 0 <= k < |g'| ==> g'[k] == games[k];
      ContentListKeepsAll(teamsMap, standingsMap, divisionAbbr, formatTime, g');
    }
  }

  // ---------------------------------------------------------------------
  // shouldNotifyGameToUser
  // ---------------------------------------------------------------------

  /** `pitcherId ? registeredPlayerIds.includes(pitcherId) : false`: an
      absent id and the id 0 are falsy. */
  predicate PitcherRegistered(pitcherId: Option<int>, registeredPlayerIds: seq<int>) {
    pitcherId.Some? && pitcherId.value != 0 && pitcherId.value in registeredPlayerIds
  }

  /** `shouldNotifyGameToUser(data, registeredTeamIds, registeredPlayerIds)`. */
  predicate ShouldNotifyGameToUser(data: GameContentData, registeredTeamIds: seq<int>, registeredPlayerIds: seq<int>): (r: bool)
    ensures r ==> data.home.isTeamInPlayoffSpot || data.away.isTeamInPlayoffSpot
    ensures r ==> || data.home.teamId in registeredTeamIds || data.away.teamId in registeredTeamIds
                  || PitcherRegistered(data.home.probablePitcherId, registeredPlayerIds)
                  || PitcherRegistered(data.away.probablePitcherId, registeredPlayerIds)
  {
    var isHomeTeamRegistered := data.home.teamId in registeredTeamIds;
    var isHomeTeamPitcherRegistered := PitcherRegistered(data.home.probablePitcherId, registeredPlayerIds);
    var isAwayTeamRegistered := data.away.teamId in registeredTeamIds;
    var isAwayTeamPitcherRegistered := PitcherRegistered(data.away.probablePitcherId, registeredPlayerIds);
    || (isHomeTeamRegistered && data.away.isTeamInPlayoffSpot)
    || (isAwayTeamRegistered && data.home.isTeamInPlayoffSpot)
    || (isHomeTeamPitcherRegistered && data.away.isTeamInPlayoffSpot)
    || (isAwayTeamPitcherRegistered && data.home.isTeamInPlayoffSpot)
  }

  /** The rule regrouped: a game concerns a user iff a side the user follows
      (its team or its probable pitcher) faces a team in a playoff spot. */
  lemma ShouldNotifyRegrouped(data: GameContentData, registeredTeamIds: seq<int>, registeredPlayerIds: seq<int>)
    ensures ShouldNotifyGameToUser(data, registeredTeamIds, registeredPlayerIds) <==>
      || (data.away.isTeamInPlayoffSpot &&
           (data.home.teamId in registeredTeamIds || PitcherRegistered(data.home.probablePitcherId, registeredPlayerIds)))
      || (data.home.isTeamInPlayoffSpot &&
           (data.away.teamId in registeredTeamIds || PitcherRegistered(data.away.probablePitcherId, registeredPlayerIds)))
  {
  }

  /** No team of the game is in a playoff spot, or the user follows nothing:
      no notification. */
  lemma ShouldNotifyNeedsSpotAndRegistration(data: GameContentData, registeredTeamIds: seq<int>, registeredPlayerIds: seq<int>)
    ensures !data.home.isTeamInPlayoffSpot && !data.away.isTeamInPlayoffSpot ==>
      !ShouldNotifyGameToUser(data, registeredTeamIds, registeredPlayerIds)
    ensures !ShouldNotifyGameToUser(data, [], [])
  {
  }

  /** The rule does not care which side is home. */
  lemma ShouldNotifySymmetric(data: GameContentData, registeredTeamIds: seq<int>, registeredPlayerIds: seq<int>)
    ensures ShouldNotifyGameToUser(data, registeredTeamIds, registeredPlayerIds) ==
      ShouldNotifyGameToUser(data.(home := data.away, away := data.home), registeredTeamIds, registeredPlayerIds)
  {
  }

  /** Following more teams or players never removes a notification. */
  lemma ShouldNotifyMonotone(data: GameContentData, teamIds: seq<int>, playerIds: seq<int>,
                             moreTeamIds: seq<int>, morePlayerIds: seq<int>)
    requires forall t :: t in teamIds ==> t in moreTeamIds
    requires forall p :: p in playerIds ==> p in morePlayerIds
    ensures ShouldNotifyGameToUser(data, teamIds, playerIds) ==> ShouldNotifyGameToUser(data, moreTeamIds, morePlayerIds)
  {
  }

  /** A pitcher is never matched through the id 0. */
  lemma PitcherZeroNeverMatches(registeredPlayerIds: seq<int>)
    ensures !PitcherRegistered(Some(0), registeredPlayerIds)
    ensures !PitcherRegistered(None, registeredPlayerIds)
  {
  }
}
