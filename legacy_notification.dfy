/** The older plain-text notification route: one text message per user,
    the games joined by blank lines, one token issued for the whole run. */
module LegacyNotification {
  import opened Common
  import opened Domain
  import opened Strings
  import opened UsersRepository
  import CronContent
  import CronDispatch

  // ---------------------------------------------------------------------
  // Game messages
  // ---------------------------------------------------------------------

  /** The side of a game as the relevance rule sees it. */
  datatype SideInfo = SideInfo(teamId: int, probablePitcherId: Option<int>, isInPlayoffSpot: bool)

  datatype GameMessageData = GameMessageData(gameMessage: string, home: SideInfo, away: SideInfo)

  /** `generateStandingText(standing)` of this route: no parentheses. */
  function GenerateStandingText(divisionAbbr: map<int, string>, standing: Option<Standing>): (r: string)
    ensures standing.None? || !CronContent.HasAbbr(divisionAbbr, standing.value.divisionId) <==> r == CronContent.DefaultText
    ensures standing.Some? && CronContent.HasAbbr(divisionAbbr, standing.value.divisionId) ==>
      r == CronContent.RankText(divisionAbbr, standing.value) + (if standing.value.isWildCardLeader then " WC" else "")
  {
    if standing.None? || !CronContent.HasAbbr(divisionAbbr, standing.value.divisionId) then CronContent.DefaultText
    else
      var divisionRankText := CronContent.RankText(divisionAbbr, standing.value);
      RankTextNotDefault(divisionAbbr, standing.value);
      if standing.value.isWildCardLeader then divisionRankText + " WC" else divisionRankText
  }

  /** A rank text ends with 位, so it is never the default text. */
  lemma RankTextNotDefault(divisionAbbr: map<int, string>, st: Standing)
    requires CronContent.HasAbbr(divisionAbbr, st.divisionId)
    ensures CronContent.RankText(divisionAbbr, st) != CronContent.DefaultText
    ensures CronContent.RankText(divisionAbbr, st) + " WC" != CronContent.DefaultText
  {
    var t := CronContent.RankText(divisionAbbr, st);
    assert t[|t| - 1] == '位';
    if |t| == 3 {
      assert CronContent.DefaultText[2] == ' ';
    }
  }

  /** The two routes print the same standing, the newer one in parentheses. */
  lemma StandingTextsAgree(divisionAbbr: map<int, string>, standing: Option<Standing>)
    ensures var legacy := GenerateStandingText(divisionAbbr, standing);
      CronContent.GenerateStandingText(divisionAbbr, standing) ==
        if legacy == CronContent.DefaultText then legacy else "(" + legacy + ")"
  {
    if standing.Some? && CronContent.HasAbbr(divisionAbbr, standing.value.divisionId) {
      RankTextNotDefault(divisionAbbr, standing.value);
    }
  }

  /** The six lines of a game message. */
  function GameLines(startTimeJST: string, homeTeamName: string, homeTeamStandingText: string,
                     homeTeamPitcherLastName: string, awayTeamName: string, awayTeamStandingText: string,
                     awayTeamPitcherLastName: string): seq<string>
  {
    ["【🕐" + startTimeJST + "】",
     homeTeamName + "（" + homeTeamStandingText + "）",
     "先発：" + homeTeamPitcherLastName,
     "    [vs]",
     awayTeamName + "（" + awayTeamStandingText + "）",
     "先発：" + awayTeamPitcherLastName]
  }

  /** `buildGameMessage(...)`: the six lines joined with newlines. */
  function BuildGameMessage(startTimeJST: string, homeTeamName: string, homeTeamStandingText: string,
                            homeTeamPitcherLastName: string, awayTeamName: string, awayTeamStandingText: string,
                            awayTeamPitcherLastName: string): (r: string)
    ensures r != ""
  {
    var lines := GameLines(startTimeJST, homeTeamName, homeTeamStandingText, homeTeamPitcherLastName,
                           awayTeamName, awayTeamStandingText, awayTeamPitcherLastName);
    assert Join(lines, "\n") == lines[0] + "\n" + Join(lines[1..], "\n");
    Join(lines, "\n")
  }

  /** When no field holds a newline, splitting the message at newlines gives
      the six lines back. */
  lemma GameMessageLines(startTimeJST: string, homeTeamName: string, homeTeamStandingText: string,
                         homeTeamPitcherLastName: string, awayTeamName: string, awayTeamStandingText: string,
                         awayTeamPitcherLastName: string)
    requires '\n' !in startTimeJST && '\n' !in homeTeamName && '\n' !in homeTeamStandingText
    requires '\n' !in homeTeamPitcherLastName && '\n' !in awayTeamName && '\n' !in awayTeamStandingText
    requires '\n' !in awayTeamPitcherLastName
    ensures Split(BuildGameMessage(startTimeJST, homeTeamName, homeTeamStandingText, homeTeamPitcherLastName,
                                   awayTeamName, awayTeamStandingText, awayTeamPitcherLastName), '\n') ==
      GameLines(startTimeJST, homeTeamName, homeTeamStandingText, homeTeamPitcherLastName,
                awayTeamName, awayTeamStandingText, awayTeamPitcherLastName)
  {
    var lines := GameLines(startTimeJST, homeTeamName, homeTeamStandingText, homeTeamPitcherLastName,
                           awayTeamName, awayTeamStandingText, awayTeamPitcherLastName);
    forall k | 0 <= k < |lines| ensures '\n' !in lines[k] {
      NoNewlineConcat(k, lines, startTimeJST, homeTeamName, homeTeamStandingText, homeTeamPitcherLastName,
                      awayTeamName, awayTeamStandingText, awayTeamPitcherLastName);
    }
    SplitJoin(lines, '\n');
  }

  lemma NoNewlineConcat(k: nat, lines: seq<string>, startTimeJST: string, homeTeamName: string,
                        homeTeamStandingText: string, homeTeamPitcherLastName: string, awayTeamName: string,
                        awayTeamStandingText: string, awayTeamPitcherLastName: string)
    requires '\n' !in startTimeJST && '\n' !in homeTeamName && '\n' !in homeTeamStandingText
    requires '\n' !in homeTeamPitcherLastName && '\n' !in awayTeamName && '\n' !in awayTeamStandingText
    requires '\n' !in awayTeamPitcherLastName
    requires lines == GameLines(startTimeJST, homeTeamName, homeTeamStandingText, homeTeamPitcherLastName,
                                awayTeamName, awayTeamStandingText, awayTeamPitcherLastName)
    requires k < |lines|
    ensures '\n' !in lines[k]
  {
  }

  /** The message data of one game, or nothing when either team is unknown. */
  function MessageDataOf(teamsMap: map<int, Team>, standingsMap: map<int, Standing>,
                         divisionAbbr: map<int, string>, formatTime: string -> string, game: Game): (r: Option<GameMessageData>)
    ensures r.None? <==> game.home.teamId !in teamsMap || game.away.teamId !in teamsMap
    ensures r.Some? ==>
      && r.value.gameMessage != ""
      && r.value.home.teamId == teamsMap[game.home.teamId].id
      && r.value.away.teamId == teamsMap[game.away.teamId].id
      && (r.value.home.isInPlayoffSpot <==> game.home.teamId in standingsMap && standingsMap[game.home.teamId].isInPlayoffSpot)
      && (r.value.away.isInPlayoffSpot <==> game.away.teamId in standingsMap && standingsMap[game.away.teamId].isInPlayoffSpot)
      && r.value.home.probablePitcherId == CronContent.PitcherId(game.home.probablePitcher)
      && r.value.away.probablePitcherId == CronContent.PitcherId(game.away.probablePitcher)
    ensures r.Some? ==> r.value.gameMessage == BuildGameMessage(
      formatTime(game.gameDate),
      teamsMap[game.home.teamId].teamName,
      GenerateStandingText(divisionAbbr, CronContent.Lookup(standingsMap, game.home.teamId)),
      CronContent.PitcherLastName(game.home.probablePitcher),
      teamsMap[game.away.teamId].teamName,
      GenerateStandingText(divisionAbbr, CronContent.Lookup(standingsMap, game.away.teamId)),
      CronContent.PitcherLastName(game.away.probablePitcher))
  {
    if game.home.teamId !in teamsMap || game.away.teamId !in teamsMap then None
    else
      var homeTeam := teamsMap[game.home.teamId];
      var awayTeam := teamsMap[game.away.teamId];
      var homeTeamStanding := CronContent.Lookup(standingsMap, game.home.teamId);
      var awayTeamStanding := CronContent.Lookup(standingsMap, game.away.teamId);
      var gameMessage := BuildGameMessage(
        formatTime(game.gameDate),
        homeTeam.teamName, GenerateStandingText(divisionAbbr, homeTeamStanding),
        CronContent.PitcherLastName(game.home.probablePitcher),
        awayTeam.teamName, GenerateStandingText(divisionAbbr, awayTeamStanding),
        CronContent.PitcherLastName(game.away.probablePitcher));
      Some(GameMessageData(
        gameMessage,
        SideInfo(homeTeam.id, CronContent.PitcherId(game.home.probablePitcher),
                 homeTeamStanding.Some? && homeTeamStanding.value.isInPlayoffSpot),
        SideInfo(awayTeam.id, CronContent.PitcherId(game.away.probablePitcher),
                 awayTeamStanding.Some? && awayTeamStanding.value.isInPlayoffSpot)))
  }

  /** The message data of the games whose teams are both known, in game order. */
  function MessageDataList(teamsMap: map<int, Team>, standingsMap: map<int, Standing>,
                           divisionAbbr: map<int, string>, formatTime: string -> string, games: seq<Game>)
    : (r: seq<GameMessageData>)
    ensures |r| <= |games|
  {
    if games == [] then []
    else
      var d := MessageDataOf(teamsMap, standingsMap, divisionAbbr, formatTime, games[|games| - 1]);
      MessageDataList(teamsMap, standingsMap, divisionAbbr, formatTime, games[..|games| - 1]) + (if d.Some? then [d.value] else [])
  }

  /** `generateGameMessageDataList(teams, standings, games)`. */
  method GenerateGameMessageDataList(teams: seq<Team>, standings: seq<Standing>, games: seq<Game>,
                                     divisionAbbr: map<int, string>, formatTime: string -> string)
    returns (gameMessageDataList: seq<GameMessageData>)
    ensures gameMessageDataList ==
      MessageDataList(CronContent.IndexBy(teams, CronContent.TeamKey), CronContent.IndexBy(standings, CronContent.StandingKey),
                      divisionAbbr, formatTime, games)
  {
    var teamsMap := CronContent.IndexBy(teams, CronContent.TeamKey);
    var standingsMap := CronContent.IndexBy(standings, CronContent.StandingKey);
    gameMessageDataList := [];
    for i := 0 to |games|
      invariant gameMessageDataList == MessageDataList(teamsMap, standingsMap, divisionAbbr, formatTime, games[..i])
    {
      assert games[..i + 1][..i] == games[..i];
      var game := games[i];
      var data := MessageDataOf(teamsMap, standingsMap, divisionAbbr, formatTime, game);
      if data.None? {
        continue;
      }
      gameMessageDataList := gameMessageDataList + [data.value];
    }
    assert games[..|games|] == games;
  }

  /** Given the same list of games, both builders keep the same games, in
      that list's order, and agree on the sides the relevance rule reads.
      The routes themselves start from different lists: the cron route sorts
      the schedule by start time and this route does not. */
  lemma {:induction false} SameGamesAsCron(teamsMap: map<int, Team>, standingsMap: map<int, Standing>,
                                           divisionAbbr: map<int, string>, formatTime: string -> string, games: seq<Game>)
    ensures var legacy := MessageDataList(teamsMap, standingsMap, divisionAbbr, formatTime, games);
      var cron := CronContent.ContentList(teamsMap, standingsMap, divisionAbbr, formatTime, games);
      && |legacy| == |cron|
      && forall k :: 0 <= k < |legacy| ==> Corresponds(cron[k], legacy[k])
    decreases |games|
  {
    if games != [] {
      var g' := games[..|games| - 1];
      SameGamesAsCron(teamsMap, standingsMap, divisionAbbr, formatTime, g');
      var legacy := MessageDataList(teamsMap, standingsMap, divisionAbbr, formatTime, games);
      var cron := CronContent.ContentList(teamsMap, standingsMap, divisionAbbr, formatTime, games);
      var l' := MessageDataList(teamsMap, standingsMap, divisionAbbr, formatTime, g');
      var c' := CronContent.ContentList(teamsMap, standingsMap, divisionAbbr, formatTime, g');
      assert forall k :: 0 <= k < |l'| ==> legacy[k] == l'[k] && cron[k] == c'[k];
    }
  }

  /** A card of the newer route and a message of this one describe the same
      sides. */
  predicate Corresponds(c: CronContent.GameContentData, l: GameMessageData) {
    && c.home.teamId == l.home.teamId && c.away.teamId == l.away.teamId
    && c.home.probablePitcherId == l.home.probablePitcherId && c.away.probablePitcherId == l.away.probablePitcherId
    && c.home.isTeamInPlayoffSpot == l.home.isInPlayoffSpot && c.away.isTeamInPlayoffSpot == l.away.isInPlayoffSpot
  }

  // ---------------------------------------------------------------------
  // Messages for a user
  // ---------------------------------------------------------------------

  /** `shouldNotifyGameToUser(data, registeredTeamIds, registeredPlayerIds)` of
      this route. */
  predicate ShouldNotifyGameToUser(data: GameMessageData, registeredTeamIds: seq<int>, registeredPlayerIds: seq<int>): (r: bool)
    ensures r ==> data.home.isInPlayoffSpot || data.away.isInPlayoffSpot
    ensures r ==> || data.home.teamId in registeredTeamIds || data.away.teamId in registeredTeamIds
                  || CronContent.PitcherRegistered(data.home.probablePitcherId, registeredPlayerIds)
                  || CronContent.PitcherRegistered(data.away.probablePitcherId, registeredPlayerIds)
  {
    var isHomeTeamRegistered := data.home.teamId in registeredTeamIds;
    var isHomeTeamPitcherRegistered := CronContent.PitcherRegistered(data.home.probablePitcherId, registeredPlayerIds);
    var isAwayTeamRegistered := data.away.teamId in registeredTeamIds;
    var isAwayTeamPitcherRegistered := CronContent.PitcherRegistered(data.away.probablePitcherId, registeredPlayerIds);
    || (isHomeTeamRegistered && data.away.isInPlayoffSpot)
    || (isAwayTeamRegistered && data.home.isInPlayoffSpot)
    || (isHomeTeamPitcherRegistered && data.away.isInPlayoffSpot)
    || (isAwayTeamPitcherRegistered && data.home.isInPlayoffSpot)
  }

  /** The two routes apply the same relevance rule. */
  lemma SameRuleAsCron(c: CronContent.GameContentData, l: GameMessageData, registeredTeamIds: seq<int>,
                       registeredPlayerIds: seq<int>)
    requires Corresponds(c, l)
    ensures ShouldNotifyGameToUser(l, registeredTeamIds, registeredPlayerIds) <==>
      CronContent.ShouldNotifyGameToUser(c, registeredTeamIds, registeredPlayerIds)
  {
  }

  /** The messages of the games that concern the user, in list order. */
  function RelevantMessages(list: seq<GameMessageData>, teamIds: seq<int>, playerIds: seq<int>): (r: seq<string>)
    ensures |r| <= |list|
  {
    if list == [] then []
    else
      var d := list[|list| - 1];
      RelevantMessages(list[..|list| - 1], teamIds, playerIds) +
        (if ShouldNotifyGameToUser(d, teamIds, playerIds) then [d.gameMessage] else [])
  }

  /** The text a user receives. */
  function UserMessage(list: seq<GameMessageData>, teamIds: seq<int>, playerIds: seq<int>): string {
    Join(RelevantMessages(list, teamIds, playerIds), "\n\n")
  }

  /** `buildMessageForUser(list, teamIds, playerIds)`: the `forEach` that
      pushes the relevant game messages, then the join. */
  method BuildMessageForUser(gameMessageDataList: seq<GameMessageData>, registeredTeamIds: seq<int>,
                             registeredPlayerIds: seq<int>)
    returns (message: string)
    ensures message == UserMessage(gameMessageDataList, registeredTeamIds, registeredPlayerIds)
  {
    var gameMessages: seq<string> := [];
    for i := 0 to |gameMessageDataList|
      invariant gameMessages == RelevantMessages(gameMessageDataList[..i], registeredTeamIds, registeredPlayerIds)
    {
      assert gameMessageDataList[..i + 1][..i] == gameMessageDataList[..i];
      var data := gameMessageDataList[i];
      if ShouldNotifyGameToUser(data, registeredTeamIds, registeredPlayerIds) {
        gameMessages := gameMessages + [data.gameMessage];
      }
    }
    assert gameMessageDataList[..|gameMessageDataList|] == gameMessageDataList;
    message := Join(gameMessages, "\n\n");
  }

  /** A message is relevant iff it is the message of a game of the list that
      concerns the user. */
  lemma {:induction false} RelevantMessagesMembers(list: seq<GameMessageData>, teamIds: seq<int>, playerIds: seq<int>, m: string)
    ensures m in RelevantMessages(list, teamIds, playerIds) <==>
      exists k :: 0 <= k < |list| && list[k].gameMessage == m && ShouldNotifyGameToUser(list[k], teamIds, playerIds)
    decreases |list|
  {
    if list != [] {
      var l' := list[..|list| - 1];
      RelevantMessagesMembers(l', teamIds, playerIds, m);
      assert forall k :: 0 <= k < |l'| ==> l'[k] == list[k];
      if m in RelevantMessages(list, teamIds, playerIds) && m !in RelevantMessages(l', teamIds, playerIds) {
        assert list[|list| - 1].gameMessage == m;
      }
    }
  }

  /** The user's text is empty iff no game concerns the user, because every
      game message is non-empty. */
  lemma {:induction false} UserMessageEmptyIff(list: seq<GameMessageData>, teamIds: seq<int>, playerIds: seq<int>)
    requires forall k :: 0 <= k < |list| ==> list[k].gameMessage != ""
    ensures UserMessage(list, teamIds, playerIds) == "" <==>
      forall k :: 0 <= k < |list| ==> !ShouldNotifyGameToUser(list[k], teamIds, playerIds)
  {
    var ms := RelevantMessages(list, teamIds, playerIds);
    if ms != [] {
      var m := ms[0];
      RelevantMessagesMembers(list, teamIds, playerIds, m);
      var k :| 0 <= k < |list| && list[k].gameMessage == m && ShouldNotifyGameToUser(list[k], teamIds, playerIds);
      JoinStartsWith(ms, "\n\n");
    } else {
      forall k | 0 <= k < |list| ensures !ShouldNotifyGameToUser(list[k], teamIds, playerIds) {
        RelevantMessagesMembers(list, teamIds, playerIds, list[k].gameMessage);
      }
    }
  }

  lemma JoinStartsWith(parts: seq<string>, sep: string)
    requires parts != []
    ensures |Join(parts, sep)| >= |parts[0]|
  {
  }

  /** The message data built by the route never holds an empty message. */
  lemma {:induction false} MessageDataNonEmpty(teamsMap: map<int, Team>, standingsMap: map<int, Standing>,
                                               divisionAbbr: map<int, string>, formatTime: string -> string, games: seq<Game>)
    ensures forall k :: 0 <= k < |MessageDataList(teamsMap, standingsMap, divisionAbbr, formatTime, games)| ==>
      MessageDataList(teamsMap, standingsMap, divisionAbbr, formatTime, games)[k].gameMessage != ""
    decreases |games|
  {
    if games != [] {
      var g' := games[..|games| - 1];
      MessageDataNonEmpty(teamsMap, standingsMap, divisionAbbr, formatTime, g');
      var r := MessageDataList(teamsMap, standingsMap, divisionAbbr, formatTime, games);
      var r' := MessageDataList(teamsMap, standingsMap, divisionAbbr, formatTime, g');
      var d := MessageDataOf(teamsMap, standingsMap, divisionAbbr, formatTime, games[|games| - 1]);
      assert r == r' + (if d.Some? then [d.value] else []);
      forall k | 0 <= k < |r| ensures r[k].gameMessage != "" {
        if k < |r'| {
          assert r[k] == r'[k];
        } else {
          assert r[k] == d.value;
        }
      }
    }
  }

  // ---------------------------------------------------------------------
  // Sending
  // ---------------------------------------------------------------------

  /** `{ type: "text", text }`. */
  datatype TextMessage = TextMessage(kind: string, text: string)

  datatype TextPushCall = TextPushCall(channelAccessToken: string, retryKey: string, to: string, messages: seq<TextMessage>)

  /** `error instanceof CustomError && RETRYABLE_ERROR_CODES.includes(error.code)`,
      with the class imported by this route. */
  predicate IsRetryTargetError(e: Thrown): (r: bool)
    ensures r ==> e.Custom? && e.cls == ErrorsCustomError
    ensures r ==> CodeOf(e) == Some(TooManyRequests) || CodeOf(e) == Some(InternalServerError)
  {
    e.Custom? && e.cls == ErrorsCustomError && (e.code == TooManyRequests || e.code == InternalServerError)
  }

  /** The two routes retry the same codes of different CustomError classes:
      no error is retried by both. */
  lemma RetryClassesDisjoint(e: Thrown)
    ensures !(IsRetryTargetError(e) && CronDispatch.IsRetryTargetError(e))
    ensures IsRetryTargetError(e) ==> CronDispatch.IsRetryTargetError(e.(cls := UtilsCustomError))
  {
  }

  /** The trace `r` with `calls` and `waits` made before it. */
  function After(calls: seq<TextPushCall>, waits: seq<nat>, r: CronDispatch.RetryTrace<TextPushCall>)
    : CronDispatch.RetryTrace<TextPushCall>
  {
    CronDispatch.RetryTrace(calls + r.calls, waits + r.waits, r.failure)
  }

  /** `sendWithRetry(...)` of this route: a `while (true)` loop counting the
      failed attempts. It makes the calls, waits and throws that the
      recursive version of the newer route makes with this route's error
      test. */
  method SendWithRetry(channelAccessToken: string, retryKey: string, to: string, messages: seq<TextMessage>,
                       send: nat -> Option<Thrown>, jitter: nat -> CronDispatch.Jitter)
    returns (trace: CronDispatch.RetryTrace<TextPushCall>)
    ensures trace == CronDispatch.Run(TextPushCall(channelAccessToken, retryKey, to, messages), 1, send, IsRetryTargetError, jitter)
  {
    var call := TextPushCall(channelAccessToken, retryKey, to, messages);
    var calls: seq<TextPushCall> := [];
    var waits: seq<nat> := [];
    var attemptCount: nat := 0;
    while true
      invariant attemptCount <= CronDispatch.MaxRetryCount
      invariant CronDispatch.Run(call, 1, send, IsRetryTargetError, jitter) ==
        After(calls, waits, CronDispatch.Run(call, attemptCount + 1, send, IsRetryTargetError, jitter))
      decreases CronDispatch.MaxRetryCount - attemptCount
    {
      var outcome := send(attemptCount + 1);
      calls := calls + [call];
      if outcome.None? {
        assert calls + [] == calls && waits + [] == waits;
        return CronDispatch.RetryTrace(calls, waits, None);
      }
      attemptCount := attemptCount + 1;
      var error := outcome.value;
      var isRetryTargetError := IsRetryTargetError(error);
      var shouldRetry := isRetryTargetError && attemptCount <= CronDispatch.MaxRetryCount;
      if !shouldRetry {
        assert calls + [] == calls && waits + [] == waits;
        return CronDispatch.RetryTrace(calls, waits, Some(error));
      }
      var waitMs := CronDispatch.WaitMs(attemptCount, jitter(attemptCount));
      RetryStep(call, calls[..|calls| - 1], waits, attemptCount, send, jitter);
      assert calls[..|calls| - 1] + [call] == calls;
      waits := waits + [waitMs];
    }
  }

  /** One more failed, retried attempt moves a call and a wait from the
      remaining run to the part already made. */
  lemma RetryStep(call: TextPushCall, calls: seq<TextPushCall>, waits: seq<nat>, attemptCount: nat,
                  send: nat -> Option<Thrown>, jitter: nat -> CronDispatch.Jitter)
    requires 1 <= attemptCount <= CronDispatch.MaxRetryCount
    requires send(attemptCount).Some? && IsRetryTargetError(send(attemptCount).value)
    ensures After(calls, waits, CronDispatch.Run(call, attemptCount, send, IsRetryTargetError, jitter)) ==
      After(calls + [call], waits + [CronDispatch.WaitMs(attemptCount, jitter(attemptCount))],
            CronDispatch.Run(call, attemptCount + 1, send, IsRetryTargetError, jitter))
  {
    var rest := CronDispatch.Run(call, attemptCount + 1, send, IsRetryTargetError, jitter);
    var w := CronDispatch.WaitMs(attemptCount, jitter(attemptCount));
    assert calls + ([call] + rest.calls) == (calls + [call]) + rest.calls;
    assert waits + ([w] + rest.waits) == (waits + [w]) + rest.waits;
  }

  /** One user's task: skipped without a send when the text is empty,
      otherwise one text message sent through the retrying sender. */
  function UserTask(list: seq<GameMessageData>, user: User, token: string, env: CronDispatch.SendEnv): CronDispatch.UserOutcome {
    var message := UserMessage(list, CronDispatch.Registered(user.teams), CronDispatch.Registered(user.players));
    if message == "" then CronDispatch.Skipped
    else
      var trace := CronDispatch.Run(TextPushCall(token, env.retryKey(user.id), user.lineId, [TextMessage("text", message)]),
                                    1, env.send(user.id), IsRetryTargetError, env.jitter(user.id));
      if trace.failure.None? then CronDispatch.Succeeded else CronDispatch.Failed
  }

  function Outcome(list: seq<GameMessageData>, token: string, env: CronDispatch.SendEnv): User -> CronDispatch.UserOutcome {
    u => UserTask(list, u, token, env)
  }

  /** The whole run: the one token issued first (`issued` is the issuing
      endpoint's answer), then every user's task with it. */
  function Dispatch(list: seq<GameMessageData>, pages: seq<seq<User>>, issued: Result<string>, env: CronDispatch.SendEnv)
    : Result<CronDispatch.Counts>
  {
    match issued
    case Err(e) => Err(e)
    case Ok(token) => Ok(CronDispatch.Tally(CronDispatch.Counts(0, 0, 0, 0), Flatten(pages), Outcome(list, token, env)))
  }

  /** The body of one user's task, up to the counter it increments. */
  method RunUserTask(gameMessageDataList: seq<GameMessageData>, user: User, channelAccessToken: string,
                     env: CronDispatch.SendEnv)
    returns (outcome: CronDispatch.UserOutcome)
    ensures outcome == UserTask(gameMessageDataList, user, channelAccessToken, env)
  {
    var message := BuildMessageForUser(gameMessageDataList, CronDispatch.Registered(user.teams),
                                       CronDispatch.Registered(user.players));
    if message == "" {
      return CronDispatch.Skipped;
    }
    var trace := SendWithRetry(channelAccessToken, env.retryKey(user.id), user.lineId, [TextMessage("text", message)],
                               env.send(user.id), env.jitter(user.id));
    outcome := if trace.failure.None? then CronDispatch.Succeeded else CronDispatch.Failed;
  }

  /** The tasks of one page of users, each incrementing the four counters. */
  method RunPage(gameMessageDataList: seq<GameMessageData>, users: seq<User>, channelAccessToken: string,
                 env: CronDispatch.SendEnv, totalCount: nat, successCount: nat, errorCount: nat, skipCount: nat)
    returns (total: nat, success: nat, error: nat, skip: nat)
    ensures CronDispatch.Counts(total, success, error, skip) ==
      CronDispatch.Tally(CronDispatch.Counts(totalCount, successCount, errorCount, skipCount), users,
                         Outcome(gameMessageDataList, channelAccessToken, env))
  {
    ghost var start := CronDispatch.Counts(totalCount, successCount, errorCount, skipCount);
    ghost var outcomeOf := Outcome(gameMessageDataList, channelAccessToken, env);
    total, success, error, skip := totalCount, successCount, errorCount, skipCount;
    for j := 0 to |users|
      invariant CronDispatch.Counts(total, success, error, skip) == CronDispatch.Tally(start, users[..j], outcomeOf)
    {
      assert users[..j + 1][..j] == users[..j];
      var outcome := RunUserTask(gameMessageDataList, users[j], channelAccessToken, env);
      match outcome {
        case Skipped => skip := skip + 1;
        case Succeeded => success := success + 1;
        case Failed => error := error + 1;
      }
      total := total + 1;
    }
    assert users[..|users|] == users;
  }

  /** `sendPushMessagesToUsers(list)`: the counters are local variables the
      tasks increment; the result is what the run logs. */
  method SendPushMessagesToUsers(gameMessageDataList: seq<GameMessageData>, pages: seq<seq<User>>,
                                 issued: Result<string>, env: CronDispatch.SendEnv)
    returns (r: Result<CronDispatch.Counts>)
    ensures r == Dispatch(gameMessageDataList, pages, issued, env)
  {
    if issued.Err? {
      return Err(issued.error);
    }
    var channelAccessToken := issued.value;
    var totalCount, successCount, errorCount, skipCount := 0, 0, 0, 0;
    ghost var outcomeOf := Outcome(gameMessageDataList, channelAccessToken, env);
    for k := 0 to |pages|
      invariant CronDispatch.Counts(totalCount, successCount, errorCount, skipCount) ==
        CronDispatch.Tally(CronDispatch.Counts(0, 0, 0, 0), Flatten(pages[..k]), outcomeOf)
    {
      assert pages[..k + 1][..k] == pages[..k];
      assert Flatten(pages[..k + 1]) == Flatten(pages[..k]) + pages[k];
      CronDispatch.TallyAppend(CronDispatch.Counts(0, 0, 0, 0), Flatten(pages[..k]), pages[k], outcomeOf);
      totalCount, successCount, errorCount, skipCount :=
        RunPage(gameMessageDataList, pages[k], channelAccessToken, env, totalCount, successCount, errorCount, skipCount);
    }
    assert pages[..|pages|] == pages;
    r := Ok(CronDispatch.Counts(totalCount, successCount, errorCount, skipCount));
  }

  /** What the run logs: one task per user, `total == success + error +
      skip`, and the skips exactly the users no game concerns. With no game
      in the list every user is skipped, yet the token is still issued. */
  lemma DispatchCounts(list: seq<GameMessageData>, pages: seq<seq<User>>, token: string, env: CronDispatch.SendEnv)
    requires forall k :: 0 <= k < |list| ==> list[k].gameMessage != ""
    ensures var c := Dispatch(list, pages, Ok(token), env).value;
      && c.total == |Flatten(pages)|
      && CronDispatch.Balanced(c)
      && c.skip == |NoGameUsers(list, Flatten(pages))|
      && (list == [] ==> c.skip == c.total)
  {
    var users := Flatten(pages);
    CronDispatch.TallyCounts(CronDispatch.Counts(0, 0, 0, 0), users, Outcome(list, token, env));
    SkipsAreNoGameUsers(list, users, token, env);
    if list == [] {
      NoGameUsersOfEmpty(users);
    }
  }

  /** The users of `users` that no game of `list` concerns. */
  function NoGameUsers(list: seq<GameMessageData>, users: seq<User>): (r: seq<User>)
    ensures |r| <= |users|
  {
    if users == [] then []
    else
      var u := users[|users| - 1];
      NoGameUsers(list, users[..|users| - 1]) +
        (if UserMessage(list, CronDispatch.Registered(u.teams), CronDispatch.Registered(u.players)) == "" then [u] else [])
  }

  lemma {:induction false} SkipsAreNoGameUsers(list: seq<GameMessageData>, users: seq<User>, token: string, env: CronDispatch.SendEnv)
    ensures CronDispatch.Skips(users, Outcome(list, token, env)) == |NoGameUsers(list, users)|
    decreases |users|
  {
    if users != [] {
      SkipsAreNoGameUsers(list, users[..|users| - 1], token, env);
    }
  }

  lemma {:induction false} NoGameUsersOfEmpty(users: seq<User>)
    ensures NoGameUsers([], users) == users
    decreases |users|
  {
    if users != [] {
      NoGameUsersOfEmpty(users[..|users| - 1]);
      assert users == users[..|users| - 1] + [users[|users| - 1]];
    }
  }

  // ---------------------------------------------------------------------
  // The handler
  // ---------------------------------------------------------------------

  /** `fetchMlbData()` of this route: the three fetches one after another,
      so the first failure is the one thrown. */
  function FetchMlbData(teams: Result<seq<Team>>, standings: Result<seq<Standing>>, games: Result<seq<Game>>)
    : (r: Result<(seq<Team>, seq<Standing>, seq<Game>)>)
    ensures r.Ok? <==> teams.Ok? && standings.Ok? && games.Ok?
    ensures teams.Err? ==> r == Err(teams.error)
    ensures teams.Ok? && standings.Err? ==> r == Err(standings.error)
    ensures teams.Ok? && standings.Ok? && games.Err? ==> r == Err(games.error)
    ensures r.Ok? ==> r.value == (teams.value, standings.value, games.value)
  {
    if teams.Err? then Err(teams.error)
    else if standings.Err? then Err(standings.error)
    else if games.Err? then Err(games.error)
    else Ok((teams.value, standings.value, games.value))
  }

  /** `POST()`: no API key check and no empty-games branch; every error is
      a 500. The ghost `counts` are what the run logs. */
  method Post(teams: Result<seq<Team>>, standings: Result<seq<Standing>>, games: Result<seq<Game>>,
              divisionAbbr: map<int, string>, formatTime: string -> string, db: seq<User>,
              issued: Result<string>, env: CronDispatch.SendEnv)
    returns (reply: CronDispatch.Reply, ghost counts: Option<CronDispatch.Counts>)
    requires Ascending(db)
    ensures FetchMlbData(teams, standings, games).Err? || issued.Err? <==>
      reply == CronDispatch.Reply(500, "Internal Server Error")
    ensures reply == CronDispatch.Reply(500, "Internal Server Error") || reply == CronDispatch.Reply(200, "OK")
    ensures counts.Some? <==> reply.status == 200
    ensures counts.Some? ==> counts.value.total == |db| && CronDispatch.Balanced(counts.value)
  {
    counts := None;
    var fetched := FetchMlbData(teams, standings, games);
    if fetched.Err? {
      return CronDispatch.Reply(500, "Internal Server Error"), None;
    }
    var (ts, ss, gs) := fetched.value;
    var gameMessageDataList := GenerateGameMessageDataList(ts, ss, gs, divisionAbbr, formatTime);
    var pages, _ := IterateAllUsersByChunk(db, CronDispatch.ChunkSize, Relations(true, true));
    var result := SendPushMessagesToUsers(gameMessageDataList, pages, issued, env);
    if result.Err? {
      return CronDispatch.Reply(500, "Internal Server Error"), None;
    }
    CronDispatch.TallyCounts(CronDispatch.Counts(0, 0, 0, 0), Flatten(pages), Outcome(gameMessageDataList, issued.value, env));
    counts := Some(result.value);
    reply := CronDispatch.Reply(200, "OK");
  }
}
