# MLB tomorrow-game notifications, modelled in Dafny

This project models the server side of a LINE bot. The bot tells each registered user
about the next MLB games that concern the teams and players they registered.
Two notification jobs are modelled:

- the current cron job, `POST /api/cron/notification`, which sends flex messages;
- the legacy job, `POST /api/notification`, which sends plain text messages.

They share data that comes from the MLB Stats API:

- the teams, the 40-man rosters, people and the standings;
- the day's schedule.

The model also covers the helpers these jobs call:

- the de-duplication, filtering, sorting and grouping of players;
- the grouping of teams into leagues and divisions;
- the bounded-concurrency task runner;
- the cursor-paginated iteration over users;
- the issuing of a channel access token, which is cached and re-issued after 10 minutes;
- the retry loop around the push-message call;
- the success and error response helpers of the server actions and API routes.

The model works on values. HTTP responses, the database table, the clock, the random jitter,
the token issuer, the push sender and the date formatter are all parameters: each is
a function or a list given to the member that needs it. An operation whose source changes
state in place is modelled in that form:

- array sorts as methods on `array`;
- the module-level league table as a class field;
- the counters of a run as a class.

Each loop of the source is a `method` with invariants. The method is proved equal to a
recursive specification function, and the lemmas about that function state what the
source promises.

Files, by source area:

| file | what it models |
|---|---|
| `common.dfy` | results, thrown errors and the two `CustomError` classes |
| `strings.dfy` | `split`, `join` and decimal I/O |
| `domain.dfy` | the entities and the `PLAYER_STATUS` table |
| `name.dfy` | `getLastName` |
| `sorting.dfy` | the stable `Array.prototype.sort` as insertion sort |
| `players.dfy` | the player utilities |
| `fetch_players.dfy` | `fetchPlayersByTeamId` |
| `mlb_api.dfy` | the Stats API wrappers |
| `leagues.dfy` | the current league builder |
| `legacy_leagues.dfy` | the legacy league builder |
| `action.dfy` | the server-action response helpers |
| `api_response.dfy` | the API response helpers |
| `concurrency.dfy` | `runWithConcurrency` |
| `users_repository.dfy` | the user iterator |
| `cron_content.dfy` | game content data in the cron route |
| `cron_messages.dfy` | flex message building in the cron route |
| `cron_dispatch.dfy` | token, retry, sending and `POST` in the cron route |
| `legacy_notification.dfy` | the whole legacy route |

Notes on the code as written:

- `runWithConcurrency` rejects as a whole when a task rejects (`Promise.all` over the
  workers), and the model says so. The route tasks catch
  their own errors, so in the routes no task rejects.
- The doc comment of the legacy `buildGameMessage` shows three lines, but the code builds
  six. The model builds the six lines.
- The cron route fetches the games of the current date, not tomorrow's
  (src/app/api/cron/notification/route.ts:169). The date is a parameter of the model.
- The legacy route does not sort the schedule: `fetchMlbData` passes the games on in the
  order the API returns them (src/app/api/notification/route.ts:86-96), while the cron route
  sorts them by start time first (src/app/api/cron/notification/route.ts:172). The two routes
  list the games in different orders whenever the schedule is not already in start-time order.
- The legacy `POST` answers only "OK" or a 500. The counters of a run are only logged.
  The model returns them as a ghost out-parameter, so that their balance can be stated.
- The two job routes import `CustomError` from different modules.
  - The cron route imports it from `@/shared/utils/error` (src/app/api/cron/notification/route.ts:20).
  - The legacy route imports it from `@/shared/errors/error` (src/app/api/notification/route.ts:14).

  Each route retries only errors of its own class. Which class the push sender throws is not
  visible in this model (see "Left out"), so the sender is a parameter returning either class.

## Model

| member | source | states |
|---|---|---|
| Names.GetLastName | src/shared/utils/name.ts:4-7 | the result is the last space-free piece: a suffix of the name with no space in it, preceded by a space when the name has one, and the whole name when it has none |
| Names.TrailingSpaceGivesEmpty | src/shared/utils/name.ts:5-6 | a name ending in a space yields the empty last name, not a fallback |
| Names.FallbackNeverFires | src/shared/utils/name.ts:6 | `split(" ")` always yields at least one piece, so the `?? fullName` fallback is never taken |
| Strings.JoinSplit | src/shared/utils/name.ts:5 | joining the pieces of a split with the same separator gives the string back |
| Strings.LastPiece | src/shared/utils/name.ts:5-6 | the last piece of a split is what follows the last separator, holds no separator, and is the whole string when there is no separator |
| Strings.SplitJoin | src/shared/api/mlb-api.ts:87 | splitting a join at a separator that occurs in no part gives the parts back |
| Strings.ParseIntToString | src/shared/api/mlb-api.ts:87 | the decimal text of an integer id has only digits after an optional sign, and parses back to the same id |
| MlbApi.FetchTeams | src/shared/api/mlb-api.ts:10-35 | a non-ok response fails with "Failed to fetch teams"; otherwise one team per entry, with id, names, abbreviation, league id and division id taken from that entry |
| MlbApi.InheritedStatusSlipsThrough | src/shared/api/mlb-api.ts:61-63 | as written, the status code "constructor" passes the truthy `PLAYER_STATUS[...]` lookup although it is not a status key |
| MlbApi.NormaliseStatus | src/shared/api/mlb-api.ts:61-63 | a status code that is a key of the status table is kept; any other code becomes "" |
| MlbApi.PositionCode | src/shared/api/mlb-api.ts:68 | a missing position gives the empty code; a present one gives its code |
| MlbApi.ToRosterPlayer | src/shared/api/mlb-api.ts:59-71 | id from `person.id`, team from `parentTeamId`, the name, the position code and the normalised status |
| MlbApi.FetchTeamRoster40Man | src/shared/api/mlb-api.ts:40-74 | a non-ok response fails with "Failed to fetch team roster"; otherwise one player per roster entry, in order, each the entry's mapped player (id, parent team, full name, position code and normalised status) |
| MlbApi.RosterStatusKnown | src/shared/api/mlb-api.ts:61-63 | every roster player's status is a key of the status table; an unknown code ends up with priority 0 |
| MlbApi.TeamOf | src/shared/api/mlb-api.ts:107 | a person's team is the parent organisation when there is one, else the current team |
| MlbApi.ToPersonPlayer | src/shared/api/mlb-api.ts:105-111 | id, name and team of the person; empty position and status |
| MlbApi.PersonIdsParamRoundTrip | src/shared/api/mlb-api.ts:87 | the comma-joined `personIds` parameter splits back into one decimal text per id, each parsing back to its id |
| MlbApi.FetchPlayersByIds | src/shared/api/mlb-api.ts:79-114 | no ids gives the empty list without a request; otherwise it fails with "Failed to fetch people" exactly when the response is not ok, and gives one player per person, in order, each the person's mapped player: id, team (the parent organisation when present), full name, and empty position and status codes |
| MlbApi.ToStanding | src/shared/api/mlb-api.ts:154-166 | team, league and division ids and rank are copied; a missing wild-card flag counts as false; in a playoff spot iff rank "1" or wild-card leader |
| MlbApi.FetchStandings | src/shared/api/mlb-api.ts:119-171 | a non-ok response fails with "Failed to fetch standings"; otherwise the nested loops give the records' standings in order |
| MlbApi.StandingsAppend | src/shared/api/mlb-api.ts:150-168 | the standings of concatenated records are the standings of each part, in record order |
| MlbApi.StandingsEntries | src/shared/api/mlb-api.ts:148-170 | every standing comes from some team record of some record, carrying that record's league and division |
| MlbApi.RecordEntries | src/shared/api/mlb-api.ts:154-167 | every standing of one record comes from one of its team records |
| MlbApi.DateParamIsDatePart | src/shared/api/mlb-api.ts:177 | for an ISO timestamp the `date` parameter is its first ten characters |
| MlbApi.ToGame | src/shared/api/mlb-api.ts:216-227 | game id, date and both sides (team id and probable pitcher) come from the schedule entry |
| MlbApi.FetchGamesByDate | src/shared/api/mlb-api.ts:176-231 | a non-ok response fails with "Failed to fetch games"; a response with no dates throws reading `games` of `undefined`; otherwise the games of the first date, in order |
| Players.RemoveDuplicatePlayers | src/features/players/utils/players.ts:8-23 | the loop over a `Map` leaves the map's values in key order |
| Players.FillPlayerMap | src/features/players/utils/players.ts:9-20 | the loop leaves the map the visit function describes: a new id is appended as a key, an existing one is replaced only by a strictly higher priority |
| Players.MapValues | src/features/players/utils/players.ts:22 | `Array.from(playerMap.values())` lists the entries in key order |
| Players.DedupeKeys | src/features/players/utils/players.ts:9-22 | the map keys are distinct, are exactly the input ids, and each has an entry |
| Players.DedupeKeysGrow | src/features/players/utils/players.ts:11-20 | the keys only grow, so each id keeps the position where it first occurred |
| Players.DedupeKeepsBest | src/features/players/utils/players.ts:13-19 | the entry kept for an id is an input player with that id and the highest status priority; on a tie, the earliest such player |
| Players.ValuesOf | src/features/players/utils/players.ts:22 | `Array.from(map.values())` lists one entry per key, in key order |
| Players.RemoveDuplicatesResult | src/features/players/utils/players.ts:8-22 | the result has distinct ids, its ids are exactly the input ids, and each player in it is the best-priority input player with its id |
| Players.ValuesDistinct | src/features/players/utils/players.ts:22 | no two players of the result share an id |
| Players.ValuesCoverIds | src/features/players/utils/players.ts:22 | every input id appears in the result |
| Players.ValuesIds | src/features/players/utils/players.ts:22 | the result lists the ids in order of first occurrence |
| Players.ValuesBest | src/features/players/utils/players.ts:13-22 | no input player with the same id has a higher priority than the kept one |
| Players.BestIndex | src/features/players/utils/players.ts:13-19 | each kept player is an input player at a position that is best for its id |
| Players.DedupeEntryId | src/features/players/utils/players.ts:13-19 | the entry stored under an id has that id |
| Players.FilterPlayersByPosition | src/features/players/utils/players.ts:28-35 | every kept player's position code is one of the given codes |
| Players.FilterAppend | src/features/players/utils/players.ts:32-34 | filtering keeps input order (it distributes over concatenation) |
| Players.FilterMembers | src/features/players/utils/players.ts:32-34 | a player is kept iff it is in the input and its position code is listed |
| Players.FilterKeepsAll | src/features/players/utils/players.ts:32-34 | when every position code is listed, the filter returns its input |
| Players.SortPlayersByStatusPriority | src/features/players/utils/players.ts:40-47 | the array ends up as the stable sort of its old contents by descending status priority |
| Players.SortedByPriority | src/features/players/utils/players.ts:40-47 | that sort is a permutation, is in non-increasing priority order, and keeps the input order among players of equal priority |
| Players.GroupPlayerIdsByTeamId | src/features/players/utils/players.ts:52-63 | the `reduce` builds the grouping of player ids by team id |
| Players.GroupIsFilter | src/features/players/utils/players.ts:55-62 | the keys are exactly the teams that occur; each team's list is the ids of its players in input order; an absent team has no players |
| Players.TeamsDistinct | src/features/players/utils/players.ts:55-62 | each team that occurs is listed once |
| Players.GroupCountsAll | src/features/players/utils/players.ts:55-62 | the group lists together hold exactly one entry per input player |
| Sorting.SortInPlace | src/features/players/utils/players.ts:41-46 | the in-place insertion sort leaves the array equal to the stable key sort of its old contents |
| Sorting.InsertAt | src/features/players/utils/players.ts:41-46 | one insertion step puts element i into the sorted prefix and leaves the rest unchanged |
| Sorting.SortPermutes | src/features/players/utils/players.ts:41-46 | sorting is a permutation of its input |
| Sorting.SortSorts | src/features/players/utils/players.ts:41-46 | the sorted sequence is ordered by the comparator's key |
| Sorting.SortIsStable | src/features/players/utils/players.ts:41-46 | the elements of each key keep their input order |
| FetchPlayers.FetchPlayersByTeamId | src/features/players/api/fetch-players.ts:18-71 | a non-ok response fails with "Failed to fetch players"; otherwise the players are de-duplicated by id keeping the highest priority, filtered by position and stably sorted by descending priority |
| FetchPlayers.FetchPlayersResult | src/features/players/api/fetch-players.ts:44-70 | the result is sorted by non-increasing priority, has distinct ids, and holds exactly the best-priority players whose position is listed |
| FetchPlayers.SelectedMembers | src/features/players/api/fetch-players.ts:44-60 | a player is selected iff it is the entry kept for its id and its position is listed |
| FetchPlayers.SelectedBest | src/features/players/api/fetch-players.ts:44-53 | a selected player is an input player of best priority for its id |
| FetchPlayers.UniqueMembers | src/features/players/api/fetch-players.ts:44-53 | a player is in the de-duplicated list iff it is the entry kept for its id |
| FetchPlayers.FilterDistinct | src/features/players/api/fetch-players.ts:56-60 | filtering keeps ids distinct |
| FetchPlayers.DistinctIdsPermuted | src/features/players/api/fetch-players.ts:63-70 | a permutation of a list with distinct ids has distinct ids, so the sort keeps them distinct |
| FetchPlayers.FetchPlayersDistinct | src/features/players/api/fetch-players.ts:44-70 | the returned players have distinct ids |
| Leagues.TeamsOf | src/features/leagues/utils/league.ts:12-15 | every team kept for a division has that league and division id |
| Leagues.MakeDivisions | src/features/leagues/utils/league.ts:10-22 | one division per division id of the league, in the listed order, with its name and its teams |
| Leagues.CreateLeaguesFromTeams | src/features/leagues/utils/league.ts:8-29 | one league per league id, in the listed order, each with its name and its divisions |
| Leagues.TeamsOfAppend | src/features/leagues/utils/league.ts:12-15 | the division's teams keep input order |
| Leagues.TeamsOfMembers | src/features/leagues/utils/league.ts:12-15 | a team is in a division's list iff it is an input team with that league and division id |
| Leagues.TeamPlacement | src/features/leagues/utils/league.ts:8-29 | an input team is in exactly the division that matches its ids; a team with an unlisted pair appears in no division |
| LegacyLeagues.LeagueRegistry.constructor | src/utils/league.ts:5-40 | the module-level table starts with the two leagues, each with three empty divisions |
| LegacyLeagues.LeagueRegistry.CreateLeaguesFromTeams | src/utils/league.ts:42-47 | each team is pushed onto its division in the shared table, and the table's contents at the end of the call are returned; at the first team with an unknown pair the call throws the `undefined` property-read error, and the teams before it stay pushed |
| LegacyLeagues.AddAllStops | src/utils/league.ts:43-46 | after the first failure the reduce changes nothing more |
| LegacyLeagues.KnownIffListed | src/utils/league.ts:5-40 | a team fits the table iff its league and division pair is one of the six listed pairs |
| LegacyLeagues.AddAllFailsIff | src/utils/league.ts:44 | the call throws iff some team has an unlisted pair |
| LegacyLeagues.AddTeamEffect | src/utils/league.ts:44 | one push changes only the list of the team's own division |
| LegacyLeagues.AddAllAppends | src/utils/league.ts:43-46 | with all pairs listed, each division's list grows by exactly its own teams, in input order |
| LegacyLeagues.AddAllCounts | src/utils/league.ts:43-46 | with all pairs listed, the call adds exactly one team per input team |
| LegacyLeagues.AddAllTwice | src/utils/league.ts:42-46 | the table is shared: calling with `a` and then with `b` leaves what one call with `a + b` would |
| ActionResponses.GenerateActionSuccessResponse | src/shared/utils/action.ts:13-20 | a success response carrying the data |
| ActionResponses.MessageOr | src/shared/utils/action.ts:50 | the error's message when it is non-empty, else the default message |
| ActionResponses.GenerateActionErrorResponse | src/shared/utils/action.ts:28-56 | always a failure; a custom error from `@/shared/utils/error` keeps its code, message and details; another `Error` gives code 500 with its message or the default; a non-`Error` gives 500 and the default message |
| ActionResponses.ActionErrorOrigin | src/shared/utils/action.ts:28-56 | a non-500 code in the response can only come from a custom error of that class |
| ApiResponses.GenerateApiSuccessResponse | src/shared/utils/api.ts:10-17 | a success response carrying the data |
| ApiResponses.GenerateApiErrorResponse | src/shared/utils/api.ts:26-65 | as for actions, but for custom errors from `@/shared/errors/error`; also returns the log level: `console.log` (LogInfo) for a CustomError of that class whose code is not INTERNAL_SERVER_ERROR, `console.error` (LogError) otherwise |
| ApiResponses.LogLevelFollowsCode | src/shared/utils/api.ts:31-64 | the error goes to `console.log` iff it is a CustomError of the `@/shared/errors/error` class with a code other than INTERNAL_SERVER_ERROR, and to `console.error` iff the response code is INTERNAL_SERVER_ERROR |
| ApiResponses.HelpersDifferOnlyInClass | src/shared/utils/api.ts:46-64 | the API and action helpers give the same body, except for custom errors of exactly one of the two classes |
| Concurrency.Range | src/shared/utils/concurrency.ts:12-21 | the indices 0 to n-1 in order |
| Concurrency.Store | src/shared/utils/concurrency.ts:21 | `results[i] = value` on a JS array: the slot is set, other slots keep their values, and the holes in between become empty |
| Concurrency.FirstActive | src/shared/utils/concurrency.ts:14-23 | the first worker still running, or the number of workers when none runs |
| Concurrency.StartKeepsValid | src/shared/utils/concurrency.ts:16-21 | claiming an index below the end and awaiting its task keeps the pool invariant: results sound, each claimed task finished, awaited by exactly one worker or the cause of the rejection |
| Concurrency.StopKeepsValid | src/shared/utils/concurrency.ts:18-19 | a worker that stops past the end keeps the pool invariant |
| Concurrency.ResolveKeepsValid | src/shared/utils/concurrency.ts:21 | storing a resolved value at its own index and claiming again keeps the pool invariant |
| Concurrency.RejectKeepsValid | src/shared/utils/concurrency.ts:21-25 | a crashing worker keeps the pool invariant, the first error seen being the rejection |
| Concurrency.AllDone | src/shared/utils/concurrency.ts:12-27 | when the invariant holds, no loop runs and nothing rejected, every result slot is filled, and with a worker there is one slot per task |
| Concurrency.Pool.constructor | src/shared/utils/concurrency.ts:11-14 | cursor 0, no results, and `concurrency` workers that are about to claim an index |
| Concurrency.Pool.Claim | src/shared/utils/concurrency.ts:16-19 | `cursor++` hands the worker the next index, or stops it once the cursor is past the end |
| Concurrency.Pool.StartTask | src/shared/utils/concurrency.ts:16-21 | a claim below the end starts awaiting that index's task |
| Concurrency.Pool.StopWorker | src/shared/utils/concurrency.ts:18-19 | a claim past the end finishes the worker |
| Concurrency.Pool.Resolve | src/shared/utils/concurrency.ts:21 | a resolved task stores its value at its own index and the worker claims again |
| Concurrency.Pool.Reject | src/shared/utils/concurrency.ts:21-25 | a rejected task stops its worker and records the first rejection |
| Concurrency.Pool.Step | src/shared/utils/concurrency.ts:15-22 | one scheduler step of one worker, decreasing the remaining work when the worker was active |
| Concurrency.Pool.RunToEnd | src/shared/utils/concurrency.ts:14-25 | any interleaving of worker steps ends with every worker stopped |
| Concurrency.Pool.AllDoneWhenEnded | src/shared/utils/concurrency.ts:12-27 | with no rejection and at least one worker, every index was claimed exactly once, in order, and every result slot is filled |
| Concurrency.InFlightBound | src/shared/utils/concurrency.ts:14-22 | in every reachable pool state, at most `concurrency` tasks are in flight, and no more than the indices claimed so far, since no two workers await the same task |
| Concurrency.TotalWeightUpdate | src/shared/utils/concurrency.ts:14-22 | the remaining-work measure changes only by the updated worker's share |
| Concurrency.RunWithConcurrency | src/shared/utils/concurrency.ts:7-28 | zero workers give the empty list; when every task resolves, each index is started once, in order, and the results are the tasks' values in input order; otherwise the call rejects with the error of some rejected task |
| UsersRepository.Load | src/features/users/repositories/fetch-users-repository.ts:41 | `include` adds the teams and players relations only when they are asked for |
| UsersRepository.FindMany | src/features/users/repositories/fetch-users-repository.ts:35-42 | at most `take` users |
| UsersRepository.PageOfSuffix | src/features/users/repositories/fetch-users-repository.ts:35-42 | when the cursor lets through the rows from `seen` on, the answer is the rows that follow `seen`, in id order, loaded with the relations asked for |
| UsersRepository.AfterRow | src/features/users/repositories/fetch-users-repository.ts:37-48 | with `skip: 1` on the cursor row and ascending ids, the next query starts right after the last row returned |
| UsersRepository.NextPage | src/features/users/repositories/fetch-users-repository.ts:35-48 | a non-empty page is the next slice of the table, and its last id becomes the cursor |
| UsersRepository.ChainPointwise | src/features/users/repositories/fetch-users-repository.ts:28-48 | each yielded page is non-empty and at most `chunkSize` long, is the query from the previous page's last id, and the first query has no cursor |
| UsersRepository.ChainCovers | src/features/users/repositories/fetch-users-repository.ts:34-49 | the pages yielded so far are exactly a prefix of the table, and the next query starts after it |
| UsersRepository.ProgressEnd | src/features/users/repositories/fetch-users-repository.ts:44 | an empty query with a positive chunk size means every user was yielded |
| UsersRepository.IterateAllUsersByChunk | src/features/users/repositories/fetch-users-repository.ts:8-50 | the generator yields a chain of pages and stops only at an empty query; with a positive chunk size the pages together are every user once, in id order, with the requested relations |
| CronContent.SortGamesByStartTime | src/app/api/cron/notification/route.ts:180-187 | the array ends up as the stable sort of its old contents by start time |
| CronContent.SortedByStartTime | src/app/api/cron/notification/route.ts:180-187 | that sort is a permutation, ascending by start time, and keeps schedule order for equal times |
| CronContent.IndexByLast | src/app/api/cron/notification/route.ts:198-201 | an id is in the `Map` built from the list iff some element has it, and its entry is the last such element |
| CronContent.IndexBy | src/app/api/cron/notification/route.ts:198-201 | every element's id is a key of the `Map`, and the entry under an id has that id |
| CronContent.GenerateStandingText | src/app/api/cron/notification/route.ts:261-277 | " - " when there is no standing or no division abbreviation; otherwise the abbreviation and the rank in parentheses, with " WC" inside them for a wild-card leader |
| CronContent.PitcherLastName | src/app/api/cron/notification/route.ts:227-232 | " - " without a probable pitcher or with an empty name; otherwise the last name |
| CronContent.ContentOf | src/app/api/cron/notification/route.ts:211-252 | a game is skipped iff one of its teams is unknown; otherwise its content has the formatted start time and, per side, the team's id and name, the cron standing text, the pitcher's last name and id, and whether the team is in a playoff spot |
| CronContent.GenerateGameContentDataList | src/app/api/cron/notification/route.ts:192-256 | the loop gives the content of each game that has both teams known, in schedule order |
| CronContent.ContentListAppend | src/app/api/cron/notification/route.ts:210-253 | the list keeps schedule order |
| CronContent.ContentListSound | src/app/api/cron/notification/route.ts:210-253 | every entry is the content of some game |
| CronContent.ContentListComplete | src/app/api/cron/notification/route.ts:210-253 | every game with both teams known has its content in the list |
| CronContent.ContentListMembers | src/app/api/cron/notification/route.ts:210-253 | an entry is in the list iff it is the content of some game |
| CronContent.ContentListKeepsAll | src/app/api/cron/notification/route.ts:213-216 | when every team is known, no game is dropped |
| CronContent.ShouldNotifyRegrouped | src/app/api/cron/notification/route.ts:474-515 | a game is notified iff a side whose team or probable pitcher is registered faces an opponent in a playoff spot |
| CronContent.ShouldNotifyNeedsSpotAndRegistration | src/app/api/cron/notification/route.ts:474-515 | no side in a playoff spot, or nothing registered, means no notification |
| CronContent.ShouldNotifySymmetric | src/app/api/cron/notification/route.ts:474-515 | swapping home and away does not change the decision |
| CronContent.ShouldNotifyMonotone | src/app/api/cron/notification/route.ts:480-495 | registering more teams or players never removes a notification |
| CronContent.PitcherZeroNeverMatches | src/app/api/cron/notification/route.ts:483-494 | a missing pitcher (id 0) never matches a registered player |
| CronContent.ShouldNotifyGameToUser | src/app/api/cron/notification/route.ts:474-515 | a notified game has a team in a playoff spot and a team or probable pitcher the user registered |
| CronMessages.BuildGameContentJson | src/app/api/cron/notification/route.ts:520-632 | a box of four rows whose first row is the ball, the start time and "away @ home" |
| CronMessages.SetGamesContentsToLayout | src/app/api/cron/notification/route.ts:637-672 | the body is the given contents; there is a header iff a non-empty date is given |
| CronMessages.Interleave | src/app/api/cron/notification/route.ts:443-446 | the body is empty iff there are no cards |
| CronMessages.InterleaveLength | src/app/api/cron/notification/route.ts:443-446 | n cards give 2n-1 items |
| CronMessages.InterleaveAt | src/app/api/cron/notification/route.ts:443-446 | card k sits at position 2k, with a separator after every card but the last |
| CronMessages.InterleaveCards | src/app/api/cron/notification/route.ts:443-446 | dropping the separators gives the cards back |
| CronMessages.RelevantCards | src/app/api/cron/notification/route.ts:411-431 | at most one card per game |
| CronMessages.RelevantCardsCount | src/app/api/cron/notification/route.ts:414-431 | one card per notified game, so there are no cards iff no game concerns the user |
| CronMessages.Messages | src/app/api/cron/notification/route.ts:441-457 | one message per chunk |
| CronMessages.ChunksSnoc | src/app/api/cron/notification/route.ts:433-458 | a full chunk is flushed before a new card starts the next one |
| CronMessages.ChunksPartition | src/app/api/cron/notification/route.ts:433-458 | the chunks concatenate to the cards, every chunk is non-empty and holds at most ten cards, all but the last hold exactly ten, and there are ceil(n/10) of them |
| CronMessages.MessagesSnoc | src/app/api/cron/notification/route.ts:447-456 | a later chunk's message has no header |
| CronMessages.MessagesAt | src/app/api/cron/notification/route.ts:447-456 | message k has the header iff k is 0, and its body is chunk k with separators |
| CronMessages.ReduceStep | src/app/api/cron/notification/route.ts:412-461 | one callback adds the game's card when it concerns the user, keeps the pushed messages equal to those of the whole chunks done, leaves fewer than ten cards pending, and leaves none pending after the last game |
| CronMessages.PushKeeps | src/app/api/cron/notification/route.ts:443-458 | pushing the pending cards' message extends the messages of the done cards by one chunk, with the header only on the first |
| CronMessages.BuildMessageObjectsForUser | src/app/api/cron/notification/route.ts:397-469 | the `reduce` and the final flush give the user's flex messages |
| CronMessages.MessagesForUser | src/app/api/cron/notification/route.ts:397-469 | there are ceil(cards/10) messages; message k has the header only when k is 0 and carries the cards of chunk k in order, with separators between them |
| CronDispatch.IssueChannelAccessTokenIfNeeded | src/app/api/cron/notification/route.ts:368-392 | the cached token is reused unless it is unset, empty or due for refresh; an issuing failure is passed on; a new token is stamped with the current time; any token returned is at most 10 minutes old |
| CronDispatch.IssuerNotConsulted | src/app/api/cron/notification/route.ts:379-391 | within the window the issuer's answer does not matter |
| CronDispatch.TokenReuseWindow | src/app/api/cron/notification/route.ts:374-391 | a fresh token is reused for the next 10 minutes and is re-issued, stamped with the new time, afterwards |
| CronDispatch.EmptyTokenReissued | src/app/api/cron/notification/route.ts:374 | an empty token is re-issued at the next check, whenever it comes |
| CronDispatch.WaitMs | src/app/api/cron/notification/route.ts:702-703 | the wait after failed attempt n is at least 1000·2^(n-1) ms and less than that plus the 250 ms jitter bound |
| CronDispatch.IsRetryTargetError | src/app/api/cron/notification/route.ts:694-696 | only a CustomError of the `@/shared/utils/error` class with code TOO_MANY_REQUESTS or INTERNAL_SERVER_ERROR is retried |
| CronDispatch.Run | src/app/api/cron/notification/route.ts:688-708 | one to `5 - attemptCount` calls, one wait fewer, and the outcome of the last attempt made |
| CronDispatch.SendWithRetry | src/app/api/cron/notification/route.ts:677-711 | one to four push calls, each with the same token, retry key, recipient and messages, and the outcome of the last call |
| CronDispatch.RunShape | src/app/api/cron/notification/route.ts:688-710 | the retry loop makes between one and four calls, waits once between two calls, and ends with success, with a non-retryable error, or with the fourth retryable error |
| CronDispatch.SendWithRetryBounds | src/app/api/cron/notification/route.ts:677-711 | at most four push calls, all with the same retry key, and one wait fewer than calls |
| CronDispatch.NonRetryableRethrown | src/app/api/cron/notification/route.ts:694-700 | a non-retryable first error is re-thrown after one call and no wait |
| CronDispatch.AlwaysRetryableFourCalls | src/app/api/cron/notification/route.ts:698-706 | a sender that always fails retryably is called four times, and the fourth error is thrown |
| CronDispatch.WaitsGrow | src/app/api/cron/notification/route.ts:81-83 | wait k (from 0) is 1000 ms times 2^k plus a jitter below 250 ms, so the waits strictly increase |
| CronDispatch.OtherClassNotRetried | src/app/api/cron/notification/route.ts:694-700 | a custom error of the other module's class is not retried |
| CronDispatch.SendResult.constructor | src/app/api/cron/notification/route.ts:302-307 | the four counters start at zero |
| CronDispatch.SendResult.Record | src/app/api/cron/notification/route.ts:332-354 | one user adds one to total and one to success, error or skip |
| CronDispatch.TallyCounts | src/app/api/cron/notification/route.ts:320-357 | after a run, success + error + skip == total, and total grows by the number of users |
| CronDispatch.TallyAppend | src/app/api/cron/notification/route.ts:309-358 | counting page by page is counting all users at once |
| CronDispatch.RunUserTask | src/app/api/cron/notification/route.ts:320-355 | one user's task updates the counters by that user's outcome |
| CronDispatch.RunChunk | src/app/api/cron/notification/route.ts:320-357 | one chunk's tasks update the counters by the outcomes of its users |
| CronDispatch.SendPushMessagesToUsers | src/app/api/cron/notification/route.ts:282-361 | the token is refreshed before each chunk, and an issuing failure ends the run with that error; otherwise the counters are those of every user of every chunk |
| CronDispatch.DispatchStops | src/app/api/cron/notification/route.ts:309-318 | once the token cannot be issued, later chunks change nothing |
| CronDispatch.CronSkips | src/app/api/cron/notification/route.ts:332-335 | a user is skipped iff no game concerns them |
| CronDispatch.DispatchCounts | src/app/api/cron/notification/route.ts:302-360 | a finished run counts every user once, balances success + error + skip against total, and skips exactly the users no game concerns |
| CronDispatch.Authenticate | src/app/api/cron/notification/route.ts:152-156 | authorised iff both keys are present and equal |
| CronDispatch.ErrorReply | src/app/api/cron/notification/route.ts:129-146 | an error whose `code` is UNAUTHORIZED gives "Unauthorized" with the status `statusOf(UNAUTHORIZED)`; any other error gives "Internal Server Error" with `statusOf(INTERNAL_SERVER_ERROR)`; `statusOf` stands for ERROR_CODE_TO_STATUS |
| CronDispatch.FetchAll | src/app/api/cron/notification/route.ts:166-170 | the fetch succeeds iff all three fetches do, and otherwise fails with one of their errors |
| CronDispatch.Post | src/app/api/cron/notification/route.ts:94-147 | a bad key gives the unauthorised reply with nothing sent; a failing fetch gives the error reply; no games gives "No games found" (or the error reply when counting users fails) with nothing sent; otherwise the content sent is the content list of the games sorted by start time (with the last-wins team and standing maps), the chunks the user iterator yields when run to the end cover every user once, in id order, and the route answers "OK", or the error reply when dispatching fails |
| LegacyNotification.GenerateStandingText | src/app/api/notification/route.ts:202-216 | " - " without standing or abbreviation; otherwise the abbreviation and the rank without parentheses, with " WC" for a wild-card leader |
| LegacyNotification.StandingTextsAgree | src/app/api/notification/route.ts:202-216 | the cron standing text is the legacy text in parentheses, except that both give the default " - " |
| LegacyNotification.BuildGameMessage | src/app/api/notification/route.ts:178-197 | the message text is never empty |
| LegacyNotification.GameMessageLines | src/app/api/notification/route.ts:187-194 | splitting the message at newlines gives its six lines back |
| LegacyNotification.MessageDataOf | src/app/api/notification/route.ts:113-164 | a game is skipped iff one of its teams is unknown; otherwise its text is the six-line message built from the start time and, per side, the team name, the legacy standing text and the pitcher's last name; it also carries both spots and both pitcher ids |
| LegacyNotification.GenerateGameMessageDataList | src/app/api/notification/route.ts:101-168 | the loop gives the data of each game with both teams known, in schedule order |
| LegacyNotification.SameGamesAsCron | src/app/api/notification/route.ts:113-165 | given the same list of games, both builders keep the same games, in that list's order, and agree on the sides the notification rule reads |
| LegacyNotification.SameRuleAsCron | src/app/api/notification/route.ts:312-353 | the legacy notification rule is the cron one |
| LegacyNotification.ShouldNotifyGameToUser | src/app/api/notification/route.ts:312-353 | a notified game has a team in a playoff spot and a team or probable pitcher the user registered |
| LegacyNotification.RelevantMessagesMembers | src/app/api/notification/route.ts:294-304 | a text is kept iff it belongs to a game that concerns the user |
| LegacyNotification.BuildMessageForUser | src/app/api/notification/route.ts:287-307 | the loop joins the texts of the games that concern the user with blank lines |
| LegacyNotification.UserMessageEmptyIff | src/app/api/notification/route.ts:287-307 | with non-empty game texts, the message is empty iff no game concerns the user |
| LegacyNotification.MessageDataNonEmpty | src/app/api/notification/route.ts:139-147 | every game text the route builds is non-empty |
| LegacyNotification.RetryClassesDisjoint | src/app/api/notification/route.ts:379-381 | an error the legacy route retries is never retried by the cron route, and the same code under the cron route's class would be |
| LegacyNotification.IsRetryTargetError | src/app/api/notification/route.ts:379-381 | only a CustomError of the `@/shared/errors/error` class with code TOO_MANY_REQUESTS or INTERNAL_SERVER_ERROR is retried |
| LegacyNotification.SendWithRetry | src/app/api/notification/route.ts:358-395 | the `while (true)` loop makes the same calls and waits as the cron retry loop, with this route's error class |
| LegacyNotification.RunUserTask | src/app/api/notification/route.ts:236-270 | one user's outcome: skipped for an empty message, else success or error of the retried send |
| LegacyNotification.RunPage | src/app/api/notification/route.ts:236-272 | one page's tasks add their users' outcomes to the counters |
| LegacyNotification.SendPushMessagesToUsers | src/app/api/notification/route.ts:221-282 | token issued once before the first page; an issuing failure throws; otherwise the counters of all users of all pages |
| LegacyNotification.DispatchCounts | src/app/api/notification/route.ts:227-281 | with a token, every user is counted once, the counters balance, and the skips are exactly the users no game concerns |
| LegacyNotification.SkipsAreNoGameUsers | src/app/api/notification/route.ts:248-251 | the skip count is the number of users no game concerns |
| LegacyNotification.FetchMlbData | src/app/api/notification/route.ts:86-96 | the fetch succeeds iff all three do; otherwise the first failure in teams, standings, games order |
| LegacyNotification.Post | src/app/api/notification/route.ts:60-81 | 500 "Internal Server Error" exactly when a fetch or the token fails, otherwise 200 "OK"; the logged counters exist exactly on success, count every user once and balance |

## Left out

- Network I/O, `fetch`, URL building and JSON parsing. Each API wrapper takes the response (status flag and decoded body), or a function from query parameter to response.
- The date formatting with `Intl`/`toLocaleString` (the JST start time, the header date) and the date's time zone. These are function parameters.
- `new Date()`, `Date.now()`, `Math.random()`, `crypto.randomUUID()` and `setTimeout`. The clock, the jitter, the retry key and the waits are parameters or recorded values; nothing sleeps.
- Invalid dates (`NaN` timestamps) in the sort comparator, and the `RangeError` that `Intl.DateTimeFormat.format` throws on an invalid date in the cron route. Start times are integers, and the start-time formatter is a total function parameter.
- The flex styling (colours, sizes, margins, layout kinds). The model keeps only the texts, their rows, the separators, the header and the alt text.
- Logging, except the log level chosen in src/shared/utils/api.ts. Log lines, including the legacy route's final counters, are not modelled as output.
- Prisma: the table is a sequence of users. `Ascending(db)` stands for `orderBy: { id: "asc" }` over a primary key: ids ascend strictly. Connection errors are not modelled.
- UsersRepository.DefaultChunkSize: the default of 100 is a constant. A call without a chunk size passes it explicitly.
- The issuing of the LINE token and the sending of a push message are parameters. `issueLineMessagingApiStatelessChannelAccessTokenApi` and `sendLinePushMessageApi` are not modelled, so the error class they throw is a parameter.
- `countUsers` and the user-count log of the cron route are not part of this model. Only its failure leads to a 500, which is covered by the generic error path.
- `DIVISION_ABBR_JP`, `LEAGUE_NAME_JP`, `DIVISION_NAME_JP` and `ERROR_CODE_TO_STATUS` are parameters. Only the shape of their lookups matters.
- Real parallelism. Within a chunk, the routes' user tasks catch every error and only increment counters, so any order gives the same counts. The model runs them in list order.
- MlbApi.ToRosterPlayer: uses the corrected NormaliseStatus of "## Findings", so a status code inherited from `Object.prototype` (such as "constructor") becomes "" where the code as written keeps it.
- MlbApi.FetchTeamRoster40Man: maps every entry with MlbApi.ToRosterPlayer, so it uses the corrected status normalisation too.
- MlbApi.RosterStatusKnown: holds of the corrected status normalisation only; as written, an inherited key such as "constructor" is kept and is not a status key.
- FetchPlayers.FetchPlayersByTeamId: maps the roster with MlbApi.ToRosterPlayers, so the same lookup at src/features/players/api/fetch-players.ts:31-33 is modelled by the corrected status normalisation.
- LegacyLeagues.LeagueRegistry.CreateLeaguesFromTeams: the result is a copy of the table's value when the call returns. In the source it is the shared object itself, so a result of an earlier call also shows the pushes of later calls; that aliasing is not captured.
- CronDispatch.Post: the ghost chunks of users are those the iterator yields when run to the end. When a token cannot be issued, the source leaves the `for await` loop, and the chunks after the failing one are never fetched. The reply is unaffected, since later chunks change nothing.
- Leagues.LeagueDivisions: the division ids (201, 202, 200 for the American League and 204, 205, 203 for the National League) come from `DIVISION_ID` in `@/shared/constants/division`, which is not part of this model. The values are those of src/constants/league.ts.
- CronDispatch.FetchAll: when several fetches fail, the model reports the teams error, then the standings error, then the games error; `Promise.all` rejects with the one that fails first in time. The reply is the same either way, because the MLB wrappers throw `Error`s without a `code` and only an UNAUTHORIZED code changes it.
- Concurrency.RunWithConcurrency: `Promise.all` rejects with the first rejection in time. The model lets the schedule choose the order, and states only that the error is that of some rejected task.

## Findings

| source | as written | input that shows it | evidently intended | confidence | as-written member | corrected member |
|---|---|---|---|---|---|---|
| src/shared/api/mlb-api.ts:61-63 | the status code is kept whenever `PLAYER_STATUS[code]` is truthy, which holds for keys inherited from `Object.prototype` | a roster entry with status code "constructor" keeps that code, which is not a status | a code that is not one of the table's own keys becomes "" | low, not executed | MlbApi.InheritedStatusSlipsThrough | MlbApi.NormaliseStatus |
| src/features/players/api/fetch-players.ts:31-33 | the status code is kept whenever `PLAYER_STATUS[code]` is truthy, which holds for keys inherited from `Object.prototype` | a roster entry with status code "constructor" keeps that code, which is not a status | a code that is not one of the table's own keys becomes "" | low, not executed | MlbApi.InheritedStatusSlipsThrough | MlbApi.NormaliseStatus |
