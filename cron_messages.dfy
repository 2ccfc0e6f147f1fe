/** The per-user batcher of the notification job: the games that concern a
    user become game cards, at most ten cards per flex message, separators
    between cards, and the date header on the first message only. */
module CronMessages {
  import opened Common
  import opened CronContent

  const MaxGameCountPerMessage: nat := 10

  /** A flex body item: a game card (its rows of texts) or a separator. The
      colours, sizes and margins of the layout are not modelled. */
  datatype BodyItem = GameBox(rows: seq<seq<string>>) | Separator

  /** A message object of type "flex": its alternative text, the header text
      when there is a header, and the body contents. */
  datatype FlexMessage = FlexMessage(altText: string, header: Option<string>, body: seq<BodyItem>)

  /** `buildGameContentJson(...)`: the time and the pairing, the team names,
      the standings and the probable pitchers, away side first. */
  function BuildGameContentJson(data: GameContentData): (r: BodyItem)
    ensures r.GameBox? && |r.rows| == 4
    ensures r.rows[0] == ["⚾️", data.startTimeJST, data.away.teamName + " @ " + data.home.teamName]
  {
    GameBox([
      ["⚾️", data.startTimeJST, data.away.teamName + " @ " + data.home.teamName],
      [data.away.teamName, data.home.teamName],
      [data.away.standingText, data.home.standingText],
      ["P: " + data.away.pitcherLastName, "P: " + data.home.pitcherLastName]])
  }

  /** `setGamesContentsToLayout(contents, tomorrowDate)`: the header text, when
      the date is given and non-empty, and the body. */
  function SetGamesContentsToLayout(gamesContents: seq<BodyItem>, tomorrowDate: Option<string>): (r: (Option<string>, seq<BodyItem>))
    ensures r.1 == gamesContents
    ensures r.0.Some? <==> tomorrowDate.Some? && tomorrowDate.value != ""
  {
    if tomorrowDate.Some? && tomorrowDate.value != "" then (Some("明日の注目試合 (" + tomorrowDate.value + ")"), gamesContents)
    else (None, gamesContents)
  }

  function AltText(tomorrowDate: string): string {
    "明日のMLB試合情報（" + tomorrowDate + "）"
  }

  /** `cards.flatMap((c, i) => i === 0 ? [c] : [separator, c])`. */
  function Interleave(cards: seq<BodyItem>): (r: seq<BodyItem>)
    ensures cards == [] <==> r == []
  {
    if |cards| <= 1 then cards
    else Interleave(cards[..|cards| - 1]) + [Separator, cards[|cards| - 1]]
  }

  /** One message for a chunk of cards; `first` says whether no message was
      pushed before it. */
  function MessageFor(tomorrowDate: string, chunk: seq<BodyItem>, first: bool): FlexMessage {
    var layout := SetGamesContentsToLayout(Interleave(chunk), if first then Some(tomorrowDate) else None);
    FlexMessage(AltText(tomorrowDate), layout.0, layout.1)
  }

  /** The cards of the games that concern the user, in list order. */
  function RelevantCards(list: seq<GameContentData>, teamIds: seq<int>, playerIds: seq<int>): (r: seq<BodyItem>)
    ensures |r| <= |list|
  {
    if list == [] then []
    else
      var d := list[|list| - 1];
      RelevantCards(list[..|list| - 1], teamIds, playerIds) +
        (if ShouldNotifyGameToUser(d, teamIds, playerIds) then [BuildGameContentJson(d)] else [])
  }

  /** Consecutive chunks of ten, the last one shorter. */
  function Chunks(s: seq<BodyItem>): seq<seq<BodyItem>>
    decreases |s|
  {
    if s == [] then []
    else if |s| <= MaxGameCountPerMessage then [s]
    else [s[..MaxGameCountPerMessage]] + Chunks(s[MaxGameCountPerMessage..])
  }

  /** The messages for a list of chunks; only the first is marked first. */
  function Messages(tomorrowDate: string, chunks: seq<seq<BodyItem>>): (r: seq<FlexMessage>)
    ensures |r| == |chunks|
  {
    if chunks == [] then []
    else Messages(tomorrowDate, chunks[..|chunks| - 1]) + [MessageFor(tomorrowDate, chunks[|chunks| - 1], |chunks| == 1)]
  }

  /** The messages a user receives: the relevant cards, ten per message. */
  function UserMessages(tomorrowDate: string, list: seq<GameContentData>, teamIds: seq<int>, playerIds: seq<int>): seq<FlexMessage> {
    Messages(tomorrowDate, Chunks(RelevantCards(list, teamIds, playerIds)))
  }

  /** `buildMessageObjectsForUser(tomorrowDate, list, teamIds, playerIds)`:
      the reduce with its accumulator of messages and of the current cards. */
  method BuildMessageObjectsForUser(tomorrowDate: string, list: seq<GameContentData>,
                                    registeredTeamIds: seq<int>, registeredPlayerIds: seq<int>)
    returns (messageObjects: seq<FlexMessage>)
    ensures messageObjects == UserMessages(tomorrowDate, list, registeredTeamIds, registeredPlayerIds)
  {
    var dataLength := |list|;
    messageObjects := [];
    var current: seq<BodyItem> := [];
    ghost var done: seq<BodyItem> := [];
    for index := 0 to dataLength
      invariant RelevantCards(list[..index], registeredTeamIds, registeredPlayerIds) == done + current
      invariant messageObjects == Messages(tomorrowDate, Chunks(done))
      invariant index < dataLength ==> |done| % MaxGameCountPerMessage == 0 && |current| < MaxGameCountPerMessage
      invariant index == dataLength && dataLength > 0 ==> current == []
    {
      RelevantCardsSnoc(list, index, registeredTeamIds, registeredPlayerIds);
      messageObjects, current, done :=
        ReduceStep(tomorrowDate, list[index], index == dataLength - 1, registeredTeamIds, registeredPlayerIds,
                   messageObjects, current, done);
    }
    assert list[..dataLength] == list;
    assert current == [];
    assert done + current == done;
  }

  /** The reduce callback for one game: add its card when it concerns the
      user, and push a message when ten cards are collected or when this is
      the last game and some card is pending. */
  method ReduceStep(tomorrowDate: string, data: GameContentData, isLast: bool,
                    registeredTeamIds: seq<int>, registeredPlayerIds: seq<int>,
                    messageObjects: seq<FlexMessage>, current: seq<BodyItem>, ghost done: seq<BodyItem>)
    returns (messageObjects': seq<FlexMessage>, current': seq<BodyItem>, ghost done': seq<BodyItem>)
    requires messageObjects == Messages(tomorrowDate, Chunks(done))
    requires |done| % MaxGameCountPerMessage == 0 && |current| < MaxGameCountPerMessage
    ensures done' + current' == done + current +
      (if ShouldNotifyGameToUser(data, registeredTeamIds, registeredPlayerIds) then [BuildGameContentJson(data)] else [])
    ensures messageObjects' == Messages(tomorrowDate, Chunks(done'))
    ensures !isLast ==> |done'| % MaxGameCountPerMessage == 0 && |current'| < MaxGameCountPerMessage
    ensures isLast ==> current' == []
  {
    messageObjects', current', done' := messageObjects, current, done;
    if ShouldNotifyGameToUser(data, registeredTeamIds, registeredPlayerIds) {
      current' := current' + [BuildGameContentJson(data)];
    }
    var isMaxGameCountReached := |current'| >= MaxGameCountPerMessage;
    var isLastAndExistsContentArray := isLast && |current'| > 0;
    if isMaxGameCountReached || isLastAndExistsContentArray {
      PushKeeps(tomorrowDate, messageObjects', done', current');
      messageObjects' := messageObjects' + [MessageFor(tomorrowDate, current', |messageObjects'| == 0)];
      done' := done' + current';
      current' := [];
    }
  }

  /** Pushing the message of the pending cards moves them to the done cards. */
  lemma PushKeeps(tomorrowDate: string, messageObjects: seq<FlexMessage>, done: seq<BodyItem>, current: seq<BodyItem>)
    requires messageObjects == Messages(tomorrowDate, Chunks(done))
    requires |done| % MaxGameCountPerMessage == 0 && 0 < |current| <= MaxGameCountPerMessage
    ensures messageObjects + [MessageFor(tomorrowDate, current, |messageObjects| == 0)] ==
      Messages(tomorrowDate, Chunks(done + current))
    ensures |current| == MaxGameCountPerMessage ==> |done + current| % MaxGameCountPerMessage == 0
    ensures (done + current) + [] == done + current
  {
    ChunksSnoc(done, current);
    MessagesSnoc(tomorrowDate, Chunks(done), current);
    WholeChunks(|done|, |current|);
  }

  /** The cards of one more game are those before it and its own card, if any. */
  lemma RelevantCardsSnoc(list: seq<GameContentData>, index: nat, teamIds: seq<int>, playerIds: seq<int>)
    requires index < |list|
    ensures RelevantCards(list[..index + 1], teamIds, playerIds) == RelevantCards(list[..index], teamIds, playerIds) +
      (if ShouldNotifyGameToUser(list[index], teamIds, playerIds) then [BuildGameContentJson(list[index])] else [])
  {
    assert list[..index + 1][..index] == list[..index];
  }

  /** A full chunk after whole chunks leaves whole chunks. */
  lemma WholeChunks(done: nat, chunk: nat)
    requires done % MaxGameCountPerMessage == 0
    ensures chunk == MaxGameCountPerMessage ==> (done + chunk) % MaxGameCountPerMessage == 0
  {
  }

  lemma MessagesSnoc(tomorrowDate: string, chunks: seq<seq<BodyItem>>, chunk: seq<BodyItem>)
    ensures Messages(tomorrowDate, chunks + [chunk]) ==
      Messages(tomorrowDate, chunks) + [MessageFor(tomorrowDate, chunk, |Messages(tomorrowDate, chunks)| == 0)]
  {
    assert (chunks + [chunk])[..|chunks|] == chunks;
  }

  /** Appending a chunk of at most ten cards to whole chunks adds one chunk. */
  lemma {:induction false} ChunksSnoc(done: seq<BodyItem>, chunk: seq<BodyItem>)
    requires |done| % MaxGameCountPerMessage == 0
    requires 0 < |chunk| <= MaxGameCountPerMessage
    ensures Chunks(done + chunk) == Chunks(done) + [chunk]
    decreases |done|
  {
    if done != [] {
      var rest := done[MaxGameCountPerMessage..];
      assert (done + chunk)[..MaxGameCountPerMessage] == done[..MaxGameCountPerMessage];
      assert (done + chunk)[MaxGameCountPerMessage..] == rest + chunk;
      ChunksSnoc(rest, chunk);
    } else {
      assert done + chunk == chunk;
    }
  }

  // ---------------------------------------------------------------------
  // Properties of the batching
  // ---------------------------------------------------------------------

  /** The chunks, concatenated, give the cards back; each holds one to ten
      cards, every chunk but the last exactly ten; there are ceil(n/10). */
  lemma {:induction false} ChunksPartition(s: seq<BodyItem>)
    ensures Flatten(Chunks(s)) == s
    ensures forall k :: 0 <= k < |Chunks(s)| ==> 0 < |Chunks(s)[k]| <= MaxGameCountPerMessage
    ensures forall k :: 0 <= k < |Chunks(s)| - 1 ==> |Chunks(s)[k]| == MaxGameCountPerMessage
    ensures |Chunks(s)| == (|s| + MaxGameCountPerMessage - 1) / MaxGameCountPerMessage
    decreases |s|
  {
    if |s| > MaxGameCountPerMessage {
      var head, rest := s[..MaxGameCountPerMessage], s[MaxGameCountPerMessage..];
      ChunksPartition(rest);
      FlattenAppend([head], Chunks(rest));
      assert Flatten([head]) == head by {
        assert [head][..0] == [];
      }
      assert s == head + rest;
      var cs := Chunks(s);
      assert forall k :: 1 <= k < |cs| ==> cs[k] == Chunks(rest)[k - 1];
    } else if s != [] {
      assert [s][..0] == [];
    }
  }

  /** The games of a body: its cards without the separators. */
  function CardsOf(body: seq<BodyItem>): seq<BodyItem> {
    if body == [] then []
    else CardsOf(body[..|body| - 1]) + (if body[|body| - 1].GameBox? then [body[|body| - 1]] else [])
  }

  /** `k` cards become `2k - 1` body items. */
  lemma {:induction false} InterleaveLength(cards: seq<BodyItem>)
    requires cards != []
    ensures |Interleave(cards)| == 2 * |cards| - 1
    decreases |cards|
  {
    if |cards| > 1 {
      InterleaveLength(cards[..|cards| - 1]);
    }
  }

  /** Card `k` sits at position `2k` of the body, a separator after every
      card but the last. */
  lemma {:induction false} InterleaveAt(cards: seq<BodyItem>, k: nat)
    requires k < |cards|
    ensures |Interleave(cards)| == 2 * |cards| - 1
    ensures Interleave(cards)[2 * k] == cards[k]
    ensures k < |cards| - 1 ==> Interleave(cards)[2 * k + 1] == Separator
    decreases |cards|
  {
    InterleaveLength(cards);
    if |cards| > 1 {
      var c' := cards[..|cards| - 1];
      InterleaveLength(c');
      if k < |c'| {
        InterleaveAt(c', k);
      }
    }
  }

  lemma CardsOfSnoc(body: seq<BodyItem>, x: BodyItem)
    ensures CardsOf(body + [x]) == CardsOf(body) + (if x.GameBox? then [x] else [])
  {
    assert (body + [x])[..|body|] == body;
  }

  lemma CardsOfPair(body: seq<BodyItem>, last: BodyItem)
    requires last.GameBox?
    ensures CardsOf(body + [Separator, last]) == CardsOf(body) + [last]
  {
    CardsOfSnoc(body, Separator);
    CardsOfSnoc(body + [Separator], last);
    assert body + [Separator] + [last] == body + [Separator, last];
  }

  /** Dropping the separators gives the cards back: none lost, none added. */
  lemma {:induction false} InterleaveCards(cards: seq<BodyItem>)
    requires forall k :: 0 <= k < |cards| ==> cards[k].GameBox?
    ensures CardsOf(Interleave(cards)) == cards
    decreases |cards|
  {
    if |cards| > 1 {
      var c' := cards[..|cards| - 1];
      var last := cards[|cards| - 1];
      InterleaveCards(c');
      CardsOfPair(Interleave(c'), last);
      assert cards == c' + [last];
    } else if |cards| == 1 {
      CardsOfSnoc([], cards[0]);
      assert [] + [cards[0]] == cards;
    }
  }

  lemma {:induction false} RelevantCardsAreGames(list: seq<GameContentData>, teamIds: seq<int>, playerIds: seq<int>)
    ensures forall k :: 0 <= k < |RelevantCards(list, teamIds, playerIds)| ==> RelevantCards(list, teamIds, playerIds)[k].GameBox?
    decreases |list|
  {
    if list != [] {
      RelevantCardsAreGames(list[..|list| - 1], teamIds, playerIds);
    }
  }

  /** The number of games that concern the user. */
  function RelevantCount(list: seq<GameContentData>, teamIds: seq<int>, playerIds: seq<int>): nat {
    if list == [] then 0
    else
      var last := if ShouldNotifyGameToUser(list[|list| - 1], teamIds, playerIds) then 1 else 0;
      RelevantCount(list[..|list| - 1], teamIds, playerIds) + last
  }

  lemma {:induction false} RelevantCardsCount(list: seq<GameContentData>, teamIds: seq<int>, playerIds: seq<int>)
    ensures |RelevantCards(list, teamIds, playerIds)| == RelevantCount(list, teamIds, playerIds)
    ensures RelevantCount(list, teamIds, playerIds) == 0 <==>
      forall k :: 0 <= k < |list| ==> !ShouldNotifyGameToUser(list[k], teamIds, playerIds)
    decreases |list|
  {
    if list != [] {
      var l' := list[..|list| - 1];
      RelevantCardsCount(l', teamIds, playerIds);
      assert forall k :: 0 <= k < |l'| ==> l'[k] == list[k];
    }
  }

  lemma {:induction false} MessagesAt(tomorrowDate: string, chunks: seq<seq<BodyItem>>)
    ensures forall k :: 0 <= k < |chunks| ==> Messages(tomorrowDate, chunks)[k] == MessageFor(tomorrowDate, chunks[k], k == 0)
    decreases |chunks|
  {
    if chunks != [] {
      var c' := chunks[..|chunks| - 1];
      MessagesAt(tomorrowDate, c');
      assert forall k :: 0 <= k < |c'| ==> c'[k] == chunks[k];
    }
  }

  /** What a user receives, as promised: one message per started ten
      relevant games (none at all when no game concerns the user), the
      same alternative text on each, the date header on the first one only,
      and in each body the cards of its games with a separator between two
      consecutive cards; the cards of all messages, in order, are the cards
      of the relevant games in list order. */
  lemma MessagesForUser(tomorrowDate: string, list: seq<GameContentData>, teamIds: seq<int>, playerIds: seq<int>)
    ensures var cards := RelevantCards(list, teamIds, playerIds);
      var chunks := Chunks(cards);
      var msgs := UserMessages(tomorrowDate, list, teamIds, playerIds);
      && |msgs| == (RelevantCount(list, teamIds, playerIds) + 9) / 10
      && (msgs == [] <==> forall k :: 0 <= k < |list| ==> !ShouldNotifyGameToUser(list[k], teamIds, playerIds))
      && Flatten(chunks) == cards
      && forall k :: 0 <= k < |msgs| ==>
           && msgs[k].altText == AltText(tomorrowDate)
           && (msgs[k].header.Some? <==> k == 0 && tomorrowDate != "")
           && 0 < |chunks[k]| <= 10
           && |msgs[k].body| == 2 * |chunks[k]| - 1
           && CardsOf(msgs[k].body) == chunks[k]
           && (forall j :: 0 <= j < |chunks[k]| - 1 ==> msgs[k].body[2 * j + 1] == Separator)
  {
    var cards := RelevantCards(list, teamIds, playerIds);
    var chunks := Chunks(cards);
    RelevantCardsCount(list, teamIds, playerIds);
    RelevantCardsAreGames(list, teamIds, playerIds);
    ChunksPartition(cards);
    MessagesAt(tomorrowDate, chunks);
    forall k | 0 <= k < |chunks|
      ensures |Interleave(chunks[k])| == 2 * |chunks[k]| - 1
      ensures CardsOf(Interleave(chunks[k])) == chunks[k]
      ensures forall j :: 0 <= j < |chunks[k]| - 1 ==> Interleave(chunks[k])[2 * j + 1] == Separator
    {
      ChunkCards(cards, k);
      InterleaveLength(chunks[k]);
      forall j | 0 <= j < |chunks[k]| - 1 ensures Interleave(chunks[k])[2 * j + 1] == Separator {
        InterleaveAt(chunks[k], j);
      }
      InterleaveCards(chunks[k]);
    }
  }

  /** Every card of a chunk is a card of the chunked list. */
  lemma {:induction false} ChunkCards(s: seq<BodyItem>, k: nat)
    requires k < |Chunks(s)|
    requires forall i :: 0 <= i < |s| ==> s[i].GameBox?
    ensures 0 < |Chunks(s)[k]|
    ensures forall i :: 0 <= i < |Chunks(s)[k]| ==> Chunks(s)[k][i].GameBox?
    decreases |s|
  {
    if |s| > MaxGameCountPerMessage && k > 0 {
      var rest := s[MaxGameCountPerMessage..];
      assert forall i :: 0 <= i < |rest| ==> rest[i] == s[i + MaxGameCountPerMessage];
      ChunkCards(rest, k - 1);
    }
  }
}
