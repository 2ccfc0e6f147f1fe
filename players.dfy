/** The player list helpers: de-duplication by status priority, the position
    filter, the priority sort and the grouping of player ids by team. */
module Players {
  import opened Common
  import opened Domain
  import Sorting

  // ---------------------------------------------------------------------
  // removeDuplicatePlayers
  // ---------------------------------------------------------------------

  /** The `Map<number, Player>` the loop fills: its keys in insertion order
      (a JavaScript Map keeps the first insertion position of a key when the
      key is set again) and its entries. */
  datatype MapState = MapState(keys: seq<int>, entries: map<int, Player>)

  /** One pass of the loop body. */
  function Visit(st: MapState, p: Player): MapState {
    if p.id !in st.entries then MapState(st.keys + [p.id], st.entries[p.id := p])
    else if Priority(p.statusCode) > Priority(st.entries[p.id].statusCode) then MapState(st.keys, st.entries[p.id := p])
    else st
  }

  /** The Map after the loop has visited every player of `s`. */
  function Dedupe(s: seq<Player>): MapState {
    if s == [] then MapState([], map[]) else Visit(Dedupe(s[..|s| - 1]), s[|s| - 1])
  }

  predicate KeysListed(st: MapState) {
    forall k :: 0 <= k < |st.keys| ==> st.keys[k] in st.entries
  }

  /** `Array.from(playerMap.values())`. */
  function ValuesOf(st: MapState): (r: seq<Player>)
    requires KeysListed(st)
    ensures |r| == |st.keys| && forall k :: 0 <= k < |r| ==> r[k] == st.entries[st.keys[k]]
    decreases |st.keys|
  {
    if st.keys == [] then []
    else ValuesOf(MapState(st.keys[..|st.keys| - 1], st.entries)) + [st.entries[st.keys[|st.keys| - 1]]]
  }

  function Ids(s: seq<Player>): set<int> {
    set i | 0 <= i < |s| :: s[i].id
  }

  predicate Distinct(ks: seq<int>) {
    forall i, j :: 0 <= i < j < |ks| ==> ks[i] != ks[j]
  }

  /** The Map's keys are the input ids, each once, and every key has an entry. */
  lemma {:induction false} DedupeKeys(s: seq<Player>)
    ensures var st := Dedupe(s);
      && Distinct(st.keys)
      && (set k | k in st.keys) == st.entries.Keys == Ids(s)
      && KeysListed(st)
    decreases |s|
  {
    if s != [] {
      var s', p := s[..|s| - 1], s[|s| - 1];
      DedupeKeys(s');
      LastSplit(s);
      IdsSnoc(s', p);
      VisitKeys(Dedupe(s'), p, Ids(s'));
    }
  }

  lemma IdsSnoc(s: seq<Player>, p: Player)
    ensures Ids(s + [p]) == Ids(s) + {p.id}
  {
    var t := s + [p];
    forall x | x in Ids(t) ensures x in Ids(s) + {p.id} {
      var i :| 0 <= i < |t| && t[i].id == x;
      if i < |s| { assert s[i] == t[i]; }
    }
    forall x | x in Ids(s) ensures x in Ids(t) {
      var i :| 0 <= i < |s| && s[i].id == x;
      assert t[i] == s[i];
    }
    assert t[|s|].id in Ids(t);
  }

  /** One visit keeps the keys distinct and in step with the entries, and adds
      the player's id to them. */
  lemma VisitKeys(st: MapState, p: Player, ids: set<int>)
    requires Distinct(st.keys) && (set k | k in st.keys) == st.entries.Keys == ids && KeysListed(st)
    ensures var st' := Visit(st, p);
      && Distinct(st'.keys)
      && (set k | k in st'.keys) == st'.entries.Keys == ids + {p.id}
      && KeysListed(st')
  {
    if p.id !in st.entries {
      var ks := st.keys + [p.id];
      assert (set k | k in ks) == (set k | k in st.keys) + {p.id};
      forall i, j | 0 <= i < j < |ks| ensures ks[i] != ks[j] {
        if j == |st.keys| {
          assert ks[i] == st.keys[i] && ks[i] in (set k | k in st.keys);
        }
      }
    }
  }

  /** Visiting more players only appends keys: the keys of any prefix are a
      prefix of the keys, so the keys come in first-occurrence order. */
  lemma {:induction false} DedupeKeysGrow(s: seq<Player>, n: nat)
    requires n <= |s|
    ensures Dedupe(s[..n]).keys <= Dedupe(s).keys
    decreases |s| - n
  {
    if n < |s| {
      var t := s[..n + 1];
      assert t[..|t| - 1] == s[..n];
      var a := Dedupe(s[..n]).keys;
      assert Dedupe(t) == Visit(Dedupe(s[..n]), s[n]);
      var b := Dedupe(t).keys;
      assert b == a || b == a + [s[n].id];
      assert b[..|a|] == a;
      DedupeKeysGrow(s, n + 1);
      if n + 1 == |s| { assert t == s; }
      var c := Dedupe(s).keys;
      assert c[..|b|] == b;
      assert c[..|a|] == c[..|b|][..|a|];
    } else {
      assert s[..n] == s;
    }
  }

  /** Player `s[i]` wins for its id: no player with that id has a higher
      priority, and every earlier one has a strictly lower priority. */
  predicate BestAt(s: seq<Player>, i: nat)
    requires i < |s|
  {
    && (forall j :: 0 <= j < |s| && s[j].id == s[i].id ==> Priority(s[j].statusCode) <= Priority(s[i].statusCode))
    && (forall j :: 0 <= j < i && s[j].id == s[i].id ==> Priority(s[j].statusCode) < Priority(s[i].statusCode))
  }

  /** A winner stays the winner when a later player of its id has no higher priority. */
  lemma BestStays(s: seq<Player>, p: Player, i: nat)
    requires i < |s| && BestAt(s, i)
    requires p.id == s[i].id ==> Priority(p.statusCode) <= Priority(s[i].statusCode)
    ensures BestAt(s + [p], i)
  {
    var s2 := s + [p];
    assert forall j :: 0 <= j < |s| ==> s2[j] == s[j];
  }

  /** A player beating every earlier player of its id is the new winner. */
  lemma BestNew(s: seq<Player>, p: Player)
    requires forall j :: 0 <= j < |s| && s[j].id == p.id ==> Priority(s[j].statusCode) < Priority(p.statusCode)
    ensures BestAt(s + [p], |s|)
  {
    var s2 := s + [p];
    assert forall j :: 0 <= j < |s| ==> s2[j] == s[j];
  }

  /** The entry kept for each id is the first player of that id with the
      highest priority: the comparison is a strict `>`, so a later player
      with an equal priority does not replace it. */
  lemma {:induction false} DedupeKeepsBest(s: seq<Player>)
    ensures forall id :: id in Dedupe(s).entries ==>
      exists i :: 0 <= i < |s| && s[i] == Dedupe(s).entries[id] && BestAt(s, i)
    decreases |s|
  {
    if s != [] {
      var s', p := s[..|s| - 1], s[|s| - 1];
      LastSplit(s);
      DedupeKeepsBest(s');
      forall id | id in Dedupe(s).entries
        ensures exists i :: 0 <= i < |s| && s[i] == Dedupe(s).entries[id] && BestAt(s, i)
      {
        var i := VisitKeepsBest(s', p, id);
      }
    }
  }

  /** One visit keeps the property of `DedupeKeepsBest` for one id. */
  lemma VisitKeepsBest(s: seq<Player>, p: Player, id: int) returns (i: nat)
    requires forall id :: id in Dedupe(s).entries ==>
      exists i :: 0 <= i < |s| && s[i] == Dedupe(s).entries[id] && BestAt(s, i)
    requires id in Visit(Dedupe(s), p).entries
    ensures i < |s + [p]| && (s + [p])[i] == Visit(Dedupe(s), p).entries[id] && BestAt(s + [p], i)
  {
    var st := Dedupe(s);
    if id != p.id {
      var i0 :| 0 <= i0 < |s| && s[i0] == st.entries[id] && BestAt(s, i0);
      DedupeEntryId(s, id);
      BestStays(s, p, i0);
      i := i0;
    } else if p.id !in st.entries {
      DedupeKeys(s);
      forall j | 0 <= j < |s| ensures s[j].id != p.id {
        assert s[j].id in Ids(s);
      }
      BestNew(s, p);
      i := |s|;
    } else {
      var i0 :| 0 <= i0 < |s| && s[i0] == st.entries[id] && BestAt(s, i0);
      DedupeEntryId(s, id);
      if Priority(p.statusCode) > Priority(st.entries[p.id].statusCode) {
        BestNew(s, p);
        i := |s|;
      } else {
        BestStays(s, p, i0);
        i := i0;
      }
    }
  }

  /** `removeDuplicatePlayers(players)`. */
  method RemoveDuplicatePlayers(players: seq<Player>) returns (r: seq<Player>)
    ensures KeysListed(Dedupe(players)) && r == ValuesOf(Dedupe(players))
  {
    var keys, entries := FillPlayerMap(players);
    DedupeKeys(players);
    r := MapValues(keys, entries);
  }

  /** The `for (const player of players)` loop that fills `playerMap`. */
  method FillPlayerMap(players: seq<Player>) returns (keys: seq<int>, entries: map<int, Player>)
    ensures MapState(keys, entries) == Dedupe(players)
  {
    keys := [];
    entries := map[];
    for i := 0 to |players|
      invariant MapState(keys, entries) == Dedupe(players[..i])
    {
      assert players[..i + 1][..i] == players[..i];
      ghost var next := Visit(MapState(keys, entries), players[i]);
      var player := players[i];
      var existingPlayer := if player.id in entries then Some(entries[player.id]) else None;
      if existingPlayer.None? || Priority(player.statusCode) > Priority(existingPlayer.value.statusCode) {
        if player.id !in entries {
          keys := keys + [player.id];
        }
        entries := entries[player.id := player];
      }
      assert MapState(keys, entries) == next;
    }
    assert players[..|players|] == players;
  }

  /** `Array.from(playerMap.values())`: the entries in key order. */
  method MapValues(keys: seq<int>, entries: map<int, Player>) returns (r: seq<Player>)
    requires KeysListed(MapState(keys, entries))
    ensures r == ValuesOf(MapState(keys, entries))
  {
    r := [];
    for k := 0 to |keys|
      invariant r == ValuesOf(MapState(keys[..k], entries))
    {
      assert keys[..k + 1][..k] == keys[..k];
      r := r + [entries[keys[k]]];
    }
    assert keys[..|keys|] == keys;
  }

  /** What the de-duplicated list is: one player per input id, ids distinct,
      each the best-priority player of its id. */
  lemma RemoveDuplicatesResult(s: seq<Player>)
    ensures KeysListed(Dedupe(s))
    ensures var r := ValuesOf(Dedupe(s));
      && (forall i, j :: 0 <= i < j < |r| ==> r[i].id != r[j].id)
      && (set k | 0 <= k < |r| :: r[k].id) == Ids(s)
      && (forall k :: 0 <= k < |r| ==> exists i :: 0 <= i < |s| && s[i] == r[k] && BestAt(s, i))
  {
    ValuesDistinct(s);
    ValuesCoverIds(s);
    ValuesBest(s);
  }

  lemma ValuesDistinct(s: seq<Player>)
    ensures KeysListed(Dedupe(s))
    ensures var r := ValuesOf(Dedupe(s));
      forall i, j :: 0 <= i < j < |r| ==> r[i].id != r[j].id
  {
    DedupeKeys(s);
    ValuesIds(s);
  }

  lemma ValuesCoverIds(s: seq<Player>)
    ensures KeysListed(Dedupe(s))
    ensures var r := ValuesOf(Dedupe(s));
      (set k | 0 <= k < |r| :: r[k].id) == Ids(s)
  {
    DedupeKeys(s);
    ValuesIds(s);
    var st := Dedupe(s);
    var r := ValuesOf(st);
    forall x | x in st.keys ensures x in (set k | 0 <= k < |r| :: r[k].id) {
      var k :| 0 <= k < |st.keys| && st.keys[k] == x;
      assert r[k].id == x;
    }
  }

  /** The de-duplicated list names the Map's keys in order. */
  lemma ValuesIds(s: seq<Player>)
    ensures KeysListed(Dedupe(s))
    ensures forall k :: 0 <= k < |Dedupe(s).keys| ==> ValuesOf(Dedupe(s))[k].id == Dedupe(s).keys[k]
  {
    DedupeKeys(s);
    var st := Dedupe(s);
    forall k | 0 <= k < |st.keys| ensures ValuesOf(st)[k].id == st.keys[k] {
      DedupeEntryId(s, st.keys[k]);
    }
  }

  lemma ValuesBest(s: seq<Player>)
    ensures KeysListed(Dedupe(s))
    ensures var r := ValuesOf(Dedupe(s));
      forall k :: 0 <= k < |r| ==> exists i :: 0 <= i < |s| && s[i] == r[k] && BestAt(s, i)
  {
    DedupeKeys(s);
    DedupeKeepsBest(s);
    var st := Dedupe(s);
    var r := ValuesOf(st);
    forall k | 0 <= k < |r| ensures exists i :: 0 <= i < |s| && s[i] == r[k] && BestAt(s, i) {
      assert r[k] == st.entries[st.keys[k]];
    }
  }

  /** The index of the roster entry a de-duplicated player comes from. */
  lemma BestIndex(s: seq<Player>, x: Player) returns (i: nat)
    requires KeysListed(Dedupe(s)) && x in ValuesOf(Dedupe(s))
    ensures i < |s| && s[i] == x && BestAt(s, i)
  {
    var r := ValuesOf(Dedupe(s));
    var m :| 0 <= m < |r| && r[m] == x;
    ValuesBest(s);
    i :| 0 <= i < |s| && s[i] == r[m] && BestAt(s, i);
  }

  /** The entry stored under an id is a player with that id. */
  lemma {:induction false} DedupeEntryId(s: seq<Player>, id: int)
    requires id in Dedupe(s).entries
    ensures Dedupe(s).entries[id].id == id
    decreases |s|
  {
    if s != [] {
      var s' := s[..|s| - 1];
      if id in Dedupe(s').entries {
        DedupeEntryId(s', id);
      }
    }
  }

  // ---------------------------------------------------------------------
  // filterPlayersByPosition
  // ---------------------------------------------------------------------

  /** `players.filter(p => positionCodes.includes(p.positionCode || ""))`;
      on a string `|| ""` changes nothing. */
  function FilterPlayersByPosition(players: seq<Player>, positionCodes: seq<string>): (r: seq<Player>)
    ensures |r| <= |players|
    ensures forall k :: 0 <= k < |r| ==> r[k].positionCode in positionCodes
  {
    if players == [] then []
    else
      var p := players[|players| - 1];
      FilterPlayersByPosition(players[..|players| - 1], positionCodes) + (if p.positionCode in positionCodes then [p] else [])
  }

  lemma {:induction false} FilterAppend(a: seq<Player>, b: seq<Player>, codes: seq<string>)
    ensures FilterPlayersByPosition(a + b, codes) == FilterPlayersByPosition(a, codes) + FilterPlayersByPosition(b, codes)
    decreases |b|
  {
    if b == [] {
      assert a + b == a;
    } else {
      var b' := b[..|b| - 1];
      assert (a + b)[..|a + b| - 1] == a + b';
      FilterAppend(a, b', codes);
    }
  }

  /** A player survives the filter iff it is in the list and its position
      code is one of the codes. */
  lemma {:induction false} FilterMembers(players: seq<Player>, codes: seq<string>, p: Player)
    ensures p in FilterPlayersByPosition(players, codes) <==> p in players && p.positionCode in codes
    decreases |players|
  {
    if players != [] {
      var s' := players[..|players| - 1];
      FilterMembers(s', codes, p);
      LastSplit(players);
    }
  }

  /** With every position code listed, the filter keeps the whole list. */
  lemma {:induction false} FilterKeepsAll(players: seq<Player>, codes: seq<string>)
    requires forall k :: 0 <= k < |players| ==> players[k].positionCode in codes
    ensures FilterPlayersByPosition(players, codes) == players
    decreases |players|
  {
    if players != [] {
      var s' := players[..|players| - 1];
      FilterKeepsAll(s', codes);
      LastSplit(players);
    }
  }

  // ---------------------------------------------------------------------
  // sortPlayersByStatusPriority
  // ---------------------------------------------------------------------

  /** The comparator `priority(b) - priority(a)` orders by this key, ascending. */
  function SortKey(p: Player): int {
    -(Priority(p.statusCode) as int)
  }

  /** `players.sort(...)`: sorts the array in place (and returns it). */
  method SortPlayersByStatusPriority(a: array<Player>)
    modifies a
    ensures a[..] == Sorting.SortByKey(old(a[..]), SortKey)
  {
    Sorting.SortInPlace(a, SortKey);
  }

  /** The sorted list is a permutation of the input with non-increasing
      priority, and players of equal priority keep their relative order. */
  lemma SortedByPriority(s: seq<Player>)
    ensures var r := Sorting.SortByKey(s, SortKey);
      && multiset(r) == multiset(s)
      && (forall i, j :: 0 <= i < j < |r| ==> Priority(r[i].statusCode) >= Priority(r[j].statusCode))
      && (forall q: int :: Sorting.WithKey(r, SortKey, q) == Sorting.WithKey(s, SortKey, q))
  {
    var r := Sorting.SortByKey(s, SortKey);
    Sorting.SortPermutes(s, SortKey);
    Sorting.SortSorts(s, SortKey);
    forall i, j | 0 <= i < j < |r| ensures Priority(r[i].statusCode) >= Priority(r[j].statusCode) {
      assert SortKey(r[i]) <= SortKey(r[j]);
    }
    forall q: int ensures Sorting.WithKey(r, SortKey, q) == Sorting.WithKey(s, SortKey, q) {
      Sorting.SortIsStable(s, SortKey, q);
    }
  }

  // ---------------------------------------------------------------------
  // groupPlayerIdsByTeamId
  // ---------------------------------------------------------------------

  /** The record after the reduce has visited every player of `s`. */
  function Group(s: seq<Player>): map<int, seq<int>> {
    if s == [] then map[]
    else
      var g, p := Group(s[..|s| - 1]), s[|s| - 1];
      g[p.teamId := (if p.teamId in g then g[p.teamId] else []) + [p.id]]
  }

  /** `groupPlayerIdsByTeamId(players)`. */
  method GroupPlayerIdsByTeamId(players: seq<Player>) returns (acc: map<int, seq<int>>)
    ensures acc == Group(players)
  {
    acc := map[];
    for i := 0 to |players|
      invariant acc == Group(players[..i])
    {
      assert players[..i + 1][..i] == players[..i];
      var player := players[i];
      var list := if player.teamId in acc then acc[player.teamId] else [];
      acc := acc[player.teamId := list];
      acc := acc[player.teamId := acc[player.teamId] + [player.id]];
    }
    assert players[..|players|] == players;
  }

  /** The ids of the players of team `t`, in input order. */
  function TeamIds(s: seq<Player>, t: int): (r: seq<int>)
    ensures |r| <= |s|
  {
    if s == [] then []
    else TeamIds(s[..|s| - 1], t) + (if s[|s| - 1].teamId == t then [s[|s| - 1].id] else [])
  }

  /** The team ids in first-occurrence order. */
  function Teams(s: seq<Player>): seq<int> {
    if s == [] then []
    else
      var ts, t := Teams(s[..|s| - 1]), s[|s| - 1].teamId;
      ts + (if t in ts then [] else [t])
  }

  /** Each team of the input has an entry, and it lists that team's player
      ids in input order; no other key is present. */
  lemma {:induction false} GroupIsFilter(s: seq<Player>)
    ensures Group(s).Keys == (set t | t in Teams(s))
    ensures forall t :: t in Group(s) ==> Group(s)[t] == TeamIds(s, t)
    ensures forall t :: t !in Group(s) ==> TeamIds(s, t) == []
    decreases |s|
  {
    if s != [] {
      GroupIsFilter(s[..|s| - 1]);
    }
  }

  lemma {:induction false} TeamIdsEmpty(s: seq<Player>, t: int)
    ensures t !in Teams(s) ==> TeamIds(s, t) == []
    decreases |s|
  {
    if s != [] {
      TeamIdsEmpty(s[..|s| - 1], t);
    }
  }

  lemma {:induction false} TeamsDistinct(s: seq<Player>)
    ensures Distinct(Teams(s))
    decreases |s|
  {
    if s != [] {
      TeamsDistinct(s[..|s| - 1]);
    }
  }

  /** Total length of the id lists of `ts`. */
  function CountAll(s: seq<Player>, ts: seq<int>): nat {
    if ts == [] then 0 else CountAll(s, ts[..|ts| - 1]) + |TeamIds(s, ts[|ts| - 1])|
  }

  lemma {:induction false} CountBump(s: seq<Player>, p: Player, ts: seq<int>)
    requires Distinct(ts)
    ensures CountAll(s + [p], ts) == CountAll(s, ts) + (if p.teamId in ts then 1 else 0)
    decreases |ts|
  {
    if ts != [] {
      var ts', u := ts[..|ts| - 1], ts[|ts| - 1];
      assert (s + [p])[..|s|] == s;
      CountBump(s, p, ts');
      assert ts == ts' + [u];
      assert forall i :: 0 <= i < |ts'| ==> ts'[i] == ts[i] && ts[i] != u;
      assert Distinct(ts');
    }
  }

  lemma CountAllSnoc(s: seq<Player>, ts: seq<int>, t: int)
    ensures CountAll(s, ts + [t]) == CountAll(s, ts) + |TeamIds(s, t)|
  {
    assert (ts + [t])[..|ts|] == ts;
  }

  /** The grouped lists hold one id per input player. */
  lemma {:induction false} GroupCountsAll(s: seq<Player>)
    ensures CountAll(s, Teams(s)) == |s|
    decreases |s|
  {
    if s != [] {
      var s', p := s[..|s| - 1], s[|s| - 1];
      var ts := Teams(s');
      GroupCountsAll(s');
      TeamsDistinct(s');
      LastSplit(s);
      CountBump(s', p, ts);
      assert CountAll(s, ts) == |s'| + (if p.teamId in ts then 1 else 0);
      if p.teamId !in ts {
        assert Teams(s) == ts + [p.teamId];
        TeamIdsEmpty(s', p.teamId);
        assert TeamIds(s, p.teamId) == [p.id];
        CountAllSnoc(s, ts, p.teamId);
      } else {
        assert Teams(s) == ts;
      }
    }
  }
}
