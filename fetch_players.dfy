/** `fetchPlayersByTeamId`: one team's 40-man roster, de-duplicated by
    status priority, optionally narrowed to some positions and sorted by
    status priority. */
module FetchPlayers {
  import opened Common
  import opened Domain
  import opened MlbApi
  import opened Players
  import Sorting

  predicate DistinctIds(s: seq<Player>) {
    forall i, j :: 0 <= i < j < |s| ==> s[i].id != s[j].id
  }

  /** The players the call keeps before sorting: every position when
      `positionCodes` is empty, otherwise those whose code is listed. */
  function Selected(players: seq<Player>, positionCodes: seq<string>): seq<Player> {
    DedupeKeys(players);
    var unique := ValuesOf(Dedupe(players));
    if |positionCodes| > 0 then FilterPlayersByPosition(unique, positionCodes) else unique
  }

  /** `fetchPlayersByTeamId(teamId, positionCodes, "status")` for the roster
      response `res`. */
  method FetchPlayersByTeamId(res: HttpResponse<seq<ApiRosterEntry>>, positionCodes: seq<string>)
    returns (r: Result<seq<Player>>)
    ensures !res.ok ==> r == Err(PlainError("Failed to fetch players"))
    ensures res.ok ==> r == Ok(Sorting.SortByKey(Selected(ToRosterPlayers(res.body), positionCodes), SortKey))
  {
    if !res.ok {
      return Err(PlainError("Failed to fetch players"));
    }
    var players := ToRosterPlayers(res.body);
    var unique := RemoveDuplicatePlayers(players);
    var filtered := if |positionCodes| > 0 then FilterPlayersByPosition(unique, positionCodes) else unique;
    assert filtered == Selected(players, positionCodes);
    var a := PlayersArray(filtered);
    SortPlayersByStatusPriority(a);
    r := Ok(a[..]);
  }

  /** A fresh array holding `s`, for the in-place sort. */
  method PlayersArray(s: seq<Player>) returns (a: array<Player>)
    ensures fresh(a) && a[..] == s
  {
    a := new Player[|s|](i requires 0 <= i < |s| => s[i]);
  }

  /** A player is in the de-duplicated list iff it is the entry kept for its id. */
  lemma UniqueMembers(players: seq<Player>, x: Player)
    ensures KeysListed(Dedupe(players))
    ensures x in ValuesOf(Dedupe(players)) <==> x.id in Dedupe(players).entries && Dedupe(players).entries[x.id] == x
  {
    DedupeKeys(players);
    var st := Dedupe(players);
    var u := ValuesOf(st);
    if x in u {
      var k :| 0 <= k < |u| && u[k] == x;
      DedupeEntryId(players, st.keys[k]);
    }
    if x.id in st.entries && st.entries[x.id] == x {
      assert x.id in (set k | k in st.keys);
      var k :| 0 <= k < |st.keys| && st.keys[k] == x.id;
      assert u[k] == x;
    }
  }

  /** Keeping a subsequence keeps the ids distinct. */
  lemma {:induction false} FilterDistinct(players: seq<Player>, codes: seq<string>)
    requires DistinctIds(players)
    ensures DistinctIds(FilterPlayersByPosition(players, codes))
    decreases |players|
  {
    if players != [] {
      var s', p := players[..|players| - 1], players[|players| - 1];
      FilterDistinct(s', codes);
      var f' := FilterPlayersByPosition(s', codes);
      forall k | 0 <= k < |f'| ensures f'[k].id != p.id {
        FilterMembers(s', codes, f'[k]);
        var i :| 0 <= i < |s'| && s'[i] == f'[k];
        assert players[i] == s'[i];
      }
    }
  }

  /** The list without its element at `m`. */
  function Without(a: seq<Player>, m: nat): (r: seq<Player>)
    requires m < |a|
    ensures multiset(r) == multiset(a) - multiset{a[m]}
    ensures |r| == |a| - 1
    ensures forall n :: 0 <= n < |r| ==> r[n] == if n < m then a[n] else a[n + 1]
  {
    SplitAround(a, m);
    a[..m] + a[m + 1..]
  }

  /** Dropping an element keeps the ids distinct, and no remaining element
      shares its id. */
  lemma WithoutDistinct(a: seq<Player>, m: nat)
    requires m < |a| && DistinctIds(a)
    ensures DistinctIds(Without(a, m))
    ensures forall y :: y in Without(a, m) ==> y.id != a[m].id
  {
    var a' := Without(a, m);
    forall i, j | 0 <= i < j < |a'| ensures a'[i].id != a'[j].id {
      var i0 := if i < m then i else i + 1;
      var j0 := if j < m then j else j + 1;
      assert a'[i] == a[i0] && a'[j] == a[j0];
    }
    forall y | y in a' ensures y.id != a[m].id {
      var n :| 0 <= n < |a'| && a'[n] == y;
      var n0 := if n < m then n else n + 1;
      assert a'[n] == a[n0];
    }
  }

  /** A permutation of a list with distinct ids has distinct ids. */
  lemma {:induction false} DistinctIdsPermuted(a: seq<Player>, b: seq<Player>)
    requires multiset(a) == multiset(b)
    requires DistinctIds(a)
    ensures DistinctIds(b)
    decreases |b|
  {
    if b != [] {
      var b', x := b[..|b| - 1], b[|b| - 1];
      assert b == b' + [x];
      assert x in multiset(a);
      var m :| 0 <= m < |a| && a[m] == x;
      WithoutDistinct(a, m);
      var a' := Without(a, m);
      assert multiset(b') == multiset(b) - multiset{x};
      DistinctIdsPermuted(a', b');
      forall i | 0 <= i < |b'| ensures b'[i].id != x.id {
        assert b'[i] in multiset(a');
      }
      DistinctSnoc(b', x);
    }
  }

  /** Appending a player whose id is new keeps the ids distinct. */
  lemma DistinctSnoc(s: seq<Player>, x: Player)
    requires DistinctIds(s)
    requires forall i :: 0 <= i < |s| ==> s[i].id != x.id
    ensures DistinctIds(s + [x])
  {
    var t := s + [x];
    forall i, j | 0 <= i < j < |t| ensures t[i].id != t[j].id {
      assert t[i] == s[i];
      if j < |s| {
        assert t[j] == s[j];
      }
    }
  }

  /** The selected players have distinct ids, and the sort keeps that. */
  lemma FetchPlayersDistinct(players: seq<Player>, positionCodes: seq<string>)
    ensures DistinctIds(Sorting.SortByKey(Selected(players, positionCodes), SortKey))
  {
    DedupeKeys(players);
    var u := ValuesOf(Dedupe(players));
    var sel := Selected(players, positionCodes);
    RemoveDuplicatesResult(players);
    assert DistinctIds(u);
    if |positionCodes| > 0 {
      FilterDistinct(u, positionCodes);
    }
    Sorting.SortPermutes(sel, SortKey);
    DistinctIdsPermuted(sel, Sorting.SortByKey(sel, SortKey));
  }

  /** A player is selected iff it is the entry kept for its id and its
      position passes the filter. */
  lemma SelectedMembers(players: seq<Player>, positionCodes: seq<string>, x: Player)
    ensures KeysListed(Dedupe(players))
    ensures x in Selected(players, positionCodes) <==>
      && x.id in Dedupe(players).entries && Dedupe(players).entries[x.id] == x
      && (|positionCodes| > 0 ==> x.positionCode in positionCodes)
  {
    DedupeKeys(players);
    UniqueMembers(players, x);
    if |positionCodes| > 0 {
      FilterMembers(ValuesOf(Dedupe(players)), positionCodes, x);
    }
  }

  /** Every selected player is the winning roster entry of its id. */
  lemma SelectedBest(players: seq<Player>, positionCodes: seq<string>, x: Player) returns (i: nat)
    requires x in Selected(players, positionCodes)
    ensures i < |players| && players[i] == x && BestAt(players, i)
  {
    DedupeKeys(players);
    var u := ValuesOf(Dedupe(players));
    if |positionCodes| > 0 {
      assert x in FilterPlayersByPosition(u, positionCodes);
      FilterMembers(u, positionCodes, x);
    } else {
      assert x in u;
    }
    i := BestIndex(players, x);
  }

  /** What the call returns: the ids are distinct, the priorities never
      increase along the list, equal priorities keep their roster order, and
      a player is in the list iff it is the entry kept for its id (the first
      of its id with the highest priority) and its position passes the
      filter. */
  lemma FetchPlayersResult(players: seq<Player>, positionCodes: seq<string>)
    ensures KeysListed(Dedupe(players))
    ensures var r := Sorting.SortByKey(Selected(players, positionCodes), SortKey);
      && DistinctIds(r)
      && (forall i, j :: 0 <= i < j < |r| ==> Priority(r[i].statusCode) >= Priority(r[j].statusCode))
      && (forall q: int :: Sorting.WithKey(r, SortKey, q) == Sorting.WithKey(Selected(players, positionCodes), SortKey, q))
      && (forall x :: x in r <==>
            && x.id in Dedupe(players).entries && Dedupe(players).entries[x.id] == x
            && (|positionCodes| > 0 ==> x.positionCode in positionCodes))
      && (forall k :: 0 <= k < |r| ==> exists i :: 0 <= i < |players| && players[i] == r[k] && BestAt(players, i))
  {
    DedupeKeys(players);
    var sel := Selected(players, positionCodes);
    var r := Sorting.SortByKey(sel, SortKey);
    FetchPlayersDistinct(players, positionCodes);
    SortedByPriority(sel);
    forall x ensures x in r <==>
      && x.id in Dedupe(players).entries && Dedupe(players).entries[x.id] == x
      && (|positionCodes| > 0 ==> x.positionCode in positionCodes)
    {
      assert x in r <==> x in multiset(r);
      SelectedMembers(players, positionCodes, x);
    }
    forall k | 0 <= k < |r| ensures exists i :: 0 <= i < |players| && players[i] == r[k] && BestAt(players, i) {
      assert r[k] in multiset(sel);
      var i := SelectedBest(players, positionCodes, r[k]);
    }
  }
}
