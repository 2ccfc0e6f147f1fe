/** Cursor pagination over the `user` table: `iterateAllUsersByChunkWithRelations`.
    The table is a value (`db`, in primary-key order) and `findMany` is the
    function "the next `take` users whose id is above the cursor". */
module UsersRepository {
  import opened Common

  /** A `user` row with the relations `include` can load: the team ids of
      its `teams` rows and the player ids of its `players` rows. */
  datatype User = User(id: int, lineId: string, teams: Option<seq<int>>, players: Option<seq<int>>)

  /** The `include` argument: which relations to load. */
  datatype Relations = Relations(players: bool, teams: bool)

  /** The default `chunkSize`. */
  const DefaultChunkSize: nat := 100

  /** The table in `orderBy: { id: "asc" }` order; ids are primary keys. */
  predicate Ascending(db: seq<User>) {
    forall i, j :: 0 <= i < j < |db| ==> db[i].id < db[j].id
  }

  /** A row as loaded: a relation not asked for is absent. */
  function Load(u: User, relations: Relations): (r: User)
    ensures r.id == u.id && r.lineId == u.lineId
    ensures r.teams == (if relations.teams then u.teams else None)
    ensures r.players == (if relations.players then u.players else None)
  {
    User(u.id, u.lineId,
         if relations.teams then u.teams else None,
         if relations.players then u.players else None)
  }

  function LoadAll(s: seq<User>, relations: Relations): (r: seq<User>)
    ensures |r| == |s|
  {
    if s == [] then [] else [Load(s[0], relations)] + LoadAll(s[1..], relations)
  }

  lemma {:induction false} LoadAllAt(s: seq<User>, relations: Relations, k: nat)
    requires k < |s|
    ensures LoadAll(s, relations)[k] == Load(s[k], relations)
    decreases k
  {
    if k > 0 {
      LoadAllAt(s[1..], relations, k - 1);
    }
  }

  /** The rows a cursor lets through: with no cursor all of them, with
      `{ cursor: { id }, skip: 1 }` those whose id is above `id`. */
  function After(db: seq<User>, cursor: Option<int>): (r: seq<User>)
    ensures |r| <= |db|
  {
    if db == [] then []
    else if cursor.None? || db[0].id > cursor.value then [db[0]] + After(db[1..], cursor)
    else After(db[1..], cursor)
  }

  /** `prismaClient.user.findMany({ take, cursor, skip, orderBy, include })`. */
  function FindMany(db: seq<User>, take: nat, cursor: Option<int>, relations: Relations): (r: seq<User>)
    ensures |r| <= take
  {
    var after := After(db, cursor);
    LoadAll(if |after| <= take then after else after[..take], relations)
  }

  lemma {:induction false} AllAbove(db: seq<User>, x: int)
    requires forall k :: 0 <= k < |db| ==> db[k].id > x
    ensures After(db, Some(x)) == db
    decreases |db|
  {
    if db != [] {
      AllAbove(db[1..], x);
      assert [db[0]] + db[1..] == db;
    }
  }

  lemma {:induction false} AfterNone(db: seq<User>)
    ensures After(db, None) == db
    decreases |db|
  {
    if db != [] {
      AfterNone(db[1..]);
      assert [db[0]] + db[1..] == db;
    }
  }

  /** In an ascending table, the rows after the row at index `m` are exactly
      the suffix that follows it. */
  lemma {:induction false} AfterRow(db: seq<User>, m: nat)
    requires Ascending(db) && m < |db|
    ensures After(db, Some(db[m].id)) == db[m + 1..]
    decreases m
  {
    if m == 0 {
      AllAbove(db[1..], db[0].id);
    } else {
      assert db[0].id < db[m].id;
      assert db[1..][m - 1] == db[m];
      AfterRow(db[1..], m - 1);
      assert db[1..][m..] == db[m + 1..];
    }
  }

  lemma {:induction false} LoadAllAppend(a: seq<User>, b: seq<User>, relations: Relations)
    ensures LoadAll(a + b, relations) == LoadAll(a, relations) + LoadAll(b, relations)
    decreases |a|
  {
    if a == [] {
      assert a + b == b;
    } else {
      assert (a + b)[1..] == a[1..] + b;
      LoadAllAppend(a[1..], b, relations);
    }
  }

  /** An answer to a cursor that lets through the suffix `db[seen..]` loads
      the rows that follow `seen`. */
  lemma PageOfSuffix(db: seq<User>, chunkSize: nat, cursor: Option<int>, relations: Relations, seen: nat)
    requires seen <= |db| && After(db, cursor) == db[seen..]
    ensures var users := FindMany(db, chunkSize, cursor, relations);
      seen + |users| <= |db| && users == LoadAll(db[seen..seen + |users|], relations)
  {
    var after := After(db, cursor);
    if |after| > chunkSize {
      assert after[..chunkSize] == db[seen..seen + chunkSize];
    } else {
      assert db[seen..seen + |after|] == after;
    }
  }

  /** The last row of a non-empty page is the row at `seen + n - 1`. */
  lemma PageLast(db: seq<User>, relations: Relations, seen: nat, users: seq<User>)
    requires users != [] && seen + |users| <= |db| && users == LoadAll(db[seen..seen + |users|], relations)
    ensures users[|users| - 1].id == db[seen + |users| - 1].id
  {
    var n := |users|;
    LoadAllAt(db[seen..seen + n], relations, n - 1);
  }

  /** One page: a non-empty answer to a cursor that lets through the suffix
      `db[seen..]` is the next `n` rows, and its last id moves the cursor past them. */
  lemma NextPage(db: seq<User>, chunkSize: nat, cursor: Option<int>, relations: Relations, seen: nat)
    requires Ascending(db) && seen <= |db| && After(db, cursor) == db[seen..]
    requires FindMany(db, chunkSize, cursor, relations) != []
    ensures var users := FindMany(db, chunkSize, cursor, relations);
      && seen + |users| <= |db|
      && users == LoadAll(db[seen..seen + |users|], relations)
      && LoadAll(db[..seen + |users|], relations) == LoadAll(db[..seen], relations) + users
      && After(db, Some(users[|users| - 1].id)) == db[seen + |users|..]
  {
    var users := FindMany(db, chunkSize, cursor, relations);
    PageOfSuffix(db, chunkSize, cursor, relations, seen);
    PrefixLoad(db, relations, seen, users);
    PageLast(db, relations, seen, users);
    AfterRow(db, seen + |users| - 1);
  }

  /** The rows loaded so far followed by the next page are a longer prefix. */
  lemma PrefixLoad(db: seq<User>, relations: Relations, seen: nat, users: seq<User>)
    requires seen + |users| <= |db| && users == LoadAll(db[seen..seen + |users|], relations)
    ensures LoadAll(db[..seen + |users|], relations) == LoadAll(db[..seen], relations) + users
  {
    var taken := db[seen..seen + |users|];
    assert db[..seen + |users|] == db[..seen] + taken;
    LoadAllAppend(db[..seen], taken, relations);
  }

  lemma FlattenSnoc<T>(pages: seq<seq<T>>, page: seq<T>)
    ensures Flatten(pages + [page]) == Flatten(pages) + page
  {
    assert (pages + [page])[..|pages|] == pages;
  }

  /** `users[users.length - 1].id`: the cursor a page leaves behind. */
  function LastId(page: seq<User>): int
    requires page != []
  {
    page[|page| - 1].id
  }

  /** The queries sent so far, each answered by the page after it: the first
      query has no cursor, each page is non-empty and within `chunkSize`, and
      the next query's cursor is the id of the previous page's last row. */
  predicate Chain(db: seq<User>, chunkSize: nat, relations: Relations, pages: seq<seq<User>>, queries: seq<Option<int>>)
    decreases |pages|
  {
    if pages == [] then queries == [None]
    else
      var n := |pages|;
      && |queries| == n + 1
      && Chain(db, chunkSize, relations, pages[..n - 1], queries[..n])
      && pages[n - 1] == FindMany(db, chunkSize, queries[n - 1], relations)
      && 0 < |pages[n - 1]| <= chunkSize
      && queries[n] == Some(LastId(pages[n - 1]))
  }

  lemma {:induction false} ChainStart(db: seq<User>, chunkSize: nat, relations: Relations,
                                      pages: seq<seq<User>>, queries: seq<Option<int>>)
    requires Chain(db, chunkSize, relations, pages, queries)
    ensures |queries| == |pages| + 1 && queries[0] == None
    decreases |pages|
  {
    if pages != [] {
      var n := |pages|;
      ChainStart(db, chunkSize, relations, pages[..n - 1], queries[..n]);
      assert queries[..n][0] == queries[0];
    }
  }

  lemma {:induction false} ChainAt(db: seq<User>, chunkSize: nat, relations: Relations,
                                   pages: seq<seq<User>>, queries: seq<Option<int>>, k: nat)
    requires Chain(db, chunkSize, relations, pages, queries) && k < |pages|
    ensures |queries| == |pages| + 1
    ensures 0 < |pages[k]| <= chunkSize && pages[k] == FindMany(db, chunkSize, queries[k], relations)
    ensures queries[k + 1] == Some(LastId(pages[k]))
    decreases |pages|
  {
    var n := |pages|;
    if k < n - 1 {
      ChainAt(db, chunkSize, relations, pages[..n - 1], queries[..n], k);
      assert pages[..n - 1][k] == pages[k];
      assert queries[..n][k] == queries[k] && queries[..n][k + 1] == queries[k + 1];
    }
  }

  /** A chain, read query by query. */
  lemma ChainPointwise(db: seq<User>, chunkSize: nat, relations: Relations,
                       pages: seq<seq<User>>, queries: seq<Option<int>>)
    requires Chain(db, chunkSize, relations, pages, queries)
    ensures |queries| == |pages| + 1 && queries[0] == None
    ensures forall k :: 0 <= k < |pages| ==> 0 < |pages[k]| <= chunkSize
    ensures forall k {:trigger pages[k]} :: 0 <= k < |pages| ==> pages[k] == FindMany(db, chunkSize, queries[k], relations)
    ensures forall k {:trigger pages[k]} :: 0 <= k < |pages| ==> queries[k + 1] == Some(LastId(pages[k]))
  {
    ChainStart(db, chunkSize, relations, pages, queries);
    forall k | 0 <= k < |pages|
      ensures 0 < |pages[k]| <= chunkSize && pages[k] == FindMany(db, chunkSize, queries[k], relations)
      ensures queries[k + 1] == Some(LastId(pages[k]))
    {
      ChainAt(db, chunkSize, relations, pages, queries, k);
    }
  }

  lemma ChainSnoc(db: seq<User>, chunkSize: nat, relations: Relations, pages: seq<seq<User>>, queries: seq<Option<int>>)
    requires Chain(db, chunkSize, relations, pages, queries) && |queries| == |pages| + 1
    requires FindMany(db, chunkSize, queries[|pages|], relations) != []
    ensures var users := FindMany(db, chunkSize, queries[|pages|], relations);
      Chain(db, chunkSize, relations, pages + [users], queries + [Some(users[|users| - 1].id)])
  {
    var users := FindMany(db, chunkSize, queries[|pages|], relations);
    assert (pages + [users])[..|pages|] == pages;
    assert (queries + [Some(users[|users| - 1].id)])[..|pages| + 1] == queries;
  }

  /** What the loop keeps: the first `seen` rows were yielded, in order, and
      the cursor of the next query lets through exactly the rest. */
  predicate Progress(db: seq<User>, chunkSize: nat, relations: Relations,
                     pages: seq<seq<User>>, queries: seq<Option<int>>, seen: nat) {
    && seen <= |db|
    && Chain(db, chunkSize, relations, pages, queries)
    && |queries| == |pages| + 1
    && After(db, queries[|pages|]) == db[seen..]
    && (chunkSize == 0 ==> pages == [])
  }

  lemma ProgressStart(db: seq<User>, chunkSize: nat, relations: Relations)
    ensures Progress(db, chunkSize, relations, [], [None], 0)
  {
    AfterNone(db);
    assert db[0..] == db && db[..0] == [];
  }

  lemma ProgressStep(db: seq<User>, chunkSize: nat, relations: Relations,
                     pages: seq<seq<User>>, queries: seq<Option<int>>, seen: nat)
    requires Ascending(db) && Progress(db, chunkSize, relations, pages, queries, seen)
    requires FindMany(db, chunkSize, queries[|pages|], relations) != []
    ensures var users := FindMany(db, chunkSize, queries[|pages|], relations);
      Progress(db, chunkSize, relations, pages + [users], queries + [Some(users[|users| - 1].id)], seen + |users|)
  {
    var users := FindMany(db, chunkSize, queries[|pages|], relations);
    NextPage(db, chunkSize, queries[|pages|], relations, seen);
    ChainSnoc(db, chunkSize, relations, pages, queries);
  }

  /** One more page of a chain keeps the pages a prefix of the table. */
  lemma CoversStep(db: seq<User>, chunkSize: nat, relations: Relations, prev: seq<seq<User>>,
                   users: seq<User>, q: Option<int>, q': Option<int>, m0: nat)
    requires Ascending(db) && m0 <= |db| && After(db, q) == db[m0..]
    requires Flatten(prev) == LoadAll(db[..m0], relations)
    requires users == FindMany(db, chunkSize, q, relations) && users != [] && q' == Some(LastId(users))
    ensures m0 + |users| <= |db| && After(db, q') == db[m0 + |users|..]
    ensures Flatten(prev + [users]) == LoadAll(db[..m0 + |users|], relations)
  {
    NextPage(db, chunkSize, q, relations, m0);
    assert (prev + [users])[..|prev|] == prev;
  }

  /** The pages of a chain of queries over an ascending table are its first
      rows, in order, and the last cursor lets through exactly the rest. */
  lemma {:induction false} ChainCovers(db: seq<User>, chunkSize: nat, relations: Relations,
                                       pages: seq<seq<User>>, queries: seq<Option<int>>) returns (m: nat)
    requires Ascending(db) && Chain(db, chunkSize, relations, pages, queries)
    ensures |queries| == |pages| + 1
    ensures m <= |db| && After(db, queries[|pages|]) == db[m..]
    ensures Flatten(pages) == LoadAll(db[..m], relations)
    decreases |pages|
  {
    if pages == [] {
      AfterNone(db);
      assert db[0..] == db && db[..0] == [];
      m := 0;
    } else {
      var n := |pages|;
      var m0 := ChainCovers(db, chunkSize, relations, pages[..n - 1], queries[..n]);
      assert queries[..n][n - 1] == queries[n - 1];
      CoversStep(db, chunkSize, relations, pages[..n - 1], pages[n - 1], queries[n - 1], queries[n], m0);
      LastSplit(pages);
      m := m0 + |pages[n - 1]|;
    }
  }

  lemma ProgressEnd(db: seq<User>, chunkSize: nat, relations: Relations,
                    pages: seq<seq<User>>, queries: seq<Option<int>>, seen: nat)
    requires Ascending(db) && Progress(db, chunkSize, relations, pages, queries, seen)
    requires FindMany(db, chunkSize, queries[|pages|], relations) == [] && chunkSize > 0
    ensures Flatten(pages) == LoadAll(db, relations)
  {
    var m := ChainCovers(db, chunkSize, relations, pages, queries);
    assert After(db, queries[|pages|]) == [];
    assert db[..m] == db;
  }

  /** The generator run to the end: the pages it yields and the cursor of each
      query it sends, in order. */
  method IterateAllUsersByChunk(db: seq<User>, chunkSize: nat, relations: Relations)
    returns (pages: seq<seq<User>>, queries: seq<Option<int>>)
    requires Ascending(db)
    ensures Chain(db, chunkSize, relations, pages, queries)
    ensures FindMany(db, chunkSize, queries[|pages|], relations) == []
    ensures chunkSize > 0 ==> Flatten(pages) == LoadAll(db, relations)
    ensures chunkSize == 0 ==> pages == []
  {
    var cursor: Option<int> := None;
    pages := [];
    queries := [cursor];
    ghost var seen: nat := 0;
    ProgressStart(db, chunkSize, relations);
    var users := FindMany(db, chunkSize, cursor, relations);
    while |users| > 0
      invariant Progress(db, chunkSize, relations, pages, queries, seen)
      invariant queries[|pages|] == cursor && users == FindMany(db, chunkSize, cursor, relations)
      decreases |db| - seen
    {
      ProgressStep(db, chunkSize, relations, pages, queries, seen);
      pages := pages + [users];
      cursor := Some(users[|users| - 1].id);
      queries := queries + [cursor];
      seen := seen + |users|;
      users := FindMany(db, chunkSize, cursor, relations);
    }
    if chunkSize > 0 {
      ProgressEnd(db, chunkSize, relations, pages, queries, seen);
    }
  }
}
