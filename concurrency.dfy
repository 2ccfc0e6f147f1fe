/** The bounded worker pool of src/shared/utils/concurrency.ts.
    `runWithConcurrency` starts `concurrency` worker loops that share one
    cursor: each loop claims `cursor.index++`, stops once the claimed index is
    past the end, and otherwise awaits the task and stores its value at the
    claimed index. The async interleaving is modelled as a scheduler that
    advances one worker loop at a time, in any order. */
module Concurrency {
  import opened Common

  /** What awaiting one task gives. */
  datatype TaskResult<+T> = Resolved(value: T) | Rejected(error: Thrown)

  /** Where one worker loop stands. */
  datatype WorkerState =
    | Claiming            // about to run `const index = cursor.index++`
    | Awaiting(index: nat) // suspended in `await task()` for task `index`
    | Finished            // left the loop because `tasks[index]` was undefined
    | Crashed(error: Thrown) // its task rejected, so the worker's promise rejected

  predicate Active(s: WorkerState) {
    s.Claiming? || s.Awaiting?
  }

  /** How much work a worker still owes the scheduler (for termination). */
  function Weight(s: WorkerState): nat {
    match s
    case Claiming => 1
    case Awaiting(_) => 2
    case _ => 0
  }

  function TotalWeight(ws: seq<WorkerState>): nat {
    if ws == [] then 0 else TotalWeight(ws[..|ws| - 1]) + Weight(ws[|ws| - 1])
  }

  lemma {:induction false} TotalWeightUpdate(ws: seq<WorkerState>, w: nat, s: WorkerState)
    requires w < |ws|
    ensures TotalWeight(ws[w := s]) == TotalWeight(ws) - Weight(ws[w]) + Weight(s)
    decreases |ws|
  {
    var ws' := ws[w := s];
    if w < |ws| - 1 {
      assert ws'[..|ws'| - 1] == ws[..|ws| - 1][w := s];
      TotalWeightUpdate(ws[..|ws| - 1], w, s);
    } else {
      assert ws'[..|ws'| - 1] == ws[..|ws| - 1];
    }
  }

  /** The number of workers suspended on a task. */
  function InProgress(ws: seq<WorkerState>): nat {
    if ws == [] then 0 else InProgress(ws[..|ws| - 1]) + (if ws[|ws| - 1].Awaiting? then 1 else 0)
  }

  /** The indices of the tasks the workers are suspended on. */
  function AwaitedSet(ws: seq<WorkerState>): set<nat> {
    if ws == [] then {}
    else AwaitedSet(ws[..|ws| - 1]) + (if ws[|ws| - 1].Awaiting? then {ws[|ws| - 1].index} else {})
  }

  /** Index of the first worker that can still move, or `|ws|` when none can. */
  function FirstActive(ws: seq<WorkerState>): (w: nat)
    ensures w <= |ws|
    ensures w < |ws| ==> Active(ws[w])
    ensures w == |ws| ==> forall k :: 0 <= k < |ws| ==> !Active(ws[k])
  {
    if ws == [] then 0
    else if Active(ws[0]) then 0
    else 1 + FirstActive(ws[1..])
  }

  function Range(n: nat): (r: seq<nat>)
    ensures |r| == n && forall k :: 0 <= k < n ==> r[k] == k
  {
    seq(n, k => k)
  }

  /** `results[i] = v` on a JavaScript array: writing past the end leaves holes. */
  function Store<T>(results: seq<Option<T>>, i: nat, v: T): (r: seq<Option<T>>)
    ensures |r| == if i < |results| then |results| else i + 1
    ensures r[i] == Some(v)
    ensures forall k :: 0 <= k < |results| && k != i ==> r[k] == results[k]
    ensures forall k :: |results| <= k < |r| && k != i ==> r[k] == None
  {
    if i < |results| then results[i := Some(v)]
    else results + seq(i - |results|, _ => None) + [Some(v)]
  }

  predicate AllSome<T>(s: seq<Option<T>>) {
    forall k :: 0 <= k < |s| ==> s[k].Some?
  }

  function Unwrap<T>(s: seq<Option<T>>): (r: seq<T>)
    requires AllSome(s)
    ensures |r| == |s| && forall k :: 0 <= k < |s| ==> s[k] == Some(r[k])
  {
    seq(|s|, k requires 0 <= k < |s| && AllSome(s) => s[k].value)
  }

  predicate AllResolved<T>(tasks: seq<TaskResult<T>>) {
    forall k :: 0 <= k < |tasks| ==> tasks[k].Resolved?
  }

  function Values<T>(tasks: seq<TaskResult<T>>): (r: seq<T>)
    requires AllResolved(tasks)
    ensures |r| == |tasks| && forall k :: 0 <= k < |tasks| ==> tasks[k] == Resolved(r[k])
  {
    seq(|tasks|, k requires 0 <= k < |tasks| && AllResolved(tasks) => tasks[k].value)
  }

  // ---------------------------------------------------------------------
  // The invariant of the shared state, on values
  // ---------------------------------------------------------------------

  /** The number of indices claimed so far that name a task. */
  function ClaimedOf(n: nat, cursor: nat): nat {
    if cursor < n then cursor else n
  }

  /** Task `i` has left its value in `results`. */
  predicate DoneIn<T>(results: seq<Option<T>>, i: nat) {
    i < |results| && results[i].Some?
  }

  /** Some worker is suspended on task `i`. */
  predicate AwaitedBy(workers: seq<WorkerState>, i: nat) {
    exists w :: 0 <= w < |workers| && workers[w] == Awaiting(i)
  }

  /** A stored value is the value of the task at that index. */
  ghost predicate ResultsSound<T>(tasks: seq<TaskResult<T>>, results: seq<Option<T>>) {
    forall i :: 0 <= i < |results| && results[i].Some? ==> i < |tasks| && tasks[i] == Resolved(results[i].value)
  }

  /** A suspended worker awaits a claimed task that has not finished. */
  predicate AwaitingSound<T>(workers: seq<WorkerState>, claimed: nat, results: seq<Option<T>>) {
    forall w :: 0 <= w < |workers| && workers[w].Awaiting? ==>
      workers[w].index < claimed && !DoneIn(results, workers[w].index)
  }

  /** No two workers await the same task. */
  predicate AwaitingDistinct(workers: seq<WorkerState>) {
    forall w1, w2 ::
      (0 <= w1 < |workers| && 0 <= w2 < |workers| && w1 != w2 &&
       workers[w1].Awaiting? && workers[w2].Awaiting?) ==> workers[w1].index != workers[w2].index
  }

  /** Every claimed task has finished, is awaited, or rejected the run. */
  predicate Covered<T>(tasks: seq<TaskResult<T>>, claimed: nat, results: seq<Option<T>>,
                       workers: seq<WorkerState>, rejection: Option<Thrown>) {
    forall i :: 0 <= i < claimed ==>
      DoneIn(results, i) || AwaitedBy(workers, i) || (i < |tasks| && tasks[i].Rejected? && rejection.Some?)
  }

  /** A worker crashed iff `Promise.all` has seen a rejection. */
  predicate CrashIff(workers: seq<WorkerState>, rejection: Option<Thrown>) {
    (exists w :: 0 <= w < |workers| && workers[w].Crashed?) <==> rejection.Some?
  }

  /** The rejection seen is the error of one of the tasks. */
  predicate RejectionSound<T>(tasks: seq<TaskResult<T>>, rejection: Option<Thrown>) {
    rejection.Some? ==> exists i :: 0 <= i < |tasks| && tasks[i].Rejected? && tasks[i].error == rejection.value
  }

  /** A worker only finishes after claiming an index past the end. */
  predicate FinishedPast(workers: seq<WorkerState>, cursor: nat, n: nat) {
    (exists w :: 0 <= w < |workers| && workers[w].Finished?) ==> cursor > n
  }

  ghost predicate PoolValid<T>(tasks: seq<TaskResult<T>>, concurrency: nat, cursor: nat, results: seq<Option<T>>,
                         workers: seq<WorkerState>, rejection: Option<Thrown>) {
    && |workers| == concurrency
    && (concurrency == 0 ==> cursor == 0)
    && |results| <= ClaimedOf(|tasks|, cursor)
    && ResultsSound(tasks, results)
    && AwaitingSound(workers, ClaimedOf(|tasks|, cursor), results)
    && AwaitingDistinct(workers)
    && Covered(tasks, ClaimedOf(|tasks|, cursor), results, workers, rejection)
    && CrashIff(workers, rejection)
    && RejectionSound(tasks, rejection)
    && FinishedPast(workers, cursor, |tasks|)
  }

  lemma {:induction false} AwaitedSetMembers(ws: seq<WorkerState>, i: nat)
    ensures i in AwaitedSet(ws) <==> AwaitedBy(ws, i)
    decreases |ws|
  {
    if ws != [] {
      var ws' := ws[..|ws| - 1];
      AwaitedSetMembers(ws', i);
      if AwaitedBy(ws, i) && ws[|ws| - 1] != Awaiting(i) {
        var w :| 0 <= w < |ws| && ws[w] == Awaiting(i);
        assert ws'[w] == ws[w];
      }
      if AwaitedBy(ws', i) {
        var w :| 0 <= w < |ws'| && ws'[w] == Awaiting(i);
        assert ws[w] == ws'[w];
      }
    }
  }

  /** With distinct awaited indices, one index per suspended worker. */
  lemma {:induction false} AwaitedSetSize(ws: seq<WorkerState>)
    requires AwaitingDistinct(ws)
    ensures |AwaitedSet(ws)| == InProgress(ws)
    decreases |ws|
  {
    if ws != [] {
      var ws', x := ws[..|ws| - 1], ws[|ws| - 1];
      assert AwaitingDistinct(ws') by {
        forall w1, w2 | 0 <= w1 < |ws'| && 0 <= w2 < |ws'| && w1 != w2 && ws'[w1].Awaiting? && ws'[w2].Awaiting?
          ensures ws'[w1].index != ws'[w2].index
        {
          assert ws[w1] == ws'[w1] && ws[w2] == ws'[w2];
        }
      }
      AwaitedSetSize(ws');
      if x.Awaiting? {
        AwaitedSetMembers(ws', x.index);
        forall w | 0 <= w < |ws'| ensures ws'[w] != Awaiting(x.index) {
          assert ws[w] == ws'[w];
        }
      }
    }
  }

  /** The first `n` naturals. */
  function Below(n: nat): (r: set<nat>)
    ensures |r| == n
    ensures forall i: nat :: i in r <==> i < n
  {
    if n == 0 then {}
    else
      var below := Below(n - 1);
      assert n - 1 !in below;
      below + {n - 1}
  }

  lemma {:induction false} SubsetSize(a: set<nat>, b: set<nat>)
    requires a <= b
    ensures |a| <= |b|
    decreases |b|
  {
    if a != {} {
      var x :| x in a;
      SubsetSize(a - {x}, b - {x});
    }
  }

  /** No more tasks are in flight than there are workers, nor than indices
      claimed so far. */
  lemma InFlightBound<T>(tasks: seq<TaskResult<T>>, concurrency: nat, cursor: nat, results: seq<Option<T>>,
                         workers: seq<WorkerState>, rejection: Option<Thrown>)
    requires PoolValid(tasks, concurrency, cursor, results, workers, rejection)
    ensures InProgress(workers) <= concurrency
    ensures InProgress(workers) <= ClaimedOf(|tasks|, cursor)
  {
    var claimed := ClaimedOf(|tasks|, cursor);
    AwaitedSetSize(workers);
    forall i | i in AwaitedSet(workers) ensures i in Below(claimed) {
      AwaitedSetMembers(workers, i);
      var w :| 0 <= w < |workers| && workers[w] == Awaiting(i);
      assert workers[w].Awaiting? && workers[w].index == i;
    }
    SubsetSize(AwaitedSet(workers), Below(claimed));
    InProgressAtMost(workers);
  }

  lemma {:induction false} InProgressAtMost(ws: seq<WorkerState>)
    ensures InProgress(ws) <= |ws|
    decreases |ws|
  {
    if ws != [] {
      InProgressAtMost(ws[..|ws| - 1]);
    }
  }

  /** A worker claiming an index below the end starts that task. */
  lemma StartKeepsValid<T>(tasks: seq<TaskResult<T>>, concurrency: nat, cursor: nat, results: seq<Option<T>>,
                           workers: seq<WorkerState>, rejection: Option<Thrown>, w: nat)
    requires PoolValid(tasks, concurrency, cursor, results, workers, rejection)
    requires w < |workers| && workers[w].Claiming? && cursor < |tasks|
    ensures PoolValid(tasks, concurrency, cursor + 1, results, workers[w := Awaiting(cursor)], rejection)
  {
    var ws := workers[w := Awaiting(cursor)];
    assert ClaimedOf(|tasks|, cursor) == cursor && ClaimedOf(|tasks|, cursor + 1) == cursor + 1;
    forall v | 0 <= v < |ws| && ws[v].Awaiting?
      ensures ws[v].index < cursor + 1 && !DoneIn(results, ws[v].index)
    {
      if v != w {
        assert ws[v] == workers[v];
      }
    }
    forall i | 0 <= i < cursor + 1
      ensures DoneIn(results, i) || AwaitedBy(ws, i) || (i < |tasks| && tasks[i].Rejected? && rejection.Some?)
    {
      if i == cursor {
        assert ws[w] == Awaiting(i);
      } else if AwaitedBy(workers, i) {
        var v :| 0 <= v < |workers| && workers[v] == Awaiting(i);
        assert ws[v] == Awaiting(i);
      }
    }
    if rejection.Some? {
      var c :| 0 <= c < |workers| && workers[c].Crashed?;
      assert ws[c].Crashed?;
    }
    if exists v :: 0 <= v < |ws| && ws[v].Crashed? {
      var c :| 0 <= c < |ws| && ws[c].Crashed?;
      assert workers[c].Crashed?;
    }
    assert !(exists v :: 0 <= v < |workers| && workers[v].Finished?);
  }

  /** A worker claiming an index past the end finishes. */
  lemma StopKeepsValid<T>(tasks: seq<TaskResult<T>>, concurrency: nat, cursor: nat, results: seq<Option<T>>,
                          workers: seq<WorkerState>, rejection: Option<Thrown>, w: nat)
    requires PoolValid(tasks, concurrency, cursor, results, workers, rejection)
    requires w < |workers| && workers[w].Claiming? && cursor >= |tasks|
    ensures PoolValid(tasks, concurrency, cursor + 1, results, workers[w := Finished], rejection)
  {
    var ws := workers[w := Finished];
    assert ClaimedOf(|tasks|, cursor) == |tasks| == ClaimedOf(|tasks|, cursor + 1);
    forall v | 0 <= v < |ws| && ws[v].Awaiting?
      ensures ws[v].index < |tasks| && !DoneIn(results, ws[v].index)
    {
      assert ws[v] == workers[v];
    }
    forall i | 0 <= i < |tasks|
      ensures DoneIn(results, i) || AwaitedBy(ws, i) || (i < |tasks| && tasks[i].Rejected? && rejection.Some?)
    {
      if AwaitedBy(workers, i) {
        var v :| 0 <= v < |workers| && workers[v] == Awaiting(i);
        assert ws[v] == Awaiting(i);
      }
    }
    if rejection.Some? {
      var c :| 0 <= c < |workers| && workers[c].Crashed?;
      assert ws[c].Crashed?;
    }
    if exists v :: 0 <= v < |ws| && ws[v].Crashed? {
      var c :| 0 <= c < |ws| && ws[c].Crashed?;
      assert workers[c].Crashed?;
    }
  }

  /** The awaited task resolved: its value is stored and the worker claims again. */
  lemma ResolveKeepsValid<T>(tasks: seq<TaskResult<T>>, concurrency: nat, cursor: nat, results: seq<Option<T>>,
                             workers: seq<WorkerState>, rejection: Option<Thrown>, w: nat)
    requires PoolValid(tasks, concurrency, cursor, results, workers, rejection)
    requires w < |workers| && workers[w].Awaiting? && workers[w].index < |tasks| && tasks[workers[w].index].Resolved?
    ensures var index := workers[w].index;
      PoolValid(tasks, concurrency, cursor, Store(results, index, tasks[index].value), workers[w := Claiming], rejection)
  {
    var index := workers[w].index;
    var rs := Store(results, index, tasks[index].value);
    var ws := workers[w := Claiming];
    var claimed := ClaimedOf(|tasks|, cursor);
    forall v | 0 <= v < |ws| && ws[v].Awaiting?
      ensures ws[v].index < claimed && !DoneIn(rs, ws[v].index)
    {
      assert ws[v] == workers[v];
      assert workers[v].index != index;
    }
    forall i | 0 <= i < claimed
      ensures DoneIn(rs, i) || AwaitedBy(ws, i) || (i < |tasks| && tasks[i].Rejected? && rejection.Some?)
    {
      if i != index {
        if DoneIn(results, i) {
          assert rs[i] == results[i];
        } else if AwaitedBy(workers, i) {
          var v :| 0 <= v < |workers| && workers[v] == Awaiting(i);
          assert ws[v] == Awaiting(i);
        }
      }
    }
    if rejection.Some? {
      var c :| 0 <= c < |workers| && workers[c].Crashed?;
      assert ws[c].Crashed?;
    }
    if exists v :: 0 <= v < |ws| && ws[v].Crashed? {
      var c :| 0 <= c < |ws| && ws[c].Crashed?;
      assert workers[c].Crashed?;
    }
    if exists v :: 0 <= v < |ws| && ws[v].Finished? {
      var f :| 0 <= f < |ws| && ws[f].Finished?;
      assert workers[f].Finished?;
    }
  }

  /** The rejection seen first, once task error `e` has come in. */
  function FirstRejection(rejection: Option<Thrown>, e: Thrown): Option<Thrown> {
    if rejection.None? then Some(e) else rejection
  }

  /** The awaited task rejected: the worker crashes and `Promise.all` keeps the first error. */
  lemma RejectKeepsValid<T>(tasks: seq<TaskResult<T>>, concurrency: nat, cursor: nat, results: seq<Option<T>>,
                            workers: seq<WorkerState>, rejection: Option<Thrown>, w: nat)
    requires PoolValid(tasks, concurrency, cursor, results, workers, rejection)
    requires w < |workers| && workers[w].Awaiting? && workers[w].index < |tasks| && tasks[workers[w].index].Rejected?
    ensures var e := tasks[workers[w].index].error;
      PoolValid(tasks, concurrency, cursor, results, workers[w := Crashed(e)], FirstRejection(rejection, e))
  {
    var index := workers[w].index;
    var e := tasks[index].error;
    var ws := workers[w := Crashed(e)];
    var rj := FirstRejection(rejection, e);
    var claimed := ClaimedOf(|tasks|, cursor);
    forall v | 0 <= v < |ws| && ws[v].Awaiting?
      ensures ws[v].index < claimed && !DoneIn(results, ws[v].index)
    {
      assert ws[v] == workers[v];
    }
    forall i | 0 <= i < claimed
      ensures DoneIn(results, i) || AwaitedBy(ws, i) || (i < |tasks| && tasks[i].Rejected? && rj.Some?)
    {
      if i != index && !DoneIn(results, i) && AwaitedBy(workers, i) {
        var v :| 0 <= v < |workers| && workers[v] == Awaiting(i);
        assert ws[v] == Awaiting(i);
      }
    }
    assert ws[w].Crashed?;
    if rejection.None? {
      assert tasks[index].Rejected? && tasks[index].error == e;
    }
    if exists v :: 0 <= v < |ws| && ws[v].Finished? {
      var f :| 0 <= f < |ws| && ws[f].Finished?;
      assert workers[f].Finished?;
    }
  }

  /** Once every loop has ended without a rejection, every claimed task has
      left its value, and with a worker at all every task was claimed. */
  lemma AllDone<T>(tasks: seq<TaskResult<T>>, concurrency: nat, cursor: nat, results: seq<Option<T>>,
                   workers: seq<WorkerState>, rejection: Option<Thrown>)
    requires PoolValid(tasks, concurrency, cursor, results, workers, rejection)
    requires forall w :: 0 <= w < |workers| ==> !Active(workers[w])
    requires rejection.None?
    ensures AllSome(results)
    ensures concurrency > 0 ==> ClaimedOf(|tasks|, cursor) == |tasks| && |results| == |tasks|
  {
    forall i | 0 <= i < |results| ensures results[i].Some? {
      assert !AwaitedBy(workers, i);
    }
    if concurrency > 0 {
      assert !workers[0].Crashed?;
      assert workers[0].Finished?;
      assert ClaimedOf(|tasks|, cursor) == |tasks|;
      if |tasks| > 0 {
        assert !AwaitedBy(workers, |tasks| - 1);
        assert DoneIn(results, |tasks| - 1);
      }
    }
  }

  /** The state shared by the worker loops of one `runWithConcurrency` call. */
  class Pool<T> {
    const tasks: seq<TaskResult<T>>
    const concurrency: nat
    var cursor: nat                // `cursor.index`
    var results: seq<Option<T>>    // `results`, an array that may have holes
    var workers: seq<WorkerState>
    var rejection: Option<Thrown>  // the rejection `Promise.all` saw first
    ghost var Started: seq<nat>    // the task indices, in the order they were started

    ghost function Claimed(): nat
      reads this
    {
      ClaimedOf(|tasks|, cursor)
    }

    ghost predicate Valid()
      reads this
    {
      PoolValid(tasks, concurrency, cursor, results, workers, rejection) && Started == Range(Claimed())
    }

    ghost function Measure(): nat
      reads this
    {
      TotalWeight(workers) + 3 * (|tasks| - Claimed())
    }

    /** `const results = []`, `const cursor = { index: 0 }` and the workers, none started. */
    constructor (tasks: seq<TaskResult<T>>, concurrency: nat)
      ensures Valid()
      ensures this.tasks == tasks && this.concurrency == concurrency
      ensures cursor == 0 && results == [] && rejection == None
      ensures workers == seq(concurrency, _ => Claiming)
    {
      this.tasks := tasks;
      this.concurrency := concurrency;
      cursor := 0;
      results := [];
      workers := seq(concurrency, _ => Claiming);
      rejection := None;
      Started := [];
    }

    /** Worker `w` runs `const index = cursor.index++` and checks `tasks[index]`. */
    method Claim(w: nat)
      requires Valid() && w < |workers| && workers[w].Claiming?
      modifies this
      ensures Valid() && Measure() < old(Measure())
      ensures cursor == old(cursor) + 1 && results == old(results) && rejection == old(rejection)
      ensures workers == old(workers)[w := if old(cursor) < |tasks| then Awaiting(old(cursor)) else Finished]
    {
      if cursor < |tasks| {
        StartTask(w);
      } else {
        StopWorker(w);
      }
    }

    /** The claimed index is in range: the worker starts `tasks[index]` and awaits it. */
    method StartTask(w: nat)
      requires Valid() && w < |workers| && workers[w].Claiming? && cursor < |tasks|
      modifies this
      ensures Valid() && Measure() < old(Measure())
      ensures cursor == old(cursor) + 1 && results == old(results) && rejection == old(rejection)
      ensures workers == old(workers)[w := Awaiting(old(cursor))]
    {
      StartKeepsValid(tasks, concurrency, cursor, results, workers, rejection, w);
      TotalWeightUpdate(workers, w, Awaiting(cursor));
      var index := cursor;
      cursor := cursor + 1;
      workers := workers[w := Awaiting(index)];
      Started := Started + [index];
      assert Started == Range(Claimed());
    }

    /** The claimed index is past the end: the worker's loop ends. */
    method StopWorker(w: nat)
      requires Valid() && w < |workers| && workers[w].Claiming? && cursor >= |tasks|
      modifies this
      ensures Valid() && Measure() < old(Measure())
      ensures cursor == old(cursor) + 1 && results == old(results) && rejection == old(rejection)
      ensures workers == old(workers)[w := Finished]
    {
      StopKeepsValid(tasks, concurrency, cursor, results, workers, rejection, w);
      TotalWeightUpdate(workers, w, Finished);
      cursor := cursor + 1;
      workers := workers[w := Finished];
    }

    /** The task worker `w` awaits resolves: `results[index] = value`. */
    method Resolve(w: nat)
      requires Valid() && w < |workers| && workers[w].Awaiting? && tasks[workers[w].index].Resolved?
      modifies this
      ensures Valid() && Measure() < old(Measure())
      ensures var index := old(workers[w].index);
        && cursor == old(cursor) && rejection == old(rejection)
        && results == Store(old(results), index, tasks[index].value)
        && workers == old(workers)[w := Claiming]
    {
      ResolveKeepsValid(tasks, concurrency, cursor, results, workers, rejection, w);
      TotalWeightUpdate(workers, w, Claiming);
      var index := workers[w].index;
      results := Store(results, index, tasks[index].value);
      workers := workers[w := Claiming];
    }

    /** The task worker `w` awaits rejects: the worker's loop ends with the
        error, and `Promise.all` keeps the first such error. */
    method Reject(w: nat)
      requires Valid() && w < |workers| && workers[w].Awaiting? && tasks[workers[w].index].Rejected?
      modifies this
      ensures Valid() && Measure() < old(Measure())
      ensures var e := tasks[old(workers[w].index)].error;
        && cursor == old(cursor) && results == old(results)
        && rejection == (if old(rejection).None? then Some(e) else old(rejection))
        && workers == old(workers)[w := Crashed(e)]
    {
      RejectKeepsValid(tasks, concurrency, cursor, results, workers, rejection, w);
      var e := tasks[workers[w].index].error;
      TotalWeightUpdate(workers, w, Crashed(e));
      if rejection.None? {
        rejection := Some(e);
      }
      workers := workers[w := Crashed(e)];
    }

    /** Advances worker `w` to its next suspension point; a loop that has
        ended does not move. */
    method Step(w: nat)
      requires Valid() && w < |workers|
      modifies this
      ensures Valid()
      ensures Active(old(workers[w])) ==> Measure() < old(Measure())
      ensures !Active(old(workers[w])) ==>
        cursor == old(cursor) && results == old(results) && workers == old(workers) && rejection == old(rejection)
    {
      match workers[w]
      case Claiming => Claim(w);
      case Awaiting(index) =>
        if tasks[index].Resolved? {
          Resolve(w);
        } else {
          Reject(w);
        }
      case Finished =>
      case Crashed(_) =>
    }

    /** Runs the workers in the order `schedule` names them (names of
        workers that do not exist are ignored), then keeps advancing the
        first worker that can still move until every worker loop has ended. */
    method RunToEnd(schedule: seq<nat>)
      requires Valid()
      modifies this
      ensures Valid()
      ensures forall w :: 0 <= w < |workers| ==> !Active(workers[w])
    {
      var k := 0;
      while k < |schedule|
        invariant Valid()
      {
        if schedule[k] < |workers| {
          Step(schedule[k]);
        }
        k := k + 1;
      }
      var w := FirstActive(workers);
      while w < |workers|
        invariant Valid()
        invariant w == FirstActive(workers)
        decreases Measure()
      {
        Step(w);
        w := FirstActive(workers);
      }
    }

    /** Once every loop has ended without a rejection, every task was
        claimed, ran once, and left its value at its own index. */
    lemma AllDoneWhenEnded()
      requires Valid()
      requires forall w :: 0 <= w < |workers| ==> !Active(workers[w])
      requires rejection.None?
      ensures AllSome(results)
      ensures concurrency > 0 ==> Started == Range(|tasks|) && |results| == |tasks|
    {
      AllDone(tasks, concurrency, cursor, results, workers, rejection);
    }
  }

  /** `runWithConcurrency(tasks, concurrency)` under the interleaving `schedule`. */
  method RunWithConcurrency<T>(tasks: seq<TaskResult<T>>, concurrency: nat, schedule: seq<nat>)
    returns (r: Result<seq<T>>, ghost started: seq<nat>)
    ensures concurrency == 0 ==> r == Ok([])
    ensures concurrency > 0 && AllResolved(tasks) ==> r == Ok(Values(tasks))
    ensures concurrency > 0 && AllResolved(tasks) ==> started == Range(|tasks|)
    ensures concurrency > 0 && !AllResolved(tasks) ==>
      r.Err? && exists i :: 0 <= i < |tasks| && tasks[i] == Rejected(r.error)
    ensures forall k :: 0 <= k < |started| ==> started[k] == k
  {
    var pool := new Pool(tasks, concurrency);
    pool.RunToEnd(schedule);
    started := pool.Started;
    if pool.rejection.Some? {
      r := Err(pool.rejection.value);
    } else {
      pool.AllDoneWhenEnded();
      r := Ok(Unwrap(pool.results));
      if concurrency > 0 && AllResolved(tasks) {
        assert r.value == Values(tasks);
      }
    }
  }
}
