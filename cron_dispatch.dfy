/** The sending side of the notification job: the channel access token
    rule, the retrying sender, the per-user counters of
    `sendPushMessagesToUsers` and the branches of the `POST` handler. */
module CronDispatch {
  import opened Common
  import opened Domain
  import opened CronContent
  import opened CronMessages
  import opened UsersRepository

  const ChunkSize: nat := 200
  const ChannelAccessTokenRefreshIntervalMs: int := 1000 * 60 * 10
  const MaxRetryCount: nat := 3
  const BaseJitterMs: nat := 250
  const BaseRetryIntervalMs: nat := 1000

  // ---------------------------------------------------------------------
  // Channel access token
  // ---------------------------------------------------------------------

  datatype ChannelAccessTokenState = ChannelAccessTokenState(token: string, issuedAt: int)

  /** No token was issued yet. */
  predicate IsInitial(st: ChannelAccessTokenState) {
    st.token == "" || st.issuedAt == 0
  }

  /** `isInitial || shouldRefreshToken()`: the refresh test is strict. */
  predicate ShouldIssue(st: ChannelAccessTokenState, now: int) {
    IsInitial(st) || now - st.issuedAt > ChannelAccessTokenRefreshIntervalMs
  }

  /** `issueChannelAccessTokenIfNeeded(state)` at time `now`; `issued` is
      what the issuing endpoint answers if it is called (its
      `access_token`, or the error it rejects with). */
  function IssueChannelAccessTokenIfNeeded(st: ChannelAccessTokenState, now: int, issued: Result<string>)
    : (r: Result<ChannelAccessTokenState>)
    ensures r.Err? <==> ShouldIssue(st, now) && issued.Err?
    ensures r.Err? ==> r.error == issued.error
    ensures !ShouldIssue(st, now) ==> r == Ok(st)
    ensures ShouldIssue(st, now) && issued.Ok? ==> r == Ok(ChannelAccessTokenState(issued.value, now))
    ensures r.Ok? ==> now - r.value.issuedAt <= ChannelAccessTokenRefreshIntervalMs
  {
    if ShouldIssue(st, now) then
      match issued
      case Ok(token) => Ok(ChannelAccessTokenState(token, now))
      case Err(e) => Err(e)
    else Ok(st)
  }

  /** When no refresh is due the issuing endpoint is not consulted: the
      outcome does not depend on what it would answer. */
  lemma IssuerNotConsulted(st: ChannelAccessTokenState, now: int, a: Result<string>, b: Result<string>)
    requires !ShouldIssue(st, now)
    ensures IssueChannelAccessTokenIfNeeded(st, now, a) == IssueChannelAccessTokenIfNeeded(st, now, b)
  {
  }

  /** A token issued at `t0` (a non-empty token, at a non-zero time) is kept
      for every check at most ten minutes later, and replaced, stamped with
      the new time, by the first check more than ten minutes later. */
  lemma TokenReuseWindow(st: ChannelAccessTokenState, t0: int, token: string, t1: int, next: Result<string>)
    requires ShouldIssue(st, t0) && token != "" && t0 != 0
    ensures var st1 := IssueChannelAccessTokenIfNeeded(st, t0, Ok(token));
      && st1 == Ok(ChannelAccessTokenState(token, t0))
      && (t1 - t0 <= ChannelAccessTokenRefreshIntervalMs ==> IssueChannelAccessTokenIfNeeded(st1.value, t1, next) == st1)
      && (t1 - t0 > ChannelAccessTokenRefreshIntervalMs && next.Ok? ==>
            IssueChannelAccessTokenIfNeeded(st1.value, t1, next) == Ok(ChannelAccessTokenState(next.value, t1)))
  {
  }

  /** An issuing endpoint that answers an empty token makes every later
      check issue again. */
  lemma EmptyTokenReissued(st: ChannelAccessTokenState, t0: int, t1: int, next: Result<string>)
    requires ShouldIssue(st, t0)
    ensures var st1 := IssueChannelAccessTokenIfNeeded(st, t0, Ok(""));
      st1.Ok? && ShouldIssue(st1.value, t1)
  {
  }

  // ---------------------------------------------------------------------
  // Sending with retries
  // ---------------------------------------------------------------------

  /** `Math.floor(Math.random() * BASE_JITTER_MS)`. */
  type Jitter = j: nat | j < 250

  function Pow2(n: nat): (r: nat)
    ensures r >= 1
  {
    if n == 0 then 1 else 2 * Pow2(n - 1)
  }

  /** The wait before the next attempt after failed attempt `attemptCount`. */
  function WaitMs(attemptCount: nat, jitter: Jitter): (r: nat)
    requires attemptCount >= 1
    ensures BaseRetryIntervalMs * Pow2(attemptCount - 1) <= r < BaseRetryIntervalMs * Pow2(attemptCount - 1) + BaseJitterMs
    ensures r >= BaseRetryIntervalMs
  {
    BaseRetryIntervalMs * Pow2(attemptCount - 1) + jitter
  }

  /** `error instanceof CustomError && RETRYABLE_ERROR_CODES.includes(error.code)`,
      with the class imported by this route. */
  predicate IsRetryTargetError(e: Thrown): (r: bool)
    ensures r ==> e.Custom? && e.cls == UtilsCustomError
    ensures r ==> CodeOf(e) == Some(TooManyRequests) || CodeOf(e) == Some(InternalServerError)
  {
    e.Custom? && e.cls == UtilsCustomError && (e.code == TooManyRequests || e.code == InternalServerError)
  }

  /** One call of the push endpoint. */
  datatype PushCall = PushCall(channelAccessToken: string, retryKey: string, to: string, messages: seq<FlexMessage>)

  /** What a send did: the calls it made, the waits between them, and the
      error it finally threw (`None` when a call succeeded). */
  datatype RetryTrace<C> = RetryTrace(calls: seq<C>, waits: seq<nat>, failure: Option<Thrown>)

  /** `run(attemptCount)`: `send(n)` is how attempt `n` ends (`None` when the
      push is accepted), `jitter(n)` the jitter drawn after it fails, and
      `isRetryable` the route's error test. */
  function Run<C>(call: C, attemptCount: nat, send: nat -> Option<Thrown>,
                  isRetryable: Thrown -> bool, jitter: nat -> Jitter): (r: RetryTrace<C>)
    requires 1 <= attemptCount <= MaxRetryCount + 1
    ensures 1 <= |r.calls| <= MaxRetryCount + 2 - attemptCount && |r.waits| == |r.calls| - 1
    ensures r.failure == send(attemptCount + |r.calls| - 1)
    decreases MaxRetryCount + 1 - attemptCount
  {
    match send(attemptCount)
    case None => RetryTrace([call], [], None)
    case Some(error) =>
      if !isRetryable(error) || attemptCount > MaxRetryCount then RetryTrace([call], [], Some(error))
      else
        var rest := Run(call, attemptCount + 1, send, isRetryable, jitter);
        RetryTrace([call] + rest.calls, [WaitMs(attemptCount, jitter(attemptCount))] + rest.waits, rest.failure)
  }

  /** `sendWithRetry({ channelAccessToken, to, messages })`; `retryKey`
      stands for the `crypto.randomUUID()` drawn once per send. */
  function SendWithRetry(channelAccessToken: string, retryKey: string, to: string, messages: seq<FlexMessage>,
                         send: nat -> Option<Thrown>, jitter: nat -> Jitter): (r: RetryTrace<PushCall>)
    ensures 1 <= |r.calls| <= MaxRetryCount + 1
    ensures forall k :: 0 <= k < |r.calls| ==> r.calls[k] == PushCall(channelAccessToken, retryKey, to, messages)
    ensures r.failure == send(|r.calls|)
  {
    RunShape(PushCall(channelAccessToken, retryKey, to, messages), 1, send, IsRetryTargetError, jitter);
    Run(PushCall(channelAccessToken, retryKey, to, messages), 1, send, IsRetryTargetError, jitter)
  }

  /** Attempt `n` failed with an error the route retries. */
  predicate FailedRetryably(send: nat -> Option<Thrown>, isRetryable: Thrown -> bool, n: nat) {
    send(n).Some? && isRetryable(send(n).value)
  }

  /** The shape of every run from attempt `attemptCount`: one to
      `5 - attemptCount` calls, all the same call (so one retry key), the
      documented wait between two calls, every attempt but the last failing
      with a retryable error, and the run's outcome being the last attempt's.
      The last attempt succeeded, failed with an error that is not retryable,
      or was attempt 4. */
  ghost predicate Shaped<C>(r: RetryTrace<C>, call: C, attemptCount: nat, send: nat -> Option<Thrown>,
                            isRetryable: Thrown -> bool, jitter: nat -> Jitter)
    requires 1 <= attemptCount
  {
    && 1 <= |r.calls| <= MaxRetryCount + 2 - attemptCount
    && |r.waits| == |r.calls| - 1
    && (forall k :: 0 <= k < |r.calls| ==> r.calls[k] == call)
    && (forall k :: 0 <= k < |r.waits| ==> r.waits[k] == WaitMs(attemptCount + k, jitter(attemptCount + k)))
    && (forall n :: attemptCount <= n < attemptCount + |r.calls| - 1 ==> FailedRetryably(send, isRetryable, n))
    && r.failure == send(attemptCount + |r.calls| - 1)
    && (r.failure.None? || !isRetryable(r.failure.value) || attemptCount + |r.calls| - 1 == MaxRetryCount + 1)
  }

  /** Every run has that shape. */
  lemma {:induction false} RunShape<C>(call: C, attemptCount: nat, send: nat -> Option<Thrown>,
                                    isRetryable: Thrown -> bool, jitter: nat -> Jitter)
    requires 1 <= attemptCount <= MaxRetryCount + 1
    ensures Shaped(Run(call, attemptCount, send, isRetryable, jitter), call, attemptCount, send, isRetryable, jitter)
    decreases MaxRetryCount + 1 - attemptCount
  {
    match send(attemptCount)
    case None =>
    case Some(error) =>
      if isRetryable(error) && attemptCount <= MaxRetryCount {
        RunShape(call, attemptCount + 1, send, isRetryable, jitter);
        ShapedStep(call, attemptCount, send, isRetryable, jitter, Run(call, attemptCount + 1, send, isRetryable, jitter));
      }
  }

  /** A retryable failure followed by a shaped run is a shaped run. */
  lemma ShapedStep<C>(call: C, attemptCount: nat, send: nat -> Option<Thrown>,
                      isRetryable: Thrown -> bool, jitter: nat -> Jitter, rest: RetryTrace<C>)
    requires 1 <= attemptCount <= MaxRetryCount && FailedRetryably(send, isRetryable, attemptCount)
    requires Shaped(rest, call, attemptCount + 1, send, isRetryable, jitter)
    ensures Shaped(RetryTrace([call] + rest.calls, [WaitMs(attemptCount, jitter(attemptCount))] + rest.waits, rest.failure),
                   call, attemptCount, send, isRetryable, jitter)
  {
    var r := RetryTrace([call] + rest.calls, [WaitMs(attemptCount, jitter(attemptCount))] + rest.waits, rest.failure);
    assert forall k :: 1 <= k < |r.calls| ==> r.calls[k] == rest.calls[k - 1];
    assert forall k :: 1 <= k < |r.waits| ==> r.waits[k] == rest.waits[k - 1];
  }


  /** A send makes at most four calls, all with the same retry key. */
  lemma SendWithRetryBounds(channelAccessToken: string, retryKey: string, to: string, messages: seq<FlexMessage>,
                            send: nat -> Option<Thrown>, jitter: nat -> Jitter)
    ensures var r := SendWithRetry(channelAccessToken, retryKey, to, messages, send, jitter);
      && 1 <= |r.calls| <= MaxRetryCount + 1
      && (forall k :: 0 <= k < |r.calls| ==> r.calls[k].retryKey == retryKey && r.calls[k] == r.calls[0])
      && (r.failure.None? <==> send(|r.calls|).None?)
  {
    RunShape(PushCall(channelAccessToken, retryKey, to, messages), 1, send, IsRetryTargetError, jitter);
  }

  /** A first attempt failing with an error that is not retryable is thrown
      at once, after a single call and no wait. */
  lemma NonRetryableRethrown<C>(call: C, send: nat -> Option<Thrown>, isRetryable: Thrown -> bool,
                             jitter: nat -> Jitter)
    requires send(1).Some? && !isRetryable(send(1).value)
    ensures Run(call, 1, send, isRetryable, jitter) == RetryTrace([call], [], send(1))
  {
  }

  /** Failures that are always retryable make exactly four calls, with three
      waits, and the fourth failure is thrown. */
  lemma AlwaysRetryableFourCalls<C>(call: C, send: nat -> Option<Thrown>, isRetryable: Thrown -> bool,
                                 jitter: nat -> Jitter)
    requires forall n :: 1 <= n <= MaxRetryCount + 1 ==> FailedRetryably(send, isRetryable, n)
    ensures var r := Run(call, 1, send, isRetryable, jitter);
      |r.calls| == 4 && |r.waits| == 3 && r.failure == send(4)
  {
    RunShape(call, 1, send, isRetryable, jitter);
    var r := Run(call, 1, send, isRetryable, jitter);
    assert FailedRetryably(send, isRetryable, |r.calls|);
  }

  /** The waits are 1000, 2000 and 4000 ms plus a jitter below 250 ms, so
      each is longer than the one before. */
  lemma WaitsGrow<C>(call: C, send: nat -> Option<Thrown>, isRetryable: Thrown -> bool, jitter: nat -> Jitter)
    ensures var w := Run(call, 1, send, isRetryable, jitter).waits;
      && (forall k :: 0 <= k < |w| ==> BaseRetryIntervalMs * Pow2(k) <= w[k] < BaseRetryIntervalMs * Pow2(k) + BaseJitterMs)
      && (forall k :: 0 <= k < |w| - 1 ==> w[k] < w[k + 1])
  {
    RunShape(call, 1, send, isRetryable, jitter);
    var w := Run(call, 1, send, isRetryable, jitter).waits;
    assert Pow2(0) == 1 && Pow2(1) == 2 && Pow2(2) == 4;
  }

  /** Only the route's own CustomError class is retried: the same codes
      thrown by the other CustomError class end the send after one call. */
  lemma OtherClassNotRetried(channelAccessToken: string, retryKey: string, to: string, messages: seq<FlexMessage>,
                             send: nat -> Option<Thrown>, jitter: nat -> Jitter)
    requires send(1).Some? && send(1).value.Custom? && send(1).value.cls == ErrorsCustomError
    ensures |SendWithRetry(channelAccessToken, retryKey, to, messages, send, jitter).calls| == 1
  {
  }

  // ---------------------------------------------------------------------
  // Counting the users
  // ---------------------------------------------------------------------

  datatype UserOutcome = Skipped | Succeeded | Failed

  datatype Counts = Counts(total: nat, success: nat, error: nat, skip: nat)

  predicate Balanced(c: Counts) {
    c.total == c.success + c.error + c.skip
  }

  /** One task's counter updates: its branch, then `total++` in `finally`. */
  function Count(c: Counts, o: UserOutcome): Counts {
    match o
    case Skipped => c.(skip := c.skip + 1, total := c.total + 1)
    case Succeeded => c.(success := c.success + 1, total := c.total + 1)
    case Failed => c.(error := c.error + 1, total := c.total + 1)
  }

  /** The `result` object the tasks update. */
  class SendResult {
    var total: nat
    var success: nat
    var error: nat
    var skip: nat

    function Snapshot(): Counts
      reads this
    {
      Counts(total, success, error, skip)
    }

    constructor ()
      ensures Snapshot() == Counts(0, 0, 0, 0)
    {
      total, success, error, skip := 0, 0, 0, 0;
    }

    method Record(o: UserOutcome)
      modifies this
      ensures Snapshot() == Count(old(Snapshot()), o)
    {
      match o {
        case Skipped => skip := skip + 1;
        case Succeeded => success := success + 1;
        case Failed => error := error + 1;
      }
      total := total + 1;
    }
  }

  /** The per-user inputs of a send: the retry key drawn, how each attempt
      ends and the jitters drawn, by user id. */
  datatype SendEnv = SendEnv(retryKey: int -> string, send: int -> nat -> Option<Thrown>, jitter: int -> nat -> Jitter)

  /** `user.teams?.map(...) ?? []`. */
  function Registered(ids: Option<seq<int>>): seq<int> {
    if ids.Some? then ids.value else []
  }

  function MessagesOf(tomorrowDate: string, list: seq<GameContentData>, user: User): seq<FlexMessage> {
    UserMessages(tomorrowDate, list, Registered(user.teams), Registered(user.players))
  }

  /** One user's task: skipped without a send when no game concerns the
      user, otherwise sent through the retrying sender. */
  function UserTask(tomorrowDate: string, list: seq<GameContentData>, user: User, token: string, env: SendEnv): UserOutcome {
    var messages := MessagesOf(tomorrowDate, list, user);
    if |messages| == 0 then Skipped
    else
      var trace := SendWithRetry(token, env.retryKey(user.id), user.lineId, messages, env.send(user.id), env.jitter(user.id));
      if trace.failure.None? then Succeeded else Failed
  }

  /** The tasks of a chunk's users as one function of the user. */
  function CronOutcome(tomorrowDate: string, list: seq<GameContentData>, token: string, env: SendEnv): User -> UserOutcome {
    u => UserTask(tomorrowDate, list, u, token, env)
  }

  /** The counters after the tasks of `users`, from `c`; the tasks of a chunk
      touch disjoint users and only add to the counters, so their order does
      not change the result. */
  function Tally<U>(c: Counts, users: seq<U>, outcome: U -> UserOutcome): Counts {
    if users == [] then c
    else Count(Tally(c, users[..|users| - 1], outcome), outcome(users[|users| - 1]))
  }

  /** The number of users whose task was skipped. */
  function Skips<U>(users: seq<U>, outcome: U -> UserOutcome): nat {
    if users == [] then 0
    else Skips(users[..|users| - 1], outcome) + (if outcome(users[|users| - 1]) == Skipped then 1 else 0)
  }

  /** Each task adds one to `total` and to exactly one other counter. */
  lemma {:induction false} TallyCounts<U>(c: Counts, users: seq<U>, outcome: U -> UserOutcome)
    ensures var c' := Tally(c, users, outcome);
      && c'.total == c.total + |users|
      && c'.skip == c.skip + Skips(users, outcome)
      && c'.success + c'.error == c.success + c.error + |users| - Skips(users, outcome)
      && (Balanced(c) ==> Balanced(c'))
    decreases |users|
  {
    if users != [] {
      TallyCounts(c, users[..|users| - 1], outcome);
    }
  }

  /** Counting two runs of tasks one after the other is counting them together. */
  lemma {:induction false} TallyAppend<U>(c: Counts, a: seq<U>, b: seq<U>, outcome: U -> UserOutcome)
    ensures Tally(c, a + b, outcome) == Tally(Tally(c, a, outcome), b, outcome)
    decreases |b|
  {
    if b == [] {
      assert a + b == a;
    } else {
      assert (a + b)[..|a + b| - 1] == a + b[..|b| - 1];
      TallyAppend(c, a, b[..|b| - 1], outcome);
    }
  }

  /** The chunks so far: the token state after each chunk's check and the
      counters, or the error of the first failed token issue. `clock(k)` is
      `Date.now()` at chunk `k`'s check, `issuer(k)` the issuing endpoint's
      answer there. */
  function Dispatch(tomorrowDate: string, list: seq<GameContentData>, pages: seq<seq<User>>,
                    clock: nat -> int, issuer: nat -> Result<string>, env: SendEnv)
    : Result<(ChannelAccessTokenState, Counts)>
  {
    if pages == [] then Ok((ChannelAccessTokenState("", 0), Counts(0, 0, 0, 0)))
    else
      var k := |pages| - 1;
      match Dispatch(tomorrowDate, list, pages[..k], clock, issuer, env)
      case Err(e) => Err(e)
      case Ok((st, c)) =>
        match IssueChannelAccessTokenIfNeeded(st, clock(k), issuer(k))
        case Err(e) => Err(e)
        case Ok(st') => Ok((st', Tally(c, pages[k], CronOutcome(tomorrowDate, list, st'.token, env))))
  }

  /** `sendPushMessagesToUsers(list)` over the chunks `pages` the user
      iterator yields; the tasks of a chunk run one after another here. */
  method SendPushMessagesToUsers(gameContentDataList: seq<GameContentData>, pages: seq<seq<User>>, tomorrowDate: string,
                                 clock: nat -> int, issuer: nat -> Result<string>, env: SendEnv)
    returns (r: Result<Counts>)
    ensures var d := Dispatch(tomorrowDate, gameContentDataList, pages, clock, issuer, env);
      && (d.Err? ==> r == Err(d.error))
      && (d.Ok? ==> r == Ok(d.value.1))
  {
    var channelAccessTokenState := ChannelAccessTokenState("", 0);
    var result := new SendResult();
    for k := 0 to |pages|
      invariant Dispatch(tomorrowDate, gameContentDataList, pages[..k], clock, issuer, env) ==
        Ok((channelAccessTokenState, result.Snapshot()))
    {
      assert pages[..k + 1][..k] == pages[..k];
      var issued := IssueChannelAccessTokenIfNeeded(channelAccessTokenState, clock(k), issuer(k));
      if issued.Err? {
        DispatchStops(tomorrowDate, gameContentDataList, pages, clock, issuer, env, k + 1);
        assert pages[..|pages|] == pages;
        return Err(issued.error);
      }
      channelAccessTokenState := issued.value;
      RunChunk(result, tomorrowDate, gameContentDataList, pages[k], channelAccessTokenState.token, env);
    }
    assert pages[..|pages|] == pages;
    r := Ok(result.Snapshot());
  }

  /** `runWithConcurrency(tasks, CONCURRENCY)` for one chunk's tasks, run in
      user order. */
  method RunChunk(result: SendResult, tomorrowDate: string, gameContentDataList: seq<GameContentData>,
                  users: seq<User>, token: string, env: SendEnv)
    modifies result
    ensures result.Snapshot() == Tally(old(result.Snapshot()), users, CronOutcome(tomorrowDate, gameContentDataList, token, env))
  {
    ghost var start := result.Snapshot();
    for j := 0 to |users|
      invariant result.Snapshot() == Tally(start, users[..j], CronOutcome(tomorrowDate, gameContentDataList, token, env))
    {
      assert users[..j + 1][..j] == users[..j];
      RunUserTask(result, tomorrowDate, gameContentDataList, users[j], token, env);
    }
    assert users[..|users|] == users;
  }

  /** The task of one user, with the counter updates it makes. */
  method RunUserTask(result: SendResult, tomorrowDate: string, gameContentDataList: seq<GameContentData>,
                     user: User, token: string, env: SendEnv)
    modifies result
    ensures result.Snapshot() == Count(old(result.Snapshot()), UserTask(tomorrowDate, gameContentDataList, user, token, env))
  {
    var messageObjects := BuildMessageObjectsForUser(tomorrowDate, gameContentDataList,
                                                     Registered(user.teams), Registered(user.players));
    if |messageObjects| == 0 {
      result.Record(Skipped);
      return;
    }
    var trace := SendWithRetry(token, env.retryKey(user.id), user.lineId, messageObjects,
                               env.send(user.id), env.jitter(user.id));
    if trace.failure.None? {
      result.Record(Succeeded);
    } else {
      result.Record(Failed);
    }
  }

  /** A failed token issue ends the whole dispatch with its error. */
  lemma {:induction false} DispatchStops(tomorrowDate: string, list: seq<GameContentData>, pages: seq<seq<User>>,
                                         clock: nat -> int, issuer: nat -> Result<string>, env: SendEnv, n: nat)
    requires n <= |pages| && Dispatch(tomorrowDate, list, pages[..n], clock, issuer, env).Err?
    ensures Dispatch(tomorrowDate, list, pages, clock, issuer, env) == Dispatch(tomorrowDate, list, pages[..n], clock, issuer, env)
    decreases |pages| - n
  {
    if n < |pages| {
      assert pages[..n + 1][..n] == pages[..n];
      DispatchStops(tomorrowDate, list, pages, clock, issuer, env, n + 1);
    } else {
      assert pages[..n] == pages;
    }
  }

  /** The users of a chunk that no game concerns. */
  function SkipCount(tomorrowDate: string, list: seq<GameContentData>, users: seq<User>): nat {
    if users == [] then 0
    else
      var last := if |MessagesOf(tomorrowDate, list, users[|users| - 1])| == 0 then 1 else 0;
      SkipCount(tomorrowDate, list, users[..|users| - 1]) + last
  }

  /** A user's task is skipped iff no game concerns the user, whatever the token. */
  lemma {:induction false} CronSkips(tomorrowDate: string, list: seq<GameContentData>, users: seq<User>,
                                     token: string, env: SendEnv)
    ensures Skips(users, CronOutcome(tomorrowDate, list, token, env)) == SkipCount(tomorrowDate, list, users)
    decreases |users|
  {
    if users != [] {
      CronSkips(tomorrowDate, list, users[..|users| - 1], token, env);
    }
  }

  lemma SkipCountAppend(tomorrowDate: string, list: seq<GameContentData>, a: seq<User>, b: seq<User>)
    ensures SkipCount(tomorrowDate, list, a + b) == SkipCount(tomorrowDate, list, a) + SkipCount(tomorrowDate, list, b)
    decreases |b|
  {
    if b == [] {
      assert a + b == a;
    } else {
      assert (a + b)[..|a + b| - 1] == a + b[..|b| - 1];
      SkipCountAppend(tomorrowDate, list, a, b[..|b| - 1]);
    }
  }

  /** What the counters say at the end: one task per user iterated,
      `total == success + error + skip`, the skips exactly the users no game
      concerns; and the token used for the last chunk was at most ten
      minutes old when that chunk started. */
  lemma {:induction false} DispatchCounts(tomorrowDate: string, list: seq<GameContentData>, pages: seq<seq<User>>,
                                          clock: nat -> int, issuer: nat -> Result<string>, env: SendEnv)
    requires Dispatch(tomorrowDate, list, pages, clock, issuer, env).Ok?
    ensures var (st, c) := Dispatch(tomorrowDate, list, pages, clock, issuer, env).value;
      && c.total == |Flatten(pages)|
      && Balanced(c)
      && c.skip == SkipCount(tomorrowDate, list, Flatten(pages))
      && (pages != [] ==> clock(|pages| - 1) - st.issuedAt <= ChannelAccessTokenRefreshIntervalMs)
    decreases |pages|
  {
    if pages != [] {
      var k := |pages| - 1;
      DispatchCounts(tomorrowDate, list, pages[..k], clock, issuer, env);
      var (st, c) := Dispatch(tomorrowDate, list, pages[..k], clock, issuer, env).value;
      var st' := IssueChannelAccessTokenIfNeeded(st, clock(k), issuer(k)).value;
      TallyCounts(c, pages[k], CronOutcome(tomorrowDate, list, st'.token, env));
      CronSkips(tomorrowDate, list, pages[k], st'.token, env);
      SkipCountAppend(tomorrowDate, list, Flatten(pages[..k]), pages[k]);
    }
  }

  // ---------------------------------------------------------------------
  // The handler
  // ---------------------------------------------------------------------

  /** The JSON reply: its status and its `message`. */
  datatype Reply = Reply(status: int, message: string)

  /** `request.headers.get("x-api-key") === process.env.API_KEY`: a missing
      header (`null`) never equals a missing key (`undefined`). */
  function Authenticate(requestApiKey: Option<string>, apiKey: Option<string>): (r: bool)
    ensures r <==> requestApiKey.Some? && apiKey.Some? && requestApiKey.value == apiKey.value
  {
    match (requestApiKey, apiKey)
    case (Some(a), Some(b)) => a == b
    case _ => false
  }

  /** The `catch` of the handler; `statusOf` stands for ERROR_CODE_TO_STATUS.
      It reads `.code` without looking at the class. */
  function ErrorReply(e: Thrown, statusOf: ErrorCode -> int): (r: Reply)
    ensures CodeOf(e) == Some(Unauthorized) ==> r == Reply(statusOf(Unauthorized), "Unauthorized")
    ensures CodeOf(e) != Some(Unauthorized) ==> r == Reply(statusOf(InternalServerError), "Internal Server Error")
  {
    if CodeOf(e) == Some(Unauthorized) then Reply(statusOf(Unauthorized), "Unauthorized")
    else Reply(statusOf(InternalServerError), "Internal Server Error")
  }

  /** `Promise.all` of the three fetches: their values, or an error of one
      that failed. When several fail, the teams error is reported first and
      the standings error second, whereas `Promise.all` rejects with the one
      that fails first in time. The reply does not depend on which: the MLB
      wrappers throw `Error`s without a `code`, and only an UNAUTHORIZED code changes
      the reply. */
  function FetchAll(teams: Result<seq<Team>>, standings: Result<seq<Standing>>, games: Result<seq<Game>>)
    : (r: Result<(seq<Team>, seq<Standing>, seq<Game>)>)
    ensures r.Ok? <==> teams.Ok? && standings.Ok? && games.Ok?
    ensures r.Ok? ==> r.value == (teams.value, standings.value, games.value)
    ensures r.Err? ==> (teams.Err? && r.error == teams.error) || (standings.Err? && r.error == standings.error) ||
                       (games.Err? && r.error == games.error)
  {
    if teams.Err? then Err(teams.error)
    else if standings.Err? then Err(standings.error)
    else if games.Err? then Err(games.error)
    else Ok((teams.value, standings.value, games.value))
  }

  /** The inputs of the handler beyond the request: the three fetch results,
      the clock reading the start times (`timeOf`), the formatter of start
      times, DIVISION_ABBR_JP, the `countUsers` result and the users table. */
  datatype Inputs = Inputs(teams: Result<seq<Team>>, standings: Result<seq<Standing>>, games: Result<seq<Game>>,
                           timeOf: string -> int, formatTime: string -> string, divisionAbbr: map<int, string>,
                           userCount: Result<nat>, db: seq<User>)

  /** `POST(request)`. The ghost `dispatched` holds, when games were found,
      the game content built from the games sorted by start time and the
      chunks of users the iterator yields when it runs to the end. When a
      token cannot be issued, the route leaves the `for await` loop and the
      later chunks are never fetched; by DispatchStops they change nothing. */
  method Post(requestApiKey: Option<string>, apiKey: Option<string>, inputs: Inputs, tomorrowDate: string,
              clock: nat -> int, issuer: nat -> Result<string>, env: SendEnv, statusOf: ErrorCode -> int)
    returns (reply: Reply, ghost dispatched: Option<(seq<GameContentData>, seq<seq<User>>)>)
    requires Ascending(inputs.db)
    ensures !Authenticate(requestApiKey, apiKey) ==>
      reply == Reply(statusOf(Unauthorized), "Unauthorized") && dispatched.None?
    ensures var f := FetchAll(inputs.teams, inputs.standings, inputs.games);
      Authenticate(requestApiKey, apiKey) && f.Err? ==> reply == ErrorReply(f.error, statusOf) && dispatched.None?
    ensures var f := FetchAll(inputs.teams, inputs.standings, inputs.games);
      Authenticate(requestApiKey, apiKey) && f.Ok? && f.value.2 == [] ==>
        && dispatched.None?
        && (inputs.userCount.Ok? ==> reply == Reply(200, "No games found"))
        && (inputs.userCount.Err? ==> reply == ErrorReply(inputs.userCount.error, statusOf))
    ensures var f := FetchAll(inputs.teams, inputs.standings, inputs.games);
      Authenticate(requestApiKey, apiKey) && f.Ok? && f.value.2 != [] ==>
        && dispatched.Some?
        && Flatten(dispatched.value.1) == LoadAll(inputs.db, Relations(true, true))
        && |dispatched.value.0| <= |f.value.2|
        && dispatched.value.0 == ContentList(IndexBy(f.value.0, TeamKey), IndexBy(f.value.1, StandingKey),
                                             inputs.divisionAbbr, inputs.formatTime,
                                             Sorting.SortByKey(f.value.2, StartTimeKey(inputs.timeOf)))
        && var d := Dispatch(tomorrowDate, dispatched.value.0, dispatched.value.1, clock, issuer, env);
           && (d.Ok? ==> reply == Reply(200, "OK"))
           && (d.Err? ==> reply == ErrorReply(d.error, statusOf))
  {
    dispatched := None;
    if !Authenticate(requestApiKey, apiKey) {
      return ErrorReply(Custom(UtilsCustomError, Unauthorized, "", None), statusOf), None;
    }
    var fetched := FetchAll(inputs.teams, inputs.standings, inputs.games);
    if fetched.Err? {
      return ErrorReply(fetched.error, statusOf), None;
    }
    var (teams, standings, games) := fetched.value;
    var sorted := new Game[|games|](i requires 0 <= i < |games| => games[i]);
    assert sorted[..] == games;
    SortGamesByStartTime(sorted, inputs.timeOf);
    if sorted.Length == 0 {
      if inputs.userCount.Err? {
        return ErrorReply(inputs.userCount.error, statusOf), None;
      }
      return Reply(200, "No games found"), None;
    }
    var gameContentDataList := GenerateGameContentDataList(teams, standings, sorted[..], inputs.divisionAbbr, inputs.formatTime);
    Sorting.SortPermutes(games, StartTimeKey(inputs.timeOf));
    var pages, _ := IterateAllUsersByChunk(inputs.db, ChunkSize, Relations(true, true));
    dispatched := Some((gameContentDataList, pages));
    var result := SendPushMessagesToUsers(gameContentDataList, pages, tomorrowDate, clock, issuer, env);
    if result.Err? {
      return ErrorReply(result.error, statusOf), dispatched;
    }
    reply := Reply(200, "OK");
  }
}
