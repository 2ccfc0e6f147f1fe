/** Shared vocabulary: optional values, results of fallible calls, and the
    errors the system throws, tagged by the class that created them. */
module Common {

  datatype Option<+T> = None | Some(value: T)

  /** The outcome of an async call that may reject. */
  datatype Result<+T> = Ok(value: T) | Err(error: Thrown)

  /** The ERROR_CODE table itself is not part of this model: only the codes
      the core branches on are named, every other code is `OtherCode`. */
  datatype ErrorCode =
    | TooManyRequests
    | InternalServerError
    | Unauthorized
    | OtherCode(name: string)

  /** The repository has two unrelated `CustomError` classes with the same
      shape; `instanceof` tells them apart, so the model tags each error
      with the class that created it. */
  datatype ErrorClass =
    | UtilsCustomError   // src/shared/utils/error.ts
    | ErrorsCustomError  // src/shared/errors/error.ts

  /** The optional `data` record carried by a CustomError. */
  type ErrorData = map<string, string>

  /** A thrown value. */
  datatype Thrown =
    | Custom(cls: ErrorClass, code: ErrorCode, message: string, data: Option<ErrorData>)
    | PlainError(message: string)  // any other `Error` instance (failed fetch, TypeError, ...)
    | NonError                     // a thrown value that is not an `Error` at all

  /** The `error` object of an error response: `data` is attached only when present. */
  datatype ErrorBody = ErrorBody(code: ErrorCode, message: string, data: Option<ErrorData>)

  /** `{ ok: true, data }` or `{ ok: false, error }`, the shape shared by
      ActionResponse and ApiResponse. */
  datatype Response<+T> = Success(data: T) | Failure(error: ErrorBody)
  {
    predicate ok() { Success? }
  }

  /** `(error as CustomError)?.code`: a property read, so it does not look at the class. */
  function CodeOf(e: Thrown): Option<ErrorCode> {
    if e.Custom? then Some(e.code) else None
  }

  /** Sum of a sequence of naturals. */
  function Sum(s: seq<nat>): nat {
    if s == [] then 0 else Sum(s[..|s| - 1]) + s[|s| - 1]
  }

  /** Concatenation of a sequence of sequences. */
  function Flatten<T>(ss: seq<seq<T>>): seq<T> {
    if ss == [] then [] else Flatten(ss[..|ss| - 1]) + ss[|ss| - 1]
  }

  /** A non-empty sequence is its front followed by its last element. */
  lemma LastSplit<T>(s: seq<T>)
    requires s != []
    ensures s == s[..|s| - 1] + [s[|s| - 1]]
  {
  }

  /** A sequence is what comes before index `m`, the element at `m`, and what
      follows it; so is its multiset. */
  lemma SplitAround<T>(s: seq<T>, m: nat)
    requires m < |s|
    ensures s == s[..m] + [s[m]] + s[m + 1..]
    ensures multiset(s) == multiset(s[..m]) + multiset{s[m]} + multiset(s[m + 1..])
  {
    assert s == s[..m] + [s[m]] + s[m + 1..];
  }

  lemma {:induction false} FlattenAppend<T>(a: seq<seq<T>>, b: seq<seq<T>>)
    ensures Flatten(a + b) == Flatten(a) + Flatten(b)
    decreases |b|
  {
    if b == [] {
      assert a + b == a;
    } else {
      var b' := b[..|b| - 1];
      assert (a + b)[..|a + b| - 1] == a + b';
      FlattenAppend(a, b');
    }
  }
}
