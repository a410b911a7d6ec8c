/** The full-resolution image download `get_image` (python/icloudbridge.py:1040-1091):
    one request in blocking mode, otherwise a bounded poll that sleeps for the server's
    `Retry-After` after each 202 "still downloading" answer. The server is a script:
    `answer(i)` is what the `i`-th request (counting from 0) gets back. Sleeping is
    recorded, not performed. */
module ImageFetch {
  import opened Wrappers
  import opened Errors
  import opened Transport

  /** The observable run of one `get_image` call: what it returns or raises, how many
      requests it sent and the sleeps between them, in order. */
  datatype Fetch = Fetch(result: Result<Bytes, Error>, attempts: nat, sleeps: seq<nat>)

  /** The delay used when a 202 carries no `Retry-After` header. */
  const DefaultRetryAfter: nat := 5

  /** `int(e.headers.get("Retry-After", "5"))`: the header's seconds, or 5 without one. */
  function RetryDelay(header: Option<nat>): (d: nat)
    ensures header.Some? ==> d == header.value
    ensures header.None? ==> d == DefaultRetryAfter
  {
    if header.Some? then header.value else DefaultRetryAfter
  }

  /** A "download pending" answer. */
  predicate IsPending(r: Response<Bytes>) {
    r.HttpError? && r.code == 202
  }

  /** How long the loop sleeps after the answer `r`, when `r` is pending. */
  function PendingDelay(r: Response<Bytes>): nat {
    if r.HttpError? then RetryDelay(r.retryAfter) else DefaultRetryAfter
  }

  /** The number of iterations the `for` loop allows: `range(max_retries if not wait else 1)`. */
  function Budget(wait: bool, maxRetries: int): (b: int)
    ensures wait ==> b == 1
    ensures !wait ==> b == maxRetries
  {
    if wait then 1 else maxRetries
  }

  function WithSleeps(before: seq<nat>, f: Fetch): Fetch {
    Fetch(f.result, f.attempts, before + f.sleeps)
  }

  /** The run of `get_image` from the iteration `attempt` on. */
  function Poll(wait: bool, maxRetries: int, answer: nat -> Response<Bytes>, attempt: nat): Fetch
    decreases Budget(wait, maxRetries) - attempt
  {
    if attempt >= Budget(wait, maxRetries) then Fetch(Failure(DownloadFailed), attempt, [])
    else
      match answer(attempt)
      case Ok(_, body) => Fetch(Success(body), attempt + 1, [])
      case UrlError => Fetch(Failure(ConnectionFailed), attempt + 1, [])
      case HttpError(code, retryAfter, _) =>
        if code == 404 then Fetch(Failure(NotFoundError), attempt + 1, [])
        else if code == 202 then
          if wait then Fetch(Failure(PendingDespiteWait), attempt + 1, [])
          else if attempt < maxRetries - 1 then
            WithSleeps([RetryDelay(retryAfter)], Poll(wait, maxRetries, answer, attempt + 1))
          else Fetch(Failure(TimedOut(maxRetries)), attempt + 1, [])
        else Fetch(Failure(ApiError(code)), attempt + 1, [])
  }

  /** `get_image` itself: the `for` loop with its early returns, `continue` and sleeps. */
  method GetImage(wait: bool, maxRetries: int, answer: nat -> Response<Bytes>)
    returns (result: Result<Bytes, Error>, attempts: nat, sleeps: seq<nat>)
    ensures Fetch(result, attempts, sleeps) == Poll(wait, maxRetries, answer, 0)
  {
    attempts, sleeps := 0, [];
    var budget := Budget(wait, maxRetries);
    var attempt: nat := 0;
    while attempt < budget
      invariant attempts == attempt == |sleeps|
      invariant Poll(wait, maxRetries, answer, 0).result == Poll(wait, maxRetries, answer, attempt).result
      invariant Poll(wait, maxRetries, answer, 0).attempts == Poll(wait, maxRetries, answer, attempt).attempts
      invariant Poll(wait, maxRetries, answer, 0).sleeps == sleeps + Poll(wait, maxRetries, answer, attempt).sleeps
      decreases budget - attempt
    {
      var response := answer(attempt);
      ghost var rest := Poll(wait, maxRetries, answer, attempt);
      attempts := attempts + 1;
      match response {
        case Ok(_, body) =>
          assert rest == Fetch(Success(body), attempts, []);
          result := Success(body);
          return;
        case UrlError =>
          assert rest == Fetch(Failure(ConnectionFailed), attempts, []);
          result := Failure(ConnectionFailed);
          return;
        case HttpError(code, retryAfter, _) =>
          if code == 404 {
            assert rest == Fetch(Failure(NotFoundError), attempts, []);
            result := Failure(NotFoundError);
            return;
          } else if code == 202 {
            if wait {
              assert rest == Fetch(Failure(PendingDespiteWait), attempts, []);
              result := Failure(PendingDespiteWait);
              return;
            }
            var delay := RetryDelay(retryAfter);
            if attempt < maxRetries - 1 {
              ghost var next := Poll(wait, maxRetries, answer, attempt + 1);
              assert rest == WithSleeps([delay], next);
              assert sleeps + rest.sleeps == (sleeps + [delay]) + next.sleeps;
              sleeps := sleeps + [delay];
              attempt := attempt + 1;
              continue;
            } else {
              assert rest == Fetch(Failure(TimedOut(maxRetries)), attempts, []);
              result := Failure(TimedOut(maxRetries));
              return;
            }
          } else {
            assert rest == Fetch(Failure(ApiError(code)), attempts, []);
            result := Failure(ApiError(code));
            return;
          }
      }
    }
    result := Failure(DownloadFailed);
  }

  // ---- what a run looks like ----

  /** The sleeps after the pending answers `answer(from) .. answer(to - 1)`. */
  function Delays(answer: nat -> Response<Bytes>, from: nat, to: nat): (d: seq<nat>)
    decreases (to as int) - (from as int)
  {
    if from >= to then [] else [PendingDelay(answer(from))] + Delays(answer, from + 1, to)
  }

  lemma {:induction false} DelaysAt(answer: nat -> Response<Bytes>, from: nat, to: nat, j: nat)
    requires from <= j < to
    ensures |Delays(answer, from, to)| == to - from
    ensures Delays(answer, from, to)[j - from] == PendingDelay(answer(j))
    decreases (to as int) - (from as int)
  {
    if j > from {
      DelaysAt(answer, from + 1, to, j);
    } else {
      DelaysLength(answer, from + 1, to);
    }
  }

  lemma {:induction false} DelaysLength(answer: nat -> Response<Bytes>, from: nat, to: nat)
    ensures |Delays(answer, from, to)| == (if from <= to then to - from else 0)
    decreases (to as int) - (from as int)
  {
    if from < to {
      DelaysLength(answer, from + 1, to);
    }
  }

  /** What the attempt that ends the loop yields, given its answer. */
  function Outcome(wait: bool, maxRetries: int, r: Response<Bytes>): Result<Bytes, Error> {
    match r
    case Ok(_, body) => Success(body)
    case UrlError => Failure(ConnectionFailed)
    case HttpError(code, _, _) =>
      if code == 404 then Failure(NotFoundError)
      else if code == 202 then (if wait then Failure(PendingDespiteWait) else Failure(TimedOut(maxRetries)))
      else Failure(ApiError(code))
  }

  /** Every run that starts inside the budget is a row of pending answers, each followed
      by its sleep, and then one decisive attempt `k`: the first answer that is not
      pending, or the last attempt the budget allows. Its answer alone decides the result. */
  lemma {:induction false} PollShape(wait: bool, maxRetries: int, answer: nat -> Response<Bytes>, a: nat)
    requires a < Budget(wait, maxRetries)
    ensures var f := Poll(wait, maxRetries, answer, a);
            var k := f.attempts - 1;
            && a <= k < Budget(wait, maxRetries)
            && (forall j :: a <= j < k ==> IsPending(answer(j)))
            && (k < Budget(wait, maxRetries) - 1 ==> !IsPending(answer(k)))
            && f.result == Outcome(wait, maxRetries, answer(a + (k - a)))
            && f.sleeps == Delays(answer, a, k)
    decreases Budget(wait, maxRetries) - a
  {
    var r := answer(a);
    if IsPending(r) && !wait && a < maxRetries - 1 {
      PollShape(wait, maxRetries, answer, a + 1);
    }
  }

  /** Skipping over pending answers: each adds its sleep and hands over to the next attempt. */
  lemma {:induction false} SkipPending(wait: bool, maxRetries: int, answer: nat -> Response<Bytes>, a: nat, k: nat)
    requires a <= k < Budget(wait, maxRetries)
    requires forall j :: a <= j < k ==> IsPending(answer(j))
    ensures Poll(wait, maxRetries, answer, a) == WithSleeps(Delays(answer, a, k), Poll(wait, maxRetries, answer, k))
    decreases k - a
  {
    if a < k {
      assert !wait && a < maxRetries - 1;
      var r := answer(a);
      assert IsPending(r);
      var next := Poll(wait, maxRetries, answer, a + 1);
      assert Poll(wait, maxRetries, answer, a) == WithSleeps([PendingDelay(r)], next);
      SkipPending(wait, maxRetries, answer, a + 1, k);
      assert Delays(answer, a, k) == [PendingDelay(r)] + Delays(answer, a + 1, k);
      assert [PendingDelay(r)] + (Delays(answer, a + 1, k) + Poll(wait, maxRetries, answer, k).sleeps)
          == Delays(answer, a, k) + Poll(wait, maxRetries, answer, k).sleeps;
    }
  }

  /** In polling mode the first successful answer wins: after `k` pending answers (with
      `k < max_retries`), a success at attempt `k` returns its body after `k + 1` requests
      and `k` sleeps, the `j`-th lasting the `j`-th answer's `Retry-After` (or 5). */
  lemma FirstSuccessWins(maxRetries: int, answer: nat -> Response<Bytes>, k: nat)
    requires k < maxRetries
    requires forall j :: 0 <= j < k ==> IsPending(answer(j))
    requires answer(k).Ok?
    ensures Poll(false, maxRetries, answer, 0) == Fetch(Success(answer(k).body), k + 1, Delays(answer, 0, k))
    ensures |Delays(answer, 0, k)| == k
    ensures forall j :: 0 <= j < k ==> answer(j).HttpError? && Delays(answer, 0, k)[j] == RetryDelay(answer(j).retryAfter)
  {
    SkipPending(false, maxRetries, answer, 0, k);
    DelaysLength(answer, 0, k);
    forall j | 0 <= j < k
      ensures answer(j).HttpError? && Delays(answer, 0, k)[j] == RetryDelay(answer(j).retryAfter)
    {
      DelaysAt(answer, 0, k, j);
    }
  }

  /** Conversely, a polling run that returns data got it from the first answer that was
      not pending, within the first `max_retries` requests, and slept once per pending answer. */
  lemma SuccessComesAfterPending(maxRetries: int, answer: nat -> Response<Bytes>)
    requires Poll(false, maxRetries, answer, 0).result.Success?
    ensures var f := Poll(false, maxRetries, answer, 0);
            var k := f.attempts - 1;
            && 1 <= f.attempts <= maxRetries
            && answer(k).Ok? && f.result.value == answer(k).body
            && (forall j :: 0 <= j < k ==> IsPending(answer(j)))
            && f.sleeps == Delays(answer, 0, k) && |f.sleeps| == k
  {
    if maxRetries > 0 {
      PollShape(false, maxRetries, answer, 0);
      var f := Poll(false, maxRetries, answer, 0);
      DelaysLength(answer, 0, f.attempts - 1);
    }
  }

  /** When every answer is pending, polling sends exactly `max_retries` requests, sleeps
      `max_retries - 1` times and then times out: never `NotFoundError`, never `APIError`. */
  lemma AllPendingTimesOut(maxRetries: int, answer: nat -> Response<Bytes>)
    requires maxRetries >= 1
    requires forall j :: 0 <= j < maxRetries ==> IsPending(answer(j))
    ensures Poll(false, maxRetries, answer, 0) == Fetch(Failure(TimedOut(maxRetries)), maxRetries, Delays(answer, 0, maxRetries - 1))
    ensures |Poll(false, maxRetries, answer, 0).sleeps| == maxRetries - 1
  {
    SkipPending(false, maxRetries, answer, 0, maxRetries - 1);
    assert IsPending(answer(maxRetries - 1));
    DelaysLength(answer, 0, maxRetries - 1);
  }

  /** With `max_retries <= 0` the loop body never runs: no request, "Image download failed". */
  lemma NoBudgetNoRequest(maxRetries: int, answer: nat -> Response<Bytes>)
    requires maxRetries <= 0
    ensures Poll(false, maxRetries, answer, 0) == Fetch(Failure(DownloadFailed), 0, [])
  {
  }

  /** `DownloadFailed` is raised exactly when polling has no budget at all. */
  lemma DownloadFailedOnlyWithoutBudget(wait: bool, maxRetries: int, answer: nat -> Response<Bytes>)
    ensures Poll(wait, maxRetries, answer, 0).result == Failure(DownloadFailed) <==> !wait && maxRetries <= 0
  {
    if Budget(wait, maxRetries) > 0 {
      PollShape(wait, maxRetries, answer, 0);
    }
  }

  /** Blocking mode sends one request and never sleeps; a 202 there is a protocol error,
      not a timeout and not a retry. */
  lemma BlockingModeSingleRequest(maxRetries: int, answer: nat -> Response<Bytes>)
    ensures Poll(true, maxRetries, answer, 0).attempts == 1
    ensures Poll(true, maxRetries, answer, 0).sleeps == []
    ensures IsPending(answer(0)) ==> Poll(true, maxRetries, answer, 0).result == Failure(PendingDespiteWait)
    ensures !IsPending(answer(0)) ==> Poll(true, maxRetries, answer, 0).result == Outcome(true, maxRetries, answer(0))
  {
  }

  /** A run never sends more requests than its budget, and sleeps once less than it sends. */
  lemma RequestsWithinBudget(wait: bool, maxRetries: int, answer: nat -> Response<Bytes>)
    ensures var f := Poll(wait, maxRetries, answer, 0);
            && f.attempts <= (if Budget(wait, maxRetries) > 0 then Budget(wait, maxRetries) else 0)
            && (f.attempts > 0 ==> |f.sleeps| == f.attempts - 1)
  {
    if Budget(wait, maxRetries) > 0 {
      PollShape(wait, maxRetries, answer, 0);
      DelaysLength(answer, 0, Poll(wait, maxRetries, answer, 0).attempts - 1);
    }
  }

  /** The worked example: 202 with `Retry-After: 1` twice, then the image, with the default
      `max_retries=10`: three requests and one second of sleep after each of the first two. */
  lemma ThirdAttemptSucceeds(body: Bytes)
    ensures var answer := (i: nat) => if i < 2 then HttpError(202, Some(1), []) else Ok(200, body);
            Poll(false, 10, answer, 0) == Fetch(Success(body), 3, [1, 1])
  {
    var answer := (i: nat) => if i < 2 then HttpError(202, Some(1), []) else Ok(200, body);
    assert answer(0) == HttpError(202, Some(1), []) && answer(1) == HttpError(202, Some(1), []);
    assert answer(2) == Ok(200, body);
    FirstSuccessWins(10, answer, 2);
    assert Delays(answer, 0, 2) == [1, 1];
  }

  // ---- how the answers reach the loop ----

  /** What the loop needs from `urlopen` for its 202 branch to be reachable: a 202 is
      raised as pending, every other status is handled as `urlopen` does. */
  function ImageOpen(raw: RawResponse): (r: Response<Bytes>)
    ensures IsPending(r) <==> raw.Raw? && raw.status == 202
    ensures IsPending(r) ==> r.retryAfter == raw.retryAfter
    ensures !(raw.Raw? && raw.status == 202) ==> r == UrlOpen(raw)
  {
    if raw.Raw? && raw.status == 202 then HttpError(202, raw.retryAfter, raw.body) else UrlOpen(raw)
  }

  /** As written, the 202 branch is dead: `urlopen` returns every 2xx response, so a 202
      never reaches `except HTTPError`. The loop stops at the first request and hands the
      pending answer's body back as if it were the image. */
  lemma AsWrittenNeverPolls(wait: bool, maxRetries: int, raw: nat -> RawResponse)
    ensures var f := Poll(wait, maxRetries, (i: nat) => UrlOpen(raw(i)), 0);
            f.sleeps == [] && f.attempts <= 1
    ensures raw(0).Raw? && raw(0).status == 202 && Budget(wait, maxRetries) >= 1 ==>
              Poll(wait, maxRetries, (i: nat) => UrlOpen(raw(i)), 0).result == Success(raw(0).body)
  {
    var answer := (i: nat) => UrlOpen(raw(i));
    if Budget(wait, maxRetries) >= 1 {
      assert answer(0) == UrlOpen(raw(0));
    }
  }

  /** With a 202 raised as pending, the worked example behaves as intended: two waits of
      one second, then the image from the third request. */
  lemma CorrectedPollsOnAccepted(pending: Bytes, image: Bytes)
    ensures var raw := (i: nat) => if i < 2 then Raw(202, Some(1), pending) else Raw(200, None, image);
            && Poll(false, 10, (i: nat) => ImageOpen(raw(i)), 0) == Fetch(Success(image), 3, [1, 1])
            && Poll(false, 10, (i: nat) => UrlOpen(raw(i)), 0) == Fetch(Success(pending), 1, [])
  {
    var raw := (i: nat) => if i < 2 then Raw(202, Some(1), pending) else Raw(200, None, image);
    assert raw(0) == Raw(202, Some(1), pending) && raw(1) == Raw(202, Some(1), pending);
    assert raw(2) == Raw(200, None, image);
    var answer := (i: nat) => ImageOpen(raw(i));
    assert answer(0) == HttpError(202, Some(1), pending) && answer(1) == HttpError(202, Some(1), pending);
    assert answer(2) == Ok(200, image);
    FirstSuccessWins(10, answer, 2);
    assert Delays(answer, 0, 2) == [1, 1];
    var asWritten := (i: nat) => UrlOpen(raw(i));
    assert asWritten(0) == Ok(202, pending);
  }
}
