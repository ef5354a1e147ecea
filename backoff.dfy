/** Connecting to a voice channel with capped exponential backoff
    (`connect_with_backoff`).

    Attempt k (counted from 0) calls connect once. A transient failure
    (ConnectionClosed) is followed by a wait of min(2^k, 32) units and the
    next attempt, even after the last attempt; an OSError ends the loop at
    once; any other exception leaves the function; a success is returned at
    once. When the loop ends without a connection the result is None. */
module Backoff {
  import opened Gateway

  /** Default of the `retry_attempts` parameter; every caller uses it. */
  const DefaultRetryAttempts: int := 5

  /** Upper bound on a single backoff wait. */
  const MaxBackoff: nat := 32

  /** The result of `connect_with_backoff` as its caller sees it. */
  datatype ConnectResult =
    | Joined(client: VoiceClient)  // a voice client is returned
    | GaveUp                       // None is returned
    | Raised                       // an exception other than the two handled ones escapes

  datatype BackoffRun = BackoffRun(result: ConnectResult, trace: seq<Action>)

  function Pow2(k: nat): (r: nat)
    ensures r >= 1
  {
    if k == 0 then 1 else 2 * Pow2(k - 1)
  }

  /** The wait after a ConnectionClosed failure at attempt `attempt`: min(2 ** attempt, 32). */
  function BackoffTime(attempt: nat): (r: nat)
    ensures 1 <= r <= MaxBackoff
    ensures r <= Pow2(attempt)
    ensures r == Pow2(attempt) || r == MaxBackoff
  {
    if Pow2(attempt) < MaxBackoff then Pow2(attempt) else MaxBackoff
  }

  lemma {:induction false} Pow2Monotone(j: nat, k: nat)
    requires j <= k
    ensures Pow2(j) <= Pow2(k)
  {
    if j < k {
      Pow2Monotone(j, k - 1);
    }
  }

  /** The wait schedule is 1, 2, 4, 8, 16 and then 32 for every later attempt. */
  lemma BackoffSchedule(k: nat)
    ensures k < 5 ==> BackoffTime(k) == Pow2(k) < MaxBackoff
    ensures k >= 5 ==> BackoffTime(k) == MaxBackoff
    ensures BackoffTime(0) == 1 && BackoffTime(1) == 2 && BackoffTime(2) == 4
    ensures BackoffTime(3) == 8 && BackoffTime(4) == 16 && BackoffTime(5) == 32
  {
    assert Pow2(5) == 32;
    if k >= 5 {
      Pow2Monotone(5, k);
    } else {
      Pow2Monotone(k, 4);
    }
  }

  /** Each wait doubles the previous one until the cap is reached. */
  lemma BackoffDoubles(k: nat)
    ensures BackoffTime(k + 1) == if 2 * BackoffTime(k) < MaxBackoff then 2 * BackoffTime(k) else MaxBackoff
  {
    BackoffSchedule(k);
    BackoffSchedule(k + 1);
  }

  /** `retry_attempts` as a loop bound: range(n) is empty when n <= 0. */
  function Budget(retryAttempts: int): nat
  {
    if retryAttempts < 0 then 0 else retryAttempts
  }

  /** The first attempt at or after `k` whose outcome ends the loop, or `budget` when every
      attempt in [k, budget) fails transiently. */
  function FirstDecisive(script: nat -> ConnectOutcome, budget: nat, k: nat): (f: nat)
    requires k <= budget
    ensures k <= f <= budget
    ensures forall i :: k <= i < f ==> script(i).Closed?
    ensures f < budget ==> !script(f).Closed?
    decreases budget - k
  {
    if k == budget || !script(k).Closed? then k else FirstDecisive(script, budget, k + 1)
  }

  /** The trace of `k` attempts that each failed with ConnectionClosed and were each followed
      by their backoff wait. */
  function FailedAttempts(channel: ChannelId, k: nat): seq<Action>
  {
    if k == 0 then []
    else FailedAttempts(channel, k - 1) + [Connect(channel, false), Sleep(BackoffTime(k - 1))]
  }

  /** What `connect_with_backoff(channel, retryAttempts)` does when the k-th connect call
      answers `script(k)`: its result and the calls and waits it makes. */
  function ExpectedRun(channel: ChannelId, script: nat -> ConnectOutcome, retryAttempts: int): BackoffRun
  {
    var budget := Budget(retryAttempts);
    var f := FirstDecisive(script, budget, 0);
    var failed := FailedAttempts(channel, f);
    if f == budget then BackoffRun(GaveUp, failed)
    else match script(f)
      case Accepted => BackoffRun(Joined(VoiceClient(channel)), failed + [Connect(channel, true)])
      case OsFailure => BackoffRun(GaveUp, failed + [Connect(channel, false)])
      case OtherFailure => BackoffRun(Raised, failed + [Connect(channel, false)])
  }

  /** The backoff loop. */
  method ConnectWithBackoff(channel: ChannelId, script: nat -> ConnectOutcome, retryAttempts: int)
    returns (result: ConnectResult, trace: seq<Action>)
    ensures BackoffRun(result, trace) == ExpectedRun(channel, script, retryAttempts)
  {
    trace := [];
    var attempt: nat := 0;
    while attempt < retryAttempts
      invariant attempt <= Budget(retryAttempts)
      invariant forall i :: 0 <= i < attempt ==> script(i).Closed?
      invariant trace == FailedAttempts(channel, attempt)
    {
      match script(attempt)
      case Accepted =>
        return Joined(VoiceClient(channel)), trace + [Connect(channel, true)];
      case OtherFailure =>
        return Raised, trace + [Connect(channel, false)];
      case OsFailure =>
        trace := trace + [Connect(channel, false)];
        break;
      case Closed =>
        trace := trace + [Connect(channel, false), Sleep(BackoffTime(attempt))];
        attempt := attempt + 1;
    }
    result := GaveUp;
  }

  lemma {:induction false} FailedAttemptsShape(channel: ChannelId, k: nat)
    ensures |FailedAttempts(channel, k)| == 2 * k
    ensures Connects(FailedAttempts(channel, k)) == k
    ensures Waits(FailedAttempts(channel, k)) == seq(k, i requires 0 <= i => BackoffTime(i))
    ensures forall a :: a in FailedAttempts(channel, k) ==> a == Connect(channel, false) || a.Sleep?
  {
    if k > 0 {
      FailedAttemptsShape(channel, k - 1);
      var tail := [Connect(channel, false), Sleep(BackoffTime(k - 1))];
      ConnectsAppend(FailedAttempts(channel, k - 1), tail);
      WaitsAppend(FailedAttempts(channel, k - 1), tail);
      assert Waits(tail) == [BackoffTime(k - 1)] by {
        assert tail[1..] == [Sleep(BackoffTime(k - 1))];
        assert tail[1..][1..] == [];
      }
      assert Connects(tail) == 1 by {
        assert tail[1..][1..] == [];
      }
    }
  }

  /** At most `retry_attempts` connect calls are made, at least one when it is positive, and
      none when it is 0 or less. */
  lemma CallsBounded(channel: ChannelId, script: nat -> ConnectOutcome, retryAttempts: int)
    ensures Connects(ExpectedRun(channel, script, retryAttempts).trace) <= Budget(retryAttempts)
    ensures retryAttempts > 0 ==> Connects(ExpectedRun(channel, script, retryAttempts).trace) >= 1
    ensures retryAttempts <= 0 ==> ExpectedRun(channel, script, retryAttempts) == BackoffRun(GaveUp, [])
  {
    var budget := Budget(retryAttempts);
    var f := FirstDecisive(script, budget, 0);
    FailedAttemptsShape(channel, f);
    if f < budget {
      ConnectsAppend(FailedAttempts(channel, f), [Connect(channel, false)]);
      ConnectsAppend(FailedAttempts(channel, f), [Connect(channel, true)]);
    }
  }

  /** The k-th wait is min(2^k, 32), never more than 32, and there is one wait per
      ConnectionClosed failure that precedes the decisive attempt. */
  lemma WaitSchedule(channel: ChannelId, script: nat -> ConnectOutcome, retryAttempts: int)
    ensures var w := Waits(ExpectedRun(channel, script, retryAttempts).trace);
      |w| == FirstDecisive(script, Budget(retryAttempts), 0) &&
      forall i :: 0 <= i < |w| ==> w[i] == BackoffTime(i) <= MaxBackoff
  {
    var budget := Budget(retryAttempts);
    var f := FirstDecisive(script, budget, 0);
    FailedAttemptsShape(channel, f);
    if f < budget {
      WaitsAppend(FailedAttempts(channel, f), [Connect(channel, false)]);
      WaitsAppend(FailedAttempts(channel, f), [Connect(channel, true)]);
    }
  }

  /** The first successful call is returned at once: a connection is returned exactly when
      some attempt within the budget succeeds after nothing but transient failures, and
      then exactly that many calls were made. */
  lemma FirstSuccessReturned(channel: ChannelId, script: nat -> ConnectOutcome, retryAttempts: int, k: nat)
    requires k < Budget(retryAttempts) && script(k).Accepted?
    requires forall i :: 0 <= i < k ==> script(i).Closed?
    ensures ExpectedRun(channel, script, retryAttempts).result == Joined(VoiceClient(channel))
    ensures Connects(ExpectedRun(channel, script, retryAttempts).trace) == k + 1
  {
    var f := FirstDecisive(script, Budget(retryAttempts), 0);
    assert f == k;
    FailedAttemptsShape(channel, k);
    ConnectsAppend(FailedAttempts(channel, k), [Connect(channel, true)]);
  }

  lemma JoinedOnlyAfterSuccess(channel: ChannelId, script: nat -> ConnectOutcome, retryAttempts: int)
    requires ExpectedRun(channel, script, retryAttempts).result.Joined?
    ensures exists k ::
              0 <= k < Budget(retryAttempts) && script(k).Accepted? && (forall i :: 0 <= i < k ==> script(i).Closed?)
  {
    var f := FirstDecisive(script, Budget(retryAttempts), 0);
    assert script(f).Accepted?;
  }

  /** An OSError ends the loop at once: no wait follows it and None is returned. */
  lemma OsErrorStops(channel: ChannelId, script: nat -> ConnectOutcome, retryAttempts: int, k: nat)
    requires k < Budget(retryAttempts) && script(k).OsFailure?
    requires forall i :: 0 <= i < k ==> script(i).Closed?
    ensures var run := ExpectedRun(channel, script, retryAttempts);
      run.result == GaveUp && Connects(run.trace) == k + 1 && |Waits(run.trace)| == k &&
      run.trace[|run.trace| - 1] == Connect(channel, false)
  {
    var f := FirstDecisive(script, Budget(retryAttempts), 0);
    assert f == k;
    FailedAttemptsShape(channel, k);
    ConnectsAppend(FailedAttempts(channel, k), [Connect(channel, false)]);
    WaitsAppend(FailedAttempts(channel, k), [Connect(channel, false)]);
  }

  /** When every attempt fails transiently, every one of them is made, the last one is still
      followed by its wait, and None is returned. */
  lemma ExhaustedWaitsAfterLast(channel: ChannelId, script: nat -> ConnectOutcome, retryAttempts: int)
    requires retryAttempts > 0
    requires forall i :: 0 <= i < retryAttempts ==> script(i).Closed?
    ensures var run := ExpectedRun(channel, script, retryAttempts);
      run.result == GaveUp && Connects(run.trace) == retryAttempts &&
      run.trace[|run.trace| - 1] == Sleep(BackoffTime(retryAttempts - 1))
  {
    var f := FirstDecisive(script, Budget(retryAttempts), 0);
    assert f == retryAttempts;
    FailedAttemptsShape(channel, f);
  }

  /** Every connect call targets the requested channel, and only the last call can
      establish a connection. */
  lemma RunTargetsChannel(channel: ChannelId, script: nat -> ConnectOutcome, retryAttempts: int)
    ensures var run := ExpectedRun(channel, script, retryAttempts);
      (forall a :: a in run.trace && a.Connect? ==> a.channel == channel) &&
      ConnectsOnlyWhenFree(false, run.trace) &&
      HeldAfter(false, run.trace) == run.result.Joined?
  {
    var f := FirstDecisive(script, Budget(retryAttempts), 0);
    FailedAttemptsShape(channel, f);
    FailedAttemptsFree(channel, f);
    var run := ExpectedRun(channel, script, retryAttempts);
    if f < Budget(retryAttempts) {
      var last := run.trace[|run.trace| - 1];
      assert run.trace == FailedAttempts(channel, f) + [last];
      FreeAppend(false, FailedAttempts(channel, f), [last]);
    }
  }

  lemma {:induction false} FailedAttemptsFree(channel: ChannelId, k: nat)
    ensures ConnectsOnlyWhenFree(false, FailedAttempts(channel, k))
    ensures !HeldAfter(false, FailedAttempts(channel, k))
  {
    if k > 0 {
      FailedAttemptsFree(channel, k - 1);
      var tail := [Connect(channel, false), Sleep(BackoffTime(k - 1))];
      FreeAppend(false, FailedAttempts(channel, k - 1), tail);
      assert tail[1..] == [Sleep(BackoffTime(k - 1))] && tail[1..][1..] == [];
      assert ConnectsOnlyWhenFree(false, tail[1..]) && !HeldAfter(false, tail[1..]);
    }
  }
}
