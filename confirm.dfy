/** The effect-confirmation loop that follows every submission in
    frontend/src/lib/sui.ts (lines 97-136, repeated at 165-203, 230-269 and
    291-332). After the signer returns a digest, the ledger is read at most
    `MaxRetries` times; the k-th failed read (k = 1, 2) is followed by a wait of
    `1000 * 2^k` ms, and the third failure throws before any wait. A read that
    succeeds ends the loop; its effects, when present, are passed once to the
    wallet's reporting function. Exhaustion and a failing report are caught
    and only logged.

    The ledger is an oracle: `oracle[i]` is what the (i+1)-th
    `getTransactionBlock` call yields, and a read past the end of `oracle`
    fails. */
module Confirm {
  import opened Common
  import opened Events

  const MaxRetries: nat := 3
  const BaseDelayMs: nat := 1000

  function Pow2(n: nat): (r: nat)
    ensures r >= 1
  {
    if n == 0 then 1 else 2 * Pow2(n - 1)
  }

  /** One `getTransactionBlock` read: it resolves with the (possibly null)
      `effects` field of the response, or rejects. */
  datatype FetchOutcome = Found(effects: Option<Effects>) | Rejected

  function Read(oracle: seq<FetchOutcome>, i: nat): FetchOutcome
  {
    if i < |oracle| then oracle[i] else Rejected
  }

  /** How the confirmation ended, all four being swallowed by the outer `try`:
      effects reported, read succeeded with null effects, report threw, or
      every read failed. */
  datatype ConfirmStatus = Confirmed | NoEffects | ReportFailed | Exhausted

  /** The observable result of one confirmation: the number of reads, the
      delays waited, the effects passed to `reportTransactionEffects` (None if
      it was not called) and the outcome. */
  datatype Confirmation = Confirmation(attempts: nat, waits: seq<nat>, reported: Option<Effects>, status: ConfirmStatus)

  /** The number of failed reads before the first successful one, looking at
      the first `n` reads only (`n` when all of them fail). */
  function LeadingFailures(oracle: seq<FetchOutcome>, n: nat): (k: nat)
    ensures k <= n
    ensures forall i :: 0 <= i < k ==> Read(oracle, i).Rejected?
    ensures k < n ==> Read(oracle, k).Found?
  {
    if n == 0 then 0
    else
      var k := LeadingFailures(oracle, n - 1);
      if k < n - 1 || Read(oracle, n - 1).Found? then k else n
  }

  /** The delays after the first `n` failed reads: the i-th failure (counting
      from 1) waits `BaseDelayMs * 2^i`. */
  function Backoff(n: nat): (w: seq<nat>)
    ensures |w| == n
    ensures forall i :: 0 <= i < n ==> w[i] == BaseDelayMs * Pow2(i + 1)
  {
    if n == 0 then [] else Backoff(n - 1) + [BaseDelayMs * Pow2(n)]
  }

  /** Reference definition of the loop's outcome, stated through the first
      successful read instead of through iteration. */
  function Expected(oracle: seq<FetchOutcome>, reportFails: bool): (c: Confirmation)
    ensures 1 <= c.attempts <= MaxRetries
    ensures c.waits == Backoff(c.attempts - 1)
    ensures c.status == Exhausted ==> c.attempts == MaxRetries && c.reported.None?
  {
    var k := LeadingFailures(oracle, MaxRetries);
    if k == MaxRetries then
      Confirmation(MaxRetries, Backoff(MaxRetries - 1), None, Exhausted)
    else
      match Read(oracle, k).effects
      case None => Confirmation(k + 1, Backoff(k), None, NoEffects)
      case Some(e) => Confirmation(k + 1, Backoff(k), Some(e), if reportFails then ReportFailed else Confirmed)
  }

  /** The log of `j` failed reads that were each followed by their delay. */
  function FailedRounds(digest: string, j: nat): seq<Event>
  {
    if j == 0 then [] else FailedRounds(digest, j - 1) + [FetchAttempt(digest), Waited(BaseDelayMs * Pow2(j))]
  }

  /** The tail of a confirmation log: the last read and the report call,
      if any. */
  function LastRound(digest: string, reported: Option<Effects>): seq<Event>
  {
    [FetchAttempt(digest)] + (if reported.Some? then [Reported(reported.value)] else [])
  }

  /** The log of a whole confirmation: the retried failures, the last read,
      and the report call when there was one. */
  function ConfirmLog(digest: string, c: Confirmation): seq<Event>
    requires c.attempts >= 1
  {
    FailedRounds(digest, c.attempts - 1) + LastRound(digest, c.reported)
  }

  /** The loop itself, as the source runs it: `retryCount` counts failures, is
      incremented before the delay is computed, and the failure that brings
      it to `MaxRetries` exits without waiting. */
  method AwaitEffects(digest: string, oracle: seq<FetchOutcome>, reportFails: bool)
    returns (c: Confirmation, log: seq<Event>)
    ensures c == Expected(oracle, reportFails)
    ensures log == ConfirmLog(digest, c)
  {
    var retryCount: nat := 0;
    var effects: Option<Effects> := None;
    var waits: seq<nat> := [];
    var exhausted := false;
    log := [];
    while retryCount < MaxRetries
      invariant forall i :: 0 <= i < retryCount ==> Read(oracle, i).Rejected?
      invariant waits == Backoff(retryCount)
      invariant log == FailedRounds(digest, retryCount)
      invariant retryCount < MaxRetries
      invariant !exhausted && effects.None?
      decreases MaxRetries - retryCount
    {
      log := log + [FetchAttempt(digest)];
      var response := Read(oracle, retryCount);
      if response.Found? {
        effects := response.effects;
        break;
      }
      retryCount := retryCount + 1;
      if retryCount >= MaxRetries {
        exhausted := true;
        break;
      }
      var waitTime := BaseDelayMs * Pow2(retryCount);
      waits := waits + [waitTime];
      log := log + [Waited(waitTime)];
    }
    ghost var k := LeadingFailures(oracle, MaxRetries);
    assert exhausted ==> k == MaxRetries;
    assert !exhausted ==> Read(oracle, retryCount).Found? && k == retryCount;
    if exhausted {
      c := Confirmation(retryCount, waits, None, Exhausted);
    } else if effects.Some? {
      log := log + [Reported(effects.value)];
      c := Confirmation(retryCount + 1, waits, effects, if reportFails then ReportFailed else Confirmed);
    } else {
      c := Confirmation(retryCount + 1, waits, None, NoEffects);
    }
  }

  /** The loop stops at the first successful read: with k earlier failures
      (k < MaxRetries), it makes exactly k + 1 reads and reports the effects
      of that read, if any. */
  lemma StopsAtFirstSuccess(oracle: seq<FetchOutcome>, reportFails: bool, k: nat)
    requires k < MaxRetries && Read(oracle, k).Found?
    requires forall i :: 0 <= i < k ==> Read(oracle, i).Rejected?
    ensures Expected(oracle, reportFails).attempts == k + 1
    ensures Expected(oracle, reportFails).reported == Read(oracle, k).effects
    ensures Expected(oracle, reportFails).status != Exhausted
  {
    var j := LeadingFailures(oracle, MaxRetries);
    assert j == k;
  }

  /** The loop gives up exactly when the first three reads all fail; it has
      then read three times, waited 2000 ms and 4000 ms (no third wait), and
      reported nothing. */
  lemma ExhaustedIffThreeFailures(oracle: seq<FetchOutcome>, reportFails: bool)
    ensures Expected(oracle, reportFails).status == Exhausted
        <==> forall i :: 0 <= i < MaxRetries ==> Read(oracle, i).Rejected?
    ensures Expected(oracle, reportFails).status == Exhausted ==>
              var c := Expected(oracle, reportFails);
              c.attempts == 3 && c.waits == [2000, 4000] && c.reported == None
  {
    var c := Expected(oracle, reportFails);
    var k := LeadingFailures(oracle, MaxRetries);
    if c.status == Exhausted {
      assert k == MaxRetries;
      assert Backoff(2) == [2000, 4000] by {
        assert Backoff(1) == [2000];
      }
    } else {
      assert Read(oracle, k).Found?;
    }
  }

  /** `effects` is handed to the wallet exactly when the loop ended on a read
      whose response carried non-null effects, and it is that read's effects. */
  lemma ReportsOnlyFetchedEffects(oracle: seq<FetchOutcome>, reportFails: bool)
    ensures var c := Expected(oracle, reportFails);
            c.reported.Some? <==>
              exists k :: 0 <= k < MaxRetries && k == c.attempts - 1 && Read(oracle, k).Found?
                          && Read(oracle, k).effects.Some?
    ensures var c := Expected(oracle, reportFails);
            c.reported.Some? ==> c.reported == Read(oracle, c.attempts - 1).effects
  {
    var c := Expected(oracle, reportFails);
    var k := LeadingFailures(oracle, MaxRetries);
    if k < MaxRetries {
      assert c.attempts - 1 == k;
    }
  }

  /** Sum of a sequence of delays. */
  function Sum(s: seq<nat>): nat
  {
    if |s| == 0 then 0 else Sum(s[..|s| - 1]) + s[|s| - 1]
  }

  lemma {:induction false} BackoffSum(n: nat)
    ensures Sum(Backoff(n)) + 2 * BaseDelayMs == BaseDelayMs * Pow2(n + 1)
  {
    if n > 0 {
      BackoffSum(n - 1);
      assert Backoff(n)[..n - 1] == Backoff(n - 1);
    }
  }

  /** The total delay of a confirmation that made `c.attempts` reads and
      waited the back-off of all but the last: 1000 * (2^1 + ... + 2^(N-1))
      = 1000 * (2^N - 2) ms, which is 6000 ms after three reads. */
  lemma WaitOfAttempts(c: Confirmation)
    requires 1 <= c.attempts && c.waits == Backoff(c.attempts - 1)
    ensures Sum(c.waits) + 2 * BaseDelayMs == BaseDelayMs * Pow2(c.attempts)
    ensures c.attempts == MaxRetries ==> Sum(c.waits) == 6000
  {
    BackoffSum(c.attempts - 1);
    if c.attempts == MaxRetries {
      assert Pow2(3) == 8;
    }
  }

  /** Before the read that succeeds on attempt N, the loop has waited
      1000 * (2^N - 2) ms in all; on exhaustion the total is 6000 ms. */
  lemma TotalWait(oracle: seq<FetchOutcome>, reportFails: bool)
    ensures var c := Expected(oracle, reportFails);
            Sum(c.waits) + 2 * BaseDelayMs == BaseDelayMs * Pow2(c.attempts)
    ensures Expected(oracle, reportFails).status == Exhausted ==> Sum(Expected(oracle, reportFails).waits) == 6000
  {
    WaitOfAttempts(Expected(oracle, reportFails));
  }

  lemma {:induction false} FailedRoundsShape(digest: string, j: nat)
    ensures CountKind(FailedRounds(digest, j), FetchKind) == j
    ensures CountKind(FailedRounds(digest, j), WaitKind) == j
    ensures CountKind(FailedRounds(digest, j), ReportKind) == 0
    ensures CountKind(FailedRounds(digest, j), SignKind) == 0
    ensures WaitsOf(FailedRounds(digest, j)) == Backoff(j)
  {
    if j > 0 {
      FailedRoundsShape(digest, j - 1);
      var prev := FailedRounds(digest, j - 1);
      var fetch, wait := FetchAttempt(digest), Waited(BaseDelayMs * Pow2(j));
      assert FailedRounds(digest, j) == prev + [fetch] + [wait];
      forall k: EventKind
        ensures CountKind(FailedRounds(digest, j), k) == CountKind(prev, k) + CountKind([fetch], k) + CountKind([wait], k)
      {
        CountKindAppend(prev, [fetch], k);
        CountKindAppend(prev + [fetch], [wait], k);
      }
      CountKindOne(fetch, FetchKind); CountKindOne(wait, FetchKind);
      CountKindOne(fetch, WaitKind); CountKindOne(wait, WaitKind);
      CountKindOne(fetch, ReportKind); CountKindOne(wait, ReportKind);
      CountKindOne(fetch, SignKind); CountKindOne(wait, SignKind);
      WaitsOfAppend(prev, [fetch]);
      WaitsOfAppend(prev + [fetch], [wait]);
      WaitsOfOne(fetch);
      WaitsOfOne(wait);
    }
  }

  lemma LastRoundShape(digest: string, reported: Option<Effects>)
    ensures var last := LastRound(digest, reported);
            && CountKind(last, FetchKind) == 1
            && WaitsOf(last) == []
            && CountKind(last, ReportKind) == (if reported.Some? then 1 else 0)
            && CountKind(last, SignKind) == 0
            && (reported.Some? ==> last[|last| - 1] == Reported(reported.value))
  {
    var fetch := FetchAttempt(digest);
    CountKindOne(fetch, FetchKind);
    CountKindOne(fetch, SignKind);
    CountKindOne(fetch, ReportKind);
    WaitsOfOne(fetch);
    if reported.Some? {
      var r := Reported(reported.value);
      forall k: EventKind
        ensures CountKind(LastRound(digest, reported), k) == CountKind([fetch], k) + CountKind([r], k)
      {
        CountKindAppend([fetch], [r], k);
      }
      CountKindOne(r, FetchKind);
      CountKindOne(r, SignKind);
      CountKindOne(r, ReportKind);
      WaitsOfAppend([fetch], [r]);
      WaitsOfOne(r);
    } else {
      assert LastRound(digest, reported) == [fetch];
    }
  }

  /** What the log of any confirmation with `c.attempts` reads contains: one
      read per attempt; the back-off delays, in order; one report call exactly
      when effects were reported, and as the last event; never a signing. */
  lemma LogOfAttempts(digest: string, c: Confirmation)
    requires 1 <= c.attempts && c.waits == Backoff(c.attempts - 1)
    ensures var log := ConfirmLog(digest, c);
            && CountKind(log, FetchKind) == c.attempts
            && WaitsOf(log) == c.waits
            && CountKind(log, ReportKind) == (if c.reported.Some? then 1 else 0)
            && (c.reported.Some? ==> log[|log| - 1] == Reported(c.reported.value))
            && CountKind(log, SignKind) == 0
  {
    var rounds := FailedRounds(digest, c.attempts - 1);
    var last := LastRound(digest, c.reported);
    assert (rounds + last)[|rounds + last| - 1] == last[|last| - 1];
    FailedRoundsShape(digest, c.attempts - 1);
    LastRoundShape(digest, c.reported);
    CountKindAppend(rounds, last, FetchKind);
    CountKindAppend(rounds, last, ReportKind);
    CountKindAppend(rounds, last, SignKind);
    WaitsOfAppend(rounds, last);
  }

  /** The log of the loop's own confirmation: at most three reads, its
      delays, at most one report and that last, and no signing. */
  lemma ConfirmLogShape(digest: string, oracle: seq<FetchOutcome>, reportFails: bool)
    ensures var c := Expected(oracle, reportFails);
            var log := ConfirmLog(digest, c);
            && CountKind(log, FetchKind) == c.attempts <= MaxRetries
            && WaitsOf(log) == c.waits
            && CountKind(log, ReportKind) == (if c.reported.Some? then 1 else 0)
            && (c.reported.Some? ==> log[|log| - 1] == Reported(c.reported.value))
            && CountKind(log, SignKind) == 0
  {
    LogOfAttempts(digest, Expected(oracle, reportFails));
  }
}
