/** What the limiter decides, told by counting: accepts of the key, and keys, in the last `windowSeconds` seconds. */
module RateLimiterMeaning {
  import opened Common
  import opened RateLimiter

  /** The accepts of the key in the window of the policy that ends now. */
  function Recent(p: Policy, log: seq<Accept>, key: string, now: Time): set<nat> {
    set i: nat | i < |log| && log[i].key == key && now - 1000 * p.windowSeconds < log[i].at <= now
  }

  /** The keys with such accepts. */
  ghost predicate IsRecentKey(p: Policy, log: seq<Accept>, key: string, now: Time) {
    exists i: nat :: i in Recent(p, log, key, now)
  }

  lemma {:induction false} LiveCounts(p: Policy, log: seq<Accept>, key: string, now: Time)
    ensures |Live(p, log, key, now)| == |Recent(p, log, key, now)|
    decreases |log|
  {
    if log != [] {
      var n: nat := |log| - 1;
      LiveCounts(p, log[..n], key, now);
      var before, all := Recent(p, log[..n], key, now), Recent(p, log, key, now);
      assert n !in before;
      if log[n].key == key && now - 1000 * p.windowSeconds < log[n].at <= now { assert all == before + {n}; }
      else { assert all == before; }
    }
  }

  lemma LiveKeysAre(p: Policy, log: seq<Accept>, now: Time)
    ensures forall key :: key in LiveKeys(p, log, now) <==> IsRecentKey(p, log, key, now)
  {
    forall key ensures key in LiveKeys(p, log, now) <==> IsRecentKey(p, log, key, now) {
      if key in LiveKeys(p, log, now) {
        var a :| a in log && now - p.Window() < a.at <= now && a.key == key;
        var i: nat :| i < |log| && log[i] == a;
        assert i in Recent(p, log, key, now);
      }
      if i: nat :| i in Recent(p, log, key, now) { assert log[i] in log; }
    }
  }

  /** What a decision says of the log it was taken on: allowed exactly when the key has fewer than limit plus burst
      recent accepts, and is itself recent or one of fewer than `maxKeys`; then what is left counts down to zero. */
  lemma DecisionMeans(p: Policy, log: seq<Accept>, key: string, now: Time, d: Decision, recentKeys: set<string>)
    requires Answers(p, log, key, now, d)
    requires forall k :: k in recentKeys <==> IsRecentKey(p, log, k, now)
    ensures d.allowed <==> && |Recent(p, log, key, now)| < p.limit + p.burst
                           && (key in recentKeys || |recentKeys| < p.maxKeys)
    ensures d.allowed ==> d.remaining + |Recent(p, log, key, now)| + 1 == p.limit + p.burst
    ensures !d.allowed ==> d.remaining == 0
    ensures d.allowed <==> d.retryAfterSeconds == 0
  {
    LiveCounts(p, log, key, now);
    LiveKeysAre(p, log, now);
    assert recentKeys == LiveKeys(p, log, now);
    if key in recentKeys { var i: nat :| i in Recent(p, log, key, now); }
    else { assert Recent(p, log, key, now) == {}; }
  }

  /** In every log a run can produce, no more than limit plus burst accepts of a key in any window, ending whenever. */
  lemma WindowIsBounded(p: Policy, log: seq<Accept>, key: string, instant: Time)
    requires Admissible(p, log)
    ensures |Recent(p, log, key, instant)| <= p.limit + p.burst
  {
    LiveCounts(p, log, key, instant);
    EveryWindowIsBounded(p, log, key, instant);
  }
}
