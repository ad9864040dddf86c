/**
  The shared bar-staleness measurement (src/engine/bar_freshness.py). A bar is stamped at its
  open; times are in seconds.
 */
module BarFreshness {
  import opened Reals

  /** Seconds since the bar closed. */
  function BarStaleness(open: real, period: real, now: real): real { Max(now - (open + period), 0.0) }

  function StaleAfter(period: real, latency: real): real { period + latency }

  // ---------- a feed on schedule ----------

  /** Bar `k` of a gapless feed opens here. */
  function OpenOf(first: real, period: real, k: nat): real { first + k as real * period }

  function CloseOf(first: real, period: real, k: nat): real { OpenOf(first, period, k) + period }

  /** Bar `k` has arrived by `now` and no later bar has. */
  predicate IsLatest(arrives: nat -> real, k: nat, now: real) {
    arrives(k) <= now < arrives(k + 1)
  }

  /** A feed is judged stale exactly when the bar after the latest one is overdue. */
  lemma StaleExactlyWhenNextBarIsOverdue(first: real, period: real, latency: real, k: nat, now: real)
    requires period + latency >= 0.0
    ensures BarStaleness(OpenOf(first, period, k), period, now) > StaleAfter(period, latency)
            <==> now > CloseOf(first, period, k + 1) + latency
  {
    assert (k + 1) as real * period == k as real * period + period;
  }

  /** If every bar arrives within `latency` of its close, no instant finds the feed stale. */
  lemma PunctualFeedIsNeverStale(first: real, period: real, latency: real, arrives: nat -> real, k: nat, now: real)
    requires period + latency >= 0.0
    requires forall j: nat :: arrives(j) <= CloseOf(first, period, j) + latency
    requires IsLatest(arrives, k, now)
    ensures BarStaleness(OpenOf(first, period, k), period, now) <= StaleAfter(period, latency)
  {
    StaleExactlyWhenNextBarIsOverdue(first, period, latency, k, now);
  }
}
