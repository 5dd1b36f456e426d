/** The broadcaster's keep-alive cadence against the client's read timeout. */
module Presence {
  import Server
  import Indicator

  /** With a polling period of at most the client's five-second margin, an
      unchanged snapshot is re-sent at or before the moment the client's read
      timeout runs out, leaving out the time each poll spends querying. */
  lemma KeepAliveWithinReadTimeout(maxInterval: nat, pollingInterval: nat)
    requires 0 < pollingInterval <= Indicator.ReadMargin
    ensures (Server.MaxSkips(maxInterval, pollingInterval) + 1) * pollingInterval <= Indicator.ReadTimeout(maxInterval)
  {
    var n := Server.MaxSkips(maxInterval, pollingInterval);
    assert (n + 1) * pollingInterval == n * pollingInterval + pollingInterval;
  }

  /** At the edge, a five-second polling period with the default interval
      re-sends an unchanged snapshot exactly when the read timeout runs out:
      the margin is zero. */
  lemma FiveSecondPollingHasNoSlack()
    ensures (Server.MaxSkips(30000, 5000) + 1) * 5000 == Indicator.ReadTimeout(30000)
  {
  }

  /** With a polling period of six seconds and the default thirty-second
      interval, the re-send of an unchanged snapshot comes after the client's
      read timeout has run out. */
  lemma SlowPollingOutrunsReadTimeout()
    ensures Server.MaxSkips(30000, 6000) == 5
    ensures (Server.MaxSkips(30000, 6000) + 1) * 6000 > Indicator.ReadTimeout(30000)
  {
  }
}
