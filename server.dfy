/** The presence broadcaster: it samples the voice server's user list, turns it
    into a wire snapshot, decides whether to publish it (change detection plus a
    keep-alive throttle) and fans the published snapshots out to one FIFO
    outbox per connected subscriber, which the connection's handler drains to
    the wire after a handshake and one directly fetched snapshot. */
module Server {
  import opened Wire

  // ---------------------------------------------------------------------------
  // Snapshot source
  // ---------------------------------------------------------------------------

  /** A user record as the voice server's control API reports it (only the
      fields the broadcaster reads). */
  datatype RawUser = RawUser(name: string, deaf: bool, selfDeaf: bool, mute: bool, selfMute: bool, suppress: bool)

  /** What one query of the control API yields: `None` when connecting to it
      raises a socket exception, otherwise the users keyed by session id. */
  type ControlReply = Option<map<SessionId, RawUser>>

  /** The per-user status rule: deafness (server-side or self) wins over
      muting (server-side, self or suppressed); a user with none of these
      flags carries no status. */
  function Classify(u: RawUser): (status: Option<string>)
    ensures status == Some(DeafStatus) <==> u.deaf || u.selfDeaf
    ensures status == Some(MuteStatus) <==> !(u.deaf || u.selfDeaf) && (u.mute || u.selfMute || u.suppress)
    ensures status == None <==> !(u.deaf || u.selfDeaf || u.mute || u.selfMute || u.suppress)
  {
    if u.deaf || u.selfDeaf then Some(DeafStatus)
    else if u.mute || u.selfMute || u.suppress then Some(MuteStatus)
    else None
  }

  /** `s` is the wire snapshot of `reply`: the error marker for an unreachable
      control API, otherwise a `users` object with exactly the reported session
      ids, each mapped to the user's name and classified status. */
  ghost predicate Describes(reply: ControlReply, s: Snapshot)
  {
    match reply
    case None => s == OfflineMarker
    case Some(users) =>
      && s.error == None
      && s.users.Some?
      && s.users.value.Keys == users.Keys
      && forall id :: id in users ==> s.users.value[id] == UserEntry(users[id].name, Classify(users[id]))
  }

  /** A non-empty set has a member to pick. */
  lemma PickExists(s: set<SessionId>)
    requires s != {}
    ensures exists x :: x in s
  {
    assert (forall x :: x !in s) ==> s == {};
  }

  /** Builds the snapshot for one query of the control API, user by user. */
  method RetrieveServerState(reply: ControlReply) returns (s: Snapshot)
    ensures Describes(reply, s)
  {
    if reply.None? {
      return OfflineMarker;
    }
    var users := reply.value;
    var finalUsers: map<SessionId, UserEntry> := map[];
    var pending := users.Keys;
    while pending != {}
      invariant pending <= users.Keys
      invariant finalUsers.Keys == users.Keys - pending
      invariant forall id :: id in finalUsers ==> finalUsers[id] == UserEntry(users[id].name, Classify(users[id]))
      decreases pending
    {
      PickExists(pending);
      var id :| id in pending;
      var user := users[id];
      var finalUser := UserEntry(user.name, None);
      if user.deaf || user.selfDeaf {
        finalUser := finalUser.(status := Some(DeafStatus));
      } else if user.mute || user.selfMute || user.suppress {
        finalUser := finalUser.(status := Some(MuteStatus));
      }
      finalUsers := finalUsers[id := finalUser];
      pending := pending - {id};
    }
    s := Snapshot(None, Some(finalUsers));
  }

  // ---------------------------------------------------------------------------
  // Skip-throttle
  // ---------------------------------------------------------------------------

  /** The poller's decision state: how many polls in a row were suppressed and
      the last snapshot seen (`None` before the first poll). */
  datatype Throttle = Throttle(skipCount: nat, state: Option<Snapshot>)

  const Initial: Throttle := Throttle(0, None)

  /** How many polls in a row may be suppressed: the keep-alive interval
      divided by the polling period, rounded down.  Both are durations in the
      same unit. */
  function MaxSkips(maxInterval: nat, pollingInterval: nat): (n: nat)
    requires pollingInterval > 0
    ensures n * pollingInterval <= maxInterval < (n + 1) * pollingInterval
  {
    maxInterval / pollingInterval
  }

  /** One poll with snapshot `s`: the new throttle and whether `s` is published. */
  function Step(maxSkips: nat, t: Throttle, s: Snapshot): (r: (Throttle, bool))
    ensures r.0.state == Some(s)
    ensures r.1 <==> !(t.skipCount < maxSkips && t.state == Some(s))
    ensures t.state != Some(s) ==> r.1
    ensures t.skipCount >= maxSkips ==> r.1
    ensures r.1 ==> r.0.skipCount == 0
    ensures !r.1 ==> r.0.skipCount == t.skipCount + 1
    ensures t.skipCount <= maxSkips ==> r.0.skipCount <= maxSkips
  {
    if t.skipCount < maxSkips && Some(s) == t.state then (Throttle(t.skipCount + 1, Some(s)), false)
    else (Throttle(0, Some(s)), true)
  }

  /** The publish decisions of a run of polls. */
  function Run(maxSkips: nat, t: Throttle, polls: seq<Snapshot>): (r: seq<bool>)
    ensures |r| == |polls|
    ensures forall i {:trigger r[i]} :: 0 <= i < |polls| ==> r[i] == Step(maxSkips, After(maxSkips, t, polls[..i]), polls[i]).1
    decreases |polls|
  {
    if polls == [] then []
    else
      var next := Step(maxSkips, t, polls[0]).0;
      var rest := Run(maxSkips, next, polls[1..]);
      assert forall i :: 0 < i < |polls| ==> polls[..i][1..] == polls[1..][..i - 1];
      assert forall i :: 0 < i < |polls| ==> After(maxSkips, t, polls[..i]) == After(maxSkips, next, polls[1..][..i - 1]);
      [Step(maxSkips, t, polls[0]).1] + rest
  }

  /** The throttle after a run of polls. */
  function After(maxSkips: nat, t: Throttle, polls: seq<Snapshot>): (r: Throttle)
    ensures r.state == if polls == [] then t.state else Some(polls[|polls| - 1])
    decreases |polls|
  {
    if polls == [] then t else After(maxSkips, Step(maxSkips, t, polls[0]).0, polls[1..])
  }

  /** `skipCount` never exceeds `maxSkips`. */
  lemma {:induction false} AfterKeepsBound(maxSkips: nat, t: Throttle, polls: seq<Snapshot>)
    requires t.skipCount <= maxSkips
    ensures After(maxSkips, t, polls).skipCount <= maxSkips
    decreases |polls|
  {
    if polls != [] {
      AfterKeepsBound(maxSkips, Step(maxSkips, t, polls[0]).0, polls[1..]);
    }
  }

  /** A run can be cut anywhere: the second part starts from the throttle the
      first part left. */
  lemma {:induction false} RunSplit(maxSkips: nat, t: Throttle, a: seq<Snapshot>, b: seq<Snapshot>)
    ensures Run(maxSkips, t, a + b) == Run(maxSkips, t, a) + Run(maxSkips, After(maxSkips, t, a), b)
    decreases |a|
  {
    if a != [] {
      var next := Step(maxSkips, t, a[0]).0;
      assert (a + b)[0] == a[0];
      assert (a + b)[1..] == a[1..] + b;
      RunSplit(maxSkips, next, a[1..], b);
      assert After(maxSkips, t, a) == After(maxSkips, next, a[1..]);
      calc {
        Run(maxSkips, t, a + b);
        [Step(maxSkips, t, a[0]).1] + Run(maxSkips, next, a[1..] + b);
        [Step(maxSkips, t, a[0]).1] + (Run(maxSkips, next, a[1..]) + Run(maxSkips, After(maxSkips, next, a[1..]), b));
        ([Step(maxSkips, t, a[0]).1] + Run(maxSkips, next, a[1..])) + Run(maxSkips, After(maxSkips, t, a), b);
        Run(maxSkips, t, a) + Run(maxSkips, After(maxSkips, t, a), b);
      }
    } else {
      assert a + b == b;
    }
  }

  /** From a throttle with `k` skips, some poll among the next
      `maxSkips - k + 1` publishes. */
  lemma {:induction false} PublishesWithin(maxSkips: nat, t: Throttle, polls: seq<Snapshot>)
    requires t.skipCount <= maxSkips
    requires |polls| > maxSkips - t.skipCount
    ensures true in Run(maxSkips, t, polls)
    decreases |polls|
  {
    var r := Run(maxSkips, t, polls);
    if !Step(maxSkips, t, polls[0]).1 {
      PublishesWithin(maxSkips, Step(maxSkips, t, polls[0]).0, polls[1..]);
      assert r[1..] == Run(maxSkips, Step(maxSkips, t, polls[0]).0, polls[1..]);
    } else {
      assert r[0];
    }
  }

  /** Staleness bound: among any `maxSkips + 1` consecutive polls of a poller
      started fresh, at least one publishes. */
  lemma WindowPublishes(maxSkips: nat, polls: seq<Snapshot>, i: nat)
    requires i + maxSkips + 1 <= |polls|
    ensures true in Run(maxSkips, Initial, polls)[i..i + maxSkips + 1]
  {
    var pre, window, post := polls[..i], polls[i..i + maxSkips + 1], polls[i + maxSkips + 1..];
    assert polls == pre + (window + post);
    RunSplit(maxSkips, Initial, pre, window + post);
    var mid := After(maxSkips, Initial, pre);
    AfterKeepsBound(maxSkips, Initial, pre);
    RunSplit(maxSkips, mid, window, post);
    PublishesWithin(maxSkips, mid, window);
    assert Run(maxSkips, Initial, polls)[i..i + maxSkips + 1] == Run(maxSkips, mid, window);
  }

  /** `n` copies of `x`. */
  function Repeat<T>(x: T, n: nat): (r: seq<T>)
    ensures |r| == n && forall i :: 0 <= i < n ==> r[i] == x
  {
    seq(n, _ => x)
  }

  /** Keep-alive cadence: while the snapshot does not change, a poller that has
      skipped `k` times suppresses the next `maxSkips - k` polls and publishes
      the one after. */
  lemma {:induction false} SteadyCadence(maxSkips: nat, k: nat, s: Snapshot)
    requires k <= maxSkips
    ensures Run(maxSkips, Throttle(k, Some(s)), Repeat(s, maxSkips - k + 1)) == Repeat(false, maxSkips - k) + [true]
    decreases maxSkips - k
  {
    var polls := Repeat(s, maxSkips - k + 1);
    if k < maxSkips {
      assert polls[1..] == Repeat(s, maxSkips - (k + 1) + 1);
      SteadyCadence(maxSkips, k + 1, s);
      assert Repeat(false, maxSkips - k) + [true] == [false] + (Repeat(false, maxSkips - (k + 1)) + [true]);
    }
  }

  /** The keep-alive period in time: with an unchanged snapshot, a poller
      that has just published publishes again after `MaxSkips + 1` polls.
      Those polls span strictly more than the keep-alive interval, by at most
      one polling period. */
  lemma KeepAlivePeriod(maxInterval: nat, pollingInterval: nat, s: Snapshot)
    requires pollingInterval > 0
    ensures var n := MaxSkips(maxInterval, pollingInterval);
      && Run(n, Throttle(0, Some(s)), Repeat(s, n + 1)) == Repeat(false, n) + [true]
      && maxInterval < (n + 1) * pollingInterval <= maxInterval + pollingInterval
  {
    var n := MaxSkips(maxInterval, pollingInterval);
    SteadyCadence(n, 0, s);
    assert (n + 1) * pollingInterval == n * pollingInterval + pollingInterval;
  }

  // ---------------------------------------------------------------------------
  // Subscriber registry
  // ---------------------------------------------------------------------------

  /** `s` has no element twice. */
  ghost predicate Distinct<T>(s: seq<T>)
  {
    forall i, j :: 0 <= i < j < |s| ==> s[i] != s[j]
  }

  /** `s` without the first occurrence of `x` (deque removal). */
  function RemoveFirst<T(==)>(s: seq<T>, x: T): (r: seq<T>)
    ensures x !in s ==> r == s
    ensures x in s ==> |r| == |s| - 1
    ensures multiset(r) == multiset(s) - multiset{x}
  {
    if s == [] then []
    else
      assert s == [s[0]] + s[1..];
      if s[0] == x then s[1..]
      else [s[0]] + RemoveFirst(s[1..], x)
  }

  /** The occurrence removed is the first one, and the elements before and
      after it keep their order. */
  lemma {:induction false} RemoveFirstAt<T>(s: seq<T>, x: T, i: nat)
    requires i < |s| && s[i] == x && x !in s[..i]
    ensures RemoveFirst(s, x) == s[..i] + s[i + 1..]
    decreases i
  {
    if i > 0 {
      assert s[0] in s[..i];
      assert s[1..][..i - 1] == s[..i][1..];
      RemoveFirstAt(s[1..], x, i - 1);
      assert s[..i] == [s[0]] + s[1..][..i - 1];
      assert s[1..][i..] == s[i + 1..];
    }
  }

  /** Removing from a sequence without repetitions leaves one without
      repetitions, without `x`, and with every other element still present. */
  lemma {:induction false} RemoveFirstDistinct<T>(s: seq<T>, x: T)
    requires Distinct(s)
    ensures Distinct(RemoveFirst(s, x)) && x !in RemoveFirst(s, x)
    ensures forall y :: y in RemoveFirst(s, x) <==> y in s && y != x
  {
    if s != [] && s[0] != x {
      assert Distinct(s[1..]);
      RemoveFirstDistinct(s[1..], x);
      var r := RemoveFirst(s, x);
      assert r == [s[0]] + RemoveFirst(s[1..], x);
      assert multiset(RemoveFirst(s[1..], x)) <= multiset(s[1..]);
      assert s[0] !in s[1..];
    }
  }

  /** A subscriber's outbox: an unbounded FIFO queue.  `received` is every
      snapshot ever put and `taken` every snapshot ever got. */
  class Outbox {
    var items: seq<Snapshot>
    ghost var received: seq<Snapshot>
    ghost var taken: seq<Snapshot>
    /** How many snapshots had been published when this outbox was registered. */
    ghost const joinedAt: nat

    ghost predicate Valid()
      reads this
    {
      received == taken + items
    }

    constructor (ghost joinedAt: nat)
      ensures Valid() && this.joinedAt == joinedAt
      ensures items == [] && received == [] && taken == []
    {
      this.joinedAt := joinedAt;
      items, received, taken := [], [], [];
    }

    method Put(s: Snapshot)
      requires Valid()
      modifies this
      ensures Valid()
      ensures items == old(items) + [s] && received == old(received) + [s] && taken == old(taken)
    {
      items := items + [s];
      received := received + [s];
    }

    /** Takes the oldest pending snapshot; `None` where the source's blocking
        `get` would wait. */
    method Get() returns (s: Option<Snapshot>)
      requires Valid()
      modifies this
      ensures Valid() && received == old(received)
      ensures old(items) == [] ==> s == None && items == old(items) && taken == old(taken)
      ensures old(items) != [] ==>
        s == Some(old(items)[0]) && items == old(items)[1..] && taken == old(taken) + [old(items)[0]]
    {
      if items == [] {
        return None;
      }
      s := Some(items[0]);
      taken := taken + [items[0]];
      items := items[1..];
    }
  }

  /** Appends `s` to every outbox of `qs`, each exactly once. */
  method Broadcast(qs: seq<Outbox>, s: Snapshot)
    requires Distinct(qs)
    requires forall q :: q in qs ==> q.Valid()
    modifies qs
    ensures forall q :: q in qs ==>
      && q.Valid()
      && q.items == old(q.items) + [s]
      && q.received == old(q.received) + [s]
      && q.taken == old(q.taken)
  {
    for i := 0 to |qs|
      invariant forall j :: 0 <= j < i ==>
        && qs[j].Valid()
        && qs[j].items == old(qs[j].items) + [s]
        && qs[j].received == old(qs[j].received) + [s]
        && qs[j].taken == old(qs[j].taken)
      invariant forall j :: i <= j < |qs| ==>
        && qs[j].Valid()
        && qs[j].items == old(qs[j].items)
        && qs[j].received == old(qs[j].received)
        && qs[j].taken == old(qs[j].taken)
    {
      qs[i].Put(s);
    }
  }

  /** The poller together with the registry of outboxes it publishes to.
      `published` is every snapshot the poller decided to publish. */
  class Broadcaster {
    const maxInterval: nat
    const maxSkips: nat
    var skipCount: nat
    var state: Option<Snapshot>
    var queues: seq<Outbox>
    ghost var published: seq<Snapshot>

    /** The skip counter is bounded, no outbox is registered twice, and every
        registered outbox has received exactly what was published since it
        joined, in order. */
    ghost predicate Valid()
      reads this, queues
    {
      && skipCount <= maxSkips
      && Distinct(queues)
      && forall q :: q in queues ==>
           q.Valid() && q.joinedAt <= |published| && q.received == published[q.joinedAt..]
    }

    function ThrottleState(): Throttle
      reads this
    {
      Throttle(skipCount, state)
    }

    constructor (maxInterval: nat, pollingInterval: nat)
      requires pollingInterval > 0
      ensures Valid()
      ensures this.maxInterval == maxInterval && maxSkips == MaxSkips(maxInterval, pollingInterval)
      ensures ThrottleState() == Initial && queues == [] && published == []
    {
      this.maxInterval := maxInterval;
      maxSkips := maxInterval / pollingInterval;
      skipCount, state := 0, None;
      queues, published := [], [];
    }

    /** A connection's setup: appends one new, empty outbox to the registry. */
    method Register() returns (q: Outbox)
      requires Valid()
      modifies this
      ensures Valid() && fresh(q)
      ensures q.items == [] && q.taken == [] && q.received == []
      ensures queues == old(queues) + [q]
      ensures ThrottleState() == old(ThrottleState()) && published == old(published)
    {
      q := new Outbox(|published|);
      queues := queues + [q];
    }

    /** A connection's teardown: removes exactly its outbox from the registry. */
    method Deregister(q: Outbox)
      requires Valid() && q in queues
      modifies this
      ensures Valid()
      ensures queues == RemoveFirst(old(queues), q) && q !in queues
      ensures forall r :: r in old(queues) && r != q ==> r in queues
      ensures ThrottleState() == old(ThrottleState()) && published == old(published)
    {
      RemoveFirstDistinct(queues, q);
      queues := RemoveFirst(queues, q);
    }

    /** One cycle of the poller with freshly sampled snapshot `newState`:
        suppress it and count the skip, or reset the counter and append it to
        every registered outbox. */
    method Poll(newState: Snapshot) returns (publish: bool)
      requires Valid()
      modifies this, queues
      ensures Valid()
      ensures (ThrottleState(), publish) == Step(maxSkips, old(ThrottleState()), newState)
      ensures queues == old(queues)
      ensures published == if publish then old(published) + [newState] else old(published)
      ensures forall q :: q in queues ==>
        && q.taken == old(q.taken)
        && q.items == if publish then old(q.items) + [newState] else old(q.items)
    {
      var oldState := state;
      state := Some(newState);
      if skipCount < maxSkips && state == oldState {
        skipCount := skipCount + 1;
        publish := false;
      } else {
        skipCount := 0;
        publish := true;
        Broadcast(queues, newState);
        published := published + [newState];
        forall q | q in queues
          ensures q.Valid() && q.joinedAt <= |published| && q.received == published[q.joinedAt..]
        {
          assert published[q.joinedAt..] == old(published)[q.joinedAt..] + [newState];
        }
      }
    }
  }

  // ---------------------------------------------------------------------------
  // Connection handler
  // ---------------------------------------------------------------------------

  /** One subscriber connection: its outbox and every line written to it. */
  class Handler {
    const outbox: Outbox
    const maxInterval: nat
    var sent: seq<Message>
    /** Whether the handshake and the direct snapshot have been sent. */
    ghost var started: bool
    /** The snapshot fetched directly when the connection was handled. */
    ghost var first: Snapshot

    /** Before handling nothing is sent; afterwards the connection has seen the
        handshake, the direct snapshot and then what it took from its outbox. */
    ghost predicate Valid()
      reads this, outbox
    {
      && outbox.Valid()
      && if started then sent == [ParamsMsg(maxInterval), StateMsg(first)] + StateMsgs(outbox.taken)
         else sent == [] && outbox.taken == []
    }

    /** Setup of a new connection: registers a fresh outbox. */
    constructor Setup(registry: Broadcaster)
      requires registry.Valid()
      modifies registry
      ensures Valid() && !started && fresh(outbox)
      ensures maxInterval == registry.maxInterval
      ensures registry.Valid() && registry.queues == old(registry.queues) + [outbox]
      ensures registry.ThrottleState() == old(registry.ThrottleState()) && registry.published == old(registry.published)
    {
      var q := registry.Register();
      outbox := q;
      maxInterval := registry.maxInterval;
      sent := [];
      started := false;
      first := OfflineMarker;
    }

    /** The start of handling: the handshake line, then one snapshot fetched
        directly from the control API. */
    method Handle(reply: ControlReply)
      requires Valid() && !started
      modifies this
      ensures Valid() && started && Describes(reply, first)
      ensures sent == [ParamsMsg(maxInterval), StateMsg(first)]
    {
      sent := sent + [ParamsMsg(maxInterval)];
      var state := RetrieveServerState(reply);
      sent := sent + [StateMsg(state)];
      first := state;
      started := true;
    }

    /** One turn of the forwarding loop: the oldest outbox item, if any, is
        written to the connection. */
    method Forward() returns (forwarded: bool)
      requires Valid() && started
      modifies this, outbox
      ensures Valid() && started && first == old(first)
      ensures outbox.received == old(outbox.received)
      ensures forwarded <==> old(outbox.items) != []
      ensures sent == if forwarded then old(sent) + [StateMsg(old(outbox.items)[0])] else old(sent)
      ensures outbox.items == if forwarded then old(outbox.items)[1..] else old(outbox.items)
      ensures outbox.taken == if forwarded then old(outbox.taken) + [old(outbox.items)[0]] else old(outbox.taken)
    {
      var next := outbox.Get();
      if next.Some? {
        sent := sent + [StateMsg(next.value)];
        assert StateMsgs(outbox.taken) == StateMsgs(old(outbox.taken)) + [StateMsg(next.value)];
        forwarded := true;
      } else {
        forwarded := false;
      }
    }

    /** Teardown of the connection: its outbox leaves the registry. */
    method Finish(registry: Broadcaster)
      requires registry.Valid() && outbox in registry.queues
      modifies registry
      ensures registry.Valid()
      ensures registry.queues == RemoveFirst(old(registry.queues), outbox) && outbox !in registry.queues
      ensures registry.ThrottleState() == old(registry.ThrottleState()) && registry.published == old(registry.published)
    {
      registry.Deregister(outbox);
    }
  }

  /** FIFO delivery: a registered, handled connection has written the
      handshake, its direct snapshot and then a prefix of exactly the snapshots
      published since it joined, in publication order. */
  lemma DeliveredInPublishOrder(b: Broadcaster, h: Handler)
    requires b.Valid() && h.Valid() && h.started && h.outbox in b.queues
    ensures |h.sent| >= 2 && h.sent[0] == ParamsMsg(h.maxInterval) && h.sent[1] == StateMsg(h.first)
    ensures h.outbox.joinedAt + |h.sent| - 2 <= |b.published|
    ensures h.sent[2..] == StateMsgs(b.published[h.outbox.joinedAt .. h.outbox.joinedAt + |h.sent| - 2])
    ensures h.sent[2..] + StateMsgs(h.outbox.items) == StateMsgs(b.published[h.outbox.joinedAt..])
  {
    var q := h.outbox;
    assert h.sent[2..] == StateMsgs(q.taken);
    assert q.received == q.taken + q.items == b.published[q.joinedAt..];
    assert q.taken == q.received[..|q.taken|];
    StateMsgsAppend(q.taken, q.items);
  }
}
