# mumble-online-indicator, modelled in Dafny

The system has two parts: a presence broadcaster that sits next to a Mumble
voice server, and a desktop client that shows who is online.

The broadcaster (`server.py`):

- polls the voice server's control API;
- turns the user list into a wire snapshot, where every user is marked deaf,
  mute or neither, and an unreachable API becomes the error marker
  `{"error": "offline"}`;
- runs every snapshot through a skip-throttle: a changed snapshot is published
  at once, and an unchanged one at least every `max_skips + 1` polls as a
  keep-alive;
- appends each published snapshot to one FIFO outbox per connected subscriber.

Each subscriber connection registers its outbox on setup and removes it on
teardown. It writes the handshake `{"params": {"max_interval": ...}}`, one
directly fetched snapshot, and then its outbox in FIFO order.

The client (`online-indicator.py`):

- connects, reads the handshake, and streams snapshots with a read timeout of
  `max_interval + 5` seconds;
- hands every snapshot to a status view;
- tells the view "offline" at start-up and after every connection attempt
  ends, before reconnecting.

The view renders a state with one of two formatters (`Online: 1/2` or
`✔️ 1 | 🕘 1`), which count users with filtered names left out. It rewrites
its one-line output file only when the state differs from the one it last
saw, and writes the placeholder `-` on start and on shutdown.

The files:

- `wire.dfy` (module `Wire`) holds the protocol values shared by both sides.
- `server.dfy` (module `Server`) holds:
  - the snapshot builder, a loop over the reported users;
  - the throttle, as a step function with lemmas about runs of polls;
  - the outbox and broadcaster classes, with register, deregister and poll;
  - the connection handler class.
- `indicator.dfy` (module `Indicator`) holds:
  - the two formatters, pure functions;
  - the status view, a class whose `lines` field is every line ever written
    to the file and whose `content` is the file's current content;
  - the streaming and reconnect loops, as methods driven by scripted
    connection attempts.
- `presence.dfy` (module `Presence`) sets the server's keep-alive cadence
  against the client's read timeout.

The methods are proved in one of two ways:

- Against a specification function:
  - `Poll` against the step function `Step`;
  - the view's `Update` against the recursive `Written`;
  - `Stream` against the recursive `StreamRun`;
  - `MumbleOnlineClient` against `Session`;
  - `ReconnectAgent` against the recursive `AgentRun`.

  The properties are then proved about those functions as lemmas.
- By direct postconditions:
  - `RetrieveServerState` against the predicate `Describes`;
  - the registry, outbox and handler methods and the view's `Enter` and `Exit`
    state their new state outright.

Some behaviours of the code are worth knowing, because a reader might expect
otherwise. The model follows the code in each case.

- **Undecodable lines crash the client.** `reconnect_agent` catches only
  socket errors and timeouts (online-indicator.py:122). A line that is not
  JSON, an empty handshake, or a handshake without `params` raises an error
  that nothing catches, so the client stops. `Session`, `StreamRun` and
  `AgentRun` end such an attempt as `Crashed` and the loop stops. Only
  `Dropped` attempts are retried.
- **Dedup compares states, not text.** The view compares the state with the
  one it remembers, not the rendered text (online-indicator.py:78). Two
  different states that render alike are written twice.
- **The keep-alive comes later than `max_interval`.** The server's `--max`
  option is described as the maximum interval between updates
  (server.py:110-111). An unchanged snapshot is re-sent every
  `max_skips + 1` polls, which is `(floor(max / P) + 1) * P` for polling
  period `P` (server.py:82, 88-91). That is always more than `max_interval`,
  by at most one period, before any time spent querying the control API.
  With the defaults (30 s, 0.5 s) it is 61 polls, or 30.5 s.
  - `Server.KeepAlivePeriod` states the gap.
  - `Presence.KeepAliveWithinReadTimeout` shows that the re-send comes at
    or before the client's read timeout (online-indicator.py:102) whenever
    `P <= 5 s`, leaving out the time each poll spends querying.
  - `Presence.FiveSecondPollingHasNoSlack` shows that at `P = 5 s`, with
    `max_interval` a multiple of `P`, the margin is exactly zero. The model
    counts a read that takes exactly the timeout as on time. The real server
    also spends time querying on every poll, so at that edge the client can
    time out.
  - `Presence.SlowPollingOutrunsReadTimeout` shows that it does not absorb
    it for `P = 6 s` with the default interval: the client times out and
    reconnects before the unchanged snapshot is re-sent.

## Model

| member | source | states |
|---|---|---|
| Server.Classify | server.py:32-35 | status is deaf iff the user is deaf or self-deaf; mute iff not deaf and muted, self-muted or suppressed; absent iff none of the five flags is set |
| Server.RetrieveServerState | server.py:19-39 | an unreachable control API yields the error marker `{"error": "offline"}`; otherwise the snapshot has no error and its users map has exactly the reported session ids, each with the user's name and the classified status |
| Server.MaxSkips | server.py:82 | `max_skips` is the keep-alive interval divided by the polling period, rounded down: `n * polling <= max < (n + 1) * polling` |
| Server.Step | server.py:86-93 | the snapshot is published iff the counter is at `max_skips` or the snapshot changed; the new snapshot is remembered; a changed snapshot is published; reaching `max_skips` publishes; publishing resets the counter; suppressing adds one to it; the bound `skip_count <= max_skips` is kept |
| Server.Run | server.py:85-93 | one publish decision per poll: the decision at poll `i` is what `Step` decides for that poll's snapshot from the throttle the earlier polls left, `After(polls[..i])` |
| Server.After | server.py:85-93 | after a run of polls the throttle remembers the last polled snapshot, or its old one when there were no polls |
| Server.AfterKeepsBound | server.py:82-93 | from a bounded counter, any run of polls leaves `skip_count <= max_skips` |
| Server.RunSplit | server.py:85-93 | the publish decisions of two consecutive runs of polls are those of the first run followed by those of the second, which starts from the throttle the first left |
| Server.PublishesWithin | server.py:88-93 | from a counter at `k`, some poll among the next `max_skips - k + 1` publishes |
| Server.WindowPublishes | server.py:82-93 | staleness bound: in any window of `max_skips + 1` consecutive polls of a fresh poller, at least one poll publishes |
| Server.KeepAlivePeriod | server.py:82-91 | with an unchanged snapshot, the next publish after a publish comes at poll `MaxSkips + 1`, which spans strictly more than `max_interval` and at most one polling period more |
| Server.SteadyCadence | server.py:88-91 | while the snapshot stays the same, a poller at `k` skips suppresses exactly the next `max_skips - k` polls and publishes the one after |
| Server.RemoveFirst | server.py:53 | deque removal takes out one copy of the element: multiset minus one copy, length one less (`RemoveFirstAt` says which copy). The model's function is total, so it leaves a sequence without the element unchanged; the source raises `ValueError` there, and `Deregister`'s `requires q in queues` rules that case out |
| Server.RemoveFirstAt | server.py:53 | the copy removed is the first occurrence: when `x` first occurs at `i`, the result is `s[..i] + s[i + 1..]`, so the other elements keep their order |
| Server.RemoveFirstDistinct | server.py:49-53 | in a registry without duplicates, removal leaves no duplicates, removes the element entirely and keeps every other element |
| Server.Outbox.Put | server.py:93 | the snapshot is appended to the queue's tail; what was taken is unchanged |
| Server.Outbox.Get | server.py:64 | the head of the queue is removed and returned; an empty queue is left alone |
| Server.Broadcast | server.py:92-93 | every registered outbox gets the snapshot appended to its tail exactly once, and nothing else about it changes |
| Server.Broadcaster.constructor | server.py:82-84 | the poller starts with no snapshot, a zero counter, `max_skips` from `MaxSkips` and no subscribers |
| Server.Broadcaster.Register | server.py:46-49 | exactly one new, empty outbox is appended to the registry; the throttle is untouched |
| Server.Broadcaster.Deregister | server.py:51-53 | exactly that outbox leaves the registry; every other outbox stays |
| Server.Broadcaster.Poll | server.py:85-93 | the throttle moves as `Step` says; on publish every registered outbox gets the snapshot at its tail, otherwise no outbox changes; registry membership and taken items are unchanged |
| Server.Handler.Setup | server.py:46-49 | a new connection registers one fresh outbox at the end of the registry and has sent nothing |
| Server.Handler.Handle | server.py:55-61 | the connection writes the params line with `max_interval` first and then one snapshot fetched directly, which describes the control API's reply |
| Server.Handler.Forward | server.py:62-64 | one loop turn writes the oldest outbox item iff the outbox is not empty; that item leaves the outbox and joins what was taken, and nothing else leaves |
| Server.Handler.Finish | server.py:51-53 | teardown removes exactly this connection's outbox from the registry |
| Server.DeliveredInPublishOrder | server.py:55-64 | a handled connection has written params, then its direct snapshot, then a prefix of the snapshots published since it registered, in publication order. What it has written followed by what is still in its outbox is exactly those snapshots, with none missing or added |
| Indicator.ParseNatToString | online-indicator.py:33 | a count written in decimal reads back as the same count |
| Indicator.ReadCounterRoundTrip | online-indicator.py:33 | a counter text `prefix + a + sep + b` reads back as `(a, b)` |
| Indicator.Tally | online-indicator.py:24-32 | the online count never exceeds the filtered total |
| Indicator.TallyBounds | online-indicator.py:24-28 | the total is at most the number of sessions and exactly that number without filters; adding filtered names never raises either count |
| Indicator.SimpleFormatter | online-indicator.py:18-35 | `Offline` iff there is no state; `Server down` iff the snapshot has an `error` key, checked before `users`; `Error` iff the line is a params line or a snapshot with neither key; every other state renders as the counter `Online: <online>/<total>`, which is none of those words (`SimpleDisplayCounts` reads it back) |
| Indicator.EmojiFormatter | online-indicator.py:38-56 | the same three words in the same cases as the plain formatter, each iff its case holds; every other state renders as the counter `✔️ <online> \| 🕘 <away>`, which is none of those words (`EmojiDisplayCounts` reads it back) |
| Indicator.FormatterCases | online-indicator.py:18-56 | both formatters give `Offline` for no state, `Server down` when an `error` key is present (checked before `users`), `Error` with neither key; they show counts iff the state has `users` and no `error`; the two formatters give the same text exactly when the state has no counts |
| Indicator.SimpleDisplayCounts | online-indicator.py:23-33 | the plain text reads back as (online, filtered total) |
| Indicator.EmojiDisplayCounts | online-indicator.py:43-54 | the symbol text reads back as (online, total - online), so online plus away is the filtered total, with the same counts as the plain text |
| Indicator.FormatterExample | online-indicator.py:18-56 | one online and one muted user give `Online: 1/2` and `✔️ 1 \| 🕘 1`; filtering the online user's name gives `Online: 0/1` |
| Indicator.Written | online-indicator.py:77-81 | the lines a run of updates writes, one for each update whose state differs from the one remembered before it; every written line is the rendering of one of the updates |
| Indicator.WrittenSplit | online-indicator.py:77-81 | the lines written by two consecutive runs of updates are those of the first run followed by those of the second, which starts from the state the first left remembered |
| Indicator.RepeatWritesOnce | online-indicator.py:77-81 | calling `update(s)` twice in a row writes what one call writes |
| Indicator.WrittenBounds | online-indicator.py:70-81 | a run never writes more lines than it has updates, and the first update after start-up always writes |
| Indicator.FileStatusView.constructor | online-indicator.py:66-70 | the view starts remembering the start sentinel, which equals no real state, with nothing written |
| Indicator.FileStatusView.WriteLine | online-indicator.py:72-75 | the whole file content becomes the one line plus a newline |
| Indicator.FileStatusView.Update | online-indicator.py:77-81 | the view writes the formatted state iff it differs from the remembered one, and afterwards remembers it |
| Indicator.FileStatusView.Enter | online-indicator.py:83-86 | opening writes the placeholder `-` as the whole content |
| Indicator.FileStatusView.Exit | online-indicator.py:88-90 | closing writes the placeholder `-` as the whole content |
| Indicator.ReadTimeout | online-indicator.py:102 | the streaming read timeout is larger than the keep-alive interval |
| Indicator.StreamRun | online-indicator.py:104-110 | the streaming loop only ever hands real (not offline) states to the view, at most one per line read |
| Indicator.Stream | online-indicator.py:104-110 | every line read within the timeout goes to the view in order, until a read fails, times out, hits end of stream or does not decode; the view's lines are what `Written` says |
| Indicator.MumbleOnlineClient | online-indicator.py:93-113 | one connection updates the view with exactly the states `Session` lists and ends as `Session` says: dropped on refusal, a timeout or a socket error; crashed on an empty, undecodable or param-less handshake |
| Indicator.Session | online-indicator.py:93-113 | one connection attempt hands the view only real states, at most one per streamed line; any state reaches the view, and an attempt can still be streaming, only after an accepted connection and a `params` handshake |
| Indicator.AgentCalls | online-indicator.py:117 | the first state the reconnect loop gives the view is offline |
| Indicator.AgentRun | online-indicator.py:116-125 | the reconnect loop after its first offline update: each attempt's states, then offline after each attempt ended by a caught error or a close, until an attempt crashes or is still streaming. A loop still reconnecting after at least one attempt last showed offline, and the loop is stopped or live only after some attempt |
| Indicator.ReconnectAgent | online-indicator.py:116-125 | the view gets offline first, then each attempt's states followed by offline for every attempt that ends in a caught error or close. It reports where the loop is when the script ends, as `AgentRun` says: stopped, live or reconnecting; when reconnecting, the view shows offline |
| Indicator.AgentRunEnds | online-indicator.py:118-124 | the loop is stopped iff some attempt ends in an uncaught error after only dropped attempts; it is live iff some attempt is still streaming after only dropped attempts; it is reconnecting iff every attempt was dropped |
| Indicator.DroppedAttemptsAnnounced | online-indicator.py:118-124 | when every attempt fails in a caught way, the loop ends up reconnecting, shows offline exactly once per attempt (attempts themselves hand over only real states) and shows offline last |
| Indicator.KeepAliveNeverTimesOut | online-indicator.py:102-110 | a stream whose decodable lines each arrive within `max_interval + 5` seconds is handed to the view in full and in order, and never times out |
| Indicator.SessionKeepsStreaming | online-indicator.py:93-110 | a connection accepted within 30 s, whose params handshake arrives within 30 s and whose lines then each arrive decodable within the read timeout, hands every line to the view in order and is still live |
| Presence.KeepAliveWithinReadTimeout | server.py:82-91 | with a polling period of at most 5 s, the server's re-send period for an unchanged snapshot is at most the client's read timeout `max_interval + 5 s` (online-indicator.py:102), ignoring the time each poll spends querying |
| Presence.FiveSecondPollingHasNoSlack | server.py:82-91 | with a 5 s polling period and a 30 s interval, the re-send comes exactly at the 35 s read timeout: no slack is left |
| Presence.SlowPollingOutrunsReadTimeout | server.py:82-91 | with a 6 s polling period and a 30 s interval, the re-send period (36 s) exceeds the client's 35 s read timeout |

## Left out

- Sockets, `socketserver`, asyncio, `wait_for` and the sleeps are not modelled. A connection attempt is a scripted value: how connecting went, the handshake read, and the reads after it, each with its delay. The client loops run over a finite script instead of forever.
- Threads and the shared deque are not modelled. Each poll, register, deregister and forward is an atomic step, so the race between the poller copying the registry and a connection removing its outbox is not modelled.
- Server.Outbox.Get: where the source's blocking `get` would wait on an empty queue, the model returns `None`, and `Server.Handler.Forward` then writes nothing.
- The Ice control API is an input. It is either unreachable or a map from session id to user records carrying the five flags read.
- JSON encoding and decoding are not modelled; messages are datatypes. A decoded snapshot keeps only its `error` and `users` keys, so an object with neither key is `Snapshot(None, None)`. JSON values that are not objects are not modelled. A `params` line arriving mid-stream is modelled: it goes to the view like any other line and renders as `Error`.
- Durations are natural numbers of milliseconds, not the source's floating-point seconds. `max_interval // polling_interval` becomes natural-number division with a positive polling period, and the extra 5 seconds become 5000 ms. A read times out when its delay exceeds the timeout.
- The client's command-line parsing, the formatter table lookup by name, logging and the output path built from `XDG_RUNTIME_DIR` are not modelled. The view takes its formatter as a function value, and the file is its modelled `content`.
- `TCPServer.handle_error`, the server's command-line entry point and `server-socket-activation.py` (a fixed heartbeat stub over a systemd socket) are not part of this model.
