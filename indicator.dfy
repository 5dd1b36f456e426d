/** The desktop client: it keeps one connection to the presence server,
    hands every snapshot it reads to a status view, and the view renders the
    snapshot as a one-line status in a file, rewriting the file only when the
    state changes.  Network, clock and file system are replaced by scripted
    inputs and by the file's modelled content. */
module Indicator {
  import opened Wire

  // ---------------------------------------------------------------------------
  // Decimal numbers in the status text
  // ---------------------------------------------------------------------------

  predicate IsDigit(c: char)
  {
    '0' <= c <= '9'
  }

  predicate AllDigits(s: string)
  {
    forall i :: 0 <= i < |s| ==> IsDigit(s[i])
  }

  function DigitChar(d: nat): (c: char)
    requires d < 10
    ensures IsDigit(c) && c as int - '0' as int == d
  {
    ('0' as int + d) as char
  }

  /** Decimal rendering of a count, as string formatting writes it. */
  function NatToString(n: nat): (s: string)
    ensures s != [] && AllDigits(s)
    decreases n
  {
    if n < 10 then [DigitChar(n)] else NatToString(n / 10) + [DigitChar(n % 10)]
  }

  /** The value of a string of decimal digits. */
  function ParseNat(s: string): nat
    requires AllDigits(s)
    decreases |s|
  {
    if s == [] then 0 else 10 * ParseNat(s[..|s| - 1]) + (s[|s| - 1] as int - '0' as int)
  }

  /** Reading a rendered count back gives the count. */
  lemma {:induction false} ParseNatToString(n: nat)
    ensures ParseNat(NatToString(n)) == n
    decreases n
  {
    if n >= 10 {
      var s := NatToString(n);
      assert s[..|s| - 1] == NatToString(n / 10);
      ParseNatToString(n / 10);
    }
  }

  /** Length of the longest all-digit prefix of `s`. */
  function LeadingDigits(s: string): (k: nat)
    ensures k <= |s| && AllDigits(s[..k])
    ensures k < |s| ==> !IsDigit(s[k])
    decreases |s|
  {
    if s != [] && IsDigit(s[0]) then
      var k := 1 + LeadingDigits(s[1..]);
      assert s[..k] == [s[0]] + s[1..][..k - 1];
      k
    else 0
  }

  lemma LeadingDigitsOf(d: string, rest: string)
    requires AllDigits(d)
    requires rest == [] || !IsDigit(rest[0])
    ensures LeadingDigits(d + rest) == |d|
  {
    var s := d + rest;
    var k := LeadingDigits(s);
    assert forall j :: 0 <= j < |d| ==> s[j] == d[j];
    assert |d| < |s| ==> s[|d|] == rest[0];
  }

  /** Reads `<a> + sep + <b>` back into `(a, b)`. */
  function ReadCounts(body: string, sep: string): Option<(nat, nat)>
  {
    var k := LeadingDigits(body);
    var rest := body[k..];
    if 0 < k && |sep| < |rest| && rest[..|sep|] == sep && AllDigits(rest[|sep|..]) then
      Some((ParseNat(body[..k]), ParseNat(rest[|sep|..])))
    else None
  }

  /** Reads a counter display `prefix + <a> + sep + <b>` back into `(a, b)`. */
  function ReadCounter(text: string, prefix: string, sep: string): Option<(nat, nat)>
  {
    if |prefix| <= |text| && text[..|prefix|] == prefix then ReadCounts(text[|prefix|..], sep) else None
  }

  lemma ReadCountsRoundTrip(sep: string, a: nat, b: nat)
    requires sep != [] && !IsDigit(sep[0])
    ensures ReadCounts(NatToString(a) + (sep + NatToString(b)), sep) == Some((a, b))
  {
    var da, db := NatToString(a), NatToString(b);
    var body := da + (sep + db);
    LeadingDigitsOf(da, sep + db);
    assert body[..|da|] == da;
    var rest := body[|da|..];
    assert rest == sep + db;
    assert rest[..|sep|] == sep;
    assert rest[|sep|..] == db;
    ParseNatToString(a);
    ParseNatToString(b);
  }

  /** A counter display is read back as the two counts it was built from. */
  lemma ReadCounterRoundTrip(prefix: string, sep: string, a: nat, b: nat)
    requires sep != [] && !IsDigit(sep[0])
    ensures ReadCounter(prefix + NatToString(a) + sep + NatToString(b), prefix, sep) == Some((a, b))
  {
    var body := NatToString(a) + (sep + NatToString(b));
    var text := prefix + NatToString(a) + sep + NatToString(b);
    assert text == prefix + body;
    assert text[..|prefix|] == prefix;
    assert text[|prefix|..] == body;
    ReadCountsRoundTrip(sep, a, b);
  }

  // ---------------------------------------------------------------------------
  // Formatters
  // ---------------------------------------------------------------------------

  /** What the view is given: `None` when offline, otherwise a parsed line. */
  type ClientState = Option<Message>

  /** A user counts as online unless their status is deaf or mute. */
  predicate IsOnline(u: UserEntry)
  {
    u.status != Some(DeafStatus) && u.status != Some(MuteStatus)
  }

  /** The sessions whose user name is not filtered out. */
  function Visible(users: map<SessionId, UserEntry>, filters: set<string>): set<SessionId>
  {
    set id | id in users && users[id].name !in filters
  }

  /** The visible sessions whose user is online. */
  function OnlineIds(users: map<SessionId, UserEntry>, filters: set<string>): set<SessionId>
  {
    set id | id in Visible(users, filters) && IsOnline(users[id])
  }

  lemma SubsetCard(a: set<SessionId>, b: set<SessionId>)
    requires a <= b
    ensures |a| <= |b|
  {
    assert b == a + (b - a);
    assert a * (b - a) == {};
  }

  /** The two counts both formatters display: online users and all users,
      filtered names excluded from both. */
  function Tally(users: map<SessionId, UserEntry>, filters: set<string>): (r: (nat, nat))
    ensures r.0 <= r.1
  {
    SubsetCard(OnlineIds(users, filters), Visible(users, filters));
    (|OnlineIds(users, filters)|, |Visible(users, filters)|)
  }

  /** The total never exceeds the number of sessions and, with no filter,
      is exactly that number; filtering can only lower both counts. */
  lemma TallyBounds(users: map<SessionId, UserEntry>, filters: set<string>, more: set<string>)
    requires filters <= more
    ensures Tally(users, filters).1 <= |users|
    ensures Tally(users, {}).1 == |users|
    ensures Tally(users, more).0 <= Tally(users, filters).0
    ensures Tally(users, more).1 <= Tally(users, filters).1
  {
    assert Visible(users, {}) == users.Keys;
    SubsetCard(Visible(users, filters), users.Keys);
    assert Visible(users, more) <= Visible(users, filters);
    SubsetCard(Visible(users, more), Visible(users, filters));
    assert OnlineIds(users, more) <= OnlineIds(users, filters);
    SubsetCard(OnlineIds(users, more), OnlineIds(users, filters));
  }

  const SimplePrefix: string := "Online: "
  const SimpleSep: string := "/"
  const EmojiPrefix: string := "\U{2714}\U{FE0F} "
  const EmojiSep: string := " | \U{1F558} "

  /** "Online: <online>/<total>". */
  function SimpleFormatter(state: ClientState, filters: set<string>): (text: string)
    ensures text == "Offline" <==> state == None
    ensures text == "Server down" <==> state.Some? && state.value.StateMsg? && state.value.snapshot.error.Some?
    ensures text == "Error" <==> state.Some? && (state.value.ParamsMsg? || state.value.snapshot == Snapshot(None, None))
  {
    match state
    case None => "Offline"
    case Some(ParamsMsg(_)) => "Error"
    case Some(StateMsg(s)) =>
      if s.error.Some? then "Server down"
      else if s.users.Some? then
        var counts := Tally(s.users.value, filters);
        var line := SimplePrefix + NatToString(counts.0) + SimpleSep + NatToString(counts.1);
        assert line[1] == 'n';
        line
      else "Error"
  }

  /** "✔️ <online> | 🕘 <away>", away being deaf or muted users. */
  function EmojiFormatter(state: ClientState, filters: set<string>): (text: string)
    ensures text == "Offline" <==> state == None
    ensures text == "Server down" <==> state.Some? && state.value.StateMsg? && state.value.snapshot.error.Some?
    ensures text == "Error" <==> state.Some? && (state.value.ParamsMsg? || state.value.snapshot == Snapshot(None, None))
  {
    match state
    case None => "Offline"
    case Some(ParamsMsg(_)) => "Error"
    case Some(StateMsg(s)) =>
      if s.error.Some? then "Server down"
      else if s.users.Some? then
        var counts := Tally(s.users.value, filters);
        var away := counts.1 - counts.0;
        var line := EmojiPrefix + NatToString(counts.0) + EmojiSep + NatToString(away);
        assert line[0] == '\U{2714}';
        line
      else "Error"
  }

  /** A formatter as the status view holds it: a state and the filtered
      names to one line of text. */
  type Renderer = (ClientState, set<string>) -> string

  /** The formatters selectable by name on the command line. */
  datatype Formatter = Simple | Emoji

  function Format(f: Formatter, state: ClientState, filters: set<string>): string
  {
    match f
    case Simple => SimpleFormatter(state, filters)
    case Emoji => EmojiFormatter(state, filters)
  }

  /** The states the formatters tell apart without counting: offline, a
      snapshot with an `error` key (checked before `users`), and anything
      with neither key. */
  ghost predicate HasUsers(state: ClientState)
  {
    state.Some? && state.value.StateMsg? && state.value.snapshot.error.None? && state.value.snapshot.users.Some?
  }

  lemma FormatterCases(f: Formatter, state: ClientState, filters: set<string>)
    ensures state == None ==> Format(f, state, filters) == "Offline"
    ensures state.Some? && state.value.StateMsg? && state.value.snapshot.error.Some? ==>
      Format(f, state, filters) == "Server down"
    ensures state.Some? && (state.value.ParamsMsg? || state.value.snapshot == Snapshot(None, None)) ==>
      Format(f, state, filters) == "Error"
    ensures HasUsers(state) <==> Format(f, state, filters) !in {"Offline", "Server down", "Error"}
    ensures HasUsers(state) <==> SimpleFormatter(state, filters) != EmojiFormatter(state, filters)
  {
    if HasUsers(state) {
      assert SimpleFormatter(state, filters)[0] != EmojiFormatter(state, filters)[0];
    }
  }

  /** The plain display reads back as (online, total). */
  lemma SimpleDisplayCounts(users: map<SessionId, UserEntry>, filters: set<string>)
    ensures ReadCounter(SimpleFormatter(Some(StateMsg(Snapshot(None, Some(users)))), filters), SimplePrefix, SimpleSep)
      == Some(Tally(users, filters))
  {
    var counts := Tally(users, filters);
    var text := SimpleFormatter(Some(StateMsg(Snapshot(None, Some(users)))), filters);
    assert text == SimplePrefix + NatToString(counts.0) + SimpleSep + NatToString(counts.1);
    ReadCounterRoundTrip(SimplePrefix, SimpleSep, counts.0, counts.1);
  }

  /** The symbol display reads back as (online, total - online): online plus
      away is the filtered total. */
  lemma EmojiDisplayCounts(users: map<SessionId, UserEntry>, filters: set<string>)
    ensures var counts := Tally(users, filters);
      ReadCounter(EmojiFormatter(Some(StateMsg(Snapshot(None, Some(users)))), filters), EmojiPrefix, EmojiSep)
        == Some((counts.0, counts.1 - counts.0))
  {
    var counts := Tally(users, filters);
    var text := EmojiFormatter(Some(StateMsg(Snapshot(None, Some(users)))), filters);
    assert text == EmojiPrefix + NatToString(counts.0) + EmojiSep + NatToString(counts.1 - counts.0);
    ReadCounterRoundTrip(EmojiPrefix, EmojiSep, counts.0, counts.1 - counts.0);
  }

  /** One user online and one muted, no filter: "Online: 1/2" and "✔️ 1 | 🕘 1";
      filtering the online user's name leaves "Online: 0/1". */
  lemma FormatterExample()
    ensures var users := map[1 := UserEntry("a", None), 2 := UserEntry("b", Some(MuteStatus))];
      && SimpleFormatter(Some(StateMsg(Snapshot(None, Some(users)))), {}) == "Online: 1/2"
      && EmojiFormatter(Some(StateMsg(Snapshot(None, Some(users)))), {}) == "\U{2714}\U{FE0F} 1 | \U{1F558} 1"
      && SimpleFormatter(Some(StateMsg(Snapshot(None, Some(users)))), {"a"}) == "Online: 0/1"
  {
    var users := map[1 := UserEntry("a", None), 2 := UserEntry("b", Some(MuteStatus))];
    assert Visible(users, {}) == {1, 2};
    assert OnlineIds(users, {}) == {1};
    assert Visible(users, {"a"}) == {2};
    assert OnlineIds(users, {"a"}) == {};
  }

  // ---------------------------------------------------------------------------
  // The status file
  // ---------------------------------------------------------------------------

  /** The view's memory of the last state: the start sentinel, which equals no
      real state, or the last state given to `Update`. */
  datatype Remembered = Initial | Seen(state: ClientState)

  /** What the file holds on startup and on shutdown. */
  const Placeholder: string := "-"

  /** The lines a run of updates writes: one per update whose state differs
      from the one remembered before it. */
  function Written(fmt: Renderer, filters: set<string>, r: Remembered, calls: seq<ClientState>): (w: seq<string>)
    ensures forall line :: line in w ==> exists c :: c in calls && line == fmt(c, filters)
    decreases |calls|
  {
    if calls == [] then []
    else
      var rest := Written(fmt, filters, Seen(calls[0]), calls[1..]);
      assert forall c :: c in calls[1..] ==> c in calls;
      (if r != Seen(calls[0]) then [fmt(calls[0], filters)] else []) + rest
  }

  /** What the view remembers after a run of updates. */
  function LastSeen(r: Remembered, calls: seq<ClientState>): Remembered
  {
    if calls == [] then r else Seen(calls[|calls| - 1])
  }

  lemma {:induction false} WrittenSplit(fmt: Renderer, filters: set<string>, r: Remembered, a: seq<ClientState>, b: seq<ClientState>)
    ensures Written(fmt, filters, r, a + b) == Written(fmt, filters, r, a) + Written(fmt, filters, LastSeen(r, a), b)
    decreases |a|
  {
    if a == [] {
      assert a + b == b;
    } else {
      assert (a + b)[0] == a[0];
      assert (a + b)[1..] == a[1..] + b;
      WrittenSplit(fmt, filters, Seen(a[0]), a[1..], b);
      assert LastSeen(Seen(a[0]), a[1..]) == LastSeen(r, a);
    }
  }

  /** Dedup: repeating the last update writes nothing more. */
  lemma RepeatWritesOnce(fmt: Renderer, filters: set<string>, r: Remembered, calls: seq<ClientState>, s: ClientState)
    ensures Written(fmt, filters, r, calls + [s, s]) == Written(fmt, filters, r, calls + [s])
  {
    WrittenSplit(fmt, filters, r, calls, [s, s]);
    WrittenSplit(fmt, filters, r, calls, [s]);
    assert [s, s][1..] == [s];
  }

  /** No run writes more lines than it has updates, and the first update after
      start-up always writes. */
  lemma {:induction false} WrittenBounds(fmt: Renderer, filters: set<string>, r: Remembered, calls: seq<ClientState>)
    ensures |Written(fmt, filters, r, calls)| <= |calls|
    ensures r == Initial && calls != [] ==> Written(fmt, filters, r, calls)[0] == fmt(calls[0], filters)
    decreases |calls|
  {
    if calls != [] {
      WrittenBounds(fmt, filters, Seen(calls[0]), calls[1..]);
    }
  }

  /** The status view over one output file.  `content` is the whole file,
      `lines` every line written to it in order, `updates` every state given
      to `Update`. */
  class FileStatusView {
    const filters: set<string>
    const formatter: Renderer
    var oldState: Remembered
    var isOpen: bool
    var content: string
    var lines: seq<string>
    ghost var updates: seq<ClientState>

    /** The file holds exactly the last line written; the view remembers the
        last state it was given. */
    ghost predicate Valid()
      reads this
    {
      && (lines == [] ==> content == "")
      && (lines != [] ==> content == lines[|lines| - 1] + "\n")
      && oldState == LastSeen(Initial, updates)
    }

    constructor (filters: set<string>, formatter: Renderer)
      ensures Valid() && !isOpen
      ensures this.filters == filters && this.formatter == formatter
      ensures oldState == Initial && lines == [] && updates == []
    {
      this.filters := filters;
      this.formatter := formatter;
      oldState := Initial;
      isOpen := false;
      content := "";
      lines := [];
      updates := [];
    }

    /** Replaces the whole file content with one line. */
    method WriteLine(text: string)
      requires Valid() && isOpen
      modifies this
      ensures Valid() && isOpen
      ensures content == text + "\n" && lines == old(lines) + [text]
      ensures oldState == old(oldState) && updates == old(updates)
    {
      content := text + "\n";
      lines := lines + [text];
    }

    /** Renders `state` iff it differs from the remembered one. */
    method Update(state: ClientState)
      requires Valid() && isOpen
      modifies this
      ensures Valid() && isOpen
      ensures oldState == Seen(state) && updates == old(updates) + [state]
      ensures lines == old(lines) + Written(formatter, filters, old(oldState), [state])
      ensures old(oldState) != Seen(state) ==> content == formatter(state, filters) + "\n"
      ensures old(oldState) == Seen(state) ==> content == old(content)
    {
      if oldState != Seen(state) {
        oldState := Seen(state);
        updates := updates + [state];
        var text := formatter(state, filters);
        WriteLine(text);
      } else {
        updates := updates + [state];
      }
    }

    /** Opening the file for writing and showing the placeholder. */
    method Enter()
      requires Valid() && !isOpen
      modifies this
      ensures Valid() && isOpen
      ensures content == Placeholder + "\n" && lines == old(lines) + [Placeholder]
      ensures oldState == old(oldState) && updates == old(updates)
    {
      isOpen := true;
      WriteLine(Placeholder);
    }

    /** Showing the placeholder and closing the file. */
    method Exit()
      requires Valid() && isOpen
      modifies this
      ensures Valid() && !isOpen
      ensures content == Placeholder + "\n" && lines == old(lines) + [Placeholder]
      ensures oldState == old(oldState) && updates == old(updates)
    {
      WriteLine(Placeholder);
      isOpen := false;
    }
  }

  // ---------------------------------------------------------------------------
  // Connection and reconnect loop
  // ---------------------------------------------------------------------------

  /** Durations are natural numbers of milliseconds. */
  const ConnectTimeout: nat := 30000
  const ReadMargin: nat := 5000

  /** The steady-state read timeout: the server's keep-alive interval plus a
      margin. */
  function ReadTimeout(maxInterval: nat): (t: nat)
    ensures t > maxInterval
  {
    maxInterval + ReadMargin
  }

  /** One line as read: a decodable JSON message or something that does not
      decode. */
  datatype WireLine = Json(msg: Message) | Malformed
  /** What one read produces: a line, end of stream (empty read), or a socket error. */
  datatype Incoming = Line(line: WireLine) | Eof | SocketError
  /** One read and how long it took to complete. */
  datatype Read = Read(delay: nat, data: Incoming)
  /** Opening a connection: refused (socket error) or accepted after a delay. */
  datatype Connect = Refused | Accepted(delay: nat)
  /** A scripted connection attempt: how connecting went, the handshake read,
      and the reads that follow it. */
  datatype Attempt = Attempt(connect: Connect, handshake: Read, stream: seq<Read>)

  /** How a connection attempt ends: closed or failed with an error the
      reconnect loop catches (socket error or timeout, or a clean close);
      aborted by an error it does not catch; or still streaming when the
      script runs out. */
  datatype Ending = Dropped | Crashed | Streaming

  /** The streaming loop under read timeout `timeout`: the states handed to
      the view and how the loop ends. */
  function StreamRun(timeout: nat, arrivals: seq<Read>): (r: (seq<ClientState>, Ending))
    ensures forall i :: 0 <= i < |r.0| ==> r.0[i].Some?
    ensures |r.0| <= |arrivals|
    decreases |arrivals|
  {
    if arrivals == [] then ([], Streaming)
    else if arrivals[0].delay > timeout then ([], Dropped)
    else match arrivals[0].data
      case SocketError => ([], Dropped)
      case Eof => ([], Dropped)
      case Line(Malformed) => ([], Crashed)
      case Line(Json(m)) =>
        var rest := StreamRun(timeout, arrivals[1..]);
        ([Some(m)] + rest.0, rest.1)
  }

  /** One connection attempt: connect, read the handshake within the connect
      timeout, then stream with the read timeout derived from it.  A handshake
      read that is empty, does not decode, or has no `params` raises an error
      that is not caught. */
  function Session(a: Attempt): (r: (seq<ClientState>, Ending))
    ensures forall i :: 0 <= i < |r.0| ==> r.0[i].Some?
    ensures |r.0| <= |a.stream|
    ensures r.0 != [] || r.1 == Streaming ==>
      a.connect.Accepted? && a.handshake.data.Line? && a.handshake.data.line.Json? && a.handshake.data.line.msg.ParamsMsg?
  {
    match a.connect
    case Refused => ([], Dropped)
    case Accepted(d) =>
      if d > ConnectTimeout || a.handshake.delay > ConnectTimeout then ([], Dropped)
      else match a.handshake.data
        case SocketError => ([], Dropped)
        case Eof => ([], Crashed)
        case Line(Malformed) => ([], Crashed)
        case Line(Json(StateMsg(_))) => ([], Crashed)
        case Line(Json(ParamsMsg(maxInterval))) => StreamRun(ReadTimeout(maxInterval), a.stream)
  }

  /** Where the reconnect loop is when a script of attempts runs out: backing
      off before the next attempt, still reading from a live connection, or
      stopped by an error it does not catch. */
  datatype AgentState = Reconnecting | Live | Stopped

  /** The reconnect loop after its initial offline update: each attempt's
      states followed by an offline update for every attempt that ends in a
      caught error or close, and where the loop is at the end of the script. */
  function AgentRun(attempts: seq<Attempt>): (r: (seq<ClientState>, AgentState))
    ensures r.1 == Reconnecting && attempts != [] ==> r.0 != [] && r.0[|r.0| - 1] == None
    ensures r.1 != Reconnecting ==> attempts != []
    decreases |attempts|
  {
    if attempts == [] then ([], Reconnecting)
    else
      var s := Session(attempts[0]);
      match s.1
      case Dropped =>
        var rest := AgentRun(attempts[1..]);
        (s.0 + [None] + rest.0, rest.1)
      case Streaming => (s.0, Live)
      case Crashed => (s.0, Stopped)
  }

  /** The streaming part of one connection: every line read within `timeout`
      goes to the view, until a read fails, times out or does not decode. */
  method Stream(view: FileStatusView, timeout: nat, stream: seq<Read>) returns (ending: Ending)
    requires view.Valid() && view.isOpen
    modifies view
    ensures view.Valid() && view.isOpen
    ensures view.updates == old(view.updates) + StreamRun(timeout, stream).0
    ensures ending == StreamRun(timeout, stream).1
    ensures view.lines == old(view.lines) + Written(view.formatter, view.filters, old(view.oldState), StreamRun(timeout, stream).0)
  {
    ghost var fmt, fl, r0 := view.formatter, view.filters, view.oldState;
    ghost var done: seq<ClientState> := [];
    assert view.lines + [] == view.lines && view.updates + [] == view.updates;
    var rest := stream;
    while rest != []
      invariant view.Valid() && view.isOpen
      invariant view.updates == old(view.updates) + done
      invariant view.lines == old(view.lines) + Written(fmt, fl, r0, done)
      invariant view.oldState == LastSeen(r0, done)
      invariant StreamRun(timeout, stream).0 == done + StreamRun(timeout, rest).0
      invariant StreamRun(timeout, stream).1 == StreamRun(timeout, rest).1
      decreases |rest|
    {
      var read := rest[0];
      if read.delay > timeout || !read.data.Line? || read.data.line.Malformed? {
        // a timeout, a socket error or a closed stream ends the connection;
        // a line that does not decode raises an error nobody catches
        ending := if read.delay <= timeout && read.data.Line? then Crashed else Dropped;
        assert StreamRun(timeout, rest) == ([], ending);
        assert done + [] == done;
        return;
      }
      var m := read.data.line.msg;
      ghost var w := Written(fmt, fl, r0, done);
      WrittenSplit(fmt, fl, r0, done, [Some(m)]);
      Assoc(old(view.lines), w, Written(fmt, fl, LastSeen(r0, done), [Some(m)]));
      Assoc(old(view.updates), done, [Some(m)]);
      Assoc(done, [Some(m)], StreamRun(timeout, rest[1..]).0);
      view.Update(Some(m));
      done := done + [Some(m)];
      rest := rest[1..];
    }
    assert done + [] == done;
    return Streaming;
  }

  /** One connection of the client, feeding `view`. */
  method MumbleOnlineClient(view: FileStatusView, a: Attempt) returns (ending: Ending)
    requires view.Valid() && view.isOpen
    modifies view
    ensures view.Valid() && view.isOpen
    ensures view.updates == old(view.updates) + Session(a).0 && ending == Session(a).1
    ensures view.lines == old(view.lines) + Written(view.formatter, view.filters, old(view.oldState), Session(a).0)
  {
    assert view.lines + [] == view.lines && view.updates + [] == view.updates;
    match a.connect
    case Refused =>
      return Dropped;
    case Accepted(d) =>
      if d > ConnectTimeout || a.handshake.delay > ConnectTimeout {
        return Dropped;
      }
      match a.handshake.data
      case SocketError =>
        return Dropped;
      case Eof =>
        return Crashed;
      case Line(Malformed) =>
        return Crashed;
      case Line(Json(StateMsg(_))) =>
        return Crashed;
      case Line(Json(ParamsMsg(maxInterval))) =>
        ending := Stream(view, ReadTimeout(maxInterval), a.stream);
  }

  /** A connection accepted, and given its params handshake, within the
      connect timeout, whose lines then each arrive decodable within the read
      timeout, hands every line to the view in order and is still live when
      the script ends. */
  lemma SessionKeepsStreaming(a: Attempt, maxInterval: nat)
    requires a.connect.Accepted? && a.connect.delay <= ConnectTimeout
    requires a.handshake.delay <= ConnectTimeout && a.handshake.data == Line(Json(ParamsMsg(maxInterval)))
    requires forall i :: 0 <= i < |a.stream| ==>
      a.stream[i].delay <= ReadTimeout(maxInterval) && a.stream[i].data.Line? && a.stream[i].data.line.Json?
    ensures Session(a).1 == Streaming
    ensures |Session(a).0| == |a.stream|
    ensures forall i :: 0 <= i < |a.stream| ==> Session(a).0[i] == Some(a.stream[i].data.line.msg)
  {
    KeepAliveNeverTimesOut(maxInterval, a.stream);
  }

  /** Every state the reconnect loop hands to the view: offline first, then
      what `AgentRun` lists. */
  function AgentCalls(attempts: seq<Attempt>): (calls: seq<ClientState>)
    ensures calls != [] && calls[0] == None
  {
    [None] + AgentRun(attempts).0
  }

  /** One unfolding of the reconnect loop at attempt `i`. */
  lemma AgentRunAt(attempts: seq<Attempt>, i: nat)
    requires i < |attempts|
    ensures var s := Session(attempts[i]);
      AgentRun(attempts[i..]) ==
        if s.1 == Dropped then (s.0 + [None] + AgentRun(attempts[i + 1..]).0, AgentRun(attempts[i + 1..]).1)
        else (s.0, if s.1 == Crashed then Stopped else Live)
  {
    assert attempts[i..][0] == attempts[i];
    assert attempts[i..][1..] == attempts[i + 1..];
  }

  lemma Assoc<T>(a: seq<T>, b: seq<T>, c: seq<T>)
    ensures a + b + c == a + (b + c)
  {
  }

  /** The reconnect loop over a scripted run of connection attempts: offline
      before the first attempt and again after every attempt that ends in a
      caught error or a close. */
  method ReconnectAgent(view: FileStatusView, attempts: seq<Attempt>) returns (state: AgentState)
    requires view.Valid() && view.isOpen
    modifies view
    ensures view.Valid() && view.isOpen
    ensures view.updates == old(view.updates) + AgentCalls(attempts)
    ensures state == AgentRun(attempts).1
    ensures view.lines == old(view.lines) + Written(view.formatter, view.filters, old(view.oldState), AgentCalls(attempts))
    ensures state == Reconnecting ==> view.oldState == Seen(None)
  {
    ghost var f, fl, r0 := view.formatter, view.filters, view.oldState;
    ghost var u0, l0 := view.updates, view.lines;
    view.Update(None);
    ghost var done: seq<ClientState> := [None];
    var i := 0;
    while i < |attempts|
      invariant 0 <= i <= |attempts|
      invariant view.Valid() && view.isOpen && view.oldState == Seen(None)
      invariant done != [] && done[|done| - 1] == None
      invariant view.updates == u0 + done
      invariant view.lines == l0 + Written(f, fl, r0, done)
      invariant AgentCalls(attempts) == done + AgentRun(attempts[i..]).0
      invariant AgentRun(attempts).1 == AgentRun(attempts[i..]).1
      decreases |attempts| - i
    {
      AgentRunAt(attempts, i);
      ghost var session := Session(attempts[i]).0;
      ghost var rest := AgentRun(attempts[i + 1..]).0;
      var ending := MumbleOnlineClient(view, attempts[i]);
      WrittenSplit(f, fl, r0, done, session);
      assert LastSeen(r0, done) == Seen(None);
      Assoc(u0, done, session);
      Assoc(l0, Written(f, fl, r0, done), Written(f, fl, Seen(None), session));
      if ending != Dropped {
        done := done + session;
        return if ending == Crashed then Stopped else Live;
      }
      ghost var mid := done + session;
      WrittenSplit(f, fl, r0, mid, [None]);
      view.Update(None);
      Assoc(u0, mid, [None]);
      Assoc(l0, Written(f, fl, r0, mid), Written(f, fl, LastSeen(r0, mid), [None]));
      Assoc(done, session + [None], rest);
      Assoc(done, session, [None]);
      done := mid + [None];
      i := i + 1;
    }
    assert attempts[i..] == [];
    assert done + [] == done;
    state := Reconnecting;
  }

  /** Number of offline updates in a run. */
  function Offlines(calls: seq<ClientState>): nat
    decreases |calls|
  {
    if calls == [] then 0 else (if calls[0] == None then 1 else 0) + Offlines(calls[1..])
  }

  lemma {:induction false} OfflinesAppend(a: seq<ClientState>, b: seq<ClientState>)
    ensures Offlines(a + b) == Offlines(a) + Offlines(b)
    decreases |a|
  {
    if a == [] {
      assert a + b == b;
    } else {
      assert (a + b)[1..] == a[1..] + b;
      OfflinesAppend(a[1..], b);
    }
  }

  /** A run of real states holds no offline update. */
  lemma {:induction false} NoOfflines(calls: seq<ClientState>)
    requires forall i :: 0 <= i < |calls| ==> calls[i].Some?
    ensures Offlines(calls) == 0
    decreases |calls|
  {
    if calls != [] {
      assert calls[0].Some?;
      NoOfflines(calls[1..]);
    }
  }

  /** Reconnect liveness: when every attempt ends in a caught error or close,
      the loop never stops, announces offline once per attempt, and the last
      thing it shows is offline. */
  lemma {:induction false} DroppedAttemptsAnnounced(attempts: seq<Attempt>)
    requires forall i :: 0 <= i < |attempts| ==> Session(attempts[i]).1 == Dropped
    ensures AgentRun(attempts).1 == Reconnecting
    ensures Offlines(AgentRun(attempts).0) == |attempts|
    ensures attempts != [] ==> AgentRun(attempts).0[|AgentRun(attempts).0| - 1] == None
    decreases |attempts|
  {
    if attempts != [] {
      var s := Session(attempts[0]);
      var rest := AgentRun(attempts[1..]);
      DroppedAttemptsAnnounced(attempts[1..]);
      OfflinesAppend(s.0 + [None], rest.0);
      OfflinesAppend(s.0, [None]);
      NoOfflines(s.0);
      assert Offlines([None]) == 1;
    }
  }

  /** Attempt `i` is the first one not dropped, and it ends as `e`. */
  ghost predicate FirstEndsAs(attempts: seq<Attempt>, i: int, e: Ending)
  {
    && 0 <= i < |attempts|
    && Session(attempts[i]).1 == e
    && forall j :: 0 <= j < i ==> Session(attempts[j]).1 == Dropped
  }

  /** Where the reconnect loop ends up: stopped iff some attempt ends in an
      error it does not catch after only dropped ones; still live iff some
      attempt is still streaming after only dropped ones; reconnecting iff
      every attempt was dropped. */
  lemma {:induction false} AgentRunEnds(attempts: seq<Attempt>)
    ensures AgentRun(attempts).1 == Stopped <==> exists i :: FirstEndsAs(attempts, i, Crashed)
    ensures AgentRun(attempts).1 == Live <==> exists i :: FirstEndsAs(attempts, i, Streaming)
    ensures AgentRun(attempts).1 == Reconnecting <==>
      forall i :: 0 <= i < |attempts| ==> Session(attempts[i]).1 == Dropped
    decreases |attempts|
  {
    if attempts != [] {
      var tail := attempts[1..];
      AgentRunEnds(tail);
      var e := Session(attempts[0]).1;
      if e == Dropped {
        forall i, k | FirstEndsAs(tail, i, k)
          ensures FirstEndsAs(attempts, i + 1, k)
        {
          forall j | 0 <= j < i + 1
            ensures Session(attempts[j]).1 == Dropped
          {
            if j > 0 {
              assert attempts[j] == tail[j - 1];
            }
          }
        }
        forall i, k | FirstEndsAs(attempts, i, k) && k != Dropped
          ensures FirstEndsAs(tail, i - 1, k)
        {
          forall j | 0 <= j < i - 1
            ensures Session(tail[j]).1 == Dropped
          {
            assert tail[j] == attempts[j + 1];
          }
        }
        assert (forall i :: 0 <= i < |tail| ==> Session(tail[i]).1 == Dropped) ==>
          forall i :: 0 <= i < |attempts| ==> Session(attempts[i]).1 == Dropped;
      } else {
        assert FirstEndsAs(attempts, 0, e);
        assert forall i, k :: FirstEndsAs(attempts, i, k) ==> k == e;
      }
    }
  }

  /** The read timeout tolerates the keep-alive: a stream whose lines are
      decodable messages arriving within `max_interval + 5` seconds hands
      every one of them to the view, in order, and keeps streaming. */
  lemma {:induction false} KeepAliveNeverTimesOut(maxInterval: nat, arrivals: seq<Read>)
    requires forall i :: 0 <= i < |arrivals| ==>
      arrivals[i].delay <= ReadTimeout(maxInterval) && arrivals[i].data.Line? && arrivals[i].data.line.Json?
    ensures StreamRun(ReadTimeout(maxInterval), arrivals).1 == Streaming
    ensures |StreamRun(ReadTimeout(maxInterval), arrivals).0| == |arrivals|
    ensures forall i :: 0 <= i < |arrivals| ==> StreamRun(ReadTimeout(maxInterval), arrivals).0[i] == Some(arrivals[i].data.line.msg)
    decreases |arrivals|
  {
    if arrivals != [] {
      KeepAliveNeverTimesOut(maxInterval, arrivals[1..]);
    }
  }
}
