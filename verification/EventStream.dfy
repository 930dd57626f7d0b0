/** Replay-then-live streaming of one document's events, as a protocol over all interleavings: one
    writer that appends each event to the log and then publishes it, and one client that subscribes,
    replays the log, drains its buffer, loses its connection at any point and resumes. */
module EventStream {
  import opened Values
  import opened Broker

  /** Where the generator behind the client's connection stands. */
  datatype Phase =
    | Away                                    // no connection
    | Subscribed                              // queue registered, log not read yet
    | Replaying(left: seq<Event>)             // history still to send
    | Live                                    // draining the queue
    | Closed                                  // ended by a terminal event

  /** `start` is the Last-Event-ID of the first connection and `got` everything received since, over all
      connections; the current one began when `base` events had been received. `overflowed` says that the
      current queue has dropped an entry, `lossy` that an event was once delivered from such a queue. */
  datatype Client = Client(start: int, got: seq<Event>, base: nat, phase: Phase, buf: seq<Event>, maxId: int,
                           overflowed: bool, lossy: bool)

  datatype State = State(log: seq<Event>, published: nat, client: Client)

  predicate Increasing(events: seq<Event>) {
    forall i, j :: 0 <= i < j < |events| ==> events[i].id < events[j].id
  }

  /** `list_for_document(after_id)`. */
  function After(events: seq<Event>, id: int): seq<Event> {
    if events == [] then []
    else
      var n := |events| - 1;
      After(events[..n], id) + if events[n].id > id then [events[n]] else []
  }

  /** The id a client has reached: that of the last event it received, or where it started. */
  function Cursor(start: int, got: seq<Event>): int {
    if got == [] then start else got[|got| - 1].id
  }

  predicate Connected(p: Phase) {
    p.Subscribed? || p.Replaying? || p.Live?
  }

  datatype Action =
    | Append(e: Event) | Publish                                    // the writer
    | Connect | Read | Send | GoLive | Dequeue | Disconnect         // the client's connection

  predicate Enabled(s: State, a: Action) {
    var c := s.client;
    match a
    case Append(e) => s.published == |s.log| && forall i :: 0 <= i < |s.log| ==> s.log[i].id < e.id
    case Publish => s.published < |s.log|
    case Connect => c.phase.Away? || c.phase.Closed?
    case Read => c.phase.Subscribed?
    case Send => c.phase.Replaying? && c.phase.left != []
    case GoLive => c.phase.Replaying? && c.phase.left == []
    case Dequeue => c.phase.Live? && c.buf != []
    case Disconnect => Connected(c.phase)
  }

  function Delivered(c: Client, e: Event, next: Phase): Client {
    c.(got := c.got + [e], phase := if e.terminal then Closed else next)
  }

  function Next(s: State, a: Action, maxsize: int): State
    requires Enabled(s, a)
  {
    var c := s.client;
    match a
    case Append(e) => s.(log := s.log + [e])
    case Publish =>
      var s' := s.(published := s.published + 1);
      if !Connected(c.phase) then s'
      else
        var buf := Push(c.buf, s.log[s.published], maxsize);
        s'.(client := c.(buf := buf, overflowed := c.overflowed || |buf| <= |c.buf|))
    case Connect =>
      s.(client := c.(phase := Subscribed, base := |c.got|, buf := [], overflowed := false))
    case Read =>
      var last := Cursor(c.start, c.got);
      s.(client := c.(maxId := last, phase := Replaying(After(s.log, last))))
    case Send =>
      var e := c.phase.left[0];
      s.(client := Delivered(c.(maxId := e.id), e, Replaying(c.phase.left[1..])))
    case GoLive => s.(client := c.(phase := Live))
    case Dequeue =>
      var e, rest := c.buf[0], c.(buf := c.buf[1..]);
      s.(client := if e.id <= c.maxId then rest
                   else Delivered(rest.(lossy := c.lossy || c.overflowed), e, Live))
    case Disconnect => s.(client := c.(phase := Away))
  }

  /** The server's side of one connection: the generator, paused at a yield or at `queue.get()`. Each method
      runs it to its next pause and is a step of the protocol as the client `s` sees it. */
  class Stream {
    const queue: EventQueue
    var maxId: int
    var phase: Phase

    ghost predicate Shows(c: Client)
      reads this, queue
    {
      c.phase == phase && c.buf == queue.items && (!phase.Subscribed? ==> c.maxId == maxId)
    }

    constructor (queue: EventQueue)
      requires queue.items == []
      ensures this.queue == queue && phase == Subscribed && queue.items == old(queue.items)
      ensures forall s: State {:trigger Enabled(s, Connect)} :: Enabled(s, Connect) ==>
              Shows(Next(s, Connect, queue.maxsize).client)
    {
      this.queue, maxId, phase := queue, 0, Subscribed;
    }

    /** Reads the persisted history after the id the client sent. */
    method Replay(last: int, ghost s: State, log: seq<Event>)
      requires Shows(s.client) && Enabled(s, Read) && log == s.log && last == Cursor(s.client.start, s.client.got)
      modifies this
      ensures Shows(Next(s, Read, queue.maxsize).client)
    {
      maxId := last;
      phase := Replaying(After(log, last));
    }

    /** One turn of the replay loop. */
    method SendNext(ghost s: State) returns (e: Event)
      requires Shows(s.client) && Enabled(s, Send)
      modifies this
      ensures Shows(Next(s, Send, queue.maxsize).client)
      ensures Next(s, Send, queue.maxsize).client.got == s.client.got + [e]
    {
      e := phase.left[0];
      maxId := e.id;
      if e.terminal { phase := Closed; } else { phase := Replaying(phase.left[1..]); }
    }

    method EndReplay(ghost s: State)
      requires Shows(s.client) && Enabled(s, GoLive)
      modifies this
      ensures Shows(Next(s, GoLive, queue.maxsize).client)
    {
      phase := Live;
    }

    /** One turn of the live loop: an event at or below the watermark was replayed already. */
    method Take(ghost s: State) returns (sent: Option<Event>)
      requires Shows(s.client) && Enabled(s, Dequeue)
      modifies this, queue
      ensures Shows(Next(s, Dequeue, queue.maxsize).client)
      ensures Next(s, Dequeue, queue.maxsize).client.got == s.client.got + if sent.Some? then [sent.value] else []
    {
      var e := queue.Get();
      assert e == s.client.buf[0] && queue.items == s.client.buf[1..];
      if e.id <= maxId { return None; }
      sent := Some(e);
      if e.terminal { phase := Closed; }
    }
  }

  /** A finished upload whose events so far are in the log, and a client that has not connected. */
  predicate Initial(s: State) {
    && Increasing(s.log) && s.published == |s.log|
    && s.client.got == [] && s.client.base == 0 && s.client.phase.Away? && s.client.buf == []
    && !s.client.overflowed && !s.client.lossy
  }

  ghost predicate Run(states: seq<State>, actions: seq<Action>, maxsize: int) {
    && |states| == |actions| + 1
    && Initial(states[0])
    && forall i :: 0 <= i < |actions| ==>
         Enabled(states[i], actions[i]) && states[i + 1] == Next(states[i], actions[i], maxsize)
  }

  // ---- facts about After

  lemma {:induction false} AfterConcat(a: seq<Event>, b: seq<Event>, id: int)
    ensures After(a + b, id) == After(a, id) + After(b, id)
  {
    if b == [] {
      assert a + b == a;
    } else {
      var n := |b| - 1;
      assert (a + b)[..|a + b| - 1] == a + b[..n];
      AfterConcat(a, b[..n], id);
    }
  }

  lemma {:induction false} AfterNone(events: seq<Event>, id: int)
    requires forall i :: 0 <= i < |events| ==> events[i].id <= id
    ensures After(events, id) == []
  {
    if events == [] {
    } else {
      AfterNone(events[..|events| - 1], id);
    }
  }

  lemma {:induction false} AfterAll(events: seq<Event>, id: int)
    requires forall i :: 0 <= i < |events| ==> events[i].id > id
    ensures After(events, id) == events
  {
    if events == [] {
    } else {
      AfterAll(events[..|events| - 1], id);
    }
  }

  lemma {:induction false} AfterMembers(events: seq<Event>, id: int, e: Event)
    ensures e in After(events, id) <==> e in events && e.id > id
  {
    if events == [] {
    } else {
      var n := |events| - 1;
      assert events == events[..n] + [events[n]];
      AfterMembers(events[..n], id, e);
    }
  }

  lemma {:induction false} AfterIncreasing(events: seq<Event>, id: int)
    requires Increasing(events)
    ensures Increasing(After(events, id))
  {
    if events == [] {
    } else {
      var n := |events| - 1;
      AfterIncreasing(events[..n], id);
      forall i | 0 <= i < |After(events[..n], id)| ensures After(events[..n], id)[i].id < events[n].id {
        AfterMembers(events[..n], id, After(events[..n], id)[i]);
      }
    }
  }

  lemma {:induction false} AfterTwice(events: seq<Event>, id: int, later: int)
    requires id <= later
    ensures After(After(events, id), later) == After(events, later)
  {
    if events == [] {
    } else {
      var n := |events| - 1;
      AfterTwice(events[..n], id, later);
      AfterConcat(After(events[..n], id), [events[n]], later);
      assert After(events[..n], id) + [] == After(events[..n], id);
      assert After([events[n]], later) == if events[n].id > later then [events[n]] else [];
    }
  }

  lemma AfterPrefix(events: seq<Event>, k: nat, id: int)
    requires k <= |events|
    ensures After(events[..k], id) <= After(events, id)
  {
    AfterConcat(events[..k], events[k..], id);
    assert events == events[..k] + events[k..];
  }

  lemma AfterOneMore(events: seq<Event>, k: nat, id: int)
    requires k < |events|
    ensures After(events[..k + 1], id) == After(events[..k], id) + if events[k].id > id then [events[k]] else []
  {
    assert events[..k + 1][..k] == events[..k];
  }

  lemma IncreasingSplits(a: seq<Event>, b: seq<Event>)
    requires Increasing(a + b) && a != []
    ensures forall i :: 0 <= i < |a| ==> a[i].id <= a[|a| - 1].id
    ensures forall i :: 0 <= i < |b| ==> b[i].id > a[|a| - 1].id
  {
    var all := a + b;
    assert all[|a| - 1] == a[|a| - 1];
    forall i | 0 <= i < |a| ensures a[i].id <= a[|a| - 1].id { assert all[i] == a[i]; }
    forall i | 0 <= i < |b| ensures b[i].id > a[|a| - 1].id { assert all[|a| + i] == b[i]; }
  }

  /** What follows the last event of a prefix is the rest. */
  lemma AfterLast(a: seq<Event>, b: seq<Event>)
    requires Increasing(a + b) && a != []
    ensures After(a + b, a[|a| - 1].id) == b
  {
    IncreasingSplits(a, b);
    AfterConcat(a, b, a[|a| - 1].id);
    AfterNone(a, a[|a| - 1].id);
    AfterAll(b, a[|a| - 1].id);
  }

  /** Reading on from where a prefix stops gives exactly the rest. */
  lemma ResumeCompletes(events: seq<Event>, start: int, got: seq<Event>)
    requires Increasing(events) && got <= After(events, start)
    ensures got + After(events, Cursor(start, got)) == After(events, start)
  {
    if got != [] {
      var all := After(events, start);
      var rest := all[|got|..];
      assert all == got + rest;
      AfterIncreasing(events, start);
      AfterLast(got, rest);
      AfterMembers(events, start, all[|got| - 1]);
      AfterTwice(events, start, all[|got| - 1].id);
    }
  }

  /** No event is past the last one after `id`. */
  lemma CursorCoversAll(events: seq<Event>, id: int, i: nat)
    requires Increasing(events) && i < |events|
    ensures events[i].id <= Cursor(id, After(events, id))
  {
    var found := After(events, id);
    AfterMembers(events, id, events[i]);
    if events[i] in found {
      AfterIncreasing(events, id);
      var k :| 0 <= k < |found| && found[k] == events[i];
    } else if found != [] {
      AfterMembers(events, id, found[|found| - 1]);
    }
  }

  // ---- what holds at every step

  /** Ids received strictly increase, are past the start and come from the log. */
  ghost predicate Sound(s: State) {
    && Increasing(s.log) && s.published <= |s.log| <= s.published + 1
    && Increasing(s.client.got)
    && forall i :: 0 <= i < |s.client.got| ==> s.client.got[i] in s.log && s.client.got[i].id > s.client.start
  }

  /** A connection ends with its first terminal event. */
  ghost predicate EndsAtTerminal(c: Client) {
    && c.base <= |c.got|
    && (forall i :: c.base <= i < |c.got| - 1 ==> !c.got[i].terminal)
    && (Connected(c.phase) && c.base < |c.got| ==> !c.got[|c.got| - 1].terminal)
    && (c.phase.Closed? ==> c.base < |c.got| && c.got[|c.got| - 1].terminal)
  }

  /** The queue holds the newest published events, without a hole, from log position `q` on. */
  ghost predicate Suffix(s: State, q: nat) {
    q <= s.published <= |s.log| && s.client.buf == s.log[q..s.published]
  }

  ghost predicate Bounded(c: Client, maxsize: int) {
    maxsize > 0 ==> |c.buf| <= maxsize
  }

  /** The first `r` events have been read, and none of them is past `reach`. */
  ghost predicate ReadUpTo(s: State, r: nat, reach: int) {
    && r <= |s.log| && s.client.start <= reach
    && (forall i :: 0 <= i < r ==> s.log[i].id <= reach)
    && (reach == s.client.start || exists i :: 0 <= i < r && s.log[i].id == reach)
  }

  /** What is still to be replayed continues what was received. */
  ghost predicate Rest(s: State, left: seq<Event>) {
    && Increasing(s.client.got + left)
    && forall i :: 0 <= i < |left| ==> left[i] in s.log && left[i].id > s.client.start
  }

  /** Everything in the queue that passes the watermark is newer than anything received. */
  ghost predicate Ahead(s: State, q: nat) {
    forall i :: q <= i < |s.log| && s.log[i].id > s.client.maxId ==> s.log[i].id > Cursor(s.client.start, s.client.got)
  }

  /** Nothing is missing from what was received so far. */
  ghost predicate Gapless(s: State) {
    s.client.got <= After(s.log, s.client.start)
  }

  /** The phase's own invariant: the queue starts at log position `q`, the replay has read the first `r`. */
  ghost predicate PhaseInv(s: State, q: nat, r: nat) {
    var c := s.client;
    match c.phase
    case Away => !c.lossy ==> Gapless(s)
    case Closed => !c.lossy ==> Gapless(s)
    case Subscribed =>
      Suffix(s, q) && (!c.lossy ==> Gapless(s))
    case Replaying(left) =>
      && Suffix(s, q) && (!c.overflowed ==> q <= r)
      && ReadUpTo(s, r, Cursor(c.maxId, left)) && Rest(s, left)
      && c.maxId == Cursor(c.start, c.got)
      && (!c.lossy ==> c.got + left == After(s.log[..r], c.start))
    case Live =>
      && Suffix(s, q) && ReadUpTo(s, r, c.maxId) && Ahead(s, q)
      && (!c.lossy ==> Gapless(s))
      && (!c.lossy && !c.overflowed ==> c.got == After(s.log[..if q < r then r else q], c.start))
  }

  ghost predicate Inv(s: State, maxsize: int) {
    && Sound(s) && EndsAtTerminal(s.client) && Bounded(s.client, maxsize)
    && exists q: nat, r: nat :: PhaseInv(s, q, r)
  }

  // ---- every step keeps it

  lemma AppendKeepsSound(s: State, e: Event, maxsize: int)
    requires Sound(s) && Enabled(s, Append(e))
    ensures Sound(Next(s, Append(e), maxsize))
  {
  }

  lemma AppendKeepsReading(s: State, e: Event, maxsize: int, r: nat, reach: int)
    requires ReadUpTo(s, r, reach)
    requires Enabled(s, Append(e))
    ensures ReadUpTo(Next(s, Append(e), maxsize), r, reach)
    ensures (s.log + [e])[..r] == s.log[..r]
  {
    var s' := Next(s, Append(e), maxsize);
    if reach != s.client.start {
      var i :| 0 <= i < r && s.log[i].id == reach;
      assert s'.log[i].id == reach;
    }
  }

  lemma AppendKeepsAhead(s: State, e: Event, maxsize: int, q: nat)
    requires Sound(s) && Ahead(s, q) && s.client.start <= s.client.maxId && Enabled(s, Append(e))
    ensures Ahead(Next(s, Append(e), maxsize), q)
  {
    var got := s.client.got;
    if got != [] {
      assert got[|got| - 1] in s.log;
    }
  }

  lemma AppendKeepsGapless(s: State, e: Event, maxsize: int)
    requires Enabled(s, Append(e))
    ensures Gapless(s) ==> Gapless(Next(s, Append(e), maxsize))
  {
    AfterConcat(s.log, [e], s.client.start);
  }

  lemma AppendKeepsReplaying(s: State, e: Event, maxsize: int, q: nat, r: nat)
    requires s.client.phase.Replaying? && PhaseInv(s, q, r) && Enabled(s, Append(e))
    ensures PhaseInv(Next(s, Append(e), maxsize), q, r)
  {
    AppendKeepsReading(s, e, maxsize, r, Cursor(s.client.maxId, s.client.phase.left));
    assert (s.log + [e])[q..s.published] == s.log[q..s.published];
  }

  lemma LongerKeepsParts<T>(a: seq<T>, x: T, lo: nat, hi: nat)
    requires lo <= hi <= |a|
    ensures (a + [x])[lo..hi] == a[lo..hi] && (a + [x])[..lo] == a[..lo]
  {
  }

  lemma AppendKeepsLive(s: State, e: Event, maxsize: int, q: nat, r: nat)
    requires s.client.phase.Live? && Sound(s) && PhaseInv(s, q, r) && Enabled(s, Append(e))
    ensures PhaseInv(Next(s, Append(e), maxsize), q, r)
  {
    AppendKeepsReading(s, e, maxsize, r, s.client.maxId);
    AppendKeepsAhead(s, e, maxsize, q);
    AppendKeepsGapless(s, e, maxsize);
    LongerKeepsParts(s.log, e, q, s.published);
    LongerKeepsParts(s.log, e, r, |s.log|);
  }

  lemma AppendKeeps(s: State, e: Event, maxsize: int, q: nat, r: nat)
    requires Sound(s) && PhaseInv(s, q, r) && Enabled(s, Append(e))
    ensures PhaseInv(Next(s, Append(e), maxsize), q, r)
  {
    match s.client.phase
    case Replaying(_) => AppendKeepsReplaying(s, e, maxsize, q, r);
    case Live => AppendKeepsLive(s, e, maxsize, q, r);
    case _ =>
      AppendKeepsGapless(s, e, maxsize);
      assert q <= s.published ==> (s.log + [e])[q..s.published] == s.log[q..s.published];
  }

  lemma PublishKeepsSuffix(s: State, maxsize: int, q: nat) returns (q': nat)
    requires Suffix(s, q) && Bounded(s.client, maxsize) && Enabled(s, Publish) && Connected(s.client.phase)
    ensures q <= q' && (!Next(s, Publish, maxsize).client.overflowed ==> q' == q && !s.client.overflowed)
    ensures Suffix(Next(s, Publish, maxsize), q') && Bounded(Next(s, Publish, maxsize).client, maxsize)
  {
    var e, p, buf := s.log[s.published], s.published, s.client.buf;
    assert buf + [e] == s.log[q..p + 1];
    if maxsize <= 0 || |buf| < maxsize || buf == [] {
      q' := q;
    } else {
      q' := q + 1;
      assert buf[1..] + [e] == (buf + [e])[1..] == s.log[q + 1..p + 1];
    }
  }

  lemma PublishKeeps(s: State, maxsize: int, q: nat, r: nat)
    requires Sound(s) && PhaseInv(s, q, r) && Bounded(s.client, maxsize) && Enabled(s, Publish)
    ensures Sound(Next(s, Publish, maxsize)) && Bounded(Next(s, Publish, maxsize).client, maxsize)
    ensures exists q': nat :: PhaseInv(Next(s, Publish, maxsize), q', r)
  {
    var q': nat := q;
    if Connected(s.client.phase) {
      q' := PublishKeepsSuffix(s, maxsize, q);
    }
    assert PhaseInv(Next(s, Publish, maxsize), q', r);
  }

  lemma ConnectKeeps(s: State, maxsize: int, q: nat, r: nat)
    requires Sound(s) && PhaseInv(s, q, r) && Enabled(s, Connect)
    ensures PhaseInv(Next(s, Connect, maxsize), s.published, r)
  {
  }

  lemma ReadKeepsRest(s: State)
    requires Sound(s)
    ensures Rest(s, After(s.log, Cursor(s.client.start, s.client.got)))
  {
    var got, last := s.client.got, Cursor(s.client.start, s.client.got);
    var left := After(s.log, last);
    AfterIncreasing(s.log, last);
    forall i | 0 <= i < |left| ensures left[i] in s.log && left[i].id > last {
      AfterMembers(s.log, last, left[i]);
    }
  }

  lemma ReadReaches(s: State)
    requires Sound(s)
    ensures ReadUpTo(s, |s.log|,
            Cursor(Cursor(s.client.start, s.client.got), After(s.log, Cursor(s.client.start, s.client.got))))
  {
    var last := Cursor(s.client.start, s.client.got);
    var left := After(s.log, last);
    forall i | 0 <= i < |s.log| ensures s.log[i].id <= Cursor(last, left) {
      CursorCoversAll(s.log, last, i);
    }
    if left != [] {
      AfterMembers(s.log, last, left[|left| - 1]);
    }
  }

  lemma ReadKeeps(s: State, maxsize: int, q: nat, r: nat)
    requires Sound(s) && PhaseInv(s, q, r) && Enabled(s, Read)
    ensures PhaseInv(Next(s, Read, maxsize), q, |s.log|)
  {
    var c := s.client;
    ReadKeepsRest(s);
    ReadReaches(s);
    assert s.log[..|s.log|] == s.log;
    if !c.lossy {
      ResumeCompletes(s.log, c.start, c.got);
    }
  }

  lemma SendKeepsRest(s: State, maxsize: int)
    requires Sound(s) && Enabled(s, Send) && Rest(s, s.client.phase.left)
    ensures Sound(Next(s, Send, maxsize)) && Rest(Next(s, Send, maxsize), s.client.phase.left[1..])
  {
    var got, left := s.client.got, s.client.phase.left;
    var all := got + left;
    assert got + [left[0]] == all[..|got| + 1];
    assert got + [left[0]] + left[1..] == all;
    assert left[0] in s.log;
  }

  lemma FirstMoves(got: seq<Event>, left: seq<Event>, id: int)
    requires left != []
    ensures got + [left[0]] + left[1..] == got + left && Cursor(left[0].id, left[1..]) == Cursor(id, left)
  {
    if |left| > 1 { assert left[1..][|left| - 2] == left[|left| - 1]; }
  }

  lemma SendKeeps(s: State, maxsize: int, q: nat, r: nat)
    requires Sound(s) && PhaseInv(s, q, r) && Enabled(s, Send)
    ensures Sound(Next(s, Send, maxsize)) && PhaseInv(Next(s, Send, maxsize), q, r)
  {
    var c, s' := s.client, Next(s, Send, maxsize);
    SendKeepsRest(s, maxsize);
    var left := c.phase.left;
    FirstMoves(c.got, left, c.maxId);
    AfterPrefix(s.log, r, c.start);
  }

  lemma GoLiveKeeps(s: State, maxsize: int, q: nat, r: nat)
    requires Sound(s) && PhaseInv(s, q, r) && Enabled(s, GoLive)
    ensures PhaseInv(Next(s, GoLive, maxsize), q, r)
  {
    var c := s.client;
    assert c.got + [] == c.got;
    AfterPrefix(s.log, r, c.start);
    assert s.log[..if q < r then r else q] == s.log[..r] || c.overflowed;
  }

  lemma DisconnectKeeps(s: State, maxsize: int, q: nat, r: nat)
    requires PhaseInv(s, q, r) && Enabled(s, Disconnect)
    ensures PhaseInv(Next(s, Disconnect, maxsize), q, r)
  {
    if s.client.phase.Replaying? {
      AfterPrefix(s.log, r, s.client.start);
    }
  }

  // The head of the queue is either below the watermark or newer than everything received.

  lemma SkipKeeps(s: State, maxsize: int, q: nat, r: nat)
    requires Sound(s) && PhaseInv(s, q, r) && Enabled(s, Dequeue) && s.client.buf[0].id <= s.client.maxId
    ensures PhaseInv(Next(s, Dequeue, maxsize), q + 1, r)
  {
    var c := s.client;
    assert s.log[q] == c.buf[0];
    assert c.buf[1..] == s.log[q + 1..s.published];
    AfterOneMore(s.log, q, c.start);
    if q < r { assert q + 1 == r ==> s.log[..q + 1] == s.log[..r]; }
  }

  lemma TakeKeepsSound(s: State, maxsize: int, q: nat)
    requires Sound(s) && Suffix(s, q) && Ahead(s, q) && s.client.start <= s.client.maxId
    requires s.client.phase.Live? && s.client.buf != [] && s.client.buf[0].id > s.client.maxId
    ensures Sound(Next(s, Dequeue, maxsize)) && Ahead(Next(s, Dequeue, maxsize), q + 1)
  {
    var c := s.client;
    assert s.log[q] == c.buf[0] && c.buf[0] in s.log;
    assert s.log[q].id > Cursor(c.start, c.got);
    assert forall i :: 0 <= i < |c.got| ==> c.got[i].id <= Cursor(c.start, c.got);
  }

  lemma TakeKeepsGapless(s: State, maxsize: int, q: nat, r: nat)
    requires s.client.phase.Live? && PhaseInv(s, q, r) && !s.client.lossy && !s.client.overflowed
    requires s.client.buf != [] && s.client.buf[0].id > s.client.maxId
    ensures r <= q && s.client.got + [s.client.buf[0]] == After(s.log[..q + 1], s.client.start)
    ensures Gapless(Next(s, Dequeue, maxsize))
  {
    var c := s.client;
    assert s.log[q] == c.buf[0];
    AfterOneMore(s.log, q, c.start);
    AfterPrefix(s.log, q + 1, c.start);
  }

  lemma TakeKeeps(s: State, maxsize: int, q: nat, r: nat)
    requires Sound(s) && PhaseInv(s, q, r) && Enabled(s, Dequeue) && s.client.buf[0].id > s.client.maxId
    ensures Sound(Next(s, Dequeue, maxsize)) && PhaseInv(Next(s, Dequeue, maxsize), q + 1, r)
  {
    TakeKeepsSound(s, maxsize, q);
    assert s.client.buf[1..] == s.log[q + 1..s.published];
    if !s.client.lossy && !s.client.overflowed {
      TakeKeepsGapless(s, maxsize, q, r);
    }
  }

  lemma StepKeepsTerminal(s: State, a: Action, maxsize: int)
    requires EndsAtTerminal(s.client) && Enabled(s, a)
    ensures EndsAtTerminal(Next(s, a, maxsize).client)
  {
  }

  lemma ClientStepKeeps(s: State, a: Action, maxsize: int, q: nat, r: nat)
    requires Sound(s) && PhaseInv(s, q, r) && Enabled(s, a) && !a.Append? && !a.Publish?
    ensures Sound(Next(s, a, maxsize)) && exists q': nat, r': nat :: PhaseInv(Next(s, a, maxsize), q', r')
  {
    match a
    case Connect => ConnectKeeps(s, maxsize, q, r);
    case Read => ReadKeeps(s, maxsize, q, r);
    case Send => SendKeeps(s, maxsize, q, r);
    case GoLive => GoLiveKeeps(s, maxsize, q, r);
    case Disconnect => DisconnectKeeps(s, maxsize, q, r);
    case Dequeue =>
      if s.client.buf[0].id <= s.client.maxId {
        SkipKeeps(s, maxsize, q, r);
      } else {
        TakeKeeps(s, maxsize, q, r);
      }
  }

  lemma StepKeepsInv(s: State, a: Action, maxsize: int)
    requires Inv(s, maxsize) && Enabled(s, a)
    ensures Inv(Next(s, a, maxsize), maxsize)
  {
    var q: nat, r: nat :| PhaseInv(s, q, r);
    StepKeepsTerminal(s, a, maxsize);
    match a
    case Append(e) =>
      AppendKeepsSound(s, e, maxsize);
      AppendKeeps(s, e, maxsize, q, r);
    case Publish => PublishKeeps(s, maxsize, q, r);
    case _ => ClientStepKeeps(s, a, maxsize, q, r);
  }

  lemma {:induction false} RunKeepsInv(states: seq<State>, actions: seq<Action>, maxsize: int, i: nat)
    requires Run(states, actions, maxsize) && i < |states|
    ensures Inv(states[i], maxsize)
  {
    if i == 0 {
      assert PhaseInv(states[0], 0, 0);
    } else {
      RunKeepsInv(states, actions, maxsize, i - 1);
      StepKeepsInv(states[i - 1], actions[i - 1], maxsize);
    }
  }

  // ---- results over whole runs

  /** Whatever the interleaving, overflow and number of reconnects, ids received strictly increase, lie
      past the starting id and are events of the log. */
  lemma IdsStrictlyIncrease(states: seq<State>, actions: seq<Action>, maxsize: int, i: nat)
    requires Run(states, actions, maxsize) && i < |states|
    ensures Increasing(states[i].client.got)
    ensures forall e :: e in states[i].client.got ==> e in states[i].log && e.id > states[i].client.start
  {
    RunKeepsInv(states, actions, maxsize, i);
  }

  /** While nothing was delivered from a queue that had dropped an entry, the events received are the first
      ones after the starting id, none missing and none twice. */
  lemma NothingMissedWithoutOverflow(states: seq<State>, actions: seq<Action>, maxsize: int, i: nat)
    requires Run(states, actions, maxsize) && i < |states| && !states[i].client.lossy
    ensures states[i].client.got <= After(states[i].log, states[i].client.start)
  {
    RunKeepsInv(states, actions, maxsize, i);
    var s := states[i];
    var q: nat, r: nat :| PhaseInv(s, q, r);
    if s.client.phase.Replaying? {
      AfterPrefix(s.log, r, s.client.start);
    }
  }

  /** No event was published to a queue that was full. */
  ghost predicate AlwaysRoom(states: seq<State>, actions: seq<Action>, maxsize: int, i: nat)
    requires i < |states| == |actions| + 1
  {
    forall k :: 0 <= k < i && actions[k].Publish? && Connected(states[k].client.phase) ==>
      maxsize <= 0 || |states[k].client.buf| < maxsize
  }

  lemma RoomKeepsAll(s: State, a: Action, maxsize: int)
    requires Enabled(s, a) && !s.client.lossy && !s.client.overflowed
    requires a.Publish? && Connected(s.client.phase) ==> maxsize <= 0 || |s.client.buf| < maxsize
    ensures !Next(s, a, maxsize).client.lossy && !Next(s, a, maxsize).client.overflowed
  {
  }

  lemma {:induction false} NothingLostWithRoom(states: seq<State>, actions: seq<Action>, maxsize: int, i: nat)
    requires Run(states, actions, maxsize) && i < |states| && AlwaysRoom(states, actions, maxsize, i)
    ensures !states[i].client.lossy && !states[i].client.overflowed
  {
    if i == 0 {
    } else {
      NothingLostWithRoom(states, actions, maxsize, i - 1);
      RoomKeepsAll(states[i - 1], actions[i - 1], maxsize);
    }
  }

  /** A live client that has drained its queue, with the writer idle, has received everything. */
  lemma DrainedClientIsComplete(states: seq<State>, actions: seq<Action>, maxsize: int, i: nat)
    requires Run(states, actions, maxsize) && i < |states|
    requires var c := states[i].client; c.phase.Live? && c.buf == [] && !c.lossy && !c.overflowed
    requires states[i].published == |states[i].log|
    ensures states[i].client.got == After(states[i].log, states[i].client.start)
  {
    RunKeepsInv(states, actions, maxsize, i);
    var s := states[i];
    var q: nat, r: nat :| PhaseInv(s, q, r);
    assert s.log[..|s.log|] == s.log;
  }

  /** As long as every publication found room in the client's queue, nothing is missing and nothing comes twice;
      and a live client with a drained queue and an idle writer has everything. */
  lemma NothingMissedWithRoom(states: seq<State>, actions: seq<Action>, maxsize: int, i: nat)
    requires Run(states, actions, maxsize) && i < |states| && AlwaysRoom(states, actions, maxsize, i)
    ensures var s, c := states[i], states[i].client;
            && c.got <= After(s.log, c.start)
            && (c.phase.Live? && c.buf == [] && s.published == |s.log| ==> c.got == After(s.log, c.start))
  {
    NothingLostWithRoom(states, actions, maxsize, i);
    NothingMissedWithoutOverflow(states, actions, maxsize, i);
    var s, c := states[i], states[i].client;
    if c.phase.Live? && c.buf == [] && s.published == |s.log| {
      DrainedClientIsComplete(states, actions, maxsize, i);
    }
  }

  /** The queue is at most `maxsize` long and holds the newest published events without a hole. */
  lemma QueueIsNewestSuffix(states: seq<State>, actions: seq<Action>, maxsize: int, i: nat)
    requires Run(states, actions, maxsize) && i < |states| && Connected(states[i].client.phase)
    ensures maxsize > 0 ==> |states[i].client.buf| <= maxsize
    ensures var s := states[i]; |s.client.buf| <= s.published <= |s.log| <= s.published + 1
    ensures var s := states[i]; s.client.buf == s.log[s.published - |s.client.buf|..s.published]
  {
    RunKeepsInv(states, actions, maxsize, i);
  }

  /** Connections were opened only where the last one had been lost, not where the server had ended it. */
  ghost predicate NeverReopened(states: seq<State>, actions: seq<Action>, i: nat)
    requires i < |states| == |actions| + 1
  {
    forall k :: 0 <= k < i && actions[k].Connect? ==> !states[k].client.phase.Closed?
  }

  /** At most the last event received is a terminal one, and then the stream is over. */
  ghost predicate OneTerminal(c: Client) {
    && (forall k :: 0 <= k < |c.got| - 1 ==> !c.got[k].terminal)
    && (c.phase.Closed? <==> c.got != [] && c.got[|c.got| - 1].terminal)
  }

  lemma StepKeepsOneTerminal(s: State, a: Action, maxsize: int)
    requires Enabled(s, a) && OneTerminal(s.client) && (a.Connect? ==> !s.client.phase.Closed?)
    ensures OneTerminal(Next(s, a, maxsize).client)
  {
  }

  lemma {:induction false} RunKeepsOneTerminal(states: seq<State>, actions: seq<Action>, maxsize: int, i: nat)
    requires Run(states, actions, maxsize) && i < |states| && NeverReopened(states, actions, i)
    ensures OneTerminal(states[i].client)
  {
    if i == 0 {
    } else {
      RunKeepsOneTerminal(states, actions, maxsize, i - 1);
      StepKeepsOneTerminal(states[i - 1], actions[i - 1], maxsize);
    }
  }

  /** Over any number of lost and resumed connections, a client that the server has closed holds exactly the
      events after its starting id up to the first terminal one. */
  lemma ClosedAtFirstTerminal(states: seq<State>, actions: seq<Action>, maxsize: int, i: nat)
    requires Run(states, actions, maxsize) && i < |states| && NeverReopened(states, actions, i)
    requires states[i].client.phase.Closed? && !states[i].client.lossy
    ensures var got := states[i].client.got;
            && got != [] && got <= After(states[i].log, states[i].client.start)
            && forall k :: 0 <= k < |got| ==> (got[k].terminal <==> k == |got| - 1)
  {
    NothingMissedWithoutOverflow(states, actions, maxsize, i);
    RunKeepsOneTerminal(states, actions, maxsize, i);
  }

  /** A client that never reopens an ended stream has received a terminal event exactly when it is closed. */
  lemma OpenUntilTerminal(states: seq<State>, actions: seq<Action>, maxsize: int, i: nat)
    requires Run(states, actions, maxsize) && i < |states| && NeverReopened(states, actions, i)
    ensures states[i].client.phase.Closed? <==> exists e :: e in states[i].client.got && e.terminal
  {
    RunKeepsOneTerminal(states, actions, maxsize, i);
  }

  // ---- what overflow costs

  /** A reconnect replays a missing event exactly when nothing newer has been received. */
  lemma ReplayRecoversExactly(s: State, e: Event, maxsize: int)
    requires s.client.phase.Subscribed? && e in s.log
    ensures e in Next(s, Read, maxsize).client.phase.left <==> e.id > Cursor(s.client.start, s.client.got)
  {
    AfterMembers(s.log, Cursor(s.client.start, s.client.got), e);
  }

  lemma StepOnlyGrows(s: State, a: Action, maxsize: int)
    requires Enabled(s, a)
    ensures s.client.got <= Next(s, a, maxsize).client.got && Next(s, a, maxsize).client.start == s.client.start
  {
  }

  predicate Extends(c: Client, c': Client) {
    c.got <= c'.got && c'.start == c.start
  }

  lemma RunStepOnlyGrows(states: seq<State>, actions: seq<Action>, maxsize: int, k: nat)
    requires Run(states, actions, maxsize) && 0 < k < |states|
    ensures Extends(states[k - 1].client, states[k].client)
  {
    assert states[k - 1 + 1] == Next(states[k - 1], actions[k - 1], maxsize);
    StepOnlyGrows(states[k - 1], actions[k - 1], maxsize);
  }

  lemma {:induction false} ReceivedOnlyGrows(states: seq<State>, actions: seq<Action>, maxsize: int, i: nat, k: nat)
    requires Run(states, actions, maxsize) && i <= k < |states|
    ensures Extends(states[i].client, states[k].client)
  {
    if k > i {
      ReceivedOnlyGrows(states, actions, maxsize, i, k - 1);
      RunStepOnlyGrows(states, actions, maxsize, k);
    }
  }

  /** An event passed over by a newer one never arrives, over any number of reconnects. */
  lemma PassedOverIsLost(states: seq<State>, actions: seq<Action>, maxsize: int, i: nat, k: nat, e: Event)
    requires Run(states, actions, maxsize) && i <= k < |states|
    requires e !in states[i].client.got && e.id <= Cursor(states[i].client.start, states[i].client.got)
    ensures e !in states[k].client.got
  {
    ReceivedOnlyGrows(states, actions, maxsize, i, k);
    IdsStrictlyIncrease(states, actions, maxsize, k);
    var before, now := states[i].client.got, states[k].client.got;
    forall j | 0 <= j < |now| ensures now[j] != e {
      if j < |before| {
        assert now[j] == before[j];
      } else if before != [] {
        assert now[|before| - 1].id < now[j].id;
      }
    }
  }

  ghost predicate Reaches(states: seq<State>, actions: seq<Action>, maxsize: int, s: State) {
    Run(states, actions, maxsize) && states[|actions|] == s
  }

  lemma RunExtends(states: seq<State>, actions: seq<Action>, maxsize: int, s: State, a: Action)
    requires Reaches(states, actions, maxsize, s) && Enabled(s, a)
    ensures Reaches(states + [Next(s, a, maxsize)], actions + [a], maxsize, Next(s, a, maxsize))
  {
  }

  lemma LiveBeforeAnyEvent() returns (states: seq<State>, actions: seq<Action>)
    ensures Reaches(states, actions, 1, State([], 0, Client(0, [], 0, Live, [], 0, false, false)))
  {
    var s := State([], 0, Client(0, [], 0, Away, [], 0, false, false));
    states, actions := [s], [];
    RunExtends(states, actions, 1, s, Connect);
    states, actions, s := states + [Next(s, Connect, 1)], actions + [Connect], Next(s, Connect, 1);
    RunExtends(states, actions, 1, s, Read);
    states, actions, s := states + [Next(s, Read, 1)], actions + [Read], Next(s, Read, 1);
    RunExtends(states, actions, 1, s, GoLive);
    states, actions := states + [Next(s, GoLive, 1)], actions + [GoLive];
  }

  lemma PublishOne(states: seq<State>, actions: seq<Action>, s: State, e: Event)
      returns (states': seq<State>, actions': seq<Action>)
    requires Reaches(states, actions, 1, s) && Enabled(s, Append(e))
    ensures Reaches(states', actions', 1, Next(Next(s, Append(e), 1), Publish, 1))
  {
    RunExtends(states, actions, 1, s, Append(e));
    var s' := Next(s, Append(e), 1);
    states', actions' := states + [s'], actions + [Append(e)];
    RunExtends(states', actions', 1, s', Publish);
    states', actions' := states' + [Next(s', Publish, 1)], actions' + [Publish];
  }

  /** Such an event exists: a queue of size one drops the first of two events and delivers the second. So a
      slow client's history is not always recoverable by replay. */
  lemma OverflowCanLose(e1: Event, e2: Event) returns (states: seq<State>, actions: seq<Action>)
    requires 0 < e1.id < e2.id && !e1.terminal
    ensures Run(states, actions, 1)
    ensures var s := states[|actions|];
            && e1 in s.log && s.published == |s.log| && e1 !in s.client.got
            && e1.id > s.client.start && e1.id <= Cursor(s.client.start, s.client.got)
  {
    states, actions := LiveBeforeAnyEvent();
    var s := State([], 0, Client(0, [], 0, Live, [], 0, false, false));
    states, actions := PublishOne(states, actions, s, e1);
    s := State([e1], 1, Client(0, [], 0, Live, [e1], 0, false, false));
    states, actions := PublishOne(states, actions, s, e2);
    s := State([e1, e2], 2, Client(0, [], 0, Live, [e2], 0, true, false));
    RunExtends(states, actions, 1, s, Dequeue);
    states, actions := states + [Next(s, Dequeue, 1)], actions + [Dequeue];
  }

  // ---- a lost connection can always be made good

  /** The events up to and including the first terminal one. */
  function UntilTerminal(es: seq<Event>): seq<Event> {
    if es == [] then [] else if es[0].terminal then [es[0]] else [es[0]] + UntilTerminal(es[1..])
  }

  /** The same run, continued by the client alone. */
  ghost predicate Continues(states: seq<State>, actions: seq<Action>, states': seq<State>, actions': seq<Action>,
                            maxsize: int)
    requires |states| == |actions| + 1
  {
    && Run(states', actions', maxsize) && states <= states' && actions <= actions'
    && var s, t := states[|actions|], states'[|actions'|];
       && t.log == s.log && t.published == s.published
       && t.client.start == s.client.start && t.client.lossy == s.client.lossy
  }

  lemma OneMoreStep(states: seq<State>, actions: seq<Action>, maxsize: int, a: Action)
    returns (states': seq<State>, actions': seq<Action>)
    requires Run(states, actions, maxsize) && Enabled(states[|actions|], a)
    requires a.Connect? || a.Read? || a.Send? || a.Disconnect?
    ensures Continues(states, actions, states', actions', maxsize)
    ensures states'[|actions'|] == Next(states[|actions|], a, maxsize)
  {
    var s := states[|actions|];
    RunExtends(states, actions, maxsize, s, a);
    states', actions' := states + [Next(s, a, maxsize)], actions + [a];
  }

  lemma ContinuesFurther(a: seq<State>, x: seq<Action>, b: seq<State>, y: seq<Action>, c: seq<State>, z: seq<Action>,
                         maxsize: int)
    requires |a| == |x| + 1 && Continues(a, x, b, y, maxsize) && |b| == |y| + 1 && Continues(b, y, c, z, maxsize)
    ensures Continues(a, x, c, z, maxsize)
  {
  }

  lemma SendsOne(states: seq<State>, actions: seq<Action>, maxsize: int)
    returns (states': seq<State>, actions': seq<Action>)
    requires Run(states, actions, maxsize) && Enabled(states[|actions|], Send)
    ensures Continues(states, actions, states', actions', maxsize)
    ensures var c, c' := states[|actions|].client, states'[|actions'|].client;
            && c'.got == c.got + [c.phase.left[0]]
            && c'.phase == if c.phase.left[0].terminal then Closed else Replaying(c.phase.left[1..])
  {
    states', actions' := OneMoreStep(states, actions, maxsize, Send);
  }

  lemma Regrouped<T>(a: seq<T>, b: seq<T>, c: seq<T>)
    ensures (a + b) + c == a + (b + c)
  {
  }

  lemma GotInTwo(got: seq<Event>, left: seq<Event>)
    requires left != [] && !left[0].terminal
    ensures (got + [left[0]]) + UntilTerminal(left[1..]) == got + UntilTerminal(left)
  {
    Regrouped(got, [left[0]], UntilTerminal(left[1..]));
  }

  lemma {:induction false} SendsTheRest(states: seq<State>, actions: seq<Action>, maxsize: int)
    returns (states': seq<State>, actions': seq<Action>)
    requires Run(states, actions, maxsize) && states[|actions|].client.phase.Replaying?
    ensures Continues(states, actions, states', actions', maxsize)
    ensures var c := states[|actions|].client;
            states'[|actions'|].client.got == c.got + UntilTerminal(c.phase.left)
    decreases |states[|actions|].client.phase.left|
  {
    var c := states[|actions|].client;
    if c.phase.left == [] {
      states', actions' := states, actions;
    } else if c.phase.left[0].terminal {
      states', actions' := SendsOne(states, actions, maxsize);
    } else {
      var more, acts := SendsOne(states, actions, maxsize);
      states', actions' := SendsTheRest(more, acts, maxsize);
      ContinuesFurther(states, actions, more, acts, states', actions', maxsize);
      GotInTwo(c.got, c.phase.left);
    }
  }

  /** The history after the cursor, delivered over a connection just opened. */
  lemma ReplaysAll(states: seq<State>, actions: seq<Action>, maxsize: int)
    returns (states': seq<State>, actions': seq<Action>)
    requires Run(states, actions, maxsize) && Enabled(states[|actions|], Connect)
    ensures Continues(states, actions, states', actions', maxsize)
    ensures var s := states[|actions|]; var c := s.client;
            states'[|actions'|].client.got == c.got + UntilTerminal(After(s.log, Cursor(c.start, c.got)))
  {
    var a, x := OneMoreStep(states, actions, maxsize, Connect);
    var b, y := OneMoreStep(a, x, maxsize, Read);
    ContinuesFurther(states, actions, a, x, b, y, maxsize);
    states', actions' := SendsTheRest(b, y, maxsize);
    ContinuesFurther(states, actions, b, y, states', actions', maxsize);
  }

  /** From every point of every run, a client that reconnects can still receive everything newer than what it has,
      up to the first terminal event, whatever its queue dropped. */
  lemma ReconnectDelivers(states: seq<State>, actions: seq<Action>, maxsize: int)
    returns (states': seq<State>, actions': seq<Action>)
    requires Run(states, actions, maxsize)
    ensures Continues(states, actions, states', actions', maxsize)
    ensures var s := states[|actions|]; var c := s.client;
            states'[|actions'|].client.got == c.got + UntilTerminal(After(s.log, Cursor(c.start, c.got)))
  {
    if Connected(states[|actions|].client.phase) {
      var a, x := OneMoreStep(states, actions, maxsize, Disconnect);
      states', actions' := ReplaysAll(a, x, maxsize);
      ContinuesFurther(states, actions, a, x, states', actions', maxsize);
    } else {
      states', actions' := ReplaysAll(states, actions, maxsize);
    }
  }

  lemma {:induction false} AllUntilTerminal(es: seq<Event>)
    requires forall i :: 0 <= i < |es| - 1 ==> !es[i].terminal
    ensures UntilTerminal(es) == es
  {
    if |es| > 1 {
      AllUntilTerminal(es[1..]);
    } else if |es| == 1 {
      assert es[1..] == [];
    }
  }

  /** So as long as no event was delivered out of a queue that had dropped one, nothing is lost for good: the client
      can end with every event after its starting id. */
  lemma NothingLostForGood(states: seq<State>, actions: seq<Action>, maxsize: int)
    returns (states': seq<State>, actions': seq<Action>)
    requires Run(states, actions, maxsize) && !states[|actions|].client.lossy
    requires forall i :: 0 <= i < |states[|actions|].log| - 1 ==> !states[|actions|].log[i].terminal
    ensures Continues(states, actions, states', actions', maxsize)
    ensures var s := states[|actions|]; states'[|actions'|].client.got == After(s.log, s.client.start)
  {
    var s := states[|actions|];
    var rest := After(s.log, Cursor(s.client.start, s.client.got));
    states', actions' := ReconnectDelivers(states, actions, maxsize);
    NothingMissedWithoutOverflow(states, actions, maxsize, |actions|);
    RunKeepsInv(states, actions, maxsize, |actions|);
    OnlyLastTerminal(s.log, Cursor(s.client.start, s.client.got));
    AllUntilTerminal(rest);
    ResumeCompletes(s.log, s.client.start, s.client.got);
  }

  lemma {:induction false} OnlyLastTerminal(es: seq<Event>, id: int)
    requires forall i :: 0 <= i < |es| - 1 ==> !es[i].terminal
    ensures forall i :: 0 <= i < |After(es, id)| - 1 ==> !After(es, id)[i].terminal
  {
    if es != [] {
      var n := |es| - 1;
      forall e | e in After(es[..n], id) ensures !e.terminal { AfterMembers(es[..n], id, e); }
      OnlyLastTerminal(es[..n], id);
    }
  }
}
