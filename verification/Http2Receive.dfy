/**
 * Receive windows of HTTP/2 (section 6.9 of RFC 7540), as the server session keeps them
 * (ext-src/swoole_http2_server.cc); the client counts its windows in the same way.
 *
 * An endpoint counts a window in a 32-bit field.  What the peer may really still send is kept
 * beside it: it starts from the window the protocol gives the peer, falls with every DATA
 * frame the peer sends and rises with every WINDOW_UPDATE the endpoint sends.
 */
module Http2Receive {
  import opened Prelude

  /** The connection window every peer starts with; SETTINGS do not change it (section 6.9.2). */
  const DEFAULT_CONNECTION_WINDOW := 65535

  // -------------------------------------------------------------- one window

  /** A DATA frame's payload: its length has 24 bits. */
  type Payload = s: seq<byte> | |s| < 0x100_0000

  /** Subtraction of two `uint32_t`. */
  function Minus32(a: uint32, n: uint32): uint32 {
    if n <= a then a - n else a - n + UINT32_RANGE
  }

  /** The field `local_window_size`; what the peer may really still send; how often the field wrapped around. */
  datatype Window = Window(local: uint32, peer: int, turns: nat) {
    /** Less than a quarter is counted after a frame of `n` octets. */
    predicate Due(init: uint32, n: uint32) {
      Minus32(local, n) < init / 4
    }

    /** The increment to send after such a frame, 0 for none. */
    function Update(init: uint32, n: uint32): uint32 {
      if Due(init, n) then init - Minus32(local, n) else 0
    }

    function After(init: uint32, n: uint32): Window {
      Window(if Due(init, n) then init else Minus32(local, n), peer - n + Update(init, n),
             if n <= local then turns else turns + 1)
    }

    /** The field is what the peer has left plus `skew`, but for its turns, and well filled. */
    ghost predicate Balanced(init: uint32, skew: int) {
      local == peer + skew + turns * UINT32_RANGE && init / 4 <= local && (turns == 0 ==> local <= init)
    }
  }

  /** Whatever frames come, the balance is kept, and the field wraps exactly for a frame it cannot hold. */
  lemma AfterBalanced(w: Window, init: uint32, skew: int, n: uint32)
    requires w.Balanced(init, skew)
    ensures w.After(init, n).Balanced(init, skew)
    ensures w.After(init, n).turns == w.turns <==> n <= w.local
  {
  }

  /** A field after a debit of `n`, in 32 bits. */
  function Left(local: uint32, n: uint32): int {
    if n <= local then local - n else local - n + UINT32_RANGE
  }

  /** Below a quarter of the initial window the field is refilled, by an update of what is missing. */
  ghost predicate Refilled(was: Window, now: Window, init: uint32, n: uint32, update: int) {
    && now.local == (if Left(was.local, n) < init / 4 then init else Left(was.local, n))
    && update == (if Left(was.local, n) < init / 4 then init - Left(was.local, n) else 0)
    && now.peer == was.peer - n + update
  }

  lemma RefilledIs(w: Window, init: uint32, n: uint32)
    ensures Refilled(w, w.After(init, n), init, n, w.Update(init, n))
    ensures w.Due(init, n) <==> Left(w.local, n) < init / 4
  {
  }

  /** The debit of one field and, when it is low then, its refill; `update` is 0 when none is sent. */
  method Consume(local: uint32, init: uint32, n: uint32, ghost w: Window) returns (now: uint32, update: uint32)
    requires w.local == local
    ensures now == w.After(init, n).local && update == w.Update(init, n)
  {
    now := Minus32(local, n);
    update := 0;
    if now < init / 4 {
      update := init - now;
      now := init;
    }
  }

  // ------------------------------------------------------- the server session

  /** A stream of the server: its window, the body so far, whether its response has ended. */
  datatype Inbound = Inbound(win: Window, body: seq<byte>, ended: bool)

  datatype Verdict = Accepted | Rejected | ConnectionError

  /** A WINDOW_UPDATE frame sent; stream 0 is the connection. */
  datatype Grant = Grant(id: uint32, increment: uint32)

  /** What arrives, or happens to a stream, between two DATA frames. */
  datatype Event =
    | DataFrame(id: uint32, payload: Payload)
    | StreamOpened(id: uint32)
    | StreamClosed(id: uint32)
    | ResponseEnded(id: uint32)

  function DataSize(e: Event): nat {
    if e.DataFrame? then |e.payload| else 0
  }

  /** No frame that is within the windows and is not refused can be too long for the connection field. */
  predicate Countable(init: uint32, maxBody: nat) {
    init >= DEFAULT_CONNECTION_WINDOW || maxBody <= init / 4 || init == 0
  }

  /**
   * A session.  The last three fields are not in the code: octets received that no window was
   * debited for, whether the peer ever sent more than it may, and whether the connection is up.
   */
  datatype Account = Account(init: uint32, maxBody: nat, conn: Window, streams: map<uint32, Inbound>,
                             grants: seq<Grant>, lost: nat, overdrawn: bool, open: bool)
  {
    /** By how much the connection field overstates what the peer may send. */
    function Skew(): int {
      init - DEFAULT_CONNECTION_WINDOW + lost
    }

    ghost predicate StreamOk(s: uint32)
      requires s in streams
    {
      && streams[s].win.Balanced(init, 0) && |streams[s].body| <= maxBody
      && (!overdrawn ==> streams[s].win.peer >= 0 && streams[s].win.turns == 0)
      && (!overdrawn && init < 4 ==> streams[s].win.peer + |streams[s].body| == init)
    }

    ghost predicate Valid() {
      && conn.Balanced(init, Skew())
      && (!overdrawn ==> conn.peer >= 0)
      && (!overdrawn && Countable(init, maxBody) ==> conn.turns == 0)
      && (maxBody == 0 && lost == 0 ==> conn.peer == DEFAULT_CONNECTION_WINDOW)
      && 0 !in streams
      && forall s :: s in streams ==> StreamOk(s)
    }

    /** The frame is refused by the stream it is for. */
    predicate Refuses(id: uint32, n: uint32)
      requires id in streams
    {
      n > 0 && (|streams[id].body| + n > maxBody || streams[id].ended)
    }

    /** DATA that is refused still used up the peer's connection window. */
    function Refused(id: uint32, n: uint32, stays: bool): Account {
      this.(conn := conn.(peer := conn.peer - n), lost := lost + n, streams := streams - {id},
            overdrawn := overdrawn || n > conn.peer, open := stays)
    }

    /** DATA that is taken: both windows are debited and, when low, refilled. */
    function Taken(id: uint32, payload: Payload): Account
      requires id in streams
    {
      var s, n := streams[id], |payload|;
      this.(conn := conn.After(init, n),
            streams := streams[id := Inbound(s.win.After(init, n), s.body + payload, s.ended)],
            grants := grants + Sent(0, conn.Update(init, n)) + Sent(id, s.win.Update(init, n)),
            overdrawn := overdrawn || n > conn.peer || n > s.win.peer)
    }

    function Judged(id: uint32, n: uint32): Verdict {
      if id !in streams then ConnectionError else if Refuses(id, n) then Rejected else Accepted
    }

    function Step(e: Event): Account {
      match e
      case DataFrame(id, payload) =>
        if id !in streams then Refused(id, |payload|, false)
        else if Refuses(id, |payload|) then Refused(id, |payload|, open)
        else if payload == [] then this
        else Taken(id, payload)
      case StreamOpened(id) =>
        if id == 0 || id in streams then this
        else this.(streams := streams[id := Inbound(Window(init, init, 0), [], false)])
      case StreamClosed(id) => this.(streams := streams - {id})
      case ResponseEnded(id) =>
        if id in streams then this.(streams := streams[id := streams[id].(ended := true)]) else this
    }
  }

  function Sent(id: uint32, increment: uint32): seq<Grant> {
    if increment > 0 then [Grant(id, increment)] else []
  }

  function Fresh(init: uint32, maxBody: nat): Account {
    Account(init, maxBody, Window(init, DEFAULT_CONNECTION_WINDOW, 0), map[], [], 0, false, true)
  }

  /** A whole run, up to an error that ends the connection. */
  function RunAll(a: Account, events: seq<Event>): Account
    decreases |events|
  {
    if events == [] || !a.open then a else RunAll(a.Step(events[0]), events[1..])
  }

  // --------------------------------------------------------------- the laws

  lemma FreshValid(init: uint32, maxBody: nat)
    ensures Fresh(init, maxBody).Valid()
  {
  }

  lemma TakenValid(a: Account, id: uint32, payload: Payload)
    requires a.Valid() && id in a.streams && !a.Refuses(id, |payload|)
    ensures a.Taken(id, payload).Valid()
  {
    var n, s, b := |payload|, a.streams[id], a.Taken(id, payload);
    assert a.StreamOk(id);
    AfterBalanced(a.conn, a.init, a.Skew(), n);
    AfterBalanced(s.win, a.init, 0, n);
    forall t | t in b.streams ensures b.StreamOk(t) {
      if t != id {
        assert a.StreamOk(t);
      }
    }
  }

  lemma RefusedValid(a: Account, id: uint32, n: uint32, stays: bool)
    requires a.Valid()
    ensures a.Refused(id, n, stays).Valid()
  {
    var b := a.Refused(id, n, stays);
    assert b.conn.peer + b.Skew() == a.conn.peer + a.Skew();
    forall t | t in b.streams ensures b.StreamOk(t) {
      assert a.StreamOk(t);
    }
  }

  lemma StepValid(a: Account, e: Event)
    requires a.Valid()
    ensures a.Step(e).Valid()
  {
    match e {
      case DataFrame(id, payload) =>
        if id !in a.streams || a.Refuses(id, |payload|) {
          RefusedValid(a, id, |payload|, id in a.streams && a.open);
        } else if payload != [] {
          TakenValid(a, id, payload);
        }
      case StreamOpened(_) => StreamsValid(a, a.Step(e));
      case StreamClosed(_) => StreamsValid(a, a.Step(e));
      case ResponseEnded(_) => StreamsValid(a, a.Step(e));
    }
  }

  /**
   * DATA is an error on a stream that is not there, and rejected when its body would get too long
   * or its response has ended.  Then the stream goes, and what it took from the peer's window is
   * lost; else the body grows by it.
   */
  ghost predicate DataLaw(a: Account, id: uint32, payload: Payload, after: Account, r: Verdict) {
    && (r == ConnectionError <==> id !in a.streams)
    && (r == Rejected <==>
          id in a.streams && payload != [] && (|a.streams[id].body| + |payload| > a.maxBody || a.streams[id].ended))
    && (r == Accepted ==>
          && after.lost == a.lost && after.streams.Keys == a.streams.Keys && id in a.streams
          && after.streams[id].body == a.streams[id].body + payload)
    && (r != Accepted ==>
          && after.streams == a.streams - {id} && after.lost == a.lost + |payload|
          && after.conn == a.conn.(peer := a.conn.peer - |payload|) && after.grants == a.grants)
  }

  lemma DataIs(a: Account, id: uint32, payload: Payload)
    ensures DataLaw(a, id, payload, a.Step(DataFrame(id, payload)), a.Judged(id, |payload|))
  {
  }

  /** Streams come and go, each with a window and a body as they were or fresh ones. */
  lemma StreamsValid(a: Account, b: Account)
    requires a.Valid() && b == a.(streams := b.streams) && 0 !in b.streams
    requires forall s :: s in b.streams ==>
               && b.streams[s].win == (if s in a.streams then a.streams[s].win else Window(a.init, a.init, 0))
               && b.streams[s].body == (if s in a.streams then a.streams[s].body else [])
    ensures b.Valid()
  {
    forall s | s in b.streams ensures b.StreamOk(s) {
      assert s in a.streams ==> a.StreamOk(s);
    }
  }

  lemma {:induction false} RunValid(a: Account, events: seq<Event>)
    requires a.Valid()
    ensures RunAll(a, events).Valid()
    decreases |events|
  {
    if events != [] && a.open {
      StepValid(a, events[0]);
      RunValid(a.Step(events[0]), events[1..]);
    }
  }

  /** The increments granted to stream `id`, 0 being the connection. */
  function Granted(grants: seq<Grant>, id: uint32): nat {
    if grants == [] then 0
    else Granted(grants[..|grants| - 1], id)
         + (if grants[|grants| - 1].id == id then grants[|grants| - 1].increment else 0)
  }

  lemma {:induction false} GrantedPlus(a: seq<Grant>, b: seq<Grant>, id: uint32)
    ensures Granted(a + b, id) == Granted(a, id) + Granted(b, id)
  {
    if b == [] {
      assert a + b == a;
    } else {
      var n := |b| - 1;
      GrantedPlus(a, b[..n], id);
      assert (a + b)[..|a| + n] == a + b[..n];
    }
  }

  /** The updates a DATA frame brings add to what was granted before. */
  lemma GrantedMore(grants: seq<Grant>, u: uint32, id: uint32, v: uint32, s: uint32)
    requires id != 0
    ensures Granted(grants + Sent(0, u) + Sent(id, v), s) ==
            Granted(grants, s) + if s == 0 then u else if s == id then v else 0
  {
    GrantedPlus(grants + Sent(0, u), Sent(id, v), s);
    GrantedPlus(grants, Sent(0, u), s);
  }

  /** The octets of DATA that arrive in a run. */
  function Arrived(a: Account, events: seq<Event>): nat
    decreases |events|
  {
    if events == [] || !a.open then 0 else DataSize(events[0]) + Arrived(a.Step(events[0]), events[1..])
  }

  lemma StepSums(a: Account, e: Event)
    requires 0 !in a.streams
    ensures a.Step(e).conn.peer == a.conn.peer - DataSize(e) + Granted(a.Step(e).grants, 0) - Granted(a.grants, 0)
  {
    if e.DataFrame? && e.id in a.streams && !a.Refuses(e.id, |e.payload|) && e.payload != [] {
      var n := |e.payload|;
      GrantedMore(a.grants, a.conn.Update(a.init, n), e.id, a.streams[e.id].win.Update(a.init, n), 0);
    }
  }

  /**
   * Conservation over a whole run: what the peer may still send is what it could, minus all
   * DATA that arrived, plus all updates sent for the connection.
   */
  lemma {:induction false} RunSums(a: Account, events: seq<Event>)
    requires a.Valid()
    ensures var b := RunAll(a, events);
            b.conn.peer == a.conn.peer - Arrived(a, events) + Granted(b.grants, 0) - Granted(a.grants, 0)
    decreases |events|
  {
    if events != [] && a.open {
      StepSums(a, events[0]);
      StepValid(a, events[0]);
      RunSums(a.Step(events[0]), events[1..]);
    }
  }

  /** Stream `s` is there before the run, and all the way through it. */
  ghost predicate LivesOn(a: Account, events: seq<Event>, s: uint32)
    decreases |events|
  {
    s in a.streams && (events != [] && a.open ==> LivesOn(a.Step(events[0]), events[1..], s))
  }

  /** The DATA that arrives on stream `s` in a run. */
  function ArrivedOn(a: Account, events: seq<Event>, s: uint32): seq<byte>
    decreases |events|
  {
    if events == [] || !a.open then []
    else DataOn(events[0], s) + ArrivedOn(a.Step(events[0]), events[1..], s)
  }

  function DataOn(e: Event, s: uint32): Payload {
    if e.DataFrame? && e.id == s then e.payload else []
  }

  /** What happened to stream `s` from `a` to `b`, when `data` arrived on it. */
  ghost predicate StreamConserved(a: Account, b: Account, s: uint32, data: seq<byte>) {
    && s in a.streams && s in b.streams && b.streams[s].body == a.streams[s].body + data
    && b.streams[s].win.peer == a.streams[s].win.peer - |data| + Granted(b.grants, s) - Granted(a.grants, s)
  }

  lemma TakenOn(a: Account, id: uint32, payload: Payload, s: uint32)
    requires 0 !in a.streams && id in a.streams && s in a.streams
    ensures StreamConserved(a, a.Taken(id, payload), s, if s == id then payload else [])
  {
    var t, b := a.streams[id], a.Taken(id, payload);
    GrantedMore(a.grants, a.conn.Update(a.init, |payload|), id, t.win.Update(a.init, |payload|), s);
    if s == id {
      assert b.streams[s] == Inbound(t.win.After(a.init, |payload|), t.body + payload, t.ended);
    } else {
      assert b.streams[s] == a.streams[s] && a.streams[s].body + [] == a.streams[s].body;
    }
  }

  lemma StreamStep(a: Account, e: Event, s: uint32)
    requires 0 !in a.streams && s in a.streams && s in a.Step(e).streams
    ensures StreamConserved(a, a.Step(e), s, DataOn(e, s))
  {
    assert a.streams[s].body + [] == a.streams[s].body;
    if e.DataFrame? && e.id in a.streams && !a.Refuses(e.id, |e.payload|) && e.payload != [] {
      TakenOn(a, e.id, e.payload, s);
    }
  }

  /**
   * Conservation for each stream over a whole run: its body grows by what arrived on it, and
   * what the peer may still send on it is what it could, minus that, plus the updates for it.
   */
  lemma {:induction false} StreamSums(a: Account, events: seq<Event>, s: uint32)
    requires a.Valid() && LivesOn(a, events, s)
    ensures StreamConserved(a, RunAll(a, events), s, ArrivedOn(a, events, s))
    decreases |events|
  {
    if events != [] && a.open {
      var next := a.Step(events[0]);
      StreamStep(a, events[0], s);
      StepValid(a, events[0]);
      StreamSums(next, events[1..], s);
      Assoc(a.streams[s].body, DataOn(events[0], s), ArrivedOn(next, events[1..], s));
    }
  }

  // ----------------------------------------------------------------- stalling

  /** The connection is not going to stall: the field overstates the peer's window by less than a quarter. */
  predicate Safe(skew: int, init: uint32) {
    0 <= skew < init / 4
  }

  /** While that is so, a peer that did not send too much always has something left to send. */
  lemma SafeNeverStalls(w: Window, init: uint32, skew: int)
    requires w.Balanced(init, skew) && Safe(skew, init) && w.peer >= 0
    ensures w.peer > 0
  {
  }

  /** When it is not so, a frame that uses up the peer's window brings no update. */
  lemma UnsafeStalls(a: Account, id: uint32, payload: Payload)
    requires a.Valid() && id in a.streams && |payload| == a.conn.peer && a.Skew() < UINT32_RANGE
    ensures a.Taken(id, payload).conn.peer == 0 <==> !Safe(a.Skew(), a.init)
  {
  }

  function Zeros(n: nat): Payload
    requires n < 0x100_0000
  {
    seq(n, _ => 0)
  }

  /** A peer within its windows, none of whose octets was refused, has nothing left to send. */
  ghost predicate Stalled(a: Account) {
    !a.overdrawn && a.lost == 0 && a.conn.peer == 0
  }

  /** A run from the start after which that is so. */
  ghost predicate Stalls(init: uint32, maxBody: nat, events: seq<Event>) {
    Stalled(RunAll(Fresh(init, maxBody), events))
  }

  lemma RunTwo(a: Account, d: Event, e: Event)
    requires a.open && a.Step(d).open
    ensures RunAll(a, [d, e]) == a.Step(d).Step(e)
  {
    assert [d, e][1..] == [e] && [e][1..] == [];
    assert RunAll(a.Step(d), [e]) == RunAll(a.Step(d).Step(e), []);
  }

  lemma {:induction false} RunPlus(a: Account, first: seq<Event>, more: seq<Event>)
    ensures RunAll(a, first + more) == RunAll(RunAll(a, first), more)
    decreases |first|
  {
    if first == [] {
      assert first + more == more;
    } else if a.open {
      assert (first + more)[1..] == first[1..] + more;
      RunPlus(a.Step(first[0]), first[1..], more);
    }
  }

  /** A frame on a fresh stream, within the windows of the peer. */
  function Burst(id: uint32, n: nat): seq<Event>
    requires n < 0x100_0000
  {
    [StreamOpened(id), DataFrame(id, Zeros(n))]
  }

  /** What such a frame does, if no connection update is due after it. */
  lemma BurstTaken(a: Account, id: uint32, n: nat)
    requires WellBehaved(a) && id != 0 && id !in a.streams
    requires 0 < n <= a.init && n <= a.conn.peer && n <= a.maxBody && n < 0x100_0000 && !a.conn.Due(a.init, n)
    ensures Burdened(a, RunAll(a, Burst(id, n)), id, n)
  {
    var ready := a.(streams := a.streams[id := Inbound(Window(a.init, a.init, 0), [], false)]);
    assert a.Step(StreamOpened(id)) == ready;
    RunTwo(a, StreamOpened(id), DataFrame(id, Zeros(n)));
    StepValid(a, StreamOpened(id));
    BurstStep(ready, id, n);
    assert ready.streams.Keys + {id} == a.streams.Keys + {id};
  }

  lemma BurstRun(a: Account, id: uint32, n: nat) returns (events: seq<Event>)
    requires WellBehaved(a) && id != 0 && id !in a.streams
    requires 0 < n <= a.init && n <= a.conn.peer && n <= a.maxBody && n < 0x100_0000 && !a.conn.Due(a.init, n)
    ensures Burdened(a, RunAll(a, events), id, n)
  {
    BurstTaken(a, id, n);
    events := Burst(id, n);
  }

  /** A session whose peer keeps to its windows and had nothing refused. */
  ghost predicate WellBehaved(a: Account) {
    a.Valid() && a.open && !a.overdrawn && a.lost == 0
  }

  /** `n` more octets were taken on stream `id`, with no connection update. */
  ghost predicate Burdened(a: Account, b: Account, id: uint32, n: uint32) {
    && WellBehaved(b) && b.init == a.init && b.maxBody == a.maxBody
    && b.streams.Keys == a.streams.Keys + {id}
    && b.conn == Window(Minus32(a.conn.local, n), a.conn.peer - n,
                        if n <= a.conn.local then a.conn.turns else a.conn.turns + 1)
  }

  lemma BurstStep(a: Account, id: uint32, n: nat)
    requires WellBehaved(a) && id in a.streams && a.streams[id] == Inbound(Window(a.init, a.init, 0), [], false)
    requires 0 < n <= a.init && n <= a.conn.peer && n <= a.maxBody && n < 0x100_0000 && !a.conn.Due(a.init, n)
    ensures Burdened(a, a.Step(DataFrame(id, Zeros(n))), id, n)
  {
    assert !a.Refuses(id, n) && |Zeros(n)| == n;
    assert a.Step(DataFrame(id, Zeros(n))) == a.Taken(id, Zeros(n));
    TakenValid(a, id, Zeros(n));
    assert a.streams.Keys + {id} == a.streams.Keys;
  }

  /** `m` octets more, on any fresh streams from `id` on, with no connection update. */
  ghost predicate Spent(a: Account, b: Account, id: nat, m: nat) {
    && WellBehaved(b) && b.init == a.init && b.maxBody == a.maxBody && m <= a.conn.local
    && b.conn == Window(a.conn.local - m, a.conn.peer - m, a.conn.turns)
    && forall s :: s in b.streams ==> s < id + m
  }

  /** While the field is high enough, the peer can use up its window in pieces and is given nothing. */
  lemma {:induction false} Spend(a: Account, id: nat, m: nat) returns (events: seq<Event>)
    requires WellBehaved(a) && a.init >= 1 && a.maxBody >= 1 && m <= a.conn.peer
    requires m + a.init / 4 <= a.conn.local && m <= DEFAULT_CONNECTION_WINDOW
    requires 0 < id && id + m < UINT32_RANGE && forall s :: s in a.streams ==> s < id
    ensures Spent(a, RunAll(a, events), id, m)
    decreases m
  {
    if m == 0 {
      events := [];
    } else {
      var least := if a.init < a.maxBody then a.init else a.maxBody;
      var n := if least < m then least else m;
      assert Minus32(a.conn.local, n) == a.conn.local - n && !a.conn.Due(a.init, n);
      var first := BurstRun(a, id, n);
      var b := RunAll(a, first);
      assert b.conn == Window(a.conn.local - n, a.conn.peer - n, a.conn.turns);
      var more := Spend(b, id + 1, m - n);
      events := first + more;
      RunPlus(a, first, more);
    }
  }

  /** A large initial window: the peer sends what it may, and no update is due. */
  lemma LargeWindowStalls(init: uint32, maxBody: nat) returns (events: seq<Event>)
    requires init - DEFAULT_CONNECTION_WINDOW >= init / 4 && maxBody >= 1
    ensures Stalls(init, maxBody, events)
  {
    FreshValid(init, maxBody);
    events := Spend(Fresh(init, maxBody), 1, DEFAULT_CONNECTION_WINDOW);
  }

  /** Below the default the field can wrap: a frame longer than a quarter comes when a quarter is left. */
  lemma SmallWindowWraps(init: uint32, maxBody: nat) returns (events: seq<Event>)
    requires 1 <= init < DEFAULT_CONNECTION_WINDOW && maxBody > init / 4
    ensures var b := RunAll(Fresh(init, maxBody), events);
            && WellBehaved(b) && b.init == init && b.maxBody == maxBody
            && b.conn == Window(UINT32_RANGE - 1, DEFAULT_CONNECTION_WINDOW - init - 1, 1)
            && forall s :: s in b.streams ==> s < init + 3
  {
    FreshValid(init, maxBody);
    var a := Fresh(init, maxBody);
    var quarter := init / 4;
    var first := Spend(a, 1, init - quarter);
    var b := RunAll(a, first);
    assert b.conn == Window(quarter, DEFAULT_CONNECTION_WINDOW - init + quarter, 0);
    var second := BurstRun(b, init + 2, quarter + 1);
    events := first + second;
    RunPlus(a, first, second);
  }

  /** The settings with which a peer that keeps within its windows can be left with nothing to send. */
  predicate CanStall(init: uint32, maxBody: nat) {
    && init >= 1 && maxBody >= 1
    && (if init < DEFAULT_CONNECTION_WINDOW then maxBody > init / 4
        else !Safe(init - DEFAULT_CONNECTION_WINDOW, init))
  }

  lemma StallRun(init: uint32, maxBody: nat) returns (events: seq<Event>)
    requires CanStall(init, maxBody)
    ensures Stalls(init, maxBody, events)
  {
    if init < DEFAULT_CONNECTION_WINDOW {
      var first := SmallWindowWraps(init, maxBody);
      var b := RunAll(Fresh(init, maxBody), first);
      var more := Spend(b, init + 3, b.conn.peer);
      RunPlus(Fresh(init, maxBody), first, more);
      events := first + more;
    } else {
      events := LargeWindowStalls(init, maxBody);
    }
  }

  lemma NeverStalls(init: uint32, maxBody: nat, events: seq<Event>)
    requires !CanStall(init, maxBody)
    ensures !Stalls(init, maxBody, events)
  {
    FreshValid(init, maxBody);
    RunValid(Fresh(init, maxBody), events);
    RunKeeps(Fresh(init, maxBody), events);
  }

  /**
   * A peer that keeps within its windows can be left with nothing to send, although nothing it
   * sent was refused, if and only if the initial window overstates the default of the protocol by
   * a quarter, or is below it and a body may be longer than a quarter of it.
   */
  lemma StallsIff(init: uint32, maxBody: nat)
    ensures (exists events :: Stalls(init, maxBody, events)) <==> CanStall(init, maxBody)
  {
    if CanStall(init, maxBody) {
      var events := StallRun(init, maxBody);
    } else {
      forall events ensures !Stalls(init, maxBody, events) {
        NeverStalls(init, maxBody, events);
      }
    }
  }

  /** A stream's field is what the peer has left on it, between a quarter of the window and all of it. */
  lemma StreamBound(a: Account, s: uint32)
    requires a.Valid() && !a.overdrawn && s in a.streams
    ensures a.init / 4 <= a.streams[s].win.local == a.streams[s].win.peer <= a.init
  {
    assert a.StreamOk(s);
  }

  /** A run from the start after which a peer within its windows has nothing left to send on stream `s`. */
  ghost predicate StreamStalls(init: uint32, maxBody: nat, events: seq<Event>, s: uint32) {
    var b := RunAll(Fresh(init, maxBody), events);
    !b.overdrawn && b.lost == 0 && s in b.streams && b.streams[s].win.peer == 0
  }

  lemma TinyWindowStalls(init: uint32, maxBody: nat)
    requires init < 4 && init <= maxBody
    ensures StreamStalls(init, maxBody, [StreamOpened(1), DataFrame(1, Zeros(init))], 1)
  {
    var a := Fresh(init, maxBody);
    var ready := a.(streams := map[1 := Inbound(Window(init, init, 0), [], false)]);
    assert a.Step(StreamOpened(1)) == ready;
    RunTwo(a, StreamOpened(1), DataFrame(1, Zeros(init)));
  }

  /** A stream can be left like that only with an initial window below four octets, used up by a body. */
  lemma StreamStallsIff(init: uint32, maxBody: nat)
    ensures (exists events, s :: StreamStalls(init, maxBody, events, s)) <==> init < 4 && init <= maxBody
  {
    if init < 4 && init <= maxBody {
      TinyWindowStalls(init, maxBody);
    } else {
      forall events, s ensures !StreamStalls(init, maxBody, events, s) {
        var b := RunAll(Fresh(init, maxBody), events);
        FreshValid(init, maxBody);
        RunValid(Fresh(init, maxBody), events);
        RunKeeps(Fresh(init, maxBody), events);
        assert s in b.streams ==> b.StreamOk(s);
      }
    }
  }

  lemma {:induction false} RunKeeps(a: Account, events: seq<Event>)
    ensures RunAll(a, events).init == a.init && RunAll(a, events).maxBody == a.maxBody
    decreases |events|
  {
    if events != [] && a.open {
      RunKeeps(a.Step(events[0]), events[1..]);
    }
  }

  /** A run from the start of a peer within its windows leaves the connection field unwrapped. */
  ghost predicate CountedBy(init: uint32, maxBody: nat, events: seq<Event>) {
    var b := RunAll(Fresh(init, maxBody), events);
    !b.overdrawn ==> b.conn.turns == 0
  }

  /** Every run of a peer within its windows is counted without wrapping, if and only if no frame can be too long. */
  lemma CountedIff(init: uint32, maxBody: nat)
    ensures (forall events :: CountedBy(init, maxBody, events)) <==> Countable(init, maxBody)
  {
    var a := Fresh(init, maxBody);
    FreshValid(init, maxBody);
    if Countable(init, maxBody) {
      forall events ensures CountedBy(init, maxBody, events) {
        RunValid(a, events);
        RunKeeps(a, events);
      }
    } else {
      var events := SmallWindowWraps(init, maxBody);
      assert !CountedBy(init, maxBody, events);
    }
  }

  // -------------------------------------------------------------- the session

  class Session {
    const init: uint32                       // local_settings.init_window_size
    const maxBody: nat                       // package_max_length
    var local: uint32                        // local_window_size
    var streams: map<uint32, Inbound>
    var grants: seq<Grant>
    ghost var peer: int
    ghost var turns: nat
    ghost var lost: nat
    ghost var overdrawn: bool
    ghost var open: bool

    ghost function A(): Account
      reads this
    {
      Account(init, maxBody, Window(local, peer, turns), streams, grants, lost, overdrawn, open)
    }

    constructor (init: uint32, maxBody: nat)
      ensures A() == Fresh(init, maxBody) && A().Valid()
    {
      this.init, this.maxBody, local := init, maxBody, init;
      streams, grants, peer, turns, lost := map[], [], DEFAULT_CONNECTION_WINDOW, 0, 0;
      overdrawn, open := false, true;
    }

    /** The connection's half of a DATA frame that is taken. */
    method DebitConnection(n: uint32) returns (update: uint32)
      modifies this`local, this`peer, this`turns
      ensures A().conn == old(A()).conn.After(init, n) && update == old(A()).conn.Update(init, n)
      ensures Refilled(old(A()).conn, A().conn, init, n, update)
    {
      ghost var fits := n <= local;
      local, update := Consume(local, init, n, A().conn);
      turns := if fits then turns else turns + 1;
      peer := peer - n + update;
    }

    /** The stream's half; the body grows. */
    method DebitStream(id: uint32, payload: Payload) returns (update: uint32)
      requires id in streams
      modifies this`streams
      ensures var s := old(streams)[id];
              && streams == old(streams)[id := Inbound(s.win.After(init, |payload|), s.body + payload, s.ended)]
              && update == s.win.Update(init, |payload|)
              && Refilled(s.win, streams[id].win, init, |payload|, update)
    {
      var s, n := streams[id], |payload|;
      var now;
      now, update := Consume(s.win.local, init, n, s.win);
      var win := Window(now, s.win.peer - n + update, if n <= s.win.local then s.win.turns else s.win.turns + 1);
      streams := streams[id := Inbound(win, s.body + payload, s.ended)];
    }

    /** A DATA frame that is taken: both windows debited and each refilled if it is low then. */
    method Accept(id: uint32, payload: Payload)
      requires id in streams
      modifies this
      ensures A() == old(A()).Taken(id, payload)
      ensures old(A()).Valid() && !old(A()).Refuses(id, |payload|) ==> A().Valid()
    {
      if A().Valid() && !A().Refuses(id, |payload|) {
        TakenValid(A(), id, payload);
      }
      overdrawn := overdrawn || |payload| > peer || |payload| > streams[id].win.peer;
      var update := DebitConnection(|payload|);
      var streamUpdate := DebitStream(id, payload);
      grants := grants + Sent(0, update) + Sent(id, streamUpdate);
    }

    /** DATA for no stream, or that its stream refuses. */
    method Refuse(id: uint32, n: uint32, ghost stays: bool)
      modifies this
      ensures A() == old(A()).Refused(id, n, stays) && (old(A()).Valid() ==> A().Valid())
    {
      if A().Valid() {
        RefusedValid(A(), id, n, stays);
      }
      overdrawn, open := overdrawn || n > peer, stays;
      peer, lost := peer - n, lost + n;
      streams := streams - {id};
    }

    method OnData(id: uint32, payload: Payload) returns (r: Verdict)
      requires A().Valid()
      modifies this
      ensures A() == old(A()).Step(DataFrame(id, payload)) && A().Valid()
      ensures DataLaw(old(A()), id, payload, A(), r)
    {
      StepValid(A(), DataFrame(id, payload));
      DataIs(A(), id, payload);
      r := Judge(id, payload);
    }

    method Judge(id: uint32, payload: Payload) returns (r: Verdict)
      modifies this
      ensures A() == old(A()).Step(DataFrame(id, payload)) && r == old(A()).Judged(id, |payload|)
    {
      if id !in streams {
        Refuse(id, |payload|, false);
        return ConnectionError;
      }
      if |payload| > 0 {
        if |streams[id].body| + |payload| > maxBody || streams[id].ended {
          Refuse(id, |payload|, open);
          return Rejected;
        }
        Accept(id, payload);
      }
      return Accepted;
    }

    method TakeStep(e: Event) returns (go: bool)
      requires A().Valid() && open
      modifies this
      ensures A() == old(A()).Step(e) && A().Valid() && go == open
      ensures match e
              case DataFrame(id, _) => go <==> id in old(streams)
              case StreamOpened(id) =>
                streams == if id == 0 || id in old(streams) then old(streams)
                           else old(streams)[id := Inbound(Window(init, init, 0), [], false)]
              case StreamClosed(id) => streams == old(streams) - {id}
              case ResponseEnded(id) =>
                streams == if id in old(streams) then old(streams)[id := old(streams)[id].(ended := true)]
                           else old(streams)
    {
      StepValid(A(), e);
      go := true;
      match e {
        case DataFrame(id, payload) =>
          var r := OnData(id, payload);
          go := r != ConnectionError;
        case StreamOpened(id) =>
          if id != 0 && id !in streams {
            streams := streams[id := Inbound(Window(init, init, 0), [], false)];
          }
        case StreamClosed(id) => streams := streams - {id};
        case ResponseEnded(id) =>
          if id in streams {
            streams := streams[id := streams[id].(ended := true)];
          }
      }
    }

    /** Every run: the windows stay balanced, and the sums come out. */
    method Run(events: seq<Event>)
      requires A().Valid() && open
      modifies this
      ensures A() == RunAll(old(A()), events) && A().Valid()
      ensures peer == old(peer) - Arrived(old(A()), events) + Granted(grants, 0) - Granted(old(grants), 0)
      ensures forall s :: LivesOn(old(A()), events, s) ==>
                StreamConserved(old(A()), A(), s, ArrivedOn(old(A()), events, s))
      decreases |events|
    {
      RunSums(A(), events);
      forall s | LivesOn(A(), events, s)
        ensures StreamConserved(A(), RunAll(A(), events), s, ArrivedOn(A(), events, s)) {
        StreamSums(A(), events, s);
      }
      if events != [] {
        var go := TakeStep(events[0]);
        if go {
          Run(events[1..]);
        }
      }
    }
  }
}
