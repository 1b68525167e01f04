/**
 * The coroutine HTTP/2 client (ext-src/swoole_http2_client_coro.cc): receiving response data
 * and handing it out.
 */
module Http2Client {
  import opened Prelude
  import opened Http2Receive

  /** A frame for a stream; the inflater's and the header parser's verdicts come with it. */
  datatype Frame =
    | HeadersFrame(id: uint32, end: bool, parsed: bool, gzip: bool)
    | DataFrame(id: uint32, end: bool, payload: Payload, inflated: Option<seq<byte>>)
    | RstStream(id: uint32)
    | OtherFrame(id: uint32, end: bool)

  /** One call of `parse_frame`: the frame, the caller's flag, whether due updates can be sent. */
  datatype Input = Input(frame: Frame, pipelineRead: bool, sends: (bool, bool))

  /** What `parse_frame` tells `recv`: a response (or a piece of one), nothing yet, an error. */
  datatype Result = Ready(id: uint32, data: seq<byte>, pipeline: bool) | Continue | Error

  datatype Stream = Stream(buffer: seq<byte>, gzip: bool, usePipelineRead: bool, pipelineResponse: bool)

  /** A stream as the application sees it: what it received, what was handed out, what never will be. */
  datatype Story = Story(content: seq<byte>, delivered: seq<byte>, dropped: seq<byte>)

  /** The streams there are, and the stories of these and of all that are gone. */
  datatype Table = Table(streams: map<uint32, Stream>, stories: map<uint32, Story>) {
    /** What of stream `k` was received and not handed out. */
    function Pending(k: uint32): seq<byte>
      requires k in stories
    {
      if k in streams then streams[k].buffer else stories[k].dropped
    }

    /** Nothing is lost, duplicated or reordered between the frames and the application. */
    ghost predicate Accounted() {
      && streams.Keys <= stories.Keys
      && forall k :: k in stories ==> stories[k].content == stories[k].delivered + Pending(k)
    }
  }

  // ------------------------------------------------------ what one frame means

  /** The octets of a frame that reach the buffer of a stream, if the inflater takes them. */
  function Octets(gzip: bool, f: Frame): Option<seq<byte>> {
    if !f.DataFrame? || f.payload == [] then Some([])
    else if gzip then f.inflated
    else Some(f.payload)
  }

  function OctetsOrNone(gzip: bool, f: Frame): seq<byte> {
    var data := Octets(gzip, f);
    if data.Some? then data.value else []
  }

  /** The record of a stream after a frame that brought it `data`. */
  function After(s: Stream, f: Frame, data: seq<byte>): Stream {
    Stream(s.buffer + data, s.gzip || (f.HeadersFrame? && f.gzip), s.usePipelineRead,
           s.pipelineResponse || (f.DataFrame? && !f.end))
  }

  /** Whether the application is answered: at the end, or for each piece when it asked for that. */
  predicate HandsOut(s: Stream, f: Frame, pipelineRead: bool)
    requires !f.RstStream?
  {
    f.end || ((pipelineRead || s.usePipelineRead) && s.pipelineResponse)
  }

  /** A frame's octets join the buffer of its stream. */
  function Absorbed(t: Table, f: Frame): Table
    requires f.id in t.streams && f.id in t.stories
  {
    var s, story := t.streams[f.id], t.stories[f.id];
    var data := OctetsOrNone(s.gzip, f);
    Table(t.streams[f.id := After(s, f, data)], t.stories[f.id := story.(content := story.content + data)])
  }

  /** The buffer is handed out if it is time; at the end of the stream the stream is forgotten. */
  function Answered(t: Table, f: Frame, pipelineRead: bool): (Table, Result)
    requires !f.RstStream? && f.id in t.streams && f.id in t.stories
  {
    var s, story := t.streams[f.id], t.stories[f.id];
    if !HandsOut(s, f, pipelineRead) then (t, Continue)
    else
      (Table(if f.end then t.streams - {f.id} else t.streams[f.id := s.(buffer := [])],
             t.stories[f.id := story.(delivered := story.delivered + s.buffer, dropped := [])]),
       Ready(f.id, s.buffer, !f.end))
  }

  /** A reset forgets the stream and what it had buffered. */
  function ResetTable(t: Table, id: uint32): Table
    requires id in t.streams && id in t.stories
  {
    Table(t.streams - {id}, t.stories[id := t.stories[id].(dropped := t.streams[id].buffer)])
  }

  function Step(t: Table, i: Input): (r: (Table, Result))
    requires t.streams.Keys <= t.stories.Keys
    ensures r.0.streams.Keys <= r.0.stories.Keys == t.stories.Keys
  {
    var f := i.frame;
    if f.id !in t.streams then (t, Continue)
    else if f.RstStream? then (ResetTable(t, f.id), Continue)
    else Answered(Absorbed(t, f), f, i.pipelineRead)
  }

  lemma StepAccountedAt(t: Table, i: Input, k: uint32)
    requires t.streams.Keys <= t.stories.Keys && k in t.stories
    requires t.stories[k].content == t.stories[k].delivered + t.Pending(k)
    ensures var after := Step(t, i).0;
            k in after.stories && after.stories[k].content == after.stories[k].delivered + after.Pending(k)
  {
  }

  lemma StepAccounted(t: Table, i: Input)
    requires t.Accounted()
    ensures Step(t, i).0.Accounted()
  {
    forall k | k in t.stories
      ensures var after := Step(t, i).0;
              k in after.stories && after.stories[k].content == after.stories[k].delivered + after.Pending(k) {
      StepAccountedAt(t, i, k);
    }
  }

  // ----------------------------------------------------------- whole runs

  function RunTable(t: Table, inputs: seq<Input>): (r: (Table, seq<Result>))
    requires t.streams.Keys <= t.stories.Keys
    ensures r.0.streams.Keys <= r.0.stories.Keys == t.stories.Keys
    decreases |inputs|
  {
    if inputs == [] then (t, [])
    else
      var first := Step(t, inputs[0]);
      var rest := RunTable(first.0, inputs[1..]);
      (rest.0, [first.1] + rest.1)
  }

  predicate Gzip(t: Table, k: uint32) {
    k in t.streams && t.streams[k].gzip
  }

  /** Everything a run of frames brings stream `k`, up to its end; `live` if it is there at all. */
  function Received(live: bool, gzip: bool, inputs: seq<Input>, k: uint32): seq<byte>
    decreases |inputs|
  {
    if inputs == [] || !live then []
    else
      var f := inputs[0].frame;
      if f.id != k then Received(live, gzip, inputs[1..], k)
      else if f.RstStream? then []
      else OctetsOrNone(gzip, f) + Received(!f.end, gzip || (f.HeadersFrame? && f.gzip), inputs[1..], k)
  }

  /** What a run of answers gave the application of stream `k`. */
  function Given(results: seq<Result>, k: uint32): seq<byte> {
    if results == [] then [] else DataFor(results[0], k) + Given(results[1..], k)
  }

  function DataFor(r: Result, k: uint32): seq<byte> {
    if r.Ready? && r.id == k then r.data else []
  }

  /** What one frame brings stream `k`. */
  function Gain(live: bool, gzip: bool, f: Frame, k: uint32): seq<byte> {
    if live && f.id == k && !f.RstStream? then OctetsOrNone(gzip, f) else []
  }

  /** How a frame and its answer change the story of stream `k`: only if it is their own. */
  ghost predicate StoryStep(t: Table, f: Frame, t': Table, r: Result, k: uint32)
    requires k in t.stories && k in t'.stories
  {
    && t'.stories[k].delivered == t.stories[k].delivered + DataFor(r, k)
    && t'.stories[k].content == t.stories[k].content + Gain(k in t.streams, Gzip(t, k), f, k)
    && (k in t'.streams <==> k in t.streams && (f.id == k ==> !f.RstStream? && !f.end))
    && (k in t'.streams ==> Gzip(t', k) == (Gzip(t, k) || (f.id == k && f.HeadersFrame? && f.gzip)))
  }

  lemma StepStory(t: Table, i: Input, k: uint32)
    requires t.streams.Keys <= t.stories.Keys && k in t.stories
    ensures StoryStep(t, i.frame, Step(t, i).0, Step(t, i).1, k)
  {
    var story := t.stories[k];
    assert story.delivered + [] == story.delivered && story.content + [] == story.content;
  }

  /** The story of stream `k` over a run. */
  ghost predicate StoryRun(t: Table, inputs: seq<Input>, t': Table, results: seq<Result>, k: uint32)
    requires k in t.stories && k in t'.stories
  {
    && t'.stories[k].delivered == t.stories[k].delivered + Given(results, k)
    && t'.stories[k].content == t.stories[k].content + Received(k in t.streams, Gzip(t, k), inputs, k)
  }

  lemma StoryRunStep(t: Table, inputs: seq<Input>, mid: Table, r: Result, t': Table, results: seq<Result>, k: uint32)
    requires inputs != [] && k in t.stories && k in mid.stories && k in t'.stories
    requires StoryStep(t, inputs[0].frame, mid, r, k) && StoryRun(mid, inputs[1..], t', results, k)
    ensures StoryRun(t, inputs, t', [r] + results, k)
  {
    var d, c := t.stories[k].delivered, t.stories[k].content;
    assert (d + DataFor(r, k)) + Given(results, k) == d + (DataFor(r, k) + Given(results, k));
    assert ([r] + results)[1..] == results;
    var gain := Gain(k in t.streams, Gzip(t, k), inputs[0].frame, k);
    var more := Received(k in mid.streams, Gzip(mid, k), inputs[1..], k);
    assert (c + gain) + more == c + (gain + more);
  }

  /**
   * Over a whole run the application is given, of every stream and in order, what the frames
   * brought it; what it is not given is still buffered or was dropped by a reset.
   */
  lemma {:induction false} RunDelivers(t: Table, inputs: seq<Input>, k: uint32)
    requires t.Accounted() && k in t.stories
    ensures var after := RunTable(t, inputs); after.0.Accounted() && StoryRun(t, inputs, after.0, after.1, k)
    decreases |inputs|
  {
    if inputs == [] {
      assert t.stories[k].delivered + [] == t.stories[k].delivered;
    } else {
      var first := Step(t, inputs[0]);
      var rest := RunTable(first.0, inputs[1..]);
      assert StoryStep(t, inputs[0].frame, first.0, first.1, k) by { StepStory(t, inputs[0], k); }
      assert first.0.Accounted() by { StepAccounted(t, inputs[0]); }
      RunDelivers(first.0, inputs[1..], k);
      StoryRunStep(t, inputs, first.0, first.1, rest.0, rest.1, k);
    }
  }

  // ------------------------------------------------------------- the client

  /** The octets of DATA in a run of frames, whatever becomes of them. */
  function Arrivals(inputs: seq<Input>): nat {
    if inputs == [] then 0 else Size(inputs[0].frame) + Arrivals(inputs[1..])
  }

  function Size(f: Frame): uint32 {
    if f.DataFrame? then |f.payload| else 0
  }

  /** The client's receive windows as a value. */
  datatype Flows = Flows(init: uint32, conn: Window, windows: map<uint32, Window>, grants: seq<Grant>, lost: nat) {
    /** DATA of `n` octets that is counted, on the connection and on its stream. */
    function Debited(id: uint32, n: uint32): Flows
      requires id in windows
    {
      this.(conn := conn.After(init, n),
            windows := windows[id := windows[id].After(init, n)],
            grants := grants + Sent(0, conn.Update(init, n)) + Sent(id, windows[id].Update(init, n)))
    }

    /** An update is due after such a frame and cannot be sent. */
    predicate Unsent(id: uint32, n: uint32, sends: (bool, bool))
      requires id in windows
    {
      n > 0 && ((conn.Due(init, n) && !sends.0) || (windows[id].Due(init, n) && !sends.1))
    }

    /** What a frame does that is no error. */
    function Step(f: Frame): Flows {
      if f.id !in windows then this.(conn := conn.(peer := conn.peer - Size(f)), lost := lost + Size(f))
      else if f.RstStream? then this.(windows := windows - {f.id})
      else
        var c := if Size(f) > 0 then Debited(f.id, Size(f)) else this;
        if f.end then c.(windows := c.windows - {f.id}) else c
    }
  }

  /** A frame is an error exactly when its header block or its encoding is bad, or an update cannot be sent. */
  predicate Fails(t: Table, fl: Flows, i: Input) {
    var f := i.frame;
    && f.id in t.streams && f.id in fl.windows && !f.RstStream?
    && (Octets(t.streams[f.id].gzip, f).None? || (f.HeadersFrame? && !f.parsed) || fl.Unsent(f.id, Size(f), i.sends))
  }

  /** An update is due after `n` octets more. */
  predicate Low(w: Window, init: uint32, n: uint32) {
    n > 0 && Left(w.local, n) < init / 4
  }

  /** When a frame is an error. */
  ghost predicate FailsLaw(t: Table, windows: map<uint32, Window>, conn: Window, init: uint32, i: Input, failed: bool) {
    var f := i.frame;
    failed <==>
      && f.id in t.streams && f.id in windows && !f.RstStream?
      && (|| (f.DataFrame? && f.payload != [] && t.streams[f.id].gzip && f.inflated.None?)
          || (f.HeadersFrame? && !f.parsed)
          || (f.DataFrame? && Low(conn, init, |f.payload|) && !i.sends.0)
          || (f.DataFrame? && Low(windows[f.id], init, |f.payload|) && !i.sends.1))
  }

  lemma FailsIs(t: Table, fl: Flows, i: Input)
    ensures FailsLaw(t, fl.windows, fl.conn, fl.init, i, Fails(t, fl, i))
  {
    var f := i.frame;
    if f.id in fl.windows {
      RefilledIs(fl.conn, fl.init, Size(f));
      RefilledIs(fl.windows[f.id], fl.init, Size(f));
    }
  }

  /**
   * What a frame that is no error means for its stream.  A reset drops it with what it has.  Else
   * its octets are added; the application is answered at the end, and for every piece when it
   * asked for that and the response comes in pieces, with everything not handed out so far.
   */
  ghost predicate AnswerLaw(t: Table, after: Table, i: Input, r: Result) {
    var f := i.frame;
    && (forall k :: k != f.id ==> (k in after.streams <==> k in t.streams))
    && (forall k :: k != f.id && k in t.streams ==> after.streams[k] == t.streams[k])
    && if f.id !in t.streams || f.id !in t.stories then r == Continue && after == t
       else if f.RstStream? then
         && r == Continue && f.id !in after.streams && f.id in after.stories
         && after.stories[f.id] == t.stories[f.id].(dropped := t.streams[f.id].buffer)
       else
         var s := t.streams[f.id];
         var data := if !f.DataFrame? || f.payload == [] then [] else if !s.gzip then f.payload
                     else if f.inflated.Some? then f.inflated.value else [];
         var pieces := s.pipelineResponse || (f.DataFrame? && !f.end);
         var asked := (i.pipelineRead || s.usePipelineRead) && pieces;
         && r == (if f.end || asked then Ready(f.id, s.buffer + data, !f.end) else Continue)
         && (f.id in after.streams <==> !f.end)
         && (!f.end ==> after.streams[f.id] == Stream(if asked then [] else s.buffer + data,
                                                      s.gzip || (f.HeadersFrame? && f.gzip), s.usePipelineRead, pieces))
  }

  lemma AnswerIs(t: Table, i: Input)
    requires t.streams.Keys <= t.stories.Keys
    ensures AnswerLaw(t, Step(t, i).0, i, Step(t, i).1)
  {
  }

  function RunFlows(fl: Flows, inputs: seq<Input>): Flows
    decreases |inputs|
  {
    if inputs == [] then fl else RunFlows(fl.Step(inputs[0].frame), inputs[1..])
  }

  /** Some frame of the run is an error. */
  predicate FailsIn(t: Table, fl: Flows, inputs: seq<Input>)
    requires t.streams.Keys <= t.stories.Keys
    decreases |inputs|
  {
    inputs != [] &&
    (Fails(t, fl, inputs[0]) || FailsIn(Step(t, inputs[0]).0, fl.Step(inputs[0].frame), inputs[1..]))
  }

  /** The connection pays for every octet of DATA, and gets every update. */
  lemma FlowStep(fl: Flows, f: Frame)
    requires 0 !in fl.windows
    ensures 0 !in fl.Step(f).windows
    ensures fl.Step(f).conn.peer == fl.conn.peer - Size(f) + Granted(fl.Step(f).grants, 0) - Granted(fl.grants, 0)
  {
    if f.id in fl.windows && !f.RstStream? && Size(f) > 0 {
      var n := Size(f);
      GrantedMore(fl.grants, fl.conn.Update(fl.init, n), f.id, fl.windows[f.id].Update(fl.init, n), 0);
    }
  }

  lemma {:induction false} FlowSums(fl: Flows, inputs: seq<Input>)
    requires 0 !in fl.windows
    ensures var b := RunFlows(fl, inputs);
            b.conn.peer == fl.conn.peer - Arrivals(inputs) + Granted(b.grants, 0) - Granted(fl.grants, 0)
    decreases |inputs|
  {
    if inputs != [] {
      FlowStep(fl, inputs[0].frame);
      FlowSums(fl.Step(inputs[0].frame), inputs[1..]);
    }
  }

  /** Stream `s` is there before the run, and all the way through it. */
  predicate FlowsOn(fl: Flows, inputs: seq<Input>, s: uint32)
    decreases |inputs|
  {
    s in fl.windows && (inputs != [] ==> FlowsOn(fl.Step(inputs[0].frame), inputs[1..], s))
  }

  function ArrivalsOn(inputs: seq<Input>, s: uint32): nat {
    if inputs == [] then 0
    else (if inputs[0].frame.id == s then Size(inputs[0].frame) else 0) + ArrivalsOn(inputs[1..], s)
  }

  /** What the server may send on stream `s`, from `a` to `b`, when `n` octets arrived on it. */
  ghost predicate FlowConserved(a: Flows, b: Flows, s: uint32, n: nat) {
    && s in a.windows && s in b.windows
    && b.windows[s].peer == a.windows[s].peer - n + Granted(b.grants, s) - Granted(a.grants, s)
  }

  lemma FlowStreamStep(fl: Flows, f: Frame, s: uint32)
    requires 0 !in fl.windows && s in fl.windows && s in fl.Step(f).windows
    ensures FlowConserved(fl, fl.Step(f), s, if f.id == s then Size(f) else 0)
  {
    if f.id in fl.windows && !f.RstStream? && Size(f) > 0 {
      var n := Size(f);
      GrantedMore(fl.grants, fl.conn.Update(fl.init, n), f.id, fl.windows[f.id].Update(fl.init, n), s);
    }
  }

  /** Conservation for each stream over a whole run. */
  lemma {:induction false} FlowStreamSums(fl: Flows, inputs: seq<Input>, s: uint32)
    requires 0 !in fl.windows && FlowsOn(fl, inputs, s)
    ensures FlowConserved(fl, RunFlows(fl, inputs), s, ArrivalsOn(inputs, s))
    decreases |inputs|
  {
    if inputs != [] {
      FlowStep(fl, inputs[0].frame);
      FlowStreamStep(fl, inputs[0].frame, s);
      FlowStreamSums(fl.Step(inputs[0].frame), inputs[1..], s);
    }
  }

  /** The sums over a run, for the connection and for every stream that lives through it. */
  ghost predicate FlowsBalance(a: Flows, b: Flows, inputs: seq<Input>) {
    && b.conn.peer == a.conn.peer - Arrivals(inputs) + Granted(b.grants, 0) - Granted(a.grants, 0)
    && forall s :: FlowsOn(a, inputs, s) ==> FlowConserved(a, b, s, ArrivalsOn(inputs, s))
  }

  lemma FlowsBalanced(fl: Flows, inputs: seq<Input>)
    requires 0 !in fl.windows
    ensures FlowsBalance(fl, RunFlows(fl, inputs), inputs)
  {
    FlowSums(fl, inputs);
    forall s | FlowsOn(fl, inputs, s) ensures FlowConserved(fl, RunFlows(fl, inputs), s, ArrivalsOn(inputs, s)) {
      FlowStreamSums(fl, inputs, s);
    }
  }

  /** The client's receive windows: its own counts, and what the server may really still send. */
  class Flow {
    const init: uint32
    var conn: Window                         // local_window_size of the client
    var windows: map<uint32, Window>         // and of its streams
    var grants: seq<Grant>
    ghost var lost: nat                      // octets for which the connection was not debited
    ghost var failed: bool                   // parse_frame returned an error

    ghost function F(): Flows
      reads this
    {
      Flows(init, conn, windows, grants, lost)
    }

    ghost predicate WindowOk(s: uint32)
      requires s in windows
      reads this
    {
      windows[s].Balanced(init, 0)
    }

    ghost predicate Valid()
      reads this
    {
      && 0 !in windows
      && (!failed ==> conn.Balanced(init, init - DEFAULT_CONNECTION_WINDOW + lost))
      && (!failed ==> forall s :: s in windows ==> WindowOk(s))
    }

    constructor (init: uint32)
      ensures Valid() && !failed && this.init == init && windows == map[] && lost == 0
      ensures conn == Window(init, DEFAULT_CONNECTION_WINDOW, 0) && grants == []
    {
      this.init, conn, windows := init, Window(init, DEFAULT_CONNECTION_WINDOW, 0), map[];
      grants, lost, failed := [], 0, false;
    }

    method Open(id: uint32)
      requires Valid() && id != 0
      modifies this`windows
      ensures Valid() && windows == old(windows)[id := Window(init, init, 0)]
    {
      windows := windows[id := Window(init, init, 0)];
      assert forall s :: s in windows && s != id ==> old(s in windows && (!failed ==> WindowOk(s)));
    }

    method Close(id: uint32)
      requires Valid()
      modifies this`windows
      ensures Valid() && windows == old(windows) - {id}
    {
      windows := windows - {id};
      assert forall s :: s in windows ==> old(s in windows && (!failed ==> WindowOk(s)));
    }

    /** DATA the client does not count: for a stream it does not know, or that fails to inflate. */
    method Lose(n: uint32)
      requires Valid()
      modifies this`conn, this`lost
      ensures Valid() && conn == old(conn).(peer := old(conn).peer - n) && lost == old(lost) + n
    {
      conn, lost := conn.(peer := conn.peer - n), lost + n;
    }

    /** The connection window: debit, and refill when less than a quarter is left. */
    method DebitConnection(n: uint32, sent: bool) returns (ok: bool)
      requires Valid() && !failed
      modifies this`conn, this`grants, this`failed
      ensures Valid() && failed == !ok && (!ok <==> old(conn).Due(init, n) && !sent)
      ensures ok ==> conn == old(conn).After(init, n) && grants == old(grants) + Sent(0, old(conn).Update(init, n))
      ensures !ok <==> Left(old(conn).local, n) < init / 4 && !sent
      ensures ok ==> Refilled(old(conn), conn, init, n, old(conn).Update(init, n))
    {
      RefilledIs(conn, init, n);
      AfterBalanced(conn, init, init - DEFAULT_CONNECTION_WINDOW + lost, n);
      var now, update := Consume(conn.local, init, n, conn);
      ok := update == 0 || sent;
      if !ok {
        failed, now, update := true, Minus32(conn.local, n), 0;
      }
      conn := Window(now, conn.peer - n + update, if n <= conn.local then conn.turns else conn.turns + 1);
      grants := grants + Sent(0, update);
    }

    /** The stream's window, likewise. */
    method DebitStream(id: uint32, n: uint32, sent: bool) returns (ok: bool)
      requires Valid() && !failed && id in windows
      modifies this`windows, this`grants, this`failed
      ensures Valid() && failed == !ok && (!ok <==> old(windows)[id].Due(init, n) && !sent)
      ensures windows.Keys == old(windows).Keys
      ensures ok ==> windows == old(windows)[id := old(windows)[id].After(init, n)]
      ensures ok ==> grants == old(grants) + Sent(id, old(windows)[id].Update(init, n))
      ensures !ok <==> Left(old(windows)[id].local, n) < init / 4 && !sent
      ensures ok ==> Refilled(old(windows)[id], windows[id], init, n, old(windows)[id].Update(init, n))
    {
      RefilledIs(windows[id], init, n);
      var w := windows[id];
      assert WindowOk(id);
      AfterBalanced(w, init, 0, n);
      var now, update := Consume(w.local, init, n, w);
      ok := update == 0 || sent;
      if !ok {
        failed, now, update := true, Minus32(w.local, n), 0;
      }
      windows := windows[id := Window(now, w.peer - n + update, if n <= w.local then w.turns else w.turns + 1)];
      grants := grants + Sent(id, update);
      assert forall s :: s in windows && s != id ==> old(s in windows && WindowOk(s));
    }

    /** A DATA frame of `n` octets that is counted, on the connection and on its stream. */
    method Debit(id: uint32, n: uint32, sends: (bool, bool)) returns (ok: bool)
      requires Valid() && !failed && id in windows && n > 0
      modifies this`conn, this`windows, this`grants, this`failed
      ensures Valid() && failed == !ok && windows.Keys == old(windows).Keys
      ensures ok <==> !old(F()).Unsent(id, n, sends)
      ensures ok ==> F() == old(F()).Debited(id, n)
    {
      ok := DebitConnection(n, sends.0);
      if ok {
        ok := DebitStream(id, n, sends.1);
      }
    }
  }

  class Client {
    const flow: Flow
    var streams: map<uint32, Stream>
    ghost var stories: map<uint32, Story>

    ghost function T(): Table
      reads this
    {
      Table(streams, stories)
    }

    ghost predicate Valid()
      reads this, flow
    {
      flow.Valid() && flow.windows.Keys == streams.Keys && T().Accounted()
    }

    constructor (init: uint32)
      ensures Valid() && fresh(flow) && !flow.failed && flow.init == init && T() == Table(map[], map[])
    {
      flow := new Flow(init);
      streams, stories := map[], map[];
    }

    /** A request creates its stream; an id still in the table keeps its old record. */
    method CreateStream(id: uint32, usePipelineRead: bool)
      requires Valid() && id != 0
      modifies this, flow`windows
      ensures Valid() && id in streams
      ensures T() == if id in old(streams) then old(T())
                     else Table(old(streams)[id := Stream([], false, usePipelineRead, false)],
                                old(stories)[id := Story([], [], [])])
    {
      if id !in streams {
        flow.Open(id);
        streams := streams[id := Stream([], false, usePipelineRead, false)];
        stories := stories[id := Story([], [], [])];
        assert forall k :: k in stories && k != id ==> old(stories[k].content == stories[k].delivered + T().Pending(k));
      }
    }

    /** Buffer what a frame brings its stream and keep the windows filled. */
    method Absorb(i: Input) returns (ok: bool)
      requires flow.Valid() && !flow.failed && flow.windows.Keys == streams.Keys
      requires !i.frame.RstStream? && i.frame.id in streams && i.frame.id in stories
      modifies this, flow
      ensures flow.Valid() && flow.failed == !ok
      ensures ok <==> !Fails(old(T()), old(flow.F()), i)
      ensures ok ==> T() == Absorbed(old(T()), i.frame) && flow.windows.Keys == streams.Keys
      ensures ok ==> flow.F() == if Size(i.frame) > 0 then old(flow.F()).Debited(i.frame.id, Size(i.frame))
                                 else old(flow.F())
    {
      var f := i.frame;
      var s, n := streams[f.id], Size(f);
      var data := Octets(s.gzip, f);
      if data.None? || (f.HeadersFrame? && !f.parsed) {
        flow.Lose(n);
        flow.failed := true;
        return false;
      }
      streams := streams[f.id := After(s, f, data.value)];
      stories := stories[f.id := stories[f.id].(content := stories[f.id].content + data.value)];
      ok := true;
      if n > 0 {
        ok := flow.Debit(f.id, n, i.sends);
      }
    }

    /** Answer the application if it is time. */
    method Answer(f: Frame, pipelineRead: bool) returns (r: Result)
      requires flow.Valid() && flow.windows.Keys == streams.Keys
      requires !f.RstStream? && f.id in streams && f.id in stories
      modifies this, flow`windows
      ensures flow.Valid() && flow.windows.Keys == streams.Keys
      ensures flow.windows == if f.end then old(flow.windows) - {f.id} else old(flow.windows)
      ensures (T(), r) == Answered(old(T()), f, pipelineRead)
    {
      r := Continue;
      var s := streams[f.id];
      if f.end || ((pipelineRead || s.usePipelineRead) && s.pipelineResponse) {
        r := Ready(f.id, s.buffer, !f.end);
        stories := stories[f.id := stories[f.id].(delivered := stories[f.id].delivered + s.buffer, dropped := [])];
        if f.end {
          streams := streams - {f.id};
          flow.Close(f.id);
        } else {
          streams := streams[f.id := s.(buffer := [])];
        }
      }
    }

    /** One frame: unknown streams are ignored, a reset drops its stream, else it is absorbed and maybe answered. */
    method ParseFrame(i: Input) returns (r: Result)
      requires Valid() && !flow.failed
      modifies this, flow
      ensures flow.Valid() && flow.failed == (r == Error)
      ensures r == Error <==> Fails(old(T()), old(flow.F()), i)
      ensures r != Error ==> Valid() && (T(), r) == Step(old(T()), i) && flow.F() == old(flow.F()).Step(i.frame)
      ensures FailsLaw(old(T()), old(flow.windows), old(flow.conn), flow.init, i, r == Error)
      ensures r != Error ==> AnswerLaw(old(T()), T(), i, r)
    {
      FailsIs(T(), flow.F(), i);
      AnswerIs(T(), i);
      var f := i.frame;
      StepAccounted(T(), i);
      if f.id !in streams {
        if f.DataFrame? {
          flow.Lose(|f.payload|);
        }
        return Continue;
      }
      if f.RstStream? {
        stories := stories[f.id := stories[f.id].(dropped := streams[f.id].buffer)];
        streams := streams - {f.id};
        flow.Close(f.id);
        return Continue;
      }
      r := Respond(i);
    }

    /** A frame other than a reset, for a stream that is there. */
    method Respond(i: Input) returns (r: Result)
      requires flow.Valid() && !flow.failed && flow.windows.Keys == streams.Keys
      requires !i.frame.RstStream? && i.frame.id in streams && i.frame.id in stories
      modifies this, flow
      ensures flow.Valid() && flow.failed == (r == Error)
      ensures r == Error <==> Fails(old(T()), old(flow.F()), i)
      ensures r != Error ==> flow.windows.Keys == streams.Keys && flow.F() == old(flow.F()).Step(i.frame)
      ensures r != Error ==> (T(), r) == Answered(Absorbed(old(T()), i.frame), i.frame, i.pipelineRead)
    {
      var ok := Absorb(i);
      if !ok {
        return Error;
      }
      r := Answer(i.frame, i.pipelineRead);
    }

    /**
     * Every run of frames: it fails exactly when one of them is an error, and otherwise does what
     * the specification says; the windows of the connection and of each stream are conserved.
     */
    method Run(inputs: seq<Input>) returns (results: seq<Result>, ok: bool)
      requires Valid() && !flow.failed
      modifies this, flow
      ensures flow.Valid() && flow.failed == !ok
      ensures ok <==> !FailsIn(old(T()), old(flow.F()), inputs)
      ensures ok ==> Valid() && (T(), results) == RunTable(old(T()), inputs)
      ensures ok ==> flow.F() == RunFlows(old(flow.F()), inputs)
      ensures ok ==> FlowsBalance(old(flow.F()), flow.F(), inputs)
      decreases |inputs|
    {
      FlowsBalanced(flow.F(), inputs);
      results, ok := [], true;
      if inputs != [] {
        var r := ParseFrame(inputs[0]);
        if r == Error {
          return [r], false;
        }
        results, ok := Run(inputs[1..]);
        results := [r] + results;
      }
    }
  }
}
