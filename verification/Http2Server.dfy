/**
 * Sending a response on one stream of an HTTP/2 server (ext-src/swoole_http2_server.cc):
 * DATA under the peer's flow-control window (section 6.9 of RFC 7540), the shape of a
 * response (section 8.1) and the length it declares (section 8.1.2.6).
 *
 * The sender suspends inside `ctx->send` and when the window is used up.  What the event
 * loop does meanwhile is the parameter `sched`: the frames that arrive for any stream,
 * the session window other streams use, and the completion of the pending send.
 */
module Http2Server {
  import opened Prelude

  /** A frame of the stream; a header block is reduced to the length it declares. */
  datatype Frame =
    | Headers(endStream: bool, declared: Option<nat>)
    | Data(payload: seq<byte>, endStream: bool)

  datatype Event =
    | WindowUpdate(streamId: uint32, increment: uint32)
    | SettingsInitialWindow(value: uint32)
    | OtherStreamSent(n: uint32)
    | SendDone(ok: bool)

  /** How far a call came: to its end, to an error, or to a suspension nothing ended yet. */
  datatype Outcome = Finished | Failed | Parked | InSend

  /** What the application and the libraries contribute to a response. */
  datatype Request = Request(isHead: bool, appContentLength: bool, headersBuilt: bool,
                             compressionMinLength: nat, encoded: Option<seq<byte>>)

  datatype Trailer = NoTrailer | Trailer(built: bool)

  /** The body argument of `send_header`: absent, given, or only its length (a file). */
  datatype HeaderBody = NoBody | Body(bytes: seq<byte>) | LengthOnly(length: nat) {
    function Length(): nat {
      match this
      case NoBody => 0
      case Body(bytes) => |bytes|
      case LengthOnly(n) => n
    }
  }

  /** `ctx->content_compressed` and `ctx->zlib_buffer`. */
  datatype Coding = Coding(compressed: bool, buffer: seq<byte>) {
    /** `ctx->compress` declines without touching anything. */
    predicate Declines(accept: bool, body: HeaderBody, req: Request) {
      !body.Body? || !accept || |body.bytes| < req.compressionMinLength
    }

    /** The coding after the header block is built; a failing encoder leaves an empty buffer. */
    function After(accept: bool, body: HeaderBody, req: Request): Coding {
      if Declines(accept, body, req) then this
      else if req.encoded.Some? then Coding(true, req.encoded.value)
      else Coding(compressed, [])
    }

    /** Whether `ctx->compress` returns true. */
    predicate CompressesNow(accept: bool, body: HeaderBody, req: Request) {
      !Declines(accept, body, req) && req.encoded.Some?
    }

    /** The octets `http2_server_respond` sends for `body`. */
    function Outgoing(body: seq<byte>): seq<byte> {
      if compressed then buffer else body
    }

    /** The content-length the server adds itself. */
    function Declared(accept: bool, body: HeaderBody, req: Request): Option<nat> {
      if CompressesNow(accept, body, req) then Some(|req.encoded.value|)
      else if req.appContentLength || body.NoBody? then None
      else if body.Length() > 0 || !req.isHead then Some(body.Length())
      else None
    }
  }

  const SW_FILE_CHUNK_SIZE := 65536

  function HeaderFrame(coding: Coding, accept: bool, body: HeaderBody, endStream: bool, req: Request): Frame {
    Headers(endStream && body.Length() == 0, coding.Declared(accept, body, req))
  }

  /** No earlier, failed `end()` left compressed octets behind, or they do not matter. */
  predicate DeclaresRightly(before: Coding, after: Coding, accept: bool, body: seq<byte>, req: Request) {
    before.CompressesNow(accept, Body(body), req) || !before.compressed || |after.buffer| == |body|
  }

  lemma DeclaredIsDeliveredIff(before: Coding, accept: bool, body: seq<byte>, req: Request)
    ensures var declared, after := before.Declared(accept, Body(body), req), before.After(accept, Body(body), req);
            declared.Some? ==>
              (declared.value == |after.Outgoing(body)| <==> DeclaresRightly(before, after, accept, body, req))
  {
  }

  /**
   * A retried `end()` may declare one length and deliver another: the first body was
   * compressed before its header block failed to go out, the second is too short to be.
   */
  lemma RetryDeclaresWrongly(first: seq<byte>, second: seq<byte>, packed: seq<byte>, min: nat)
    requires |second| < min <= |first| && |packed| != |second|
    ensures var req := Request(false, false, true, min, Some(packed));
            var stale := Coding(false, []).After(true, Body(first), req);
            && stale.Declared(true, Body(second), req) == Some(|second|)
            && |stale.After(true, Body(second), req).Outgoing(second)| == |packed|
  {
  }

  // ---------------------------------------------------------------- what was sent

  function Payload(f: Frame): seq<byte> {
    if f.Data? then f.payload else []
  }

  /** All the body octets of a run of frames. */
  function DataBytes(frames: seq<Frame>): seq<byte> {
    if frames == [] then []
    else DataBytes(frames[..|frames| - 1]) + Payload(frames[|frames| - 1])
  }

  lemma DataBytesSnoc(frames: seq<Frame>, f: Frame)
    ensures DataBytes(frames + [f]) == DataBytes(frames) + Payload(f)
  {
    assert (frames + [f])[..|frames|] == frames;
  }

  lemma {:induction false} DataBytesPlus(a: seq<Frame>, b: seq<Frame>)
    ensures DataBytes(a + b) == DataBytes(a) + DataBytes(b)
  {
    if b == [] {
      assert a + b == a;
    } else {
      var n := |b| - 1;
      var most := b[..n];
      assert b == most + [b[n]] && a + b == (a + most) + [b[n]];
      DataBytesPlus(a, most);
      DataBytesSnoc(a + most, b[n]);
      DataBytesSnoc(most, b[n]);
    }
  }

  /** Some DATA frames, none empty or too big, of which only the last may end the stream. */
  ghost predicate DataRun(frames: seq<Frame>, end: bool, maxFrame: int) {
    forall i :: 0 <= i < |frames| ==>
      && frames[i].Data? && 0 < |frames[i].payload| <= maxFrame
      && frames[i].endStream == (end && i == |frames| - 1)
  }

  /** The first `n` octets of `body` are out as DATA, with END_STREAM if that is all of it. */
  ghost predicate Progress(sent: seq<Frame>, body: seq<byte>, n: int, end: bool, maxFrame: int) {
    && 0 <= n <= |body| && DataBytes(sent) == body[..n]
    && DataRun(sent, end && n == |body|, maxFrame)
  }

  /** The frame that carries `body[p..q]`. */
  function Chunk(body: seq<byte>, p: nat, q: nat, end: bool): Frame
    requires p <= q <= |body|
  {
    Data(body[p..q], end && q == |body|)
  }

  lemma ProgressStep(sent: seq<Frame>, body: seq<byte>, p: nat, q: nat, end: bool, maxFrame: int)
    requires Progress(sent, body, p, end, maxFrame) && p < q <= |body| && q - p <= maxFrame
    ensures Progress(sent + [Chunk(body, p, q, end)], body, q, end, maxFrame)
  {
    DataBytesSnoc(sent, Chunk(body, p, q, end));
    assert body[..q] == body[..p] + body[p..q];
  }

  /** `wire` is `before` and then the first `n` octets of `body`. */
  ghost predicate Extends(before: seq<Frame>, wire: seq<Frame>, body: seq<byte>, n: int, end: bool, maxFrame: int) {
    before <= wire && Progress(wire[|before|..], body, n, end, maxFrame)
  }

  lemma ExtendsStep(before: seq<Frame>, wire: seq<Frame>, body: seq<byte>, p: nat, q: nat, end: bool, maxFrame: int)
    requires Extends(before, wire, body, p, end, maxFrame) && p < q <= |body| && q - p <= maxFrame
    ensures Extends(before, wire + [Chunk(body, p, q, end)], body, q, end, maxFrame)
  {
    ProgressStep(wire[|before|..], body, p, q, end, maxFrame);
    assert (wire + [Chunk(body, p, q, end)])[|before|..] == wire[|before|..] + [Chunk(body, p, q, end)];
  }

  /** A response that goes on: its header block and body so far, the stream still open. */
  ghost predicate Open(frames: seq<Frame>, maxFrame: int) {
    && frames != [] && frames[0].Headers? && !frames[0].endStream
    && forall i :: 1 <= i < |frames| ==>
         frames[i].Data? && 0 < |frames[i].payload| <= maxFrame && !frames[i].endStream
  }

  /** HEADERS DATA* [HEADERS], with END_STREAM on the last frame and nowhere else. */
  ghost predicate WellShaped(frames: seq<Frame>) {
    && frames != [] && frames[0].Headers?
    && (forall i :: 0 < i < |frames| - 1 ==> frames[i].Data?)
    && (forall i :: 0 <= i < |frames| ==> (frames[i].endStream <==> i == |frames| - 1))
  }

  // ------------------------------------------------- shapes that sends build

  /** A body sent after the header block keeps the response open, or ends it. */
  lemma OpenExtended(before: seq<Frame>, wire: seq<Frame>, body: seq<byte>, n: int, end: bool, maxFrame: int)
    requires Open(before, maxFrame) && Extends(before, wire, body, n, end, maxFrame)
    ensures !(end && n == |body|) ==> Open(wire, maxFrame)
    ensures end && n == |body| > 0 ==> WellShaped(wire)
  {
    var sent := wire[|before|..];
    assert wire == before + sent;
    if end && n == |body| > 0 {
      assert sent != [];
    }
  }

  lemma OpenThenTrailer(wire: seq<Frame>, maxFrame: int)
    requires Open(wire, maxFrame)
    ensures WellShaped(wire + [Headers(true, None)])
    ensures WellShaped(wire + [Data([], true)])
    ensures !WellShaped(wire)
  {
    assert !wire[|wire| - 1].endStream;
  }

  /** A header block and nothing else. */
  ghost predicate HeaderOut(wire: seq<Frame>, ended: bool) {
    |wire| == 1 && wire[0].Headers? && wire[0].endStream == ended
  }

  /** A header block that ended the stream may not be followed by anything. */
  lemma EndedAtHeader(wire: seq<Frame>, more: seq<Frame>)
    requires HeaderOut(wire, true) && wire <= more
    ensures WellShaped(more) <==> more == wire
  {
    if more != wire {
      assert more[0] == wire[0] && |more| > 1;
    }
  }

  /** What the body and trailer add to a header block, or to a streamed response, ends it well iff. */
  lemma EndShape(before: seq<Frame>, wire: seq<Frame>, headerSent: bool, streamed: bool, trailer: Trailer,
                 body: seq<byte>, out: seq<byte>, maxFrame: int)
    requires before <= wire
    requires if headerSent then streamed && Open(before, maxFrame)
             else HeaderOut(before, trailer.NoTrailer? && body == [])
    requires Open(before, maxFrame) ==> (WellShaped(wire) <==> trailer.Trailer? || out != [] || streamed)
    requires trailer.NoTrailer? ==> (wire == before <==> out == [] && !streamed)
    ensures WellShaped(wire) <==> EndsWell(headerSent, streamed, trailer, body, out)
  {
    if !headerSent && before[0].endStream {
      EndedAtHeader(before, wire);
    } else {
      assert Open(before, maxFrame);
    }
  }

  /** A whole response declares its length, and rightly exactly when no stale coding is in the way. */
  ghost predicate LengthLaw(wire: seq<Frame>, before: Coding, after: Coding, accept: bool, body: seq<byte>,
                            req: Request) {
    && wire != [] && wire[0].Headers?
    && (!req.appContentLength && !req.isHead ==> wire[0].declared.Some?)
    && (DeclaresDelivered(wire) <==> wire[0].declared.None? || DeclaresRightly(before, after, accept, body, req))
  }

  /** The shape and the declared length of a response that `end()` finished. */
  ghost predicate EndLaw(wire: seq<Frame>, headerSent: bool, streamed: bool, trailer: Trailer,
                         before: Coding, after: Coding, accept: bool, body: seq<byte>, req: Request) {
    && (WellShaped(wire) <==> EndsWell(headerSent, streamed, trailer, body, after.Outgoing(body)))
    && (!headerSent ==> LengthLaw(wire, before, after, accept, body, req))
  }

  lemma EndLength(header: seq<Frame>, wire: seq<Frame>, before: Coding, accept: bool, body: seq<byte>,
                  endStream: bool, req: Request)
    requires header == [HeaderFrame(before, accept, Body(body), endStream, req)] && header <= wire
    requires DataBytes(wire) == DataBytes([]) + before.After(accept, Body(body), req).Outgoing(body)
    ensures LengthLaw(wire, before, before.After(accept, Body(body), req), accept, body, req)
  {
    DeclaredIsDeliveredIff(before, accept, body, req);
    assert wire[0] == header[0];
  }

  lemma FileShape(before: seq<Frame>, wire: seq<Frame>, content: seq<byte>, end: bool, maxFrame: int)
    requires HeaderOut(before, end && content == [])
    requires Extends(before, wire, content, |content|, end, maxFrame)
    ensures wire[0] == before[0] && DataBytes(wire) == content
    ensures if end then WellShaped(wire) else WellShaped(wire + [Headers(true, None)])
  {
    BodyExtends(before, wire, content, |content|, end, maxFrame);
    DataBytesSnoc([], before[0]);
    assert [] + [before[0]] == before;
    if !end {
      OpenThenTrailer(wire, maxFrame);
    } else if content == [] {
      if wire[1..] != [] {
        FramesCarryOctets(wire[1..], end, maxFrame);
      }
      EndedAtHeader(before, wire);
    }
  }

  lemma FramesCarryOctets(sent: seq<Frame>, end: bool, maxFrame: int)
    requires DataRun(sent, end, maxFrame) && sent != []
    ensures DataBytes(sent) != []
  {
    assert |Payload(sent[|sent| - 1])| > 0;
  }

  lemma BodyExtends(before: seq<Frame>, wire: seq<Frame>, body: seq<byte>, n: int, end: bool, maxFrame: int)
    requires Extends(before, wire, body, n, end, maxFrame)
    ensures DataBytes(wire) == DataBytes(before) + body[..n]
    ensures n == |body| ==> DataBytes(wire) == DataBytes(before) + body
    ensures Open(before, maxFrame) && !end ==> Open(wire, maxFrame)
    ensures Open(before, maxFrame) && end && n == |body| > 0 ==> WellShaped(wire)
    ensures n > 0 ==> |wire| > |before|
  {
    DataBytesPlus(before, wire[|before|..]);
    assert before + wire[|before|..] == wire;
    if Open(before, maxFrame) {
      OpenExtended(before, wire, body, n, end, maxFrame);
    }
    assert body[..|body|] == body;
  }

  /** The first `m` octets of `body[p..q]` after the first `p` are the first `p + m`. */
  lemma RunOfDataIsOne(before: seq<Frame>, mid: seq<Frame>, wire: seq<Frame>, body: seq<byte>, p: nat, q: nat, m: nat,
                       end: bool, maxFrame: int)
    requires p <= q <= |body| && m <= q - p && (p < |body| || !end)
    requires Extends(before, mid, body, p, end, maxFrame)
    requires Extends(mid, wire, body[p..q], m, end && q == |body|, maxFrame)
    ensures Extends(before, wire, body, p + m, end, maxFrame)
  {
    var a, b := mid[|before|..], wire[|mid|..];
    assert wire[|before|..] == a + b;
    assert body[..p + m] == body[..p] + body[p..q][..m];
    DataBytesPlus(a, b);
  }

  /** Every read the system makes of a file brings something, and there are enough of them. */
  predicate Readable(preads: seq<int>, length: nat) {
    length <= |preads| && forall i :: 0 <= i < |preads| ==> preads[i] > 0
  }

  /** The length the header block declares, if it does, is that of the body sent. */
  ghost predicate DeclaresDelivered(wire: seq<Frame>)
    requires wire != [] && wire[0].Headers?
  {
    wire[0].declared.Some? ==> wire[0].declared.value == |DataBytes(wire)|
  }

  /** The header block of a file response declares its length, or leaves that to the application. */
  ghost predicate DeclaresFile(f: Frame, length: nat, req: Request) {
    && f.Headers? && (f.declared.Some? ==> f.declared.value == length)
    && (!req.appContentLength && !req.isHead ==> f.declared.Some?)
  }

  /** When `end()` leaves a well-shaped response. */
  predicate EndsWell(headerSent: bool, streamed: bool, trailer: Trailer, body: seq<byte>, out: seq<byte>) {
    || trailer.Trailer?
    || (if !headerSent && body == [] then out == [] && !streamed else out != [] || streamed)
  }

  /** The credit a run of events grants stream `id`. */
  function Granted(id: uint32, events: seq<Event>): nat {
    if events == [] then 0
    else (if events[0].WindowUpdate? && events[0].streamId == id then events[0].increment else 0)
         + Granted(id, events[1..])
  }

  /** The sends that fail in a run of events. */
  function Failures(events: seq<Event>): nat {
    if events == [] then 0 else (if events[0] == SendDone(false) then 1 else 0) + Failures(events[1..])
  }

  /** A call that used up `sched` down to `rest` fails only over a failed send, and suspends only for want of events. */
  ghost predicate Blamed(r: Outcome, sched: seq<Event>, rest: seq<Event>) {
    && |rest| <= |sched| && Failures(rest) <= Failures(sched)
    && (r == Failed ==> Failures(rest) < Failures(sched))
    && (r == InSend || r == Parked ==> rest == [])
  }

  /** Nothing but sends that complete, at least `n` of them. */
  ghost predicate Completes(sched: seq<Event>, n: int) {
    |sched| >= n && forall i :: 0 <= i < |sched| ==> sched[i] == SendDone(true)
  }

  /** The window is the credit left, as far as 32 bits can tell; it is never overdrawn. */
  ghost predicate Balanced(window: uint32, credit: nat, sent: nat) {
    sent <= credit && window == Wrap32(credit - sent)
  }

  lemma CreditGrows(window: uint32, credit: nat, sent: nat, value: uint32)
    requires Balanced(window, credit, sent)
    ensures Balanced(Wrap32(window + value), credit + value, sent)
  {
    WrapPlus(credit - sent, value);
  }

  lemma CreditUsed(window: uint32, credit: nat, sent: nat, n: nat)
    requires Balanced(window, credit, sent) && n <= credit - sent
    ensures Balanced(Wrap32(window - n), credit, sent + n)
    ensures Wrap32(window - n) == window - n <==> n <= window
    ensures credit - sent < UINT32_RANGE ==> n <= window
  {
    WrapPlus(credit - sent, 0 - n);
  }

  /** With the window at zero the credit is used up, unless it outgrew 32 bits. */
  lemma UsedUpIff(window: uint32, credit: nat, sent: nat)
    requires Balanced(window, credit, sent) && window == 0
    ensures sent == credit <==> credit - sent < UINT32_RANGE
  {
  }

  /** An increment that carries the window over 32 bits empties it: the grant is lost. */
  lemma GrantCanVanish()
    ensures Balanced(0xFFFF_FFFF, 0xFFFF_FFFF, 0) && Balanced(0, 0x1_0000_0000, 0)
    ensures Wrap32(0xFFFF_FFFF + 1) == 0
  {
    CreditGrows(0xFFFF_FFFF, 0xFFFF_FFFF, 0, 1);
  }

  function Min(a: int, b: int): int {
    if a <= b then a else b
  }

  /** Of `length` octets as many are out as the credit allows, exactly when the credit left fits 32 bits. */
  ghost predicate CreditUsedUpIff(length: nat, n: nat, sent: nat, credit: nat) {
    n == Min(length, credit - sent) <==> n == length || credit - (sent + n) < UINT32_RANGE
  }

  // ------------------------------------------------------- what a send amounts to

  /** The sends that complete, or fail, in a run of events. */
  function Dones(events: seq<Event>): nat {
    if events == [] then 0 else (if events[0].SendDone? then 1 else 0) + Dones(events[1..])
  }

  /**
   * The sending side of a stream; `credit` is the window at creation and all increments,
   * `failures` how many sends have failed.
   */
  datatype Sender = Sender(id: uint32, maxFrame: uint32, pageSize: nat, window: uint32, session: uint32,
                           waiting: bool, wire: seq<Frame>, torn: bool, credit: nat, failures: nat)
  {
    /** The window is balanced with the credit, and a sender waits only at zero. */
    ghost predicate Ok() {
      && id > 0 && maxFrame > 0 && (waiting ==> window == 0)
      && Balanced(window, credit, |DataBytes(wire)|)
    }

    /** A WINDOW_UPDATE for this stream. */
    predicate Grants(e: Event) {
      e.WindowUpdate? && e.streamId == id && id != 0
    }

    function Heard(e: Event): Sender {
      match e
      case WindowUpdate(streamId, n) =>
        if streamId == 0 then this.(session := Wrap32(session + n))
        else if streamId == id then this.(window := Wrap32(window + n), credit := credit + n)
        else this
      case SettingsInitialWindow(value) => this.(session := value)
      case OtherStreamSent(n) => this.(session := Wrap32(session - n))
      case SendDone(_) => this
    }

    /** Suspended in `ctx->send`: goes on at the first completion. */
    function Awaited(sched: seq<Event>): (a: (Sender, Outcome, seq<Event>))
      ensures a.1 != InSend ==> |a.2| < |sched|
      decreases |sched|
    {
      if sched == [] then (this, InSend, [])
      else if sched[0] == SendDone(true) then (this, Finished, sched[1..])
      else if sched[0].SendDone? then (this.(failures := failures + 1), Failed, sched[1..])
      else Heard(sched[0]).Awaited(sched[1..])
    }

    /** Parked: goes on at the first WINDOW_UPDATE for this stream. */
    function Unparked(sched: seq<Event>): (a: (Sender, bool, seq<Event>))
      ensures a.1 ==> |a.2| < |sched|
      decreases |sched|
    {
      if sched == [] then (this, false, [])
      else if Grants(sched[0]) then (Heard(sched[0]).(waiting := false), true, sched[1..])
      else Heard(sched[0]).Unparked(sched[1..])
    }

    /** A frame without payload. */
    function PlainOut(f: Frame, sched: seq<Event>): (Sender, Outcome, seq<Event>) {
      var a := Awaited(sched);
      if a.1 == Finished then (a.0.(wire := a.0.wire + [f]), Finished, a.2) else a
    }

    /** A DATA frame went out: both windows are debited. */
    function Debited(f: Frame): Sender {
      this.(window := Wrap32(window - |Payload(f)|), session := Wrap32(session - |Payload(f)|), wire := wire + [f])
    }

    /** The last send of a DATA frame, or the only one. */
    function LastOut(f: Frame, large: bool, sched: seq<Event>): (a: (Sender, Outcome, seq<Event>))
      ensures a.1 == Finished ==> |a.2| < |sched|
    {
      var a := Awaited(sched);
      if a.1 == Finished then (a.0.Debited(f), Finished, a.2) else (a.0.(torn := torn || large), a.1, a.2)
    }

    /** A DATA frame: a large one in two sends. */
    function DataOut(f: Frame, sched: seq<Event>): (a: (Sender, Outcome, seq<Event>))
      ensures a.1 == Finished ==> |a.2| < |sched|
    {
      var large := |Payload(f)| >= pageSize;
      var first := if large then Awaited(sched) else (this, Finished, sched);
      if first.1 == Finished then first.0.LastOut(f, large, first.2) else first
    }

    /** How many of `left` octets the next frame may carry. */
    function Allowed(left: nat): (n: nat)
      ensures n <= left && n <= maxFrame && n <= window
      ensures left > 0 && maxFrame > 0 && window > 0 ==> n > 0
    {
      Min(Min(left, maxFrame), window)
    }

    /** The sending loop from octet `p` on; the last component is how far it came. */
    function BodyOut(body: seq<byte>, p: nat, end: bool, sched: seq<Event>): (Sender, Outcome, seq<Event>, nat)
      requires p <= |body|
      decreases |sched|
    {
      if p == |body| then (this, Finished, sched, p)
      else if window == 0 && maxFrame > 0 then
        var u := this.(waiting := true).Unparked(sched);
        if u.1 then u.0.BodyOut(body, p, end, u.2) else (u.0, Parked, u.2, p)
      else
        var q := p + Allowed(|body| - p);
        var sent := DataOut(Chunk(body, p, q, end), sched);
        if sent.1 == Finished then sent.0.BodyOut(body, q, end, sent.2) else (sent.0, sent.1, sent.2, p)
    }
  }

  // ------------------------------------------------------------------ the laws of sending

  lemma BodyStep(s: Sender, body: seq<byte>, p: nat, end: bool, sched: seq<Event>, q: nat,
                 sent: (Sender, Outcome, seq<Event>))
    requires p < |body| && s.window > 0 && q == p + s.Allowed(|body| - p)
    requires sent == s.DataOut(Chunk(body, p, q, end), sched)
    ensures s.BodyOut(body, p, end, sched) ==
            if sent.1 == Finished then sent.0.BodyOut(body, q, end, sent.2) else (sent.0, sent.1, sent.2, p)
  {
  }

  lemma BodyWait(s: Sender, body: seq<byte>, p: nat, end: bool, sched: seq<Event>, u: (Sender, bool, seq<Event>))
    requires p < |body| && s.window == 0 && s.maxFrame > 0 && u == s.(waiting := true).Unparked(sched)
    ensures s.BodyOut(body, p, end, sched) ==
            if u.1 then u.0.BodyOut(body, p, end, u.2) else (u.0, Parked, u.2, p)
  {
  }

  /** What every call leaves behind: a balanced window, and nothing but a cause for how it ended. */
  ghost predicate Passed(s: Sender, sched: seq<Event>, t: Sender, r: Outcome, rest: seq<Event>) {
    && t.Ok() && t.id == s.id && t.maxFrame == s.maxFrame && t.pageSize == s.pageSize
    && Blamed(r, sched, rest)
    && t.credit + Granted(s.id, rest) == s.credit + Granted(s.id, sched) && s.credit <= t.credit
    && t.failures == s.failures + (if r == Failed then 1 else 0)
  }

  /** Only the windows may have moved. */
  ghost predicate OnlyWindows(s: Sender, t: Sender) {
    t == s.(window := t.window, session := t.session, credit := t.credit, failures := t.failures)
  }

  lemma HeardLaw(s: Sender, e: Event)
    requires s.Ok()
    ensures var t := s.Heard(e);
            && OnlyWindows(s, t) && t.credit == s.credit + Granted(s.id, [e])
            && Balanced(t.window, t.credit, |DataBytes(t.wire)|)
            && (!s.Grants(e) ==> t.Ok() && t.window == s.window && t.credit == s.credit)
            && t.failures == s.failures
  {
    if s.Grants(e) {
      CreditGrows(s.window, s.credit, |DataBytes(s.wire)|, e.increment);
    }
  }

  /** Before `rest` comes the first completion in the schedule, and it is a good one or not. */
  ghost predicate DoneFirst(sched: seq<Event>, rest: seq<Event>, ok: bool) {
    && |rest| < |sched|
    && var i := |sched| - |rest| - 1;
       sched[i] == SendDone(ok) && rest == sched[i + 1..] && forall k :: 0 <= k < i ==> !sched[k].SendDone?
  }

  /** A send is over exactly when it completes or fails in the schedule; the window may grow meanwhile. */
  ghost predicate AwaitLaw(s: Sender, sched: seq<Event>, a: (Sender, Outcome, seq<Event>)) {
    && Passed(s, sched, a.0, a.1, a.2) && OnlyWindows(s, a.0) && a.1 != Parked
    && (a.1 == InSend <==> Dones(sched) == 0) && (a.1 != InSend ==> Dones(a.2) == Dones(sched) - 1)
    && (a.1 != InSend ==> DoneFirst(sched, a.2, a.1 == Finished))
    && (Completes(sched, 1) ==> a == (s, Finished, sched[1..]))
  }

  lemma DoneLater(sched: seq<Event>, rest: seq<Event>, ok: bool)
    requires sched != [] && !sched[0].SendDone? && DoneFirst(sched[1..], rest, ok)
    ensures DoneFirst(sched, rest, ok)
  {
    assert sched == [sched[0]] + sched[1..];
  }

  lemma {:induction false} AwaitedLaw(s: Sender, sched: seq<Event>)
    requires s.Ok() && !s.waiting
    ensures AwaitLaw(s, sched, s.Awaited(sched))
    decreases |sched|
  {
    if sched != [] {
      var a := s.Awaited(sched);
      if sched[0].SendDone? {
        assert DoneFirst(sched, sched[1..], sched[0].ok);
      } else {
        HeardLaw(s, sched[0]);
        AwaitedLaw(s.Heard(sched[0]), sched[1..]);
        if a.1 != InSend {
          DoneLater(sched, a.2, a.1 == Finished);
        }
      }
    }
  }

  /** A parked sender goes on exactly when a WINDOW_UPDATE for its stream is in the schedule. */
  ghost predicate ParkLaw(s: Sender, sched: seq<Event>, u: (Sender, bool, seq<Event>)) {
    && Passed(s, sched, u.0, if u.1 then Finished else Parked, u.2)
    && OnlyWindows(s.(waiting := !u.1), u.0) && (!u.1 ==> u.0.window == 0)
    && (u.1 <==> exists i :: 0 <= i < |sched| && s.Grants(sched[i]))
  }

  lemma {:induction false} UnparkedLaw(s: Sender, sched: seq<Event>)
    requires s.Ok() && s.waiting
    ensures ParkLaw(s, sched, s.Unparked(sched))
    decreases |sched|
  {
    if sched != [] {
      HeardLaw(s, sched[0]);
      if !s.Grants(sched[0]) {
        UnparkedLaw(s.Heard(sched[0]), sched[1..]);
        assert sched == [sched[0]] + sched[1..];
      }
    }
  }

  ghost predicate PlainLaw(s: Sender, f: Frame, sched: seq<Event>, a: (Sender, Outcome, seq<Event>)) {
    && Passed(s, sched, a.0, a.1, a.2) && a.1 != Parked && (a.1 == InSend <==> Dones(sched) == 0)
    && OnlyWindows(s.(wire := if a.1 == Finished then s.wire + [f] else s.wire), a.0)
    && (Completes(sched, 1) ==> a.1 == Finished && Completes(a.2, |sched| - 1) && a.0.window == s.window)
  }

  /** A frame without payload uses no window. */
  lemma PlainOutLaw(s: Sender, f: Frame, sched: seq<Event>)
    requires s.Ok() && !s.waiting && Payload(f) == []
    ensures PlainLaw(s, f, sched, s.PlainOut(f, sched))
  {
    AwaitedLaw(s, sched);
    DataBytesSnoc(s.wire, f);
  }

  lemma DebitedOk(s: Sender, f: Frame)
    requires s.Ok() && |Payload(f)| <= s.credit - |DataBytes(s.wire)| && !s.waiting
    ensures s.Debited(f).Ok()
    ensures |Payload(f)| <= s.window ==> s.Debited(f).window == s.window - |Payload(f)|
    ensures s.Debited(f).session == Wrap32(s.session - |Payload(f)|) && s.Debited(f).wire == s.wire + [f]
  {
    CreditUsed(s.window, s.credit, |DataBytes(s.wire)|, |Payload(f)|);
    DataBytesSnoc(s.wire, f);
  }

  /** A DATA frame goes out whole or not at all, with at most `k` completions. */
  ghost predicate DataLaw(s: Sender, f: Frame, k: nat, sched: seq<Event>, a: (Sender, Outcome, seq<Event>)) {
    && Passed(s, sched, a.0, a.1, a.2) && a.1 != Parked && !a.0.waiting
    && a.0.wire == (if a.1 == Finished then s.wire + [f] else s.wire)
    && (if a.1 == Finished then a.0.torn == s.torn else s.torn ==> a.0.torn)
    && (a.1 == InSend ==> Dones(sched) < k) && (a.1 == Finished ==> Dones(sched) <= Dones(a.2) + k)
    && (Completes(sched, k) && |Payload(f)| <= s.window ==>
          a.1 == Finished && Completes(a.2, |sched| - k) && a.0.window == s.window - |Payload(f)|)
  }

  lemma LastOutLaw(s: Sender, f: Frame, large: bool, sched: seq<Event>)
    requires s.Ok() && !s.waiting && |Payload(f)| <= s.credit - |DataBytes(s.wire)|
    ensures DataLaw(s, f, 1, sched, s.LastOut(f, large, sched))
  {
    AwaitedLaw(s, sched);
    var a := s.Awaited(sched);
    if a.1 == Finished {
      DebitedOk(a.0, f);
    }
  }

  lemma WithinCredit(s: Sender)
    requires s.Ok()
    ensures s.window <= s.credit - |DataBytes(s.wire)|
  {
  }

  lemma LargeOutLaw(s: Sender, f: Frame, sched: seq<Event>, first: (Sender, Outcome, seq<Event>),
                    a: (Sender, Outcome, seq<Event>))
    requires AwaitLaw(s, sched, first) && first.1 == Finished && DataLaw(first.0, f, 1, first.2, a)
    ensures DataLaw(s, f, 2, sched, a)
  {
  }

  lemma DataOutLaw(s: Sender, f: Frame, sched: seq<Event>)
    requires s.Ok() && !s.waiting && |Payload(f)| <= s.window
    ensures DataLaw(s, f, 2, sched, s.DataOut(f, sched))
  {
    WithinCredit(s);
    if |Payload(f)| >= s.pageSize {
      AwaitedLaw(s, sched);
      var first := s.Awaited(sched);
      if first.1 == Finished {
        LastOutLaw(first.0, f, true, first.2);
        LargeOutLaw(s, f, sched, first, first.0.LastOut(f, true, first.2));
      }
    } else {
      LastOutLaw(s, f, false, sched);
    }
  }

  /** A small frame takes one send, a large one two; it is torn if only the first of these was made. */
  ghost predicate SendsLaw(s: Sender, f: Frame, sched: seq<Event>, a: (Sender, Outcome, seq<Event>)) {
    var large, used := |Payload(f)| >= s.pageSize, Dones(sched) - Dones(a.2);
    && (a.1 == Finished ==> used == if large then 2 else 1)
    && (a.1 == Failed ==> 1 <= used <= if large then 2 else 1)
    && (a.1 == InSend ==> 0 <= used < if large then 2 else 1)
    && a.0.torn == (s.torn || (large && a.1 != Finished && used == if a.1 == Failed then 2 else 1))
  }

  lemma SendsIs(s: Sender, f: Frame, sched: seq<Event>)
    requires s.Ok() && !s.waiting
    ensures SendsLaw(s, f, sched, s.DataOut(f, sched))
  {
    AwaitedLaw(s, sched);
    if |Payload(f)| >= s.pageSize && s.Awaited(sched).1 == Finished {
      AwaitedLaw(s.Awaited(sched).0, s.Awaited(sched).2);
    }
  }

  /** What the sending loop has done from octet `p` on, after `before`. */
  ghost predicate BodyLaw(s: Sender, body: seq<byte>, p: nat, end: bool, sched: seq<Event>, before: seq<Frame>,
                          b: (Sender, Outcome, seq<Event>, nat)) {
    && Passed(s, sched, b.0, b.1, b.2) && p <= b.3
    && Extends(before, b.0.wire, body, b.3, end, s.maxFrame)
    && (b.1 == Finished <==> b.3 == |body|)
    && (b.1 == Parked <==> b.0.waiting)
    && (if b.1 == Finished || b.1 == Parked then b.0.torn == s.torn else s.torn ==> b.0.torn)
    && (Completes(sched, 2 * (|body| - p)) && s.window >= |body| - p ==>
          b.1 == Finished && Completes(b.2, |sched| - 2 * (|body| - p)))
  }

  /** What the rest of the loop needs to know of a frame of `n` octets. */
  ghost predicate FrameLaw(s: Sender, n: nat, sched: seq<Event>, sent: (Sender, Outcome, seq<Event>)) {
    && Passed(s, sched, sent.0, sent.1, sent.2) && !sent.0.waiting
    && (sent.1 == Finished ==> sent.0.torn == s.torn)
    && (Completes(sched, 2) ==>
          sent.1 == Finished && Completes(sent.2, |sched| - 2) && sent.0.window == s.window - n)
  }

  lemma BodyAfterFrame(s: Sender, body: seq<byte>, p: nat, q: nat, end: bool, sched: seq<Event>, before: seq<Frame>,
                       sent: (Sender, Outcome, seq<Event>), b: (Sender, Outcome, seq<Event>, nat))
    requires p < q <= |body| && sent.1 == Finished && FrameLaw(s, q - p, sched, sent)
    requires BodyLaw(sent.0, body, q, end, sent.2, before, b)
    ensures BodyLaw(s, body, p, end, sched, before, b)
  {
    if Completes(sched, 2 * (|body| - p)) && s.window >= |body| - p {
      assert Completes(sched, 2);
      assert Completes(sent.2, 2 * (|body| - q)) && sent.0.window >= |body| - q;
    }
  }

  lemma BodyStopped(s: Sender, body: seq<byte>, p: nat, q: nat, end: bool, sched: seq<Event>, before: seq<Frame>,
                    sent: (Sender, Outcome, seq<Event>))
    requires p < q <= |body| && q - p <= s.window && sent.1 != Finished && !s.waiting
    requires DataLaw(s, Chunk(body, p, q, end), 2, sched, sent)
    requires Extends(before, s.wire, body, p, end, s.maxFrame)
    ensures BodyLaw(s, body, p, end, sched, before, (sent.0, sent.1, sent.2, p))
  {
  }

  lemma BodyAfterPark(s: Sender, body: seq<byte>, p: nat, end: bool, sched: seq<Event>, before: seq<Frame>,
                      u: (Sender, bool, seq<Event>), b: (Sender, Outcome, seq<Event>, nat))
    requires p < |body| && s.window == 0 && u.1 && ParkLaw(s.(waiting := true), sched, u)
    requires BodyLaw(u.0, body, p, end, u.2, before, b)
    ensures BodyLaw(s, body, p, end, sched, before, b)
  {
  }

  lemma BodyParked(s: Sender, body: seq<byte>, p: nat, end: bool, sched: seq<Event>, before: seq<Frame>,
                   u: (Sender, bool, seq<Event>))
    requires p < |body| && s.window == 0 && !u.1 && ParkLaw(s.(waiting := true), sched, u)
    requires Extends(before, s.wire, body, p, end, s.maxFrame)
    ensures BodyLaw(s, body, p, end, sched, before, (u.0, Parked, u.2, p))
  {
  }

  lemma ParkOnce(s: Sender, body: seq<byte>, p: nat, end: bool, sched: seq<Event>, before: seq<Frame>)
    returns (u: (Sender, bool, seq<Event>))
    requires s.Ok() && !s.waiting && p < |body| && Extends(before, s.wire, body, p, end, s.maxFrame) && s.window == 0
    ensures ParkLaw(s.(waiting := true), sched, u) && (u.1 ==> |u.2| < |sched|)
    ensures s.BodyOut(body, p, end, sched) ==
            if u.1 then u.0.BodyOut(body, p, end, u.2) else (u.0, Parked, u.2, p)
  {
    u := s.(waiting := true).Unparked(sched);
    UnparkedLaw(s.(waiting := true), sched);
    BodyWait(s, body, p, end, sched, u);
  }

  lemma SendOnce(s: Sender, body: seq<byte>, p: nat, end: bool, sched: seq<Event>, before: seq<Frame>)
    returns (q: nat, sent: (Sender, Outcome, seq<Event>))
    requires s.Ok() && !s.waiting && p < |body| && Extends(before, s.wire, body, p, end, s.maxFrame) && s.window > 0
    ensures p < q <= |body| && FrameLaw(s, q - p, sched, sent) && (sent.1 == Finished ==> |sent.2| < |sched|)
    ensures s.BodyOut(body, p, end, sched) ==
            if sent.1 == Finished then sent.0.BodyOut(body, q, end, sent.2) else (sent.0, sent.1, sent.2, p)
    ensures sent.1 == Finished ==> Extends(before, sent.0.wire, body, q, end, s.maxFrame)
    ensures sent.1 != Finished ==> BodyLaw(s, body, p, end, sched, before, (sent.0, sent.1, sent.2, p))
  {
    q := p + s.Allowed(|body| - p);
    var f := Chunk(body, p, q, end);
    sent := s.DataOut(f, sched);
    DataOutLaw(s, f, sched);
    BodyStep(s, body, p, end, sched, q, sent);
    if sent.1 == Finished {
      ExtendsStep(before, s.wire, body, p, q, end, s.maxFrame);
    } else {
      BodyStopped(s, body, p, q, end, sched, before, sent);
    }
  }

  /** What is out is always a prefix of the body, in frames the windows allow. */
  lemma {:induction false} BodyOutLaw(s: Sender, body: seq<byte>, p: nat, end: bool, sched: seq<Event>,
                                      before: seq<Frame>, b: (Sender, Outcome, seq<Event>, nat))
    requires s.Ok() && !s.waiting && p <= |body| && Extends(before, s.wire, body, p, end, s.maxFrame)
    requires b == s.BodyOut(body, p, end, sched)
    ensures BodyLaw(s, body, p, end, sched, before, b)
    decreases |sched|
  {
    if p == |body| {
      assert b == (s, Finished, sched, p);
    } else if s.window == 0 {
      var u := ParkOnce(s, body, p, end, sched, before);
      if u.1 {
        BodyOutLaw(u.0, body, p, end, u.2, before, b);
        BodyAfterPark(s, body, p, end, sched, before, u, b);
      } else {
        BodyParked(s, body, p, end, sched, before, u);
      }
    } else {
      var q, sent := SendOnce(s, body, p, end, sched, before);
      if sent.1 == Finished {
        BodyOutLaw(sent.0, body, q, end, sent.2, before, b);
        BodyAfterFrame(s, body, p, q, end, sched, before, sent, b);
      }
    }
  }

  /** On finishing or parking it is as long as the peer's credit permits, as far as 32 bits can tell. */
  ghost predicate CreditLaw(s: Sender, body: seq<byte>, b: (Sender, Outcome, seq<Event>, nat)) {
    && |DataBytes(b.0.wire)| == |DataBytes(s.wire)| + b.3 <= b.0.credit
    && (b.1 == Parked ==> b.0.window == 0)
    && (b.1 == Finished || b.1 == Parked ==>
          (b.3 == Min(|body|, b.0.credit - |DataBytes(s.wire)|) <==>
           b.1 == Finished || b.0.credit - |DataBytes(b.0.wire)| < UINT32_RANGE))
  }

  lemma SendingLaw(s: Sender, body: seq<byte>, end: bool, sched: seq<Event>)
    requires s.Ok() && !s.waiting
    ensures BodyLaw(s, body, 0, end, sched, s.wire, s.BodyOut(body, 0, end, sched))
    ensures CreditLaw(s, body, s.BodyOut(body, 0, end, sched))
  {
    var b := s.BodyOut(body, 0, end, sched);
    BodyOutLaw(s, body, 0, end, sched, s.wire, b);
    BodyExtends(s.wire, b.0.wire, body, b.3, end, s.maxFrame);
    if b.1 == Parked {
      UsedUpIff(b.0.window, b.0.credit, |DataBytes(b.0.wire)|);
    }
  }

  // ---------------------------------------------------------------------- the stream

  class Stream {
    const id: uint32
    const maxFrame: uint32                  // session->local_settings.max_frame_size
    const pageSize: nat
    var remoteWindow: uint32                // what the peer lets this stream send
    var sessionWindow: uint32               // debited, never consulted
    var waiting: bool                       // waiting_coroutine is set
    var wire: seq<Frame>
    ghost var credit: nat                   // the window at creation and all increments
    ghost var torn: bool                    // a frame's header went out without its payload
    ghost var failures: nat                 // sends that failed

    ghost function S(): Sender
      reads this
    {
      Sender(id, maxFrame, pageSize, remoteWindow, sessionWindow, waiting, wire, torn, credit, failures)
    }

    constructor (id: uint32, initWindow: uint32, sessionWindow: uint32, maxFrame: uint32, pageSize: nat)
      requires id > 0 && maxFrame > 0
      ensures S() == Sender(id, maxFrame, pageSize, initWindow, sessionWindow, false, [], false, initWindow, 0)
      ensures S().Ok()
    {
      this.id, this.maxFrame, this.pageSize := id, maxFrame, pageSize;
      this.remoteWindow, this.sessionWindow := initWindow, sessionWindow;
      waiting, wire, credit, torn, failures := false, [], initWindow, false, 0;
    }

    /** A WINDOW_UPDATE frame arrives; it resumes the sender only if that is parked. */
    method OnWindowUpdate(streamId: uint32, value: uint32) returns (resumed: bool)
      modifies this`remoteWindow, this`sessionWindow, this`credit
      ensures S() == old(S()).Heard(WindowUpdate(streamId, value))
      ensures resumed <==> waiting && S().Grants(WindowUpdate(streamId, value))
      ensures old(S()).Ok() ==> Balanced(remoteWindow, credit, |DataBytes(wire)|)
    {
      if S().Ok() {
        HeardLaw(S(), WindowUpdate(streamId, value));
      }
      resumed := false;
      if streamId == 0 {
        sessionWindow := Wrap32(sessionWindow + value);
      } else if streamId == id {
        credit := credit + value;
        remoteWindow := Wrap32(remoteWindow + value);
        if waiting {
          resumed := true;
        }
      }
    }

    method OnEvent(e: Event) returns (resumed: bool)
      modifies this`remoteWindow, this`sessionWindow, this`credit
      ensures S() == old(S()).Heard(e) && (resumed <==> waiting && S().Grants(e))
      ensures sessionWindow == match e
                case WindowUpdate(streamId, n) =>
                  if streamId == 0 then Wrap32(old(sessionWindow) + n) else old(sessionWindow)
                case SettingsInitialWindow(value) => value
                case OtherStreamSent(n) => Wrap32(old(sessionWindow) - n)
                case SendDone(_) => old(sessionWindow)
    {
      resumed := false;
      match e {
        case WindowUpdate(streamId, value) => resumed := OnWindowUpdate(streamId, value);
        case SettingsInitialWindow(value) => sessionWindow := value;
        case OtherStreamSent(n) => sessionWindow := Wrap32(sessionWindow - n);
        case SendDone(_) =>
      }
    }

    /** Suspended in `ctx->send` until the send completes; the window may grow meanwhile. */
    method AwaitSend(sched: seq<Event>) returns (r: Outcome, rest: seq<Event>)
      modifies this`remoteWindow, this`sessionWindow, this`credit, this`failures
      ensures (S(), r, rest) == old(S()).Awaited(sched)
      ensures old(S()).Ok() && !waiting ==> AwaitLaw(old(S()), sched, (S(), r, rest))
    {
      if S().Ok() && !waiting {
        AwaitedLaw(S(), sched);
      }
      rest := sched;
      while rest != []
        invariant S().Awaited(rest) == old(S()).Awaited(sched)
        decreases |rest|
      {
        var e := rest[0];
        rest := rest[1..];
        if e.SendDone? {
          if e.ok {
            return Finished, rest;
          }
          failures := failures + 1;
          return Failed, rest;
        }
        var _ := OnEvent(e);
      }
      r := InSend;
    }

    /** Parked until a WINDOW_UPDATE for this stream arrives. */
    method AwaitWindow(sched: seq<Event>) returns (resumed: bool, rest: seq<Event>)
      modifies this`remoteWindow, this`sessionWindow, this`credit, this`waiting
      ensures (S(), resumed, rest) == old(S()).(waiting := true).Unparked(sched)
      ensures old(S()).Ok() && old(remoteWindow) == 0 ==>
                ParkLaw(old(S()).(waiting := true), sched, (S(), resumed, rest))
    {
      if S().Ok() && remoteWindow == 0 {
        UnparkedLaw(S().(waiting := true), sched);
      }
      waiting := true;
      rest := sched;
      while rest != []
        invariant waiting && S().Unparked(rest) == old(S()).(waiting := true).Unparked(sched)
        decreases |rest|
      {
        var e := rest[0];
        rest := rest[1..];
        resumed := OnEvent(e);
        if resumed {
          waiting := false;
          return;
        }
      }
      resumed := false;
    }

    /** One DATA frame: in one send when it is small, else its header first. */
    method SendDataFrame(f: Frame, sched: seq<Event>) returns (r: Outcome, rest: seq<Event>)
      modifies this
      ensures (S(), r, rest) == old(S()).DataOut(f, sched)
      ensures old(S()).Ok() && !old(waiting) && |Payload(f)| <= old(remoteWindow) ==>
                DataLaw(old(S()), f, 2, sched, (S(), r, rest)) && SendsLaw(old(S()), f, sched, (S(), r, rest))
    {
      if S().Ok() && !waiting && |Payload(f)| <= remoteWindow {
        DataOutLaw(S(), f, sched);
        SendsIs(S(), f, sched);
      }
      rest := sched;
      var n := |Payload(f)|;
      if n >= pageSize {
        r, rest := AwaitSend(rest);
        if r != Finished {
          return;
        }
      }
      r, rest := SendLast(f, n >= pageSize, rest);
    }

    /** The last send of a frame; only then are the windows debited. */
    method SendLast(f: Frame, ghost large: bool, sched: seq<Event>) returns (r: Outcome, rest: seq<Event>)
      modifies this
      ensures (S(), r, rest) == old(S()).LastOut(f, large, sched)
    {
      r, rest := AwaitSend(sched);
      if r != Finished {
        torn := torn || large;
        return;
      }
      wire := wire + [f];
      remoteWindow := Wrap32(remoteWindow - |Payload(f)|);
      sessionWindow := Wrap32(sessionWindow - |Payload(f)|);
    }

    /** One turn of the sending loop: parks at a zero window, else sends a frame up to `q`. */
    method SendSome(body: seq<byte>, p: nat, endStream: bool, sched: seq<Event>)
      returns (r: Outcome, rest: seq<Event>, q: nat)
      requires p < |body| && maxFrame > 0
      modifies this
      ensures p <= q <= |body| && (r == Finished ==> |rest| < |sched|) && (r != Finished ==> q == p)
      ensures old(S()).BodyOut(body, p, endStream, sched) ==
              if r == Finished then S().BodyOut(body, q, endStream, rest) else (S(), r, rest, q)
      ensures old(S()).Ok() && !old(waiting) && q > p ==>
                && q - p == Min(Min(|body| - p, maxFrame), old(remoteWindow))
                && wire == old(wire) + [Data(body[p..q], endStream && q == |body|)]
    {
      var l := |body| - p;
      var sendN, last := l, endStream;
      if l > maxFrame {
        sendN, last := maxFrame, false;
      }
      if sendN > remoteWindow {
        if remoteWindow == 0 {
          var resumed;
          resumed, rest := AwaitWindow(sched);
          BodyWait(old(S()), body, p, endStream, sched, (S(), resumed, rest));
          return if resumed then Finished else Parked, rest, p;
        }
        sendN, last := remoteWindow, false;
      }
      assert sendN == S().Allowed(l);
      q := p + sendN;
      r, rest := SendDataFrame(Data(body[p..q], last), sched);
      BodyStep(old(S()), body, p, endStream, sched, q, (S(), r, rest));
      if r != Finished {
        q := p;
      }
    }

    /**
     * Sends `body` in frames no larger than the window and the frame size allow.  What has
     * gone out is always a prefix, and when the call ends or parks it is as long as the
     * peer's credit permits.
     */
    method SendBody(body: seq<byte>, endStream: bool, sched: seq<Event>)
      returns (r: Outcome, rest: seq<Event>, ghost n: nat)
      requires maxFrame > 0
      modifies this
      ensures (S(), r, rest, n) == old(S()).BodyOut(body, 0, endStream, sched)
      ensures old(S()).Ok() && !old(waiting) ==>
                && BodyLaw(old(S()), body, 0, endStream, sched, old(wire), (S(), r, rest, n))
                && CreditLaw(old(S()), body, (S(), r, rest, n))
    {
      if S().Ok() && !waiting {
        SendingLaw(S(), body, endStream, sched);
      }
      var p := 0;
      rest, r := sched, Finished;
      while r == Finished && p < |body|
        invariant p <= |body| && (r != Finished ==> p < |body|)
        invariant old(S()).BodyOut(body, 0, endStream, sched) ==
                  if r == Finished then S().BodyOut(body, p, endStream, rest) else (S(), r, rest, p)
        decreases r == Finished, |rest|
      {
        r, rest, p := SendSome(body, p, endStream, rest);
      }
      n := p;
    }

    /** A frame without payload. */
    method SendPlain(f: Frame, sched: seq<Event>) returns (r: Outcome, rest: seq<Event>)
      modifies this
      ensures (S(), r, rest) == old(S()).PlainOut(f, sched)
    {
      r, rest := AwaitSend(sched);
      if r == Finished {
        wire := wire + [f];
      }
    }
  }

  // --------------------------------------------------------------- what a response amounts to

  /** The HTTP context of a stream: what its response has come to. */
  datatype Reply = Reply(tx: Sender, sendHeader: bool, sendChunked: bool, ended: bool, accept: bool, coding: Coding) {
    ghost predicate Ready() {
      tx.Ok() && !tx.waiting
    }

    /** What every call on a response not yet ended leaves behind. */
    ghost predicate StillOpen() {
      !ended ==>
        && (sendHeader ==> sendChunked)
        && (!tx.torn ==>
              if sendHeader then Open(tx.wire, tx.maxFrame) && tx.wire[0].declared.None?
              else tx.wire == [])
    }

    /** The header block, with END_STREAM when there is no body to come. */
    function Header(body: HeaderBody, end: bool, req: Request, sched: seq<Event>): (Reply, Outcome, seq<Event>) {
      var f := HeaderFrame(coding, accept, body, end, req);
      var built := this.(coding := coding.After(accept, body, req));
      if !req.headersBuilt then (built, Failed, sched) else built.Block(f, sched)
    }

    /** A header block that is built goes out. */
    function Block(f: Frame, sched: seq<Event>): (Reply, Outcome, seq<Event>) {
      var a := tx.PlainOut(f, sched);
      (this.(tx := a.0, sendHeader := a.1 != Failed, ended := ended || f.endStream), a.1, a.2)
    }

    /** The header block unless it is out already. */
    function HeaderOnce(body: HeaderBody, end: bool, req: Request, sched: seq<Event>): (Reply, Outcome, seq<Event>) {
      if sendHeader then (this, Finished, sched) else Header(body, end, req, sched)
    }

    function Piece(data: seq<byte>, end: bool, sched: seq<Event>): (Reply, Outcome, seq<Event>) {
      var b := tx.BodyOut(data, 0, end, sched);
      (this.(tx := b.0), b.1, b.2)
    }

    /** `write()`: a piece of a response whose length is not announced. */
    function Written(data: seq<byte>, req: Request, sched: seq<Event>): (Reply, Outcome, seq<Event>) {
      if ended then (this, Failed, sched)
      else if data == [] then (this.(accept := false), Failed, sched)
      else this.(accept := false, sendChunked := true).Streamed(data, req, sched)
    }

    function Streamed(data: seq<byte>, req: Request, sched: seq<Event>): (Reply, Outcome, seq<Event>) {
      var h := HeaderOnce(NoBody, false, req, sched);
      if h.1 == Finished then h.0.Piece(data, false, h.2) else h
    }

    /** The trailer block, which ends the stream. */
    function Trailed(trailer: Trailer, sched: seq<Event>): (Reply, Outcome, seq<Event>)
      requires trailer.Trailer?
    {
      if !trailer.built then (this, Failed, sched)
      else
        var a := tx.PlainOut(Headers(true, None), sched);
        (this.(tx := a.0), a.1, a.2)
    }

    /** The body, or the empty frame that ends a streamed response. */
    function Content(out: seq<byte>, end: bool, sched: seq<Event>): (Reply, Outcome, seq<Event>) {
      if out != [] then Piece(out, end, sched)
      else if sendChunked && end then
        var a := tx.PlainOut(Data([], true), sched);
        (this.(tx := a.0), a.1, a.2)
      else (this, Finished, sched)
    }

    /** What follows the header block. */
    function Rest(out: seq<byte>, trailer: Trailer, sched: seq<Event>): (Reply, Outcome, seq<Event>) {
      var c := Content(out, trailer.NoTrailer?, sched);
      if c.1 == Finished && trailer.Trailer? then c.0.Trailed(trailer, c.2) else c
    }

    /** `http2_server_respond`. */
    function Responded(body: seq<byte>, trailer: Trailer, req: Request, sched: seq<Event>)
      : (Reply, Outcome, seq<Event>)
    {
      var h := HeaderOnce(Body(body), trailer.NoTrailer?, req, sched);
      if h.1 != Finished then h
      else h.0.(ended := true).Rest(h.0.coding.Outgoing(body), trailer, h.2)
    }

    /** `end()`: refused once the response has ended. */
    function Ended(body: seq<byte>, trailer: Trailer, req: Request, sched: seq<Event>): (Reply, Outcome, seq<Event>) {
      if ended then (this, Failed, sched) else Responded(body, trailer, req, sched)
    }

    /** The content and the trailer of a file response, and how much of the content is out. */
    function FileRest(content: seq<byte>, trailer: Trailer, preads: seq<int>, sched: seq<Event>)
      : (Reply, Outcome, seq<Event>, nat)
    {
      var c := FileOut(tx, content, 0, 0, trailer.NoTrailer?, preads, sched);
      var q := this.(tx := c.0);
      if c.1 == Finished && trailer.Trailer? then
        var t := q.Trailed(trailer, c.2);
        (t.0, t.1, t.2, c.3)
      else (q, c.1, c.2, c.3)
    }

    /** The file is open and its length known: header block, content and trailer. */
    function FileReply(content: seq<byte>, trailer: Trailer, req: Request, preads: seq<int>, sched: seq<Event>)
      : (Reply, Outcome, seq<Event>, nat)
    {
      var h := Header(LengthOnly(|content|), trailer.NoTrailer?, req, sched);
      if h.1 != Finished then (h.0, h.1, h.2, 0)
      else h.0.(ended := true).FileRest(content, trailer, preads, h.2)
    }

    /** `sendfile()`. */
    function FileSent(file: seq<byte>, ready: bool, offset: nat, length: nat, trailer: Trailer, req: Request,
                      preads: seq<int>, sched: seq<Event>): (Reply, Outcome, seq<Event>, nat)
      requires offset + length <= |file|
    {
      if ended || sendChunked then (this, Failed, sched, 0)
      else if !ready then (this.(accept := false), Failed, sched, 0)
      else this.(accept := false).FileReply(file[offset..offset + length], trailer, req, preads, sched)
    }

    /** `write()` for every piece in turn; an empty one is refused and passed over. */
    function WrittenAll(pieces: seq<seq<byte>>, req: Request, sched: seq<Event>): (Reply, Outcome, seq<Event>)
      decreases |pieces|
    {
      if pieces == [] then (this, Finished, sched)
      else
        var n := |pieces| - 1;
        var most := WrittenAll(pieces[..n], req, sched);
        if most.1 != Finished then most
        else
          var w := most.0.Written(pieces[n], req, most.2);
          if pieces[n] == [] then (w.0, Finished, w.2) else w
    }

    function WrittenAndEnded(pieces: seq<seq<byte>>, last: seq<byte>, trailer: Trailer, req: Request,
                             sched: seq<Event>): (Reply, Outcome, seq<Event>) {
      var w := WrittenAll(pieces, req, sched);
      if w.1 == Finished then w.0.Ended(last, trailer, req, w.2) else w
    }
  }

  /** The reading loop of `sendfile()` from octet `p` and read `i` on; `preads` says what each pread returns. */
  function FileOut(s: Sender, content: seq<byte>, p: nat, i: nat, end: bool, preads: seq<int>, sched: seq<Event>)
    : (Sender, Outcome, seq<Event>, nat)
    requires p <= |content|
    decreases |content| - p
  {
    if p == |content| then (s, Finished, sched, p)
    else if i >= |preads| || preads[i] <= 0 then (s, Failed, sched, p)
    else
      var q := p + Min(preads[i], Min(|content| - p, SW_FILE_CHUNK_SIZE));
      var b := s.BodyOut(content[p..q], 0, end && q == |content|, sched);
      if b.1 == Finished then FileOut(b.0, content, q, i + 1, end, preads, b.2) else (b.0, b.1, b.2, p + b.3)
  }

  // -------------------------------------------------------------- the laws of responses

  /** What every call on a response leaves behind. */
  ghost predicate Kept(s: Sender, sched: seq<Event>, t: Sender, r: Outcome, rest: seq<Event>) {
    && t.Ok() && t.id == s.id && t.maxFrame == s.maxFrame && (r == Parked <==> t.waiting) && |rest| <= |sched|
    && t.credit + Granted(s.id, rest) == s.credit + Granted(s.id, sched)
    && s.failures <= t.failures <= s.failures + 1 && (t.failures > s.failures ==> r == Failed)
  }

  ghost predicate HeaderLaw(p: Reply, body: HeaderBody, end: bool, req: Request, sched: seq<Event>,
                            o: (Reply, Outcome, seq<Event>)) {
    && Kept(p.tx, sched, o.0.tx, o.1, o.2) && o.1 != Parked && o.0.tx.torn == p.tx.torn
    && (if req.headersBuilt then Blamed(o.1, sched, o.2) else o.1 == Failed)
    && o.0.coding == p.coding.After(p.accept, body, req)
    && o.0.ended == (p.ended || (req.headersBuilt && end && body.Length() == 0))
    && o.0.accept == p.accept && o.0.sendChunked == p.sendChunked
    && o.0.tx.wire == (if o.1 == Finished then p.tx.wire + [HeaderFrame(p.coding, p.accept, body, end, req)]
                       else p.tx.wire)
    && (o.1 == Finished ==> o.0.sendHeader) && (o.1 == Failed ==> o.0.sendHeader == (p.sendHeader && !req.headersBuilt))
    && (req.headersBuilt && Completes(sched, 1) ==>
          o.1 == Finished && Completes(o.2, |sched| - 1) && o.0.tx.window == p.tx.window)
  }

  /** One header block; a failed send allows a retry but keeps the coding. */
  lemma HeaderIs(p: Reply, body: HeaderBody, end: bool, req: Request, sched: seq<Event>)
    requires p.Ready()
    ensures HeaderLaw(p, body, end, req, sched, p.Header(body, end, req, sched))
  {
    PlainOutLaw(p.tx, HeaderFrame(p.coding, p.accept, body, end, req), sched);
  }

  lemma HeaderCarriesNothing(p: Reply, body: HeaderBody, end: bool, req: Request, sched: seq<Event>,
                             o: (Reply, Outcome, seq<Event>))
    requires HeaderLaw(p, body, end, req, sched, o)
    ensures DataBytes(o.0.tx.wire) == DataBytes(p.tx.wire)
  {
    DataBytesSnoc(p.tx.wire, HeaderFrame(p.coding, p.accept, body, end, req));
  }

  /** The header block of a streamed response goes out once and leaves it open. */
  ghost predicate OpenedLaw(p: Reply, req: Request, sched: seq<Event>, o: (Reply, Outcome, seq<Event>)) {
    && Kept(p.tx, sched, o.0.tx, o.1, o.2) && o.1 != Parked && !o.0.ended
    && (req.headersBuilt || p.sendHeader ==> Blamed(o.1, sched, o.2))
    && (o.1 == Finished ==> o.0.sendHeader) && (o.1 != InSend ==> o.0.StillOpen())
    && o.0.coding == p.coding && o.0.accept == p.accept && o.0.sendChunked == p.sendChunked
    && o.0.tx.torn == p.tx.torn && DataBytes(o.0.tx.wire) == DataBytes(p.tx.wire)
  }

  lemma OpenedIs(p: Reply, req: Request, sched: seq<Event>)
    requires p.Ready() && p.StillOpen() && !p.ended && p.sendChunked
    ensures OpenedLaw(p, req, sched, p.HeaderOnce(NoBody, false, req, sched))
  {
    if !p.sendHeader {
      HeaderIs(p, NoBody, false, req, sched);
      HeaderCarriesNothing(p, NoBody, false, req, sched, p.Header(NoBody, false, req, sched));
    }
  }

  ghost predicate WriteLaw(p: Reply, data: seq<byte>, req: Request, sched: seq<Event>,
                           o: (Reply, Outcome, seq<Event>)) {
    && Kept(p.tx, sched, o.0.tx, o.1, o.2) && o.0.ended == p.ended && o.0.coding == p.coding
    && (p.ended || data == [] ==>
          && o.1 == Failed && o.2 == sched && o.0.tx == p.tx
          && o.0.sendHeader == p.sendHeader && o.0.sendChunked == p.sendChunked)
    && (!p.ended && data != [] && (req.headersBuilt || p.sendHeader) ==> Blamed(o.1, sched, o.2))
    && (!p.ended ==> !o.0.accept)
    && (o.1 == Finished ==>
          && DataBytes(o.0.tx.wire) == DataBytes(p.tx.wire) + data
          && o.0.sendHeader && o.0.sendChunked && o.0.tx.torn == p.tx.torn)
    && (o.1 != InSend ==> o.0.StillOpen())
  }

  lemma PieceIs(p: Reply, data: seq<byte>, end: bool, sched: seq<Event>)
    requires p.Ready()
    ensures var b := p.tx.BodyOut(data, 0, end, sched);
            BodyLaw(p.tx, data, 0, end, sched, p.tx.wire, b) && CreditLaw(p.tx, data, b)
            && DataBytes(b.0.wire) == DataBytes(p.tx.wire) + data[..b.3]
            && (b.1 == Finished ==> DataBytes(b.0.wire) == DataBytes(p.tx.wire) + data)
            && (Open(p.tx.wire, p.tx.maxFrame) && !end ==> Open(b.0.wire, p.tx.maxFrame))
            && (Open(p.tx.wire, p.tx.maxFrame) ==> b.0.wire != [] && b.0.wire[0] == p.tx.wire[0])
  {
    SendingLaw(p.tx, data, end, sched);
    var b := p.tx.BodyOut(data, 0, end, sched);
    BodyExtends(p.tx.wire, b.0.wire, data, b.3, end, p.tx.maxFrame);
  }

  lemma StreamedIs(p: Reply, data: seq<byte>, req: Request, sched: seq<Event>)
    requires p.Ready() && p.StillOpen() && !p.ended && p.sendChunked && !p.accept && data != []
    ensures WriteLaw(p, data, req, sched, p.Streamed(data, req, sched))
  {
    OpenedIs(p, req, sched);
    var h := p.HeaderOnce(NoBody, false, req, sched);
    if h.1 == Finished {
      PieceIs(h.0, data, false, h.2);
    }
  }

  /** Empty pieces and ended responses are refused; else the piece is appended, and the response stays open. */
  lemma WrittenIs(p: Reply, data: seq<byte>, req: Request, sched: seq<Event>)
    requires p.Ready() && p.StillOpen()
    ensures WriteLaw(p, data, req, sched, p.Written(data, req, sched))
  {
    if !p.ended && data != [] {
      StreamedIs(p.(accept := false, sendChunked := true), data, req, sched);
    }
  }

  ghost predicate TrailLaw(p: Reply, trailer: Trailer, sched: seq<Event>, o: (Reply, Outcome, seq<Event>))
    requires trailer.Trailer?
  {
    && Kept(p.tx, sched, o.0.tx, o.1, o.2) && o.1 != Parked && o.0 == p.(tx := o.0.tx)
    && (if trailer.built then Blamed(o.1, sched, o.2) else o.1 == Failed)
    && o.0.tx.wire == (if o.1 == Finished then p.tx.wire + [Headers(true, None)] else p.tx.wire)
    && (trailer.built && Completes(sched, 1) ==> o.1 == Finished)
    && DataBytes(o.0.tx.wire) == DataBytes(p.tx.wire)
  }

  /** A trailer block ends the stream and adds no body octets. */
  lemma TrailedIs(p: Reply, trailer: Trailer, sched: seq<Event>)
    requires p.Ready() && trailer.Trailer?
    ensures TrailLaw(p, trailer, sched, p.Trailed(trailer, sched))
  {
    PlainOutLaw(p.tx, Headers(true, None), sched);
    DataBytesSnoc(p.tx.wire, Headers(true, None));
  }

  ghost predicate ContentLaw(p: Reply, out: seq<byte>, end: bool, sched: seq<Event>,
                             o: (Reply, Outcome, seq<Event>)) {
    && Kept(p.tx, sched, o.0.tx, o.1, o.2) && Blamed(o.1, sched, o.2) && p.tx.wire <= o.0.tx.wire
    && o.0 == p.(tx := o.0.tx)
    && (o.1 == Finished ==> DataBytes(o.0.tx.wire) == DataBytes(p.tx.wire) + out)
    && (o.1 == Finished && Open(p.tx.wire, p.tx.maxFrame) ==>
          if end then WellShaped(o.0.tx.wire) <==> out != [] || p.sendChunked else Open(o.0.tx.wire, p.tx.maxFrame))
    && (o.1 == Finished && end ==> (o.0.tx.wire == p.tx.wire <==> out == [] && !p.sendChunked))
    && (Completes(sched, 2 * |out| + 1) && p.tx.window >= |out| ==>
          o.1 == Finished && Completes(o.2, |sched| - 2 * |out| - 1))
  }

  lemma EmptyContent(p: Reply, end: bool, sched: seq<Event>)
    requires p.Ready()
    ensures ContentLaw(p, [], end, sched, p.Content([], end, sched))
  {
    if Open(p.tx.wire, p.tx.maxFrame) {
      OpenThenTrailer(p.tx.wire, p.tx.maxFrame);
    }
    PlainOutLaw(p.tx, Data([], true), sched);
    DataBytesSnoc(p.tx.wire, Data([], true));
    assert DataBytes(p.tx.wire) + [] == DataBytes(p.tx.wire);
  }

  /** The body, or the empty frame that ends a streamed response. */
  lemma ContentIs(p: Reply, out: seq<byte>, end: bool, sched: seq<Event>)
    requires p.Ready()
    ensures ContentLaw(p, out, end, sched, p.Content(out, end, sched))
  {
    if out == [] {
      EmptyContent(p, end, sched);
    } else {
      SendingLaw(p.tx, out, end, sched);
      var b := p.tx.BodyOut(out, 0, end, sched);
      BodyExtends(p.tx.wire, b.0.wire, out, b.3, end, p.tx.maxFrame);
    }
  }

  ghost predicate RestLaw(p: Reply, out: seq<byte>, trailer: Trailer, sched: seq<Event>,
                          o: (Reply, Outcome, seq<Event>)) {
    && Kept(p.tx, sched, o.0.tx, o.1, o.2) && p.tx.wire <= o.0.tx.wire && o.0 == p.(tx := o.0.tx)
    && (trailer.NoTrailer? || trailer.built ==> Blamed(o.1, sched, o.2))
    && (o.1 == Finished ==> DataBytes(o.0.tx.wire) == DataBytes(p.tx.wire) + out)
    && (o.1 == Finished && Open(p.tx.wire, p.tx.maxFrame) ==>
          (WellShaped(o.0.tx.wire) <==> trailer.Trailer? || out != [] || p.sendChunked))
    && (o.1 == Finished && trailer.NoTrailer? ==> (o.0.tx.wire == p.tx.wire <==> out == [] && !p.sendChunked))
    && ((trailer.NoTrailer? || trailer.built) && p.tx.window >= |out| && Completes(sched, 2 * |out| + 2) ==>
          o.1 == Finished)
  }

  lemma RestAfterContent(p: Reply, out: seq<byte>, trailer: Trailer, sched: seq<Event>,
                         c: (Reply, Outcome, seq<Event>), o: (Reply, Outcome, seq<Event>))
    requires ContentLaw(p, out, trailer.NoTrailer?, sched, c)
    requires if c.1 == Finished && trailer.Trailer? then TrailLaw(c.0, trailer, c.2, o) else o == c
    ensures RestLaw(p, out, trailer, sched, o)
  {
    if Open(c.0.tx.wire, p.tx.maxFrame) {
      OpenThenTrailer(c.0.tx.wire, p.tx.maxFrame);
    }
  }

  /** With the trailer: when the response is well-shaped, and that all octets went out. */
  lemma RestIs(p: Reply, out: seq<byte>, trailer: Trailer, sched: seq<Event>)
    requires p.Ready()
    ensures RestLaw(p, out, trailer, sched, p.Rest(out, trailer, sched))
  {
    ContentIs(p, out, trailer.NoTrailer?, sched);
    var c := p.Content(out, trailer.NoTrailer?, sched);
    if c.1 == Finished && trailer.Trailer? {
      TrailedIs(c.0, trailer, c.2);
    }
    RestAfterContent(p, out, trailer, sched, c, p.Rest(out, trailer, sched));
  }

  ghost predicate EndHeaderLaw(p: Reply, body: seq<byte>, end: bool, req: Request, sched: seq<Event>,
                               o: (Reply, Outcome, seq<Event>)) {
    && Kept(p.tx, sched, o.0.tx, o.1, o.2) && o.1 != Parked && o.0.tx.torn == p.tx.torn
    && o.0.accept == p.accept && o.0.sendChunked == p.sendChunked
    && (req.headersBuilt || p.sendHeader ==> Blamed(o.1, sched, o.2))
    && (o.1 == Finished && !p.tx.torn ==>
          if p.sendHeader then Open(o.0.tx.wire, p.tx.maxFrame) && o.0.tx.wire == p.tx.wire
          else o.0.tx.wire == [HeaderFrame(p.coding, p.accept, Body(body), end, req)] && p.tx.wire == [])
    && DataBytes(o.0.tx.wire) == DataBytes(p.tx.wire)
    && o.0.coding == (if p.sendHeader then p.coding else p.coding.After(p.accept, Body(body), req))
    && (o.1 != InSend ==> o.1 == Finished || (o.0.StillOpen() && !o.0.sendHeader))
    && ((req.headersBuilt || p.sendHeader) && Completes(sched, 1) ==>
          o.1 == Finished && Completes(o.2, |sched| - 1) && o.0.tx.window == p.tx.window)
  }

  /** The header block of a whole response, unless a streamed one is under way. */
  lemma EndHeaderIs(p: Reply, body: seq<byte>, end: bool, req: Request, sched: seq<Event>)
    requires p.Ready() && p.StillOpen() && !p.ended
    ensures EndHeaderLaw(p, body, end, req, sched, p.HeaderOnce(Body(body), end, req, sched))
  {
    if !p.sendHeader {
      HeaderIs(p, Body(body), end, req, sched);
      HeaderCarriesNothing(p, Body(body), end, req, sched, p.Header(Body(body), end, req, sched));
    }
  }

  /**
   * What `end()` sends and declares.  A body is encoded if the client accepts that, it is long
   * enough and the encoder succeeds; what an earlier call left encoded goes out instead of a body
   * that is not.
   */
  ghost predicate DeliveryLaw(p: Reply, body: seq<byte>, req: Request, before: seq<byte>, wire: seq<Frame>) {
    var stale := if p.coding.compressed then p.coding.buffer else body;
    if p.sendHeader then DataBytes(wire) == before + stale
    else if !p.accept || |body| < req.compressionMinLength then
      DataBytes(wire) == before + stale && (!p.tx.torn ==> Declares(wire, |body|, req))
    else if req.encoded.None? then
      && DataBytes(wire) == before + (if p.coding.compressed then [] else body)
      && (!p.tx.torn ==> Declares(wire, |body|, req))
    else
      && DataBytes(wire) == before + req.encoded.value
      && (!p.tx.torn ==> wire != [] && wire[0].Headers? && wire[0].declared == Some(|req.encoded.value|))
  }

  /** The header block declares the length, unless the application does or it is an empty answer to HEAD. */
  ghost predicate Declares(wire: seq<Frame>, length: nat, req: Request) {
    && wire != [] && wire[0].Headers?
    && wire[0].declared == if req.appContentLength || (length == 0 && req.isHead) then None else Some(length)
  }

  lemma DeliveryIs(p: Reply, h: Reply, body: seq<byte>, end: bool, req: Request, before: seq<byte>, wire: seq<Frame>)
    requires DataBytes(wire) == before + h.coding.Outgoing(body)
    requires h.coding == if p.sendHeader then p.coding else p.coding.After(p.accept, Body(body), req)
    requires !p.sendHeader && !p.tx.torn ==>
               h.tx.wire == [HeaderFrame(p.coding, p.accept, Body(body), end, req)] && h.tx.wire <= wire
    ensures DeliveryLaw(p, body, req, before, wire)
  {
    if !p.sendHeader && !p.tx.torn {
      assert wire[0] == h.tx.wire[0];
    }
  }

  ghost predicate ResponseLaw(p: Reply, body: seq<byte>, trailer: Trailer, req: Request, sched: seq<Event>,
                              o: (Reply, Outcome, seq<Event>)) {
    && Kept(p.tx, sched, o.0.tx, o.1, o.2) && o.0.accept == p.accept && o.0.sendChunked == p.sendChunked
    && ((req.headersBuilt || p.sendHeader) && (trailer.NoTrailer? || trailer.built) ==> Blamed(o.1, sched, o.2))
    && (o.1 == Finished ==>
          o.0.ended && DataBytes(o.0.tx.wire) == DataBytes(p.tx.wire) + o.0.coding.Outgoing(body))
    && o.0.coding == (if p.sendHeader then p.coding else p.coding.After(p.accept, Body(body), req))
    && (o.1 == Finished ==> DeliveryLaw(p, body, req, DataBytes(p.tx.wire), o.0.tx.wire))
    && (o.1 == Finished && !p.tx.torn ==>
          EndLaw(o.0.tx.wire, p.sendHeader, p.sendChunked, trailer, p.coding, o.0.coding, p.accept, body, req))
    && (o.1 != InSend ==> o.0.StillOpen() && (o.0.sendHeader ==> o.0.ended))
    && (req.headersBuilt || p.sendHeader ==> trailer.NoTrailer? || trailer.built ==>
          p.tx.window >= |o.0.coding.Outgoing(body)| ==>
          Completes(sched, 2 * |o.0.coding.Outgoing(body)| + 3) ==> o.1 == Finished)
  }

  lemma AfterHeader(p: Reply, h: (Reply, Outcome, seq<Event>), body: seq<byte>, trailer: Trailer, req: Request,
                    sched: seq<Event>, o: (Reply, Outcome, seq<Event>))
    requires p.StillOpen() && !p.ended && h.1 == Finished
    requires EndHeaderLaw(p, body, trailer.NoTrailer?, req, sched, h)
    requires RestLaw(h.0.(ended := true), h.0.coding.Outgoing(body), trailer, h.2, o)
    ensures ResponseLaw(p, body, trailer, req, sched, o)
  {
    if o.1 == Finished {
      DeliveryIs(p, h.0, body, trailer.NoTrailer?, req, DataBytes(p.tx.wire), o.0.tx.wire);
    }
    if o.1 == Finished && !p.tx.torn {
      var out := h.0.coding.Outgoing(body);
      EndShape(h.0.tx.wire, o.0.tx.wire, p.sendHeader, p.sendChunked, trailer, body, out, p.tx.maxFrame);
      if !p.sendHeader {
        EndLength(h.0.tx.wire, o.0.tx.wire, p.coding, p.accept, body, trailer.NoTrailer?, req);
      }
    }
  }

  /** The body delivered; shape and length are right under exact conditions. */
  lemma RespondedIs(p: Reply, body: seq<byte>, trailer: Trailer, req: Request, sched: seq<Event>)
    requires p.Ready() && p.StillOpen() && !p.ended
    ensures ResponseLaw(p, body, trailer, req, sched, p.Responded(body, trailer, req, sched))
  {
    EndHeaderIs(p, body, trailer.NoTrailer?, req, sched);
    var h := p.HeaderOnce(Body(body), trailer.NoTrailer?, req, sched);
    if h.1 == Finished {
      RestIs(h.0.(ended := true), h.0.coding.Outgoing(body), trailer, h.2);
      AfterHeader(p, h, body, trailer, req, sched, p.Responded(body, trailer, req, sched));
    }
  }

  /** What the reading loop has done from octet `p` on, after `before`. */
  ghost predicate FileLaw(s: Sender, content: seq<byte>, end: bool, preads: seq<int>, sched: seq<Event>,
                          before: seq<Frame>, c: (Sender, Outcome, seq<Event>, nat)) {
    && Kept(s, sched, c.0, c.1, c.2)
    && (Readable(preads, |content|) ==> Blamed(c.1, sched, c.2))
    && Extends(before, c.0.wire, content, c.3, end, s.maxFrame)
    && (c.1 == Finished <==> c.3 == |content|)
    && (c.1 == Parked ==> CreditUsedUpIff(|content|, c.3, |DataBytes(before)|, c.0.credit))
  }

  lemma FileRead(s: Sender, content: seq<byte>, p: nat, q: nat, end: bool, preads: seq<int>, sched: seq<Event>,
                 before: seq<Frame>, b: (Sender, Outcome, seq<Event>, nat))
    requires s.Ok() && p < q <= |content| && Extends(before, s.wire, content, p, end, s.maxFrame)
    requires BodyLaw(s, content[p..q], 0, end && q == |content|, sched, s.wire, b)
    requires CreditLaw(s, content[p..q], b)
    ensures Extends(before, b.0.wire, content, p + b.3, end, s.maxFrame)
    ensures b.1 == Parked ==> CreditUsedUpIff(|content|, p + b.3, |DataBytes(before)|, b.0.credit)
  {
    RunOfDataIsOne(before, s.wire, b.0.wire, content, p, q, b.3, end, s.maxFrame);
    BodyExtends(before, b.0.wire, content, p + b.3, end, s.maxFrame);
    if b.1 == Parked {
      UsedUpIff(b.0.window, b.0.credit, |DataBytes(b.0.wire)|);
    }
  }

  lemma FileStopped(s: Sender, content: seq<byte>, p: nat, q: nat, end: bool, preads: seq<int>, sched: seq<Event>,
                    before: seq<Frame>, b: (Sender, Outcome, seq<Event>, nat))
    requires p < q <= |content| && b.1 != Finished
    requires BodyLaw(s, content[p..q], 0, end && q == |content|, sched, s.wire, b)
    requires Extends(before, b.0.wire, content, p + b.3, end, s.maxFrame)
    requires b.1 == Parked ==> CreditUsedUpIff(|content|, p + b.3, |DataBytes(before)|, b.0.credit)
    ensures FileLaw(s, content, end, preads, sched, before, (b.0, b.1, b.2, p + b.3))
  {
  }

  lemma FileAfterRead(s: Sender, content: seq<byte>, end: bool, preads: seq<int>, sched: seq<Event>,
                      before: seq<Frame>, b: (Sender, Outcome, seq<Event>, nat),
                      c: (Sender, Outcome, seq<Event>, nat))
    requires b.1 == Finished && Passed(s, sched, b.0, Finished, b.2)
    requires FileLaw(b.0, content, end, preads, b.2, before, c)
    ensures FileLaw(s, content, end, preads, sched, before, c)
  {
  }

  /** What one read comes to. */
  lemma FileReadIs(s: Sender, content: seq<byte>, p: nat, q: nat, end: bool, preads: seq<int>, sched: seq<Event>,
                   before: seq<Frame>, b: (Sender, Outcome, seq<Event>, nat))
    requires s.Ok() && !s.waiting && p < q <= |content| && Extends(before, s.wire, content, p, end, s.maxFrame)
    requires b == s.BodyOut(content[p..q], 0, end && q == |content|, sched)
    ensures BodyLaw(s, content[p..q], 0, end && q == |content|, sched, s.wire, b)
    ensures Extends(before, b.0.wire, content, p + b.3, end, s.maxFrame)
    ensures b.1 != Finished ==> FileLaw(s, content, end, preads, sched, before, (b.0, b.1, b.2, p + b.3))
  {
    SendingLaw(s, content[p..q], end && q == |content|, sched);
    FileRead(s, content, p, q, end, preads, sched, before, b);
    if b.1 != Finished {
      FileStopped(s, content, p, q, end, preads, sched, before, b);
    }
  }

  lemma FileStep(s: Sender, content: seq<byte>, p: nat, i: nat, end: bool, preads: seq<int>, sched: seq<Event>,
                 q: nat, b: (Sender, Outcome, seq<Event>, nat))
    requires p < |content| && i < |preads| && preads[i] > 0
    requires q == p + Min(preads[i], Min(|content| - p, SW_FILE_CHUNK_SIZE))
    requires b == s.BodyOut(content[p..q], 0, end && q == |content|, sched)
    ensures FileOut(s, content, p, i, end, preads, sched) ==
            if b.1 == Finished then FileOut(b.0, content, q, i + 1, end, preads, b.2) else (b.0, b.1, b.2, p + b.3)
  {
  }

  lemma ReadOnce(s: Sender, content: seq<byte>, p: nat, i: nat, end: bool, preads: seq<int>, sched: seq<Event>,
                 before: seq<Frame>) returns (q: nat, b: (Sender, Outcome, seq<Event>, nat))
    requires s.Ok() && !s.waiting && p < |content| && Extends(before, s.wire, content, p, end, s.maxFrame)
    requires i < |preads| && preads[i] > 0
    ensures p < q <= |content| && Passed(s, sched, b.0, b.1, b.2)
    ensures FileOut(s, content, p, i, end, preads, sched) ==
            if b.1 == Finished then FileOut(b.0, content, q, i + 1, end, preads, b.2) else (b.0, b.1, b.2, p + b.3)
    ensures b.1 == Finished ==> !b.0.waiting && Extends(before, b.0.wire, content, q, end, s.maxFrame)
    ensures b.1 != Finished ==> FileLaw(s, content, end, preads, sched, before, (b.0, b.1, b.2, p + b.3))
  {
    q := p + Min(preads[i], Min(|content| - p, SW_FILE_CHUNK_SIZE));
    b := s.BodyOut(content[p..q], 0, end && q == |content|, sched);
    FileStep(s, content, p, i, end, preads, sched, q, b);
    FileReadIs(s, content, p, q, end, preads, sched, before, b);
  }

  lemma FileStuck(s: Sender, content: seq<byte>, p: nat, i: nat, end: bool, preads: seq<int>, sched: seq<Event>,
                  before: seq<Frame>)
    requires s.Ok() && !s.waiting && i <= p <= |content| && Extends(before, s.wire, content, p, end, s.maxFrame)
    requires p == |content| || i >= |preads| || preads[i] <= 0
    ensures FileLaw(s, content, end, preads, sched, before, FileOut(s, content, p, i, end, preads, sched))
  {
  }

  /** The reading loop sends a prefix of the content in order, all of it exactly when it finishes. */
  lemma {:induction false} FileOutIs(s: Sender, content: seq<byte>, p: nat, i: nat, end: bool, preads: seq<int>,
                                     sched: seq<Event>, before: seq<Frame>, c: (Sender, Outcome, seq<Event>, nat))
    requires s.Ok() && !s.waiting && i <= p <= |content| && Extends(before, s.wire, content, p, end, s.maxFrame)
    requires c == FileOut(s, content, p, i, end, preads, sched)
    ensures FileLaw(s, content, end, preads, sched, before, c)
    decreases |content| - p
  {
    if p == |content| || i >= |preads| || preads[i] <= 0 {
      FileStuck(s, content, p, i, end, preads, sched, before);
    } else {
      var q, b := ReadOnce(s, content, p, i, end, preads, sched, before);
      if b.1 == Finished {
        FileOutIs(b.0, content, q, i + 1, end, preads, b.2, before, c);
        FileAfterRead(s, content, end, preads, sched, before, b, c);
      }
    }
  }

  ghost predicate FileRestLaw(p: Reply, content: seq<byte>, trailer: Trailer, preads: seq<int>, sched: seq<Event>,
                              o: (Reply, Outcome, seq<Event>, nat)) {
    && Kept(p.tx, sched, o.0.tx, o.1, o.2) && o.0 == p.(tx := o.0.tx)
    && ((trailer.NoTrailer? || trailer.built) && Readable(preads, |content|) ==> Blamed(o.1, sched, o.2))
    && o.3 <= |content| && (o.1 == Finished ==> o.3 == |content|)
    && DataBytes(o.0.tx.wire) == DataBytes(p.tx.wire) + content[..o.3]
    && (o.1 == Parked ==> CreditUsedUpIff(|content|, o.3, |DataBytes(p.tx.wire)|, o.0.tx.credit))
    && (o.1 == Finished && HeaderOut(p.tx.wire, trailer.NoTrailer? && content == []) ==>
          WellShaped(o.0.tx.wire) && o.0.tx.wire[0] == p.tx.wire[0] && DataBytes(o.0.tx.wire) == content)
  }

  lemma FileAfterContent(p: Reply, content: seq<byte>, trailer: Trailer, preads: seq<int>, sched: seq<Event>,
                         c: (Sender, Outcome, seq<Event>, nat), o: (Reply, Outcome, seq<Event>, nat))
    requires FileLaw(p.tx, content, trailer.NoTrailer?, preads, sched, p.tx.wire, c) && o.3 == c.3
    requires if c.1 == Finished && trailer.Trailer? then TrailLaw(p.(tx := c.0), trailer, c.2, (o.0, o.1, o.2))
             else o == (p.(tx := c.0), c.1, c.2, c.3)
    ensures FileRestLaw(p, content, trailer, preads, sched, o)
  {
    var end := trailer.NoTrailer?;
    BodyExtends(p.tx.wire, c.0.wire, content, c.3, end, p.tx.maxFrame);
    if c.1 == Finished && HeaderOut(p.tx.wire, end && content == []) {
      FileShape(p.tx.wire, c.0.wire, content, end, p.tx.maxFrame);
    }
  }

  /** Content and trailer after the header block; how much of the content is out however it ends. */
  lemma FileRestIs(p: Reply, content: seq<byte>, trailer: Trailer, preads: seq<int>, sched: seq<Event>)
    requires p.Ready()
    ensures FileRestLaw(p, content, trailer, preads, sched, p.FileRest(content, trailer, preads, sched))
  {
    var end := trailer.NoTrailer?;
    var c := FileOut(p.tx, content, 0, 0, end, preads, sched);
    FileOutIs(p.tx, content, 0, 0, end, preads, sched, p.tx.wire, c);
    if c.1 == Finished && trailer.Trailer? {
      TrailedIs(p.(tx := c.0), trailer, c.2);
    }
    FileAfterContent(p, content, trailer, preads, sched, c, p.FileRest(content, trailer, preads, sched));
  }

  ghost predicate FileReplyLaw(p: Reply, content: seq<byte>, trailer: Trailer, req: Request, preads: seq<int>,
                               sched: seq<Event>, o: (Reply, Outcome, seq<Event>, nat)) {
    && Kept(p.tx, sched, o.0.tx, o.1, o.2) && o.0.accept == p.accept
    && (req.headersBuilt && (trailer.NoTrailer? || trailer.built) && Readable(preads, |content|) ==>
          Blamed(o.1, sched, o.2))
    && o.3 <= |content| && (o.1 == Finished ==> o.3 == |content|)
    && DataBytes(o.0.tx.wire) == DataBytes(p.tx.wire) + content[..o.3]
    && (o.1 == Parked ==> CreditUsedUpIff(|content|, o.3, |DataBytes(p.tx.wire)|, o.0.tx.credit))
    && (o.1 == Finished && !p.tx.torn ==>
          && WellShaped(o.0.tx.wire) && DataBytes(o.0.tx.wire) == content
          && DeclaresFile(o.0.tx.wire[0], |content|, req))
    && (o.1 != InSend ==> o.0.StillOpen() && (o.0.sendHeader && o.1 == Finished ==> o.0.ended))
  }

  lemma AfterFileHeader(p: Reply, h: (Reply, Outcome, seq<Event>), content: seq<byte>, trailer: Trailer, req: Request,
                        preads: seq<int>, sched: seq<Event>, o: (Reply, Outcome, seq<Event>, nat))
    requires p.StillOpen() && !p.ended && !p.sendChunked && h.1 == Finished
    requires HeaderLaw(p, LengthOnly(|content|), trailer.NoTrailer?, req, sched, h)
    requires FileRestLaw(h.0.(ended := true), content, trailer, preads, h.2, o)
    ensures FileReplyLaw(p, content, trailer, req, preads, sched, o)
  {
    HeaderCarriesNothing(p, LengthOnly(|content|), trailer.NoTrailer?, req, sched, h);
  }

  lemma NoFileHeader(p: Reply, h: (Reply, Outcome, seq<Event>), content: seq<byte>, trailer: Trailer, req: Request,
                     preads: seq<int>, sched: seq<Event>)
    requires p.StillOpen() && !p.ended && !p.sendChunked && h.1 != Finished
    requires HeaderLaw(p, LengthOnly(|content|), trailer.NoTrailer?, req, sched, h)
    ensures FileReplyLaw(p, content, trailer, req, preads, sched, (h.0, h.1, h.2, 0))
  {
    HeaderCarriesNothing(p, LengthOnly(|content|), trailer.NoTrailer?, req, sched, h);
    assert DataBytes(p.tx.wire) + content[..0] == DataBytes(p.tx.wire);
  }

  lemma FileHeaderOnce(p: Reply, content: seq<byte>, trailer: Trailer, req: Request, preads: seq<int>,
                       sched: seq<Event>) returns (h: (Reply, Outcome, seq<Event>))
    requires p.Ready()
    ensures HeaderLaw(p, LengthOnly(|content|), trailer.NoTrailer?, req, sched, h)
    ensures p.FileReply(content, trailer, req, preads, sched) ==
            if h.1 != Finished then (h.0, h.1, h.2, 0) else h.0.(ended := true).FileRest(content, trailer, preads, h.2)
  {
    HeaderIs(p, LengthOnly(|content|), trailer.NoTrailer?, req, sched);
    h := p.Header(LengthOnly(|content|), trailer.NoTrailer?, req, sched);
  }

  /** Header block, content and trailer: any prefix within the credit, and well-shaped once finished. */
  lemma FileReplyIs(p: Reply, content: seq<byte>, trailer: Trailer, req: Request, preads: seq<int>,
                    sched: seq<Event>)
    requires p.Ready() && p.StillOpen() && !p.ended && !p.sendChunked
    ensures FileReplyLaw(p, content, trailer, req, preads, sched, p.FileReply(content, trailer, req, preads, sched))
  {
    var o := p.FileReply(content, trailer, req, preads, sched);
    var h := FileHeaderOnce(p, content, trailer, req, preads, sched);
    if h.1 == Finished {
      FileRestIs(h.0.(ended := true), content, trailer, preads, h.2);
      AfterFileHeader(p, h, content, trailer, req, preads, sched, o);
    } else {
      NoFileHeader(p, h, content, trailer, req, preads, sched);
    }
  }

  /** `sendfile()`: refused for an ended or streamed response, else that of the stretch asked for. */
  ghost predicate FileSentLaw(p: Reply, file: seq<byte>, ready: bool, offset: nat, length: nat, trailer: Trailer,
                              req: Request, preads: seq<int>, sched: seq<Event>,
                              o: (Reply, Outcome, seq<Event>, nat))
    requires offset + length <= |file|
  {
    if p.ended || p.sendChunked then o == (p, Failed, sched, 0)
    else if !ready then o == (p.(accept := false), Failed, sched, 0)
    else !o.0.accept
         && FileReplyLaw(p.(accept := false), file[offset..offset + length], trailer, req, preads, sched, o)
  }

  lemma FileSentIs(p: Reply, file: seq<byte>, ready: bool, offset: nat, length: nat, trailer: Trailer, req: Request,
                   preads: seq<int>, sched: seq<Event>)
    requires p.Ready() && p.StillOpen() && offset + length <= |file|
    ensures FileSentLaw(p, file, ready, offset, length, trailer, req, preads, sched,
                        p.FileSent(file, ready, offset, length, trailer, req, preads, sched))
  {
    if !p.ended && !p.sendChunked && ready {
      FileReplyIs(p.(accept := false), file[offset..offset + length], trailer, req, preads, sched);
    }
  }

  ghost predicate WriteAllLaw(p: Reply, pieces: seq<seq<byte>>, sched: seq<Event>,
                              o: (Reply, Outcome, seq<Event>)) {
    && Kept(p.tx, sched, o.0.tx, o.1, o.2) && !o.0.ended && o.0.coding == p.coding
    && (o.1 == Finished ==>
          && o.0.StillOpen() && o.0.tx.torn == p.tx.torn
          && DataBytes(o.0.tx.wire) == DataBytes(p.tx.wire) + Concat(pieces)
          && (Concat(pieces) != [] ==> o.0.sendHeader && o.0.sendChunked))
  }

  lemma WriteMore(p: Reply, pieces: seq<seq<byte>>, data: seq<byte>, req: Request, sched: seq<Event>,
                  most: (Reply, Outcome, seq<Event>), w: (Reply, Outcome, seq<Event>))
    requires WriteAllLaw(p, pieces, sched, most) && most.1 == Finished && WriteLaw(most.0, data, req, most.2, w)
    ensures WriteAllLaw(p, pieces + [data], sched, if data == [] then (w.0, Finished, w.2) else w)
  {
    ConcatAppend(pieces, data);
    Assoc(DataBytes(p.tx.wire), Concat(pieces), data);
    if data == [] {
      assert Concat(pieces) + data == Concat(pieces);
    }
  }

  lemma WriteStep(p: Reply, pieces: seq<seq<byte>>, n: nat, req: Request, sched: seq<Event>,
                  most: (Reply, Outcome, seq<Event>)) returns (w: (Reply, Outcome, seq<Event>))
    requires |pieces| == n + 1 && most == p.WrittenAll(pieces[..n], req, sched) && most.1 == Finished
    requires most.0.Ready() && most.0.StillOpen()
    ensures p.WrittenAll(pieces, req, sched) == if pieces[n] == [] then (w.0, Finished, w.2) else w
    ensures WriteLaw(most.0, pieces[n], req, most.2, w)
  {
    w := most.0.Written(pieces[n], req, most.2);
    WrittenIs(most.0, pieces[n], req, most.2);
  }

  /** One more piece, after those before it. */
  lemma WriteLast(p: Reply, pieces: seq<seq<byte>>, n: nat, req: Request, sched: seq<Event>,
                  most: (Reply, Outcome, seq<Event>), w: (Reply, Outcome, seq<Event>),
                  o: (Reply, Outcome, seq<Event>))
    requires |pieces| == n + 1 && most.1 == Finished && WriteAllLaw(p, pieces[..n], sched, most)
    requires WriteLaw(most.0, pieces[n], req, most.2, w)
    requires o == if pieces[n] == [] then (w.0, Finished, w.2) else w
    ensures WriteAllLaw(p, pieces, sched, o)
  {
    WriteMore(p, pieces[..n], pieces[n], req, sched, most, w);
    assert pieces[..n] + [pieces[n]] == pieces;
  }

  /** Pieces written one after the other are their concatenation, empty ones refused without effect. */
  lemma {:induction false} WrittenAllIs(p: Reply, pieces: seq<seq<byte>>, req: Request, sched: seq<Event>)
    requires p.Ready() && p.StillOpen() && !p.ended
    ensures WriteAllLaw(p, pieces, sched, p.WrittenAll(pieces, req, sched))
    decreases |pieces|
  {
    if pieces == [] {
      assert DataBytes(p.tx.wire) + [] == DataBytes(p.tx.wire);
    } else {
      var n := |pieces| - 1;
      var most := p.WrittenAll(pieces[..n], req, sched);
      WrittenAllIs(p, pieces[..n], req, sched);
      if most.1 == Finished {
        var w := WriteStep(p, pieces, n, req, sched, most);
        WriteLast(p, pieces, n, req, sched, most, w, p.WrittenAll(pieces, req, sched));
      } else {
        assert p.WrittenAll(pieces, req, sched) == most;
      }
    }
  }

  ghost predicate StreamLaw(p: Reply, pieces: seq<seq<byte>>, last: seq<byte>, sched: seq<Event>,
                            o: (Reply, Outcome, seq<Event>)) {
    && Kept(p.tx, sched, o.0.tx, o.1, o.2)
    && (o.1 == Finished ==>
          && o.0.ended
          && DataBytes(o.0.tx.wire) == DataBytes(p.tx.wire) + Concat(pieces) + o.0.coding.Outgoing(last))
    && (o.1 == Finished && !p.tx.torn && Concat(pieces) != [] ==>
          WellShaped(o.0.tx.wire) && o.0.coding == p.coding)
  }

  /** A streamed response that ends delivers all its pieces and the last body, and is well-shaped if it had any. */
  lemma WrittenAndEndedIs(p: Reply, pieces: seq<seq<byte>>, last: seq<byte>, trailer: Trailer, req: Request,
                          sched: seq<Event>)
    requires p.Ready() && p.StillOpen() && !p.ended
    ensures StreamLaw(p, pieces, last, sched, p.WrittenAndEnded(pieces, last, trailer, req, sched))
  {
    WrittenAllIs(p, pieces, req, sched);
    var w := p.WrittenAll(pieces, req, sched);
    if w.1 == Finished {
      RespondedIs(w.0, last, trailer, req, w.2);
    }
  }

  // --------------------------------------------------------------------- the response

  class Response {
    const stream: Stream
    var sendHeader: bool                    // the header block is out
    var sendChunked: bool                   // write() was called
    var ended: bool                         // no retry is allowed
    var acceptCompression: bool
    var coding: Coding

    ghost function P(): Reply
      reads this, stream
    {
      Reply(stream.S(), sendHeader, sendChunked, ended, acceptCompression, coding)
    }

    constructor (stream: Stream, accept: bool)
      requires stream.S().Ok() && stream.wire == []
      ensures this.stream == stream && P() == Reply(stream.S(), false, false, false, accept, Coding(false, []))
      ensures P().StillOpen()
    {
      this.stream, acceptCompression, coding := stream, accept, Coding(false, []);
      sendHeader, sendChunked, ended := false, false, false;
    }

    /** The header block, with END_STREAM when there is no body to come. */
    method SendHeader(body: HeaderBody, endStream: bool, req: Request, sched: seq<Event>)
      returns (r: Outcome, rest: seq<Event>)
      modifies this, stream
      ensures (P(), r, rest) == old(P()).Header(body, endStream, req, sched)
      ensures old(P()).Ready() ==> HeaderLaw(old(P()), body, endStream, req, sched, (P(), r, rest))
    {
      if P().Ready() {
        HeaderIs(P(), body, endStream, req, sched);
      }
      var f := HeaderFrame(coding, acceptCompression, body, endStream, req);
      coding := coding.After(acceptCompression, body, req);
      if !req.headersBuilt {
        return Failed, sched;
      }
      r, rest := SendBlock(f, sched);
    }

    method SendBlock(f: Frame, sched: seq<Event>) returns (r: Outcome, rest: seq<Event>)
      requires f.Headers?
      modifies this, stream
      ensures (P(), r, rest) == old(P()).Block(f, sched)
    {
      sendHeader := true;
      ended := ended || f.endStream;
      r, rest := stream.SendPlain(f, sched);
      if r == Failed {
        sendHeader := false;
      }
    }

    /** `write()`: a piece of a response whose length is not announced. */
    method Write(data: seq<byte>, req: Request, sched: seq<Event>) returns (r: Outcome, rest: seq<Event>)
      requires P().Ready() && P().StillOpen()
      modifies this, stream
      ensures (P(), r, rest) == old(P()).Written(data, req, sched)
      ensures WriteLaw(old(P()), data, req, sched, (P(), r, rest))
    {
      WrittenIs(P(), data, req, sched);
      rest := sched;
      if ended {
        return Failed, rest;
      }
      acceptCompression := false;
      if data == [] {
        return Failed, rest;
      }
      sendChunked := true;
      r, rest := SendStreamed(data, req, rest);
    }

    /** The header block unless it is out, and the piece. */
    method SendStreamed(data: seq<byte>, req: Request, sched: seq<Event>) returns (r: Outcome, rest: seq<Event>)
      requires stream.maxFrame > 0
      modifies this, stream
      ensures (P(), r, rest) == old(P()).Streamed(data, req, sched)
    {
      r, rest := Finished, sched;
      if !sendHeader {
        r, rest := SendHeader(NoBody, false, req, sched);
        if r != Finished {
          return;
        }
      }
      ghost var n;
      r, rest, n := stream.SendBody(data, false, rest);
    }

    /** The trailer block, which ends the stream. */
    method SendTrailer(trailer: Trailer, sched: seq<Event>) returns (r: Outcome, rest: seq<Event>)
      requires trailer.Trailer?
      modifies stream
      ensures (P(), r, rest) == old(P()).Trailed(trailer, sched)
    {
      if !trailer.built {
        return Failed, sched;
      }
      r, rest := stream.SendPlain(Headers(true, None), sched);
    }

    /** The body, or the empty frame that ends a streamed response. */
    method SendContent(out: seq<byte>, endStream: bool, sched: seq<Event>) returns (r: Outcome, rest: seq<Event>)
      requires stream.maxFrame > 0
      modifies stream
      ensures (P(), r, rest) == old(P()).Content(out, endStream, sched)
    {
      if out == [] {
        r, rest := Finished, sched;
        if sendChunked && endStream {
          r, rest := stream.SendPlain(Data([], true), sched);
        }
      } else {
        ghost var n;
        r, rest, n := stream.SendBody(out, endStream, sched);
      }
    }

    /** What follows the header block. */
    method SendRest(out: seq<byte>, trailer: Trailer, sched: seq<Event>) returns (r: Outcome, rest: seq<Event>)
      requires stream.maxFrame > 0
      modifies stream
      ensures (P(), r, rest) == old(P()).Rest(out, trailer, sched)
    {
      r, rest := SendContent(out, trailer.NoTrailer?, sched);
      if r == Finished && trailer.Trailer? {
        r, rest := SendTrailer(trailer, rest);
      }
    }

    /** `http2_server_respond`. */
    method Respond(body: seq<byte>, trailer: Trailer, req: Request, sched: seq<Event>)
      returns (r: Outcome, rest: seq<Event>)
      requires stream.maxFrame > 0
      modifies this, stream
      ensures (P(), r, rest) == old(P()).Responded(body, trailer, req, sched)
    {
      r, rest := Finished, sched;
      if !sendHeader {
        r, rest := SendHeader(Body(body), trailer.NoTrailer?, req, sched);
        if r != Finished {
          return;
        }
      }
      ended := true;
      r, rest := SendRest(coding.Outgoing(body), trailer, rest);
    }

    /** `end()`: refused once the response has ended. */
    method End(body: seq<byte>, trailer: Trailer, req: Request, sched: seq<Event>)
      returns (r: Outcome, rest: seq<Event>)
      requires P().Ready() && P().StillOpen()
      modifies this, stream
      ensures (P(), r, rest) == old(P()).Ended(body, trailer, req, sched)
      ensures if old(ended) then r == Failed && P() == old(P())
              else ResponseLaw(old(P()), body, trailer, req, sched, (P(), r, rest))
    {
      if ended {
        return Failed, sched;
      }
      RespondedIs(P(), body, trailer, req, sched);
      r, rest := Respond(body, trailer, req, sched);
    }

    /** `sendfile()`: the file's octets in reads of any positive size the system returns; `n` of them are out. */
    method SendFile(file: seq<byte>, ready: bool, offset: nat, length: nat, trailer: Trailer, req: Request,
                    preads: seq<int>, sched: seq<Event>) returns (r: Outcome, rest: seq<Event>, ghost n: nat)
      requires P().Ready() && P().StillOpen() && offset + length <= |file|
      modifies this, stream
      ensures (P(), r, rest, n) == old(P()).FileSent(file, ready, offset, length, trailer, req, preads, sched)
      ensures FileSentLaw(old(P()), file, ready, offset, length, trailer, req, preads, sched, (P(), r, rest, n))
    {
      FileSentIs(P(), file, ready, offset, length, trailer, req, preads, sched);
      rest, n := sched, 0;
      if ended || sendChunked {
        return Failed, rest, n;
      }
      acceptCompression := false;
      if !ready {
        return Failed, rest, n;
      }
      r, rest, n := SendFileReply(file[offset..offset + length], trailer, req, preads, rest);
    }

    method SendFileReply(content: seq<byte>, trailer: Trailer, req: Request, preads: seq<int>, sched: seq<Event>)
      returns (r: Outcome, rest: seq<Event>, ghost n: nat)
      requires stream.maxFrame > 0
      modifies this, stream
      ensures (P(), r, rest, n) == old(P()).FileReply(content, trailer, req, preads, sched)
    {
      n := 0;
      r, rest := SendHeader(LengthOnly(|content|), trailer.NoTrailer?, req, sched);
      if r != Finished {
        return;
      }
      ended := true;
      r, rest, n := SendFileRest(content, trailer, preads, rest);
    }

    method SendFileRest(content: seq<byte>, trailer: Trailer, preads: seq<int>, sched: seq<Event>)
      returns (r: Outcome, rest: seq<Event>, ghost n: nat)
      requires stream.maxFrame > 0
      modifies stream
      ensures (P(), r, rest, n) == old(P()).FileRest(content, trailer, preads, sched)
    {
      r, rest, n := SendFileContent(content, trailer.NoTrailer?, preads, sched);
      if r == Finished && trailer.Trailer? {
        r, rest := SendTrailer(trailer, rest);
      }
    }

    /** The octets of one read go out. */
    method SendRead(content: seq<byte>, p: nat, i: nat, endStream: bool, preads: seq<int>, sched: seq<Event>)
      returns (r: Outcome, rest: seq<Event>, q: nat, ghost n: nat)
      requires stream.maxFrame > 0 && p < |content| && i < |preads| && preads[i] > 0
      modifies stream
      ensures p < q <= |content| && q - p == Min(preads[i], Min(|content| - p, SW_FILE_CHUNK_SIZE))
      ensures FileOut(old(stream.S()), content, p, i, endStream, preads, sched) ==
              if r == Finished then FileOut(stream.S(), content, q, i + 1, endStream, preads, rest)
              else (stream.S(), r, rest, n)
    {
      q := p + Min(preads[i], Min(|content| - p, SW_FILE_CHUNK_SIZE));
      ghost var m;
      r, rest, m := stream.SendBody(content[p..q], endStream && q == |content|, sched);
      n := p + m;
      FileStep(old(stream.S()), content, p, i, endStream, preads, sched, q, (stream.S(), r, rest, m));
    }

    /** The reading loop of `sendfile()`. */
    method SendFileContent(content: seq<byte>, endStream: bool, preads: seq<int>, sched: seq<Event>)
      returns (r: Outcome, rest: seq<Event>, ghost n: nat)
      requires stream.maxFrame > 0
      modifies stream
      ensures (stream.S(), r, rest, n) == FileOut(old(stream.S()), content, 0, 0, endStream, preads, sched)
    {
      var p, i := 0, 0;
      rest := sched;
      while p < |content|
        invariant 0 <= p <= |content| && 0 <= i
        invariant FileOut(stream.S(), content, p, i, endStream, preads, rest) ==
                  FileOut(old(stream.S()), content, 0, 0, endStream, preads, sched)
      {
        if i >= |preads| || preads[i] <= 0 {
          return Failed, rest, p;
        }
        r, rest, p, n := SendRead(content, p, i, endStream, preads, rest);
        if r != Finished {
          return;
        }
        i := i + 1;
      }
      return Finished, rest, p;
    }

    /** `write()` for every piece in turn. */
    method WriteAll(pieces: seq<seq<byte>>, req: Request, sched: seq<Event>) returns (r: Outcome, rest: seq<Event>)
      requires P().Ready() && P().StillOpen() && !ended
      modifies this, stream
      ensures (P(), r, rest) == old(P()).WrittenAll(pieces, req, sched)
      decreases |pieces|
    {
      WrittenAllIs(P(), pieces, req, sched);
      r, rest := Finished, sched;
      if pieces != [] {
        var n := |pieces| - 1;
        WrittenAllIs(P(), pieces[..n], req, sched);
        r, rest := WriteAll(pieces[..n], req, sched);
        if r != Finished {
          return;
        }
        r, rest := Write(pieces[n], req, rest);
        if pieces[n] == [] {
          r := Finished;
        }
      }
    }

    /** An application that streams `pieces` and ends with `last`. */
    method WriteAndEnd(pieces: seq<seq<byte>>, last: seq<byte>, trailer: Trailer, req: Request, sched: seq<Event>)
      returns (r: Outcome, rest: seq<Event>)
      requires P().Ready() && P().StillOpen() && !ended
      modifies this, stream
      ensures (P(), r, rest) == old(P()).WrittenAndEnded(pieces, last, trailer, req, sched)
      ensures StreamLaw(old(P()), pieces, last, sched, (P(), r, rest))
    {
      WrittenAndEndedIs(P(), pieces, last, trailer, req, sched);
      WrittenAllIs(P(), pieces, req, sched);
      r, rest := WriteAll(pieces, req, sched);
      if r == Finished {
        r, rest := End(last, trailer, req, rest);
      }
    }
  }

  /**
   * `end("")` goes wrong when the encoder makes something of nothing: the header block ends the
   * stream, and the encoded octets follow as DATA.
   */
  method EmptyEndContinues(encoded: seq<byte>, window: uint32, maxFrame: uint32, sched: seq<Event>)
    returns (response: Response)
    requires 0 < |encoded| <= window && maxFrame > 0 && Completes(sched, 2 * |encoded| + 3)
    ensures DataBytes(response.stream.wire) == encoded && !WellShaped(response.stream.wire)
  {
    var stream := new Stream(1, window, window, maxFrame, 4096);
    response := new Response(stream, true);
    var req := Request(false, false, true, 0, Some(encoded));
    var r, _ := response.End([], NoTrailer, req, sched);
  }
}
