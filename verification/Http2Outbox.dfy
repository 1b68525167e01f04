/**
 * How the coroutines of an HTTP/2 client share one socket for writing
 * (ext-src/swoole_http2_client_coro.cc, `Client::send`).  One coroutine at a time is bound to
 * the socket; while it waits for the socket to become writable, the others leave their
 * buffers in a queue, which the bound coroutine empties before it returns.
 */
module Http2Outbox {
  import opened Prelude

  /** What one attempt to write does: some octets go out, or the socket fails. */
  datatype Progress = Wrote(n: nat) | Broke

  /** The bound coroutine: none, or one sending its own buffer, or the front of the queue. */
  datatype Writer = Idle | Own(rest: seq<byte>) | Front(rest: seq<byte>)

  datatype Outcome = Sent | Waiting | Queued | QueueFull | Failed

  datatype Op = SendOp(buf: seq<byte>, script: seq<Progress>) | WritableOp(script: seq<Progress>)

  // ------------------------------------------------------- what a call amounts to

  datatype Box = Box(queue: seq<seq<byte>>, writer: Writer, wire: seq<byte>) {
    predicate Ok() {
      writer.Front? ==> queue != []
    }

    /** What was accepted and is not on the wire, in the order it will go out. */
    function Pending(): seq<byte> {
      match writer
      case Idle => Concat(queue)
      case Own(rest) => rest + Concat(queue)
      case Front(rest) => rest + if queue == [] then [] else Concat(queue[1..])
    }

    /** A buffer is out: the front of the queue is only now removed, and the next takes over. */
    function Next(): (b: Box)
      requires Ok() && !writer.Idle? && writer.rest == []
      ensures b.Ok()
    {
      var q := if writer.Front? then queue[1..] else queue;
      Box(q, if q == [] then Idle else Front(q[0]), wire)
    }

    /** Buffers with nothing left to send are passed over. */
    function Settled(): (b: Box)
      requires Ok()
      ensures b.Ok() && (!b.writer.Idle? ==> b.writer.rest != [])
      decreases |queue| + (if writer.Own? then 2 else if writer.Front? then 1 else 0)
    {
      if writer.Idle? || writer.rest != [] then this else Next().Settled()
    }

    /** `k` octets go out. */
    function Put(k: nat): Box
      requires !writer.Idle? && k <= |writer.rest|
    {
      Box(queue, writer.(rest := writer.rest[k..]), wire + writer.rest[..k])
    }

    /** The bound coroutine writes until it is done, must wait, or the socket fails. */
    function Driven(script: seq<Progress>): (Box, Outcome)
      requires Ok() && (!writer.Idle? ==> writer.rest != [])
      decreases |script|
    {
      if writer.Idle? then (this, Sent)
      else if script == [] then (this, Waiting)
      else if script[0].Broke? then (this.(writer := Idle), Failed)
      else Put(Least(script[0].n, |writer.rest|)).Settled().Driven(script[1..])
    }

    function Sending(maxStreams: uint32, buf: seq<byte>, script: seq<Progress>): (Box, Outcome)
      requires Ok()
    {
      if writer.Idle? then this.(writer := Own(buf)).Settled().Driven(script)
      else if |queue| > maxStreams then (this, QueueFull)
      else (this.(queue := queue + [buf]), Queued)
    }

    function Step(maxStreams: uint32, op: Op): (Box, Outcome)
      requires Ok()
    {
      match op
      case SendOp(buf, script) => Sending(maxStreams, buf, script)
      case WritableOp(script) => if writer.Idle? then (this, Sent) else Settled().Driven(script)
    }
  }

  function Least(a: nat, b: nat): nat {
    if a <= b then a else b
  }

  lemma {:induction false} DrivenOk(b: Box, script: seq<Progress>)
    requires b.Ok() && (!b.writer.Idle? ==> b.writer.rest != [])
    ensures b.Driven(script).0.Ok()
    decreases |script|
  {
    if !b.writer.Idle? && script != [] && script[0].Wrote? {
      DrivenOk(b.Put(Least(script[0].n, |b.writer.rest|)).Settled(), script[1..]);
    }
  }

  lemma StepOk(b: Box, maxStreams: uint32, op: Op)
    requires b.Ok()
    ensures b.Step(maxStreams, op).0.Ok()
  {
    match op {
      case SendOp(buf, script) =>
        if b.writer.Idle? {
          DrivenOk(b.(writer := Own(buf)).Settled(), script);
        }
      case WritableOp(script) => DrivenOk(b.Settled(), script);
    }
  }

  /** A run of operations. */
  ghost function Run(b: Box, maxStreams: uint32, ops: seq<Op>): Box
    requires b.Ok()
    decreases |ops|
  {
    if ops == [] then b
    else
      StepOk(b, maxStreams, ops[0]);
      Run(b.Step(maxStreams, ops[0]).0, maxStreams, ops[1..])
  }

  /** The buffers `send` takes in a run, in order. */
  ghost function Taken(b: Box, maxStreams: uint32, ops: seq<Op>): seq<seq<byte>>
    requires b.Ok()
    decreases |ops|
  {
    if ops == [] then []
    else
      StepOk(b, maxStreams, ops[0]);
      var after := b.Step(maxStreams, ops[0]);
      (if ops[0].SendOp? && after.1 != QueueFull then [ops[0].buf] else [])
      + Taken(after.0, maxStreams, ops[1..])
  }

  /** No write fails in a run. */
  ghost predicate FailureFree(b: Box, maxStreams: uint32, ops: seq<Op>)
    requires b.Ok()
    decreases |ops|
  {
    if ops == [] then true
    else
      StepOk(b, maxStreams, ops[0]);
      var after := b.Step(maxStreams, ops[0]);
      after.1 != Failed && FailureFree(after.0, maxStreams, ops[1..])
  }

  // ------------------------------------------------------------------ the laws

  lemma NextKeeps(b: Box)
    requires b.Ok() && !b.writer.Idle? && b.writer.rest == []
    ensures b.Next().wire + b.Next().Pending() == b.wire + b.Pending()
    ensures b.Next().writer.Idle? ==> b.Next().queue == []
  {
    var more := if b.writer.Own? then b.queue else b.queue[1..];
    assert [] + Concat(more) == Concat(more);
  }

  lemma {:induction false} SettledKeeps(b: Box)
    requires b.Ok()
    ensures b.Settled().wire == b.wire && b.wire + b.Settled().Pending() == b.wire + b.Pending()
    ensures b.Settled().writer.Idle? ==> b.Settled().queue == [] || b.writer.Idle?
    ensures |b.Settled().queue| <= |b.queue|
    decreases |b.queue| + (if b.writer.Own? then 2 else if b.writer.Front? then 1 else 0)
  {
    if !b.writer.Idle? && b.writer.rest == [] {
      NextKeeps(b);
      SettledKeeps(b.Next());
    }
  }

  lemma PutKeeps(b: Box, k: nat)
    requires b.Ok() && !b.writer.Idle? && k <= |b.writer.rest|
    ensures b.Put(k).wire + b.Put(k).Pending() == b.wire + b.Pending()
  {
    var rest, more := b.writer.rest, if b.writer.Own? then Concat(b.queue) else Concat(b.queue[1..]);
    assert rest == rest[..k] + rest[k..];
    Assoc(b.wire, rest[..k], rest[k..] + more);
    Assoc(rest[..k], rest[k..], more);
  }

  /** The attempts of a script that find room for at least one octet, and all the room they find. */
  function Attempts(script: seq<Progress>): nat {
    if script == [] then 0
    else (if script[0].Wrote? && script[0].n > 0 then 1 else 0) + Attempts(script[1..])
  }

  function Room(script: seq<Progress>): nat {
    if script == [] then 0 else (if script[0].Wrote? then script[0].n else 0) + Room(script[1..])
  }

  /** Driving loses, duplicates and reorders nothing; a failure leaves a proper prefix on the wire. */
  lemma {:induction false} DrivenKeeps(b: Box, script: seq<Progress>)
    requires b.Ok() && (!b.writer.Idle? ==> b.writer.rest != [])
    ensures var after := b.Driven(script);
            && (after.1 == Sent || after.1 == Waiting || after.1 == Failed)
            && (after.1 != Failed ==> after.0.wire + after.0.Pending() == b.wire + b.Pending())
            && (after.1 == Failed ==> after.0.wire < b.wire + b.Pending())
            && (after.1 == Waiting <==> !after.0.writer.Idle?)
            && (after.1 == Waiting ==> after.0.writer.rest != [])
            && (after.1 == Sent ==> after.0.queue == [] || b.writer.Idle?)
    decreases |script|
  {
    if !b.writer.Idle? && script != [] {
      if script[0].Broke? {
        assert b.Pending() != [];
      } else {
        var c := b.Put(Least(script[0].n, |b.writer.rest|));
        PutKeeps(b, Least(script[0].n, |b.writer.rest|));
        SettledKeeps(c);
        DrivenKeeps(c.Settled(), script[1..]);
      }
    }
  }

  /** Every attempt that finds room makes progress, and none more than it finds. */
  lemma {:induction false} DrivenProgress(b: Box, script: seq<Progress>)
    requires b.Ok() && (!b.writer.Idle? ==> b.writer.rest != [])
    ensures var after := b.Driven(script);
            && b.wire <= after.0.wire && |after.0.wire| <= |b.wire| + Room(script)
            && |after.0.queue| <= |b.queue|
            && (after.1 == Waiting ==> Broke !in script && |after.0.wire| >= |b.wire| + Attempts(script))
            && (after.1 == Failed ==> Broke in script)
    decreases |script|
  {
    if !b.writer.Idle? && script != [] && script[0].Wrote? {
      var c := b.Put(Least(script[0].n, |b.writer.rest|));
      SettledKeeps(c);
      DrivenProgress(c.Settled(), script[1..]);
      assert script == [script[0]] + script[1..];
    }
  }

  /** Everything accepted goes out once, whole and in its turn; nobody idles over a queue. */
  ghost predicate Orderly(b: Box, accepted: seq<seq<byte>>) {
    && b.Ok() && (b.writer.Idle? ==> b.queue == [])
    && b.wire + b.Pending() == Concat(accepted)
  }

  lemma EnqueueOrderly(b: Box, accepted: seq<seq<byte>>, buf: seq<byte>)
    requires Orderly(b, accepted) && !b.writer.Idle?
    ensures Orderly(b.(queue := b.queue + [buf]), accepted + [buf])
  {
    var last := if b.writer.Own? then b.queue else b.queue[1..];
    ConcatAppend(last, buf);
    ConcatAppend(accepted, buf);
    assert b.writer.Front? ==> (b.queue + [buf])[1..] == last + [buf];
    Assoc(b.writer.rest, Concat(last), buf);
    Assoc(b.wire, b.writer.rest + Concat(last), buf);
  }

  /** One operation that does not fail keeps the order of everything accepted. */
  lemma StepOrderly(b: Box, maxStreams: uint32, op: Op, accepted: seq<seq<byte>>)
    requires Orderly(b, accepted) && b.Step(maxStreams, op).1 != Failed
    ensures var after := b.Step(maxStreams, op);
            Orderly(after.0, if op.SendOp? && after.1 != QueueFull then accepted + [op.buf] else accepted)
  {
    StepOk(b, maxStreams, op);
    match op {
      case SendOp(buf, script) =>
        if b.writer.Idle? {
          var own := b.(writer := Own(buf));
          ConcatAppend(accepted, buf);
          assert buf + Concat([]) == buf && b.wire + [] == b.wire;
          SettledKeeps(own);
          DrivenKeeps(own.Settled(), script);
        } else if |b.queue| <= maxStreams {
          EnqueueOrderly(b, accepted, buf);
        }
      case WritableOp(script) =>
        if !b.writer.Idle? {
          SettledKeeps(b);
          DrivenKeeps(b.Settled(), script);
        }
    }
  }

  /**
   * Linearization: in every failure-free run the wire and what is pending are the concatenation
   * of the buffers `send` accepted, in that order.
   */
  lemma {:induction false} RunOrderly(b: Box, maxStreams: uint32, ops: seq<Op>, accepted: seq<seq<byte>>)
    requires Orderly(b, accepted) && FailureFree(b, maxStreams, ops)
    ensures Orderly(Run(b, maxStreams, ops), accepted + Taken(b, maxStreams, ops))
    decreases |ops|
  {
    if ops == [] {
      assert accepted + [] == accepted;
    } else {
      StepOrderly(b, maxStreams, ops[0], accepted);
      var after := b.Step(maxStreams, ops[0]);
      var one := if ops[0].SendOp? && after.1 != QueueFull then [ops[0].buf] else [];
      assert accepted + [] == accepted;
      RunOrderly(after.0, maxStreams, ops[1..], accepted + one);
      Assoc(accepted, one, Taken(after.0, maxStreams, ops[1..]));
    }
  }

  // ------------------------------------------------ buffers, not frames; failures

  /** A socket that takes one octet at a time, `n` times. */
  function Ones(n: nat): seq<Progress> {
    if n == 0 then [] else [Wrote(1)] + Ones(n - 1)
  }

  lemma {:induction false} OnesCount(n: nat)
    ensures Attempts(Ones(n)) == n && Broke !in Ones(n)
  {
    if n > 0 {
      OnesCount(n - 1);
      assert Ones(n)[1..] == Ones(n - 1);
    }
  }

  /** With room for everything pending, everything pending goes out. */
  lemma DriveEnough(b: Box, n: nat)
    requires b.Ok() && !b.writer.Idle? && b.writer.rest != [] && n >= |b.Pending()|
    ensures b.Driven(Ones(n)) == (Box([], Idle, b.wire + b.Pending()), Sent)
  {
    OnesCount(n);
    DrivenKeeps(b, Ones(n));
    DrivenProgress(b, Ones(n));
    var after := b.Driven(Ones(n));
    assert after.1 != Failed;
    assert after.0.wire + [] == after.0.wire;
  }

  lemma SendEnough(b: Box, maxStreams: uint32, buf: seq<byte>)
    requires b.writer == Idle && b.queue == [] && buf != []
    ensures b.Sending(maxStreams, buf, Ones(|buf|)) == (Box([], Idle, b.wire + buf), Sent)
  {
    assert buf + Concat([]) == buf;
    DriveEnough(b.(writer := Own(buf)), |buf|);
  }

  /**
   * `send_data` sends the header and the payload of a DATA frame as two buffers.  When the
   * header has to wait, what another coroutine sends meanwhile goes between the two.
   */
  lemma SplitDataFrame(b: Box, maxStreams: uint32, header: seq<byte>, other: seq<byte>, payload: seq<byte>)
    requires b.writer == Idle && b.queue == [] && header != [] && payload != []
    ensures Run(b, maxStreams, [SendOp(header, []), SendOp(other, []), WritableOp(Ones(|header| + |other|)),
                                SendOp(payload, Ones(|payload|))])
            == Box([], Idle, b.wire + header + other + payload)
  {
    var last := SendOp(payload, Ones(|payload|));
    var third := WritableOp(Ones(|header| + |other|));
    var ops := [SendOp(header, []), SendOp(other, []), third, last];
    var waiting := Box([], Own(header), b.wire);
    var queued := Box([other], Own(header), b.wire);
    assert b.Step(maxStreams, ops[0]) == (waiting, Waiting);
    assert [] + [other] == [other];
    assert waiting.Step(maxStreams, ops[1]) == (queued, Queued);
    assert Concat([other]) == other && queued.Pending() == header + other;
    DriveEnough(queued, |header| + |other|);
    Assoc(b.wire, header, other);
    var drained := Box([], Idle, b.wire + header + other);
    assert queued.Step(maxStreams, third) == (drained, Sent);
    SendEnough(drained, maxStreams, payload);
    assert ops[1..] == [ops[1], third, last] && ops[1..][1..] == [third, last] && [third, last][1..] == [last];
    assert Run(drained, maxStreams, [last]) == Box([], Idle, drained.wire + payload);
    assert Run(queued, maxStreams, [third, last]) == Run(drained, maxStreams, [last]);
  }

  /** Where the `i`-th accepted buffer begins on the wire. */
  function Start(accepted: seq<seq<byte>>, i: nat): nat
    requires i <= |accepted|
  {
    |Concat(accepted[..i])|
  }

  lemma StartNext(accepted: seq<seq<byte>>, i: nat)
    requires i < |accepted|
    ensures Start(accepted, i + 1) == Start(accepted, i) + |accepted[i]|
  {
    assert accepted[..i + 1] == accepted[..i] + [accepted[i]];
    ConcatAppend(accepted[..i], accepted[i]);
  }

  /**
   * Two accepted buffers, such as the header and the payload of one frame, are contiguous on the
   * wire if and only if nothing was accepted between them.
   */
  lemma {:induction false} ContiguousIff(accepted: seq<seq<byte>>, i: nat, j: nat)
    requires i < j < |accepted|
    ensures Start(accepted, j) >= Start(accepted, i) + |accepted[i]|
    ensures Start(accepted, j) == Start(accepted, i) + |accepted[i]| <==> forall k :: i < k < j ==> accepted[k] == []
    decreases j
  {
    StartNext(accepted, i);
    if i + 1 < j {
      ContiguousIff(accepted, i, j - 1);
      StartNext(accepted, j - 1);
      assert accepted[j - 1] == [] || |accepted[j - 1]| > 0;
    }
  }

  /** And the wire of an orderly box that is idle holds each buffer where it begins. */
  lemma {:induction false} BufferOnWire(accepted: seq<seq<byte>>, i: nat)
    requires i < |accepted|
    ensures Start(accepted, i) + |accepted[i]| <= |Concat(accepted)|
    ensures Concat(accepted)[Start(accepted, i)..Start(accepted, i) + |accepted[i]|] == accepted[i]
    decreases |accepted|
  {
    var n := |accepted| - 1;
    var most := accepted[..n];
    assert accepted == most + [accepted[n]];
    ConcatAppend(most, accepted[n]);
    if i < n {
      BufferOnWire(most, i);
      assert most[..i] == accepted[..i];
    } else {
      assert accepted[..i] == most;
    }
  }

  lemma DriveSettled(b: Box, n: nat)
    requires b.Ok() && !b.writer.Idle? && n >= |b.Pending()|
    ensures b.Settled().Driven(Ones(n)) == (Box([], Idle, b.wire + b.Pending()), Sent)
  {
    SettledKeeps(b);
    assert b.Settled().Pending() == b.Pending() by {
      assert (b.wire + b.Settled().Pending())[|b.wire|..] == (b.wire + b.Pending())[|b.wire|..];
    }
    if b.Settled().writer.Idle? {
      assert b.Pending() == [] && b.wire + [] == b.wire;
    } else {
      DriveEnough(b.Settled(), n);
    }
  }

  /** The step leaves nobody writing and less on the wire than was accepted. */
  lemma FailedStep(b: Box, maxStreams: uint32, accepted: seq<seq<byte>>, op: Op)
    requires Orderly(b, accepted) && b.Step(maxStreams, op).1 == Failed
    ensures var failed := b.Step(maxStreams, op).0;
            failed.writer == Idle && failed.wire < Concat(accepted + if op.SendOp? then [op.buf] else [])
  {
    var begun := if op.SendOp? then b.(writer := Own(op.buf)) else b;
    SettledKeeps(begun);
    DrivenKeeps(begun.Settled(), op.script);
    if op.SendOp? {
      ConcatAppend(accepted, op.buf);
      assert op.buf + Concat([]) == op.buf && b.wire + [] == b.wire;
    } else {
      assert accepted + [] == accepted;
    }
  }

  /** A box nobody writes in, that has `failed.wire` out of what was taken, gets one more buffer and room for all. */
  ghost predicate Displaces(failed: Box, maxStreams: uint32, taken: seq<seq<byte>>, next: seq<byte>) {
    && failed.writer == Idle && failed.wire < Concat(taken)
    && var queued := next + Concat(failed.queue);
       && failed.Sending(maxStreams, next, Ones(|queued|)) == (Box([], Idle, failed.wire + queued), Sent)
       && (failed.wire + queued <= Concat(taken + [next]) <==> queued <= Concat(taken)[|failed.wire|..] + next)
  }

  lemma IdleDisplaces(failed: Box, maxStreams: uint32, taken: seq<seq<byte>>, next: seq<byte>)
    requires failed.writer == Idle && failed.wire < Concat(taken)
    ensures Displaces(failed, maxStreams, taken, next)
  {
    SendBehind(failed, maxStreams, next);
    ConcatAppend(taken, next);
    PrefixIff(Concat(taken), failed.wire, next, next + Concat(failed.queue));
  }

  /**
   * A failed write ends the guarantee.  What is still queued stays, a buffer that was partly
   * written from its start, and goes out behind the next buffer; what is then on the wire is a
   * prefix of what was accepted if and only if the two happen to continue the octets not out.
   */
  lemma FailureDisplacesIff(b: Box, maxStreams: uint32, accepted: seq<seq<byte>>, op: Op, next: seq<byte>)
    requires Orderly(b, accepted) && b.Step(maxStreams, op).1 == Failed
    ensures Displaces(b.Step(maxStreams, op).0, maxStreams, accepted + if op.SendOp? then [op.buf] else [], next)
  {
    FailedStep(b, maxStreams, accepted, op);
    IdleDisplaces(b.Step(maxStreams, op).0, maxStreams, accepted + if op.SendOp? then [op.buf] else [], next);
  }

  lemma PrefixIff(all: seq<byte>, wire: seq<byte>, next: seq<byte>, queued: seq<byte>)
    requires wire <= all
    ensures wire + queued <= all + next <==> queued <= all[|wire|..] + next
  {
    var lost := all[|wire|..];
    assert all + next == wire + (lost + next);
    if wire + queued <= wire + (lost + next) {
      assert (wire + queued)[|wire|..] == queued;
      assert (wire + (lost + next))[|wire|..|wire| + |queued|] == (lost + next)[..|queued|];
    }
  }

  lemma SendBehind(failed: Box, maxStreams: uint32, next: seq<byte>)
    requires failed.writer == Idle
    ensures var queued := next + Concat(failed.queue);
            failed.Sending(maxStreams, next, Ones(|queued|)) == (Box([], Idle, failed.wire + queued), Sent)
  {
    DriveSettled(failed.(writer := Own(next)), |next + Concat(failed.queue)|);
  }

  /** So a buffer that begins otherwise stands where the lost octets belong. */
  lemma FailureDisplaces(b: Box, maxStreams: uint32, accepted: seq<seq<byte>>, buf: seq<byte>, next: seq<byte>)
    requires Orderly(b, accepted) && b.writer == Idle && buf != [] && next != [] && buf[0] != next[0]
    ensures var after := Run(b, maxStreams, [SendOp(buf, [Broke]), SendOp(next, Ones(|next|))]);
            after.wire == b.wire + next && !(after.wire <= Concat(accepted + [buf] + [next]))
  {
    var ops := [SendOp(buf, [Broke]), SendOp(next, Ones(|next|))];
    var broke := Box([], Idle, b.wire);
    assert b.Step(maxStreams, ops[0]) == (broke, Failed);
    FailureDisplacesIff(b, maxStreams, accepted, ops[0], next);
    assert next + Concat([]) == next && ops[1..] == [ops[1]];
    ConcatAppend(accepted, buf);
    assert b.wire + [] == b.wire && Concat(accepted + [buf])[|b.wire|..] == buf;
    assert !(next <= buf + next) by {
      assert (buf + next)[0] == buf[0];
    }
    assert broke.Step(maxStreams, ops[1]) == (Box([], Idle, b.wire + next), Sent);
    assert Run(broke, maxStreams, [ops[1]]) == Box([], Idle, b.wire + next);
    assert Run(b, maxStreams, ops) == Run(broke, maxStreams, [ops[1]]);
  }

  /** And octets can go out twice: the front of the queue failed after its first octet. */
  lemma FailureRepeats(x: byte, y: byte, z: byte, u: byte, maxStreams: uint32)
    ensures Run(Box([], Idle, []), maxStreams,
                [SendOp([x], []), SendOp([y, z], []), WritableOp([Wrote(1), Wrote(1), Broke]), SendOp([u], Ones(3))])
            == Box([], Idle, [x, y, u, y, z])
  {
    var script := [Wrote(1), Wrote(1), Broke];
    var ops := [SendOp([x], []), SendOp([y, z], []), WritableOp(script), SendOp([u], Ones(3))];
    var one := Box([], Own([x]), []);
    var two := Box([[y, z]], Own([x]), []);
    var three := Box([[y, z]], Idle, [x, y]);
    FailureWhileQueued(x, y, z, script);
    var last := three.(writer := Own([u]));
    assert Concat([[y, z]]) == [y, z] && [u] + [y, z] == [u, y, z] && last.Pending() == [u, y, z];
    DriveSettled(last, 3);
    assert [x, y] + [u, y, z] == [x, y, u, y, z];
    assert ops[1..][1..][1..] == [ops[3]] && [ops[3]][1..] == [];
    assert Run(three, maxStreams, [ops[3]]) == Box([], Idle, [x, y, u, y, z]);
    assert ops[1..][1..] == [ops[2], ops[3]] && [ops[2], ops[3]][1..] == [ops[3]];
    assert Run(two, maxStreams, [ops[2], ops[3]]) == Run(three, maxStreams, [ops[3]]);
    assert two.queue == one.queue + [[y, z]];
    assert Run(one, maxStreams, ops[1..]) == Run(two, maxStreams, ops[1..][1..]);
  }

  lemma FailureWhileQueued(x: byte, y: byte, z: byte, script: seq<Progress>)
    requires script == [Wrote(1), Wrote(1), Broke]
    ensures Box([[y, z]], Own([x]), []).Settled().Driven(script) == (Box([[y, z]], Idle, [x, y]), Failed)
  {
    var two := Box([[y, z]], Own([x]), []);
    var front := Box([[y, z]], Front([y, z]), [x]);
    assert [x][1..] == [] && [x][..1] == [x] && [] + [x] == [x];
    assert two.Put(1).Settled() == front;
    assert [y, z][1..] == [z] && [y, z][..1] == [y] && [x] + [y] == [x, y];
    assert front.Put(1).Settled() == Box([[y, z]], Front([z]), [x, y]);
    assert script[1..] == [Wrote(1), Broke] && script[1..][1..] == [Broke];
    assert front.Driven([Wrote(1), Broke]) == Box([[y, z]], Front([z]), [x, y]).Driven([Broke]);
  }

  /** What `send` promises its caller, as long as no write failed. */
  lemma SendingLaw(b: Box, maxStreams: uint32, buf: seq<byte>, script: seq<Progress>, accepted: seq<seq<byte>>,
                   broken: bool)
    requires b.Ok() && (!broken ==> Orderly(b, accepted))
    ensures var after := b.Sending(maxStreams, buf, script);
            && after.0.Ok()
            && (b.writer.Idle? ==> after.1 == Sent || after.1 == Waiting || after.1 == Failed)
            && (!broken && after.1 != Failed ==>
                Orderly(after.0, if after.1 == QueueFull then accepted else accepted + [buf]))
            && (!broken && after.1 == Sent ==> after.0.wire == Concat(accepted + [buf]) && after.0.queue == [])
  {
    StepOk(b, maxStreams, SendOp(buf, script));
    var after := b.Sending(maxStreams, buf, script);
    assert after == b.Step(maxStreams, SendOp(buf, script));
    if !broken && after.1 != Failed {
      StepOrderly(b, maxStreams, SendOp(buf, script), accepted);
    }
    if b.writer.Idle? {
      DrivenKeeps(b.(writer := Own(buf)).Settled(), script);
      assert after.0.wire + [] == after.0.wire;
    }
  }

  // -------------------------------------------------------------- the outbox

  class Outbox {
    const maxStreams: uint32                 // remote_settings.max_concurrent_streams
    var queue: seq<seq<byte>>                // send_queue
    var writer: Writer
    var wire: seq<byte>
    ghost var accepted: seq<seq<byte>>       // the buffers `send` took, in order
    ghost var broken: bool                   // a write failed

    ghost function B(): Box
      reads this
    {
      Box(queue, writer, wire)
    }

    ghost predicate Valid()
      reads this
    {
      B().Ok() && (!broken ==> Orderly(B(), accepted))
    }

    constructor (maxStreams: uint32)
      ensures Valid() && !broken && B() == Box([], Idle, []) && accepted == [] && this.maxStreams == maxStreams
    {
      this.maxStreams, queue, writer, wire, accepted, broken := maxStreams, [], Idle, [], [], false;
    }

    method Settle()
      requires B().Ok()
      modifies this`queue, this`writer
      ensures B() == old(B()).Settled() && wire + B().Pending() == old(wire + B().Pending())
    {
      SettledKeeps(B());
      while !writer.Idle? && writer.rest == []
        invariant B().Ok() && wire == old(wire) && B().Settled() == old(B()).Settled()
        decreases |queue| + (if writer.Own? then 2 else if writer.Front? then 1 else 0)
      {
        if writer.Front? {
          queue := queue[1..];
        }
        writer := if queue == [] then Idle else Front(queue[0]);
      }
    }

    /** The loop of `send_all` over the own buffer and then over the queue. */
    method Drive(script: seq<Progress>) returns (r: Outcome)
      requires B().Ok()
      modifies this`queue, this`writer, this`wire
      ensures (B(), r) == old(B()).Settled().Driven(script) && B().Ok()
      ensures r != Failed ==> wire + B().Pending() == old(wire + B().Pending())
      ensures r == Failed ==> wire < old(wire + B().Pending())
    {
      SettledKeeps(B());
      DrivenKeeps(B().Settled(), script);
      DrivenOk(B().Settled(), script);
      Settle();
      var rest := script;
      while rest != [] && !writer.Idle?
        invariant B().Ok() && (!writer.Idle? ==> writer.rest != [])
        invariant B().Driven(rest) == old(B()).Settled().Driven(script)
        decreases |rest|
      {
        if rest[0].Broke? {
          writer := Idle;
          return Failed;
        }
        var k := Least(rest[0].n, |writer.rest|);
        wire := wire + writer.rest[..k];
        writer := writer.(rest := writer.rest[k..]);
        Settle();
        rest := rest[1..];
      }
      r := if writer.Idle? then Sent else Waiting;
    }

    /** `send`: queue behind the bound coroutine, or write, and then whatever was queued meanwhile. */
    method Send(buf: seq<byte>, script: seq<Progress>) returns (r: Outcome)
      requires Valid()
      modifies this
      ensures Valid() && (B(), r) == old(B()).Sending(maxStreams, buf, script)
      ensures accepted == if r == QueueFull then old(accepted) else old(accepted) + [buf]
      ensures broken == (old(broken) || r == Failed)
      ensures r == Sent && !broken ==> wire == Concat(accepted) && queue == []
      ensures r == QueueFull <==> !old(writer).Idle? && |old(queue)| > maxStreams
      ensures r == Queued <==> !old(writer).Idle? && |old(queue)| <= maxStreams
      ensures r == QueueFull ==> B() == old(B())
      ensures r == Queued ==> queue == old(queue) + [buf] && writer == old(writer) && wire == old(wire)
    {
      SendingLaw(B(), maxStreams, buf, script, accepted, broken);
      if !writer.Idle? {
        if |queue| > maxStreams {
          return QueueFull;
        }
        queue := queue + [buf];
        accepted := accepted + [buf];
        return Queued;
      }
      accepted := accepted + [buf];
      writer := Own(buf);
      assert B() == old(B()).(writer := Own(buf));
      r := Drive(script);
      broken := broken || r == Failed;
    }

    /** The socket becomes writable for the bound coroutine. */
    method Writable(script: seq<Progress>) returns (r: Outcome)
      requires Valid()
      modifies this
      ensures Valid() && (B(), r) == old(B()).Step(maxStreams, WritableOp(script))
      ensures accepted == old(accepted) && broken == (old(broken) || r == Failed)
    {
      if !broken && old(B()).Step(maxStreams, WritableOp(script)).1 != Failed {
        StepOrderly(B(), maxStreams, WritableOp(script), accepted);
      }
      r := Sent;
      if !writer.Idle? {
        r := Drive(script);
        broken := broken || r == Failed;
      }
    }

    /** Any interleaving of sends and of the socket becoming writable. */
    method RunOps(ops: seq<Op>)
      requires Valid()
      modifies this
      ensures Valid() && B() == Run(old(B()), maxStreams, ops)
      ensures accepted == old(accepted) + Taken(old(B()), maxStreams, ops)
      ensures broken == (old(broken) || !FailureFree(old(B()), maxStreams, ops))
      decreases |ops|
    {
      if ops == [] {
        assert accepted + [] == accepted;
      } else {
        var r;
        match ops[0] {
          case SendOp(buf, script) => r := Send(buf, script);
          case WritableOp(script) => r := Writable(script);
        }
        ghost var one := if ops[0].SendOp? && r != QueueFull then [ops[0].buf] else [];
        assert old(accepted) + [] == old(accepted);
        Assoc(old(accepted), one, Taken(B(), maxStreams, ops[1..]));
        RunOps(ops[1..]);
      }
    }
  }
}
