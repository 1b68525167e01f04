/**
 * Packets ended by a marker, as the synchronous client cuts them from a TCP stream
 * (`recv` with `open_eof_check` in ext-src/swoole_client.cc).
 */
module EofClient {
  import opened Prelude
  import opened Search

  const SW_BUFFER_SIZE_BIG := 65536
  const SW_DATA_EOF_MAXLEN := 8

  // ------------------------------------------------------ markers in a stream

  /** `p` is the first packet of the stream `s`: all of it up to and with the leftmost marker. */
  ghost predicate FirstPacket(s: seq<byte>, p: seq<byte>, eof: seq<byte>) {
    && |p| >= |eof| && p <= s
    && MatchAt(s, |p| - |eof|, eof)
    && forall i :: i < |p| - |eof| ==> !MatchAt(s, i, eof)
  }

  /** `packets` are the first packets of `s`, one after the other, and `tail` is the rest. */
  ghost predicate Splits(s: seq<byte>, packets: seq<seq<byte>>, tail: seq<byte>, eof: seq<byte>)
    decreases |packets|
  {
    if packets == [] then s == tail
    else FirstPacket(s, packets[0], eof) && Splits(s[|packets[0]|..], packets[1..], tail, eof)
  }

  lemma FirstPacketUnique(s: seq<byte>, p: seq<byte>, q: seq<byte>, eof: seq<byte>)
    requires FirstPacket(s, p, eof) && FirstPacket(s, q, eof)
    ensures p == q
  {
    assert |p| == |q|;
  }

  /** However a stream is received, its packets are the same, and so is what is left without a marker. */
  lemma {:induction false} SplitsUnique(s: seq<byte>, a: seq<seq<byte>>, b: seq<seq<byte>>,
                                        ta: seq<byte>, tb: seq<byte>, eof: seq<byte>)
    requires Splits(s, a, ta, eof) && Splits(s, b, tb, eof) && NoMatch(ta, eof) && NoMatch(tb, eof)
    ensures a == b && ta == tb
    decreases |a|
  {
    if a != [] && b != [] {
      FirstPacketUnique(s, a[0], b[0], eof);
      SplitsUnique(s[|a[0]|..], a[1..], b[1..], ta, tb, eof);
      assert a == [a[0]] + a[1..] && b == [b[0]] + b[1..];
    }
  }

  lemma {:induction false} SplitsSnoc(s: seq<byte>, packets: seq<seq<byte>>, tail: seq<byte>, p: seq<byte>,
                                      eof: seq<byte>)
    requires Splits(s, packets, tail, eof) && FirstPacket(tail, p, eof)
    ensures Splits(s, packets + [p], tail[|p|..], eof)
    decreases |packets|
  {
    if packets == [] {
      assert [p][1..] == [];
    } else {
      SplitsSnoc(s[|packets[0]|..], packets[1..], tail, p, eof);
      assert (packets + [p])[1..] == packets[1..] + [p];
    }
  }

  /** Nothing is lost: the packets and the rest make up the stream. */
  lemma {:induction false} SplitsConserves(s: seq<byte>, packets: seq<seq<byte>>, tail: seq<byte>, eof: seq<byte>)
    requires Splits(s, packets, tail, eof)
    ensures Concat(packets) + tail == s
    decreases |packets|
  {
    if packets != [] {
      var p := packets[0];
      SplitsConserves(s[|p|..], packets[1..], tail, eof);
      assert s == p + s[|p|..];
      assert (p + Concat(packets[1..])) + tail == p + (Concat(packets[1..]) + tail);
    }
  }

  /** The leftmost marker of what has arrived is the leftmost of the whole stream. */
  lemma FirstPacketOfPrefix(s: seq<byte>, more: seq<byte>, p: seq<byte>, eof: seq<byte>)
    requires FirstPacket(s, p, eof)
    ensures FirstPacket(s + more, p, eof)
  {
    forall i | 0 <= i <= |p| - |eof| ensures MatchAt(s + more, i, eof) <==> MatchAt(s, i, eof) {
      MatchInPrefix(s, more, i, eof);
    }
  }

  lemma FoundInPrefix(s: seq<byte>, more: seq<byte>, p: seq<byte>, after: seq<byte>, eof: seq<byte>)
    requires FirstPacket(s, p, eof) && p + after == s
    ensures FirstPacket(s + more, p, eof) && after + more == (s + more)[|p|..]
  {
    FirstPacketOfPrefix(s, more, p, eof);
  }

  /** A marker found only now ends in what came last. */
  lemma MatchEndsInNews(s: seq<byte>, news: seq<byte>, p: seq<byte>, eof: seq<byte>)
    requires NoMatch(s, eof) && FirstPacket(s + news, p, eof)
    ensures |p| > |s|
  {
    if |p| <= |s| {
      MatchInPrefix(s, news, |p| - |eof|, eof);
    }
  }

  /** "no package eof" is only said of packets longer than the limit. */
  lemma ShortPacketIsFound(s: seq<byte>, p: seq<byte>, max: nat, eof: seq<byte>)
    requires FirstPacket(s, p, eof) && |p| <= max <= |s|
    ensures !NoMatch(s[..max], eof)
  {
    assert s[..max] + s[max..] == s;
    MatchInPrefix(s[..max], s[max..], |p| - |eof|, eof);
  }

  // ------------------------------------------------------------- the client

  /** The size a full buffer is extended to: computed in 32 bits, capped by the packet limit. */
  function Grown(size: nat, max: uint32): uint32 {
    var n := Wrap32(size * 2);
    if n > max then max else n
  }

  /** The sizes reached by doubling from the first. */
  ghost predicate Doubled(size: nat) {
    size == SW_BUFFER_SIZE_BIG || (size > SW_BUFFER_SIZE_BIG && size % 2 == 0 && Doubled(size / 2))
  }

  lemma {:induction false} DoubledFits(size: nat, bound: nat)
    requires Doubled(size) && Doubled(bound) && size < bound
    ensures 2 * size <= bound && Doubled(2 * size)
    decreases size
  {
    if size > SW_BUFFER_SIZE_BIG {
      DoubledFits(size / 2, bound / 2);
    }
    assert 2 * size / 2 == size;
  }

  lemma TwoGibibytes()
    ensures Doubled(0x8000_0000)
  {
    assert Doubled(0x2_0000) && Doubled(0x4_0000) && Doubled(0x8_0000) && Doubled(0x10_0000) && Doubled(0x20_0000);
    assert Doubled(0x40_0000) && Doubled(0x80_0000) && Doubled(0x100_0000) && Doubled(0x200_0000);
    assert Doubled(0x400_0000) && Doubled(0x800_0000) && Doubled(0x1000_0000) && Doubled(0x2000_0000);
    assert Doubled(0x4000_0000);
  }

  /** The longest packet that can be received: the limit, or two gibibytes, where doubling fails. */
  function Limit(max: uint32): uint32 {
    if max <= 0x8000_0000 then max else 0x8000_0000
  }

  /** Doubling in 32 bits works below two gibibytes and fails from there on. */
  lemma GrowsIff(size: nat, max: uint32)
    requires 0 < size < max
    ensures Grown(size, max) > size <==> size < 0x8000_0000
  {
  }

  /** A buffer is never smaller than the initial one, nor larger than both that and the limit. */
  ghost predicate SizeFits(size: nat, max: uint32) {
    && SW_BUFFER_SIZE_BIG <= size && (SW_BUFFER_SIZE_BIG <= max ==> size <= Limit(max))
    && (Doubled(size) || size == Limit(max))
  }

  lemma GrownFits(size: nat, max: uint32)
    requires SizeFits(size, max) && size < max
    ensures if size < 0x8000_0000 then SizeFits(Grown(size, max), max) else size == 0x8000_0000
  {
    TwoGibibytes();
    if size < 0x8000_0000 {
      DoubledFits(size, 0x8000_0000);
    }
  }

  // ----------------------------------------------------- what chunking does not change

  ghost predicate AllWithin(packets: seq<seq<byte>>, limit: nat) {
    forall i :: 0 <= i < |packets| ==> |packets[i]| <= limit
  }

  /** Behind its first packets the stream has `limit` octets without a marker. */
  ghost predicate OversizedAt(s: seq<byte>, packets: seq<seq<byte>>, tail: seq<byte>, eof: seq<byte>, limit: nat) {
    Splits(s, packets, tail, eof) && limit <= |tail| && NoMatch(tail[..limit], eof)
  }

  ghost predicate Oversized(s: seq<byte>, eof: seq<byte>, limit: nat) {
    exists packets, tail :: OversizedAt(s, packets, tail, eof, limit)
  }

  /** The packets are all there are, none too long, and what is left is short and has no marker. */
  ghost predicate SplitsAll(s: seq<byte>, packets: seq<seq<byte>>, tail: seq<byte>, eof: seq<byte>, limit: nat) {
    && Splits(s, packets, tail, eof) && NoMatch(tail, eof) && |tail| < limit
    && AllWithin(packets, limit)
  }

  /** A stream that is split to its end has no stretch that is too long. */
  lemma {:induction false} SplitsAllFits(s: seq<byte>, a: seq<seq<byte>>, ta: seq<byte>, b: seq<seq<byte>>,
                                         tb: seq<byte>, eof: seq<byte>, limit: nat)
    requires SplitsAll(s, a, ta, eof, limit)
    ensures !OversizedAt(s, b, tb, eof, limit)
    decreases |a|
  {
    if OversizedAt(s, b, tb, eof, limit) {
      if b == [] {
        if a != [] {
          ShortPacketIsFound(s, a[0], limit, eof);
        }
      } else if a != [] {
        FirstPacketUnique(s, a[0], b[0], eof);
        SplitsAllFits(s[|a[0]|..], a[1..], ta, b[1..], tb, eof, limit);
      }
    }
  }

  /** Two runs up to the same kind of stretch have returned the same packets. */
  lemma {:induction false} OversizedUnique(s: seq<byte>, a: seq<seq<byte>>, ta: seq<byte>, b: seq<seq<byte>>,
                                           tb: seq<byte>, eof: seq<byte>, limit: nat)
    requires OversizedAt(s, a, ta, eof, limit) && AllWithin(a, limit)
    requires OversizedAt(s, b, tb, eof, limit) && AllWithin(b, limit)
    ensures a == b && ta == tb
    decreases |a|
  {
    if a != [] && b != [] {
      FirstPacketUnique(s, a[0], b[0], eof);
      OversizedUnique(s[|a[0]|..], a[1..], ta, b[1..], tb, eof, limit);
      assert a == [a[0]] + a[1..] && b == [b[0]] + b[1..];
    } else if a != [] {
      ShortPacketIsFound(s, a[0], limit, eof);
    } else if b != [] {
      ShortPacketIsFound(s, b[0], limit, eof);
    }
  }

  /** Receives that bring something, at least `n` of them. */
  ghost predicate Ample(sizes: seq<int>, n: nat) {
    n <= |sizes| && forall i :: 0 <= i < |sizes| ==> sizes[i] > 0
  }

  /** Of `sizes` all but `left` were used, and each brought at least one octet. */
  ghost predicate Received(sizes: seq<int>, left: seq<int>, input: seq<byte>, rest: seq<byte>) {
    && |left| <= |sizes| && left == sizes[|sizes| - |left|..]
    && |sizes| - |left| + |rest| <= |input|
    && forall i :: 0 <= i < |sizes| - |left| ==> sizes[i] > 0
  }

  /** The size used last. */
  ghost function LastUsed(sizes: seq<int>, left: seq<int>): int
    requires |left| < |sizes|
  {
    sizes[|sizes| - |left| - 1]
  }

  /** What a call's result says of the stream `s`; `kept` stays in the buffer. */
  ghost predicate Explained(s: seq<byte>, r: Result, kept: seq<byte>, rest: seq<byte>, eof: seq<byte>, max: uint32) {
    match r
    case Packet(p) =>
      FirstPacket(s, p, eof) && kept + rest == s[|p|..] && (SW_BUFFER_SIZE_BIG <= max ==> |p| <= Limit(max))
    case Waiting =>
      kept + rest == s && NoMatch(kept, eof) && (SW_BUFFER_SIZE_BIG <= max ==> |kept| < Limit(max))
    case NoEof =>
      && kept == [] && max <= |s| && NoMatch(s[..max], eof)
      && (SW_BUFFER_SIZE_BIG <= max ==> max <= 0x8000_0000)
    case Aborted => 0x8000_0000 < max && 0x8000_0000 <= |s| && NoMatch(s[..0x8000_0000], eof)
    case _ => kept == []
  }

  /** How a run ends on whose input nothing fails: at the end of the stream, or at a stretch that is too long. */
  ghost predicate Exhausts(s: seq<byte>, packets: seq<seq<byte>>, last: Result, tail: seq<byte>, eof: seq<byte>,
                           max: uint32) {
    if last == Waiting then SplitsAll(s, packets, tail, eof, Limit(max))
    else
      && last == (if max <= 0x8000_0000 then NoEof else Aborted)
      && OversizedAt(s, packets, tail, eof, Limit(max)) && AllWithin(packets, Limit(max))
  }

  lemma ExhaustsAtLast(s: seq<byte>, packets: seq<seq<byte>>, last: Result, tail: seq<byte>, kept: seq<byte>,
                       rest: seq<byte>, eof: seq<byte>, max: uint32)
    requires Splits(s, packets, tail, eof) && AllWithin(packets, Limit(max)) && SW_BUFFER_SIZE_BIG <= max
    requires Explained(tail, last, kept, rest, eof, max) && (last == Waiting ==> rest == [])
    requires !last.Packet? && last != Failed && last != Closed
    ensures Exhausts(s, packets, last, tail, eof, max)
  {
    if last == Waiting {
      assert kept + [] == kept;
    }
  }

  /**
   * The pieces in which a stream is offered make no difference: neither for the packets, nor
   * for what is left, nor for how it ends, which is at the end of the stream exactly when no
   * stretch without a marker reaches the limit.
   */
  lemma ChunkingIsIrrelevant(s: seq<byte>, a: seq<seq<byte>>, la: Result, ta: seq<byte>, b: seq<seq<byte>>,
                             lb: Result, tb: seq<byte>, eof: seq<byte>, max: uint32)
    requires Exhausts(s, a, la, ta, eof, max) && Exhausts(s, b, lb, tb, eof, max)
    ensures a == b && la == lb && ta == tb
    ensures la == Waiting <==> !Oversized(s, eof, Limit(max))
  {
    EndsIff(s, a, la, ta, eof, max);
    EndsIff(s, b, lb, tb, eof, max);
    if la == Waiting {
      SplitsUnique(s, a, b, ta, tb, eof);
    } else {
      OversizedUnique(s, a, ta, b, tb, eof, Limit(max));
    }
  }

  lemma EndsIff(s: seq<byte>, packets: seq<seq<byte>>, last: Result, tail: seq<byte>, eof: seq<byte>, max: uint32)
    requires Exhausts(s, packets, last, tail, eof, max)
    ensures last == Waiting <==> !Oversized(s, eof, Limit(max))
  {
    if last == Waiting {
      forall b, tb ensures !OversizedAt(s, b, tb, eof, Limit(max)) {
        SplitsAllFits(s, packets, tail, b, tb, eof, Limit(max));
      }
    }
  }

  /** What a call has to do with the receives: a packet, or waiting for more, used up the sizes; or one ended it. */
  ghost predicate Accounts(r: Result, sizes: seq<int>, left: seq<int>, input: seq<byte>, rest: seq<byte>, max: uint32) {
    && (r.Packet? || (r == Waiting && rest != []) ==> Received(sizes, left, input, rest))
    && (r == Waiting ==> rest == [] || left == [])
    && (r == Closed && SW_BUFFER_SIZE_BIG <= max ==> |left| < |sizes| && LastUsed(sizes, left) == 0)
    && (r == Failed ==> |left| < |sizes| && LastUsed(sizes, left) < 0)
  }

  /** No receive failed or ended the connection, and a call waits only once everything came in. */
  ghost predicate Undisturbed(r: Result, rest: seq<byte>, max: uint32) {
    (r == Waiting ==> rest == []) && r != Failed && (SW_BUFFER_SIZE_BIG <= max ==> r != Closed)
  }

  /** With all of the input offered, nothing fails, and whatever is still to come is still offered. */
  lemma AmpleStep(r: Result, sizes: seq<int>, left: seq<int>, input: seq<byte>, rest: seq<byte>, max: uint32)
    requires Ample(sizes, |input|) && Accounts(r, sizes, left, input, rest, max)
    ensures r.Packet? ==> Ample(left, |rest|)
    ensures Undisturbed(r, rest, max)
  {
  }

  lemma ReceivedStep(sizes: seq<int>, left: seq<int>, input: seq<byte>, rest: seq<byte>, later: seq<byte>,
                     stop: Option<Result>, max: uint32)
    requires Received(sizes, left, input, rest) && left != []
    requires stop.None? || stop.value.Packet? ==> left[0] > 0 && |later| < |rest|
    requires stop == Some(Waiting) ==> later == []
    requires stop == Some(Closed) && SW_BUFFER_SIZE_BIG <= max ==> left[0] == 0
    requires stop == Some(Failed) ==> left[0] < 0
    ensures if stop.None? then Received(sizes, left[1..], input, later)
            else Accounts(stop.value, sizes, left[1..], input, later, max)
  {
  }

  datatype Result = Packet(data: seq<byte>) | Failed | Closed | NoEof | Waiting | Aborted

  class Client {
    const eof: seq<byte>                     // protocol->package_eof
    const max: uint32                        // protocol->package_max_length
    var buffer: array?<byte>
    var length: nat

    predicate EofOk() {
      0 < |eof| <= SW_DATA_EOF_MAXLEN
    }

    ghost predicate Working()
      reads this
    {
      EofOk() && buffer != null && length <= buffer.Length && SizeFits(buffer.Length, max)
    }

    /** Between calls: what is left over fits the buffer a packet leaves behind. */
    ghost predicate Valid()
      reads this
    {
      && EofOk() && length < SW_BUFFER_SIZE_BIG
      && (if buffer == null then length == 0 else SizeFits(buffer.Length, max))
    }

    ghost function Contents(): seq<byte>
      requires buffer == null || length <= buffer.Length
      reads this, buffer
    {
      if buffer == null then [] else buffer[..length]
    }

    constructor (eof: seq<byte>, max: uint32)
      requires 0 < |eof| <= SW_DATA_EOF_MAXLEN
      ensures Valid() && this.eof == eof && this.max == max && buffer == null
    {
      this.eof, this.max, buffer, length := eof, max, null, 0;
    }

    /** Octets from the socket are written behind what is there. */
    method Store(data: seq<byte>)
      requires Working() && length + |data| <= buffer.Length
      modifies this`length, buffer
      ensures Working() && buffer == old(buffer) && length == old(length) + |data|
      ensures buffer[..length] == old(buffer[..length]) + data
    {
      var b, at, i := buffer, length, 0;
      while i < |data|
        invariant 0 <= i <= |data|
        invariant b[..at] == old(buffer[..length])
        invariant b[at..at + i] == data[..i]
        modifies b
      {
        b[at + i] := data[i];
        i := i + 1;
      }
      length := length + |data|;
      assert b[..length] == b[..at] + b[at..length];
    }

    /** The first `e` octets are the packet; the rest moves to a fresh buffer of fixed size. */
    method Cut(e: nat) returns (p: seq<byte>)
      requires Working() && e <= length && length - e < SW_BUFFER_SIZE_BIG
      modifies this
      ensures Valid() && p == old(buffer[..e]) && Contents() == old(buffer[e..length])
      ensures buffer != null ==> fresh(buffer)
    {
      p := buffer[..e];
      if length > e {
        var copy := new byte[SW_BUFFER_SIZE_BIG];
        var n, i := length - e, 0;
        while i < n
          invariant 0 <= i <= n
          invariant copy[..i] == buffer[e..e + i]
          modifies copy
        {
          copy[i] := buffer[e + i];
          i := i + 1;
        }
        buffer, length := copy, n;
      } else {
        buffer, length := null, 0;
      }
    }

    /** A full buffer doubles, up to the packet limit; `extend` insists on growth. */
    method Grow() returns (ok: bool)
      requires Working() && length == buffer.Length < max
      modifies this`buffer
      ensures ok <==> Grown(old(buffer.Length), max) > old(buffer.Length)
      ensures ok ==> Working() && fresh(buffer) && buffer.Length == Grown(old(buffer.Length), max)
      ensures ok ==> buffer[..length] == old(buffer[..length])
      ensures !ok ==> buffer == old(buffer)
    {
      GrownFits(buffer.Length, max);
      GrowsIff(buffer.Length, max);
      var newSize := Grown(buffer.Length, max);
      if newSize <= buffer.Length {
        return false;
      }
      var copy := new byte[newSize];
      var i := 0;
      while i < length
        invariant 0 <= i <= length
        invariant copy[..i] == buffer[..i]
        modifies copy
      {
        copy[i] := buffer[i];
        i := i + 1;
      }
      buffer := copy;
      return true;
    }

    /** Look for a packet in the buffer. */
    method FindEof() returns (r: Option<seq<byte>>)
      requires Working()
      requires forall p :: FirstPacket(buffer[..length], p, eof) ==> length - |p| < SW_BUFFER_SIZE_BIG
      modifies this
      ensures r.None? ==> buffer == old(buffer) && length == old(length) && NoMatch(buffer[..length], eof)
      ensures r.Some? ==> Valid() && FirstPacket(old(buffer[..length]), r.value, eof)
                          && r.value + Contents() == old(buffer[..length])
      ensures buffer == null || buffer == old(buffer) || fresh(buffer)
    {
      var pos := StrnPos(buffer, 0, length, eof);
      if pos == -1 {
        return None;
      }
      ghost var p := buffer[..length][..pos + |eof|];
      assert FirstPacket(buffer[..length], p, eof);
      var data := Cut(pos + |eof|);
      r := Some(data);
    }

    /** One `recv` on the socket: `v` is what the system offers, negative for an error. */
    method Fill(input: seq<byte>, v: int) returns (r: Option<Result>, rest: seq<byte>)
      requires Working()
      modifies this`length, buffer
      ensures Working() && buffer == old(buffer)
      ensures r.None? ==>
                && buffer[..length] + rest == old(buffer[..length]) + input
                && old(length) < length <= old(length) + SW_BUFFER_SIZE_BIG && |rest| < |input|
                && old(buffer[..length]) <= buffer[..length]
      ensures r.Some? ==> r.value == Failed || r.value == Closed || r.value == Waiting
      ensures r == Some(Waiting) ==> rest == input == [] && buffer[..length] == old(buffer[..length])
      ensures r == Some(Failed) || r == Some(Closed) ==> length == 0
      ensures r == Some(Failed) <==> v < 0
      ensures r == Some(Closed) <==> v == 0 || (v > 0 && old(length) == buffer.Length)
    {
      var bufLen := buffer.Length - length;
      if bufLen > SW_BUFFER_SIZE_BIG {
        bufLen := SW_BUFFER_SIZE_BIG;
      }
      rest := input;
      if v < 0 {
        length := 0;
        return Some(Failed), rest;
      }
      if v == 0 || bufLen == 0 {
        length := 0;
        return Some(Closed), rest;
      }
      if input == [] {
        return Some(Waiting), rest;
      }
      var n := if v < bufLen then v else bufLen;
      n := if n < |input| then n else |input|;
      Store(input[..n]);
      rest := input[n..];
      assert input == input[..n] + rest;
      r := None;
    }

    /** The loop's state: what is in the buffer was searched, unless this is the first turn. */
    ghost predicate Looping(s: seq<byte>, rest: seq<byte>, search: bool)
      reads this, buffer
    {
      && Working() && buffer[..length] + rest == s
      && (if search then length < SW_BUFFER_SIZE_BIG else NoMatch(buffer[..length], eof))
      && (SW_BUFFER_SIZE_BIG <= max && !search ==> length < buffer.Length)
    }

    /** What a finished call means, for the stream `s` it was given. */
    ghost predicate Explains(s: seq<byte>, r: Result, rest: seq<byte>)
      requires EofOk() && (buffer == null || length <= buffer.Length)
      reads this, buffer
    {
      && Explained(s, r, Contents(), rest, eof, max)
      && (r != Waiting && r != Aborted ==> Valid())
    }

    /** The search half of a turn. */
    method Examine(ghost s: seq<byte>, rest: seq<byte>) returns (r: Option<Result>)
      requires Working() && buffer[..length] + rest == s
      requires forall p :: FirstPacket(buffer[..length], p, eof) ==> length - |p| < SW_BUFFER_SIZE_BIG
      modifies this
      ensures EofOk() && (buffer == null || length <= buffer.Length)
      ensures r.None? ==> Looping(s, rest, false)
      ensures r.Some? ==> !r.value.Waiting? && !r.value.Closed? && !r.value.Failed? && Explains(s, r.value, rest)
      ensures buffer == null || buffer == old(buffer) || fresh(buffer)
    {
      var found := FindEof();
      if found.Some? {
        FoundInPrefix(old(buffer[..length]), rest, found.value, Contents(), eof);
        return Some(Packet(found.value));
      }
      if length == max {
        assert s[..max] == buffer[..length];
        length := 0;
        return Some(NoEof);
      }
      if length == buffer.Length && buffer.Length < max {
        GrowsIff(length, max);
        var ok := Grow();
        if !ok {
          assert s[..length] == buffer[..length];
          return Some(Aborted);
        }
      }
      r := None;
    }

    /** A turn of the loop: receive, unless there was something to search, and then search. */
    method Turn(rest0: seq<byte>, v: Option<int>, ghost s: seq<byte>) returns (r: Option<Result>, rest: seq<byte>)
      requires Looping(s, rest0, v.None?)
      modifies this, buffer
      ensures EofOk() && (buffer == null || length <= buffer.Length)
      ensures r.None? ==> Looping(s, rest, false)
      ensures r.Some? ==> Explains(s, r.value, rest)
      ensures r == Some(Waiting) ==> rest == [] == rest0 && v.Some? && v.value > 0
      ensures if v.None? then rest == rest0 else r.None? || r.value.Packet? ==> v.value > 0 && |rest| < |rest0|
      ensures r == Some(Closed) && SW_BUFFER_SIZE_BIG <= max ==> v == Some(0)
      ensures r == Some(Failed) <==> v.Some? && v.value < 0
      ensures buffer == null || buffer == old(buffer) || fresh(buffer)
    {
      rest := rest0;
      if v.Some? {
        ghost var before := buffer[..length];
        r, rest := Fill(rest, v.value);
        if r.Some? {
          return;
        }
        if length < |eof| {
          return;
        }
        assert before + buffer[..length][|before|..] == buffer[..length];
        forall p | FirstPacket(buffer[..length], p, eof) ensures length - |p| < SW_BUFFER_SIZE_BIG {
          MatchEndsInNews(before, buffer[..length][|before|..], p, eof);
        }
      }
      r := Examine(s, rest);
    }

    /**
     * `recv`: the next packet of the stream made of what is left over and what arrives, however
     * the system cuts the latter into pieces (`sizes`).
     */
    method Recv(input: seq<byte>, sizes: seq<int>) returns (r: Result, rest: seq<byte>, left: seq<int>)
      requires Valid()
      modifies this, buffer
      ensures EofOk() && (buffer == null || length <= buffer.Length)
      ensures Explains(old(Contents()) + input, r, rest)
      ensures Accounts(r, sizes, left, input, rest, max)
      ensures buffer == null || buffer == old(buffer) || fresh(buffer)
    {
      if buffer == null {
        buffer := new byte[SW_BUFFER_SIZE_BIG];
      }
      ghost var s := old(Contents()) + input;
      rest, left := input, sizes;
      var search := length > 0;
      r := Waiting;
      while true
        invariant buffer == old(buffer) || fresh(buffer)
        invariant Looping(s, rest, search) && Received(sizes, left, input, rest)
        decreases |left|, search
      {
        var stop: Option<Result>;
        if search {
          search := false;
          stop, rest := Turn(rest, None, s);
        } else {
          if left == [] {
            return;
          }
          ghost var before := rest;
          var v := left[0];
          stop, rest := Turn(rest, Some(v), s);
          ReceivedStep(sizes, left, input, before, rest, stop, max);
          left := left[1..];
        }
        if stop.Some? {
          r := stop.value;
          return;
        }
      }
    }

    /** Calls to `recv` until one does not return a packet. */
    method RecvPackets(input: seq<byte>, sizes: seq<int>)
      returns (packets: seq<seq<byte>>, last: Result, rest: seq<byte>, ghost tail: seq<byte>)
      requires Valid()
      modifies this, buffer
      ensures EofOk() && (buffer == null || length <= buffer.Length) && !last.Packet?
      ensures Splits(old(Contents()) + input, packets, tail, eof) && Explains(tail, last, rest)
      ensures SW_BUFFER_SIZE_BIG <= max ==> AllWithin(packets, Limit(max))
      ensures Ample(sizes, |input|) ==> Undisturbed(last, rest, max)
    {
      ghost var s := old(Contents()) + input;
      packets, rest, tail := [], input, s;
      var left := sizes;
      while true
        invariant Valid() && Contents() + rest == tail && Splits(s, packets, tail, eof)
        invariant buffer == null || buffer == old(buffer) || fresh(buffer)
        invariant SW_BUFFER_SIZE_BIG <= max ==> AllWithin(packets, Limit(max))
        invariant Ample(sizes, |input|) ==> Ample(left, |rest|)
        decreases |tail|
      {
        ghost var was := left;
        ghost var before := rest;
        last, rest, left := Recv(rest, left);
        if Ample(sizes, |input|) {
          AmpleStep(last, was, left, before, rest, max);
        }
        if !last.Packet? {
          return;
        }
        SplitsSnoc(s, packets, tail, last.data, eof);
        packets := packets + [last.data];
        tail := tail[|last.data|..];
      }
    }

    /**
     * The packets are those of the stream.  When nothing fails and all of the input is offered,
     * in whatever pieces, it is split to its end, unless there is a stretch without a marker that
     * reaches the limit.
     */
    method RecvAll(input: seq<byte>, sizes: seq<int>)
      returns (packets: seq<seq<byte>>, last: Result, rest: seq<byte>, ghost tail: seq<byte>)
      requires Valid()
      modifies this, buffer
      ensures EofOk() && (buffer == null || length <= buffer.Length) && !last.Packet?
      ensures Splits(old(Contents()) + input, packets, tail, eof) && Explains(tail, last, rest)
      ensures Ample(sizes, |input|) && last == Waiting ==>
                rest == [] && tail == Contents() && NoMatch(Contents(), eof)
      ensures Ample(sizes, |input|) && SW_BUFFER_SIZE_BIG <= max ==>
                && Exhausts(old(Contents()) + input, packets, last, tail, eof, max)
                && (last == Waiting <==> !Oversized(old(Contents()) + input, eof, Limit(max)))
    {
      ghost var s := old(Contents()) + input;
      packets, last, rest, tail := RecvPackets(input, sizes);
      if Ample(sizes, |input|) && SW_BUFFER_SIZE_BIG <= max {
        ExhaustsAtLast(s, packets, last, tail, Contents(), rest, eof, max);
        EndsIff(s, packets, last, tail, eof, max);
      }
    }
  }

  /** Two clients that get the same stream in different pieces return the same packets. */
  method RecvTwice(eof: seq<byte>, max: uint32, input: seq<byte>, sizes: seq<int>, others: seq<int>)
    returns (a: seq<seq<byte>>, b: seq<seq<byte>>, la: Result, lb: Result)
    requires 0 < |eof| <= SW_DATA_EOF_MAXLEN && SW_BUFFER_SIZE_BIG <= max
    requires Ample(sizes, |input|) && Ample(others, |input|)
    ensures a == b && la == lb && (la == Waiting <==> !Oversized(input, eof, Limit(max)))
    ensures exists tail :: Exhausts(input, a, la, tail, eof, max)
  {
    var c := new Client(eof, max);
    var d := new Client(eof, max);
    assert [] + input == input;
    ghost var ta, tb;
    var rest;
    a, la, rest, ta := c.RecvAll(input, sizes);
    b, lb, rest, tb := d.RecvAll(input, others);
    ChunkingIsIrrelevant(input, a, la, ta, b, lb, tb, eof, max);
  }
}
