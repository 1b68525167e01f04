/**
 * Receiving an HTTP/1 response in the coroutine client (`recv_response` in
 * ext-src/swoole_http_client_coro.cc): the header is collected in the read buffer and
 * searched for its end from a few octets before what is new; only then does the parser get
 * to see anything.
 */
module HttpResponse {
  import opened Prelude
  import opened Search

  const TERMINATOR: seq<byte> := [13, 10, 13, 10]

  /** What the parser says of a piece. */
  datatype Verdict = More | Complete | Invalid | CloseWait

  /** What a `recv` brings: up to `n` octets, or the end of the connection, or no more time. */
  datatype Event = Arrives(n: nat, verdict: Verdict) | Closes(keepAlive: bool) | TimesOut

  datatype Outcome = Success | HeaderTooLarge | Failed | Waiting

  /** How an event ends the call, if it does. */
  function Ending(e: Event, headerDone: bool): Option<Outcome> {
    match e
    case TimesOut => Some(Failed)
    case Closes(keepAlive) => Some(if headerDone && !keepAlive then Success else Failed)
    case Arrives(_, verdict) =>
      if !headerDone || verdict == More then None
      else Some(if verdict == Complete then Success else Failed)
  }

  /** Where the search resumes after `length` octets without a terminator. */
  function ResumeAt(length: nat): nat {
    if length > 4 then length - 4 else 0
  }

  /** `offset` is a place before which no terminator can begin, whatever follows `s`. */
  ghost predicate ResumesWell(s: seq<byte>, offset: nat) {
    offset == 0 || (offset == ResumeAt(|s|) && NoMatch(s, TERMINATOR))
  }

  /** Searching the new part finds a terminator exactly when searching everything would. */
  lemma ResumedSearch(s: seq<byte>, news: seq<byte>, offset: nat)
    requires ResumesWell(s, offset)
    ensures offset <= |s| && (NoMatch((s + news)[offset..], TERMINATOR) <==> NoMatch(s + news, TERMINATOR))
  {
    var all := s + news;
    forall i ensures MatchAt(all, i, TERMINATOR) ==> MatchAt(all[offset..], i - offset, TERMINATOR) {
      if i < offset {
        if 0 <= i {
          MatchInPrefix(s, news, i, TERMINATOR);
        }
      } else {
        MatchInSuffix(all, offset, i, TERMINATOR);
      }
    }
    forall j ensures MatchAt(all[offset..], j, TERMINATOR) ==> MatchAt(all, j + offset, TERMINATOR) {
      if 0 <= j {
        MatchInSuffix(all, offset, j + offset, TERMINATOR);
      }
    }
    if !NoMatch(all, TERMINATOR) {
      var i :| MatchAt(all, i, TERMINATOR);
      assert MatchAt(all[offset..], i - offset, TERMINATOR);
    }
  }

  lemma MatchStays(s: seq<byte>, more: seq<byte>)
    requires !NoMatch(s, TERMINATOR)
    ensures !NoMatch(s + more, TERMINATOR)
  {
    var i :| MatchAt(s, i, TERMINATOR);
    MatchInPrefix(s, more, i, TERMINATOR);
  }

  function Least(a: nat, b: nat, c: nat): nat {
    if a <= b && a <= c then a else if b <= c then b else c
  }

  /** The header is complete in the first `p` octets. */
  ghost predicate Whole(input: seq<byte>, p: nat)
    requires p <= |input|
  {
    !NoMatch(input[..p], TERMINATOR)
  }

  /** How far the stream is taken by an event that brings up to `n` octets, with a buffer of `size`. */
  ghost function Reached(input: seq<byte>, p: nat, n: nat, size: nat): (q: nat)
    requires p <= |input| && (p < size || Whole(input, p))
    ensures p <= q <= |input|
  {
    p + Least(n, if Whole(input, p) then size else size - p, |input| - p)
  }

  /** How a call ends, after how many octets of `input`, and at which event. */
  ghost function Course(input: seq<byte>, p: nat, size: nat, events: seq<Event>, i: nat): (Outcome, nat, nat)
    requires p <= |input| && (p < size || Whole(input, p)) && i <= |events|
    decreases |events| - i
  {
    if i == |events| then (Waiting, p, i)
    else if !events[i].Arrives? then (Ending(events[i], Whole(input, p)).value, p, i)
    else if events[i].n == 0 || p == |input| then (Waiting, p, i)
    else
      var q := Reached(input, p, events[i].n, size);
      var ending := Ending(events[i], Whole(input, q));
      if !Whole(input, q) && q >= size then (HeaderTooLarge, q, i)
      else if ending.Some? then (ending.value, q, i)
      else Course(input, q, size, events, i + 1)
  }

  /** Every event up to the last brought something: more time or octets never leave a call where it was. */
  lemma {:induction false} CourseAdvances(input: seq<byte>, p: nat, size: nat, events: seq<Event>, i: nat)
    requires p <= |input| && (p < size || Whole(input, p)) && i <= |events| && size > 0
    ensures var (r, q, last) := Course(input, p, size, events, i);
            && i <= last <= |events| && p + (last - i) <= q <= |input|
            && (forall j :: i <= j < last ==> events[j].Arrives? && events[j].n > 0)
            && (r == Waiting ==> q == |input| || last == |events| || (events[last].Arrives? && events[last].n == 0))
    decreases |events| - i
  {
    if i < |events| && events[i].Arrives? && events[i].n > 0 && p < |input| {
      var q := Reached(input, p, events[i].n, size);
      if (Whole(input, q) || q < size) && Ending(events[i], Whole(input, q)).None? {
        CourseAdvances(input, q, size, events, i + 1);
      }
    }
  }

  /** How far the stream has been taken after the first `j` events, all of which brought something. */
  ghost function Taken(input: seq<byte>, size: nat, events: seq<Event>, j: nat): (p: nat)
    requires j <= |events|
    ensures p <= |input|
  {
    if j == 0 then 0
    else
      var p := Taken(input, size, events, j - 1);
      if events[j - 1].Arrives? && (p < size || Whole(input, p)) then Reached(input, p, events[j - 1].n, size) else p
  }

  /**
   * What ends a call: no more time; the end of the connection, which is a success only behind a
   * complete header and without keep-alive; or, once the header is complete, the first verdict of
   * the parser that is not to go on, which is a success only if it is that all is complete.
   */
  ghost predicate EndsBy(e: Event, whole: bool, r: Outcome) {
    match e
    case TimesOut => r == Failed
    case Closes(keepAlive) => r == if whole && !keepAlive then Success else Failed
    case Arrives(_, verdict) => whole && verdict != More && r == if verdict == Complete then Success else Failed
  }

  /** Nothing before event `last` ended the call: octets came, and the parser, if it had them, wanted more. */
  ghost predicate GoesOn(input: seq<byte>, size: nat, events: seq<Event>, last: nat) {
    last <= |events| && forall j :: 0 <= j < last ==>
      events[j].Arrives? && (events[j].verdict == More || !Whole(input, Taken(input, size, events, j + 1)))
  }

  lemma {:induction false} CourseGoesOn(input: seq<byte>, p: nat, size: nat, events: seq<Event>, i: nat)
    requires i <= |events| && p == Taken(input, size, events, i) && (p < size || Whole(input, p)) && size > 0
    requires GoesOn(input, size, events, i)
    ensures var (r, q, last) := Course(input, p, size, events, i);
            && GoesOn(input, size, events, last) && q <= |input|
            && (r == Success || r == Failed ==> last < |events| && EndsBy(events[last], Whole(input, q), r))
            && q == Taken(input, size, events, if last < |events| && events[last].Arrives? then last + 1 else last)
    decreases |events| - i
  {
    if i < |events| && events[i].Arrives? {
      if events[i].n == 0 || p == |input| {
        assert Reached(input, p, events[i].n, size) == p;
      } else {
        var q := Reached(input, p, events[i].n, size);
        assert q == Taken(input, size, events, i + 1);
        if (Whole(input, q) || q < size) && Ending(events[i], Whole(input, q)).None? {
          CourseGoesOn(input, q, size, events, i + 1);
        }
      }
    }
  }

  class Receiver {
    const buffer: array<byte>                // the socket's read buffer
    var length: nat
    ghost var fed: seq<byte>                 // what the parser was given, all told

    ghost predicate Valid()
      reads this
    {
      length < buffer.Length
    }

    constructor (size: nat)
      requires size > 0
      ensures Valid() && length == 0 && fed == [] && buffer.Length == size && fresh(buffer)
    {
      buffer := new byte[size];
      length, fed := 0, [];
    }

    /** `recv` into the free part of the buffer. */
    method Fill(data: seq<byte>)
      requires length + |data| <= buffer.Length
      modifies buffer
      ensures buffer[..length] == old(buffer[..length])
      ensures buffer[length..length + |data|] == data
    {
      var i := 0;
      while i < |data|
        invariant 0 <= i <= |data|
        invariant buffer[..length] == old(buffer[..length]) && buffer[length..length + i] == data[..i]
      {
        buffer[length + i] := data[i];
        i := i + 1;
      }
    }

    /** The loop's state after the stretch `all` of the stream. */
    ghost predicate Progressed(all: seq<byte>, headerDone: bool, offset: nat, before: seq<byte>)
      reads this, buffer
    {
      && Valid()
      && (if headerDone then length == 0 && fed == before + all && !NoMatch(all, TERMINATOR)
          else buffer[..length] == all && fed == before && ResumesWell(all, offset))
    }

    /** A piece arrives while the header is incomplete. */
    method CollectHeader(data: seq<byte>, offset0: nat, ghost all: seq<byte>, ghost before: seq<byte>)
      returns (headerDone: bool, offset: nat, tooLarge: bool)
      requires Progressed(all, false, offset0, before) && data != [] && length + |data| <= buffer.Length
      modifies this, buffer
      ensures headerDone <==> !NoMatch(all + data, TERMINATOR)
      ensures tooLarge <==> !headerDone && |all + data| == buffer.Length
      ensures !tooLarge ==> Progressed(all + data, headerDone, offset, before)
      ensures tooLarge ==> fed == before && length == |all + data|
    {
      ResumedSearch(all, data, offset0);
      Fill(data);
      length := length + |data|;
      assert buffer[..length] == all + data;
      assert buffer[offset0..length] == (all + data)[offset0..];
      var pos := StrnPos(buffer, offset0, length, TERMINATOR);
      headerDone, offset, tooLarge := false, 0, false;
      if pos < 0 {
        assert pos == -1;
        if length == buffer.Length {
          tooLarge := true;
          return;
        }
        offset := if length > 4 then length - 4 else 0;
      } else {
        headerDone := true;
        fed := fed + buffer[..length];
        length := 0;
      }
    }

    /** A piece arrives; later pieces overwrite the buffer from its start and go to the parser as they are. */
    method TakePiece(data: seq<byte>, headerDone0: bool, offset0: nat, ghost all: seq<byte>, ghost before: seq<byte>)
      returns (headerDone: bool, offset: nat, tooLarge: bool)
      requires Progressed(all, headerDone0, offset0, before) && data != [] && length + |data| <= buffer.Length
      modifies this, buffer
      ensures headerDone <==> headerDone0 || !NoMatch(all + data, TERMINATOR)
      ensures tooLarge <==> !headerDone && |all + data| == buffer.Length
      ensures !tooLarge ==> Progressed(all + data, headerDone, offset, before)
      ensures tooLarge ==> fed == before
    {
      if !headerDone0 {
        headerDone, offset, tooLarge := CollectHeader(data, offset0, all, before);
      } else {
        headerDone, offset, tooLarge := true, offset0, false;
        Fill(data);
        MatchStays(all, data);
        Assoc(before, all, data);
        fed := fed + buffer[length..length + |data|];
      }
    }

    /** A `recv` of up to `n` octets, after the first `p` of `input`. */
    method Arrive(input: seq<byte>, p: nat, n: nat, headerDone0: bool, offset0: nat, ghost before: seq<byte>)
      returns (headerDone: bool, offset: nat, tooLarge: bool, q: nat)
      requires p < |input| && n > 0 && Progressed(input[..p], headerDone0, offset0, before)
      requires headerDone0 <==> Whole(input, p)
      modifies this, buffer
      ensures (p < buffer.Length || Whole(input, p)) && p < q == Reached(input, p, n, buffer.Length)
      ensures q <= p + n
      ensures q == p + n || q == |input| || q == p + buffer.Length || (!headerDone0 && q == buffer.Length)
      ensures headerDone <==> Whole(input, q)
      ensures tooLarge <==> !headerDone && q == buffer.Length
      ensures q >= buffer.Length ==> tooLarge || headerDone
      ensures !tooLarge ==> Progressed(input[..q], headerDone, offset, before)
      ensures tooLarge ==> fed == before
    {
      var k := Least(n, buffer.Length - length, |input| - p);
      q := p + k;
      assert input[..q] == input[..p] + input[p..q];
      headerDone, offset, tooLarge := TakePiece(input[p..q], headerDone0, offset0, input[..p], before);
      if headerDone0 {
        MatchStays(input[..p], input[p..q]);
      }
    }

    /** Every octet received reaches the parser once and in order, and none before the header is whole. */
    method RecvResponse(input: seq<byte>, events: seq<Event>)
      returns (r: Outcome, headerDone: bool, rest: seq<byte>, ghost all: seq<byte>, ghost last: nat)
      requires Valid() && length == 0
      modifies this, buffer
      ensures all + rest == input && (r, |all|, last) == Course(input, 0, buffer.Length, events, 0)
      ensures headerDone <==> !NoMatch(all, TERMINATOR)
      ensures fed == if headerDone then old(fed) + all else old(fed)
      ensures r == HeaderTooLarge <==> !headerDone && |all| == buffer.Length
      ensures r == Success || r == Failed ==> last < |events| && EndsBy(events[last], headerDone, r)
      ensures GoesOn(input, buffer.Length, events, last)
      ensures last <= |all| && last <= |events| && forall j :: 0 <= j < last ==> events[j].Arrives?
      ensures r == Waiting ==>
                rest == [] || last == |events| || (last < |events| && events[last].Arrives? && events[last].n == 0)
    {
      assert input[..0] == [];
      CourseAdvances(input, 0, buffer.Length, events, 0);
      CourseGoesOn(input, 0, buffer.Length, events, 0);
      var p, i;
      r, headerDone, p, i := Receive(input, events);
      rest, all, last := input[p..], input[..p], i;
    }

    /** The loop; `p` octets are taken when it stops at event `i`. */
    method Receive(input: seq<byte>, events: seq<Event>) returns (r: Outcome, headerDone: bool, p: nat, i: nat)
      requires Valid() && length == 0
      modifies this, buffer
      ensures (r, p, i) == Course(input, 0, buffer.Length, events, 0)
      ensures p <= |input| && (headerDone <==> Whole(input, p))
      ensures fed == if headerDone then old(fed) + input[..p] else old(fed)
      ensures r == HeaderTooLarge <==> !headerDone && p == buffer.Length
    {
      headerDone := false;
      var offset := 0;
      i, p := 0, 0;
      assert input[..0] == [];
      while i < |events|
        invariant 0 <= i <= |events| && 0 <= offset && p <= |input| && (headerDone <==> Whole(input, p))
        invariant Progressed(input[..p], headerDone, offset, old(fed))
        invariant Course(input, p, buffer.Length, events, i) == Course(input, 0, buffer.Length, events, 0)
      {
        var e := events[i];
        if !e.Arrives? {
          return if e.Closes? && headerDone && !e.keepAlive then Success else Failed, headerDone, p, i;
        }
        if e.n == 0 || p == |input| {
          return Waiting, headerDone, p, i;
        }
        var tooLarge;
        headerDone, offset, tooLarge, p := Arrive(input, p, e.n, headerDone, offset, old(fed));
        if tooLarge {
          return HeaderTooLarge, headerDone, p, i;
        }
        if headerDone && e.verdict != More {
          return if e.verdict == Complete then Success else Failed, headerDone, p, i;
        }
        i := i + 1;
      }
      r := Waiting;
    }
  }
}
