/** Definitions shared by the models of the individual source files. */
module Prelude {

  /** A value that may be absent: the source's null pointers and optional fields. */
  datatype Option<+T> = None | Some(value: T)

  /** One octet of a buffer, a frame or a socket stream. */
  newtype byte = b: int | 0 <= b < 0x100

  /** The number of values of the source's `uint32_t`. */
  const UINT32_RANGE: int := 0x1_0000_0000

  /** A `uint32_t`. */
  type uint32 = n: int | 0 <= n < UINT32_RANGE

  /** The result of storing an arithmetic result in a `uint32_t`. */
  function Wrap32(n: int): (r: uint32)
    ensures 0 <= n < UINT32_RANGE ==> r == n
    ensures 0 <= n ==> r <= n
  {
    n % UINT32_RANGE
  }

  /** Wrapping an operand early does not change a wrapped sum. */
  lemma WrapPlus(a: int, b: int)
    ensures Wrap32(Wrap32(a) + b) == Wrap32(a + b)
  {
    var q := a / UINT32_RANGE;
    assert a == q * UINT32_RANGE + Wrap32(a);
    var c := (a + b) / UINT32_RANGE;
    assert Wrap32(a) + b == (c - q) * UINT32_RANGE + Wrap32(a + b);
  }

  lemma Assoc<T>(a: seq<T>, b: seq<T>, c: seq<T>)
    ensures (a + b) + c == a + (b + c)
  {
  }

  /** The concatenation of a sequence of buffers. */
  function Concat<T>(parts: seq<seq<T>>): seq<T> {
    if parts == [] then [] else parts[0] + Concat(parts[1..])
  }

  lemma {:induction false} ConcatAppend<T>(parts: seq<seq<T>>, last: seq<T>)
    ensures Concat(parts + [last]) == Concat(parts) + last
  {
    if parts == [] {
      assert parts + [last] == [last];
    } else {
      ConcatAppend(parts[1..], last);
      assert (parts + [last])[1..] == parts[1..] + [last];
    }
  }

  /** What every element stands for, one after the other. */
  function Flatten<A, T>(f: A -> seq<T>, xs: seq<A>): seq<T> {
    if xs == [] then [] else f(xs[0]) + Flatten(f, xs[1..])
  }

  lemma {:induction false} FlattenAppend<A, T>(f: A -> seq<T>, xs: seq<A>, x: A)
    ensures Flatten(f, xs + [x]) == Flatten(f, xs) + f(x)
  {
    if xs != [] {
      FlattenAppend(f, xs[1..], x);
      assert (xs + [x])[1..] == xs[1..] + [x];
      Assoc(f(xs[0]), Flatten(f, xs[1..]), f(x));
    }
  }

  /** One step of a loop that appends `f` of each element to `base`. */
  lemma FlattenStep<A, T>(base: seq<T>, f: A -> seq<T>, xs: seq<A>, i: nat)
    requires i < |xs|
    ensures (base + Flatten(f, xs[..i])) + f(xs[i]) == base + Flatten(f, xs[..i + 1])
  {
    FlattenAppend(f, xs[..i], xs[i]);
    assert xs[..i + 1] == xs[..i] + [xs[i]];
    Assoc(base, Flatten(f, xs[..i]), f(xs[i]));
  }
}
