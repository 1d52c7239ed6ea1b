/** Types shared by every component: octets, optional values and results. */
module Common {
  newtype byte = x: int | 0 <= x < 256

  type Bytes = seq<byte>

  datatype Option<+T> = None | Some(value: T)

  datatype Result<+T, +E> = Ok(value: T) | Err(error: E)

  function Min(a: nat, b: nat): nat {
    if a <= b then a else b
  }

  /** The concatenation of a sequence of byte strings. */
  function Flatten<T>(parts: seq<seq<T>>): (all: seq<T>) {
    if parts == [] then [] else parts[0] + Flatten(parts[1..])
  }

  /** The sum of the lengths of a sequence of byte strings. */
  function Total(parts: seq<Bytes>): (n: nat) {
    if parts == [] then 0 else |parts[0]| + Total(parts[1..])
  }

  lemma {:induction false} FlattenAppend<T>(a: seq<seq<T>>, b: seq<seq<T>>)
    ensures Flatten(a + b) == Flatten(a) + Flatten(b)
  {
    if a == [] {
      assert a + b == b;
    } else {
      var rest, tail, end := a[1..], Flatten(a[1..]), Flatten(b);
      FlattenAppend(rest, b);
      assert (a + b)[1..] == rest + b;
      calc {
        Flatten(a + b);
        a[0] + Flatten(rest + b);
        a[0] + (tail + end);
        (a[0] + tail) + end;
        Flatten(a) + Flatten(b);
      }
    }
  }

  lemma FlattenSnoc<T>(parts: seq<seq<T>>, last: seq<T>)
    ensures Flatten(parts + [last]) == Flatten(parts) + last
  {
    FlattenAppend(parts, [last]);
    assert Flatten([last]) == last;
  }

  lemma {:induction false} TotalAppend(a: seq<Bytes>, b: seq<Bytes>)
    ensures Total(a + b) == Total(a) + Total(b)
  {
    if a == [] {
      assert a + b == b;
    } else {
      TotalAppend(a[1..], b);
      assert (a + b)[1..] == a[1..] + b;
    }
  }

  lemma TotalSnoc(parts: seq<Bytes>, last: Bytes)
    ensures Total(parts + [last]) == Total(parts) + |last|
  {
    TotalAppend(parts, [last]);
    assert Total([last]) == |last| + Total([last][1..]);
  }

  lemma {:induction false} TotalIsLength(parts: seq<Bytes>)
    ensures Total(parts) == |Flatten(parts)|
  {
    if parts != [] {
      TotalIsLength(parts[1..]);
    }
  }
}
