/** Byte strings as the gateway and the devices exchange them. */
module Bytes {
  import opened Common

  type byte = x: int | 0 <= x < 256

  type bytes = seq<byte>

  /** Concatenation of a list of byte strings, in list order. */
  function Join(parts: seq<bytes>): bytes {
    if parts == [] then [] else parts[0] + Join(parts[1..])
  }

  lemma {:induction false} JoinAppend(a: seq<bytes>, b: seq<bytes>)
    ensures Join(a + b) == Join(a) + Join(b)
  {
    if a == [] {
      assert a + b == b;
    } else {
      JoinAppend(a[1..], b);
      assert (a + b)[0] == a[0] && (a + b)[1..] == a[1..] + b;
      Regroup(a[0], Join(a[1..]), Join(b));
    }
  }

  lemma JoinSnoc(a: seq<bytes>, last: bytes)
    ensures Join(a + [last]) == Join(a) + last
  {
    JoinAppend(a, [last]);
    assert Join([last]) == last + Join([]);
  }
}
