/** Comparison of octet strings, as memcmp does it. */
module Octets {

  type Octet = x: int | 0 <= x < 0x100
  type UInteger16 = x: int | 0 <= x < 0x1_0000
  type Bytes = seq<Octet>

  /** Sign of the first difference. */
  function Memcmp(a: Bytes, b: Bytes): (r: int)
    requires |a| == |b|
    ensures -1 <= r <= 1
    ensures r == 0 <==> a == b
  {
    if a == [] then 0
    else if a[0] < b[0] then -1
    else if a[0] > b[0] then 1
    else
      assert a == [a[0]] + a[1..] && b == [b[0]] + b[1..];
      Memcmp(a[1..], b[1..])
  }

  lemma {:induction false} MemcmpMirrors(a: Bytes, b: Bytes)
    requires |a| == |b|
    ensures Memcmp(b, a) == -Memcmp(a, b)
  {
    if a != [] { MemcmpMirrors(a[1..], b[1..]); }
  }

  lemma {:induction false} MemcmpTransitive(a: Bytes, b: Bytes, c: Bytes)
    requires |a| == |b| == |c|
    requires Memcmp(a, b) < 0 && Memcmp(b, c) < 0
    ensures Memcmp(a, c) < 0
  {
    if a != [] && a[0] == b[0] && b[0] == c[0] { MemcmpTransitive(a[1..], b[1..], c[1..]); }
  }
}
