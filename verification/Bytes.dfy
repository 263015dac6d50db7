// Network byte order.
module Bytes {
  import opened Prelude

  const U8_LIMIT := 0x100
  const U16_LIMIT := 0x1_0000
  const U32_LIMIT := 0x1_0000_0000

  // The k-th byte of v, from the low end.
  function Digit(v: nat, k: nat): byte {
    if k == 0 then v % 256 else Digit(v / 256, k - 1)
  }

  // The low 16 or 32 bits, as a narrowing conversion keeps them, high byte first.
  function Put16(v: nat): (bs: seq<byte>)
    ensures |bs| == 2
  {
    seq(2, i requires 0 <= i < 2 => Digit(v, 1 - i))
  }

  function Put32(v: nat): (bs: seq<byte>)
    ensures |bs| == 4
  {
    seq(4, i requires 0 <= i < 4 => Digit(v, 3 - i))
  }

  function Get16(bs: seq<byte>): (v: nat)
    requires |bs| == 2
    ensures v < U16_LIMIT
  {
    256 * (bs[0] as int) + bs[1]
  }

  function Get32(bs: seq<byte>): (v: nat)
    requires |bs| == 4
    ensures v < U32_LIMIT
  {
    U16_LIMIT * (256 * (bs[0] as int) + bs[1]) + 256 * (bs[2] as int) + bs[3]
  }

  // -------------------------------------------------- what the bytes are

  lemma DigitIs(v: nat)
    ensures Digit(v, 0) == v % 256 && Digit(v, 1) == v / 256 % 256
    ensures Digit(v, 2) == v / 0x1_0000 % 256 && Digit(v, 3) == v / 0x100_0000 % 256
  {
    assert Digit(v, 1) == Digit(v / 256, 0) && Digit(v, 2) == Digit(v / 256, 1) == Digit(v / 256 / 256, 0);
    assert Digit(v, 3) == Digit(v / 256, 2) == Digit(v / 256 / 256, 1) == Digit(v / 256 / 256 / 256, 0);
    assert v / 256 / 256 == v / 0x1_0000 && v / 256 / 256 / 256 == v / 0x100_0000;
  }

  // The highest byte comes first.
  lemma Put16Is(v: nat)
    ensures Put16(v) == [v / 256 % 256, v % 256]
  {
    DigitIs(v);
  }

  lemma Put32Is(v: nat)
    ensures Put32(v) == [v / 0x100_0000 % 256, v / 0x1_0000 % 256, v / 256 % 256, v % 256]
  {
    DigitIs(v);
  }

  lemma Get16Is(a: byte, b: byte)
    ensures Get16([a, b]) == (a as int) * 0x100 + b
  {
  }

  lemma Get32Is(a: byte, b: byte, c: byte, d: byte)
    ensures Get32([a, b, c, d]) == (a as int) * 0x100_0000 + (b as int) * 0x1_0000 + (c as int) * 0x100 + d
  {
  }

  lemma RoundTrip16(v: nat)
    ensures Get16(Put16(v)) == v % U16_LIMIT
  {
    assert Digit(v, 1) == v / 256 % 256;
  }

  lemma InWidth16(v: nat)
    requires v < U16_LIMIT
    ensures Get16(Put16(v)) == v
  {
    RoundTrip16(v);
  }

  lemma Remainder(q: nat, r: nat)
    requires r < U32_LIMIT
    ensures (U32_LIMIT * q + r) % U32_LIMIT == r
  {
  }

  lemma FourDigits(v: nat, v1: nat, v2: nat, v3: nat)
    requires v1 == v / 256 && v2 == v1 / 256 && v3 == v2 / 256
    ensures v == U32_LIMIT * (v3 / 256) + (U16_LIMIT * (256 * (v3 % 256) + v2 % 256) + 256 * (v1 % 256) + v % 256)
  {
  }

  lemma RoundTrip32(v: nat)
    ensures Get32(Put32(v)) == v % U32_LIMIT
  {
    var v1 := v / 256;
    var v2 := v1 / 256;
    var v3 := v2 / 256;
    assert Digit(v, 1) == Digit(v1, 0) && Digit(v, 2) == Digit(v1, 1) == Digit(v2, 0);
    assert Digit(v, 3) == Digit(v1, 2) == Digit(v2, 1) == Digit(v3, 0);
    FourDigits(v, v1, v2, v3);
    Remainder(v3 / 256, Get32(Put32(v)));
  }

  lemma InWidth32(v: nat)
    requires v < U32_LIMIT
    ensures Get32(Put32(v)) == v
  {
    RoundTrip32(v);
  }

  // Two's complement in a width of `limit`.
  function Unsigned(v: int, limit: int): (u: nat)
    requires -limit <= 2 * v < limit
    ensures u < limit
  {
    if v < 0 then v + limit else v
  }

  function Signed(u: nat, limit: int): (v: int)
    requires u < limit
    ensures -limit <= 2 * v < limit
    ensures Unsigned(v, limit) == u
  {
    if 2 * u < limit then u else u - limit
  }

  lemma SignedRoundTrip(v: int, limit: int)
    requires -limit <= 2 * v < limit
    ensures Signed(Unsigned(v, limit), limit) == v
  {
  }

  // Counting up from zero, and back to it after the largest width.
  lemma TwosComplement(v: int, limit: int)
    requires -limit <= 2 * v && 2 * (v + 1) < limit
    ensures Unsigned(0, limit) == 0 && Unsigned(v + 1, limit) == (Unsigned(v, limit) + 1) % limit
  {
  }

  // Byte strings end to end.
  function Join(parts: seq<seq<byte>>): seq<byte> {
    if parts == [] then [] else Join(parts[..|parts| - 1]) + parts[|parts| - 1]
  }

  lemma JoinAppend(parts: seq<seq<byte>>, part: seq<byte>)
    ensures Join(parts + [part]) == Join(parts) + part
  {
    assert (parts + [part])[..|parts|] == parts;
  }

  lemma {:induction false} JoinConcat(ps: seq<seq<byte>>, qs: seq<seq<byte>>)
    ensures Join(ps + qs) == Join(ps) + Join(qs)
  {
    if qs == [] {
      assert ps + qs == ps;
    } else {
      var front, q := qs[..|qs| - 1], qs[|qs| - 1];
      JoinConcat(ps, front);
      JoinAppend(ps + front, q);
      assert ps + qs == ps + front + [q];
      assert Join(ps) + Join(front) + q == Join(ps) + (Join(front) + q);
    }
  }

  lemma JoinFirst(parts: seq<seq<byte>>)
    requires parts != []
    ensures Join(parts) == parts[0] + Join(parts[1..])
  {
    JoinAppend([], parts[0]);
    JoinConcat([parts[0]], parts[1..]);
    assert [] + [parts[0]] == [parts[0]] && [parts[0]] + parts[1..] == parts;
  }

  function Each<T>(f: T -> seq<byte>, ts: seq<T>): (parts: seq<seq<byte>>)
    ensures |parts| == |ts| && forall i :: 0 <= i < |ts| ==> parts[i] == f(ts[i])
  {
    seq(|ts|, i requires 0 <= i < |ts| => f(ts[i]))
  }

  function JoinEach<T>(f: T -> seq<byte>, ts: seq<T>): seq<byte> {
    Join(Each(f, ts))
  }

  lemma JoinEachConcat<T>(f: T -> seq<byte>, ts: seq<T>, us: seq<T>)
    ensures JoinEach(f, ts + us) == JoinEach(f, ts) + JoinEach(f, us)
  {
    JoinConcat(Each(f, ts), Each(f, us));
    assert Each(f, ts + us) == Each(f, ts) + Each(f, us);
  }

  lemma JoinEachAppend<T>(f: T -> seq<byte>, ts: seq<T>, t: T)
    ensures JoinEach(f, ts + [t]) == JoinEach(f, ts) + f(t)
  {
    JoinAppend(Each(f, ts), f(t));
    assert Each(f, ts + [t]) == Each(f, ts) + [f(t)];
  }

  lemma JoinEachFirst<T>(f: T -> seq<byte>, ts: seq<T>)
    requires ts != []
    ensures JoinEach(f, ts) == f(ts[0]) + JoinEach(f, ts[1..])
  {
    JoinFirst(Each(f, ts));
    assert Each(f, ts)[1..] == Each(f, ts[1..]);
  }

  lemma JoinEachOne<T>(f: T -> seq<byte>, t: T)
    ensures JoinEach(f, [t]) == f(t)
  {
    JoinAppend([], f(t));
    assert Each(f, [t]) == [f(t)] == [] + [f(t)];
    assert Join([]) + f(t) == f(t);
  }

  // The joined prefix grows by one part.
  lemma JoinEachUpTo<T>(f: T -> seq<byte>, ts: seq<T>, i: nat)
    requires i < |ts|
    ensures JoinEach(f, ts[..i + 1]) == JoinEach(f, ts[..i]) + f(ts[i])
  {
    JoinEachAppend(f, ts[..i], ts[i]);
    assert ts[..i + 1] == ts[..i] + [ts[i]];
  }
}
