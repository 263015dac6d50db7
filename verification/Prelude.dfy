// Datatypes shared by the components.
module Prelude {

  datatype Option<+T> = None | Some(value: T)

  // One byte on a socket, in a ring buffer or in a log file.
  type byte = x: int | 0 <= x < 256

  function Min(a: int, b: int): int {
    if a <= b then a else b
  }

  // -------------------------------------------------------------- division

  lemma Multiple(d: int, k: int)
    requires d > 0
    ensures k == 0 || d * k >= d || d * k <= -d
  {
    if k > 0 {
      assert d * k >= d * 1;
    } else if k < 0 {
      assert d * k <= d * -1;
    }
  }

  lemma DivisionIs(x: nat, d: nat, q: nat, r: nat)
    requires x == d * q + r && r < d
    ensures x / d == q
  {
    var k := x / d - q;
    assert d * k == r - x % d by { assert x == d * (x / d) + x % d; }
    Multiple(d, k);
  }

  lemma Nested(x: int, a: int, p: int, h: int, b: int, q: int, r: int)
    requires x == a * h + b && h == p * q + r
    ensures x == (a * p) * q + (a * r + b)
  {
    assert a * (p * q + r) == a * (p * q) + a * r;
    assert a * (p * q) == (a * p) * q;
  }

  lemma Below(a: int, p: int, r: int, b: int)
    requires 0 <= r < p && 0 <= b < a
    ensures 0 <= a * r + b < a * p
  {
    assert 0 <= a * r;
    assert a * (r + 1) <= a * p;
  }

  lemma Parts(x: nat, d: nat)
    requires d > 0
    ensures x == d * (x / d) + x % d
  {
  }

  lemma DivideTwice(x: nat, a: nat, p: nat)
    requires a > 0 && p > 0
    ensures a * p > 0 && x / a / p == x / (a * p)
  {
    var h, b := x / a, x % a;
    var q, r := h / p, h % p;
    Parts(x, a);
    Parts(h, p);
    Below(a, p, r, b);
    Nested(x, a, p, h, b, q, r);
    DivisionIs(x, a * p, q, a * r + b);
  }
}
