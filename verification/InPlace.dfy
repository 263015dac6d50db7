// Two loops that compact an array into its own front.
module InPlace {
  import opened Prelude

  // --------------------------------------------------- removing row headers

  // Row i of a file of vectors: a header element, then d values.
  function RowStart(i: nat, d: nat): nat {
    i * (d + 1)
  }

  // The first n rows without their headers, end to end.
  function Compacted<T>(s: seq<T>, n: nat, d: nat): (r: seq<T>)
    requires RowStart(n, d) <= |s|
    ensures |r| == n * d
  {
    if n == 0 then []
    else
      RowsFit(n, d);
      Compacted(s, n - 1, d) + s[RowStart(n - 1, d) + 1..RowStart(n, d)]
  }

  lemma RowsFit(n: nat, d: nat)
    requires n > 0
    ensures RowStart(n, d) == RowStart(n - 1, d) + 1 + d && n * d == (n - 1) * d + d && n * d <= RowStart(n, d)
  {
  }

  lemma RowsGrow(i: nat, n: nat, d: nat)
    requires i <= n
    ensures i * d <= n * d && RowStart(i, d) <= RowStart(n, d)
  {
    if i < n {
      RowsGrow(i, n - 1, d);
      RowsFit(n, d);
    }
  }

  // Element i * d + j is the j-th value of row i.
  lemma {:induction false} CompactedAt<T>(s: seq<T>, n: nat, d: nat, i: nat, j: nat)
    requires RowStart(n, d) <= |s| && i < n && j < d
    ensures i * d + j < n * d && RowStart(i, d) + 1 + j < |s|
    ensures Compacted(s, n, d)[i * d + j] == s[RowStart(i, d) + 1 + j]
  {
    RowsFit(n, d);
    RowsGrow(i + 1, n, d);
    RowsFit(i + 1, d);
    if i < n - 1 { CompactedAt(s, n - 1, d, i, j); }
  }

  // memmove within one array, towards the front.
  method MemMove<T>(x: array<T>, dest: nat, src: nat, len: nat)
    requires dest <= src && src + len <= x.Length
    modifies x
    ensures x[..dest + len] == old(x[..dest] + x[src..src + len])
    ensures forall m :: dest + len <= m < x.Length ==> x[m] == old(x[m])
  {
    for k := 0 to len
      invariant x[..dest] == old(x[..dest]) && x[dest..dest + k] == old(x[src..src + k])
      invariant forall m :: dest + k <= m < x.Length ==> x[m] == old(x[m])
    {
      x[dest + k] := x[src + k];
    }
    assert x[..dest + len] == x[..dest] + x[dest..dest + len];
  }

  // One row moved: the front grows by it and the rest is as it was.
  method MoveRow<T>(x: array<T>, dest: nat, src: nat, len: nat, ghost was: seq<T>)
    requires dest <= src && src + len <= x.Length == |was|
    requires forall m :: dest <= m < x.Length ==> x[m] == was[m]
    modifies x
    ensures x[..dest + len] == old(x[..dest]) + was[src..src + len]
    ensures forall m :: dest + len <= m < x.Length ==> x[m] == was[m]
  {
    assert x[src..src + len] == was[src..src + len];
    MemMove(x, dest, src, len);
  }

  // Rows are shifted in ascending order; no value is overwritten unread.
  method RemoveRowHeaders<T>(x: array<T>, n: nat, d: nat)
    requires x.Length == RowStart(n, d)
    modifies x
    ensures n * d <= x.Length
    ensures x[..n * d] == Compacted(old(x[..]), n, d)
    ensures forall m :: n * d <= m < x.Length ==> x[m] == old(x[m])
  {
    ghost var was := x[..];
    var dest, src := 0, 1;
    for i := 0 to n
      invariant dest == i * d && src == RowStart(i, d) + 1 && dest <= src - 1 <= x.Length
      invariant x[..dest] == Compacted(was, i, d)
      invariant forall m :: dest <= m < x.Length ==> x[m] == was[m]
    {
      RowsFit(i + 1, d);
      RowsGrow(i + 1, n, d);
      MoveRow(x, dest, src, d, was);
      dest, src := dest + d, src + d + 1;
    }
  }

  // ------------------------------------------------------ doubles to floats

  // The first n eight-byte values, each narrowed to four bytes.
  function Narrowed(s: seq<byte>, n: nat, narrow: seq<byte> -> seq<byte>): seq<byte>
    requires 8 * n <= |s|
  {
    if n == 0 then [] else Narrowed(s, n - 1, narrow) + narrow(s[8 * n - 8..8 * n])
  }

  // Float slot i is the narrowing of double i.
  lemma {:induction false} NarrowedAt(s: seq<byte>, n: nat, narrow: seq<byte> -> seq<byte>, i: nat)
    requires 8 * n <= |s| && i < n && forall w :: |narrow(w)| == 4
    ensures |Narrowed(s, n, narrow)| == 4 * n
    ensures Narrowed(s, n, narrow)[4 * i..4 * i + 4] == narrow(s[8 * i..8 * i + 8])
  {
    if n > 1 { NarrowedAt(s, n - 1, narrow, if i < n - 1 then i else 0); }
    if i < n - 1 {
      assert Narrowed(s, n, narrow)[4 * i..4 * i + 4] == Narrowed(s, n - 1, narrow)[4 * i..4 * i + 4];
    }
  }

  lemma NarrowedNext(s: seq<byte>, i: nat, narrow: seq<byte> -> seq<byte>)
    requires 8 * i + 8 <= |s|
    ensures Narrowed(s, i + 1, narrow) == Narrowed(s, i, narrow) + narrow(s[8 * i..8 * i + 8])
  {
  }

  // The vector's own memory is overwritten: float i goes to bytes 4i to 4i + 3
  // after double i has been read from bytes 8i to 8i + 7.
  method NarrowInPlace(memory: array<byte>, n: nat, narrow: seq<byte> -> seq<byte>)
    requires memory.Length == 8 * n && forall w :: |narrow(w)| == 4
    modifies memory
    ensures memory[..4 * n] == Narrowed(old(memory[..]), n, narrow)
    ensures forall m :: 4 * n <= m < 8 * n ==> memory[m] == old(memory[m])
  {
    ghost var was, floats := memory[..], [];
    for i := 0 to n
      invariant floats == Narrowed(was, i, narrow) && memory[..4 * i] == floats
      invariant forall m :: 4 * i <= m < 8 * n ==> memory[m] == was[m]
    {
      NarrowedNext(was, i, narrow);
      NarrowOne(memory, i, narrow, was);
      floats := floats + narrow(was[8 * i..8 * i + 8]);
    }
  }

  method NarrowOne(memory: array<byte>, i: nat, narrow: seq<byte> -> seq<byte>, ghost was: seq<byte>)
    requires 8 * i + 8 <= memory.Length == |was| && forall w :: |narrow(w)| == 4
    requires forall m :: 4 * i <= m < memory.Length ==> memory[m] == was[m]
    modifies memory
    ensures memory[..4 * i + 4] == old(memory[..4 * i]) + narrow(was[8 * i..8 * i + 8])
    ensures forall m :: 4 * i + 4 <= m < memory.Length ==> memory[m] == was[m]
  {
    var float := narrow(memory[8 * i..8 * i + 8]);
    assert memory[8 * i..8 * i + 8] == was[8 * i..8 * i + 8];
    var at := 4 * i;
    memory[at], memory[at + 1], memory[at + 2], memory[at + 3] := float[0], float[1], float[2], float[3];
  }
}
