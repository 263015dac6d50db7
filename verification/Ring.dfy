// Positions in a ring buffer of fixed size; one slot always stays free.
module Ring {
  import opened Prelude

  const SIZE := 4096
  const CAPACITY := SIZE - 1

  type Position = p: int | 0 <= p < SIZE

  function Advance(p: Position, n: nat): Position {
    (p + n) % SIZE
  }

  function Distance(start: Position, current: Position): nat {
    if current < start then current - start + SIZE else current - start
  }

  // The n bytes from p on, going round.
  function Window(d: seq<byte>, p: Position, n: nat): (w: seq<byte>)
    requires |d| == SIZE
    ensures |w| == n && forall k :: 0 <= k < n ==> w[k] == d[Advance(p, k)]
  {
    seq(n, k requires 0 <= k => d[Advance(p, k)])
  }

  // The one or two pieces that hold the bytes from start to current.
  lemma WindowInPieces(d: seq<byte>, start: Position, current: Position)
    requires |d| == SIZE
    ensures Window(d, start, Distance(start, current)) ==
            if current < start then d[start..] + d[..current] else d[start..current]
  {
  }

  lemma AdvanceTwice(p: Position, m: nat, n: nat)
    ensures Advance(Advance(p, m), n) == Advance(p, m + n)
  {
  }

  lemma AdvanceDistance(start: Position, current: Position, n: nat)
    requires Distance(start, current) + n <= CAPACITY
    ensures Distance(start, Advance(current, n)) == Distance(start, current) + n
    ensures Advance(start, Distance(start, current)) == current
  {
  }

  lemma DropDistance(start: Position, current: Position, n: nat)
    requires n <= Distance(start, current)
    ensures Distance(Advance(start, n), current) == Distance(start, current) - n
  {
  }

  lemma WindowSplit(d: seq<byte>, p: Position, m: nat, n: nat)
    requires |d| == SIZE
    ensures Window(d, p, m + n) == Window(d, p, m) + Window(d, Advance(p, m), n)
  {
    forall k | 0 <= k < n ensures Advance(p, m + k) == Advance(Advance(p, m), k) {
      AdvanceTwice(p, m, k);
    }
  }
}
