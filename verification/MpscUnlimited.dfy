// What holds over every run, with any number of enqueues: sizes and positions
// agree modulo 2^32, and no location is written to its own slot beyond the limit.
module MpscUnlimited {
  import opened MpscState
  import opened MpscInvariant
  import opened MpscProducers
  import opened MpscRuns
  import opened MpscLimit

  // ------------------------------------------------------------- invariant

  // The buffer is older than the next one to be allocated.
  predicate Known<T>(s: State<T>, r: Ref) {
    r < s.nextRef
  }

  predicate BufferKnown<T>(s: State<T>, r: Ref)
    requires r in s.heap
  {
    var b := s.heap[r];
    && Known(s, r) && 1 <= b.position
    && (b.next.Some? ==> Known(s, b.next.value))
    && (b.prev.Some? ==> Known(s, b.prev.value))
    && (b.prev.Some? && b.prev.value in s.heap ==> s.heap[b.prev.value].position + 1 == b.position)
  }

  predicate SizeOk<T>(s: State<T>, pr: Producer<T>) {
    && pr.loc < U32
    && match pr.at
       case LoadTail => true
       case Walk(buf, prevSize) =>
         Known(s, buf) && (buf in s.heap ==> prevSize == Wrap(s.bufferSize * (s.heap[buf].position - 1)))
       case LoadNext(buf) => Known(s, buf)
       case Alloc(buf, _) => Known(s, buf)
       case CasNext(buf, added, _) => Known(s, buf) && Known(s, added)
       case StoreTail(added) => Known(s, added)
       case CasTail(_, next) => Known(s, next)
       case Publish(buf, _) => Known(s, buf)
  }

  // Buffers of which every size fits 32 bits hold only their own locations, and
  // the next one holds none.
  predicate PlaceOk<T>(s: State<T>, w: Write)
    requires s.bufferSize > 0
  {
    && Known(s, w.buf) && w.loc < U32
    && (w.buf in s.heap ==>
          var pos, max := s.heap[w.buf].position, MaxBuffers(s.bufferSize);
          && 1 <= pos && pos != max + 1
          && (pos <= max ==> w.index < s.bufferSize && Loc(s.bufferSize, pos - 1, w.index) == w.loc))
  }

  ghost predicate UnlimitedInv<T>(s: State<T>) {
    && Narrow(s.bufferSize) && Known(s, s.tailOfQueue)
    && (forall r :: r in s.heap ==> BufferKnown(s, r))
    && (forall p :: p in s.producers ==> SizeOk(s, s.producers[p]))
    && (forall k :: 0 <= k < |s.writes| ==> PlaceOk(s, s.writes[k]))
  }

  // ------------------------------------------------------------ what steps do

  // Buffers keep their positions, and no reference is used again.
  ghost predicate PositionsKept<T>(s: State<T>, s': State<T>) {
    && s'.bufferSize == s.bufferSize && s.nextRef <= s'.nextRef
    && forall r :: r in s'.heap && Known(s, r) ==> r in s.heap && s'.heap[r].position == s.heap[r].position
  }

  lemma SizeKept<T>(s: State<T>, s': State<T>, pr: Producer<T>)
    requires SizeOk(s, pr) && PositionsKept(s, s')
    ensures SizeOk(s', pr)
  {
  }

  lemma PlaceKept<T>(s: State<T>, s': State<T>, w: Write)
    requires s.bufferSize > 0 && PositionsKept(s, s') && PlaceOk(s, w)
    ensures PlaceOk(s', w)
  {
  }

  // What is left to show of a step of p: its own record, and its write, if any.
  lemma StepKeeps<T>(s: State<T>, s': State<T>, p: Pid)
    requires UnlimitedInv(s) && PositionsKept(s, s') && Known(s', s'.tailOfQueue)
    requires forall r :: r in s'.heap ==> BufferKnown(s', r)
    requires s'.producers - {p} == s.producers - {p} && (p in s'.producers ==> SizeOk(s', s'.producers[p]))
    requires s'.writes == s.writes ||
             (|s'.writes| == |s.writes| + 1 && s.writes <= s'.writes && PlaceOk(s', s'.writes[|s.writes|]))
    ensures UnlimitedInv(s')
  {
    forall q | q in s'.producers ensures SizeOk(s', s'.producers[q]) {
      if q != p {
        assert q in s'.producers - {p} && (s'.producers - {p})[q] == (s.producers - {p})[q];
        SizeKept(s, s', s.producers[q]);
      }
    }
    forall k | 0 <= k < |s'.writes| ensures PlaceOk(s', s'.writes[k]) {
      if k < |s.writes| { PlaceKept(s, s', s.writes[k]); }
    }
  }

  // --------------------------------------------------------------- arithmetic

  lemma WrapBack(size: nat, k: nat)
    requires 1 <= k
    ensures Wrap(Wrap(size * k) - size) == Wrap(size * (k - 1))
  {
    var x := size * k;
    assert size * (k - 1) == x - size;
    assert x == x / U32 * U32 + Wrap(x);
    assert Wrap(x) - size == (x - size) + (-(x / U32)) * U32;
    WrapShift(x - size, -(x / U32));
  }

  lemma WrapShift(x: int, k: int)
    ensures Wrap(x + k * U32) == Wrap(x)
  {
  }

  // A location between the two sizes the code computes lies in the buffer, if it
  // is one whose sizes fit; the buffer after those has no such location.
  lemma BetweenSizes(size: nat, pos: nat, loc: nat)
    requires Narrow(size) && 1 <= pos && loc < U32
    requires Wrap(size * (pos - 1)) <= loc < Wrap(size + Wrap(size * (pos - 1)))
    ensures var max := MaxBuffers(size);
            && pos != max + 1
            && (pos <= max ==> Wrap(size * (pos - 1)) == Times(size, pos - 1) && loc < Times(size, pos))
  {
    var max := MaxBuffers(size);
    BeyondMax(size);
    WrapPast(size + Limit(size));
    if pos <= max + 1 { SizesExact(size, pos - 1); }
    if pos <= max { SizesExact(size, pos); }
  }

  // -------------------------------------------------------------- every step

  // The step changes p's record and perhaps the tail pointer, in order.
  ghost predicate MovesOn<T>(s: State<T>, s': State<T>, p: Pid) {
    && p in s'.producers
    && s' == s.(tailOfQueue := s'.tailOfQueue, producers := s.producers[p := s'.producers[p]])
    && Known(s, s'.tailOfQueue) && SizeOk(s, s'.producers[p])
  }

  lemma MoveKeeps<T>(s: State<T>, s': State<T>, p: Pid)
    requires UnlimitedInv(s) && MovesOn(s, s', p)
    ensures UnlimitedInv(s')
  {
    forall r | r in s'.heap ensures BufferKnown(s', r) { assert BufferKnown(s, r); }
    SizeKept(s, s', s'.producers[p]);
    StepKeeps(s, s', p);
  }

  lemma TailMovesOn<T>(s: State<T>, p: Pid)
    requires UnlimitedInv(s) && p in s.producers && Safe(s, s.producers[p])
    requires var at := s.producers[p].at; at.LoadTail? || at.StoreTail? || at.CasTail?
    ensures MovesOn(s, Advance(s, p), p)
  {
    assert SizeOk(s, s.producers[p]);
  }

  lemma WalkMovesOn<T>(s: State<T>, p: Pid)
    requires UnlimitedInv(s) && p in s.producers && Safe(s, s.producers[p]) && s.producers[p].at.Walk?
    requires var pr := s.producers[p]; !(pr.at.prevSize <= pr.loc < Wrap(s.bufferSize + pr.at.prevSize))
    ensures MovesOn(s, Advance(s, p), p)
  {
    var pr := s.producers[p];
    assert SizeOk(s, pr);
    if pr.loc < pr.at.prevSize { WalkedBack(s, pr); }
  }

  lemma NextMovesOn<T>(s: State<T>, p: Pid)
    requires UnlimitedInv(s) && p in s.producers && Safe(s, s.producers[p]) && s.producers[p].at.LoadNext?
    ensures MovesOn(s, Advance(s, p), p)
  {
    assert SizeOk(s, s.producers[p]) && BufferKnown(s, s.producers[p].at.buf);
  }

  lemma WalkedBack<T>(s: State<T>, pr: Producer<T>)
    requires UnlimitedInv(s) && pr.at.Walk? && Safe(s, pr) && SizeOk(s, pr) && pr.loc < pr.at.prevSize
    ensures var prev := s.heap[pr.at.buf].prev.value;
            Known(s, prev) && (prev in s.heap ==>
              Wrap(pr.at.prevSize - s.bufferSize) == Wrap(s.bufferSize * (s.heap[prev].position - 1)))
  {
    var b := s.heap[pr.at.buf];
    assert BufferKnown(s, pr.at.buf);
    if b.prev.value in s.heap {
      assert BufferKnown(s, b.prev.value);
      WrapBack(s.bufferSize, b.position - 1);
    }
  }

  lemma NodeKeeps<T>(s: State<T>, s': State<T>, buf: Ref)
    requires UnlimitedInv(s) && buf in s.heap && buf in s'.heap && s'.heap == s.heap[buf := s'.heap[buf]]
    requires s'.bufferSize == s.bufferSize && s'.nextRef == s.nextRef
    requires var b, b' := s.heap[buf], s'.heap[buf];
             b'.position == b.position && b'.prev == b.prev && b'.next == b.next
    ensures PositionsKept(s, s') && forall r :: r in s'.heap ==> BufferKnown(s', r)
  {
    forall r | r in s'.heap ensures BufferKnown(s', r) { assert BufferKnown(s, r); }
  }

  lemma WriteKeeps<T>(s: State<T>, p: Pid)
    requires UnlimitedInv(s) && p in s.producers && Safe(s, s.producers[p]) && s.producers[p].at.Walk?
    requires var pr := s.producers[p]; pr.at.prevSize <= pr.loc < Wrap(s.bufferSize + pr.at.prevSize)
    ensures UnlimitedInv(Advance(s, p))
  {
    var pr, s' := s.producers[p], Advance(s, p);
    assert SizeOk(s, pr) && BufferKnown(s, pr.at.buf);
    BetweenSizes(s.bufferSize, s.heap[pr.at.buf].position, pr.loc);
    NodeKeeps(s, s', pr.at.buf);
    StepKeeps(s, s', p);
  }

  lemma PublishKeeps<T>(s: State<T>, p: Pid)
    requires UnlimitedInv(s) && p in s.producers && Safe(s, s.producers[p]) && s.producers[p].at.Publish?
    ensures UnlimitedInv(Advance(s, p))
  {
    assert SizeOk(s, s.producers[p]);
    NodeKeeps(s, Advance(s, p), s.producers[p].at.buf);
    StepKeeps(s, Advance(s, p), p);
  }

  lemma AllocKeeps<T>(s: State<T>, p: Pid)
    requires UnlimitedInv(s) && p in s.producers && Safe(s, s.producers[p]) && s.producers[p].at.Alloc?
    ensures UnlimitedInv(Advance(s, p))
  {
    var s', buf := Advance(s, p), s.producers[p].at.buf;
    assert SizeOk(s, s.producers[p]) && BufferKnown(s, buf);
    forall r | r in s'.heap ensures BufferKnown(s', r) {
      if r != s.nextRef { assert BufferKnown(s, r); }
    }
    StepKeeps(s, s', p);
  }

  lemma CasKeeps<T>(s: State<T>, p: Pid)
    requires UnlimitedInv(s) && p in s.producers && Safe(s, s.producers[p]) && s.producers[p].at.CasNext?
    ensures UnlimitedInv(Advance(s, p))
  {
    var s' := Advance(s, p);
    assert SizeOk(s, s.producers[p]);
    forall r | r in s'.heap ensures BufferKnown(s', r) { assert BufferKnown(s, r); }
    StepKeeps(s, s', p);
  }

  lemma AdvanceKeeps<T>(s: State<T>, p: Pid)
    requires UnlimitedInv(s) && p in s.producers && Safe(s, s.producers[p])
    ensures UnlimitedInv(Advance(s, p))
  {
    var pr := s.producers[p];
    if pr.at.Publish? {
      PublishKeeps(s, p);
    } else if pr.at.Alloc? {
      AllocKeeps(s, p);
    } else if pr.at.CasNext? {
      CasKeeps(s, p);
    } else if pr.at.Walk? && pr.at.prevSize <= pr.loc < Wrap(s.bufferSize + pr.at.prevSize) {
      WriteKeeps(s, p);
    } else {
      if pr.at.Walk? { WalkMovesOn(s, p); } else if pr.at.LoadNext? { NextMovesOn(s, p); } else { TailMovesOn(s, p); }
      MoveKeeps(s, Advance(s, p), p);
    }
  }

  lemma ReserveKeeps<T>(s: State<T>, p: Pid, item: T)
    requires UnlimitedInv(s) && CanReserve(s, p)
    ensures UnlimitedInv(Reserve(s, p, item))
  {
    var s' := Reserve(s, p, item);
    forall r | r in s'.heap ensures BufferKnown(s', r) { assert BufferKnown(s, r); }
    StepKeeps(s, s', p);
  }

  // The consumer changes only slots, heads and its own pointer.
  lemma ConsumerKeeps<T>(s: State<T>, s': State<T>, buf: Ref)
    requires UnlimitedInv(s) && buf in s.heap && buf in s'.heap && s'.heap == s.heap[buf := s'.heap[buf]]
    requires s' == s.(heap := s'.heap, headOfQueue := s'.headOfQueue, consumed := s'.consumed)
    requires var b, b' := s.heap[buf], s'.heap[buf];
             b'.position == b.position && b'.prev == b.prev && b'.next == b.next
    ensures UnlimitedInv(s')
  {
    NodeKeeps(s, s', buf);
    forall p | p in s.producers ensures SizeOk(s', s.producers[p]) { SizeKept(s, s', s.producers[p]); }
    forall k | 0 <= k < |s.writes| ensures PlaceOk(s', s.writes[k]) { PlaceKept(s, s', s.writes[k]); }
  }

  lemma NextKeeps<T(!new)>(s: State<T>, s': State<T>)
    requires UnlimitedInv(s) && Next(s, s')
    ensures UnlimitedInv(s')
  {
    if p, item :| CanReserve(s, p) && s' == Reserve(s, p, item) {
      ReserveKeeps(s, p, item);
    } else if p :| p in s.producers && Safe(s, s.producers[p]) && s' == Advance(s, p) {
      AdvanceKeeps(s, p);
    } else if buf, index :| CanTakeAhead(s, buf, index) && s' == TakeAhead(s, buf, index) {
      ConsumerKeeps(s, s', buf);
    } else {
      ConsumerKeeps(s, s', s.headOfQueue);
    }
  }

  lemma {:induction false} UnlimitedRunInv<T(!new)>(run: seq<State<T>>, k: nat)
    requires IsRun(run) && k < |run| && Narrow(run[k].bufferSize)
    ensures UnlimitedInv(run[k])
  {
    if k > 0 {
      assert NextAt(run, k - 1);
      StepGrows(run, k - 1);
      UnlimitedRunInv(run, k - 1);
      NextKeeps(run[k - 1], run[k]);
    }
  }

  // In every run, however many enqueues it holds, a location is written to its own
  // slot only below the limit. (Up to the limit it is written nowhere else.)
  lemma OwnSlotOnlyBelowLimit<T(!new)>(run: seq<State<T>>, k: nat, a: nat)
    requires IsRun(run) && k < |run| && Narrow(run[k].bufferSize) && a < |run[k].writes|
    requires var s, w := run[k], run[k].writes[a];
             w.buf in s.heap && 1 <= s.heap[w.buf].position && w.index < s.bufferSize &&
             Loc(s.bufferSize, s.heap[w.buf].position - 1, w.index) == w.loc
    ensures run[k].writes[a].loc < Limit(run[k].bufferSize)
  {
    UnlimitedRunInv(run, k);
    var s, w := run[k], run[k].writes[a];
    assert PlaceOk(s, w);
    var pos, max := s.heap[w.buf].position, MaxBuffers(s.bufferSize);
    BeyondMax(s.bufferSize);
    TimesGap(s.bufferSize, max + 1, pos - 1);
    TimesGap(s.bufferSize, pos - 1, max);
  }

  // The buffer after the last whole one is never written at all, so the locations
  // from the limit to 2^32 are never written where they belong.
  lemma NextBufferNeverWritten<T(!new)>(run: seq<State<T>>, k: nat, a: nat)
    requires IsRun(run) && k < |run| && Narrow(run[k].bufferSize) && a < |run[k].writes|
    requires run[k].writes[a].buf in run[k].heap
    ensures run[k].heap[run[k].writes[a].buf].position != MaxBuffers(run[k].bufferSize) + 1
  {
    UnlimitedRunInv(run, k);
    assert PlaceOk(run[k], run[k].writes[a]);
  }
}
