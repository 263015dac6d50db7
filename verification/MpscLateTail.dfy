// Runs in which `dequeue` reports an empty queue although an item is published:
// a producer that linked a buffer stores the tail pointer late.
module MpscLateTail {
  import opened MpscState
  import opened MpscInvariant
  import opened MpscRuns
  import opened MpscQueue
  import opened MpscSchedules

  // Room for three buffers.
  predicate Roomy(size: nat) {
    0 < size && 3 <= MaxBuffers(size)
  }

  lemma SmallTimes(size: nat)
    ensures Times(size, 0) == 0 && Times(size, 1) == size && Times(size, 2) == 2 * size && Times(size, 3) == 3 * size
  {
    TimesIs(size, 3);
    TimesIs(size, 2);
  }

  lemma RoomyLimit(size: nat)
    requires Roomy(size)
    ensures 2 * size + 1 <= Limit(size)
  {
    TimesGap(size, 2, MaxBuffers(size));
  }

  // The chain has n buffers, the tail pointer is at the (t+1)-th, the consumer
  // has done nothing.
  ghost predicate Stage(s: State<nat>, size: nat, n: nat, t: nat) {
    && s.bufferSize == size && |s.chain| == n && t < n && s.tailOfQueue == s.chain[t] && s.headOfQueue == s.chain[0]
    && s.consumed == [] && forall i :: 0 <= i < n ==> At(s, i).head == 0
  }

  lemma StageKept(s: State<nat>, s': State<nat>, size: nat, n: nat, t: nat, n': nat)
    requires Stage(s, size, n, t) && Kept(s, s') && |s'.chain| == n' && n <= n' && s'.tailOfQueue == s.tailOfQueue
    ensures Stage(s', size, n', t)
  {
  }

  lemma TailMoved(s: State<nat>, size: nat, n: nat, t: nat, t': nat)
    requires Stage(s, size, n, t) && t' < n
    ensures Stage(s.(tailOfQueue := s.chain[t']), size, n, t')
  {
    var s' := s.(tailOfQueue := s.chain[t']);
    forall i | 0 <= i < n ensures At(s', i).head == 0 { assert At(s', i) == At(s, i); }
  }

  // The owner of location N has linked a second buffer.
  lemma LinkSecond(size: nat) returns (run: Run)
    requires Roomy(size)
    ensures LimitedRun(run)
    ensures var s := Last(run);
            && Stage(s, size, 2, 1) && s.published == {}
            && s.producers == Waiters(2 * size + 1)[size := Producer(size, size, false, StoreTail(s.chain[1]))]
  {
    RoomyLimit(size);
    SmallTimes(size);
    run := ReserveAll(size, 2 * size + 1);
    var a := Last(run);
    assert Stage(a, size, 1, 0);
    run := LinkLast(run, size, 0);
    var b := Last(run);
    StageKept(a, b, size, 1, 0, 2);
    run := AdvanceTail(run, 2 * size, 0);
    TailMoved(b, size, 2, 0, 1);
  }

  // The owner of 2N has linked a third buffer and moved the tail there.
  lemma LinkThird(size: nat) returns (run: Run)
    requires Roomy(size)
    ensures LimitedRun(run)
    ensures var s := Last(run);
            && Stage(s, size, 3, 2) && s.published == {}
            && s.producers == Waiters(2 * size + 1)[size := Producer(size, size, false, StoreTail(s.chain[1]))]
  {
    run := LinkSecond(size);
    SmallTimes(size);
    var a := Last(run);
    run := LinkLast(run, 2 * size, 1);
    var b := Last(run);
    StageKept(a, b, size, 2, 1, 3);
    run := StoreLate(run, 2 * size, b.chain[2]);
    var c := b.(tailOfQueue := b.chain[2]);
    TailMoved(b, size, 3, 1, 2);
    assert forall i :: 0 <= i < 3 ==> At(Last(run), i) == At(c, i);
    assert Last(run).producers == a.producers;
  }

  // Location 2N is published; then the owner of N moves the tail back and
  // publishes too.
  lemma MoveBack(size: nat) returns (run: Run)
    requires Roomy(size)
    ensures LimitedRun(run)
    ensures var s := Last(run);
            && Stage(s, size, 3, 1) && s.published == {size, 2 * size}
            && forall q :: 0 <= q < 2 * size && q != size ==> Waiting(s, q)
  {
    run := LinkThird(size);
    SmallTimes(size);
    var a := Last(run);
    run := PublishItem(run, 2 * size, 2, 2);
    var b := Last(run);
    StageKept(a, b, size, 3, 2, 3);
    run := StoreLate(run, size, b.chain[1]);
    var c := Last(run);
    TailMoved(b, size, 3, 2, 1);
    assert forall i :: 0 <= i < 3 ==> At(c, i) == At(b.(tailOfQueue := b.chain[1]), i);
    assert Stage(c, size, 3, 1);
    run := PublishItem(run, size, 1, 1);
    StageKept(c, Last(run), size, 3, 1, 3);
  }

  // All locations from `first` to 2N are published, 2N in the third buffer, and
  // the tail pointer is back at the second.
  ghost predicate Late(s: State<nat>, size: nat, first: nat) {
    Stage(s, size, 3, 1) && forall l :: l in s.published <==> first <= l <= 2 * size
  }

  lemma PublishAll(size: nat, first: nat) returns (run: Run)
    requires Roomy(size) && first <= size
    ensures LimitedRun(run) && Late(Last(run), size, first)
  {
    run := MoveBack(size);
    SmallTimes(size);
    var a := Last(run);
    run := PublishRange(run, size + 1, 2 * size, 1, 1);
    var b := Last(run);
    StageKept(a, b, size, 3, 1, 3);
    forall q | first <= q < size ensures Waiting(b, q) { assert Waiting(a, q); }
    run := PublishRange(run, first, size, 1, 0);
    StageKept(b, Last(run), size, 3, 1, 3);
  }

  // The consumer has taken everything published below 2N.
  ghost predicate Missed(s: State<nat>, size: nat, first: nat) {
    && s.bufferSize == size && |s.chain| == 3 && s.tailOfQueue == s.chain[1]
    && (forall l :: l in s.published <==> first <= l <= 2 * size)
    && (forall l :: l in s.consumed <==> first <= l < 2 * size)
  }

  lemma MissedIsUsedUp(s: State<nat>, size: nat, first: nat)
    requires ChainInv(s) && 0 < size && first <= size && Missed(s, size, first)
    requires s.headOfQueue == s.chain[0] || s.headOfQueue == s.chain[1]
    ensures TailUsedUp(s) && !NothingPending(s)
  {
    ChainAt(s, 0);
    ChainAt(s, 1);
    SmallTimes(size);
    assert 2 * size in s.published && 2 * size !in s.consumed;
  }

  // For every buffer size with room for three buffers there is a run after which
  // the head buffer is used up and the tail pointer is at it, so `dequeue` finds
  // no item although one is published.
  lemma LateTailHidesItem(size: nat) returns (run: Run)
    requires Roomy(size)
    ensures LimitedRun(run) && Last(run).bufferSize == size
    ensures TailUsedUp(Last(run)) && !NothingPending(Last(run))
    ensures var s := Last(run);
            s.headOfQueue == s.tailOfQueue && s.headOfQueue in s.heap && s.heap[s.headOfQueue].head == size
  {
    run := PublishAll(size, 0);
    var a := Last(run);
    SmallTimes(size);
    run := TakeHeads(run, 0, 0);
    var b := Last(run);
    ChainDistinct(run, 0, 1);
    run := DropUsed(run, 0);
    var c := Last(run);
    assert At(c, 1) == At(b, 1) == At(a, 1);
    run := TakeHeads(run, 1, 0);
    Memory(run);
    MissedIsUsedUp(Last(run), size, 0);
    ChainAt(Last(run), 1);
  }

  lemma ChainDistinct(run: Run, i: nat, j: nat)
    requires LimitedRun(run) && i < j < |Last(run).chain|
    ensures Last(run).chain[i] != Last(run).chain[j]
  {
    Memory(run);
    ChainAt(Last(run), i);
    ChainAt(Last(run), j);
  }

  // The items lo to 2N - 1 are taken from behind the open head slot.
  lemma {:induction false} TakeFromBehind(run: Run, size: nat, lo: nat) returns (run': Run)
    requires LimitedRun(run) && 0 < size && 1 <= lo <= 2 * size
    requires var s := Last(run);
             && s.bufferSize == size && |s.chain| == 3 && s.headOfQueue == s.chain[0] && At(s, 0).head == 0
             && (forall l :: l in s.published <==> 1 <= l <= 2 * size)
             && (forall l :: l in s.consumed <==> 1 <= l < lo)
    ensures LimitedRun(run') && Took(Last(run), Last(run'), lo, 2 * size)
    ensures Last(run').headOfQueue == Last(run).headOfQueue && At(Last(run'), 0).head == 0
    decreases 2 * size - lo
  {
    run' := run;
    if lo < 2 * size {
      var s := Last(run);
      Memory(run);
      ChainAt(s, 0);
      SmallTimes(size);
      var i, j := LocSplit(size, lo, 3);
      run' := TakeAheadItem(run, i, j);
      assert At(Last(run'), 0).head == 0;
      run' := TakeFromBehind(run', size, lo + 1);
    }
  }

  // Likewise with the head slot reserved but empty: the tail buffer lies behind
  // the head buffer, all its slots are handled, and an item is published in the
  // buffer after it.
  lemma LateTailHidesItemBehind(size: nat) returns (run: Run)
    requires Roomy(size)
    ensures LimitedRun(run) && Last(run).bufferSize == size
    ensures TailUsedUp(Last(run)) && !NothingPending(Last(run))
    ensures var s := Last(run);
            && s.headOfQueue in s.heap && s.headOfQueue != s.tailOfQueue
            && var h := s.heap[s.headOfQueue]; h.head < |h.curr| && h.curr[h.head].isSet == 0
  {
    run := PublishAll(size, 1);
    run := TakeFromBehind(run, size, 1);
    var s := Last(run);
    Memory(run);
    MissedIsUsedUp(s, size, 1);
    ChainDistinct(run, 0, 1);
    ChainAt(s, 0);
    assert SlotOk(s, 0, 0) && Loc(size, 0, 0) == 0;
  }
}
