// Pieces of runs: what a producer or the consumer achieves when it is left to
// go on alone from a given point.
module MpscSchedules {
  import opened Prelude
  import opened MpscState
  import opened MpscInvariant
  import opened MpscProducers
  import opened MpscConsumer
  import opened MpscRuns
  import opened MpscQueue

  type Run = seq<State<nat>>

  lemma Go(run: Run, p: Pid) returns (run': Run)
    requires LimitedRun(run) && p in Last(run).producers
    ensures Safe(Last(run), Last(run).producers[p]) && LimitedRun(run') && Last(run') == Advance(Last(run), p)
  {
    StepFacts(run, p);
    run' := run + [Advance(Last(run), p)];
  }

  lemma Begin(run: Run, p: Pid, item: nat) returns (run': Run)
    requires LimitedRun(run) && CanReserve(Last(run), p) && Last(run).tail < Limit(Last(run).bufferSize)
    ensures LimitedRun(run') && Last(run') == Reserve(Last(run), p, item)
  {
    ExtendRun(run, Reserve(Last(run), p, item));
    run' := run + [Reserve(Last(run), p, item)];
  }

  function Tickets(n: nat): (ts: seq<Ticket<nat>>)
    ensures |ts| == n && forall i :: 0 <= i < n ==> ts[i] == Ticket(i, i)
  {
    seq(n, i requires 0 <= i => Ticket(i, i))
  }

  function Waiters(n: nat): map<Pid, Producer<nat>> {
    map q: nat | 0 <= q < n :: Producer(q, q, false, LoadTail)
  }

  // Producers 0 to n - 1 have each reserved a location.
  function Reserved(size: nat, n: nat): State<nat> {
    Initial<nat>(size).(tail := n, log := Tickets(n), producers := Waiters(n))
  }

  lemma ReserveOne(size: nat, n: nat)
    requires 0 < size && n < U32
    ensures CanReserve(Reserved(size, n), n) && Reserve(Reserved(size, n), n, n) == Reserved(size, n + 1)
  {
    assert Tickets(n + 1) == Tickets(n) + [Ticket(n, n)];
    assert Waiters(n + 1) == Waiters(n)[n := Producer(n, n, false, LoadTail)];
  }

  lemma {:induction false} ReserveAll(size: nat, n: nat) returns (run: Run)
    requires 0 < size && n <= Limit(size)
    ensures LimitedRun(run) && Last(run) == Reserved(size, n)
  {
    if n == 0 {
      run := [Initial(size)];
      assert Waiters(0) == map[] && Tickets(0) == [];
    } else {
      run := ReserveAll(size, n - 1);
      LimitFits(size);
      ReserveOne(size, n - 1);
      run := Begin(run, n - 1, n - 1);
    }
  }

  lemma PointFacts(run: Run, p: Pid)
    requires LimitedRun(run) && p in Last(run).producers
    ensures ChainInv(Last(run)) && PointOk(Last(run), Last(run).producers[p])
    ensures Last(run).producers[p].loc < |Last(run).log|
  {
    RunInv(run, |run| - 1);
    assert ProducerOk(Last(run), p);
  }

  lemma ChainAt(s: State<nat>, i: nat)
    requires ChainInv(s) && i < |s.chain|
    ensures BufferOk(s, i) && s.chain[i] in s.heap && s.heap[s.chain[i]] == At(s, i) && At(s, i).position == i + 1
  {
    assert BufferOk(s, i);
  }

  // ------------------------------------------------------- finding a buffer

  // From the top of the loop, with the tail pointer at the (t+1)-th buffer.
  lemma FromTail(run: Run, p: Pid, t: nat) returns (run': Run)
    requires LimitedRun(run)
    requires var s := Last(run);
             p in s.producers && s.producers[p].at.LoadTail? && t < |s.chain| && s.tailOfQueue == s.chain[t]
    ensures LimitedRun(run')
    ensures var s := Last(run); Last(run') == Goto(s, p, Walk(s.chain[t], Times(s.bufferSize, t)))
  {
    var s := Last(run);
    PointFacts(run, p);
    ChainAt(s, t);
    SizesExact(s.bufferSize, t);
    run' := Go(run, p);
  }

  lemma PastEnd(run: Run, p: Pid, t: nat) returns (run': Run)
    requires LimitedRun(run)
    requires var s := Last(run);
             && p in s.producers && t < |s.chain| && s.producers[p].at == Walk(s.chain[t], Times(s.bufferSize, t))
             && Times(s.bufferSize, t + 1) <= s.producers[p].loc
    ensures LimitedRun(run')
    ensures var s := Last(run); Last(run') == Goto(s, p, LoadNext(s.chain[t]))
  {
    var s := Last(run);
    PointFacts(run, p);
    ChainAt(s, t);
    WalkSizes(s, s.producers[p]);
    run' := Go(run, p);
  }

  lemma GotoTwice(s: State<nat>, p: Pid, a: Point, b: Point)
    requires p in s.producers
    ensures Goto(Goto(s, p, a), p, b) == Goto(s, p, b)
  {
    assert s.producers[p := s.producers[p].(at := a)][p := s.producers[p].(at := b)] ==
           s.producers[p := s.producers[p].(at := b)];
  }

  // Beyond the tail buffer: on to the next one, or to an allocation.
  lemma FindNext(run: Run, p: Pid, t: nat) returns (run': Run)
    requires LimitedRun(run)
    requires var s := Last(run);
             && p in s.producers && s.producers[p].at.LoadTail? && t < |s.chain| && s.tailOfQueue == s.chain[t]
             && Times(s.bufferSize, t + 1) <= s.producers[p].loc
    ensures LimitedRun(run')
    ensures var s := Last(run);
            Last(run') ==
              Goto(s, p, if t + 1 < |s.chain| then CasTail(s.chain[t], s.chain[t + 1]) else Alloc(s.chain[t], false))
  {
    var s := Last(run);
    run' := FromTail(run, p, t);
    run' := PastEnd(run', p, t);
    GotoTwice(s, p, Walk(s.chain[t], Times(s.bufferSize, t)), LoadNext(s.chain[t]));
    PointFacts(run', p);
    ChainAt(Last(run'), t);
    run' := Go(run', p);
    GotoTwice(s, p, LoadNext(s.chain[t]), Alloc(s.chain[t], false));
    if t + 1 < |s.chain| { GotoTwice(s, p, LoadNext(s.chain[t]), CasTail(s.chain[t], s.chain[t + 1])); }
  }

  // The tail pointer moves on by one buffer.
  lemma AdvanceTail(run: Run, p: Pid, t: nat) returns (run': Run)
    requires LimitedRun(run)
    requires var s := Last(run);
             && p in s.producers && s.producers[p].at.LoadTail? && t + 1 < |s.chain| && s.tailOfQueue == s.chain[t]
             && Times(s.bufferSize, t + 1) <= s.producers[p].loc
    ensures LimitedRun(run')
    ensures var s := Last(run); Last(run') == s.(tailOfQueue := s.chain[t + 1])
  {
    var s := Last(run);
    run' := FindNext(run, p, t);
    run' := Go(run', p);
    GotoTwice(s, p, CasTail(s.chain[t], s.chain[t + 1]), LoadTail);
    assert Goto(s, p, LoadTail).producers == s.producers;
  }

  // What the pieces below keep.
  ghost predicate Kept(s: State<nat>, s': State<nat>) {
    && s'.bufferSize == s.bufferSize && s'.headOfQueue == s.headOfQueue
    && s'.log == s.log && s'.tail == s.tail && s'.consumed == s.consumed
    && s.chain <= s'.chain
    && (forall i :: 0 <= i < |s'.chain| ==> At(s', i).head == if i < |s.chain| then At(s, i).head else 0)
  }

  lemma KeptTwice(s: State<nat>, t: State<nat>, u: State<nat>)
    requires Kept(s, t) && Kept(t, u)
    ensures Kept(s, u)
  {
    assert forall i :: 0 <= i < |t.chain| ==> At(u, i).head == At(t, i).head;
  }

  // A private buffer is allocated behind the (t+1)-th.
  lemma Allocate(run: Run, p: Pid, t: nat, ahead: bool) returns (run': Run)
    requires LimitedRun(run)
    requires var s := Last(run); p in s.producers && t < |s.chain| && s.producers[p].at == Alloc(s.chain[t], ahead)
    ensures LimitedRun(run')
    ensures var s, s' := Last(run), Last(run');
            && Kept(s, s') && s'.chain == s.chain && s'.tailOfQueue == s.tailOfQueue && s'.published == s.published
            && s'.producers == s.producers[p := s.producers[p].(at := CasNext(s.chain[t], s.nextRef, ahead))]
            && s'.heap == s.heap[s.nextRef := NewBuffer(s.bufferSize, t + 2, Some(s.chain[t]))]
  {
    var s := Last(run);
    PointFacts(run, p);
    ChainAt(s, t);
    run' := Go(run, p);
    var s' := Last(run');
    forall i | 0 <= i < |s.chain| ensures At(s', i) == At(s, i) { ChainAt(s, i); }
  }

  // The private buffer becomes the last one.
  lemma LinkStep(run: Run, p: Pid, t: nat, r: Ref) returns (run': Run)
    requires LimitedRun(run)
    requires var s := Last(run);
             && p in s.producers && t + 1 == |s.chain| && s.producers[p].at == CasNext(s.chain[t], r, false)
    ensures LimitedRun(run')
    ensures var s, s' := Last(run), Last(run');
            && Kept(s, s') && s'.chain == s.chain + [r]
            && s'.tailOfQueue == s.tailOfQueue && s'.published == s.published
            && s'.producers == s.producers[p := s.producers[p].(at := StoreTail(r))]
  {
    var s := Last(run);
    PointFacts(run, p);
    ChainAt(s, t);
    run' := Go(run, p);
    var s' := Last(run');
    forall i | 0 <= i < |s.chain| ensures At(s', i).head == At(s, i).head { ChainAt(s, i); }
  }

  // A new last buffer is linked; the tail pointer is not stored yet.
  lemma LinkLast(run: Run, p: Pid, t: nat) returns (run': Run)
    requires LimitedRun(run)
    requires var s := Last(run);
             && p in s.producers && s.producers[p].at.LoadTail? && t + 1 == |s.chain| && s.tailOfQueue == s.chain[t]
             && Times(s.bufferSize, t + 1) <= s.producers[p].loc
    ensures LimitedRun(run')
    ensures var s, s' := Last(run), Last(run');
            && Kept(s, s') && |s'.chain| == |s.chain| + 1
            && s'.tailOfQueue == s.tailOfQueue && s'.published == s.published
            && s'.producers == s.producers[p := s.producers[p].(at := StoreTail(s'.chain[t + 1]))]
  {
    var s := Last(run);
    run' := FindNext(run, p, t);
    var a := Last(run');
    assert forall i :: 0 <= i < |s.chain| ==> At(a, i) == At(s, i);
    run' := Allocate(run', p, t, false);
    var b := Last(run');
    KeptTwice(s, a, b);
    run' := LinkStep(run', p, t, a.nextRef);
    KeptTwice(s, b, Last(run'));
  }

  lemma StoreLate(run: Run, p: Pid, r: Ref) returns (run': Run)
    requires LimitedRun(run) && p in Last(run).producers && Last(run).producers[p].at == StoreTail(r)
    ensures LimitedRun(run') && Last(run') == Goto(Last(run).(tailOfQueue := r), p, LoadTail)
  {
    run' := Go(run, p);
  }

  // ------------------------------------------------------------- publishing

  // The location lies in the (i+1)-th buffer.
  predicate LiesIn(s: State<nat>, loc: nat, i: nat) {
    Times(s.bufferSize, i) <= loc < Times(s.bufferSize, i + 1)
  }

  // Walking back from the (t+1)-th to the (i+1)-th buffer.
  lemma {:induction false} WalkHome(run: Run, p: Pid, t: nat, i: nat) returns (run': Run)
    requires LimitedRun(run) && i <= t
    requires var s := Last(run);
             && p in s.producers && t < |s.chain| && s.producers[p].at == Walk(s.chain[t], Times(s.bufferSize, t))
             && LiesIn(s, s.producers[p].loc, i)
    ensures LimitedRun(run')
    ensures var s := Last(run);
            var pr := s.producers[p];
            Last(run') == s.(producers := s.producers[p :=
              pr.(goBack := pr.goBack || i < t, at := Walk(s.chain[i], Times(s.bufferSize, i)))])
    decreases t
  {
    var s := Last(run);
    if i == t {
      run' := run;
      assert s.producers[p := s.producers[p]] == s.producers;
    } else {
      PointFacts(run, p);
      ChainAt(s, t);
      ChainAt(s, t - 1);
      WalkSizes(s, s.producers[p]);
      TimesGap(s.bufferSize, i, t);
      run' := Go(run, p);
      run' := WalkHome(run', p, t - 1, i);
    }
  }

  // The data is written into its slot.
  lemma WriteSlot(run: Run, p: Pid, i: nat) returns (run': Run)
    requires LimitedRun(run)
    requires var s := Last(run);
             && p in s.producers && i < |s.chain| && s.producers[p].at == Walk(s.chain[i], Times(s.bufferSize, i))
             && LiesIn(s, s.producers[p].loc, i)
    ensures LimitedRun(run')
    ensures var s, s' := Last(run), Last(run');
            var pr := s.producers[p];
            && Kept(s, s') && s'.chain == s.chain && s'.tailOfQueue == s.tailOfQueue && s'.published == s.published
            && s'.producers == s.producers[p := pr.(at := Publish(s.chain[i], pr.loc - Times(s.bufferSize, i)))]
  {
    var s := Last(run);
    PointFacts(run, p);
    ChainAt(s, i);
    WalkSizes(s, s.producers[p]);
    run' := Go(run, p);
    var s' := Last(run');
    forall k | 0 <= k < |s.chain| ensures At(s', k).head == At(s, k).head { ChainAt(s, k); }
  }

  // The slot is set; a look-ahead allocation may follow.
  lemma SetSlot(run: Run, p: Pid, i: nat, index: nat) returns (run': Run)
    requires LimitedRun(run)
    requires var s := Last(run); p in s.producers && i < |s.chain| && s.producers[p].at == Publish(s.chain[i], index)
    ensures LimitedRun(run')
    ensures var s, s' := Last(run), Last(run');
            var pr := s.producers[p];
            && Kept(s, s') && s'.chain == s.chain
            && s'.tailOfQueue == s.tailOfQueue && s'.published == s.published + {pr.loc}
            && s'.producers == if index == 1 && !pr.goBack then s.producers[p := pr.(at := Alloc(s.chain[i], true))]
                               else s.producers - {p}
  {
    var s := Last(run);
    PointFacts(run, p);
    ChainAt(s, i);
    run' := Go(run, p);
    var s' := Last(run');
    forall k | 0 <= k < |s.chain| ensures At(s', k).head == At(s, k).head { ChainAt(s, k); }
  }

  // A look-ahead allocation behind a buffer that has a successor is freed.
  lemma Discard(run: Run, p: Pid, i: nat) returns (run': Run)
    requires LimitedRun(run)
    requires var s := Last(run); p in s.producers && i + 1 < |s.chain| && s.producers[p].at == Alloc(s.chain[i], true)
    ensures LimitedRun(run')
    ensures var s, s' := Last(run), Last(run');
            && Kept(s, s') && s'.chain == s.chain && s'.tailOfQueue == s.tailOfQueue && s'.published == s.published
            && s'.producers == s.producers - {p}
  {
    var s := Last(run);
    run' := Allocate(run, p, i, true);
    var a := Last(run');
    PointFacts(run', p);
    ChainAt(a, i);
    run' := Go(run', p);
    var b := Last(run');
    assert b.producers == s.producers - {p};
    forall k | 0 <= k < |a.chain| ensures At(b, k) == At(a, k) { ChainAt(a, k); assert a.chain[k] in a.chain; }
    KeptTwice(s, a, b);
  }

  // p's item is published and p is done.
  ghost predicate Done(s: State<nat>, s': State<nat>, p: Pid)
    requires p in s.producers
  {
    && Kept(s, s') && s'.chain == s.chain && s'.tailOfQueue == s.tailOfQueue
    && s'.published == s.published + {s.producers[p].loc} && s'.producers == s.producers - {p}
  }

  lemma PublishItem(run: Run, p: Pid, t: nat, i: nat) returns (run': Run)
    requires LimitedRun(run) && i <= t
    requires var s := Last(run);
             && p in s.producers && s.producers[p].at.LoadTail? && t < |s.chain| && s.tailOfQueue == s.chain[t]
             && LiesIn(s, s.producers[p].loc, i)
             && (s.producers[p].loc == Times(s.bufferSize, i) + 1 ==> i + 1 < |s.chain|)
    ensures LimitedRun(run') && Done(Last(run), Last(run'), p)
  {
    var s := Last(run);
    var pr := s.producers[p];
    run' := FromTail(run, p, t);
    run' := WalkHome(run', p, t, i);
    var a := Last(run');
    assert a == s.(producers := s.producers[p := a.producers[p]]);
    assert forall k :: 0 <= k < |s.chain| ==> At(a, k) == At(s, k);
    run' := WriteSlot(run', p, i);
    var b := Last(run');
    KeptTwice(s, a, b);
    run' := SetSlot(run', p, i, pr.loc - Times(s.bufferSize, i));
    var c := Last(run');
    KeptTwice(s, b, c);
    if p in c.producers {
      run' := Discard(run', p, i);
      KeptTwice(s, c, Last(run'));
    }
    assert Last(run').producers == s.producers - {p};
  }

  // A producer that has reserved location q, for item q, and done nothing else.
  ghost predicate Waiting(s: State<nat>, q: Pid) {
    q in s.producers && s.producers[q] == Producer(q, q, false, LoadTail)
  }

  // The items lo to hi - 1 are published and their producers done.
  ghost predicate DoneRange(s: State<nat>, s': State<nat>, lo: nat, hi: nat) {
    && Kept(s, s') && s'.chain == s.chain && s'.tailOfQueue == s.tailOfQueue
    && (forall l :: l in s'.published <==> l in s.published || lo <= l < hi)
    && (forall q :: q in s'.producers <==> q in s.producers && !(lo <= q < hi))
    && (forall q :: q in s'.producers ==> s'.producers[q] == s.producers[q])
  }

  lemma DoneOne(s: State<nat>, s': State<nat>, p: Pid)
    requires Waiting(s, p) && Done(s, s', p)
    ensures DoneRange(s, s', p, p + 1)
  {
  }

  lemma DoneMore(s: State<nat>, t: State<nat>, u: State<nat>, lo: nat, mid: nat, hi: nat)
    requires lo <= mid <= hi && DoneRange(s, t, lo, mid) && DoneRange(t, u, mid, hi)
    ensures DoneRange(s, u, lo, hi)
  {
    KeptTwice(s, t, u);
  }

  // Waiting producers of one buffer at or before the tail buffer publish in turn.
  lemma {:induction false} PublishRange(run: Run, lo: nat, hi: nat, t: nat, i: nat) returns (run': Run)
    requires LimitedRun(run) && i <= t && lo <= hi
    requires var s := Last(run);
             && t < |s.chain| && i + 1 < |s.chain| && s.tailOfQueue == s.chain[t]
             && Times(s.bufferSize, i) <= lo && hi <= Times(s.bufferSize, i + 1)
    requires forall q :: lo <= q < hi ==> Waiting(Last(run), q)
    ensures LimitedRun(run') && DoneRange(Last(run), Last(run'), lo, hi)
    decreases hi - lo
  {
    if lo == hi {
      run' := run;
    } else {
      var s := Last(run);
      assert Waiting(s, lo);
      run' := PublishItem(run, lo, t, i);
      DoneOne(s, Last(run'), lo);
      var mid := Last(run');
      forall q | lo + 1 <= q < hi ensures Waiting(mid, q) { assert Waiting(s, q); }
      run' := PublishRange(run', lo + 1, hi, t, i);
      DoneMore(s, mid, Last(run'), lo, lo + 1, hi);
    }
  }

  // -------------------------------------------------------------- consuming

  // The locations lo to hi - 1 are consumed; nothing else a producer sees changes.
  ghost predicate Took(s: State<nat>, s': State<nat>, lo: nat, hi: nat) {
    && s' == s.(heap := s'.heap, headOfQueue := s'.headOfQueue, consumed := s'.consumed)
    && (forall l :: l in s'.consumed <==> l in s.consumed || lo <= l < hi)
  }

  lemma TakeHeadItem(run: Run, i: nat, j: nat) returns (run': Run)
    requires LimitedRun(run)
    requires var s := Last(run);
             && i < |s.chain| && s.headOfQueue == s.chain[i] && At(s, i).head == j < s.bufferSize
             && Loc(s.bufferSize, i, j) in s.published && Loc(s.bufferSize, i, j) !in s.consumed
    ensures LimitedRun(run')
    ensures var s, s', l := Last(run), Last(run'), Loc(Last(run).bufferSize, i, j);
            && Took(s, s', l, l + 1) && s'.headOfQueue == s.headOfQueue
            && At(s', i).head == j + 1 && forall k :: 0 <= k < |s.chain| && k != i ==> At(s', k) == At(s, k)
  {
    var s := Last(run);
    Memory(run);
    ChainAt(s, i);
    assert SlotOk(s, i, j);
    ExtendTakeHead(run);
    run' := run + [TakeHead(s)];
    forall k | 0 <= k < |s.chain| && k != i ensures At(TakeHead(s), k) == At(s, k) { ChainAt(s, k); }
  }

  // The rest of the head buffer is taken.
  lemma {:induction false} TakeHeads(run: Run, i: nat, j: nat) returns (run': Run)
    requires LimitedRun(run)
    requires var s := Last(run);
             && i < |s.chain| && s.headOfQueue == s.chain[i] && At(s, i).head == j <= s.bufferSize
             && forall l :: Loc(s.bufferSize, i, j) <= l < Times(s.bufferSize, i + 1) ==>
                  l in s.published && l !in s.consumed
    ensures LimitedRun(run')
    ensures var s, s' := Last(run), Last(run');
            && Took(s, s', Loc(s.bufferSize, i, j), Times(s.bufferSize, i + 1)) && s'.headOfQueue == s.headOfQueue
            && At(s', i).head == s.bufferSize && forall k :: 0 <= k < |s.chain| && k != i ==> At(s', k) == At(s, k)
    decreases Last(run).bufferSize - j
  {
    run' := run;
    if j < Last(run).bufferSize {
      run' := TakeHeadItem(run, i, j);
      run' := TakeHeads(run', i, j + 1);
    }
  }

  lemma DropUsed(run: Run, i: nat) returns (run': Run)
    requires LimitedRun(run)
    requires var s := Last(run);
             && i + 1 < |s.chain| && s.headOfQueue == s.chain[i] != s.tailOfQueue && At(s, i).head == s.bufferSize
    ensures LimitedRun(run') && Last(run') == Last(run).(headOfQueue := Last(run).chain[i + 1])
  {
    Memory(run);
    ChainAt(Last(run), i);
    ExtendDrop(run);
    run' := run + [Drop(Last(run))];
  }

  // With the head slot still open, the lowest pending item is taken from behind.
  lemma TakeAheadItem(run: Run, i: nat, j: nat) returns (run': Run)
    requires LimitedRun(run)
    requires var s := Last(run);
             && i < |s.chain| && j < s.bufferSize && Lowest(s, Loc(s.bufferSize, i, j))
             && (s.chain[i] == s.headOfQueue ==> At(s, i).head < j)
    ensures LimitedRun(run')
    ensures var s, s', l := Last(run), Last(run'), Loc(Last(run).bufferSize, i, j);
            && Took(s, s', l, l + 1) && s'.headOfQueue == s.headOfQueue
            && s.headOfQueue in s.heap && s.headOfQueue in s'.heap
            && s'.heap[s.headOfQueue].head == s.heap[s.headOfQueue].head
  {
    var s := Last(run);
    Memory(run);
    ChainAt(s, i);
    assert SlotOk(s, i, j);
    forall k, n
      | 0 <= k < |s.chain| && At(s, k).head <= n < s.bufferSize && Loc(s.bufferSize, k, n) < Loc(s.bufferSize, i, j)
      ensures At(s, k).curr[n].isSet != 1
    {
      assert SlotOk(s, k, n);
    }
    ExtendTakeAhead(run, s.chain[i], j);
    run' := run + [TakeAhead(s, s.chain[i], j)];
  }
}
