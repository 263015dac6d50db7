// Where the 32-bit sizes stop being exact: how far the promises of `enqueue` go,
// and what it does beyond.
module MpscLimit {
  import opened MpscState
  import opened MpscInvariant
  import opened MpscProducers
  import opened MpscRuns
  import opened MpscQueue
  import opened MpscSchedules

  // Buffer sizes are 32-bit too.
  predicate Narrow(size: nat) {
    0 < size < U32
  }

  lemma BeyondMax(size: nat)
    requires Narrow(size)
    ensures 0 < MaxBuffers(size) && Limit(size) < U32 <= Times(size, MaxBuffers(size) + 1) == Limit(size) + size
  {
    LimitFits(size);
    TimesIs(size, MaxBuffers(size) + 1);
  }

  lemma WrapPast(x: nat)
    requires U32 <= x < 2 * U32
    ensures Wrap(x) == x - U32
  {
  }

  // ----------------------------------------------------------- one producer

  // p stands at the buffer its location lies in, with the size the code computes.
  predicate AtHome<T>(s: State<T>, p: Pid) {
    && s.bufferSize > 0 && p in s.producers && s.producers[p].at.Walk? && Safe(s, s.producers[p])
    && var pr := s.producers[p];
       var pos := s.heap[pr.at.buf].position;
       && 1 <= pos && pr.at.prevSize == Wrap(s.bufferSize * (pos - 1))
       && Times(s.bufferSize, pos - 1) <= pr.loc < Times(s.bufferSize, pos)
  }

  // p's next step writes its item to its own slot.
  predicate WritesHome<T>(s: State<T>, p: Pid)
    requires AtHome(s, p)
  {
    var pr := s.producers[p];
    var index := pr.loc - Times(s.bufferSize, s.heap[pr.at.buf].position - 1);
    && Advance(s, p).producers[p].at == Publish(pr.at.buf, index)
    && Advance(s, p).writes == s.writes + [Write(pr.at.buf, index, pr.loc)]
  }

  lemma HomeSizes(size: nat, pos: nat, loc: nat)
    requires Narrow(size) && 1 <= pos && Times(size, pos - 1) <= loc < Times(size, pos) && loc < U32
    ensures Wrap(size * (pos - 1)) == Times(size, pos - 1)
    ensures if loc < Limit(size) then Wrap(size + Times(size, pos - 1)) == Times(size, pos)
            else Wrap(size + Times(size, pos - 1)) <= loc
  {
    var max := MaxBuffers(size);
    BeyondMax(size);
    TimesGap(size, max + 1, pos - 1);
    TimesGap(size, pos - 1, max);
    SizesExact(size, pos - 1);
    if pos <= max {
      SizesExact(size, pos);
      TimesGap(size, pos, max);
    } else {
      WrapPast(size + Times(size, pos - 1));
    }
  }

  // In its own buffer a producer writes exactly when its location is below the
  // limit; otherwise it goes on to the next buffer.
  lemma WritesExactlyBelowLimit<T>(s: State<T>, p: Pid)
    requires AtHome(s, p) && Narrow(s.bufferSize) && s.producers[p].loc < U32
    ensures WritesHome(s, p) <==> s.producers[p].loc < Limit(s.bufferSize)
    ensures Advance(s, p) == Goto(s, p, LoadNext(s.producers[p].at.buf)) <==> s.producers[p].loc >= Limit(s.bufferSize)
  {
    var pr := s.producers[p];
    HomeSizes(s.bufferSize, s.heap[pr.at.buf].position, pr.loc);
  }

  // ----------------------------------------------------------- a failing run

  // One producer links buffers until there are n of them.
  lemma {:induction false} GrowChain(run: Run, p: Pid, n: nat) returns (run': Run)
    requires LimitedRun(run)
    requires var s := Last(run);
             && p in s.producers && s.producers[p].at.LoadTail? && 1 <= |s.chain| <= n
             && s.tailOfQueue == s.chain[|s.chain| - 1] && Times(s.bufferSize, n - 1) <= s.producers[p].loc
    ensures LimitedRun(run')
    ensures var s, s' := Last(run), Last(run');
            && s'.bufferSize == s.bufferSize && s'.tail == s.tail && s'.producers == s.producers
            && |s'.chain| == n && s'.tailOfQueue == s'.chain[n - 1]
    decreases n - |Last(run).chain|
  {
    run' := run;
    var s := Last(run);
    var t := |s.chain| - 1;
    if t + 1 < n {
      TimesGap(s.bufferSize, t + 1, n - 1);
      run' := LinkLast(run, p, t);
      var a := Last(run');
      run' := StoreLate(run', p, a.chain[t + 1]);
      assert Last(run').producers == s.producers;
      run' := GrowChain(run', p, n);
    }
  }

  // All locations below the limit are reserved and the last whole buffer is
  // linked.
  lemma FullChain(size: nat) returns (run: Run)
    requires Narrow(size)
    ensures LimitedRun(run)
    ensures var s := Last(run);
            && s.bufferSize == size && s.tail == Limit(size) && s.producers == Waiters(Limit(size))
            && |s.chain| == MaxBuffers(size) && s.tailOfQueue == s.chain[MaxBuffers(size) - 1]
  {
    BeyondMax(size);
    run := ReserveAll(size, Limit(size));
    run := GrowChain(run, Limit(size) - 1, MaxBuffers(size));
  }

  lemma Step(run: Run, p: Pid) returns (run': Run)
    requires IsRun(run) && p in Last(run).producers && Safe(Last(run), Last(run).producers[p])
    ensures IsRun(run') && Last(run') == Advance(Last(run), p)
  {
    ExtendStep(run, p);
    run' := run + [Advance(Last(run), p)];
  }

  // The next location is reserved and its owner goes to the end of the chain.
  lemma ReserveBeyond(size: nat) returns (run: Run, r: Ref)
    requires Narrow(size)
    ensures IsRun(run)
    ensures var s, p := Last(run), Limit(size);
            && s.bufferSize == size && s.tail == p + 1 && r in s.heap && r < s.nextRef
            && s.heap[r].position == MaxBuffers(size) && s.heap[r].next.None?
            && p in s.producers && s.producers[p] == Producer(p, p, false, LoadNext(r))
  {
    BeyondMax(size);
    var p, max := Limit(size), MaxBuffers(size);
    run := FullChain(size);
    var s := Last(run);
    Memory(run);
    ChainAt(s, max - 1);
    r := s.tailOfQueue;
    ExtendRun(run, Reserve(s, p, p));
    run := run + [Reserve(s, p, p)];
    SizesExact(size, max - 1);
    SizesExact(size, max);
    run := Step(run, p);
    assert Last(run).producers[p].at == Walk(r, Times(size, max - 1));
    run := Step(run, p);
  }

  // It links the buffer its location lies in and moves the tail there, ...
  lemma LinkBeyond(size: nat) returns (run: Run, r: Ref)
    requires Narrow(size)
    ensures IsRun(run)
    ensures var s, p := Last(run), Limit(size);
            && s.bufferSize == size && s.tail == p + 1 && r in s.heap && s.tailOfQueue == r
            && s.heap[r].position == MaxBuffers(size) + 1 && |s.heap[r].curr| == size
            && p in s.producers && s.producers[p] == Producer(p, p, false, LoadTail)
  {
    var last;
    run, last := ReserveBeyond(size);
    var p := Limit(size);
    run := Step(run, p);
    run := Step(run, p);
    r := Last(run).producers[p].at.added;
    run := Step(run, p);
    run := Step(run, p);
  }

  // ... and there it does not write. This is so for every buffer size.
  lemma LimitStopsEnqueue(size: nat) returns (run: Run)
    requires Narrow(size)
    ensures IsRun(run)
    ensures var s, p := Last(run), Limit(size);
            && s.bufferSize == size && s.tail == p + 1 && AtHome(s, p) && s.producers[p].loc == p
            && !WritesHome(s, p) && Advance(s, p) == Goto(s, p, LoadNext(s.producers[p].at.buf))
  {
    var r;
    run, r := LinkBeyond(size);
    BeyondMax(size);
    SizesExact(size, MaxBuffers(size));
    run := Step(run, Limit(size));
    HomeSizes(size, MaxBuffers(size) + 1, Limit(size));
    WritesExactlyBelowLimit(Last(run), Limit(size));
  }

  // --------------------------------------------------------- the exact limit

  lemma LimitedWritesHome(run: Run, p: Pid)
    requires LimitedRun(run) && Narrow(Last(run).bufferSize) && AtHome(Last(run), p)
    ensures WritesHome(Last(run), p)
  {
    PointFacts(run, p);
    LimitFits(Last(run).bufferSize);
    WritesExactlyBelowLimit(Last(run), p);
  }

  // After a run with at most n enqueues, p stands in its own buffer.
  ghost predicate StandsHome(run: Run, size: nat, n: nat, p: Pid) {
    IsRun(run) && Last(run).bufferSize == size && Last(run).tail <= n && AtHome(Last(run), p)
  }

  // With n enqueues at most, every producer that stands in its own buffer writes
  // there, in every run, exactly when n does not exceed the limit.
  lemma LimitIsExact(size: nat, n: nat)
    requires Narrow(size)
    ensures (forall run: Run, p :: StandsHome(run, size, n, p) ==> WritesHome(Last(run), p)) <==> n <= Limit(size)
  {
    if n <= Limit(size) {
      forall run: Run, p | StandsHome(run, size, n, p) ensures WritesHome(Last(run), p) {
        LimitedWritesHome(run, p);
      }
    } else {
      var run := LimitStopsEnqueue(size);
      assert StandsHome(run, size, n, Limit(size));
    }
  }

  const NODE_SIZE: nat := 1620

  // For the size the queue is built with, the last 616 locations below 2^32 lie
  // beyond the limit.
  lemma NodeSizeLimit()
    ensures Narrow(NODE_SIZE) && Limit(NODE_SIZE) == U32 - 616
  {
    TimesIs(NODE_SIZE, MaxBuffers(NODE_SIZE));
  }
}
