// What holds over every run.
module MpscRuns {
  import opened Prelude
  import opened MpscState
  import opened MpscInvariant
  import opened MpscProducers
  import opened MpscConsumer

  lemma NextInv<T(!new)>(s: State<T>, s': State<T>)
    requires Inv(s) && Next(s, s') && WithinLimit(s')
    ensures Inv(s')
  {
    if p, item :| CanReserve(s, p) && s' == Reserve(s, p, item) {
      ReserveInv(s, p, item);
    } else if p :| p in s.producers && Safe(s, s.producers[p]) && s' == Advance(s, p) {
      AdvanceInv(s, p);
    } else if CanSkip(s) && s' == Skip(s) {
      SkipInv(s);
    } else if CanDrop(s) && s' == Drop(s) {
      DropInv(s);
    } else if CanTakeHead(s) && s' == TakeHead(s) {
      TakeHeadInv(s);
    } else {
      var buf, index :| CanTakeAhead(s, buf, index) && s' == TakeAhead(s, buf, index);
      TakeAheadInv(s, buf, index);
    }
  }

  // The invariant holds in every state of every run, as long as no more
  // locations are reserved than the whole buffers below 2^32 hold.
  lemma {:induction false} RunInv<T(!new)>(run: seq<State<T>>, k: nat)
    requires IsRun(run) && k < |run| && WithinLimit(run[k])
    ensures Inv(run[k])
  {
    if k == 0 {
      var size :| size > 0 && run[0] == Initial(size);
      InitialInv<T>(size);
    } else {
      assert NextAt(run, k - 1);
      StepGrows(run, k - 1);
      RunInv(run, k - 1);
      NextInv(run[k - 1], run[k]);
    }
  }

  ghost predicate LimitedRun<T(!new)>(run: seq<State<T>>) {
    IsRun(run) && WithinLimit(run[|run| - 1])
  }

  // In every interleaving the buffers form one doubly linked chain of
  // consecutive positions that holds both ends of the queue.
  lemma ChainInEveryRun<T(!new)>(run: seq<State<T>>, k: nat)
    requires IsRun(run) && k < |run| && WithinLimit(run[k])
    ensures var s := run[k]; Linked(s) && InChain(s, s.headOfQueue) && InChain(s, s.tailOfQueue)
    ensures forall p :: p in run[k].producers ==> Safe(run[k], run[k].producers[p])
  {
    RunInv(run, k);
    forall p | p in run[k].producers ensures Safe(run[k], run[k].producers[p]) { StepIsSafe(run[k], p); }
  }

  // Location L is only ever written to slot L mod N of buffer L div N + 1, so
  // no slot is written twice.
  lemma WrittenOnceInEveryRun<T(!new)>(run: seq<State<T>>, k: nat)
    requires IsRun(run) && k < |run| && WithinLimit(run[k])
    ensures var s := run[k];
            forall a :: 0 <= a < |s.writes| ==>
              && s.bufferSize > 0 && s.writes[a].buf in s.heap
              && s.heap[s.writes[a].buf].position == s.writes[a].loc / s.bufferSize + 1
              && s.writes[a].index == s.writes[a].loc % s.bufferSize
    ensures var s := run[k];
            forall a, b :: 0 <= a < b < |s.writes| ==>
              s.writes[a].buf != s.writes[b].buf || s.writes[a].index != s.writes[b].index
  {
    RunInv(run, k);
    var s := run[k];
    forall a | 0 <= a < |s.writes|
      ensures s.heap[s.writes[a].buf].position == s.writes[a].loc / s.bufferSize + 1
      ensures s.writes[a].index == s.writes[a].loc % s.bufferSize
    {
      var w := s.writes[a];
      assert WriteOk(s, w);
      DivModOfLoc(s.bufferSize, s.heap[w.buf].position - 1, w.index);
    }
  }

  lemma DivModOfLoc(size: nat, i: nat, j: nat)
    requires j < size
    ensures Loc(size, i, j) / size == i && Loc(size, i, j) % size == j
  {
    var l := Loc(size, i, j);
    TimesIs(size, l / size);
    LocInjective(size, i, j, l / size, l % size);
  }

  // Only published items are consumed, none twice, and each producer's items
  // in that producer's own order.
  lemma ConsumedInEveryRun<T(!new)>(run: seq<State<T>>, k: nat)
    requires IsRun(run) && k < |run| && WithinLimit(run[k])
    ensures ConsumedInv(run[k])
  {
    RunInv(run, k);
  }

  // Nothing published is lost: until it is consumed it stays set in its slot,
  // at or after the head of a buffer that has not been dropped.
  lemma NothingLostInEveryRun<T(!new)>(run: seq<State<T>>, k: nat, l: nat) returns (i: nat, j: nat)
    requires IsRun(run) && k < |run| && WithinLimit(run[k]) && l in run[k].published && l !in run[k].consumed
    ensures var s := run[k];
            && l < |s.log| && j < s.bufferSize && Loc(s.bufferSize, i, j) == l
            && s.headOfQueue in s.heap && s.heap[s.headOfQueue].position - 1 <= i < |s.chain|
            && At(s, i).head <= j < |At(s, i).curr| && At(s, i).curr[j] == Node(Some(s.log[l].item), 1)
  {
    RunInv(run, k);
    var s := run[k];
    i, j := LocSplit(s.bufferSize, l, |s.chain|);
    assert SlotOk(s, i, j);
  }

  // A dropped buffer held no unconsumed location.
  lemma DroppedIsConsumed<T(!new)>(run: seq<State<T>>, k: nat, i: nat, j: nat)
    requires IsRun(run) && k < |run| && WithinLimit(run[k]) && j < run[k].bufferSize
    requires run[k].headOfQueue in run[k].heap && i + 1 < run[k].heap[run[k].headOfQueue].position
    ensures Loc(run[k].bufferSize, i, j) in run[k].consumed
  {
    RunInv(run, k);
    assert SlotOk(run[k], i, j);
  }

  ghost predicate Grows<T>(s: State<T>, s': State<T>) {
    && s.consumed <= s'.consumed && s.published <= s'.published && s.log <= s'.log && s.writes <= s'.writes
    && s'.bufferSize == s.bufferSize && s.tail <= s'.tail && s.chain <= s'.chain
  }

  lemma AdvanceGrows<T>(s: State<T>, p: Pid)
    requires p in s.producers && Safe(s, s.producers[p])
    ensures Grows(s, Advance(s, p))
  {
  }

  lemma NextGrows<T(!new)>(s: State<T>, s': State<T>)
    requires Next(s, s')
    ensures Grows(s, s')
  {
    if p :| p in s.producers && Safe(s, s.producers[p]) && s' == Advance(s, p) {
      AdvanceGrows(s, p);
    }
  }

  lemma StepGrows<T(!new)>(run: seq<State<T>>, k: nat)
    requires k + 1 < |run| && NextAt(run, k)
    ensures Grows(run[k], run[k + 1])
  {
    NextGrows(run[k], run[k + 1]);
  }

  // History only grows along a run.
  lemma {:induction false} HistoryGrows<T(!new)>(run: seq<State<T>>, k: nat, n: nat)
    requires IsRun(run) && k <= n < |run|
    ensures Grows(run[k], run[n])
  {
    if k < n {
      HistoryGrows(run, k, n - 1);
      StepGrows(run, n - 1);
    }
  }
}
