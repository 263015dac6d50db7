// `dequeue` with its search loops, and the queue as an object.
module MpscQueue {
  import opened Prelude
  import opened MpscState
  import opened MpscInvariant
  import opened MpscProducers
  import opened MpscConsumer
  import opened MpscRuns

  ghost predicate NothingPending<T>(s: State<T>) {
    forall l :: l in s.published ==> l in s.consumed
  }

  // A late store has left `tail_of_queue_` at a buffer the consumer has used
  // up, and everything published before that buffer is consumed.
  ghost predicate TailUsedUp<T>(s: State<T>) {
    && s.headOfQueue in s.heap && s.tailOfQueue in s.heap
    && 1 <= s.heap[s.headOfQueue].position <= s.heap[s.tailOfQueue].position
    && var k := s.heap[s.tailOfQueue].position - 1;
       && (forall j :: 0 <= j < s.bufferSize ==> Loc(s.bufferSize, k, j) in s.consumed)
       && (forall l :: 0 <= l < Times(s.bufferSize, k) && l in s.published ==> l in s.consumed)
  }

  lemma ExtendRun<T(!new)>(run: seq<State<T>>, s: State<T>)
    requires IsRun(run) && Next(run[|run| - 1], s)
    ensures IsRun(run + [s])
  {
    var run' := run + [s];
    forall k | 0 <= k < |run'| - 1 ensures NextAt(run', k) {
      if k < |run| - 1 { assert NextAt(run, k); }
    }
  }

  // The shared memory and the producers, without the history.
  function Bare<T>(s: State<T>): State<T> {
    s.(chain := [], log := [], published := {}, consumed := [], writes := [])
  }

  // Two states with the same memory and producers, whatever their histories.
  ghost predicate SameMemory<T>(s: State<T>, m: State<T>) {
    && m.bufferSize == s.bufferSize && m.heap == s.heap && m.nextRef == s.nextRef
    && m.headOfQueue == s.headOfQueue && m.tailOfQueue == s.tailOfQueue
    && m.tail == s.tail && m.producers == s.producers
  }

  lemma WalkUnread<T>(s: State<T>, m: State<T>, p: Pid)
    requires SameMemory(s, m) && p in s.producers && Safe(s, s.producers[p]) && s.producers[p].at.Walk?
    ensures SameMemory(Advance(s, p), Advance(m, p))
  {
  }

  lemma CasUnread<T>(s: State<T>, m: State<T>, p: Pid)
    requires SameMemory(s, m) && p in s.producers && Safe(s, s.producers[p]) && s.producers[p].at.CasNext?
    ensures SameMemory(Advance(s, p), Advance(m, p))
  {
  }

  lemma PublishUnread<T>(s: State<T>, m: State<T>, p: Pid)
    requires SameMemory(s, m) && p in s.producers && Safe(s, s.producers[p]) && s.producers[p].at.Publish?
    ensures SameMemory(Advance(s, p), Advance(m, p))
  {
  }

  // No producer step depends on the history.
  lemma HistoryUnread<T>(s: State<T>, m: State<T>, p: Pid)
    requires SameMemory(s, m) && p in s.producers && Safe(s, s.producers[p])
    ensures Safe(m, m.producers[p]) && SameMemory(Advance(s, p), Advance(m, p))
  {
    match s.producers[p].at
    case Walk(_, _) => WalkUnread(s, m, p);
    case CasNext(_, _, _) => CasUnread(s, m, p);
    case Publish(_, _) => PublishUnread(s, m, p);
    case _ =>
  }

  lemma ScanOne<T>(s: State<T>, buf: Ref, index: nat)
    requires ChainInv(s) && InChain(s, buf) && index < s.bufferSize
    requires ScannedUpTo(s, Loc(s.bufferSize, s.heap[buf].position - 1, index))
    requires index < |s.heap[buf].curr| && s.heap[buf].curr[index].isSet != 1
    ensures ScannedUpTo(s, Loc(s.bufferSize, s.heap[buf].position - 1, index + 1))
  {
    var size, k := s.bufferSize, s.heap[buf].position - 1;
    forall i, j | 0 <= i < |s.chain| && At(s, i).head <= j < size && Loc(size, i, j) < Loc(size, k, index + 1)
      ensures At(s, i).curr[j].isSet != 1
    {
      if Loc(size, i, j) == Loc(size, k, index) { LocInjective(size, i, j, k, index); }
    }
  }

  lemma ScanNextBuffer<T>(s: State<T>, buf: Ref, next: Ref)
    requires ChainInv(s) && InChain(s, buf) && s.heap[buf].next == Some(next)
    requires ScannedUpTo(s, Loc(s.bufferSize, s.heap[buf].position - 1, s.bufferSize))
    ensures InChain(s, next) && s.heap[next].position == s.heap[buf].position + 1
    ensures ScannedUpTo(s, Loc(s.bufferSize, s.heap[next].position - 1, s.heap[next].head))
  {
    var size, k := s.bufferSize, s.heap[buf].position;
    NeighbourInChain(s, buf);
    assert BufferOk(s, k) && At(s, k) == s.heap[next];
    forall i, j | 0 <= i < |s.chain| && At(s, i).head <= j < size && Loc(size, i, j) < Loc(size, k, s.heap[next].head)
      ensures At(s, i).curr[j].isSet != 1
    {
      TimesGap(size, i, k);
      TimesGap(size, k, i);
    }
  }

  lemma ScannedAll<T>(s: State<T>, buf: Ref)
    requires ChainInv(s) && SlotInv(s) && OpenInv(s) && InChain(s, buf) && s.heap[buf].next.None?
    requires ScannedUpTo(s, Loc(s.bufferSize, s.heap[buf].position - 1, s.bufferSize))
    ensures NothingPending(s)
  {
    assert BufferOk(s, s.heap[buf].position - 1);
    ScannedIsConsumed(s, Times(s.bufferSize, |s.chain|));
  }

  function Last<T>(run: seq<State<T>>): State<T>
    requires |run| > 0
  {
    run[|run| - 1]
  }

  // What a call of `dequeue` leaves alone.
  ghost predicate ProducersUntouched<T>(s: State<T>, s': State<T>) {
    s' == s.(heap := s'.heap, headOfQueue := s'.headOfQueue, consumed := s'.consumed)
  }

  // The returned item is the lowest-location one published and not consumed
  // when the call began.
  ghost predicate Returned<T>(s: State<T>, s': State<T>, r: Option<T>) {
    match r
    case None => s'.consumed == s.consumed
    case Some(x) =>
      exists l: nat :: Lowest(s, l) && s'.consumed == s.consumed + [l] && l < |s.log| && s.log[l].item == x
  }

  // Skipping and dropping change neither what is pending nor what is lowest.
  ghost predicate SamePending<T>(s: State<T>, t: State<T>) {
    t.published == s.published && t.consumed == s.consumed && t.log == s.log
  }

  lemma PendingKept<T>(s: State<T>, t: State<T>)
    requires SamePending(s, t)
    ensures NothingPending(t) <==> NothingPending(s)
  {
  }

  lemma ReturnedKept<T>(s: State<T>, t: State<T>, s': State<T>, r: Option<T>)
    requires SamePending(s, t) && Returned(t, s', r)
    ensures Returned(s, s', r) && (r.Some? ==> !NothingPending(s))
  {
    if r.Some? {
      var l: nat :| Lowest(t, l) && s'.consumed == t.consumed + [l] && l < |t.log| && t.log[l].item == r.value;
      assert Lowest(s, l);
    }
  }

  lemma ExtendTakeAhead<T(!new)>(run: seq<State<T>>, buf: Ref, index: nat)
    requires LimitedRun(run) && CanTakeAhead(Last(run), buf, index)
    ensures var s, s' := Last(run), TakeAhead(Last(run), buf, index);
            IsRun(run + [s']) && ProducersUntouched(s, s') && Returned(s, s', s.heap[buf].curr[index].data) &&
            s.heap[buf].curr[index].data.Some?
  {
    var s := Last(run);
    RunInv(run, |run| - 1);
    TakeAheadLowest(s, buf, index);
    TakenItem(s, buf, index);
    ExtendRun(run, TakeAhead(s, buf, index));
  }

  lemma ExtendTakeHead<T(!new)>(run: seq<State<T>>)
    requires LimitedRun(run) && CanTakeHead(Last(run))
    ensures var s, s', h := Last(run), TakeHead(Last(run)), Last(run).heap[Last(run).headOfQueue];
            IsRun(run + [s']) && ProducersUntouched(s, s') && Returned(s, s', h.curr[h.head].data) &&
            h.curr[h.head].data.Some?
  {
    var s := Last(run);
    RunInv(run, |run| - 1);
    TakeHeadLowest(s);
    TakenItem(s, s.headOfQueue, s.heap[s.headOfQueue].head);
    ExtendRun(run, TakeHead(s));
  }

  lemma ExtendSkip<T(!new)>(run: seq<State<T>>)
    requires IsRun(run) && CanSkip(Last(run))
    ensures IsRun(run + [Skip(Last(run))])
  {
    ExtendRun(run, Skip(Last(run)));
  }

  lemma ExtendDrop<T(!new)>(run: seq<State<T>>)
    requires IsRun(run) && CanDrop(Last(run))
    ensures IsRun(run + [Drop(Last(run))])
  {
    ExtendRun(run, Drop(Last(run)));
  }

  // A set slot holds the item reserved for its location.
  lemma TakenItem<T>(s: State<T>, buf: Ref, index: nat)
    requires ChainInv(s) && SlotInv(s) && InChain(s, buf) && index < |s.heap[buf].curr|
    requires s.heap[buf].curr[index].isSet == 1
    ensures var l := Loc(s.bufferSize, s.heap[buf].position - 1, index);
            l < |s.log| && s.heap[buf].curr[index].data == Some(s.log[l].item)
  {
    assert BufferOk(s, s.heap[buf].position - 1);
    assert SlotOk(s, s.heap[buf].position - 1, index);
  }

  lemma ChainFacts<T(!new)>(run: seq<State<T>>)
    requires LimitedRun(run)
    ensures var s := Last(run); ChainInv(s) && InChain(s, s.headOfQueue) && InChain(s, s.tailOfQueue)
  {
    RunInv(run, |run| - 1);
  }

  // What the invariant says of chain, slots and reserved locations.
  lemma Memory<T(!new)>(run: seq<State<T>>)
    requires LimitedRun(run)
    ensures ChainInv(Last(run)) && SlotInv(Last(run)) && OpenInv(Last(run))
  {
    RunInv(run, |run| - 1);
  }

  lemma FrontFacts<T(!new)>(run: seq<State<T>>)
    requires LimitedRun(run) && ChainInv(Last(run))
    ensures var s := Last(run);
            var h := s.heap[s.headOfQueue];
            ScannedUpTo(s, Loc(s.bufferSize, h.position - 1, h.head))
  {
    Memory(run);
    FrontIsScanned(Last(run));
  }

  lemma ScannedAllFacts<T(!new)>(run: seq<State<T>>, buf: Ref)
    requires LimitedRun(run) && ChainInv(Last(run))
    requires var s := Last(run);
             && InChain(s, buf) && s.heap[buf].next.None?
             && ScannedUpTo(s, Loc(s.bufferSize, s.heap[buf].position - 1, s.bufferSize))
    ensures NothingPending(Last(run))
  {
    Memory(run);
    ScannedAll(Last(run), buf);
  }

  // The second scan of `dequeue`: from the head up to the slot just found.
  // With no producer step inside the call it meets no other set slot.
  method Rescan<T>(m: State<T>, tempBuf: Ref, tempHead: nat, ghost s: State<T>) returns (found: bool)
    requires m == Bare(s)
    requires ChainInv(s) && InChain(s, tempBuf) && 0 < tempHead <= s.bufferSize
    requires s.heap[s.headOfQueue].position <= s.heap[tempBuf].position
    requires ScannedUpTo(s, Loc(s.bufferSize, s.heap[tempBuf].position - 1, tempHead - 1))
    ensures !found
  {
    found := false;
    var scanBuf, scanHead := m.headOfQueue, m.heap[m.headOfQueue].head;
    assert BufferOk(s, s.heap[s.headOfQueue].position - 1);
    while scanBuf != tempBuf || scanHead < tempHead - 1
      invariant InChain(s, scanBuf) && s.heap[scanBuf].position <= s.heap[tempBuf].position
      invariant s.heap[scanBuf].head <= scanHead <= s.bufferSize + 1 && !found
      decreases s.heap[tempBuf].position - s.heap[scanBuf].position, s.bufferSize + 1 - scanHead
    {
      ghost var k := s.heap[scanBuf].position - 1;
      assert BufferOk(s, k) && At(s, k) == s.heap[scanBuf];
      NeighbourInChain(s, scanBuf);
      if scanHead >= m.bufferSize {
        scanBuf := m.heap[scanBuf].next.value;
        scanHead := m.heap[scanBuf].head;
        assert BufferOk(s, k + 1) && At(s, k + 1) == s.heap[scanBuf];
      } else {
        TimesGap(s.bufferSize, k, s.heap[tempBuf].position - 1);
        found := found || m.heap[scanBuf].curr[scanHead].isSet == 1;
      }
      scanHead := scanHead + 1;
    }
  }

  // The search inside one buffer, from its `head_`; the flag tells whether
  // every slot passed was handled.
  method SearchBuffer<T>(m: State<T>, buf: Ref, ghost s: State<T>)
    returns (found: bool, index: nat, allHandled: bool)
    requires m == Bare(s)
    requires ChainInv(s) && InChain(s, buf)
    requires ScannedUpTo(s, Loc(s.bufferSize, s.heap[buf].position - 1, s.heap[buf].head))
    ensures found ==> CanTakeAhead(s, buf, index) || (buf == s.headOfQueue && index == s.heap[buf].head)
    ensures found ==> s.heap[buf].head <= index < |s.heap[buf].curr| && s.heap[buf].curr[index].isSet == 1
    ensures found ==> ScannedUpTo(s, Loc(s.bufferSize, s.heap[buf].position - 1, index))
    ensures !found ==> ScannedUpTo(s, Loc(s.bufferSize, s.heap[buf].position - 1, s.bufferSize))
    ensures !found ==> (allHandled <==> AllHandled(s.heap[buf], s.bufferSize))
  {
    assert BufferOk(s, s.heap[buf].position - 1);
    index, allHandled := m.heap[buf].head, true;
    while index < m.bufferSize
      invariant s.heap[buf].head <= index <= s.bufferSize
      invariant ScannedUpTo(s, Loc(s.bufferSize, s.heap[buf].position - 1, index))
      invariant allHandled <==> AllHandled(s.heap[buf], index)
    {
      if m.heap[buf].curr[index].isSet == 1 { return true, index, allHandled; }
      if m.heap[buf].curr[index].isSet == 0 { allHandled := false; }
      ScanOne(s, buf, index);
      index := index + 1;
    }
    found := false;
  }

  // No slot from the buffer's head up to `end` is empty.
  predicate AllHandled<T>(b: BufferList<T>, end: nat) {
    forall j :: b.head <= j < end && j < |b.curr| ==> b.curr[j].isSet != 0
  }

  // The search has passed everything before this buffer, and the tail buffer,
  // if it was among that, is not used up.
  ghost predicate Searching<T>(s: State<T>, buf: Ref)
    requires ChainInv(s)
  {
    && InChain(s, buf) && s.heap[s.headOfQueue].position <= s.heap[buf].position
    && ScannedUpTo(s, Loc(s.bufferSize, s.heap[buf].position - 1, s.heap[buf].head))
    && (s.heap[buf].position > s.heap[s.tailOfQueue].position ==> !TailUsedUp(s))
  }

  datatype Round = Found(index: nat) | GivenUp | MoveTo(next: Ref)

  // One buffer of the search: an item is found, the search gives up at a
  // used-up tail buffer behind the head buffer or at the end of the chain, or it
  // moves on.
  method SearchRound<T(!new)>(m: State<T>, buf: Ref, movedToNewBuffer: bool,
                              ghost s: State<T>, ghost run: seq<State<T>>) returns (r: Round)
    requires m == Bare(s) && LimitedRun(run) && Last(run) == s && ChainInv(s) && Searching(s, buf)
    requires movedToNewBuffer <==> buf != s.headOfQueue
    requires var h := s.heap[s.headOfQueue]; h.head < s.bufferSize && h.head < |h.curr| && h.curr[h.head].isSet == 0
    ensures r.Found? ==> CanTakeAhead(s, buf, r.index) && !TailUsedUp(s)
    ensures r.GivenUp? ==> NothingPending(s) || TailUsedUp(s)
    ensures r.MoveTo? ==> Searching(s, r.next) && s.heap[r.next].position == s.heap[buf].position + 1
  {
    var found, index, allHandled := SearchBuffer(m, buf, s);
    if found {
      ConfirmFound(m, buf, index, s, run);
      return Found(index);
    }
    if allHandled && movedToNewBuffer && buf == m.tailOfQueue {
      HandledTail(run);
      return GivenUp;
    }
    match m.heap[buf].next
    case None =>
      ScannedAllFacts(run, buf);
      return GivenUp;
    case Some(next) =>
      if buf == s.tailOfQueue { OpenTail(run); }
      SearchGoesOn(s, buf, next);
      return MoveTo(next);
  }

  // The slot found is rescanned for; nothing comes before it.
  method ConfirmFound<T(!new)>(m: State<T>, buf: Ref, index: nat, ghost s: State<T>, ghost run: seq<State<T>>)
    requires m == Bare(s) && LimitedRun(run) && Last(run) == s && ChainInv(s) && Searching(s, buf)
    requires s.heap[buf].head <= index < |s.heap[buf].curr| && s.heap[buf].curr[index].isSet == 1
    requires ScannedUpTo(s, Loc(s.bufferSize, s.heap[buf].position - 1, index))
    ensures !TailUsedUp(s)
  {
    FoundBeforeTail(run, buf, index);
    assert BufferOk(s, s.heap[buf].position - 1);
    var other := Rescan(m, buf, index + 1, s);
  }

  lemma SearchGoesOn<T>(s: State<T>, buf: Ref, next: Ref)
    requires ChainInv(s) && Searching(s, buf) && s.heap[buf].next == Some(next)
    requires ScannedUpTo(s, Loc(s.bufferSize, s.heap[buf].position - 1, s.bufferSize))
    requires buf == s.tailOfQueue ==> !TailUsedUp(s)
    ensures Searching(s, next) && s.heap[next].position == s.heap[buf].position + 1
  {
    ScanNextBuffer(s, buf, next);
    SamePosition(s, buf);
  }

  lemma SamePosition<T>(s: State<T>, buf: Ref)
    requires ChainInv(s) && InChain(s, buf)
    ensures s.heap[buf].position == s.heap[s.tailOfQueue].position ==> buf == s.tailOfQueue
  {
  }

  // The head slot is reserved but empty: look for the first set slot behind it.
  method SearchAhead<T(!new)>(m: State<T>, ghost s: State<T>, ghost run: seq<State<T>>)
    returns (found: bool, buf: Ref, index: nat)
    requires m == Bare(s) && LimitedRun(run) && Last(run) == s && HeadOk(s)
    requires var h := s.heap[s.headOfQueue]; h.head < s.bufferSize && h.curr[h.head].isSet == 0
    ensures found ==> CanTakeAhead(s, buf, index) && !TailUsedUp(s)
    ensures !found ==> NothingPending(s) || TailUsedUp(s)
  {
    ChainFacts(run);
    FrontFacts(run);
    buf, index := m.headOfQueue, 0;
    var movedToNewBuffer := false;
    while true
      invariant Searching(s, buf) && (movedToNewBuffer <==> buf != s.headOfQueue)
      decreases |s.chain| - s.heap[buf].position
    {
      var r := SearchRound(m, buf, movedToNewBuffer, s, run);
      match r
      case Found(i) => return true, buf, i;
      case GivenUp => return false, buf, index;
      case MoveTo(next) => buf, movedToNewBuffer := next, true;
    }
  }

  // An item found at or before the tail buffer shows that it is not used up.
  lemma FoundBeforeTail<T(!new)>(run: seq<State<T>>, buf: Ref, index: nat)
    requires LimitedRun(run) && InChain(Last(run), buf)
    requires Last(run).heap[buf].head <= index < |Last(run).heap[buf].curr|
    requires Last(run).heap[buf].curr[index].isSet == 1
    requires Last(run).tailOfQueue in Last(run).heap
    ensures Last(run).heap[buf].position <= Last(run).heap[Last(run).tailOfQueue].position ==> !TailUsedUp(Last(run))
  {
    var s := Last(run);
    Memory(run);
    var i, k := s.heap[buf].position - 1, s.heap[s.tailOfQueue].position - 1;
    assert BufferOk(s, i) && SlotOk(s, i, index);
    TimesGap(s.bufferSize, i, k);
  }

  // A tail buffer behind the head buffer whose open slots are all handled.
  lemma HandledTail<T(!new)>(run: seq<State<T>>)
    requires LimitedRun(run) && ChainInv(Last(run))
    requires var s := Last(run);
             var t := s.heap[s.tailOfQueue];
             && AllHandled(t, s.bufferSize) && s.heap[s.headOfQueue].position <= t.position
             && ScannedUpTo(s, Loc(s.bufferSize, t.position - 1, s.bufferSize))
    ensures TailUsedUp(Last(run))
  {
    var s := Last(run);
    Memory(run);
    var k := s.heap[s.tailOfQueue].position - 1;
    assert BufferOk(s, k) && At(s, k) == s.heap[s.tailOfQueue];
    ScannedIsConsumed(s, Loc(s.bufferSize, k, s.bufferSize));
    forall j | 0 <= j < s.bufferSize ensures Loc(s.bufferSize, k, j) in s.consumed { assert SlotOk(s, k, j); }
  }

  // A tail buffer with an open empty slot.
  lemma OpenTail<T(!new)>(run: seq<State<T>>)
    requires LimitedRun(run) && Last(run).tailOfQueue in Last(run).heap
    requires !AllHandled(Last(run).heap[Last(run).tailOfQueue], Last(run).bufferSize)
    ensures !TailUsedUp(Last(run))
  {
    var s := Last(run);
    Memory(run);
    var t := s.heap[s.tailOfQueue];
    var j :| t.head <= j < s.bufferSize && j < |t.curr| && t.curr[j].isSet == 0;
    assert BufferOk(s, t.position - 1) && SlotOk(s, t.position - 1, j);
  }

  // What `dequeue` relies on when it reads the head and tail buffers.
  predicate HeadOk<T>(s: State<T>) {
    && s.bufferSize > 0 && s.headOfQueue in s.heap && s.tailOfQueue in s.heap
    && var h, t := s.heap[s.headOfQueue], s.heap[s.tailOfQueue];
       && 1 <= h.position <= |s.chain| && |h.curr| == s.bufferSize && h.head <= s.bufferSize
       && 1 <= t.position <= MaxBuffers(s.bufferSize) + 1
  }

  lemma HeadFacts<T(!new)>(run: seq<State<T>>)
    requires LimitedRun(run)
    ensures HeadOk(Last(run))
  {
    Memory(run);
    var s := Last(run);
    assert BufferOk(s, s.heap[s.headOfQueue].position - 1);
  }

  lemma HeadSlotSet<T(!new)>(run: seq<State<T>>)
    requires LimitedRun(run)
    requires var s := Last(run);
             && HeadOk(s)
             && var h := s.heap[s.headOfQueue];
                h.head < |h.curr| && h.curr[h.head].isSet != 0 && h.curr[h.head].isSet != 2
    ensures CanTakeHead(Last(run)) && !TailUsedUp(Last(run))
  {
    Memory(run);
    var s := Last(run);
    assert SlotOk(s, s.heap[s.headOfQueue].position - 1, s.heap[s.headOfQueue].head);
    FoundBeforeTail(run, s.headOfQueue, s.heap[s.headOfQueue].head);
  }

  lemma NoneReserved<T(!new)>(run: seq<State<T>>)
    requires LimitedRun(run)
    requires var s := Last(run);
             && HeadOk(s) && var h := s.heap[s.headOfQueue]; Loc(s.bufferSize, h.position - 1, h.head) == s.tail
    ensures NothingPending(Last(run))
  {
    Memory(run);
    FrontIsScanned(Last(run));
    ScannedIsConsumed(Last(run), Last(run).tail);
  }

  // The head buffer is used up and there is nowhere to go.
  lemma HeadExhausted<T(!new)>(run: seq<State<T>>)
    requires LimitedRun(run)
    requires var s := Last(run); HeadOk(s) && s.heap[s.headOfQueue].head >= s.bufferSize
    ensures var s := Last(run); s.headOfQueue == s.tailOfQueue ==> TailUsedUp(s)
    ensures var s := Last(run); s.heap[s.headOfQueue].next.None? ==> NothingPending(s)
  {
    Memory(run);
    var s := Last(run);
    var h := s.heap[s.headOfQueue];
    assert BufferOk(s, h.position - 1) && At(s, h.position - 1) == h;
    FrontIsScanned(s);
    if h.next.None? { ScannedAll(s, s.headOfQueue); }
    var k := h.position - 1;
    forall j | 0 <= j < s.bufferSize ensures Loc(s.bufferSize, k, j) in s.consumed { assert SlotOk(s, k, j); }
    ScannedIsConsumed(s, Loc(s.bufferSize, h.position - 1, h.head));
  }

  lemma SkipKeepsTail<T>(s: State<T>)
    requires CanSkip(s)
    ensures TailUsedUp(Skip(s)) <==> TailUsedUp(s)
  {
  }

  lemma DropKeepsTail<T(!new)>(run: seq<State<T>>)
    requires LimitedRun(run) && CanDrop(Last(run))
    ensures var s, s' := Last(run), Drop(Last(run));
            && (TailUsedUp(s') <==> TailUsedUp(s))
            && s'.headOfQueue in s'.heap && s'.heap[s'.headOfQueue].position == s.heap[s.headOfQueue].position + 1
  {
    Memory(run);
    NeighbourInChain(Last(run), Last(run).headOfQueue);
  }

  // What a producer step leaves alone.
  lemma AdvanceShape<T>(s: State<T>, p: Pid)
    requires p in s.producers && Safe(s, s.producers[p])
    ensures var s' := Advance(s, p);
            s' == s.(heap := s'.heap, nextRef := s'.nextRef, tailOfQueue := s'.tailOfQueue, producers := s'.producers,
                     chain := s'.chain, published := s'.published, writes := s'.writes)
  {
  }

  lemma StepFacts<T(!new)>(run: seq<State<T>>, p: Pid)
    requires LimitedRun(run) && p in Last(run).producers
    ensures Safe(Last(run), Last(run).producers[p]) && IsRun(run + [Advance(Last(run), p)])
  {
    assert Safe(Last(run), Last(run).producers[p]) by {
      RunInv(run, |run| - 1);
      StepIsSafe(Last(run), p);
    }
    ExtendStep(run, p);
  }

  lemma ExtendStep<T(!new)>(run: seq<State<T>>, p: Pid)
    requires IsRun(run) && p in Last(run).producers && Safe(Last(run), Last(run).producers[p])
    ensures IsRun(run + [Advance(Last(run), p)])
  {
    ExtendRun(run, Advance(Last(run), p));
  }

  // One step on the memory alone, and what it does to the whole state.
  method StepMemory<T>(m: State<T>, p: Pid, ghost s: State<T>) returns (m': State<T>, ghost s': State<T>)
    requires SameMemory(s, m) && p in s.producers && Safe(s, s.producers[p])
    ensures s' == Advance(s, p) && SameMemory(s', m')
    ensures s' == s.(heap := m'.heap, nextRef := m'.nextRef, tailOfQueue := m'.tailOfQueue, producers := m'.producers,
                     chain := s'.chain, published := s'.published, writes := s'.writes)
  {
    HistoryUnread(s, m, p);
    AdvanceShape(s, p);
    m', s' := Advance(m, p), Advance(s, p);
  }

  class MPSCQueue<T(!new)> {
    const bufferSize: nat
    var heap: map<Ref, BufferList<T>>
    var nextRef: Ref
    var headOfQueue: Ref
    var tailOfQueue: Ref
    var tail: nat
    var producers: map<Pid, Producer<T>>
    ghost var chain: seq<Ref>
    ghost var log: seq<Ticket<T>>
    ghost var published: set<nat>
    ghost var consumed: seq<nat>
    ghost var writes: seq<Write>
    ghost var run: seq<State<T>>

    ghost function View(): State<T>
      reads this
    {
      State(bufferSize, heap, nextRef, headOfQueue, tailOfQueue, tail, producers,
            chain, log, published, consumed, writes)
    }

    function Shared(): State<T>
      reads this
    {
      State(bufferSize, heap, nextRef, headOfQueue, tailOfQueue, tail, producers, [], [], {}, [], [])
    }

    // The object's history is a run that ends in its present state.
    ghost predicate Valid()
      reads this
    {
      IsRun(run) && Last(run) == View()
    }

    constructor (size: nat)
      requires size > 0
      ensures Valid() && View() == Initial(size)
    {
      bufferSize, heap, nextRef := size, map[0 := NewBuffer(size, 1, None)], 1;
      headOfQueue, tailOfQueue, tail, producers := 0, 0, 0, map[];
      chain, log, published, consumed, writes := [0], [], {}, [], [];
      run := [Initial(size)];
      new;
      InitialInv<T>(size);
    }

    // The atomic steps of `enqueue`, in any order and by any producers.

    method BeginEnqueue(p: Pid, item: T)
      requires Valid() && CanReserve(View(), p)
      modifies `producers, `tail, `log, `run
      ensures Valid() && old(run) <= run && View() == Reserve(old(View()), p, item)
    {
      ExtendRun(run, Reserve(View(), p, item));
      producers := producers[p := Producer(Wrap(tail), item, false, LoadTail)];
      tail, log := tail + 1, log + [Ticket(p, item)];
      run := run + [View()];
    }

    method EnqueueStep(p: Pid)
      requires Valid() && WithinLimit(View()) && p in producers
      modifies `heap, `nextRef, `tailOfQueue, `producers, `chain, `published, `writes, `run
      ensures old(Safe(View(), producers[p]))
      ensures Valid() && old(run) <= run && View() == Advance(old(View()), p)
    {
      StepFacts(run, p);
      SafeStep(p);
    }

    // Beyond the limit a step is only known to be safe if it is.
    method SafeStep(p: Pid)
      requires Valid() && p in producers && Safe(View(), producers[p])
      modifies `heap, `nextRef, `tailOfQueue, `producers, `chain, `published, `writes, `run
      ensures Valid() && old(run) <= run && View() == Advance(old(View()), p)
    {
      ExtendStep(run, p);
      var m, s := StepMemory(Shared(), p, View());
      heap, nextRef, tailOfQueue, producers := m.heap, m.nextRef, m.tailOfQueue, m.producers;
      chain, published, writes := s.chain, s.published, s.writes;
      run := run + [s];
    }

    method TakeFound(buf: Ref, index: nat) returns (r: Option<T>)
      requires Valid() && WithinLimit(View()) && CanTakeAhead(View(), buf, index)
      modifies `heap, `consumed, `run
      ensures Valid() && old(run) <= run && ProducersUntouched(old(View()), View()) && Returned(old(View()), View(), r)
      ensures r.Some?
    {
      ghost var s := View();
      ExtendTakeAhead(run, buf, index);
      var b := heap[buf];
      r := b.curr[index].data;
      var head' := if buf != headOfQueue && index == b.head then b.head + 1 else b.head;
      heap := heap[buf := b.(curr := b.curr[index := b.curr[index].(isSet := 2)], head := head')];
      consumed := consumed + [Loc(bufferSize, b.position - 1, index)];
      run := run + [View()];
    }

    method TakeFirst() returns (r: Option<T>)
      requires Valid() && WithinLimit(View()) && CanTakeHead(View())
      modifies `heap, `consumed, `run
      ensures Valid() && old(run) <= run && ProducersUntouched(old(View()), View()) && Returned(old(View()), View(), r)
      ensures r.Some?
    {
      ExtendTakeHead(run);
      var h := heap[headOfQueue];
      r := h.curr[h.head].data;
      heap := heap[headOfQueue := h.(head := h.head + 1)];
      consumed := consumed + [Loc(bufferSize, h.position - 1, h.head)];
      run := run + [View()];
    }

    method SkipHandled()
      requires Valid() && WithinLimit(View()) && CanSkip(View())
      modifies `heap, `run
      ensures Valid() && old(run) <= run && View() == Skip(old(View()))
      ensures HeadOk(View()) && (TailUsedUp(View()) <==> TailUsedUp(old(View())))
    {
      ExtendSkip(run);
      SkipKeepsTail(View());
      heap := heap[headOfQueue := heap[headOfQueue].(head := heap[headOfQueue].head + 1)];
      run := run + [View()];
      HeadFacts(run);
    }

    method DropHead()
      requires Valid() && CanDrop(View())
      modifies `headOfQueue, `run
      ensures Valid() && old(run) <= run && View() == Drop(old(View()))
    {
      ExtendDrop(run);
      headOfQueue := heap[headOfQueue].next.value;
      run := run + [View()];
    }

    method IsEmpty() returns (empty: bool)
      requires Valid() && WithinLimit(View()) && HeadOk(View())
      ensures empty ==> NothingPending(View())
      ensures empty <==> headOfQueue == tailOfQueue &&
                         Loc(bufferSize, heap[headOfQueue].position - 1, heap[headOfQueue].head) == tail
    {
      var tempTail := tailOfQueue;
      var prevSize := Wrap(bufferSize * (heap[tempTail].position - 1));
      SizesExact(bufferSize, heap[tempTail].position - 1);
      empty := headOfQueue == tailOfQueue && heap[headOfQueue].head == tail - prevSize;
      if empty { NoneReserved(run); }
    }

    // The head slot is not handled: take it, or search behind it.
    method TakeOne() returns (r: Option<T>)
      requires Valid() && WithinLimit(View()) && HeadOk(View()) && heap[headOfQueue].head < bufferSize
      requires heap[headOfQueue].curr[heap[headOfQueue].head].isSet != 2
      modifies `heap, `consumed, `run
      ensures Valid() && old(run) <= run && ProducersUntouched(old(View()), View())
      ensures Returned(old(View()), View(), r)
      ensures r.None? ==> NothingPending(old(View())) || TailUsedUp(old(View()))
      ensures r.Some? ==> !TailUsedUp(old(View()))
    {
      if heap[headOfQueue].curr[heap[headOfQueue].head].isSet == 0 {
        var found, buf, index := SearchAhead(Shared(), View(), run);
        if !found { return None; }
        r := TakeFound(buf, index);
        return;
      }
      HeadSlotSet(run);
      r := TakeFirst();
    }

    // The head buffer is used up: move to the next one, unless it is the tail.
    method MoveOn() returns (moved: bool)
      requires Valid() && WithinLimit(View()) && HeadOk(View()) && heap[headOfQueue].head >= bufferSize
      modifies `headOfQueue, `run
      ensures Valid() && old(run) <= run && ProducersUntouched(old(View()), View())
      ensures !moved ==> View() == old(View()) && (NothingPending(View()) || TailUsedUp(View()))
      ensures moved ==> HeadOk(View()) && (TailUsedUp(View()) <==> TailUsedUp(old(View())))
      ensures moved ==> heap[headOfQueue].position == old(heap[headOfQueue].position) + 1
    {
      HeadExhausted(run);
      if headOfQueue == tailOfQueue || heap[headOfQueue].next.None? { return false; }
      DropKeepsTail(run);
      DropHead();
      HeadFacts(run);
      return true;
    }

    // Returns the lowest-location item that is published and not consumed.
    // It returns none exactly when there is no such item, or when a late store
    // has left the tail pointer at a used-up buffer before which none is left.
    method Dequeue() returns (r: Option<T>)
      requires Valid() && WithinLimit(View())
      modifies `heap, `headOfQueue, `consumed, `run
      ensures Valid() && old(run) <= run && ProducersUntouched(old(View()), View())
      ensures Returned(old(View()), View(), r)
      ensures r.None? <==> NothingPending(old(View())) || TailUsedUp(old(View()))
    {
      ghost var s0 := View();
      HeadFacts(run);
      while true
        invariant Valid() && old(run) <= run && HeadOk(View())
        invariant SamePending(s0, View()) && (TailUsedUp(View()) <==> TailUsedUp(s0))
        decreases |chain| - heap[headOfQueue].position, bufferSize - heap[headOfQueue].head
      {
        var empty := IsEmpty();
        PendingKept(s0, View());
        if empty { return None; }
        if heap[headOfQueue].head < bufferSize {
          if heap[headOfQueue].curr[heap[headOfQueue].head].isSet != 2 {
            ghost var t := View();
            PendingKept(s0, t);
            r := TakeOne();
            ReturnedKept(s0, t, View(), r);
            return;
          }
          SkipHandled();
        } else {
          var moved := MoveOn();
          PendingKept(s0, View());
          if !moved { return None; }
        }
      }
    }
  }
}
