// Every consumer step keeps the invariant.
module MpscConsumer {
  import opened MpscState
  import opened MpscInvariant
  import opened MpscProducers

  // l is the lowest location that is published and not consumed.
  ghost predicate Lowest<T>(s: State<T>, l: nat) {
    && l in s.published && l !in s.consumed
    && forall m :: 0 <= m < l && m in s.published ==> m in s.consumed
  }

  lemma TakeLowest<T>(s: State<T>, s': State<T>, l: nat)
    requires s.bufferSize > 0 && ConsumedInv(s) && OpenInv(s) && ProducerInv(s) && Lowest(s, l)
    requires s'.consumed == s.consumed + [l] && s'.log == s.log && s'.published == s.published
    ensures ConsumedInv(s')
  {
    forall k | 0 <= k < |s'.log| ensures Owner(s', k) == Owner(s, k) {}
    forall m | 0 <= m < l && Owner(s, m) == Owner(s, l) ensures m in s.consumed {}
    forall m, k | 0 <= k < |s'.consumed| && 0 <= m < s'.consumed[k] && Owner(s', m) == Owner(s', s'.consumed[k])
      ensures m in s'.consumed
    {
      if k < |s.consumed| { assert s'.consumed[k] == s.consumed[k]; }
    }
  }

  ghost predicate Consumes<T>(s: State<T>, s': State<T>, buf: Ref) {
    && Touches(s, s', buf)
    && s'.producers == s.producers && s'.published == s.published && s'.writes == s.writes
    && var b, b' := s.heap[buf], s'.heap[buf];
       && b.head <= b'.head
       && forall j :: 0 <= j < |b.curr| ==>
            && b'.curr[j].data == b.curr[j].data && b'.curr[j].isSet <= 2
            && (b'.curr[j].isSet == 0 <==> b.curr[j].isSet == 0)
  }

  // The consumed locations of the buffer are the ones its slots now show.
  ghost predicate Accounts<T>(s: State<T>, s': State<T>, buf: Ref)
    requires Linked(s) && Consumes(s, s', buf)
  {
    var k, b' := s.heap[buf].position - 1, s'.heap[buf];
    && (forall j :: 0 <= j < |b'.curr| ==>
          (Loc(s.bufferSize, k, j) in s'.consumed <==> b'.curr[j].isSet == 2 || j < b'.head))
    && (forall i, j :: 0 <= i < |s.chain| && i != k && 0 <= j < s.bufferSize ==>
          (Loc(s.bufferSize, i, j) in s'.consumed <==> Loc(s.bufferSize, i, j) in s.consumed))
  }

  lemma ConsumeSlots<T>(s: State<T>, s': State<T>, buf: Ref)
    requires ChainInv(s) && SlotInv(s) && Consumes(s, s', buf) && Accounts(s, s', buf) && ChainInv(s')
    ensures SlotInv(s')
  {
    var k := s.heap[buf].position - 1;
    TouchChain(s, s', buf);
    forall i, j | 0 <= i < |s.chain| && 0 <= j < s.bufferSize ensures SlotOk(s', i, j) {
      assert SlotOk(s, i, j);
    }
  }

  lemma ConsumeProducers<T>(s: State<T>, s': State<T>, buf: Ref)
    requires ChainInv(s) && ProducerInv(s) && Consumes(s, s', buf) && ChainKept(s, s')
    ensures ProducerInv(s')
  {
    assert BufferOk(s, s.heap[buf].position - 1);
    forall q | q in s'.producers ensures ProducerOk(s', q) {
      assert ProducerOk(s, q);
      TouchPrivate(s, s', buf, q);
      PointKept(s, s', s.producers[q]);
      ProducerKept(s, s', q);
    }
  }

  lemma ConsumeInv<T>(s: State<T>, s': State<T>, buf: Ref)
    requires Inv(s) && Consumes(s, s', buf) && Accounts(s, s', buf) && ConsumedInv(s')
    ensures Inv(s')
  {
    TouchChain(s, s', buf);
    assert SlotInv(s') by { ConsumeSlots(s, s', buf); }
    assert WriteInv(s') by { WritesKept(s, s'); }
    assert ProducerInv(s') by { ConsumeProducers(s, s', buf); }
  }

  lemma ConsumedMore<T>(s: State<T>, s': State<T>, k: nat, j: nat)
    requires j < s.bufferSize && s'.consumed == s.consumed + [Loc(s.bufferSize, k, j)]
    ensures forall i, n :: 0 <= i && 0 <= n < s.bufferSize ==>
              (Loc(s.bufferSize, i, n) in s'.consumed <==>
               Loc(s.bufferSize, i, n) in s.consumed || (i == k && n == j))
  {
    var size := s.bufferSize;
    forall i, n | 0 <= i && 0 <= n < size
      ensures Loc(size, i, n) in s'.consumed <==> Loc(size, i, n) in s.consumed || (i == k && n == j)
    {
      if Loc(size, i, n) == Loc(size, k, j) { LocInjective(size, i, n, k, j); }
    }
  }

  // Taking slot j of `buf` changes what the slots show for that slot only.
  lemma TakeAccounts<T>(s: State<T>, s': State<T>, buf: Ref, j: nat)
    requires ChainInv(s) && SlotInv(s) && Consumes(s, s', buf) && j < |s.heap[buf].curr|
    requires s'.consumed == s.consumed + [Loc(s.bufferSize, s.heap[buf].position - 1, j)]
    requires var b, b' := s.heap[buf], s'.heap[buf];
             forall n :: 0 <= n < |b.curr| ==>
               ((b'.curr[n].isSet == 2 || n < b'.head) <==> (b.curr[n].isSet == 2 || n < b.head || n == j))
    ensures Accounts(s, s', buf)
  {
    var k := s.heap[buf].position - 1;
    assert BufferOk(s, k) && At(s, k) == s.heap[buf];
    ConsumedMore(s, s', k, j);
    forall n | 0 <= n < |s'.heap[buf].curr|
      ensures Loc(s.bufferSize, k, n) in s'.consumed <==> s'.heap[buf].curr[n].isSet == 2 || n < s'.heap[buf].head
    {
      assert SlotOk(s, k, n);
    }
  }

  // Below a location whose earlier open slots are not set, everything published is consumed.
  lemma ScannedIsConsumed<T>(s: State<T>, bound: nat)
    requires ChainInv(s) && SlotInv(s) && OpenInv(s) && ScannedUpTo(s, bound)
    ensures forall m :: 0 <= m < bound && m in s.published ==> m in s.consumed
  {
    forall m | 0 <= m < bound && m in s.published ensures m in s.consumed {
      var i, j := LocSplit(s.bufferSize, m, |s.chain|);
      assert SlotOk(s, i, j);
    }
  }

  // Everything in front of the head slot is consumed.
  lemma FrontIsScanned<T>(s: State<T>)
    requires ChainInv(s) && SlotInv(s)
    ensures var h := s.heap[s.headOfQueue]; ScannedUpTo(s, Loc(s.bufferSize, h.position - 1, h.head))
  {
    var h := s.heap[s.headOfQueue];
    assert BufferOk(s, h.position - 1) && At(s, h.position - 1) == h;
    forall i, j | 0 <= i < |s.chain| && At(s, i).head <= j < s.bufferSize
      ensures Loc(s.bufferSize, i, j) >= Loc(s.bufferSize, h.position - 1, h.head)
    {
      TimesGap(s.bufferSize, h.position - 1, i);
    }
  }

  lemma SkipAccounts<T>(s: State<T>)
    requires ChainInv(s) && SlotInv(s) && CanSkip(s)
    ensures Consumes(s, Skip(s), s.headOfQueue) && Accounts(s, Skip(s), s.headOfQueue)
  {
    var s', buf, k := Skip(s), s.headOfQueue, s.heap[s.headOfQueue].position - 1;
    assert BufferOk(s, k) && At(s, k) == s.heap[buf];
    forall j | 0 <= j < s.bufferSize
      ensures s.heap[buf].curr[j].isSet <= 2
      ensures Loc(s.bufferSize, k, j) in s.consumed <==> s.heap[buf].curr[j].isSet == 2 || j < s.heap[buf].head
    {
      assert SlotOk(s, k, j);
    }
  }

  lemma SkipInv<T>(s: State<T>)
    requires Inv(s) && CanSkip(s)
    ensures Inv(Skip(s))
  {
    SkipAccounts(s);
    assert ConsumedInv(Skip(s)) by { ConsumedKept(s, Skip(s)); }
    ConsumeInv(s, Skip(s), s.headOfQueue);
  }

  lemma DropInv<T>(s: State<T>)
    requires Inv(s) && CanDrop(s)
    ensures Inv(Drop(s))
  {
    var s' := Drop(s);
    NeighbourInChain(s, s.headOfQueue);
    DropMemory(s);
    assert WriteInv(s') by { WritesKept(s, s'); }
    assert ConsumedInv(s') by { ConsumedKept(s, s'); }
    forall q | q in s'.producers ensures ProducerOk(s', q) {
      assert ProducerOk(s, q);
      PointKept(s, s', s.producers[q]);
      ProducerKept(s, s', q);
    }
  }

  lemma DropMemory<T>(s: State<T>)
    requires ChainInv(s) && SlotInv(s) && CanDrop(s) && InChain(s, Drop(s).headOfQueue)
    ensures ChainInv(Drop(s)) && SlotInv(Drop(s)) && ChainKept(s, Drop(s))
  {
    var s', k := Drop(s), s.heap[s.headOfQueue].position - 1;
    LinksKept(s, s');
    assert BufferOk(s, k) && At(s, k).head == s.bufferSize;
    NeighbourInChain(s, s.headOfQueue);
    forall i, j | 0 <= i < |s.chain| && 0 <= j < s.bufferSize ensures SlotOk(s', i, j) {
      assert SlotOk(s, i, j);
    }
  }

  lemma TakeHeadLowest<T>(s: State<T>)
    requires ChainInv(s) && SlotInv(s) && OpenInv(s) && CanTakeHead(s)
    ensures var h := s.heap[s.headOfQueue]; Lowest(s, Loc(s.bufferSize, h.position - 1, h.head))
  {
    var h := s.heap[s.headOfQueue];
    FrontIsScanned(s);
    ScannedIsConsumed(s, Loc(s.bufferSize, h.position - 1, h.head));
    assert BufferOk(s, h.position - 1);
    assert SlotOk(s, h.position - 1, h.head);
  }

  lemma TakeHeadInv<T>(s: State<T>)
    requires Inv(s) && CanTakeHead(s)
    ensures Inv(TakeHead(s))
  {
    var s', buf, h := TakeHead(s), s.headOfQueue, s.heap[s.headOfQueue];
    assert BufferOk(s, h.position - 1);
    TakeHeadLowest(s);
    assert ConsumedInv(s') by { TakeLowest(s, s', Loc(s.bufferSize, h.position - 1, h.head)); }
    assert Consumes(s, s', buf) by {
      forall j | 0 <= j < |h.curr| ensures h.curr[j].isSet <= 2 { assert SlotOk(s, h.position - 1, j); }
    }
    TakeAccounts(s, s', buf, h.head);
    ConsumeInv(s, s', buf);
  }

  lemma TakeAheadLowest<T>(s: State<T>, buf: Ref, index: nat)
    requires ChainInv(s) && SlotInv(s) && OpenInv(s) && CanTakeAhead(s, buf, index)
    ensures Lowest(s, Loc(s.bufferSize, s.heap[buf].position - 1, index))
  {
    var k := s.heap[buf].position - 1;
    ScannedIsConsumed(s, Loc(s.bufferSize, k, index));
    assert BufferOk(s, k);
    assert SlotOk(s, k, index);
  }

  lemma TakeAheadInv<T>(s: State<T>, buf: Ref, index: nat)
    requires Inv(s) && CanTakeAhead(s, buf, index)
    ensures Inv(TakeAhead(s, buf, index))
  {
    var s', b := TakeAhead(s, buf, index), s.heap[buf];
    assert BufferOk(s, b.position - 1);
    TakeAheadLowest(s, buf, index);
    assert ConsumedInv(s') by { TakeLowest(s, s', Loc(s.bufferSize, b.position - 1, index)); }
    assert Consumes(s, s', buf) by {
      forall j | 0 <= j < |b.curr| ensures b.curr[j].isSet <= 2 { assert SlotOk(s, b.position - 1, j); }
    }
    TakeAccounts(s, s', buf, index);
    ConsumeInv(s, s', buf);
  }
}
