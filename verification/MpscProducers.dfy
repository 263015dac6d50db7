// Every atomic step of `enqueue` keeps the invariant.
module MpscProducers {
  import opened Prelude
  import opened MpscState
  import opened MpscInvariant

  lemma InitialInv<T>(size: nat)
    requires size > 0
    ensures Inv(Initial<T>(size))
  {
    var s := Initial<T>(size);
    assert BufferOk(s, 0);
  }

  // A producer of a state that satisfies the invariant never follows a null
  // or dangling pointer and never indexes outside a buffer.
  lemma StepIsSafe<T>(s: State<T>, p: Pid)
    requires Inv(s) && p in s.producers
    ensures Safe(s, s.producers[p])
  {
    var pr := s.producers[p];
    assert ProducerOk(s, p);
    if pr.at.Walk? {
      var b := s.heap[pr.at.buf];
      assert BufferOk(s, b.position - 1);
    }
  }

  // Chain members stay where they are.
  ghost predicate ChainKept<T>(s: State<T>, s': State<T>) {
    && s.bufferSize == s'.bufferSize
    && forall r :: InChain(s, r) ==> InChain(s', r) && s'.heap[r].position == s.heap[r].position
  }

  lemma LinksKept<T>(s: State<T>, s': State<T>)
    requires Linked(s) && s'.bufferSize == s.bufferSize && s'.chain == s.chain
    requires forall r :: r in s.heap && r in s.chain ==> r in s'.heap && s'.heap[r] == s.heap[r]
    ensures Linked(s') && ChainKept(s, s')
    ensures forall i :: 0 <= i < |s.chain| ==> At(s', i) == At(s, i)
  {
    forall i | 0 <= i < |s.chain| ensures At(s', i) == At(s, i) && BufferOk(s', i) {
      assert BufferOk(s, i) && s.chain[i] in s.chain;
    }
    forall r | InChain(s, r) ensures InChain(s', r) && s'.heap[r] == s.heap[r] {
      assert s.chain[s.heap[r].position - 1] in s.chain;
    }
  }

  lemma WritesKept<T>(s: State<T>, s': State<T>)
    requires WriteInv(s) && ChainKept(s, s') && s.log <= s'.log
    requires s'.writes == s.writes && s'.published == s.published
    ensures WriteInv(s')
  {
  }

  lemma ConsumedKept<T>(s: State<T>, s': State<T>)
    requires ConsumedInv(s) && s.log <= s'.log && s'.consumed == s.consumed && s.published <= s'.published
    ensures ConsumedInv(s')
  {
    forall l | 0 <= l < |s.log| ensures Owner(s', l) == Owner(s, l) {}
  }

  lemma SlotKept<T>(s: State<T>, s': State<T>, i: nat, j: nat)
    requires Linked(s) && Linked(s') && s'.bufferSize == s.bufferSize
    requires i < |s.chain| && i < |s'.chain| && j < s.bufferSize && SlotOk(s, i, j)
    requires At(s', i).curr == At(s, i).curr && At(s', i).head == At(s, i).head
    requires s.log <= s'.log && s'.published == s.published && s'.consumed == s.consumed && s'.writes == s.writes
    ensures SlotOk(s', i, j)
  {
  }

  lemma SlotsKept<T>(s: State<T>, s': State<T>)
    requires ChainInv(s) && SlotInv(s) && Linked(s') && s'.headOfQueue in s'.heap && s'.bufferSize == s.bufferSize
    requires |s'.chain| == |s.chain| && s'.heap[s'.headOfQueue].position == s.heap[s.headOfQueue].position
    requires forall i :: 0 <= i < |s.chain| ==> At(s', i).curr == At(s, i).curr && At(s', i).head == At(s, i).head
    requires s.log <= s'.log && s'.published == s.published && s'.consumed == s.consumed && s'.writes == s.writes
    ensures SlotInv(s')
  {
    forall i, j | 0 <= i < |s.chain| && 0 <= j < s.bufferSize ensures SlotOk(s', i, j) {
      SlotKept(s, s', i, j);
    }
  }

  lemma PointKept<T>(s: State<T>, s': State<T>, pr: Producer<T>)
    requires s.bufferSize > 0 && PointOk(s, pr) && ChainKept(s, s')
    requires pr.at.CasNext? ==>
               && pr.at.added in s'.heap && s'.heap[pr.at.added] == s.heap[pr.at.added]
               && pr.at.added !in s'.chain
    requires pr.at.Publish? ==>
               && |s'.heap[pr.at.buf].curr| == s.bufferSize
               && s'.heap[pr.at.buf].curr[pr.at.index].data == s.heap[pr.at.buf].curr[pr.at.index].data
    ensures PointOk(s', pr)
  {
  }

  lemma ProducerKept<T>(s: State<T>, s': State<T>, q: Pid)
    requires s.bufferSize == s'.bufferSize > 0 && q in s.producers && q in s'.producers
    requires s.producers[q] == s'.producers[q] && ProducerOk(s, q) && PointOk(s', s.producers[q])
    requires s.log <= s'.log && forall l :: |s.log| <= l < |s'.log| ==> Owner(s', l) != q
    requires var l := s.producers[q].loc; l in s.published <==> l in s'.published
    requires var l := s.producers[q].loc; Written(s, l) <==> Written(s', l)
    ensures ProducerOk(s', q)
  {
    forall l | 0 <= l < |s.log| ensures Owner(s, l) == Owner(s', l) {}
  }

  // ---- Reserve

  // A reservation keeps the invariant exactly as long as the limit leaves room.
  lemma ReserveInv<T>(s: State<T>, p: Pid, item: T)
    requires Inv(s) && CanReserve(s, p)
    ensures Inv(Reserve(s, p, item)) <==> s.tail < Limit(s.bufferSize)
  {
    if s.tail < Limit(s.bufferSize) {
      var s' := Reserve(s, p, item);
      ReserveChain(s, p, item);
      assert SlotInv(s') by { SlotsKept(s, s'); }
      assert WriteInv(s') by { WritesKept(s, s'); }
      assert ConsumedInv(s') by { ConsumedKept(s, s'); }
      assert OpenInv(s') by { ReserveOpen(s, p, item); }
      assert ProducerInv(s') by {
        ReserveSelf(s, p, item);
        ReserveProducers(s, p, item);
      }
    }
  }

  lemma ReserveChain<T>(s: State<T>, p: Pid, item: T)
    requires ChainInv(s) && CanReserve(s, p) && s.tail < Limit(s.bufferSize)
    ensures ChainInv(Reserve(s, p, item)) && ChainKept(s, Reserve(s, p, item))
    ensures forall i :: 0 <= i < |s.chain| ==> At(Reserve(s, p, item), i) == At(s, i)
  {
    LinksKept(s, Reserve(s, p, item));
  }

  lemma ReserveOpen<T>(s: State<T>, p: Pid, item: T)
    requires CanReserve(s, p) && s.tail == |s.log| < Limit(s.bufferSize) && OpenInv(s)
    ensures OpenInv(Reserve(s, p, item))
  {
    var s' := Reserve(s, p, item);
    LimitFits(s.bufferSize);
    forall l | 0 <= l < |s.log| ensures Owner(s', l) == Owner(s, l) {}
  }

  lemma ReserveSelf<T>(s: State<T>, p: Pid, item: T)
    requires CanReserve(s, p) && s.tail == |s.log| < Limit(s.bufferSize) && WriteInv(s) && OpenInv(s)
    ensures ProducerOk(Reserve(s, p, item), p)
  {
    LimitFits(s.bufferSize);
  }

  lemma ReserveProducers<T>(s: State<T>, p: Pid, item: T)
    requires CanReserve(s, p) && s.tail == |s.log| && ProducerInv(s)
    requires ChainKept(s, Reserve(s, p, item)) && ProducerOk(Reserve(s, p, item), p)
    ensures ProducerInv(Reserve(s, p, item))
  {
    var s' := Reserve(s, p, item);
    forall q | q in s.producers ensures ProducerOk(s', q) {
      PointKept(s, s', s.producers[q]);
      ProducerKept(s, s', q);
    }
  }

  // Only p's record changed, and at most p's location was written or published.
  ghost predicate OnlyMoves<T>(s: State<T>, s': State<T>, p: Pid) {
    && p in s.producers && s'.log == s.log
    && s'.producers - {p} == s.producers - {p}
    && s'.published - {s.producers[p].loc} == s.published - {s.producers[p].loc}
    && (forall l :: l != s.producers[p].loc ==> (Written(s, l) <==> Written(s', l)))
  }

  // The memory another producer relies on is left alone.
  ghost predicate PrivateKept<T>(s: State<T>, s': State<T>, pr: Producer<T>) {
    && (pr.at.CasNext? ==>
          && pr.at.added in s.heap && pr.at.added in s'.heap && pr.at.added !in s'.chain
          && s'.heap[pr.at.added] == s.heap[pr.at.added])
    && (pr.at.Publish? ==>
          && pr.at.buf in s.heap && pr.at.buf in s'.heap && |s'.heap[pr.at.buf].curr| == s.bufferSize
          && pr.at.index < s.bufferSize <= |s.heap[pr.at.buf].curr|
          && s'.heap[pr.at.buf].curr[pr.at.index].data == s.heap[pr.at.buf].curr[pr.at.index].data)
  }

  lemma OtherProducer<T>(s: State<T>, s': State<T>, p: Pid, q: Pid)
    requires s.bufferSize > 0 && ChainKept(s, s') && OnlyMoves(s, s', p) && q in s.producers && q != p
    requires ProducerOk(s, p) && ProducerOk(s, q) && PrivateKept(s, s', s.producers[q])
    ensures q in s'.producers && s'.producers[q] == s.producers[q] && ProducerOk(s', q)
  {
    assert q in s'.producers - {p} && (s'.producers - {p})[q] == (s.producers - {p})[q];
    var l, k := s.producers[q].loc, s.producers[p].loc;
    assert l in s.published - {k} <==> l in s'.published - {k};
    PointKept(s, s', s.producers[q]);
    ProducerKept(s, s', q);
  }

  lemma ProducersKept<T>(s: State<T>, s': State<T>, p: Pid)
    requires s.bufferSize > 0 && ProducerInv(s) && ChainKept(s, s') && OnlyMoves(s, s', p)
    requires forall q :: q in s.producers && q != p ==> PrivateKept(s, s', s.producers[q])
    requires p in s'.producers ==> ProducerOk(s', p)
    requires p in s'.producers && s'.producers[p].at.CasNext? ==>
               forall q :: q in s.producers && q != p && s.producers[q].at.CasNext? ==>
                 s.producers[q].at.added != s'.producers[p].at.added
    ensures ProducerInv(s')
  {
    forall q | q in s'.producers && q != p
      ensures q in s.producers && s'.producers[q] == s.producers[q] && ProducerOk(s', q)
    {
      assert q in s'.producers - {p};
      OtherProducer(s, s', p, q);
    }
  }

  lemma OpenKept<T>(s: State<T>, s': State<T>, p: Pid)
    requires OpenInv(s) && OnlyMoves(s, s', p) && s.published <= s'.published && s'.bufferSize == s.bufferSize
    requires Times(s.bufferSize, |s.chain|) <= Times(s.bufferSize, |s'.chain|)
    requires var l := s.producers[p].loc;
             && l < |s.log|
             && (l in s'.published ==> l < Times(s.bufferSize, |s'.chain|))
             && (l !in s'.published ==> p in s'.producers && s'.producers[p].loc == l)
    ensures OpenInv(s')
  {
    var k := s.producers[p].loc;
    forall l | l in s'.published ensures l < |s.log| && l < Times(s.bufferSize, |s'.chain|) {
      if l != k { assert l in s'.published - {k}; }
    }
    forall l | 0 <= l < |s'.log| && l !in s'.published
      ensures Owner(s', l) in s'.producers && s'.producers[Owner(s', l)].loc == l
    {
      var q := Owner(s, l);
      if q != p { assert q in s.producers - {p} && (s'.producers - {p})[q] == s.producers[q]; }
    }
  }

  // ---- steps that only move p, and perhaps the tail pointer, along the chain

  ghost predicate Moves<T>(s: State<T>, s': State<T>, p: Pid) {
    && p in s.producers && p in s'.producers
    && s' == s.(tailOfQueue := s'.tailOfQueue, producers := s.producers[p := s'.producers[p]])
    && InChain(s, s'.tailOfQueue)
    && var pr, pr' := s.producers[p], s'.producers[p];
       && pr'.loc == pr.loc && pr'.data == pr.data
       && !pr.at.Publish? && !pr'.at.Publish? && !pr'.at.CasNext?
       && Published(pr.at) == Published(pr'.at)
  }

  lemma MoveInv<T>(s: State<T>, s': State<T>, p: Pid)
    requires Inv(s) && Moves(s, s', p) && PointOk(s', s'.producers[p])
    ensures Inv(s')
  {
    MoveChain(s, s', p);
    assert SlotInv(s') by { SlotsKept(s, s'); }
    assert WriteInv(s') by { WritesKept(s, s'); }
    assert ConsumedInv(s') by { ConsumedKept(s, s'); }
    assert OpenInv(s') && ProducerInv(s') by { MoveProducers(s, s', p); }
  }

  lemma MoveChain<T>(s: State<T>, s': State<T>, p: Pid)
    requires ChainInv(s) && Moves(s, s', p)
    ensures ChainInv(s') && ChainKept(s, s')
    ensures forall i :: 0 <= i < |s.chain| ==> At(s', i) == At(s, i)
  {
    LinksKept(s, s');
  }

  lemma MoveProducers<T>(s: State<T>, s': State<T>, p: Pid)
    requires s.bufferSize > 0 && OpenInv(s) && ProducerInv(s) && ChainKept(s, s') && Moves(s, s', p)
    requires PointOk(s', s'.producers[p])
    ensures OpenInv(s') && ProducerInv(s')
  {
    assert ProducerOk(s, p);
    forall l | 0 <= l < |s.log| ensures Owner(s', l) == Owner(s, l) {}
    forall q | q in s.producers && q != p ensures PrivateKept(s, s', s.producers[q]) { assert ProducerOk(s, q); }
    OpenKept(s, s', p);
    ProducersKept(s, s', p);
  }

  // ---- Alloc: a private buffer appears

  ghost predicate Allocates<T>(s: State<T>, s': State<T>, p: Pid) {
    && p in s.producers && p in s'.producers && s.producers[p].at.Alloc? && s.producers[p].at.buf in s.heap
    && var at := s.producers[p].at;
       && s' == s.(heap := s'.heap, nextRef := s.nextRef + 1, producers := s.producers[p := s'.producers[p]])
       && s'.heap == s.heap[s.nextRef := NewBuffer(s.bufferSize, s.heap[at.buf].position + 1, Some(at.buf))]
       && s'.producers[p] == s.producers[p].(at := CasNext(at.buf, s.nextRef, at.ahead))
  }

  lemma AllocInv<T>(s: State<T>, s': State<T>, p: Pid)
    requires Inv(s) && Allocates(s, s', p)
    ensures Inv(s')
  {
    AllocChain(s, s', p);
    assert SlotInv(s') by { SlotsKept(s, s'); }
    assert WriteInv(s') by { WritesKept(s, s'); }
    assert ConsumedInv(s') by { ConsumedKept(s, s'); }
    assert OpenInv(s') && ProducerInv(s') by { AllocProducers(s, s', p); }
  }

  lemma AllocChain<T>(s: State<T>, s': State<T>, p: Pid)
    requires ChainInv(s) && Allocates(s, s', p)
    ensures ChainInv(s') && ChainKept(s, s') && s.nextRef !in s.chain
    ensures forall i :: 0 <= i < |s.chain| ==> At(s', i) == At(s, i)
  {
    forall r | r in s.chain ensures r in s.heap {
      var i :| 0 <= i < |s.chain| && s.chain[i] == r;
      assert BufferOk(s, i);
    }
    LinksKept(s, s');
  }

  lemma AllocSelf<T>(s: State<T>, s': State<T>, p: Pid)
    requires s.bufferSize > 0 && Allocates(s, s', p) && ProducerOk(s, p) && ChainKept(s, s') && s.nextRef !in s.chain
    ensures OnlyMoves(s, s', p) && ProducerOk(s', p)
  {
    forall l | 0 <= l < |s.log| ensures Owner(s', l) == Owner(s, l) {}
  }

  lemma AllocProducers<T>(s: State<T>, s': State<T>, p: Pid)
    requires ChainInv(s) && OpenInv(s) && ProducerInv(s) && ChainKept(s, s') && Allocates(s, s', p)
    requires s.nextRef !in s.chain
    ensures OpenInv(s') && ProducerInv(s')
  {
    assert ProducerOk(s, p);
    AllocSelf(s, s', p);
    assert OpenInv(s') by { OpenKept(s, s', p); }
    assert ProducerInv(s') by {
      forall q | q in s.producers && q != p ensures PrivateKept(s, s', s.producers[q]) { assert ProducerOk(s, q); }
      ProducersKept(s, s', p);
    }
  }

  // ---- CasNext: the private buffer joins the chain, or is freed

  ghost predicate CanCas<T>(s: State<T>, p: Pid) {
    && s.bufferSize > 0 && p in s.producers && s.producers[p].at.CasNext? && PointOk(s, s.producers[p])
  }

  ghost predicate Links<T>(s: State<T>, s': State<T>, p: Pid) {
    && CanCas(s, p)
    && var buf, added := s.producers[p].at.buf, s.producers[p].at.added;
       && s.heap[buf].next.None?
       && s' == s.(heap := s'.heap, chain := s.chain + [added], producers := s'.producers)
       && s'.heap == s.heap[buf := s.heap[buf].(next := Some(added))]
       && EndsCas(s, s', p, StoreTail(added))
  }

  ghost predicate Frees<T>(s: State<T>, s': State<T>, p: Pid) {
    && CanCas(s, p)
    && var buf, added := s.producers[p].at.buf, s.producers[p].at.added;
       && s' == s.(heap := s.heap - {added}, producers := s'.producers)
       && EndsCas(s, s', p, LoadTail)
  }

  // A look-ahead allocation ends the call; any other goes on.
  ghost predicate EndsCas<T>(s: State<T>, s': State<T>, p: Pid, at: Point)
    requires CanCas(s, p)
  {
    s'.producers == if s.producers[p].at.ahead then s.producers - {p}
                    else s.producers[p := s.producers[p].(at := at)]
  }

  lemma LinkChain<T>(s: State<T>, s': State<T>, p: Pid)
    requires ChainInv(s) && Links(s, s', p)
    ensures ChainInv(s') && ChainKept(s, s') && InChain(s', s.producers[p].at.added)
    ensures forall i :: 0 <= i < |s.chain| ==> At(s', i).curr == At(s, i).curr && At(s', i).head == At(s, i).head
    ensures At(s', |s.chain|) == s.heap[s.producers[p].at.added]
    ensures s'.heap[s'.headOfQueue].position == s.heap[s.headOfQueue].position
  {
    var buf, last := s.producers[p].at.buf, |s.chain| - 1;
    assert BufferOk(s, s.heap[buf].position - 1) && s.heap[buf].position - 1 == last;
    forall i | 0 <= i < |s.chain|
      ensures BufferOk(s', i) && At(s', i) == if i == last then At(s, i).(next := s'.heap[buf].next) else At(s, i)
    {
      assert BufferOk(s, i);
    }
    assert BufferOk(s', |s.chain|);
  }

  // No location of a buffer that just joined the chain is published yet.
  lemma NewSlot<T>(s: State<T>, s': State<T>, j: nat)
    requires Linked(s') && |s'.chain| == |s.chain| + 1 && s'.bufferSize == s.bufferSize && j < s.bufferSize
    requires OpenInv(s) && ConsumedInv(s) && s'.published == s.published && s'.consumed == s.consumed
    requires At(s', |s.chain|).curr[j] == Node(None, 0) && At(s', |s.chain|).head == 0
    ensures SlotOk(s', |s.chain|, j)
  {
    var loc := Loc(s.bufferSize, |s.chain|, j);
    assert loc !in s.published && loc !in s.consumed;
  }

  lemma LinkSlots<T>(s: State<T>, s': State<T>, p: Pid)
    requires ChainInv(s) && SlotInv(s) && OpenInv(s) && ConsumedInv(s) && Links(s, s', p) && ChainInv(s')
    ensures SlotInv(s')
  {
    LinkChain(s, s', p);
    forall i, j | 0 <= i < |s'.chain| && 0 <= j < s.bufferSize ensures SlotOk(s', i, j) {
      if i < |s.chain| {
        SlotKept(s, s', i, j);
      } else {
        NewSlot(s, s', j);
      }
    }
  }

  lemma CasPrivate<T>(s: State<T>, s': State<T>, p: Pid, q: Pid)
    requires ChainInv(s) && (Links(s, s', p) || Frees(s, s', p)) && q in s.producers && q != p
    requires PointOk(s, s.producers[q])
    requires s.producers[q].at.CasNext? ==> s.producers[q].at.added != s.producers[p].at.added
    ensures PrivateKept(s, s', s.producers[q])
  {
    assert BufferOk(s, s.heap[s.producers[p].at.buf].position - 1);
    if s.producers[q].at.Publish? { assert BufferOk(s, s.heap[s.producers[q].at.buf].position - 1); }
  }

  // p's own record after a link or a failed one.
  lemma CasSelf<T>(s: State<T>, s': State<T>, p: Pid)
    requires s.bufferSize > 0 && p in s.producers && ProducerOk(s, p) && ChainKept(s, s')
    requires (Links(s, s', p) && InChain(s', s.producers[p].at.added)) || Frees(s, s', p)
    ensures OnlyMoves(s, s', p) && (p in s'.producers ==> ProducerOk(s', p) && !s'.producers[p].at.CasNext?)
  {
    forall l | 0 <= l < |s.log| ensures Owner(s', l) == Owner(s, l) {}
  }

  lemma CasOpen<T>(s: State<T>, s': State<T>, p: Pid)
    requires OpenInv(s) && (Links(s, s', p) || Frees(s, s', p)) && ProducerOk(s, p) && OnlyMoves(s, s', p)
    ensures OpenInv(s')
  {
    OpenKept(s, s', p);
  }

  lemma CasProducers<T>(s: State<T>, s': State<T>, p: Pid)
    requires ChainInv(s) && ProducerInv(s) && ChainKept(s, s')
    requires (Links(s, s', p) || Frees(s, s', p)) && OnlyMoves(s, s', p)
    requires p in s'.producers ==> ProducerOk(s', p) && !s'.producers[p].at.CasNext?
    ensures ProducerInv(s')
  {
    forall q | q in s.producers && q != p ensures PrivateKept(s, s', s.producers[q]) {
      assert ProducerOk(s, q);
      CasPrivate(s, s', p, q);
    }
    ProducersKept(s, s', p);
  }

  lemma CasRest<T>(s: State<T>, s': State<T>, p: Pid)
    requires ChainInv(s) && OpenInv(s) && ProducerInv(s) && ChainKept(s, s')
    requires (Links(s, s', p) && InChain(s', s.producers[p].at.added)) || Frees(s, s', p)
    ensures OpenInv(s') && ProducerInv(s')
  {
    assert ProducerOk(s, p);
    CasSelf(s, s', p);
    assert OpenInv(s') by { CasOpen(s, s', p); }
    assert ProducerInv(s') by { CasProducers(s, s', p); }
  }

  lemma LinkInv<T>(s: State<T>, s': State<T>, p: Pid)
    requires Inv(s) && Links(s, s', p)
    ensures Inv(s')
  {
    LinkChain(s, s', p);
    assert SlotInv(s') by { LinkSlots(s, s', p); }
    assert WriteInv(s') by { WritesKept(s, s'); }
    assert ConsumedInv(s') by { ConsumedKept(s, s'); }
    assert OpenInv(s') && ProducerInv(s') by { CasRest(s, s', p); }
  }

  lemma FreeChain<T>(s: State<T>, s': State<T>, p: Pid)
    requires ChainInv(s) && Frees(s, s', p)
    ensures ChainInv(s') && ChainKept(s, s')
    ensures forall i :: 0 <= i < |s.chain| ==> At(s', i) == At(s, i)
  {
    LinksKept(s, s');
  }

  lemma FreeInv<T>(s: State<T>, s': State<T>, p: Pid)
    requires Inv(s) && Frees(s, s', p)
    ensures Inv(s')
  {
    FreeChain(s, s', p);
    assert SlotInv(s') by { SlotsKept(s, s'); }
    assert WriteInv(s') by { WritesKept(s, s'); }
    assert ConsumedInv(s') by { ConsumedKept(s, s'); }
    assert OpenInv(s') && ProducerInv(s') by { CasRest(s, s', p); }
  }

  // ---- steps that change one buffer but not its links

  ghost predicate Touches<T>(s: State<T>, s': State<T>, buf: Ref) {
    && InChain(s, buf) && buf in s'.heap
    && s'.heap == s.heap[buf := s'.heap[buf]]
    && s' == s.(heap := s'.heap, producers := s'.producers, published := s'.published,
                consumed := s'.consumed, writes := s'.writes)
    && var b, b' := s.heap[buf], s'.heap[buf];
       && b'.next == b.next && b'.prev == b.prev && b'.position == b.position
       && |b'.curr| == |b.curr| && b'.head <= s.bufferSize
  }

  lemma TouchChain<T>(s: State<T>, s': State<T>, buf: Ref)
    requires ChainInv(s) && Touches(s, s', buf)
    ensures ChainInv(s') && ChainKept(s, s')
    ensures var k := s.heap[buf].position - 1;
            0 <= k < |s.chain| && At(s, k) == s.heap[buf] && At(s', k) == s'.heap[buf] &&
            forall i :: 0 <= i < |s.chain| && i != k ==> At(s', i) == At(s, i)
    ensures s'.heap[s'.headOfQueue].position == s.heap[s.headOfQueue].position
  {
    var k := s.heap[buf].position - 1;
    forall i | 0 <= i < |s.chain|
      ensures BufferOk(s', i) && At(s', i) == if i == k then s'.heap[buf] else At(s, i)
    {
      assert BufferOk(s, i);
    }
  }

  lemma TouchPrivate<T>(s: State<T>, s': State<T>, buf: Ref, q: Pid)
    requires ChainInv(s) && Touches(s, s', buf) && q in s.producers && PointOk(s, s.producers[q])
    requires s.producers[q].at.Publish? && s.producers[q].at.buf == buf ==>
               var j := s.producers[q].at.index;
               j < |s.heap[buf].curr| && s'.heap[buf].curr[j].data == s.heap[buf].curr[j].data
    ensures PrivateKept(s, s', s.producers[q])
  {
    assert BufferOk(s, s.heap[buf].position - 1);
    assert s.chain[s.heap[buf].position - 1] in s.chain;
  }

  // ---- the data write

  ghost predicate Writes<T>(s: State<T>, s': State<T>, p: Pid, buf: Ref, index: nat) {
    && Touches(s, s', buf) && s'.published == s.published && s'.consumed == s.consumed
    && p in s.producers && s.producers[p].at.Walk? && index < s.bufferSize == |s.heap[buf].curr|
    && var pr := s.producers[p];
       && pr.loc == Loc(s.bufferSize, s.heap[buf].position - 1, index)
       && s'.producers == s.producers[p := pr.(at := Publish(buf, index))]
       && s'.writes == s.writes + [Write(buf, index, pr.loc)]
       && s'.heap[buf].head == s.heap[buf].head
       && s'.heap[buf].curr == s.heap[buf].curr[index := s.heap[buf].curr[index].(data := Some(pr.data))]
  }

  lemma WrittenMore<T>(s: State<T>, s': State<T>, w: Write)
    requires s'.writes == s.writes + [w]
    ensures forall l :: Written(s', l) <==> Written(s, l) || l == w.loc
  {
    forall l | Written(s, l) ensures Written(s', l) {
      var k :| 0 <= k < |s.writes| && s.writes[k].loc == l;
      assert s'.writes[k].loc == l;
    }
    assert s'.writes[|s.writes|].loc == w.loc;
  }

  lemma WriteSlots<T>(s: State<T>, s': State<T>, p: Pid, buf: Ref, index: nat)
    requires ChainInv(s) && SlotInv(s) && Writes(s, s', p, buf, index) && s.producers[p].loc !in s.published
    requires ChainInv(s')
    ensures SlotInv(s')
  {
    var k := s.heap[buf].position - 1;
    TouchChain(s, s', buf);
    WrittenMore(s, s', Write(buf, index, s.producers[p].loc));
    forall i, j | 0 <= i < |s.chain| && 0 <= j < s.bufferSize ensures SlotOk(s', i, j) {
      assert SlotOk(s, i, j);
    }
  }

  lemma WriteWrites<T>(s: State<T>, s': State<T>, p: Pid, buf: Ref, index: nat)
    requires WriteInv(s) && Writes(s, s', p, buf, index) && ChainKept(s, s')
    requires !Written(s, s.producers[p].loc) && s.producers[p].loc < |s.log|
    ensures WriteInv(s')
  {
    WrittenMore(s, s', Write(buf, index, s.producers[p].loc));
  }

  lemma WriteSelf<T>(s: State<T>, s': State<T>, p: Pid, buf: Ref, index: nat)
    requires s.bufferSize > 0 && Writes(s, s', p, buf, index) && ProducerOk(s, p) && ChainKept(s, s')
    ensures OnlyMoves(s, s', p) && ProducerOk(s', p)
  {
    WrittenMore(s, s', Write(buf, index, s.producers[p].loc));
    forall l | 0 <= l < |s.log| ensures Owner(s', l) == Owner(s, l) {}
  }

  lemma WritePrivate<T>(s: State<T>, s': State<T>, p: Pid, buf: Ref, index: nat, q: Pid)
    requires ChainInv(s) && Writes(s, s', p, buf, index) && q in s.producers && q != p
    requires ProducerOk(s, p) && ProducerOk(s, q)
    ensures PrivateKept(s, s', s.producers[q])
  {
    assert s.producers[q].loc != s.producers[p].loc;
    TouchPrivate(s, s', buf, q);
  }

  lemma WriteStepInv<T>(s: State<T>, s': State<T>, p: Pid, buf: Ref, index: nat)
    requires Inv(s) && Writes(s, s', p, buf, index)
    ensures Inv(s')
  {
    assert ProducerOk(s, p);
    TouchChain(s, s', buf);
    assert SlotInv(s') by { WriteSlots(s, s', p, buf, index); }
    assert WriteInv(s') by { WriteWrites(s, s', p, buf, index); }
    assert ConsumedInv(s') by { ConsumedKept(s, s'); }
    WriteSelf(s, s', p, buf, index);
    assert OpenInv(s') by { OpenKept(s, s', p); }
    assert ProducerInv(s') by {
      forall q | q in s.producers && q != p ensures PrivateKept(s, s', s.producers[q]) {
        WritePrivate(s, s', p, buf, index, q);
      }
      ProducersKept(s, s', p);
    }
  }

  // ---- the publication

  ghost predicate Publishes<T>(s: State<T>, s': State<T>, p: Pid) {
    && p in s.producers && s.producers[p].at.Publish? && s.bufferSize > 0 && PointOk(s, s.producers[p])
    && Touches(s, s', s.producers[p].at.buf)
    && var pr := s.producers[p];
       var buf, index := pr.at.buf, pr.at.index;
       && s'.writes == s.writes && s'.consumed == s.consumed && s'.published == s.published + {pr.loc}
       && s'.heap[buf].head == s.heap[buf].head
       && s'.heap[buf].curr == s.heap[buf].curr[index := s.heap[buf].curr[index].(isSet := 1)]
       && (s'.producers == s.producers - {p} || s'.producers == s.producers[p := pr.(at := Alloc(buf, true))])
  }

  lemma PublishSlots<T>(s: State<T>, s': State<T>, p: Pid)
    requires ChainInv(s) && SlotInv(s) && Publishes(s, s', p) && ChainInv(s')
    requires var pr := s.producers[p];
             pr.loc !in s.published && pr.loc < |s.log| && s.log[pr.loc].item == pr.data && Written(s, pr.loc)
    ensures SlotInv(s')
  {
    var at := s.producers[p].at;
    var k := s.heap[at.buf].position - 1;
    TouchChain(s, s', at.buf);
    forall i, j | 0 <= i < |s.chain| && 0 <= j < s.bufferSize ensures SlotOk(s', i, j) {
      assert SlotOk(s, i, j);
      if Loc(s.bufferSize, i, j) == s.producers[p].loc { LocInjective(s.bufferSize, i, j, k, at.index); }
    }
  }

  lemma PublishSelf<T>(s: State<T>, s': State<T>, p: Pid)
    requires s.bufferSize > 0 && Publishes(s, s', p) && ProducerOk(s, p) && ChainKept(s, s')
    requires s.heap[s.producers[p].at.buf].position <= MaxBuffers(s.bufferSize)
    ensures OnlyMoves(s, s', p)
    ensures p in s'.producers ==> ProducerOk(s', p)
  {
    forall l | 0 <= l < |s.log| ensures Owner(s', l) == Owner(s, l) {}
  }

  lemma PublishProducers<T>(s: State<T>, s': State<T>, p: Pid)
    requires ChainInv(s) && ProducerInv(s) && Publishes(s, s', p) && ChainKept(s, s') && OnlyMoves(s, s', p)
    requires p in s'.producers ==> ProducerOk(s', p)
    ensures ProducerInv(s')
  {
    forall q | q in s.producers && q != p ensures PrivateKept(s, s', s.producers[q]) {
      assert ProducerOk(s, q);
      TouchPrivate(s, s', s.producers[p].at.buf, q);
    }
    ProducersKept(s, s', p);
  }

  lemma PublishWrites<T>(s: State<T>, s': State<T>, l: nat)
    requires WriteInv(s) && ChainKept(s, s') && s'.log == s.log && s'.writes == s.writes
    requires s'.published == s.published + {l} && Written(s, l)
    ensures WriteInv(s')
  {
    forall k | k in s'.published ensures Written(s', k) {
      assert Written(s, k);
    }
  }

  // A buffer that holds a reserved location may have a successor.
  lemma PublishedBufferFits<T>(s: State<T>, p: Pid)
    requires ChainInv(s) && p in s.producers && s.producers[p].at.Publish? && ProducerOk(s, p)
    ensures s.heap[s.producers[p].at.buf].position <= MaxBuffers(s.bufferSize)
  {
    var i, k := s.heap[s.producers[p].at.buf].position - 1, MaxBuffers(s.bufferSize);
    TimesGap(s.bufferSize, k, i);
  }

  lemma PublishOpen<T>(s: State<T>, s': State<T>, p: Pid)
    requires ChainInv(s) && OpenInv(s) && Publishes(s, s', p) && ProducerOk(s, p) && OnlyMoves(s, s', p)
    ensures OpenInv(s')
  {
    TimesGap(s.bufferSize, s.heap[s.producers[p].at.buf].position - 1, |s.chain|);
    OpenKept(s, s', p);
  }

  lemma PublishRest<T>(s: State<T>, s': State<T>, p: Pid)
    requires ChainInv(s) && OpenInv(s) && ProducerInv(s) && Publishes(s, s', p) && ChainKept(s, s')
    ensures OpenInv(s') && ProducerInv(s')
  {
    assert ProducerOk(s, p);
    PublishedBufferFits(s, p);
    PublishSelf(s, s', p);
    assert OpenInv(s') by { PublishOpen(s, s', p); }
    assert ProducerInv(s') by { PublishProducers(s, s', p); }
  }

  lemma PublishInv<T>(s: State<T>, s': State<T>, p: Pid)
    requires Inv(s) && Publishes(s, s', p)
    ensures Inv(s')
  {
    assert ProducerOk(s, p);
    assert ChainInv(s') && ChainKept(s, s') by { TouchChain(s, s', s.producers[p].at.buf); }
    assert WriteInv(s') by { PublishWrites(s, s', s.producers[p].loc); }
    assert SlotInv(s') by { PublishSlots(s, s', p); }
    assert ConsumedInv(s') by { ConsumedKept(s, s'); }
    assert OpenInv(s') && ProducerInv(s') by { PublishRest(s, s', p); }
  }

  // ---- every producer step

  // Below the limit the 32-bit sizes are exact.
  lemma SizesExact(size: nat, k: nat)
    requires 0 < size && k <= MaxBuffers(size)
    ensures Wrap(size * k) == Times(size, k) < U32
  {
    LimitFits(size);
    TimesIs(size, k);
    TimesGap(size, k, MaxBuffers(size));
  }

  lemma NeighbourInChain<T>(s: State<T>, r: Ref)
    requires Linked(s) && InChain(s, r)
    ensures s.heap[r].next.Some? ==>
              InChain(s, s.heap[r].next.value) && s.heap[s.heap[r].next.value].position == s.heap[r].position + 1
    ensures s.heap[r].position > 1 ==>
              && s.heap[r].prev.Some? && InChain(s, s.heap[r].prev.value)
              && s.heap[s.heap[r].prev.value].position == s.heap[r].position - 1
  {
    var i := s.heap[r].position - 1;
    assert BufferOk(s, i);
    if i + 1 < |s.chain| { assert BufferOk(s, i + 1); }
    if i > 0 { assert BufferOk(s, i - 1); }
  }

  lemma WalkSizes<T>(s: State<T>, pr: Producer<T>)
    requires ChainInv(s) && pr.at.Walk? && PointOk(s, pr) && pr.loc < |s.log|
    ensures var pos := s.heap[pr.at.buf].position;
            && (pr.loc < pr.at.prevSize ==>
                  pos > 1 && Wrap(pr.at.prevSize - s.bufferSize) == Times(s.bufferSize, pos - 2))
            && (pr.loc >= pr.at.prevSize ==> Wrap(s.bufferSize + pr.at.prevSize) == Times(s.bufferSize, pos))
  {
    var size, pos := s.bufferSize, s.heap[pr.at.buf].position;
    SizesExact(size, pos - 1);
    if pr.loc >= pr.at.prevSize {
      TimesGap(size, MaxBuffers(size), pos - 1);
      SizesExact(size, pos);
    }
  }

  // The step leaves every field but p's record and the tail pointer alone,
  // and p's new point is in order.
  ghost predicate StepMoves<T>(s: State<T>, p: Pid)
    requires s.bufferSize > 0 && p in s.producers && Safe(s, s.producers[p])
  {
    Moves(s, Advance(s, p), p) && PointOk(Advance(s, p), Advance(s, p).producers[p])
  }

  lemma LoadTailMoves<T>(s: State<T>, p: Pid)
    requires ChainInv(s) && p in s.producers && s.producers[p].at.LoadTail? && Safe(s, s.producers[p])
    ensures StepMoves(s, p)
  {
    SizesExact(s.bufferSize, s.heap[s.tailOfQueue].position - 1);
  }

  lemma WalkBackMoves<T>(s: State<T>, p: Pid)
    requires ChainInv(s) && p in s.producers && s.producers[p].at.Walk? && Safe(s, s.producers[p]) && ProducerOk(s, p)
    requires s.producers[p].loc < s.producers[p].at.prevSize
    ensures StepMoves(s, p)
  {
    WalkSizes(s, s.producers[p]);
    NeighbourInChain(s, s.producers[p].at.buf);
  }

  lemma WalkOnMoves<T>(s: State<T>, p: Pid)
    requires ChainInv(s) && p in s.producers && s.producers[p].at.Walk? && Safe(s, s.producers[p]) && ProducerOk(s, p)
    requires var pr := s.producers[p]; pr.at.prevSize <= pr.loc && Wrap(s.bufferSize + pr.at.prevSize) <= pr.loc
    ensures StepMoves(s, p)
  {
    WalkSizes(s, s.producers[p]);
  }

  lemma LoadNextMoves<T>(s: State<T>, p: Pid)
    requires ChainInv(s) && p in s.producers && Safe(s, s.producers[p]) && ProducerOk(s, p)
    requires s.producers[p].at.LoadNext?
    ensures StepMoves(s, p)
  {
    var buf := s.producers[p].at.buf;
    NeighbourInChain(s, buf);
    TimesGap(s.bufferSize, MaxBuffers(s.bufferSize), s.heap[buf].position);
  }

  lemma StepMoved<T>(s: State<T>, p: Pid)
    requires Inv(s) && p in s.producers && Safe(s, s.producers[p]) && StepMoves(s, p)
    ensures Inv(Advance(s, p))
  {
    MoveInv(s, Advance(s, p), p);
  }

  lemma WalkWrites<T>(s: State<T>, p: Pid)
    requires ChainInv(s) && p in s.producers && s.producers[p].at.Walk? && Safe(s, s.producers[p]) && ProducerOk(s, p)
    requires s.producers[p].at.prevSize <= s.producers[p].loc < Wrap(s.bufferSize + s.producers[p].at.prevSize)
    ensures var pr := s.producers[p]; Writes(s, Advance(s, p), p, pr.at.buf, pr.loc - pr.at.prevSize)
  {
    var pr := s.producers[p];
    WalkSizes(s, pr);
    assert BufferOk(s, s.heap[pr.at.buf].position - 1);
  }

  lemma WalkInv<T>(s: State<T>, p: Pid)
    requires Inv(s) && p in s.producers && s.producers[p].at.Walk? && Safe(s, s.producers[p])
    ensures Inv(Advance(s, p))
  {
    var pr := s.producers[p];
    assert ProducerOk(s, p);
    if pr.loc < pr.at.prevSize {
      WalkBackMoves(s, p);
      StepMoved(s, p);
    } else if pr.loc < Wrap(s.bufferSize + pr.at.prevSize) {
      WalkWrites(s, p);
      WriteStepInv(s, Advance(s, p), p, pr.at.buf, pr.loc - pr.at.prevSize);
    } else {
      WalkOnMoves(s, p);
      StepMoved(s, p);
    }
  }

  lemma CasInv<T>(s: State<T>, p: Pid)
    requires Inv(s) && p in s.producers && s.producers[p].at.CasNext? && Safe(s, s.producers[p])
    ensures Inv(Advance(s, p))
  {
    assert ProducerOk(s, p);
    if s.heap[s.producers[p].at.buf].next.None? {
      LinkInv(s, Advance(s, p), p);
    } else {
      FreeInv(s, Advance(s, p), p);
    }
  }

  lemma TailMoves<T>(s: State<T>, p: Pid)
    requires ChainInv(s) && p in s.producers && Safe(s, s.producers[p]) && ProducerOk(s, p)
    requires s.producers[p].at.StoreTail? || s.producers[p].at.CasTail?
    ensures StepMoves(s, p)
  {
  }

  lemma PublishStep<T>(s: State<T>, p: Pid)
    requires ChainInv(s) && p in s.producers && Safe(s, s.producers[p]) && ProducerOk(s, p)
    requires s.producers[p].at.Publish?
    ensures Publishes(s, Advance(s, p), p)
  {
    assert BufferOk(s, s.heap[s.producers[p].at.buf].position - 1);
  }

  lemma AdvanceInv<T>(s: State<T>, p: Pid)
    requires Inv(s) && p in s.producers && Safe(s, s.producers[p])
    ensures Inv(Advance(s, p))
  {
    assert ProducerOk(s, p);
    match s.producers[p].at
    case LoadTail =>
      LoadTailMoves(s, p);
      StepMoved(s, p);
    case Walk(_, _) => WalkInv(s, p);
    case LoadNext(_) =>
      LoadNextMoves(s, p);
      StepMoved(s, p);
    case Alloc(_, _) => AllocInv(s, Advance(s, p), p);
    case CasNext(_, _, _) => CasInv(s, p);
    case StoreTail(_) =>
      TailMoves(s, p);
      StepMoved(s, p);
    case CasTail(_, _) =>
      TailMoves(s, p);
      StepMoved(s, p);
    case Publish(_, _) =>
      PublishStep(s, p);
      PublishInv(s, Advance(s, p), p);
  }
}
