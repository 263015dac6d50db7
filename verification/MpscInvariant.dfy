// What every reachable state of the queue satisfies.
module MpscInvariant {
  import opened Prelude
  import opened MpscState

  ghost predicate ChainInv<T>(s: State<T>) {
    && Linked(s)
    && |s.chain| - 1 <= MaxBuffers(s.bufferSize)
    && (forall r :: r in s.heap ==> r < s.nextRef)
    && InChain(s, s.headOfQueue) && InChain(s, s.tailOfQueue)
    && |s.log| == s.tail <= Limit(s.bufferSize)
  }

  ghost predicate Written<T>(s: State<T>, loc: nat) {
    exists k :: 0 <= k < |s.writes| && s.writes[k].loc == loc
  }

  ghost predicate SlotOk<T>(s: State<T>, i: nat, j: nat)
    requires Linked(s) && i < |s.chain| && j < s.bufferSize
  {
    var n, loc := At(s, i).curr[j], Loc(s.bufferSize, i, j);
    && n.isSet <= 2
    && (loc in s.published <==> n.isSet != 0)
    && (loc in s.published ==> loc < |s.log| && n.data == Some(s.log[loc].item))
    && (!Written(s, loc) ==> n.data == None)
    && (loc in s.consumed <==> n.isSet == 2 || j < At(s, i).head)
  }

  ghost predicate SlotInv<T>(s: State<T>)
    requires Linked(s) && s.headOfQueue in s.heap
  {
    && (forall i, j :: 0 <= i < |s.chain| && 0 <= j < s.bufferSize ==> SlotOk(s, i, j))
    && (forall i :: 0 <= i < s.heap[s.headOfQueue].position - 1 && i < |s.chain| ==> At(s, i).head == s.bufferSize)
  }

  ghost predicate WriteOk<T>(s: State<T>, w: Write) {
    && InChain(s, w.buf) && w.index < s.bufferSize && w.loc < |s.log|
    && Loc(s.bufferSize, s.heap[w.buf].position - 1, w.index) == w.loc
  }

  ghost predicate WriteInv<T>(s: State<T>) {
    && (forall k :: 0 <= k < |s.writes| ==> WriteOk(s, s.writes[k]))
    && (forall a, b :: 0 <= a < b < |s.writes| ==> s.writes[a].loc != s.writes[b].loc)
    && (forall l :: l in s.published ==> Written(s, l))
  }

  function Owner<T>(s: State<T>, l: nat): Pid
    requires l < |s.log|
  {
    s.log[l].owner
  }

  // Every location that is reserved but not published is its owner's current one.
  ghost predicate OpenInv<T>(s: State<T>) {
    && (forall l :: l in s.published ==> l < |s.log| && l < Times(s.bufferSize, |s.chain|))
    && (forall l :: 0 <= l < |s.log| && l !in s.published ==>
          Owner(s, l) in s.producers && s.producers[Owner(s, l)].loc == l)
  }

  ghost predicate ConsumedInv<T>(s: State<T>) {
    && (forall k :: 0 <= k < |s.consumed| ==> s.consumed[k] in s.published && s.consumed[k] < |s.log|)
    && (forall a, b :: 0 <= a < b < |s.consumed| ==> s.consumed[a] != s.consumed[b])
    && InProducerOrder(s)
    && (forall l, k :: 0 <= k < |s.consumed| && 0 <= l < s.consumed[k] && Owner(s, l) == Owner(s, s.consumed[k]) ==>
          l in s.consumed)
  }

  // Items of one producer leave in the order that producer reserved them.
  ghost predicate InProducerOrder<T>(s: State<T>)
    requires forall k :: 0 <= k < |s.consumed| ==> s.consumed[k] < |s.log|
  {
    forall a, b :: 0 <= a < b < |s.consumed| && Owner(s, s.consumed[a]) == Owner(s, s.consumed[b]) ==>
      s.consumed[a] < s.consumed[b]
  }

  predicate Published(at: Point) {
    (at.Alloc? || at.CasNext?) && at.ahead
  }

  ghost predicate PointOk<T>(s: State<T>, pr: Producer<T>)
    requires s.bufferSize > 0
  {
    var size := s.bufferSize;
    match pr.at
    case LoadTail => true
    case Walk(buf, prevSize) => InChain(s, buf) && prevSize == Times(size, s.heap[buf].position - 1)
    case LoadNext(buf) => InChain(s, buf) && Times(size, s.heap[buf].position) <= pr.loc
    case Alloc(buf, _) => InChain(s, buf) && s.heap[buf].position <= MaxBuffers(size)
    case CasNext(buf, added, _) =>
      && InChain(s, buf) && s.heap[buf].position <= MaxBuffers(size)
      && added in s.heap && added !in s.chain
      && s.heap[added] == NewBuffer(size, s.heap[buf].position + 1, Some(buf))
    case StoreTail(added) => InChain(s, added)
    case CasTail(expected, next) =>
      InChain(s, expected) && InChain(s, next) && s.heap[next].position == s.heap[expected].position + 1
    case Publish(buf, index) =>
      && InChain(s, buf) && index < size && |s.heap[buf].curr| == size
      && Loc(size, s.heap[buf].position - 1, index) == pr.loc
      && s.heap[buf].curr[index].data == Some(pr.data)
  }

  ghost predicate ProducerOk<T>(s: State<T>, p: Pid)
    requires s.bufferSize > 0 && p in s.producers
  {
    var pr := s.producers[p];
    && pr.loc < |s.log| && s.log[pr.loc] == Ticket(p, pr.data)
    && (forall l :: 0 <= l < |s.log| && Owner(s, l) == p ==> l <= pr.loc)
    && (pr.loc in s.published <==> Published(pr.at))
    && (Written(s, pr.loc) <==> Published(pr.at) || pr.at.Publish?)
    && PointOk(s, pr)
  }

  ghost predicate ProducerInv<T>(s: State<T>)
    requires s.bufferSize > 0
  {
    && (forall p :: p in s.producers ==> ProducerOk(s, p))
    && (forall p, q | p in s.producers && q in s.producers && p != q ::
          s.producers[p].at.CasNext? && s.producers[q].at.CasNext? ==>
            s.producers[p].at.added != s.producers[q].at.added)
  }

  ghost predicate Inv<T>(s: State<T>) {
    ChainInv(s) && SlotInv(s) && WriteInv(s) && OpenInv(s) && ConsumedInv(s) && ProducerInv(s)
  }

  // ----------------------------------------------------------- arithmetic

  lemma TimesIs(size: nat, i: nat)
    ensures Times(size, i) == size * i
  {
  }

  lemma TimesGap(size: nat, i: nat, k: nat)
    ensures i < k ==> Times(size, i) + size <= Times(size, k)
  {
  }

  lemma LocInjective(size: nat, i: nat, j: nat, i': nat, j': nat)
    requires j < size && j' < size && Loc(size, i, j) == Loc(size, i', j')
    ensures i == i' && j == j'
  {
    TimesGap(size, i, i');
    TimesGap(size, i', i);
  }

  lemma LocSplit(size: nat, l: nat, n: nat) returns (i: nat, j: nat)
    requires 0 < size && l < Times(size, n)
    ensures i < n && j < size && Loc(size, i, j) == l
  {
    if l < size {
      i, j := 0, l;
    } else {
      i, j := LocSplit(size, l - size, n - 1);
      i := i + 1;
    }
  }

  lemma LimitFits(size: nat)
    requires 0 < size
    ensures Limit(size) < U32
  {
    TimesIs(size, MaxBuffers(size));
  }
}
