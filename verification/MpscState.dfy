// The Jiffy multi-producer, single-consumer queue as a state machine: the
// atomic steps of `enqueue` interleave freely, and the consumer steps are those
// `dequeue` is made of.
module MpscState {
  import opened Prelude

  type Ref = nat
  type Pid = nat

  // `location`, `prev_size` and `global_size` are 32-bit unsigned.
  const U32: nat := 0x1_0000_0000

  function Wrap(x: int): (r: nat)
    ensures 0 <= x < U32 ==> r == x
  {
    x % U32
  }

  // isSet: 0 empty, 1 set, 2 handled.
  datatype Node<+T> = Node(data: Option<T>, isSet: nat)

  datatype BufferList<+T> = BufferList(
    curr: seq<Node<T>>, next: Option<Ref>, prev: Option<Ref>, head: nat, position: nat)

  // Where a producer stands inside `enqueue`.
  datatype Point =
    | LoadTail                                      // top of the outer loop
    | Walk(buf: Ref, prevSize: nat)                 // the go-back loop and the branches after it
    | LoadNext(buf: Ref)                            // the location lies beyond `buf`
    | Alloc(buf: Ref, ahead: bool)                  // about to allocate a successor of `buf`
    | CasNext(buf: Ref, added: Ref, ahead: bool)    // about to link `added` behind `buf`
    | StoreTail(added: Ref)                         // about to store `tail_of_queue_`
    | CasTail(expected: Ref, next: Ref)             // about to advance `tail_of_queue_`
    | Publish(buf: Ref, index: nat)                 // data written, `is_set_` not yet

  datatype Producer<+T> = Producer(loc: nat, data: T, goBack: bool, at: Point)

  datatype Ticket<+T> = Ticket(owner: Pid, item: T)
  datatype Write = Write(buf: Ref, index: nat, loc: nat)

  // Shared memory, the running producers, and a history: the buffers in link
  // order, the reserved locations, what was published and consumed, and every
  // slot write. No producer step reads the history; of the consumer's steps only
  // `CanTakeAhead` does, which uses `chain` to say what the scan has passed.
  datatype State<+T> = State(
    bufferSize: nat, heap: map<Ref, BufferList<T>>, nextRef: Ref,
    headOfQueue: Ref, tailOfQueue: Ref, tail: nat, producers: map<Pid, Producer<T>>,
    chain: seq<Ref>, log: seq<Ticket<T>>, published: set<nat>, consumed: seq<nat>, writes: seq<Write>)

  // ---------------------------------------------------------------- steps

  function NewBuffer<T>(size: nat, position: nat, prev: Option<Ref>): BufferList<T> {
    BufferList(seq(size, _ => Node(None, 0)), None, prev, 0, position)
  }

  function Initial<T>(size: nat): State<T> {
    State(size, map[0 := NewBuffer(size, 1, None)], 1, 0, 0, 0, map[], [0], [], {}, [], [])
  }

  // size * i, by recursion, so that proofs see no nonlinear term.
  function Times(size: nat, i: nat): nat {
    if i == 0 then 0 else Times(size, i - 1) + size
  }

  // The number of buffers whose sizes all fit 32 bits.
  function MaxBuffers(size: nat): nat
    requires size > 0
  {
    (U32 - 1) / size
  }

  // The number of enqueues for which no 32-bit size wraps around.
  function Limit(size: nat): nat
    requires size > 0
  {
    Times(size, MaxBuffers(size))
  }

  predicate CanReserve<T>(s: State<T>, p: Pid) {
    s.bufferSize > 0 && p !in s.producers
  }

  predicate WithinLimit<T>(s: State<T>) {
    s.bufferSize > 0 && s.tail <= Limit(s.bufferSize)
  }

  function Reserve<T>(s: State<T>, p: Pid, item: T): State<T>
    requires CanReserve(s, p)
  {
    s.(tail := s.tail + 1,
       producers := s.producers[p := Producer(Wrap(s.tail), item, false, LoadTail)],
       log := s.log + [Ticket(p, item)])
  }

  function Goto<T>(s: State<T>, p: Pid, at: Point): State<T>
    requires p in s.producers
  {
    s.(producers := s.producers[p := s.producers[p].(at := at)])
  }

  // The references a producer dereferences are live and in bounds.
  predicate Safe<T>(s: State<T>, pr: Producer<T>) {
    match pr.at
    case LoadTail => s.tailOfQueue in s.heap
    case Walk(buf, prevSize) =>
      && buf in s.heap
      && (pr.loc < prevSize ==> s.heap[buf].prev.Some?)
      && (prevSize <= pr.loc < Wrap(s.bufferSize + prevSize) ==> pr.loc - prevSize < |s.heap[buf].curr|)
    case LoadNext(buf) => buf in s.heap
    case Alloc(buf, _) => buf in s.heap
    case CasNext(buf, added, _) => buf in s.heap && added in s.heap
    case StoreTail(_) => true
    case CasTail(_, _) => true
    case Publish(buf, index) => buf in s.heap && index < |s.heap[buf].curr|
  }

  function SetNode<T>(s: State<T>, buf: Ref, index: nat, node: Node<T>): State<T>
    requires buf in s.heap && index < |s.heap[buf].curr|
  {
    s.(heap := s.heap[buf := s.heap[buf].(curr := s.heap[buf].curr[index := node])])
  }

  // One atomic step of producer p.
  function Advance<T>(s: State<T>, p: Pid): State<T>
    requires p in s.producers && Safe(s, s.producers[p])
  {
    var pr := s.producers[p];
    match pr.at
    case LoadTail =>
      Goto(s, p, Walk(s.tailOfQueue, Wrap(s.bufferSize * (s.heap[s.tailOfQueue].position - 1))))
    case Walk(buf, prevSize) => WalkStep(s, p, buf, prevSize)
    case LoadNext(buf) =>
      (match s.heap[buf].next
       case None => Goto(s, p, Alloc(buf, false))
       case Some(next) => Goto(s, p, CasTail(buf, next)))
    case Alloc(buf, ahead) =>
      Goto(s.(heap := s.heap[s.nextRef := NewBuffer(s.bufferSize, s.heap[buf].position + 1, Some(buf))],
              nextRef := s.nextRef + 1),
           p, CasNext(buf, s.nextRef, ahead))
    case CasNext(buf, added, ahead) => CasNextStep(s, p, buf, added, ahead)
    case StoreTail(added) => Goto(s.(tailOfQueue := added), p, LoadTail)
    case CasTail(expected, next) =>
      Goto(if s.tailOfQueue == expected then s.(tailOfQueue := next) else s, p, LoadTail)
    case Publish(buf, index) =>
      var s' := SetNode(s, buf, index, s.heap[buf].curr[index].(isSet := 1)).(published := s.published + {pr.loc});
      if index == 1 && !pr.goBack then Goto(s', p, Alloc(buf, true)) else s'.(producers := s'.producers - {p})
  }

  function WalkStep<T>(s: State<T>, p: Pid, buf: Ref, prevSize: nat): State<T>
    requires p in s.producers && s.producers[p].at == Walk(buf, prevSize) && Safe(s, s.producers[p])
  {
    var pr := s.producers[p];
    if pr.loc < prevSize then
      s.(producers := s.producers[p :=
        pr.(goBack := true, at := Walk(s.heap[buf].prev.value, Wrap(prevSize - s.bufferSize)))])
    else if pr.loc < Wrap(s.bufferSize + prevSize) then
      var index := pr.loc - prevSize;
      Goto(SetNode(s, buf, index, s.heap[buf].curr[index].(data := Some(pr.data)))
           .(writes := s.writes + [Write(buf, index, pr.loc)]),
           p, Publish(buf, index))
    else
      Goto(s, p, LoadNext(buf))
  }

  function CasNextStep<T>(s: State<T>, p: Pid, buf: Ref, added: Ref, ahead: bool): State<T>
    requires p in s.producers && s.producers[p].at == CasNext(buf, added, ahead) && Safe(s, s.producers[p])
  {
    var linked := s.heap[buf].next.None?;
    var s' := if linked then
                s.(heap := s.heap[buf := s.heap[buf].(next := Some(added))], chain := s.chain + [added])
              else
                s.(heap := s.heap - {added});
    if ahead then s'.(producers := s'.producers - {p})
    else Goto(s', p, if linked then StoreTail(added) else LoadTail)
  }

  // The location that slot j of the (i+1)-th buffer holds.
  function Loc(size: nat, i: nat, j: nat): nat {
    Times(size, i) + j
  }

  // The (i+1)-th buffer.
  function At<T>(s: State<T>, i: int): BufferList<T> {
    if 0 <= i < |s.chain| && s.chain[i] in s.heap then s.heap[s.chain[i]] else NewBuffer(0, 0, None)
  }

  predicate InChain<T>(s: State<T>, r: Ref) {
    r in s.heap && 1 <= s.heap[r].position <= |s.chain| && s.chain[s.heap[r].position - 1] == r
  }

  predicate BufferOk<T>(s: State<T>, i: nat)
    requires i < |s.chain|
  {
    var b := At(s, i);
    && s.chain[i] in s.heap
    && |b.curr| == s.bufferSize && b.position == i + 1 && b.head <= s.bufferSize
    && b.next == (if i + 1 < |s.chain| then Some(s.chain[i + 1]) else None)
    && b.prev == (if i > 0 then Some(s.chain[i - 1]) else None)
  }

  // The buffers form one doubly linked chain of consecutive positions.
  ghost predicate Linked<T>(s: State<T>) {
    && s.bufferSize > 0
    && |s.chain| > 0
    && (forall i {:trigger At(s, i)} {:trigger BufferOk(s, i)} :: 0 <= i < |s.chain| ==> BufferOk(s, i))
  }

  // No slot the consumer may still look at, up to location `bound`, is set.
  ghost predicate ScannedUpTo<T>(s: State<T>, bound: nat)
    requires Linked(s)
  {
    forall i, j ::
      0 <= i < |s.chain| && At(s, i).head <= j < s.bufferSize && Loc(s.bufferSize, i, j) < bound ==>
        At(s, i).curr[j].isSet != 1
  }

  // The consumer's atomic effects.

  predicate CanSkip<T>(s: State<T>) {
    && s.headOfQueue in s.heap
    && var h := s.heap[s.headOfQueue]; h.head < |h.curr| && h.curr[h.head].isSet == 2
  }

  function Skip<T>(s: State<T>): State<T>
    requires CanSkip(s)
  {
    s.(heap := s.heap[s.headOfQueue := s.heap[s.headOfQueue].(head := s.heap[s.headOfQueue].head + 1)])
  }

  predicate CanDrop<T>(s: State<T>) {
    && s.headOfQueue in s.heap && s.headOfQueue != s.tailOfQueue
    && var h := s.heap[s.headOfQueue]; h.head >= s.bufferSize && h.next.Some?
  }

  function Drop<T>(s: State<T>): State<T>
    requires CanDrop(s)
  {
    s.(headOfQueue := s.heap[s.headOfQueue].next.value)
  }

  predicate CanTakeHead<T>(s: State<T>) {
    && s.headOfQueue in s.heap
    && var h := s.heap[s.headOfQueue];
       h.position > 0 && h.head < |h.curr| && h.curr[h.head].isSet == 1
  }

  function TakeHead<T>(s: State<T>): State<T>
    requires CanTakeHead(s)
  {
    var h := s.heap[s.headOfQueue];
    s.(heap := s.heap[s.headOfQueue := h.(head := h.head + 1)],
       consumed := s.consumed + [Loc(s.bufferSize, h.position - 1, h.head)])
  }

  ghost predicate CanTakeAhead<T>(s: State<T>, buf: Ref, index: nat) {
    && Linked(s) && buf in s.heap
    && var b := s.heap[buf];
       && b.position > 0 && b.head <= index < |b.curr| && b.curr[index].isSet == 1
       && ScannedUpTo(s, Loc(s.bufferSize, b.position - 1, index))
       && InChain(s, buf)
       && (buf == s.headOfQueue ==> b.head < index)
  }

  function TakeAhead<T>(s: State<T>, buf: Ref, index: nat): State<T>
    requires buf in s.heap && s.heap[buf].position > 0 && index < |s.heap[buf].curr|
  {
    var b := s.heap[buf];
    var head' := if buf != s.headOfQueue && index == b.head then b.head + 1 else b.head;
    s.(heap := s.heap[buf := b.(curr := b.curr[index := b.curr[index].(isSet := 2)], head := head')],
       consumed := s.consumed + [Loc(s.bufferSize, b.position - 1, index)])
  }

  ghost predicate Next<T(!new)>(s: State<T>, s': State<T>) {
    || (exists p, item :: CanReserve(s, p) && s' == Reserve(s, p, item))
    || (exists p :: p in s.producers && Safe(s, s.producers[p]) && s' == Advance(s, p))
    || (CanSkip(s) && s' == Skip(s))
    || (CanDrop(s) && s' == Drop(s))
    || (CanTakeHead(s) && s' == TakeHead(s))
    || (exists buf, index :: CanTakeAhead(s, buf, index) && s' == TakeAhead(s, buf, index))
  }

  ghost predicate IsRun<T(!new)>(run: seq<State<T>>) {
    && |run| > 0
    && (exists size :: size > 0 && run[0] == Initial(size))
    && forall k :: 0 <= k < |run| - 1 ==> NextAt(run, k)
  }

  ghost predicate NextAt<T(!new)>(run: seq<State<T>>, k: nat)
    requires k + 1 < |run|
  {
    Next(run[k], run[k + 1])
  }
}
