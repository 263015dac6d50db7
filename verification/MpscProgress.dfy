// `enqueue` finishes under every schedule: within one call a producer takes a
// bounded number of steps, whatever the others do.
module MpscProgress {
  import opened MpscState
  import opened MpscInvariant
  import opened MpscProducers
  import opened MpscRuns

  type Producers<T> = map<Pid, Producer<T>>

  // ------------------------------------------------------ pending tail stores

  // The buffers that are linked and whose tail store is still to come.
  ghost function Pending<T>(ps: Producers<T>): set<Ref> {
    set p | p in ps && ps[p].at.StoreTail? :: ps[p].at.added
  }

  // Each of them has one linker.
  ghost predicate StoresApart<T>(ps: Producers<T>) {
    forall p, q | p in ps && q in ps && p != q ::
      ps[p].at.StoreTail? && ps[q].at.StoreTail? ==> ps[p].at.added != ps[q].at.added
  }

  lemma Others<T>(ps: Producers<T>, ps': Producers<T>, p: Pid, q: Pid)
    requires ps' - {p} == ps - {p} && q != p
    ensures (q in ps <==> q in ps') && (q in ps ==> ps'[q] == ps[q])
  {
    assert q in ps <==> q in ps - {p};
    assert q in ps' <==> q in ps' - {p};
    if q in ps { assert (ps' - {p})[q] == (ps - {p})[q]; }
  }

  lemma ApartKept<T>(ps: Producers<T>, ps': Producers<T>, p: Pid)
    requires StoresApart(ps) && ps' - {p} == ps - {p}
    requires p in ps' && ps'[p].at.StoreTail? ==> ps'[p].at.added !in Pending(ps)
    ensures StoresApart(ps')
  {
    forall q | q != p ensures (q in ps <==> q in ps') && (q in ps ==> ps'[q] == ps[q]) { Others(ps, ps', p, q); }
    forall q | q in ps && ps[q].at.StoreTail? ensures ps[q].at.added in Pending(ps) {}
  }

  // A step of p changes no other producer's record.
  lemma OnlySelf<T>(s: State<T>, p: Pid)
    requires p in s.producers && Safe(s, s.producers[p])
    ensures Advance(s, p).producers - {p} == s.producers - {p}
  {
  }

  lemma PendingLinked<T>(s: State<T>, r: Ref)
    requires s.bufferSize > 0 && ProducerInv(s) && r in Pending(s.producers)
    ensures InChain(s, r) && r in s.chain
  {
    var p :| p in s.producers && s.producers[p].at.StoreTail? && s.producers[p].at.added == r;
    assert ProducerOk(s, p);
  }

  lemma AdvanceApart<T>(s: State<T>, p: Pid)
    requires s.bufferSize > 0 && ProducerInv(s) && StoresApart(s.producers)
    requires p in s.producers && Safe(s, s.producers[p])
    ensures StoresApart(Advance(s, p).producers)
  {
    OnlySelf(s, p);
    if s.producers[p].at.CasNext? {
      assert ProducerOk(s, p);
      var added := s.producers[p].at.added;
      if added in Pending(s.producers) { PendingLinked(s, added); }
    }
    ApartKept(s.producers, Advance(s, p).producers, p);
  }

  lemma ReserveApart<T>(s: State<T>, p: Pid, item: T)
    requires StoresApart(s.producers) && CanReserve(s, p)
    ensures StoresApart(Reserve(s, p, item).producers)
  {
    ApartKept(s.producers, Reserve(s, p, item).producers, p);
  }

  lemma NextApart<T(!new)>(s: State<T>, s': State<T>)
    requires s.bufferSize > 0 && ProducerInv(s) && StoresApart(s.producers) && Next(s, s')
    ensures StoresApart(s'.producers)
  {
    if p, item :| CanReserve(s, p) && s' == Reserve(s, p, item) {
      ReserveApart(s, p, item);
    } else if p :| p in s.producers && Safe(s, s.producers[p]) && s' == Advance(s, p) {
      AdvanceApart(s, p);
    }
  }

  lemma {:induction false} RunApart<T(!new)>(run: seq<State<T>>, k: nat)
    requires IsRun(run) && k < |run| && WithinLimit(run[k])
    ensures StoresApart(run[k].producers)
  {
    if k > 0 {
      assert NextAt(run, k - 1);
      StepGrows(run, k - 1);
      RunApart(run, k - 1);
      assert run[k - 1].bufferSize > 0 && ProducerInv(run[k - 1]) by { RunInv(run, k - 1); }
      NextApart(run[k - 1], run[k]);
    }
  }

  ghost function Elements(xs: seq<Ref>): set<Ref> {
    set r | r in xs
  }

  lemma {:induction false} ElementsFit(xs: seq<Ref>)
    ensures |Elements(xs)| <= |xs|
  {
    if xs != [] {
      var front, x := xs[..|xs| - 1], xs[|xs| - 1];
      ElementsFit(front);
      assert xs == front + [x];
      assert Elements(xs) == Elements(front) + {x};
    }
  }

  lemma SubsetFits(a: set<Ref>, b: set<Ref>)
    requires a <= b
    ensures |a| <= |b|
  {
    assert |b| == |a| + |b - a|;
  }

  lemma PendingFits<T>(s: State<T>)
    requires s.bufferSize > 0 && ProducerInv(s)
    ensures |Pending(s.producers)| <= |s.chain|
  {
    forall r | r in Pending(s.producers) ensures r in Elements(s.chain) { PendingLinked(s, r); }
    ElementsFit(s.chain);
    SubsetFits(Pending(s.producers), Elements(s.chain));
  }

  // ------------------------------------------------------------ shared progress

  ghost function TailPosition<T>(s: State<T>): nat {
    if s.tailOfQueue in s.heap then s.heap[s.tailOfQueue].position else 0
  }

  // More buffers; or fewer pending stores; or a tail pointer further on.
  ghost predicate Ahead<T>(s: State<T>, s': State<T>) {
    var n, n' := |Pending(s.producers)|, |Pending(s'.producers)|;
    || |s.chain| < |s'.chain|
    || (|s'.chain| == |s.chain| && n' < n)
    || (|s'.chain| == |s.chain| && n' == n && TailPosition(s) < TailPosition(s'))
  }

  // Nothing a waiting producer looks at has changed.
  ghost predicate SameLinks<T>(s: State<T>, s': State<T>) {
    && s'.bufferSize == s.bufferSize && s'.tailOfQueue == s.tailOfQueue && |s'.chain| == |s.chain|
    && forall r :: InChain(s, r) ==>
         r in s'.heap && s'.heap[r].position == s.heap[r].position && s'.heap[r].next == s.heap[r].next
  }

  ghost predicate Level<T>(s: State<T>, s': State<T>) {
    SameLinks(s, s') && Pending(s'.producers) == Pending(s.producers)
  }

  lemma PendingKept<T>(ps: Producers<T>, ps': Producers<T>, p: Pid)
    requires ps' - {p} == ps - {p}
    requires p in ps ==> !ps[p].at.StoreTail?
    requires p in ps' ==> !ps'[p].at.StoreTail?
    ensures Pending(ps') == Pending(ps)
  {
    forall q | q != p ensures (q in ps <==> q in ps') && (q in ps ==> ps'[q] == ps[q]) { Others(ps, ps', p, q); }
  }

  lemma PendingDone<T>(ps: Producers<T>, ps': Producers<T>, p: Pid)
    requires StoresApart(ps) && p in ps && ps[p].at.StoreTail?
    requires ps' - {p} == ps - {p} && (p in ps' ==> !ps'[p].at.StoreTail?)
    ensures |Pending(ps')| < |Pending(ps)|
  {
    var added := ps[p].at.added;
    assert added in Pending(ps);
    forall r | r in Pending(ps') ensures r in Pending(ps) - {added} {
      var q :| q in ps' && ps'[q].at.StoreTail? && ps'[q].at.added == r;
      Others(ps, ps', p, q);
    }
    SubsetFits(Pending(ps'), Pending(ps) - {added});
  }

  // --- what each kind of step does to the links

  lemma MoveLinks<T>(s: State<T>, p: Pid)
    requires p in s.producers && Safe(s, s.producers[p])
    requires s.producers[p].at.LoadTail? || s.producers[p].at.LoadNext?
    ensures SameLinks(s, Advance(s, p))
  {
  }

  lemma WalkLinks<T>(s: State<T>, p: Pid)
    requires p in s.producers && Safe(s, s.producers[p]) && s.producers[p].at.Walk?
    ensures SameLinks(s, Advance(s, p))
  {
  }

  lemma PublishLinks<T>(s: State<T>, p: Pid)
    requires p in s.producers && Safe(s, s.producers[p]) && s.producers[p].at.Publish?
    ensures SameLinks(s, Advance(s, p))
  {
  }

  lemma AllocLinks<T>(s: State<T>, p: Pid)
    requires ChainInv(s) && p in s.producers && Safe(s, s.producers[p]) && s.producers[p].at.Alloc?
    ensures SameLinks(s, Advance(s, p))
  {
  }

  lemma FreeLinks<T>(s: State<T>, p: Pid)
    requires p in s.producers && Safe(s, s.producers[p]) && s.producers[p].at.CasNext?
    requires s.producers[p].at.added !in s.chain && s.heap[s.producers[p].at.buf].next.Some?
    ensures SameLinks(s, Advance(s, p))
  {
    forall r | InChain(s, r) ensures r in s.chain { assert s.chain[s.heap[r].position - 1] == r; }
  }

  // --- and to the shared progress

  lemma CasTailEffect<T>(s: State<T>, p: Pid)
    requires s.bufferSize > 0 && p in s.producers && s.producers[p].at.CasTail? && PointOk(s, s.producers[p])
    ensures if s.tailOfQueue == s.producers[p].at.expected then Ahead(s, Advance(s, p)) else Level(s, Advance(s, p))
  {
    OnlySelf(s, p);
    PendingKept(s.producers, Advance(s, p).producers, p);
  }

  lemma CasNextEffect<T>(s: State<T>, p: Pid)
    requires s.bufferSize > 0 && p in s.producers && s.producers[p].at.CasNext? && PointOk(s, s.producers[p])
    ensures if s.heap[s.producers[p].at.buf].next.None? then Ahead(s, Advance(s, p)) else Level(s, Advance(s, p))
  {
    if s.heap[s.producers[p].at.buf].next.Some? {
      FreeLinks(s, p);
      OnlySelf(s, p);
      PendingKept(s.producers, Advance(s, p).producers, p);
    }
  }

  lemma StoreTailEffect<T>(s: State<T>, p: Pid)
    requires StoresApart(s.producers) && p in s.producers && s.producers[p].at.StoreTail?
    ensures Ahead(s, Advance(s, p))
  {
    OnlySelf(s, p);
    PendingDone(s.producers, Advance(s, p).producers, p);
  }

  lemma OtherEffect<T>(s: State<T>, p: Pid)
    requires ChainInv(s) && p in s.producers && Safe(s, s.producers[p])
    requires var at := s.producers[p].at; !at.StoreTail? && !at.CasTail? && !at.CasNext?
    ensures Level(s, Advance(s, p))
  {
    assert SameLinks(s, Advance(s, p)) by {
      match s.producers[p].at
      case Walk(_, _) => WalkLinks(s, p);
      case Alloc(_, _) => AllocLinks(s, p);
      case Publish(_, _) => PublishLinks(s, p);
      case _ => MoveLinks(s, p);
    }
    OnlySelf(s, p);
    PendingKept(s.producers, Advance(s, p).producers, p);
  }

  lemma AdvanceEffect<T>(s: State<T>, p: Pid)
    requires ChainInv(s) && StoresApart(s.producers)
    requires p in s.producers && Safe(s, s.producers[p]) && PointOk(s, s.producers[p])
    ensures Ahead(s, Advance(s, p)) || Level(s, Advance(s, p))
  {
    match s.producers[p].at
    case StoreTail(_) => StoreTailEffect(s, p);
    case CasTail(_, _) => CasTailEffect(s, p);
    case CasNext(_, _, _) => CasNextEffect(s, p);
    case _ => OtherEffect(s, p);
  }

  // -------------------------------------------------------------- one producer

  // What p saw has been overtaken: it has to start again.
  ghost predicate Stale<T>(s: State<T>, pr: Producer<T>) {
    match pr.at
    case Walk(buf, _) =>
      && buf in s.heap && s.heap[buf].next.Some? && s.tailOfQueue != buf
      && pr.loc >= Times(s.bufferSize, s.heap[buf].position)
    case LoadNext(buf) => buf in s.heap && s.heap[buf].next.Some? && s.tailOfQueue != buf
    case Alloc(buf, ahead) => buf in s.heap && s.heap[buf].next.Some? && !ahead
    case CasNext(buf, _, ahead) => buf in s.heap && s.heap[buf].next.Some? && !ahead
    case CasTail(expected, _) => s.tailOfQueue != expected
    case _ => false
  }

  // Steps to the end of the round, with at most `max` buffers.
  ghost function RoundSteps<T>(s: State<T>, pr: Producer<T>, max: nat): nat {
    match pr.at
    case LoadTail => max + 5
    case Walk(buf, _) => 4 + if buf in s.heap then s.heap[buf].position else 0
    case LoadNext(_) => 3
    case Alloc(_, _) => 2
    case CasNext(_, _, _) => 1
    case StoreTail(_) => 1
    case CasTail(_, _) => 1
    case Publish(_, _) => 3
  }

  // Steps until p is done or the shared state has moved ahead.
  ghost function Left<T>(s: State<T>, pr: Producer<T>, max: nat): nat {
    RoundSteps(s, pr, max) + if Stale(s, pr) then max + 6 else 0
  }

  lemma LeftFits<T>(s: State<T>, pr: Producer<T>, max: nat)
    requires s.bufferSize > 0 && PointOk(s, pr) && |s.chain| <= max
    ensures 1 <= Left(s, pr, max) <= 2 * max + 10
  {
  }

  lemma LeftKept<T>(s: State<T>, s': State<T>, pr: Producer<T>, max: nat)
    requires s.bufferSize > 0 && PointOk(s, pr) && SameLinks(s, s')
    ensures Left(s', pr, max) == Left(s, pr, max)
  {
  }

  // p is done, or nearer to its end.
  ghost predicate Nearer<T>(s: State<T>, s': State<T>, p: Pid, max: nat)
    requires p in s.producers
  {
    p in s'.producers ==> Left(s', s'.producers[p], max) < Left(s, s.producers[p], max)
  }

  lemma WalkBackNearer<T>(s: State<T>, p: Pid, max: nat)
    requires ChainInv(s) && p in s.producers && Safe(s, s.producers[p]) && ProducerOk(s, p)
    requires s.producers[p].at.Walk? && s.producers[p].loc < s.producers[p].at.prevSize
    ensures Nearer(s, Advance(s, p), p, max)
  {
    var pr := s.producers[p];
    WalkSizes(s, pr);
    NeighbourInChain(s, pr.at.buf);
    TimesGap(s.bufferSize, s.heap[pr.at.buf].position - 1, s.heap[pr.at.buf].position);
  }

  lemma WalkOnNearer<T>(s: State<T>, p: Pid, max: nat)
    requires ChainInv(s) && p in s.producers && Safe(s, s.producers[p]) && ProducerOk(s, p)
    requires s.producers[p].at.Walk? && s.producers[p].loc >= s.producers[p].at.prevSize
    ensures Nearer(s, Advance(s, p), p, max)
  {
    WalkSizes(s, s.producers[p]);
  }

  lemma LoadNearer<T>(s: State<T>, p: Pid, max: nat)
    requires ChainInv(s) && p in s.producers && Safe(s, s.producers[p]) && |s.chain| <= max
    requires s.producers[p].at.LoadTail? || s.producers[p].at.LoadNext?
    ensures Nearer(s, Advance(s, p), p, max)
  {
  }

  lemma BufferNearer<T>(s: State<T>, p: Pid, max: nat)
    requires ChainInv(s) && p in s.producers && Safe(s, s.producers[p])
    requires s.producers[p].at.Alloc? || s.producers[p].at.Publish?
    ensures Nearer(s, Advance(s, p), p, max)
  {
  }

  lemma CasNextNearer<T>(s: State<T>, p: Pid, max: nat)
    requires p in s.producers && Safe(s, s.producers[p]) && s.producers[p].at.CasNext?
    requires s.heap[s.producers[p].at.buf].next.Some?
    ensures Nearer(s, Advance(s, p), p, max)
  {
  }

  lemma CasTailNearer<T>(s: State<T>, p: Pid, max: nat)
    requires p in s.producers && s.producers[p].at.CasTail? && s.tailOfQueue != s.producers[p].at.expected
    ensures Nearer(s, Advance(s, p), p, max)
  {
  }

  // Every step of p moves the shared state ahead or brings p nearer to its end.
  lemma OwnStepCounts<T>(s: State<T>, p: Pid, max: nat)
    requires ChainInv(s) && StoresApart(s.producers) && |s.chain| <= max
    requires p in s.producers && Safe(s, s.producers[p]) && ProducerOk(s, p)
    ensures var s' := Advance(s, p); Ahead(s, s') || (Level(s, s') && Nearer(s, s', p, max))
  {
    AdvanceEffect(s, p);
    match s.producers[p].at
    case Walk(_, prevSize) =>
      if s.producers[p].loc < prevSize { WalkBackNearer(s, p, max); } else { WalkOnNearer(s, p, max); }
    case LoadTail => LoadNearer(s, p, max);
    case LoadNext(_) => LoadNearer(s, p, max);
    case StoreTail(_) => StoreTailEffect(s, p);
    case CasTail(expected, _) =>
      CasTailEffect(s, p);
      if s.tailOfQueue != expected { CasTailNearer(s, p, max); }
    case CasNext(buf, _, _) =>
      CasNextEffect(s, p);
      if s.heap[buf].next.Some? { CasNextNearer(s, p, max); }
    case _ => BufferNearer(s, p, max);
  }

  // ------------------------------------------------------------ other steps

  ghost predicate StepOf<T>(s: State<T>, s': State<T>, p: Pid) {
    p in s.producers && Safe(s, s.producers[p]) && s' == Advance(s, p)
  }

  lemma ReserveEffect<T>(s: State<T>, q: Pid, item: T)
    requires CanReserve(s, q)
    ensures Level(s, Reserve(s, q, item))
  {
    PendingKept(s.producers, Reserve(s, q, item).producers, q);
  }

  ghost predicate Consumes<T>(s: State<T>, s': State<T>) {
    || (CanSkip(s) && s' == Skip(s))
    || (CanDrop(s) && s' == Drop(s))
    || (CanTakeHead(s) && s' == TakeHead(s))
    || (exists buf, index :: CanTakeAhead(s, buf, index) && s' == TakeAhead(s, buf, index))
  }

  lemma TouchEffect<T>(s: State<T>, s': State<T>, buf: Ref)
    requires buf in s.heap && buf in s'.heap && s'.heap == s.heap[buf := s'.heap[buf]]
    requires s'.heap[buf].position == s.heap[buf].position && s'.heap[buf].next == s.heap[buf].next
    requires s' == s.(heap := s'.heap, headOfQueue := s'.headOfQueue, consumed := s'.consumed)
    ensures Level(s, s')
  {
  }

  lemma ConsumerEffect<T>(s: State<T>, s': State<T>)
    requires Consumes(s, s')
    ensures Level(s, s') && s'.producers == s.producers
  {
    if buf, index :| CanTakeAhead(s, buf, index) && s' == TakeAhead(s, buf, index) {
      TouchEffect(s, s', buf);
    } else {
      TouchEffect(s, s', s.headOfQueue);
    }
  }

  lemma OtherProducerStep<T>(s: State<T>, p: Pid, q: Pid)
    requires ChainInv(s) && ProducerInv(s) && StoresApart(s.producers)
    requires p in s.producers && q in s.producers && q != p && Safe(s, s.producers[q])
    ensures var s' := Advance(s, q);
            && p in s'.producers && s'.producers[p] == s.producers[p]
            && (Ahead(s, s') || Level(s, s'))
  {
    assert ProducerOk(s, q);
    AdvanceEffect(s, q);
    OnlySelf(s, q);
    Others(s.producers, Advance(s, q).producers, q, p);
  }

  // A step that is not p's leaves p where it is.
  lemma OtherStep<T(!new)>(s: State<T>, s': State<T>, p: Pid)
    requires ChainInv(s) && ProducerInv(s) && StoresApart(s.producers) && Next(s, s')
    requires p in s.producers && !StepOf(s, s', p)
    ensures p in s'.producers && s'.producers[p] == s.producers[p] && (Ahead(s, s') || Level(s, s'))
  {
    if q, item :| CanReserve(s, q) && s' == Reserve(s, q, item) {
      ReserveEffect(s, q, item);
    } else if q :| q in s.producers && Safe(s, s.producers[q]) && s' == Advance(s, q) {
      OtherProducerStep(s, p, q);
    } else {
      ConsumerEffect(s, s');
    }
  }

  // ------------------------------------------------------------- the bound

  // The number with digits a, b, c.
  function Lex(base: nat, a: nat, b: nat, c: nat): nat {
    Times(base, Times(base, a) + b) + c
  }

  lemma LexGrows(base: nat, a: nat, b: nat, c: nat, a': nat, b': nat, c': nat)
    requires b < base && c < base
    requires a < a' || (a == a' && b < b') || (a == a' && b == b' && c < c')
    ensures Lex(base, a, b, c) < Lex(base, a', b', c')
  {
    TimesGap(base, a, a');
    TimesGap(base, Times(base, a) + b, Times(base, a') + b');
  }

  // More than any state comes to.
  function Most(max: nat): nat {
    Lex(max + 1, max + 1, 0, 0)
  }

  // How far the shared state has come, with at most `max` buffers.
  ghost function Come<T>(s: State<T>, max: nat): nat
    requires |Pending(s.producers)| <= max
  {
    Lex(max + 1, |s.chain|, max - |Pending(s.producers)|, TailPosition(s))
  }

  ghost predicate Ranked<T>(s: State<T>, max: nat) {
    && |Pending(s.producers)| <= max && InChain(s, s.tailOfQueue) && TailPosition(s) <= max
    && Come(s, max) <= Most(max)
  }

  // An upper bound on the steps p still takes.
  ghost function Rank<T>(s: State<T>, p: Pid, max: nat): nat
    requires p in s.producers && Ranked(s, max)
  {
    Times(2 * max + 11, Most(max) - Come(s, max)) + Left(s, s.producers[p], max)
  }

  ghost function RankIfAny<T>(s: State<T>, p: Pid, max: nat): nat
    requires Ranked(s, max)
  {
    if p in s.producers then Rank(s, p, max) else 0
  }

  // The most steps a call takes while there are at most `max` buffers.
  function StepBound(max: nat): nat {
    Times(2 * max + 11, Most(max) + 1)
  }

  lemma ComeGrows<T>(s: State<T>, s': State<T>, max: nat)
    requires Ranked(s, max) && Ranked(s', max) && (Ahead(s, s') || Level(s, s'))
    ensures if Ahead(s, s') then Come(s, max) < Come(s', max) else Come(s, max) == Come(s', max)
  {
    var n, n' := |Pending(s.producers)|, |Pending(s'.producers)|;
    if Ahead(s, s') {
      LexGrows(max + 1, |s.chain|, max - n, TailPosition(s), |s'.chain|, max - n', TailPosition(s'));
    }
  }

  lemma Weigh(weight: nat, high: nat, low: nat, left: nat, left': nat)
    requires low < high && left' < weight
    ensures Times(weight, low) + left' < Times(weight, high) + left
  {
    TimesGap(weight, low, high);
  }

  // The shared part of the rank falls, or p's own part does.
  lemma RankFalls<T>(s: State<T>, s': State<T>, p: Pid, max: nat)
    requires Ranked(s, max) && Ranked(s', max) && p in s.producers && p in s'.producers
    requires Left(s', s'.producers[p], max) <= 2 * max + 10
    requires Ahead(s, s') || (Level(s, s') && Left(s', s'.producers[p], max) <= Left(s, s.producers[p], max))
    ensures Rank(s', p, max) <= Rank(s, p, max)
    ensures Ahead(s, s') || Left(s', s'.producers[p], max) < Left(s, s.producers[p], max) ==>
              Rank(s', p, max) < Rank(s, p, max)
  {
    var left, left' := Left(s, s.producers[p], max), Left(s', s'.producers[p], max);
    ComeGrows(s, s', max);
    if Ahead(s, s') {
      Weigh(2 * max + 11, Most(max) - Come(s, max), Most(max) - Come(s', max), left, left');
    }
  }

  // The state is one a producer can be followed through.
  ghost predicate Tracked<T>(s: State<T>, max: nat) {
    ChainInv(s) && ProducerInv(s) && StoresApart(s.producers) && |s.chain| <= max
  }

  lemma TrackedIsRanked<T>(s: State<T>, max: nat)
    requires Tracked(s, max)
    ensures Ranked(s, max)
  {
    PendingFits(s);
    LexGrows(max + 1, |s.chain|, max - |Pending(s.producers)|, TailPosition(s), max + 1, 0, 0);
  }

  lemma TrackedLeft<T>(s: State<T>, p: Pid, max: nat)
    requires Tracked(s, max) && p in s.producers
    ensures 1 <= Left(s, s.producers[p], max) <= 2 * max + 10
  {
    assert ProducerOk(s, p);
    LeftFits(s, s.producers[p], max);
  }

  lemma RankBelow<T>(s: State<T>, p: Pid, max: nat)
    requires Ranked(s, max) && p in s.producers && Left(s, s.producers[p], max) <= 2 * max + 10
    ensures Rank(s, p, max) <= StepBound(max)
  {
    Weigh(2 * max + 11, Most(max) + 1, Most(max) - Come(s, max), 0, Left(s, s.producers[p], max));
  }

  lemma OwnStepRank<T>(s: State<T>, s': State<T>, p: Pid, max: nat)
    requires Tracked(s, max) && Tracked(s', max) && StepOf(s, s', p)
    ensures Ranked(s, max) && Ranked(s', max) && RankIfAny(s', p, max) < Rank(s, p, max)
  {
    TrackedIsRanked(s, max);
    TrackedIsRanked(s', max);
    TrackedLeft(s, p, max);
    if p in s'.producers {
      assert ProducerOk(s, p);
      OwnStepCounts(s, p, max);
      TrackedLeft(s', p, max);
      RankFalls(s, s', p, max);
    }
  }

  lemma OtherStepRank<T(!new)>(s: State<T>, s': State<T>, p: Pid, max: nat)
    requires Tracked(s, max) && Tracked(s', max) && Next(s, s') && p in s.producers && !StepOf(s, s', p)
    ensures Ranked(s, max) && Ranked(s', max) && RankIfAny(s', p, max) <= Rank(s, p, max)
  {
    TrackedIsRanked(s, max);
    TrackedIsRanked(s', max);
    OtherStep(s, s', p);
    assert ProducerOk(s, p);
    if Level(s, s') { LeftKept(s, s', s.producers[p], max); }
    TrackedLeft(s', p, max);
    RankFalls(s, s', p, max);
  }

  lemma StepRank<T(!new)>(s: State<T>, s': State<T>, p: Pid, max: nat)
    requires Tracked(s, max) && Tracked(s', max) && Next(s, s') && p in s.producers
    ensures Ranked(s, max) && Ranked(s', max)
    ensures (if StepOf(s, s', p) then 1 else 0) + RankIfAny(s', p, max) <= Rank(s, p, max)
  {
    if StepOf(s, s', p) {
      OwnStepRank(s, s', p, max);
    } else {
      OtherStepRank(s, s', p, max);
    }
  }

  // ------------------------------------------------------------- every run

  ghost function Own<T>(run: seq<State<T>>, p: Pid, i: nat): nat
    requires i + 1 < |run|
  {
    if StepOf(run[i], run[i + 1], p) then 1 else 0
  }

  // How many of the steps from j to k are p's.
  ghost function OwnSteps<T>(run: seq<State<T>>, p: Pid, j: nat, k: nat): nat
    requires j <= k < |run|
    decreases k
  {
    if j == k then 0 else OwnSteps(run, p, j, k - 1) + Own(run, p, k - 1)
  }

  // p is inside one call from j until k.
  ghost predicate InCall<T>(run: seq<State<T>>, p: Pid, j: nat, k: nat)
    requires j <= k < |run|
  {
    forall i :: j <= i < k ==> p in run[i].producers
  }

  lemma RunTracked<T(!new)>(run: seq<State<T>>, i: nat, k: nat)
    requires IsRun(run) && i <= k < |run| && WithinLimit(run[k])
    ensures Tracked(run[i], |run[k].chain|)
  {
    HistoryGrows(run, i, k);
    RunInv(run, i);
    RunApart(run, i);
  }

  lemma RunRanked<T(!new)>(run: seq<State<T>>, i: nat, k: nat)
    requires IsRun(run) && i <= k < |run| && WithinLimit(run[k])
    ensures Ranked(run[i], |run[k].chain|)
  {
    RunTracked(run, i, k);
    TrackedIsRanked(run[i], |run[k].chain|);
  }

  lemma RankStep<T(!new)>(run: seq<State<T>>, p: Pid, i: nat, k: nat)
    requires IsRun(run) && i < k < |run| && WithinLimit(run[k]) && p in run[i].producers
    ensures var max := |run[k].chain|;
            && Ranked(run[i], max) && Ranked(run[i + 1], max)
            && Own(run, p, i) + RankIfAny(run[i + 1], p, max) <= Rank(run[i], p, max)
  {
    RunTracked(run, i, k);
    RunTracked(run, i + 1, k);
    assert NextAt(run, i);
    StepRank(run[i], run[i + 1], p, |run[k].chain|);
  }

  lemma {:induction false} RankCounts<T(!new)>(run: seq<State<T>>, p: Pid, j: nat, i: nat, k: nat)
    requires IsRun(run) && j <= i <= k < |run| && WithinLimit(run[k]) && InCall(run, p, j, i) && p in run[j].producers
    ensures var max := |run[k].chain|;
            && Ranked(run[j], max) && Ranked(run[i], max)
            && OwnSteps(run, p, j, i) + RankIfAny(run[i], p, max) <= Rank(run[j], p, max)
    decreases i
  {
    RunRanked(run, j, k);
    if j < i {
      RankCounts(run, p, j, i - 1, k);
      RankStep(run, p, i - 1, k);
    }
  }

  // In every run, a call of `enqueue` takes no more steps than a number that
  // depends only on how many buffers there are, whatever the schedule; as long as
  // it is not done it has taken fewer, and its next step can be taken.
  lemma EnqueueFinishes<T(!new)>(run: seq<State<T>>, p: Pid, j: nat, k: nat)
    requires IsRun(run) && j <= k < |run| && WithinLimit(run[k]) && InCall(run, p, j, k) && p in run[j].producers
    ensures OwnSteps(run, p, j, k) <= StepBound(|run[k].chain|)
    ensures p in run[k].producers ==>
              OwnSteps(run, p, j, k) < StepBound(|run[k].chain|) && Safe(run[k], run[k].producers[p])
    ensures |run[k].chain| <= MaxBuffers(run[k].bufferSize) + 1
  {
    var max := |run[k].chain|;
    RankCounts(run, p, j, k, k);
    RunTracked(run, j, k);
    TrackedLeft(run[j], p, max);
    RankBelow(run[j], p, max);
    RunTracked(run, k, k);
    if p in run[k].producers {
      TrackedLeft(run[k], p, max);
      ChainInEveryRun(run, k);
    }
  }

  lemma MostIs(max: nat, base: nat)
    requires base == max + 1
    ensures Most(max) == base * (base * base)
  {
    TimesIs(base, base);
    TimesIs(base, base * base);
  }

  lemma StepBoundIs(max: nat, base: nat)
    requires base == max + 1
    ensures StepBound(max) == (2 * max + 11) * (base * (base * base) + 1)
  {
    MostIs(max, base);
    TimesIs(2 * max + 11, base * (base * base) + 1);
  }
}
