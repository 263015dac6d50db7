// What the finished fragment tree keeps of the plan.
module FragmentProperties {
  import opened Prelude
  import opened Fragments

  // ---------------------------------------------------- operators by kind

  // Administration, data entry and text match, which stand alone.
  predicate CommandKind(kind: OperatorType) {
    match kind
    case Command | Alter | CreateTable | CreateIndex | CreateCollection | CreateDatabase
       | CreateView | DropTable | DropIndex | DropCollection | DropDatabase | DropView
       | PreparedPlan | Show | Flush | Optimize | Insert | Import | Export | Match => true
    case _ => false
  }

  predicate TableKind(kind: OperatorType) {
    match kind
    case TableScan | IndexScan | KnnScan => true
    case _ => false
  }

  predicate StreamingKind(kind: OperatorType) {
    match kind
    case ParallelAggregate | Filter | Hash | Limit | Top => true
    case _ => false
  }

  predicate BlockingKind(kind: OperatorType) {
    match kind
    case Sort | Update | Delete => true
    case _ => false
  }

  predicate MergingKind(kind: OperatorType) {
    match kind
    case Fusion | MergeParallelAggregate | MergeHash | MergeLimit | MergeTop | MergeSort | MergeKnn => true
    case _ => false
  }

  // Set operations, joins and the dummy scan are not executed in fragments.
  predicate UnsupportedKind(kind: OperatorType) {
    match kind
    case Invalid | UnionAll | Intersect | Except | DummyScan | JoinHash | JoinNestedLoop | JoinMerge
       | JoinIndex | CrossProduct => true
    case _ => false
  }

  // The builder has no case for these.
  predicate QueueEnd(kind: OperatorType) {
    match kind
    case Sink | Source => true
    case _ => false
  }

  lemma ChildlessCases(kind: OperatorType)
    ensures CommandKind(kind) <==> CaseOf(kind) == CommandLike
    ensures TableKind(kind) && kind != KnnScan <==> CaseOf(kind) == Scanning
    ensures kind == KnnScan <==> CaseOf(kind) == KnnScanning
    ensures UnsupportedKind(kind) <==> CaseOf(kind) == Bad
    ensures QueueEnd(kind) <==> CaseOf(kind) == Ignored
  {
  }

  lemma InputCases(kind: OperatorType)
    ensures StreamingKind(kind) <==> CaseOf(kind) == Streaming
    ensures BlockingKind(kind) <==> CaseOf(kind) == Blocking
    ensures MergingKind(kind) <==> CaseOf(kind) == Merging
    ensures kind == Projection <==> CaseOf(kind) == Projecting
    ensures kind == Aggregate <==> CaseOf(kind) == Aggregating
  {
  }

  // ------------------------------------------------ the plan can be rebuilt

  // Operators that pass their input on inside one fragment.
  predicate PassingKind(kind: OperatorType) {
    kind == Projection || StreamingKind(kind) || BlockingKind(kind)
  }

  predicate Unary(op: Operator) {
    PassingKind(op.kind) || op.kind == Aggregate
  }

  // What the builder visits: it never follows the right child of a unary operator.
  function Visited(p: Plan): Plan {
    Plan(p.op,
         if p.left.Some? then Some(Visited(p.left.value)) else None,
         if p.right.Some? && !Unary(p.op) then Some(Visited(p.right.value)) else None)
  }

  // Every visited operator is one the builder places.
  predicate Placeable(p: Plan) {
    && !UnsupportedKind(p.op.kind) && !QueueEnd(p.op.kind)
    && (p.left.Some? ==> Placeable(p.left.value))
    && (p.right.Some? && !Unary(p.op) ==> Placeable(p.right.value))
  }

  // No unary operator has a right child.
  predicate NothingHidden(p: Plan) {
    && (p.left.Some? ==> NothingHidden(p.left.value))
    && (p.right.Some? ==> !Unary(p.op) && NothingHidden(p.right.value))
  }

  lemma VisitedIsAll(p: Plan)
    ensures Visited(p) == p <==> NothingHidden(p)
  {
  }

  predicate Filled(f: Fragment) {
    f.ops != [] && |f.children| <= 2 && forall c :: c in f.children ==> Filled(c)
  }

  // Chain the operators and splice the child fragments under the last one.
  function Rebuild(ops: seq<Operator>, children: seq<Fragment>): Plan
    requires ops != [] && forall c :: c in children ==> Filled(c)
    decreases children, |ops|
  {
    if |ops| > 1 then Plan(ops[0], Some(Rebuild(ops[1..], children)), None)
    else
      Plan(ops[0],
           if |children| > 0 then
             assert children[0] in children && Filled(children[0]);
             Some(Rebuild(children[0].ops, children[0].children))
           else None,
           if |children| > 1 then
             assert children[1] in children && Filled(children[1]);
             Some(Rebuild(children[1].ops, children[1].children))
           else None)
  }

  function Splice(f: Fragment): Plan
    requires Filled(f)
  {
    Rebuild(f.ops, f.children)
  }

  // The operators added to f, with g's children, are the visited plan.
  ghost predicate Adds(p: Plan, f: Fragment, g: Fragment) {
    && g.id == f.id && g.sink == f.sink && f.ops < g.ops
    && |g.children| <= 2 && (forall c :: c in g.children ==> Filled(c))
    && Rebuild(g.ops[|f.ops|..], g.children) == Visited(p)
  }

  lemma AddsBelow(p: Plan, f: Fragment, f': Fragment, g: Fragment)
    requires p.left.Some? && Unary(p.op) && Adds(p.left.value, f', g)
    requires f'.id == f.id && f'.sink == f.sink && f'.ops == f.ops + [p.op]
    ensures Adds(p, f, g)
  {
    var ops := g.ops[|f.ops|..];
    assert ops[0] == g.ops[|f.ops|] == f'.ops[|f.ops|] == p.op;
    assert ops[1..] == g.ops[|f'.ops|..];
  }

  lemma {:induction false} BuildAdds(p: Plan, f: Fragment, nextId: nat)
    requires Build(p, f, nextId).Built? && Placeable(p) && f.children == []
    ensures Adds(p, f, Build(p, f, nextId).fragment)
    decreases p, 0
  {
    var g := Build(p, f, nextId).fragment;
    var added := f.(ops := f.ops + [p.op]);
    ChildlessCases(p.op.kind);
    InputCases(p.op.kind);
    match CaseOf(p.op.kind)
    case CommandLike => assert g.ops[|f.ops|..] == [p.op];
    case KnnScanning => assert g.ops[|f.ops|..] == [p.op];
    case Scanning => assert g.ops[|f.ops|..] == [p.op];
    case Projecting =>
      if p.left.None? {
        assert g.ops[|f.ops|..] == [p.op];
      } else {
        BuildAdds(p.left.value, added.(fragmentType := ParallelStream), nextId);
        AddsBelow(p, f, added.(fragmentType := ParallelStream), g);
      }
    case Streaming =>
      BuildAdds(p.left.value, added.(fragmentType := ParallelMaterialize), nextId);
      AddsBelow(p, f, added.(fragmentType := ParallelMaterialize), g);
    case Blocking =>
      BuildAdds(p.left.value, added, nextId);
      AddsBelow(p, f, added, g);
    case Aggregating =>
      ChildAdds(p.left.value, added.(fragmentType := ParallelMaterialize, source := Some(LocalQueue)), nextId);
      assert g.ops[|f.ops|..] == [p.op];
    case Merging =>
      var start := added.(fragmentType := SerialMaterialize, source := Some(LocalQueue));
      ChildAdds(p.left.value, start, nextId);
      assert g.ops[|f.ops|..] == [p.op];
      if p.right.Some? {
        var r := BuildChild(p.left.value, start, nextId);
        ChildAdds(p.right.value, r.fragment, r.nextId);
      }
  }

  lemma {:induction false} ChildAdds(p: Plan, f: Fragment, nextId: nat)
    requires BuildChild(p, f, nextId).Built? && Placeable(p)
    ensures var g := BuildChild(p, f, nextId).fragment;
            && g == f.(children := g.children) && |g.children| == |f.children| + 1 && f.children <= g.children
            && Filled(g.children[|f.children|]) && Splice(g.children[|f.children|]) == Visited(p)
    decreases p, 1
  {
    BuildAdds(p, NewFragment(nextId, LocalQueueSink), nextId + 1);
    var child := BuildChild(p, f, nextId).fragment.children[|f.children|];
    assert child.ops[0..] == child.ops;
  }

  // Splicing the fragments back rebuilds the plan exactly when no unary
  // operator has a right child.
  lemma FragmentsRebuildPlan(p: Plan, id: nat, sink: SinkType, nextId: nat)
    requires Build(p, NewFragment(id, sink), nextId).Built? && Placeable(p)
    ensures var f := Build(p, NewFragment(id, sink), nextId).fragment;
            Filled(f) && Splice(f) == Visited(p) && (Splice(f) == p <==> NothingHidden(p))
  {
    var f := Build(p, NewFragment(id, sink), nextId).fragment;
    BuildAdds(p, NewFragment(id, sink), nextId);
    assert f.ops[0..] == f.ops;
    VisitedIsAll(p);
  }

  function Preorder(p: Plan): seq<Operator> {
    [p.op] + (if p.left.Some? then Preorder(p.left.value) else []) +
    (if p.right.Some? then Preorder(p.right.value) else [])
  }

  // Every operator a fragment tree holds, fragment by fragment.
  function AllOps(f: Fragment): seq<Operator> {
    f.ops + ChildOps(f.children)
  }

  function ChildOps(fs: seq<Fragment>): seq<Operator> {
    if fs == [] then [] else AllOps(fs[0]) + ChildOps(fs[1..])
  }

  lemma {:induction false} RebuildKeepsOps(ops: seq<Operator>, children: seq<Fragment>)
    requires ops != [] && |children| <= 2 && forall c :: c in children ==> Filled(c)
    ensures Preorder(Rebuild(ops, children)) == ops + ChildOps(children)
    decreases children, |ops|
  {
    if |ops| > 1 {
      RebuildKeepsOps(ops[1..], children);
      assert ops == [ops[0]] + ops[1..];
    } else {
      assert ops == [ops[0]];
      if |children| > 0 {
        assert children[0] in children;
        RebuildKeepsOps(children[0].ops, children[0].children);
      }
      if |children| > 1 {
        assert children[1] in children;
        RebuildKeepsOps(children[1].ops, children[1].children);
      }
      if |children| == 1 {
        assert children[1..] == [] && ChildOps(children) == AllOps(children[0]);
      } else if |children| == 2 {
        assert children[1..] == [children[1]] && [children[1]][1..] == [];
        assert ChildOps(children) == AllOps(children[0]) + AllOps(children[1]);
      }
    }
  }

  // Each visited operator is in exactly one fragment, root to leaf.
  lemma FragmentsHoldEachOperatorOnce(p: Plan, id: nat, sink: SinkType, nextId: nat)
    requires Build(p, NewFragment(id, sink), nextId).Built? && Placeable(p)
    ensures AllOps(Build(p, NewFragment(id, sink), nextId).fragment) == Preorder(Visited(p))
  {
    var f := Build(p, NewFragment(id, sink), nextId).fragment;
    FragmentsRebuildPlan(p, id, sink, nextId);
    RebuildKeepsOps(f.ops, f.children);
  }

  // A queue end in the plan leaves the fragment as it is and ends the descent.
  lemma QueueEndIgnored(p: Plan, f: Fragment, nextId: nat)
    requires QueueEnd(p.op.kind)
    ensures Build(p, f, nextId) == Built(f, nextId)
  {
    ChildlessCases(p.op.kind);
  }

  // The plans the builder accepts: no visited operator is unsupported, commands
  // and scans have no input, and everything else but a projection has one.
  predicate Accepted(p: Plan) {
    var kind := p.op.kind;
    && !UnsupportedKind(kind)
    && (CommandKind(kind) || TableKind(kind) ==> p.left.None? && p.right.None?)
    && (StreamingKind(kind) || BlockingKind(kind) || MergingKind(kind) || kind == Aggregate ==> p.left.Some?)
    && (p.left.Some? && !QueueEnd(kind) ==> Accepted(p.left.value))
    && (p.right.Some? && MergingKind(kind) ==> Accepted(p.right.value))
  }

  // Whether the builder throws depends on the plan alone.
  lemma {:induction false} BuiltExactlyWhenAccepted(p: Plan, f: Fragment, nextId: nat)
    ensures Build(p, f, nextId).Built? <==> Accepted(p)
    decreases p
  {
    ChildlessCases(p.op.kind);
    InputCases(p.op.kind);
    var added := f.(ops := f.ops + [p.op]);
    if p.left.Some? {
      var l := p.left.value;
      BuiltExactlyWhenAccepted(l, NewFragment(nextId, LocalQueueSink), nextId + 1);
      BuiltExactlyWhenAccepted(l, added, nextId);
      BuiltExactlyWhenAccepted(l, added.(fragmentType := ParallelStream), nextId);
      BuiltExactlyWhenAccepted(l, added.(fragmentType := ParallelMaterialize), nextId);
      if p.right.Some? && MergingKind(p.op.kind) && Accepted(l) {
        var n := BuildChild(l, added.(fragmentType := SerialMaterialize, source := Some(LocalQueue)), nextId).nextId;
        BuiltExactlyWhenAccepted(p.right.value, NewFragment(n, LocalQueueSink), n + 1);
      }
    }
  }

  // ------------------------------------------------------- fragment types

  predicate EndKind(kind: OperatorType) {
    CommandKind(kind) || TableKind(kind) || MergingKind(kind) || kind == Aggregate || kind == Projection
  }

  // A pipeline: operators that pass their input on, down to one that does not.
  predicate Pipeline(ops: seq<Operator>) {
    && ops != [] && EndKind(ops[|ops| - 1].kind)
    && forall i :: 0 <= i < |ops| - 1 ==> PassingKind(ops[i].kind)
  }

  function EndType(last: Operator): FragmentType {
    if MergingKind(last.kind) || CommandKind(last.kind) then SerialMaterialize
    else if last.kind == KnnScan then KnnType(last)
    else if last.kind == Aggregate then ParallelMaterialize
    else ParallelStream
  }

  // The type the operators of a finished fragment determine.
  function TypeOf(ops: seq<Operator>): FragmentType
    requires ops != []
  {
    var last := ops[|ops| - 1];
    if exists i :: 0 <= i < |ops| && BlockingKind(ops[i].kind) then SerialMaterialize
    else EndType(last)
  }

  // Where a fragment that ends in this kind of operator takes its input.
  ghost predicate Fed(kind: OperatorType, source: Option<SourceType>) {
    && (source == Some(Table) <==> kind in {TableScan, IndexScan, KnnScan})
    && (source == Some(LocalQueue) <==> MergingKind(kind) || kind == Aggregate)
    && (source == Some(Empty) <==> CommandKind(kind) || kind == Projection)
  }

  ghost predicate Linked(f: Fragment) {
    && (f.children != [] <==> f.source == Some(LocalQueue))
    && f.source.Some?
    && forall c :: c in f.children ==> c.sink == LocalQueueSink
  }

  ghost predicate Finished(f: Fragment) {
    && Pipeline(f.ops) && f.fragmentType == TypeOf(f.ops)
    && Linked(f) && Fed(f.ops[|f.ops| - 1].kind, f.source)
    && forall c :: c in f.children ==> Finished(c)
  }

  lemma PassingFirst(op: Operator, ops: seq<Operator>)
    requires PassingKind(op.kind) && Pipeline(ops)
    ensures Pipeline([op] + ops)
    ensures TypeOf([op] + ops) == if BlockingKind(op.kind) then SerialMaterialize else TypeOf(ops)
  {
    var all := [op] + ops;
    if BlockingKind(op.kind) { assert BlockingKind(all[0].kind); }
    if i :| 0 <= i < |ops| && BlockingKind(ops[i].kind) { assert BlockingKind(all[i + 1].kind); }
  }

  // Despite the assignments before and after the recursion, the operators that
  // p adds fix the type.
  ghost predicate Fixes(f: Fragment, g: Fragment) {
    && |g.ops| > |f.ops| && f.ops <= g.ops
    && Pipeline(g.ops[|f.ops|..]) && g.fragmentType == TypeOf(g.ops[|f.ops|..])
    && Linked(g) && Fed(g.ops[|g.ops| - 1].kind, g.source)
    && forall c :: c in g.children ==> Finished(c)
  }

  lemma FixesEnd(op: Operator, f: Fragment, g: Fragment)
    requires EndKind(op.kind) && g.ops == f.ops + [op] && g.fragmentType == EndType(op)
    requires Linked(g) && Fed(op.kind, g.source) && forall c :: c in g.children ==> Finished(c)
    ensures Fixes(f, g)
  {
    assert g.ops[|f.ops|..] == [op];
    EndNotBlocking(op.kind);
  }

  lemma EndNotBlocking(kind: OperatorType)
    requires EndKind(kind)
    ensures !BlockingKind(kind)
  {
  }

  lemma DropOne(op: Operator, ops: seq<Operator>, all: seq<Operator>)
    requires ops + [op] <= all
    ensures ops <= all && all[|ops|..] == [op] + all[|ops| + 1..]
  {
    assert all[|ops|] == (ops + [op])[|ops|];
  }

  // g below f' keeps what it fixes below f, where f' is f and one operator more.
  lemma FixesBelow(op: Operator, f: Fragment, f': Fragment, g: Fragment, g': Fragment)
    requires PassingKind(op.kind) && f'.ops == f.ops + [op] && Fixes(f', g)
    requires g' == if BlockingKind(op.kind) then g.(fragmentType := SerialMaterialize) else g
    ensures Fixes(f, g')
  {
    DropOne(op, f.ops, g.ops);
    PassingFirst(op, g.ops[|f'.ops|..]);
  }

  lemma {:induction false} BuildFixes(p: Plan, f: Fragment, nextId: nat)
    requires Build(p, f, nextId).Built? && Placeable(p) && f.children == [] && f.source == None
    ensures Fixes(f, Build(p, f, nextId).fragment)
    decreases p, 0
  {
    var g := Build(p, f, nextId).fragment;
    var added := f.(ops := f.ops + [p.op]);
    ChildlessCases(p.op.kind);
    InputCases(p.op.kind);
    if PassingKind(p.op.kind) && p.left.Some? {
      BuildFixesBelow(p, f, nextId);
    } else if p.op.kind == Aggregate {
      ChildFinished(p.left.value, added.(fragmentType := ParallelMaterialize, source := Some(LocalQueue)), nextId);
      FixesEnd(p.op, f, g);
    } else if MergingKind(p.op.kind) {
      var start := added.(fragmentType := SerialMaterialize, source := Some(LocalQueue));
      ChildFinished(p.left.value, start, nextId);
      if p.right.Some? {
        var r := BuildChild(p.left.value, start, nextId);
        ChildFinished(p.right.value, r.fragment, r.nextId);
      }
      FixesEnd(p.op, f, g);
    } else {
      FixesEnd(p.op, f, g);
    }
  }

  lemma {:induction false} BuildFixesBelow(p: Plan, f: Fragment, nextId: nat)
    requires Build(p, f, nextId).Built? && Placeable(p) && f.children == [] && f.source == None
    requires PassingKind(p.op.kind) && p.left.Some?
    ensures Fixes(f, Build(p, f, nextId).fragment)
    decreases p.left.value, 1
  {
    InputCases(p.op.kind);
    var added := f.(ops := f.ops + [p.op]);
    var f' := if p.op.kind == Projection then added.(fragmentType := ParallelStream)
              else if StreamingKind(p.op.kind) then added.(fragmentType := ParallelMaterialize)
              else added;
    BuildFixes(p.left.value, f', nextId);
    FixesBelow(p.op, f, f', Build(p.left.value, f', nextId).fragment, Build(p, f, nextId).fragment);
  }

  lemma {:induction false} ChildFinished(p: Plan, f: Fragment, nextId: nat)
    requires BuildChild(p, f, nextId).Built? && Placeable(p)
    ensures var g := BuildChild(p, f, nextId).fragment;
            && g == f.(children := g.children) && |g.children| == |f.children| + 1 && f.children <= g.children
            && Finished(g.children[|f.children|]) && g.children[|f.children|].sink == LocalQueueSink
    decreases p, 1
  {
    var start := NewFragment(nextId, LocalQueueSink);
    BuildFixes(p, start, nextId + 1);
    BuildAdds(p, start, nextId + 1);
    var child := Build(p, start, nextId + 1).fragment;
    assert child.ops[0..] == child.ops;
  }

  // In every fragment of the tree the operators alone fix the type, children
  // and a queue source go together, and children sink into the queue.
  lemma FragmentsFinished(p: Plan, id: nat, sink: SinkType, nextId: nat)
    requires Build(p, NewFragment(id, sink), nextId).Built? && Placeable(p)
    ensures Finished(Build(p, NewFragment(id, sink), nextId).fragment)
  {
    var f := Build(p, NewFragment(id, sink), nextId).fragment;
    BuildFixes(p, NewFragment(id, sink), nextId);
    assert f.ops[0..] == f.ops;
  }

  predicate HoldsBlocking(f: Fragment) {
    exists i :: 0 <= i < |f.ops| && BlockingKind(f.ops[i].kind)
  }

  // A fragment is serial exactly when it holds a sort, update or delete, or ends
  // in a fusion or merge, a command or a one-task KNN scan. It materializes in
  // parallel exactly when it holds none of the three and ends in an aggregate or
  // a KNN scan of other than one task, and streams exactly when it holds none
  // and ends in a table scan, an index scan or a projection without input.
  ghost predicate TypedByKind(f: Fragment) {
    && f.ops != []
    && var last := f.ops[|f.ops| - 1];
    && (f.fragmentType == SerialMaterialize <==>
          || HoldsBlocking(f) || MergingKind(last.kind) || CommandKind(last.kind)
          || (last.kind == KnnScan && last.taskCount == 1))
    && (f.fragmentType == ParallelMaterialize <==>
          !HoldsBlocking(f) && (last.kind == Aggregate || (last.kind == KnnScan && last.taskCount != 1)))
    && (f.fragmentType == ParallelStream <==>
          !HoldsBlocking(f) && last.kind in {TableScan, IndexScan, Projection})
    && Fed(last.kind, f.source)
    && forall c :: c in f.children ==> TypedByKind(c)
  }

  lemma {:induction false} FinishedTyped(f: Fragment)
    requires Finished(f)
    ensures TypedByKind(f)
  {
    forall c | c in f.children ensures TypedByKind(c) { FinishedTyped(c); }
  }

  // The kinds of its operators give every fragment of the tree its type and its
  // source.
  lemma SerialExactlyWhen(p: Plan, id: nat, sink: SinkType, nextId: nat)
    requires Build(p, NewFragment(id, sink), nextId).Built? && Placeable(p)
    ensures TypedByKind(Build(p, NewFragment(id, sink), nextId).fragment)
  {
    FragmentsFinished(p, id, sink, nextId);
    FinishedTyped(Build(p, NewFragment(id, sink), nextId).fragment);
  }

  // ---------------------------------------------------------- fragment ids

  function Ids(f: Fragment): seq<nat> {
    [f.id] + ChildIds(f.children)
  }

  function ChildIds(fs: seq<Fragment>): seq<nat> {
    if fs == [] then [] else Ids(fs[0]) + ChildIds(fs[1..])
  }

  function Interval(lo: nat, hi: nat): (s: seq<nat>)
    requires lo <= hi
    ensures |s| == hi - lo && forall i :: 0 <= i < |s| ==> s[i] == lo + i
  {
    seq(hi - lo, i requires 0 <= i < hi - lo => lo + i)
  }

  lemma {:induction false} ChildIdsAppend(fs: seq<Fragment>, c: Fragment)
    ensures ChildIds(fs + [c]) == ChildIds(fs) + Ids(c)
  {
    if fs == [] {
      assert fs + [c] == [c] && [c][1..] == [];
    } else {
      assert (fs + [c])[1..] == fs[1..] + [c];
      ChildIdsAppend(fs[1..], c);
    }
  }

  // Fragment ids are handed out once each, in preorder.
  lemma {:induction false} IdsAreConsecutive(p: Plan, f: Fragment, nextId: nat)
    requires Build(p, f, nextId).Built? && f.children == []
    ensures var r := Build(p, f, nextId);
            nextId <= r.nextId && r.fragment.id == f.id && ChildIds(r.fragment.children) == Interval(nextId, r.nextId)
    decreases p, 0
  {
    var added := f.(ops := f.ops + [p.op]);
    match CaseOf(p.op.kind)
    case Projecting =>
      if p.left.Some? { IdsAreConsecutive(p.left.value, added.(fragmentType := ParallelStream), nextId); }
    case Streaming => IdsAreConsecutive(p.left.value, added.(fragmentType := ParallelMaterialize), nextId);
    case Blocking => IdsAreConsecutive(p.left.value, added, nextId);
    case Aggregating =>
      ChildIdsConsecutive(
        p.left.value, added.(fragmentType := ParallelMaterialize, source := Some(LocalQueue)), nextId);
    case Merging =>
      var start := added.(fragmentType := SerialMaterialize, source := Some(LocalQueue));
      ChildIdsConsecutive(p.left.value, start, nextId);
      if p.right.Some? {
        var r := BuildChild(p.left.value, start, nextId);
        ChildIdsConsecutive(p.right.value, r.fragment, r.nextId);
      }
    case _ =>
  }

  lemma {:induction false} ChildIdsConsecutive(p: Plan, f: Fragment, nextId: nat)
    requires BuildChild(p, f, nextId).Built?
    ensures var r := BuildChild(p, f, nextId);
            && nextId <= r.nextId && r.fragment.id == f.id
            && ChildIds(r.fragment.children) == ChildIds(f.children) + Interval(nextId, r.nextId)
    decreases p, 1
  {
    var start := NewFragment(nextId, LocalQueueSink);
    IdsAreConsecutive(p, start, nextId + 1);
    var r := Build(p, start, nextId + 1);
    ChildIdsAppend(f.children, r.fragment);
    assert Interval(nextId, r.nextId) == [nextId] + Interval(nextId + 1, r.nextId);
  }

  // ------------------------------------------------------ the root's source

  // BuildFragment replaces the root's source, so the source still tells
  // whether the root has children exactly when it has none.
  lemma RootSourceReplaced(p: Plan, nextId: nat)
    requires Build(p, NewFragment(nextId, ResultSink), nextId + 1).Built? && Placeable(p)
    ensures var f := Build(p, NewFragment(nextId, ResultSink), nextId + 1).fragment;
            Linked(f.(source := if f.source.Some? then Some(Empty) else None)) <==> f.children == []
  {
    FragmentsFinished(p, nextId, ResultSink, nextId + 1);
  }
}
