// Logical plan to physical plan, and the place of KNN scans in its fragments.
module Planner {
  import opened Prelude
  import opened Fragments
  import opened FragmentProperties

  datatype LogicalType =
    | LCreateTable | LCreateIndex | LCreateCollection | LCreateSchema | LDropTable | LDropIndex | LDropCollection
    | LDropSchema | LCreateView | LDropView | LAlter | LInsert | LDelete | LUpdate | LImport | LExport
    | LShow | LMatch | LFusion | LTableScan | LViewScan | LDummyScan
    | LAggregate | LJoin | LCrossProduct | LSort | LLimit | LFilter | LProjection
    | LUnion | LExcept | LIntersect | LFlush | LOptimize | LKnnScan | LCommand | LUnknown

  // A table segment: searched through its index, or block by block.
  datatype Segment = Segment(indexed: bool, blockCount: nat)

  // `segments` is the table a KNN scan reads; `mergeId` the node id the query
  // context hands out for its merge operator.
  datatype LogicalNode = LogicalNode(
    kind: LogicalType, id: nat, segments: seq<Segment>, mergeId: nat,
    left: Option<LogicalNode>, right: Option<LogicalNode>)

  datatype Planned = Plans(plan: Plan) | PlannerError

  // One task for each indexed segment and for each block of the others.
  function TaskCount(segments: seq<Segment>): nat {
    if segments == [] then 0
    else (if segments[0].indexed then 1 else segments[0].blockCount) + TaskCount(segments[1..])
  }

  // Operators built without looking at the node's children.
  function LeafKind(kind: LogicalType): Option<OperatorType> {
    match kind
    case LCreateTable => Some(CreateTable)
    case LCreateIndex => Some(CreateIndex)
    case LCreateCollection => Some(CreateCollection)
    case LCreateSchema => Some(CreateDatabase)
    case LDropTable => Some(DropTable)
    case LDropIndex => Some(DropIndex)
    case LDropCollection => Some(DropCollection)
    case LDropSchema => Some(DropDatabase)
    case LCreateView => Some(CreateView)
    case LDropView => Some(DropView)
    case LAlter => Some(Alter)
    case LInsert => Some(Insert)
    case LImport => Some(Import)
    case LExport => Some(Export)
    case LShow => Some(Show)
    case LMatch => Some(Match)
    case LTableScan => Some(TableScan)
    case LDummyScan => Some(DummyScan)
    case LUnion => Some(UnionAll)
    case LExcept => Some(JoinHash)
    case LIntersect => Some(JoinHash)
    case LFlush => Some(Flush)
    case LOptimize => Some(Optimize)
    case LCommand => Some(Command)
    case _ => None
  }

  function UnaryKind(kind: LogicalType): Option<OperatorType> {
    match kind
    case LDelete => Some(Delete)
    case LUpdate => Some(Update)
    case LSort => Some(Sort)
    case LLimit => Some(Limit)
    case LFilter => Some(Filter)
    case LProjection => Some(Projection)
    case LAggregate => Some(Aggregate)
    case _ => None
  }

  // These two accept a missing input.
  predicate InputOptional(kind: LogicalType) {
    kind == LProjection || kind == LAggregate
  }

  function BinaryKind(kind: LogicalType): Option<OperatorType> {
    match kind
    case LJoin => Some(JoinNestedLoop)
    case LCrossProduct => Some(CrossProduct)
    case LFusion => Some(Fusion)
    case _ => None
  }

  function Node(kind: OperatorType, n: LogicalNode, left: Option<Plan>, right: Option<Plan>): Planned {
    Plans(Plan(Operator(kind, n.id, 0), left, right))
  }

  function BuildPhysicalOperator(n: LogicalNode): Planned
    decreases n
  {
    if LeafKind(n.kind).Some? then Node(LeafKind(n.kind).value, n, None, None)
    else if UnaryKind(n.kind).Some? then
      if n.right.Some? then PlannerError
      else if n.left.None? then
        if InputOptional(n.kind) then Node(UnaryKind(n.kind).value, n, None, None) else PlannerError
      else
        (match BuildPhysicalOperator(n.left.value)
         case PlannerError => PlannerError
         case Plans(p) => Node(UnaryKind(n.kind).value, n, Some(p), None))
    else if BinaryKind(n.kind).Some? then
      if n.kind != LFusion && (n.left.None? || n.right.None?) then PlannerError
      else
        var l := if n.left.Some? then BuildPhysicalOperator(n.left.value) else PlannerError;
        var r := if n.right.Some? then BuildPhysicalOperator(n.right.value) else PlannerError;
        if (n.left.Some? && l.PlannerError?) || (n.right.Some? && r.PlannerError?) then PlannerError
        else Node(BinaryKind(n.kind).value, n,
                  if n.left.Some? then Some(l.plan) else None,
                  if n.right.Some? then Some(r.plan) else None)
    else if n.kind == LKnnScan then BuildKnn(n)
    else PlannerError
  }

  function BuildKnn(n: LogicalNode): Planned {
    var scan := Plan(Operator(KnnScan, n.id, TaskCount(n.segments)), None, None);
    if scan.op.taskCount == 1 then Plans(scan)
    else Plans(Plan(Operator(MergeKnn, n.mergeId, 0), Some(scan), None))
  }

  // ------------------------------------------------------------- properties

  predicate ManyTasks(op: Operator) {
    op.kind == KnnScan && op.taskCount != 1
  }

  // A KNN scan of other than one task stands only below a merge.
  predicate ScansMerged(p: Plan) {
    && (p.left.Some? ==>
          && ScansMerged(p.left.value)
          && (ManyTasks(p.left.value.op) ==> p.op.kind == MergeKnn))
    && (p.right.Some? ==> ScansMerged(p.right.value) && !ManyTasks(p.right.value.op))
  }

  // Only BuildKnn makes KNN scans, nothing makes queue ends, and the binary
  // operators are not unary ones.
  lemma KindsMade(kind: LogicalType)
    ensures LeafKind(kind).Some? ==> LeafKind(kind).value !in {KnnScan, Sink, Source}
    ensures UnaryKind(kind).Some? ==> UnaryKind(kind).value !in {KnnScan, Sink, Source}
    ensures BinaryKind(kind).Some? ==> BinaryKind(kind).value in {JoinNestedLoop, CrossProduct, Fusion}
  {
  }

  predicate NoQueueEnds(p: Plan) {
    && p.op.kind !in {Sink, Source}
    && (p.left.Some? ==> NoQueueEnds(p.left.value)) && (p.right.Some? ==> NoQueueEnds(p.right.value))
  }

  predicate WellShaped(p: Plan) {
    NothingHidden(p) && NoQueueEnds(p) && ScansMerged(p) && !ManyTasks(p.op)
  }

  lemma NodeShaped(op: Operator, left: Option<Plan>, right: Option<Plan>)
    requires op.kind !in {KnnScan, Sink, Source}
    requires left.Some? ==> WellShaped(left.value)
    requires right.Some? ==> WellShaped(right.value) && op.kind in {JoinNestedLoop, CrossProduct, Fusion}
    ensures WellShaped(Plan(op, left, right))
  {
  }

  // The planner hides no operator from the fragment builder and merges every
  // KNN scan that is split into tasks.
  lemma {:induction false} PlannerShapesPlan(n: LogicalNode)
    requires BuildPhysicalOperator(n).Plans?
    ensures WellShaped(BuildPhysicalOperator(n).plan)
  {
    KindsMade(n.kind);
    var p := BuildPhysicalOperator(n).plan;
    if LeafKind(n.kind).None? && UnaryKind(n.kind).None? && BinaryKind(n.kind).None? {
      assert p == BuildKnn(n).plan;
    } else {
      if p.left.Some? { PlannerShapesPlan(n.left.value); }
      if p.right.Some? { PlannerShapesPlan(n.right.value); }
      NodeShaped(p.op, p.left, p.right);
    }
  }

  // The ids of the logical nodes the planner reaches, root first; a KNN scan
  // that is merged comes after its merge.
  function ReachedIds(n: LogicalNode): seq<nat> {
    if n.kind == LKnnScan then if TaskCount(n.segments) == 1 then [n.id] else [n.mergeId, n.id]
    else if LeafKind(n.kind).Some? then [n.id]
    else
      [n.id] + (if n.left.Some? then ReachedIds(n.left.value) else []) +
      (if n.right.Some? then ReachedIds(n.right.value) else [])
  }

  function PlanIds(p: Plan): seq<nat> {
    [p.op.id] + (if p.left.Some? then PlanIds(p.left.value) else []) +
    (if p.right.Some? then PlanIds(p.right.value) else [])
  }

  // Every reached node becomes one operator with its id, in the same place.
  lemma {:induction false} PlannerKeepsNodes(n: LogicalNode)
    requires BuildPhysicalOperator(n).Plans?
    ensures PlanIds(BuildPhysicalOperator(n).plan) == ReachedIds(n)
  {
    var p := BuildPhysicalOperator(n).plan;
    if n.kind == LKnnScan {
      assert p == BuildKnn(n).plan;
    } else {
      if p.left.Some? { PlannerKeepsNodes(n.left.value); }
      if p.right.Some? { PlannerKeepsNodes(n.right.value); }
    }
  }

  lemma {:induction false} AcceptedPlaceable(p: Plan)
    requires Accepted(p) && NoQueueEnds(p)
    ensures Placeable(p)
  {
    if p.left.Some? { AcceptedPlaceable(p.left.value); }
    if p.right.Some? && !Unary(p.op) { AcceptedPlaceable(p.right.value); }
  }

  // The fragment tree of a planner-built plan that the builder accepts.
  function Fragmented(p: Plan, nextId: nat): Fragment
    requires Accepted(p)
  {
    BuiltExactlyWhenAccepted(p, NewFragment(nextId, ResultSink), nextId + 1);
    Build(p, NewFragment(nextId, ResultSink), nextId + 1).fragment
  }

  // Every planner-built plan the builder accepts is rebuilt from its fragments.
  lemma PlannedPlanRebuilt(n: LogicalNode, nextId: nat)
    requires BuildPhysicalOperator(n).Plans? && Accepted(BuildPhysicalOperator(n).plan)
    ensures var p := BuildPhysicalOperator(n).plan;
            Filled(Fragmented(p, nextId)) && Splice(Fragmented(p, nextId)) == p
  {
    var p := BuildPhysicalOperator(n).plan;
    PlannerShapesPlan(n);
    AcceptedPlaceable(p);
    BuiltExactlyWhenAccepted(p, NewFragment(nextId, ResultSink), nextId + 1);
    FragmentsRebuildPlan(p, nextId, ResultSink, nextId + 1);
  }

  predicate HoldsScan(ops: seq<Operator>) {
    exists i :: 0 <= i < |ops| && ManyTasks(ops[i])
  }

  predicate EndsInMerge(f: Fragment) {
    f.ops != [] && f.ops[|f.ops| - 1].kind == MergeKnn && f.fragmentType == SerialMaterialize
  }

  // A fragment that holds a many-task scan holds nothing else and is parallel;
  // its parent is serial and ends in the merge.
  ghost predicate ScansAlone(f: Fragment) {
    && (HoldsScan(f.ops) ==> |f.ops| == 1 && f.fragmentType == ParallelMaterialize)
    && forall c :: c in f.children ==> ScansAlone(c) && (HoldsScan(c.ops) ==> EndsInMerge(f))
  }

  lemma HoldsScanAppend(ops: seq<Operator>, op: Operator)
    ensures HoldsScan(ops + [op]) <==> HoldsScan(ops) || ManyTasks(op)
  {
    var all := ops + [op];
    if i :| 0 <= i < |ops| && ManyTasks(ops[i]) { assert ManyTasks(all[i]); }
    if ManyTasks(op) { assert ManyTasks(all[|ops|]); }
    if i :| 0 <= i < |all| && ManyTasks(all[i]) { assert i < |ops| ==> ManyTasks(ops[i]); }
  }

  lemma {:induction false} BuildScansAlone(p: Plan, f: Fragment, nextId: nat)
    requires Build(p, f, nextId).Built? && Placeable(p) && ScansMerged(p)
    requires f.children == [] && !HoldsScan(f.ops) && (ManyTasks(p.op) ==> f.ops == [])
    ensures var g := Build(p, f, nextId).fragment;
            ScansAlone(g) && (HoldsScan(g.ops) ==> ManyTasks(p.op))
    decreases p, 0
  {
    HoldsScanAppend(f.ops, p.op);
    var added := f.(ops := f.ops + [p.op]);
    InputCases(p.op.kind);
    match CaseOf(p.op.kind)
    case CommandLike =>
    case KnnScanning =>
    case Scanning =>
    case Projecting =>
      if p.left.Some? { BuildScansAlone(p.left.value, added.(fragmentType := ParallelStream), nextId); }
    case Streaming => BuildScansAlone(p.left.value, added.(fragmentType := ParallelMaterialize), nextId);
    case Blocking => BuildScansAlone(p.left.value, added, nextId);
    case Aggregating =>
      ChildScansAlone(p.left.value, added.(fragmentType := ParallelMaterialize, source := Some(LocalQueue)), nextId);
    case Merging => MergeScansAlone(p, f, nextId);
  }

  lemma {:induction false} MergeScansAlone(p: Plan, f: Fragment, nextId: nat)
    requires Build(p, f, nextId).Built? && Placeable(p) && ScansMerged(p)
    requires f.children == [] && !HoldsScan(f.ops + [p.op]) && CaseOf(p.op.kind) == Merging
    ensures var g := Build(p, f, nextId).fragment;
            ScansAlone(g) && !HoldsScan(g.ops)
    decreases p, 0, 0
  {
    InputCases(p.op.kind);
    var start := f.(ops := f.ops + [p.op], fragmentType := SerialMaterialize, source := Some(LocalQueue));
    ChildScansAlone(p.left.value, start, nextId);
    if p.right.Some? {
      var r := BuildChild(p.left.value, start, nextId);
      ChildScansAlone(p.right.value, r.fragment, r.nextId);
    }
  }

  lemma {:induction false} ChildScansAlone(p: Plan, f: Fragment, nextId: nat)
    requires BuildChild(p, f, nextId).Built? && Placeable(p) && ScansMerged(p)
    ensures var g := BuildChild(p, f, nextId).fragment;
            && g == f.(children := g.children) && |g.children| == |f.children| + 1 && f.children <= g.children
            && ScansAlone(g.children[|f.children|])
            && (HoldsScan(g.children[|f.children|].ops) ==> ManyTasks(p.op))
    decreases p, 1
  {
    BuildScansAlone(p, NewFragment(nextId, LocalQueueSink), nextId + 1);
  }

  // For planner-built plans, in the whole fragment tree: every KNN scan that is
  // split into tasks is alone in a parallel fragment, below a serial fragment
  // that ends in its merge; the root never holds one.
  lemma KnnScansAlone(n: LogicalNode, nextId: nat)
    requires BuildPhysicalOperator(n).Plans? && Accepted(BuildPhysicalOperator(n).plan)
    ensures var f := Fragmented(BuildPhysicalOperator(n).plan, nextId);
            ScansAlone(f) && !HoldsScan(f.ops)
  {
    var p := BuildPhysicalOperator(n).plan;
    PlannerShapesPlan(n);
    AcceptedPlaceable(p);
    BuiltExactlyWhenAccepted(p, NewFragment(nextId, ResultSink), nextId + 1);
    BuildScansAlone(p, NewFragment(nextId, ResultSink), nextId + 1);
  }

  // ------------------------------------------------- which queries are planned

  // What a plan leaves out of account: these never look at their inputs.
  predicate InputsIgnored(kind: LogicalType) {
    match kind
    case LDelete | LUpdate | LSort | LLimit | LFilter | LProjection | LAggregate
       | LJoin | LCrossProduct | LFusion => false
    case _ => true
  }

  // The queries the planner takes, by logical node.
  predicate Plannable(n: LogicalNode) {
    && (match n.kind
        case LViewScan | LUnknown => false
        case LDelete | LUpdate | LSort | LLimit | LFilter => n.left.Some? && n.right.None?
        case LProjection | LAggregate => n.right.None?
        case LJoin | LCrossProduct => n.left.Some? && n.right.Some?
        case _ => true)
    && (InputsIgnored(n.kind) ||
        ((n.left.Some? ==> Plannable(n.left.value)) && (n.right.Some? ==> Plannable(n.right.value))))
  }

  lemma {:induction false} PlannedExactlyWhen(n: LogicalNode)
    ensures BuildPhysicalOperator(n).Plans? <==> Plannable(n)
  {
    if n.left.Some? { PlannedExactlyWhen(n.left.value); }
    if n.right.Some? { PlannedExactlyWhen(n.right.value); }
  }

  // The queries that get as far as fragments: no set operation, join, cross
  // product or dummy scan is reached, and an aggregate or a fusion has an input.
  predicate Runnable(n: LogicalNode) {
    && (match n.kind
        case LViewScan | LUnknown | LDummyScan | LUnion | LExcept | LIntersect | LJoin | LCrossProduct => false
        case LDelete | LUpdate | LSort | LLimit | LFilter | LAggregate => n.left.Some? && n.right.None?
        case LProjection => n.right.None?
        case LFusion => n.left.Some?
        case _ => true)
    && (InputsIgnored(n.kind) ||
        ((n.left.Some? ==> Runnable(n.left.value)) && (n.right.Some? ==> Runnable(n.right.value))))
  }

  lemma LeafRunnable(kind: LogicalType)
    requires LeafKind(kind).Some?
    ensures InputsIgnored(kind)
    ensures var k := LeafKind(kind).value;
            !StreamingKind(k) && !BlockingKind(k) && !MergingKind(k) && k != Aggregate
    ensures UnsupportedKind(LeafKind(kind).value) <==> kind in {LDummyScan, LUnion, LExcept, LIntersect}
  {
  }

  lemma UnaryRunnable(kind: LogicalType)
    requires UnaryKind(kind).Some?
    ensures !InputsIgnored(kind)
    ensures var k := UnaryKind(kind).value;
            && !CommandKind(k) && !TableKind(k) && !UnsupportedKind(k) && !QueueEnd(k) && !MergingKind(k)
            && (StreamingKind(k) || BlockingKind(k) || k == Aggregate <==> kind != LProjection)
  {
  }

  lemma BinaryRunnable(kind: LogicalType)
    requires BinaryKind(kind).Some?
    ensures !InputsIgnored(kind)
    ensures var k := BinaryKind(kind).value;
            if kind == LFusion then MergingKind(k) && !UnsupportedKind(k) && !CommandKind(k) && !TableKind(k)
                                    && !QueueEnd(k)
            else UnsupportedKind(k)
  {
  }

  ghost predicate AcceptedWhenRunnable(n: LogicalNode) {
    BuildPhysicalOperator(n).Plans? && Accepted(BuildPhysicalOperator(n).plan) <==> Runnable(n)
  }

  lemma LeafStep(n: LogicalNode)
    requires LeafKind(n.kind).Some?
    ensures AcceptedWhenRunnable(n)
  {
    LeafRunnable(n.kind);
  }

  lemma UnaryStep(n: LogicalNode)
    requires UnaryKind(n.kind).Some? && (n.left.Some? ==> AcceptedWhenRunnable(n.left.value))
    ensures AcceptedWhenRunnable(n)
  {
    UnaryRunnable(n.kind);
  }

  lemma BinaryStep(n: LogicalNode)
    requires BinaryKind(n.kind).Some?
    requires n.left.Some? ==> AcceptedWhenRunnable(n.left.value)
    requires n.right.Some? ==> AcceptedWhenRunnable(n.right.value)
    ensures AcceptedWhenRunnable(n)
  {
    BinaryRunnable(n.kind);
  }

  lemma {:induction false} RunnableExactlyWhen(n: LogicalNode)
    ensures BuildPhysicalOperator(n).Plans? && Accepted(BuildPhysicalOperator(n).plan) <==> Runnable(n)
  {
    if n.left.Some? { RunnableExactlyWhen(n.left.value); }
    if n.right.Some? { RunnableExactlyWhen(n.right.value); }
    if LeafKind(n.kind).Some? {
      LeafStep(n);
    } else if UnaryKind(n.kind).Some? {
      UnaryStep(n);
    } else if BinaryKind(n.kind).Some? {
      BinaryStep(n);
    }
  }

  // The operator that stands for a logical node other than a KNN scan.
  predicate StandsFor(kind: OperatorType, l: LogicalType) {
    match l
    case LCreateTable => kind == CreateTable
    case LCreateIndex => kind == CreateIndex
    case LCreateCollection => kind == CreateCollection
    case LCreateSchema => kind == CreateDatabase
    case LCreateView => kind == CreateView
    case LDropTable => kind == DropTable
    case LDropIndex => kind == DropIndex
    case LDropCollection => kind == DropCollection
    case LDropSchema => kind == DropDatabase
    case LDropView => kind == DropView
    case LAlter => kind == Alter
    case LInsert => kind == Insert
    case LImport => kind == Import
    case LExport => kind == Export
    case LShow => kind == Show
    case LMatch => kind == Match
    case LFlush => kind == Flush
    case LOptimize => kind == Optimize
    case LCommand => kind == Command
    case LTableScan => kind == TableScan
    case LDummyScan => kind == DummyScan
    case LUnion => kind == UnionAll
    case LExcept | LIntersect => kind == JoinHash
    case LJoin => kind == JoinNestedLoop
    case LCrossProduct => kind == CrossProduct
    case LFusion => kind == Fusion
    case LAggregate => kind == Aggregate
    case LSort => kind == Sort
    case LLimit => kind == Limit
    case LFilter => kind == Filter
    case LProjection => kind == Projection
    case LDelete => kind == Delete
    case LUpdate => kind == Update
    case _ => false
  }

  lemma LeavesStand(kind: LogicalType)
    requires LeafKind(kind).Some?
    ensures StandsFor(LeafKind(kind).value, kind) && InputsIgnored(kind)
  {
  }

  lemma OthersStand(n: LogicalNode)
    ensures UnaryKind(n.kind).Some? ==> StandsFor(UnaryKind(n.kind).value, n.kind) && !InputsIgnored(n.kind)
    ensures BinaryKind(n.kind).Some? ==> StandsFor(BinaryKind(n.kind).value, n.kind) && !InputsIgnored(n.kind)
  {
  }

  // The tasks of a KNN scan: the index of a segment, or one of its blocks.
  ghost function Tasks(segments: seq<Segment>): set<(nat, nat)> {
    set i: nat, b: nat |
      i < |segments| && b < (if segments[i].indexed then 1 else segments[i].blockCount) :: (i, b)
  }

  lemma {:induction false} Row(i: nat, n: nat)
    ensures |set b: nat | b < n :: (i, b)| == n
  {
    if n > 0 {
      Row(i, n - 1);
      assert (set b: nat | b < n :: (i, b)) == (set b: nat | b < n - 1 :: (i, b)) + {(i, n - 1)};
    }
  }

  lemma {:induction false} TaskCountAppend(segments: seq<Segment>, s: Segment)
    ensures TaskCount(segments + [s]) == TaskCount(segments) + (if s.indexed then 1 else s.blockCount)
  {
    if segments != [] {
      assert (segments + [s])[1..] == segments[1..] + [s];
      TaskCountAppend(segments[1..], s);
    }
  }

  lemma {:induction false} TaskCountIs(segments: seq<Segment>)
    ensures TaskCount(segments) == |Tasks(segments)|
    decreases |segments|
  {
    if segments == [] {
      assert Tasks(segments) == {};
    } else {
      var n := |segments| - 1;
      var before, s := segments[..n], segments[n];
      var row := set b: nat | b < (if s.indexed then 1 else s.blockCount) :: (n, b);
      assert segments == before + [s];
      TaskCountAppend(before, s);
      TaskCountIs(before);
      Row(n, if s.indexed then 1 else s.blockCount);
      assert Tasks(segments) == Tasks(before) + row;
      assert Tasks(before) !! row;
    }
  }

  predicate Childless(p: Plan) {
    p.left.None? && p.right.None?
  }

  // A scan of one task stands alone, any other below a merge.
  ghost predicate MirrorsScan(n: LogicalNode, p: Plan) {
    var scan := Operator(KnnScan, n.id, |Tasks(n.segments)|);
    if |Tasks(n.segments)| == 1 then p.op == scan && Childless(p)
    else
      && p.op == Operator(MergeKnn, n.mergeId, 0) && p.left.Some? && p.right.None?
      && p.left.value.op == scan && Childless(p.left.value)
  }

  // Operator for node, each with the node's id, in the same tree.
  ghost predicate Mirrors(n: LogicalNode, p: Plan) {
    if n.kind == LKnnScan then MirrorsScan(n, p)
    else
      && StandsFor(p.op.kind, n.kind) && p.op.id == n.id
      && (InputsIgnored(n.kind) ==> Childless(p))
      && (!InputsIgnored(n.kind) ==>
            && (p.left.Some? <==> n.left.Some?) && (p.left.Some? ==> Mirrors(n.left.value, p.left.value))
            && (p.right.Some? <==> n.right.Some?) && (p.right.Some? ==> Mirrors(n.right.value, p.right.value)))
  }

  lemma {:induction false} PlanMirrorsQuery(n: LogicalNode)
    requires BuildPhysicalOperator(n).Plans?
    ensures Mirrors(n, BuildPhysicalOperator(n).plan)
  {
    var p := BuildPhysicalOperator(n).plan;
    if n.kind == LKnnScan {
      assert p == BuildKnn(n).plan;
      TaskCountIs(n.segments);
    } else {
      if LeafKind(n.kind).Some? { LeavesStand(n.kind); }
      OthersStand(n);
      if p.left.Some? { PlanMirrorsQuery(n.left.value); }
      if p.right.Some? { PlanMirrorsQuery(n.right.value); }
    }
  }
}
