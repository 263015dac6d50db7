// A physical plan is cut into pipeline fragments by a recursion that keeps
// mutating the fragment it is building.
module Fragments {
  import opened Prelude

  datatype OperatorType =
    | Invalid
    | Aggregate | ParallelAggregate | MergeParallelAggregate
    | UnionAll | Intersect | Except
    | TableScan | Filter | IndexScan | DummyScan | KnnScan | MergeKnn | Match | Fusion
    | Hash | MergeHash
    | JoinHash | JoinNestedLoop | JoinMerge | JoinIndex | CrossProduct
    | Limit | MergeLimit | Top | MergeTop | Projection | Sort | MergeSort
    | Delete | Update | Insert | Import | Export
    | Alter | CreateTable | CreateIndex | CreateCollection | CreateDatabase | CreateView
    | DropTable | DropIndex | DropCollection | DropDatabase | DropView
    | PreparedPlan | Show | Flush | Optimize | Command | Sink | Source

  datatype Operator = Operator(kind: OperatorType, id: nat, taskCount: nat)
  datatype Plan = Plan(op: Operator, left: Option<Plan>, right: Option<Plan>)

  datatype FragmentType = SerialMaterialize | ParallelMaterialize | ParallelStream
  datatype SourceType = Table | LocalQueue | Empty
  datatype SinkType = LocalQueueSink | ResultSink

  datatype Fragment = Fragment(
    id: nat, ops: seq<Operator>, fragmentType: FragmentType,
    source: Option<SourceType>, sink: SinkType, children: seq<Fragment>)

  // The cases of the builder's switch.
  datatype Case =
    | Bad | CommandLike | Aggregating | Streaming | Blocking | Merging | Scanning | KnnScanning | Projecting | Ignored

  function CaseOf(kind: OperatorType): Case {
    match kind
    case Command | Alter | CreateTable | CreateIndex | CreateCollection | CreateDatabase | CreateView
       | DropTable | DropIndex | DropCollection | DropDatabase | DropView | PreparedPlan | Show | Flush
       | Optimize | Insert | Import | Export | Match => CommandLike
    case Aggregate => Aggregating
    case ParallelAggregate | Filter | Hash | Limit | Top => Streaming
    case Update | Delete | Sort => Blocking
    case Fusion | MergeParallelAggregate | MergeHash | MergeLimit | MergeTop | MergeSort | MergeKnn => Merging
    case Invalid | UnionAll | Intersect | Except | DummyScan
       | JoinHash | JoinNestedLoop | JoinMerge | JoinIndex | CrossProduct => Bad
    case KnnScan => KnnScanning
    case TableScan | IndexScan => Scanning
    case Projection => Projecting
    case Sink | Source => Ignored
  }

  function NewFragment(id: nat, sink: SinkType): Fragment {
    Fragment(id, [], SerialMaterialize, None, sink, [])
  }

  // ---------------------------------------------------------- specification

  // The fragment after the call and the next unused fragment id, or an exception.
  datatype Outcome = Built(fragment: Fragment, nextId: nat) | Thrown

  function KnnType(op: Operator): FragmentType {
    if op.taskCount == 1 then SerialMaterialize else ParallelMaterialize
  }

  function Build(p: Plan, f: Fragment, nextId: nat): Outcome
    decreases p, 0
  {
    var added := f.(ops := f.ops + [p.op]);
    match CaseOf(p.op.kind)
    case Bad => Thrown
    case Ignored => Built(f, nextId)
    case CommandLike =>
      if p.left.Some? || p.right.Some? then Thrown
      else Built(added.(fragmentType := SerialMaterialize, source := Some(Empty)), nextId)
    case KnnScanning =>
      if p.left.Some? || p.right.Some? then Thrown
      else Built(added.(fragmentType := KnnType(p.op), source := Some(Table)), nextId)
    case Scanning =>
      if p.left.Some? || p.right.Some? then Thrown
      else Built(added.(fragmentType := ParallelStream, source := Some(Table)), nextId)
    case Projecting =>
      if p.left.None? then Built(added.(fragmentType := ParallelStream, source := Some(Empty)), nextId)
      else Build(p.left.value, added.(fragmentType := ParallelStream), nextId)
    case Streaming =>
      if p.left.None? then Thrown
      else Build(p.left.value, added.(fragmentType := ParallelMaterialize), nextId)
    case Blocking =>
      if p.left.None? then Thrown
      else (match Build(p.left.value, added, nextId)
            case Thrown => Thrown
            case Built(g, n) => Built(g.(fragmentType := SerialMaterialize), n))
    case Aggregating =>
      if p.left.None? then Thrown
      else BuildChild(p.left.value, added.(fragmentType := ParallelMaterialize, source := Some(LocalQueue)), nextId)
    case Merging =>
      if p.left.None? then Thrown
      else
        (match BuildChild(p.left.value, added.(fragmentType := SerialMaterialize, source := Some(LocalQueue)), nextId)
         case Thrown => Thrown
         case Built(g, n) => if p.right.None? then Built(g, n) else BuildChild(p.right.value, g, n))
  }

  // Build p into a fragment of its own and hang that below f.
  function BuildChild(p: Plan, f: Fragment, nextId: nat): Outcome
    decreases p, 1
  {
    match Build(p, NewFragment(nextId, LocalQueueSink), nextId + 1)
    case Thrown => Thrown
    case Built(child, n) => Built(f.(children := f.children + [child]), n)
  }

  // ------------------------------------------------------------ the builder

  class PlanFragment {
    const id: nat
    const sink: SinkType
    var ops: seq<Operator>
    var fragmentType: FragmentType
    var source: Option<SourceType>
    var children: seq<Fragment>

    constructor (id: nat, sink: SinkType)
      ensures View() == NewFragment(id, sink)
    {
      this.id, this.sink := id, sink;
      ops, fragmentType, source, children := [], SerialMaterialize, None, [];
    }

    function View(): Fragment
      reads this
    {
      Fragment(id, ops, fragmentType, source, sink, children)
    }
  }

  class FragmentBuilder {
    var fragmentId: nat

    // Mutates `current` before and after its recursive calls; the result is the
    // specification's, or an exception.
    method BuildFragments(p: Plan, current: PlanFragment) returns (ok: bool)
      modifies this, current
      ensures var r := Build(p, old(current.View()), old(fragmentId));
              ok == r.Built? && (ok ==> current.View() == r.fragment && fragmentId == r.nextId)
      decreases p, 0
    {
      match CaseOf(p.op.kind) {
        case Bad =>
          return false;
        case Ignored =>
          return true;
        case CommandLike =>
          current.ops := current.ops + [p.op];
          if p.left.Some? || p.right.Some? { return false; }
          current.fragmentType := SerialMaterialize;
          current.source := Some(Empty);
          return true;
        case Aggregating =>
          current.ops := current.ops + [p.op];
          current.source := Some(LocalQueue);
          if p.left.None? { return false; }
          current.fragmentType := ParallelMaterialize;
          ok := AddChildFragment(p.left.value, current);
        case Streaming =>
          if p.left.None? { return false; }
          current.fragmentType := ParallelMaterialize;
          current.ops := current.ops + [p.op];
          ok := BuildFragments(p.left.value, current);
        case Blocking =>
          if p.left.None? { return false; }
          current.ops := current.ops + [p.op];
          ok := BuildFragments(p.left.value, current);
          if ok { current.fragmentType := SerialMaterialize; }
        case Merging =>
          current.ops := current.ops + [p.op];
          current.source := Some(LocalQueue);
          if p.left.None? { return false; }
          current.fragmentType := SerialMaterialize;
          ok := AddChildFragment(p.left.value, current);
          if ok && p.right.Some? {
            ok := AddChildFragment(p.right.value, current);
          }
        case KnnScanning =>
          if p.left.Some? || p.right.Some? { return false; }
          if p.op.taskCount == 1 {
            current.fragmentType := SerialMaterialize;
          } else {
            current.fragmentType := ParallelMaterialize;
          }
          current.ops := current.ops + [p.op];
          current.source := Some(Table);
          return true;
        case Scanning =>
          if p.left.Some? || p.right.Some? { return false; }
          current.fragmentType := ParallelStream;
          current.ops := current.ops + [p.op];
          current.source := Some(Table);
          return true;
        case Projecting =>
          current.ops := current.ops + [p.op];
          current.fragmentType := ParallelStream;
          if p.left.None? {
            current.source := Some(Empty);
            return true;
          }
          ok := BuildFragments(p.left.value, current);
      }
    }

    method AddChildFragment(p: Plan, current: PlanFragment) returns (ok: bool)
      modifies this, current
      ensures var r := BuildChild(p, old(current.View()), old(fragmentId));
              ok == r.Built? && (ok ==> current.View() == r.fragment && fragmentId == r.nextId)
      decreases p, 1
    {
      var next := new PlanFragment(fragmentId, LocalQueueSink);
      fragmentId := fragmentId + 1;
      ok := BuildFragments(p, next);
      if ok { current.children := current.children + [next.View()]; }
    }

    // The root fragment; a source set on it is replaced by the empty source.
    method BuildFragment(p: Plan) returns (ok: bool, root: PlanFragment)
      modifies this
      ensures var r := Build(p, NewFragment(old(fragmentId), ResultSink), old(fragmentId) + 1);
              ok == r.Built? &&
              (ok ==> root.View() == r.fragment.(source := if r.fragment.source.Some? then Some(Empty) else None))
    {
      root := new PlanFragment(fragmentId, ResultSink);
      fragmentId := fragmentId + 1;
      ok := BuildFragments(p, root);
      if ok && root.source.Some? { root.source := Some(Empty); }
    }
  }
}
