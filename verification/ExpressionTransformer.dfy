// Splitting a condition into conjuncts (or disjuncts) and composing it again.
module ExpressionTransformer {
  import opened Prelude

  datatype ConjunctionType = Invalid | And | Or

  // A conjunction always has two arguments.  Every other expression keeps its
  // arguments, which the split never visits.
  datatype Expression =
    | Conjunction(conjunctionType: ConjunctionType, left: Expression, right: Expression)
    | Operation(name: string, arguments: seq<Expression>)

  // ------------------------------------------------- SQL three-valued logic

  datatype Truth = False | Null | True

  function And3(a: Truth, b: Truth): Truth {
    if a == False || b == False then False else if a == Null || b == Null then Null else True
  }

  function Or3(a: Truth, b: Truth): Truth {
    if a == True || b == True then True else if a == Null || b == Null then Null else False
  }

  // False lies below Null, and Null below True.
  function Rank(a: Truth): nat {
    match a
    case False => 0
    case Null => 1
    case True => 2
  }

  // A conjunction is as true as its less true side, a disjunction as its other.
  lemma TruthOrder(a: Truth, b: Truth)
    ensures Rank(And3(a, b)) == Min(Rank(a), Rank(b))
    ensures Rank(Or3(a, b)) == Rank(a) + Rank(b) - Min(Rank(a), Rank(b))
  {
  }

  function Combine(t: ConjunctionType, a: Truth, b: Truth): Truth
    requires t != Invalid
  {
    if t == And then And3(a, b) else Or3(a, b)
  }

  function Unit(t: ConjunctionType): Truth {
    if t == And then True else False
  }

  predicate WellTyped(e: Expression) {
    e.Conjunction? ==> e.conjunctionType != Invalid && WellTyped(e.left) && WellTyped(e.right)
  }

  // The value of e on a row; `row` gives the value of every non-conjunction.
  function Eval(e: Expression, row: Expression -> Truth): Truth
    requires WellTyped(e)
  {
    match e
    case Conjunction(t, l, r) => Combine(t, Eval(l, row), Eval(r, row))
    case Operation(_, _) => row(e)
  }

  // ---------------------------------------------------------- specification

  predicate IsDelimiter(e: Expression, delimiter: ConjunctionType) {
    e.Conjunction? && e.conjunctionType == delimiter
  }

  function Size(e: Expression): nat {
    match e
    case Conjunction(_, l, r) => 1 + Size(l) + Size(r)
    case Operation(_, _) => 1
  }

  function TotalSize(q: seq<Expression>): nat {
    if q == [] then 0 else Size(q[0]) + TotalSize(q[1..])
  }

  lemma {:induction false} TotalSizeAppend(p: seq<Expression>, q: seq<Expression>)
    ensures TotalSize(p + q) == TotalSize(p) + TotalSize(q)
  {
    if p == [] {
      assert p + q == q;
    } else {
      assert (p + q)[1..] == p[1..] + q;
      TotalSizeAppend(p[1..], q);
    }
  }

  lemma PushDecreases(q: seq<Expression>)
    requires |q| > 0 && q[0].Conjunction?
    ensures TotalSize(q[1..] + [q[0].left, q[0].right]) < TotalSize(q)
  {
    var e := q[0];
    TotalSizeAppend(q[1..], [e.left, e.right]);
    assert [e.left, e.right][1..] == [e.right];
    assert TotalSize([e.right]) == Size(e.right);
  }

  // What the breadth-first visit collects from a work queue.
  function Collect(q: seq<Expression>, delimiter: ConjunctionType): seq<Expression>
    decreases TotalSize(q)
  {
    if q == [] then []
    else if IsDelimiter(q[0], delimiter) then
      PushDecreases(q);
      Collect(q[1..] + [q[0].left, q[0].right], delimiter)
    else [q[0]] + Collect(q[1..], delimiter)
  }

  // The maximal subtrees that are not delimiters, left to right.
  function Maximal(e: Expression, delimiter: ConjunctionType): seq<Expression> {
    if IsDelimiter(e, delimiter) then Maximal(e.left, delimiter) + Maximal(e.right, delimiter) else [e]
  }

  function Composed(es: seq<Expression>, t: ConjunctionType): Expression
    requires |es| > 0
  {
    if |es| == 1 then es[0] else Conjunction(t, Composed(es[..|es| - 1], t), es[|es| - 1])
  }

  // ------------------------------------------------------------ the methods

  // SplitExpressionByDelimiter with the visitor inlined into the work-queue loop.
  method SplitExpressionByDelimiter(expression: Expression, delimiter: ConjunctionType)
    returns (result: seq<Expression>)
    ensures result == Collect([expression], delimiter)
  {
    result := [];
    var queue := [expression];
    while queue != []
      invariant result + Collect(queue, delimiter) == Collect([expression], delimiter)
      decreases TotalSize(queue)
    {
      var expr := queue[0];
      ghost var before := queue;
      queue := queue[1..];
      if expr.Conjunction? && expr.conjunctionType == delimiter {
        PushDecreases(before);
        queue := queue + [expr.left, expr.right];
      } else {
        result := result + [expr];
      }
    }
  }

  method ComposeExpressionWithDelimiter(expressions: seq<Expression>, t: ConjunctionType)
    returns (r: Option<Expression>)
    ensures r == if expressions == [] then None else Some(Composed(expressions, t))
  {
    var exprCount := |expressions|;
    if exprCount == 0 { return None; }
    var result := expressions[0];
    var i := 1;
    while i < exprCount
      invariant 1 <= i <= exprCount && result == Composed(expressions[..i], t)
    {
      result := Conjunction(t, result, expressions[i]);
      assert expressions[..i + 1][..i] == expressions[..i];
      i := i + 1;
    }
    assert expressions[..exprCount] == expressions;
    return Some(result);
  }

  // -------------------------------------------------------------- properties

  // The split returns exactly the maximal non-delimiter subtrees.
  lemma SplitIsMaximal(e: Expression, delimiter: ConjunctionType)
    ensures multiset(Collect([e], delimiter)) == multiset(Maximal(e, delimiter))
    ensures forall x :: x in Collect([e], delimiter) ==> !IsDelimiter(x, delimiter)
  {
    CollectIsMaximal([e], delimiter);
    assert MaximalAll([e], delimiter) == Maximal(e, delimiter) + MaximalAll([e][1..], delimiter);
    assert MaximalAll([e][1..], delimiter) == [];
    MaximalHasNoDelimiter(e, delimiter);
    forall x | x in Collect([e], delimiter) ensures x in Maximal(e, delimiter) {
      assert x in multiset(Collect([e], delimiter));
    }
  }

  function MaximalAll(q: seq<Expression>, delimiter: ConjunctionType): seq<Expression> {
    if q == [] then [] else Maximal(q[0], delimiter) + MaximalAll(q[1..], delimiter)
  }

  lemma {:induction false} MaximalAllAppend(p: seq<Expression>, q: seq<Expression>, delimiter: ConjunctionType)
    ensures MaximalAll(p + q, delimiter) == MaximalAll(p, delimiter) + MaximalAll(q, delimiter)
  {
    if p == [] {
      assert p + q == q;
    } else {
      assert (p + q)[1..] == p[1..] + q;
      MaximalAllAppend(p[1..], q, delimiter);
    }
  }

  lemma {:induction false} CollectIsMaximal(q: seq<Expression>, delimiter: ConjunctionType)
    ensures multiset(Collect(q, delimiter)) == multiset(MaximalAll(q, delimiter))
    decreases TotalSize(q)
  {
    if q != [] {
      var e := q[0];
      if IsDelimiter(e, delimiter) {
        PushDecreases(q);
        CollectIsMaximal(q[1..] + [e.left, e.right], delimiter);
        MaximalAllAppend(q[1..], [e.left, e.right], delimiter);
        assert [e.left, e.right][1..] == [e.right] && [e.right][1..] == [];
        assert MaximalAll([e.right], delimiter) == Maximal(e.right, delimiter);
        assert MaximalAll([e.left, e.right], delimiter) == Maximal(e, delimiter);
      } else {
        CollectIsMaximal(q[1..], delimiter);
      }
    }
  }

  lemma MaximalHasNoDelimiter(e: Expression, delimiter: ConjunctionType)
    ensures forall x :: x in Maximal(e, delimiter) ==> !IsDelimiter(x, delimiter)
  {
  }

  // The combined value of a list, in any grouping.
  function EvalAll(es: seq<Expression>, t: ConjunctionType, row: Expression -> Truth): Truth
    requires t != Invalid && forall e :: e in es ==> WellTyped(e)
  {
    if es == [] then Unit(t) else Combine(t, Eval(es[0], row), EvalAll(es[1..], t, row))
  }

  lemma {:induction false} EvalAllAppend(p: seq<Expression>, q: seq<Expression>, t: ConjunctionType,
                                         row: Expression -> Truth)
    requires t != Invalid && (forall e :: e in p ==> WellTyped(e)) && (forall e :: e in q ==> WellTyped(e))
    ensures EvalAll(p + q, t, row) == Combine(t, EvalAll(p, t, row), EvalAll(q, t, row))
  {
    if p == [] {
      assert p + q == q;
    } else {
      assert (p + q)[1..] == p[1..] + q;
      EvalAllAppend(p[1..], q, t, row);
    }
  }

  // Splitting keeps the combined value, whatever order it visits in.
  lemma {:induction false} CollectKeepsValue(q: seq<Expression>, t: ConjunctionType, row: Expression -> Truth)
    requires t != Invalid && forall e :: e in q ==> WellTyped(e)
    ensures forall e :: e in Collect(q, t) ==> WellTyped(e)
    ensures EvalAll(Collect(q, t), t, row) == EvalAll(q, t, row)
    decreases TotalSize(q)
  {
    if q != [] {
      var e := q[0];
      assert e in q && WellTyped(e);
      if IsDelimiter(e, t) {
        PushDecreases(q);
        var both := [e.left, e.right];
        CollectKeepsValue(q[1..] + both, t, row);
        EvalAllAppend(q[1..], both, t, row);
        assert both[1..] == [e.right] && [e.right][1..] == [];
        assert EvalAll([e.right], t, row) == Eval(e.right, row);
        assert EvalAll(both, t, row) == Eval(e, row);
      } else {
        CollectKeepsValue(q[1..], t, row);
        assert ([e] + Collect(q[1..], t))[1..] == Collect(q[1..], t);
      }
    }
  }

  lemma {:induction false} ComposedValue(es: seq<Expression>, t: ConjunctionType, row: Expression -> Truth)
    requires |es| > 0 && t != Invalid && forall e :: e in es ==> WellTyped(e)
    ensures WellTyped(Composed(es, t)) && Eval(Composed(es, t), row) == EvalAll(es, t, row)
  {
    var n := |es| - 1;
    assert es == es[..n] + [es[n]];
    EvalAllAppend(es[..n], [es[n]], t, row);
    assert [es[n]][1..] == [];
    if n > 0 { ComposedValue(es[..n], t, row); }
  }

  // Composing what was split means the same on every row.
  lemma ComposeAfterSplit(e: Expression, t: ConjunctionType, row: Expression -> Truth)
    requires t != Invalid && WellTyped(e)
    ensures var parts := Collect([e], t);
            parts != [] && WellTyped(Composed(parts, t)) && Eval(Composed(parts, t), row) == Eval(e, row)
  {
    var parts := Collect([e], t);
    CollectKeepsValue([e], t, row);
    assert [e][1..] == [];
    CollectNonEmpty([e], t);
    ComposedValue(parts, t, row);
  }

  lemma {:induction false} CollectNonEmpty(q: seq<Expression>, t: ConjunctionType)
    requires q != []
    ensures Collect(q, t) != []
    decreases TotalSize(q)
  {
    if IsDelimiter(q[0], t) {
      PushDecreases(q);
      CollectNonEmpty(q[1..] + [q[0].left, q[0].right], t);
    }
  }

  function Reverse(es: seq<Expression>): (r: seq<Expression>)
    ensures |r| == |es|
  {
    if es == [] then [] else Reverse(es[1..]) + [es[0]]
  }

  lemma {:induction false} ReverseLast(es: seq<Expression>, e: Expression)
    ensures Reverse(es + [e]) == [e] + Reverse(es)
  {
    if es == [] {
      assert es + [e] == [e] && [e][1..] == [];
    } else {
      assert (es + [e])[1..] == es[1..] + [e];
      ReverseLast(es[1..], e);
    }
  }

  // The queue holds the composition of a prefix and the element after it.
  lemma {:induction false} CollectPrefix(es: seq<Expression>, k: nat, t: ConjunctionType)
    requires 1 <= k < |es| && forall e :: e in es ==> !IsDelimiter(e, t)
    ensures Collect([Composed(es[..k], t), es[k]], t) == Reverse(es[2..k + 1]) + es[..2]
    decreases k
  {
    var c, e := Composed(es[..k], t), es[k];
    assert Collect([e], t) == [e] + Collect([e][1..], t);
    if k == 1 {
      assert c == es[0];
      assert [c, e][1..] == [e] && [e][1..] == [];
      assert es[2..2] == [] && es[..2] == [c] + [e];
    } else {
      var c', e' := Composed(es[..k - 1], t), es[k - 1];
      assert es[..k][..k - 1] == es[..k - 1];
      assert c == Conjunction(t, c', e');
      assert [c, e][1..] + [c', e'] == [e, c', e'];
      assert [e, c', e'][1..] == [c', e'];
      CollectPrefix(es, k - 1, t);
      assert es[2..k + 1] == es[2..k] + [e];
      ReverseLast(es[2..k], e);
    }
  }

  // Splitting what was composed reverses everything after the second element.
  lemma SplitAfterCompose(es: seq<Expression>, t: ConjunctionType)
    requires |es| >= 2 && forall e :: e in es ==> !IsDelimiter(e, t)
    ensures Collect([Composed(es, t)], t) == Reverse(es[2..]) + es[..2]
  {
    var n := |es| - 1;
    var c := Composed(es, t);
    assert [c][1..] + [c.left, c.right] == [c.left, c.right];
    CollectPrefix(es, n, t);
    assert es[2..n + 1] == es[2..];
  }

  // ---------------------------------------------------------- breadth first

  // The maximal non-delimiters below `depth` delimiters, left to right.
  function AtDepth(e: Expression, delimiter: ConjunctionType, depth: nat): seq<Expression> {
    if !IsDelimiter(e, delimiter) then if depth == 0 then [e] else []
    else if depth == 0 then []
    else AtDepth(e.left, delimiter, depth - 1) + AtDepth(e.right, delimiter, depth - 1)
  }

  function Level(q: seq<Expression>, delimiter: ConjunctionType, depth: nat): seq<Expression> {
    if q == [] then [] else AtDepth(q[0], delimiter, depth) + Level(q[1..], delimiter, depth)
  }

  // The levels from `depth` on, n of them.
  function Levels(q: seq<Expression>, delimiter: ConjunctionType, depth: nat, n: nat): seq<Expression>
    decreases n
  {
    if n == 0 then [] else Level(q, delimiter, depth) + Levels(q, delimiter, depth + 1, n - 1)
  }

  // What a queue's delimiters put at its end.
  function Inner(q: seq<Expression>, delimiter: ConjunctionType): seq<Expression> {
    if q == [] then []
    else (if IsDelimiter(q[0], delimiter) then [q[0].left, q[0].right] else []) + Inner(q[1..], delimiter)
  }

  predicate Shallow(e: Expression, delimiter: ConjunctionType, n: nat) {
    n > 0 && (IsDelimiter(e, delimiter) ==> Shallow(e.left, delimiter, n - 1) && Shallow(e.right, delimiter, n - 1))
  }

  lemma {:induction false} SizeBounds(e: Expression, delimiter: ConjunctionType, n: nat)
    requires n >= Size(e)
    ensures Shallow(e, delimiter, n)
  {
    if IsDelimiter(e, delimiter) {
      SizeBounds(e.left, delimiter, n - 1);
      SizeBounds(e.right, delimiter, n - 1);
    }
  }

  predicate VisitsFront(p: seq<Expression>, q: seq<Expression>, delimiter: ConjunctionType) {
    Collect(p + q, delimiter) == Level(p, delimiter, 0) + Collect(q + Inner(p, delimiter), delimiter)
  }

  lemma Associate<T>(a: seq<T>, b: seq<T>, c: seq<T>)
    ensures a + b + c == a + (b + c)
  {
  }

  lemma FrontOf(p: seq<Expression>, q: seq<Expression>)
    requires p != []
    ensures p + q != [] && (p + q)[0] == p[0] && (p + q)[1..] == p[1..] + q
  {
  }

  lemma KeptLevel(p: seq<Expression>, delimiter: ConjunctionType)
    requires p != [] && !IsDelimiter(p[0], delimiter)
    ensures Level(p, delimiter, 0) == [p[0]] + Level(p[1..], delimiter, 0)
    ensures Inner(p, delimiter) == Inner(p[1..], delimiter)
  {
  }

  lemma OpenedLevel(p: seq<Expression>, delimiter: ConjunctionType)
    requires p != [] && IsDelimiter(p[0], delimiter)
    ensures Level(p, delimiter, 0) == Level(p[1..], delimiter, 0)
    ensures Inner(p, delimiter) == [p[0].left, p[0].right] + Inner(p[1..], delimiter)
  {
  }

  lemma CollectKept(q: seq<Expression>, delimiter: ConjunctionType)
    requires q != [] && !IsDelimiter(q[0], delimiter)
    ensures Collect(q, delimiter) == [q[0]] + Collect(q[1..], delimiter)
  {
  }

  lemma CollectOpened(q: seq<Expression>, delimiter: ConjunctionType)
    requires q != [] && IsDelimiter(q[0], delimiter)
    ensures Collect(q, delimiter) == Collect(q[1..] + [q[0].left, q[0].right], delimiter)
  {
  }

  lemma FrontKept(p: seq<Expression>, q: seq<Expression>, delimiter: ConjunctionType)
    requires p != [] && !IsDelimiter(p[0], delimiter) && VisitsFront(p[1..], q, delimiter)
    ensures VisitsFront(p, q, delimiter)
  {
    var rest := p[1..];
    FrontOf(p, q);
    CollectKept(p + q, delimiter);
    KeptLevel(p, delimiter);
    Associate([p[0]], Level(rest, delimiter, 0), Collect(q + Inner(rest, delimiter), delimiter));
  }

  lemma FrontOpened(p: seq<Expression>, q: seq<Expression>, delimiter: ConjunctionType)
    requires p != [] && IsDelimiter(p[0], delimiter)
    requires VisitsFront(p[1..], q + [p[0].left, p[0].right], delimiter)
    ensures VisitsFront(p, q, delimiter)
  {
    var rest, both := p[1..], [p[0].left, p[0].right];
    FrontOf(p, q);
    CollectOpened(p + q, delimiter);
    OpenedLevel(p, delimiter);
    Associate(rest, q, both);
    Associate(q, both, Inner(rest, delimiter));
  }

  // The queue's front part p is visited before what it adds behind q.
  lemma {:induction false} CollectFront(p: seq<Expression>, q: seq<Expression>, delimiter: ConjunctionType)
    ensures VisitsFront(p, q, delimiter)
    decreases |p|
  {
    if p == [] {
      assert p + q == q && q + Inner(p, delimiter) == q;
    } else if IsDelimiter(p[0], delimiter) {
      CollectFront(p[1..], q + [p[0].left, p[0].right], delimiter);
      FrontOpened(p, q, delimiter);
    } else {
      CollectFront(p[1..], q, delimiter);
      FrontKept(p, q, delimiter);
    }
  }

  lemma SomeLevel(q: seq<Expression>, delimiter: ConjunctionType, n: nat)
    requires forall e :: e in q ==> Shallow(e, delimiter, n)
    ensures n == 0 ==> q == []
  {
    if q != [] { assert q[0] in q; }
  }

  lemma LevelFirst(e: Expression, rest: seq<Expression>, delimiter: ConjunctionType, depth: nat)
    ensures Level([e] + rest, delimiter, depth) == AtDepth(e, delimiter, depth) + Level(rest, delimiter, depth)
  {
    assert ([e] + rest)[1..] == rest;
  }

  lemma {:induction false} InnerLevel(q: seq<Expression>, delimiter: ConjunctionType, depth: nat)
    ensures Level(Inner(q, delimiter), delimiter, depth) == Level(q, delimiter, depth + 1)
  {
    if q != [] {
      var e, inner := q[0], Inner(q[1..], delimiter);
      InnerLevel(q[1..], delimiter, depth);
      if IsDelimiter(e, delimiter) {
        OpenedLevel(q, delimiter);
        Associate([e.left], [e.right], inner);
        LevelFirst(e.left, [e.right] + inner, delimiter, depth);
        LevelFirst(e.right, inner, delimiter, depth);
        Associate(AtDepth(e.left, delimiter, depth), AtDepth(e.right, delimiter, depth),
                  Level(inner, delimiter, depth));
        assert [e.left] + [e.right] == [e.left, e.right];
      } else {
        KeptLevel(q, delimiter);
      }
    }
  }

  lemma {:induction false} InnerLevels(q: seq<Expression>, delimiter: ConjunctionType, depth: nat, n: nat)
    ensures Levels(Inner(q, delimiter), delimiter, depth, n) == Levels(q, delimiter, depth + 1, n)
    decreases n
  {
    if n > 0 {
      InnerLevel(q, delimiter, depth);
      InnerLevels(q, delimiter, depth + 1, n - 1);
    }
  }

  lemma {:induction false} InnerShallow(q: seq<Expression>, delimiter: ConjunctionType, n: nat)
    requires n > 0 && forall e :: e in q ==> Shallow(e, delimiter, n)
    ensures forall e :: e in Inner(q, delimiter) ==> Shallow(e, delimiter, n - 1)
  {
    if q != [] {
      assert q[0] in q;
      InnerShallow(q[1..], delimiter, n);
    }
  }

  lemma {:induction false} CollectLevels(q: seq<Expression>, delimiter: ConjunctionType, n: nat)
    requires forall e :: e in q ==> Shallow(e, delimiter, n)
    ensures Collect(q, delimiter) == Levels(q, delimiter, 0, n)
    decreases n
  {
    SomeLevel(q, delimiter, n);
    if n > 0 {
      var inner := Inner(q, delimiter);
      assert Collect(q, delimiter) == Level(q, delimiter, 0) + Collect(inner, delimiter) by {
        assert q + [] == q && [] + inner == inner;
        CollectFront(q, [], delimiter);
      }
      InnerShallow(q, delimiter, n);
      CollectLevels(inner, delimiter, n - 1);
      InnerLevels(q, delimiter, 0, n - 1);
    }
  }

  // The split lists the maximal non-delimiters by depth, and left to right
  // within a depth.
  lemma SplitIsBreadthFirst(e: Expression, delimiter: ConjunctionType)
    ensures Collect([e], delimiter) == Levels([e], delimiter, 0, Size(e))
  {
    SizeBounds(e, delimiter, Size(e));
    CollectLevels([e], delimiter, Size(e));
  }
}
