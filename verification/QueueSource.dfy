// The queue source of a fragment: it counts down the tasks of its child
// fragments while their messages arrive in any interleaving.
module QueueSource {
  import opened Prelude

  type Block = nat
  const U64: nat := 0x1_0000_0000_0000_0000

  datatype FragmentData = FragmentData(
    fragmentId: nat, block: Option<Block>, error: Option<string>, dataIdx: nat, dataCount: nat)

  // The operator state behind the source.
  datatype NextState =
    | MergeKnn(inputBlock: Option<Block>, inputComplete: bool)
    | Fusion(inputBlocks: map<nat, seq<Option<Block>>>, inputComplete: bool)
    | Unsupported

  datatype Source = Source(numTasks: map<nat, nat>, error: Option<string>, next: NextState)

  // An error or the last data block of a task.
  predicate Terminal(m: FragmentData) {
    m.error.Some? || (m.dataIdx + 1) % U64 == m.dataCount
  }

  // ---------------------------------------------------------- specification

  function Marked(numTasks: map<nat, nat>, fragmentId: nat): map<nat, nat> {
    if fragmentId !in numTasks then numTasks
    else
      var pending := (numTasks[fragmentId] - 1) % U64;
      if pending == 0 then numTasks - {fragmentId} else numTasks[fragmentId := pending]
  }

  function BlocksOf(blocks: map<nat, seq<Option<Block>>>, f: nat): seq<Option<Block>> {
    if f in blocks then blocks[f] else []
  }

  function Forward(next: NextState, m: FragmentData, completed: bool): NextState {
    match next
    case MergeKnn(_, _) => MergeKnn(m.block, completed)
    case Fusion(blocks, _) =>
      Fusion(blocks[m.fragmentId := BlocksOf(blocks, m.fragmentId) + [m.block]], completed)
    case Unsupported => Unsupported
  }

  function Deliver(s: Source, m: FragmentData): Source {
    var numTasks := if Terminal(m) then Marked(s.numTasks, m.fragmentId) else s.numTasks;
    Source(numTasks, if s.error.None? then m.error else s.error, Forward(s.next, m, numTasks == map[]))
  }

  function DeliverAll(s: Source, ms: seq<FragmentData>): Source {
    if ms == [] then s else Deliver(DeliverAll(s, ms[..|ms| - 1]), ms[|ms| - 1])
  }

  datatype Status = Ok(completed: bool) | ExecutorError

  // What GetData returns when it leaves this behind.
  function StatusOf(s: Source): Status {
    if s.next.Unsupported? then ExecutorError else Ok(s.numTasks == map[])
  }

  // Children send and the source reads, in any order. A read of an empty queue
  // blocks until something is sent.
  datatype Event = Send(data: FragmentData) | Read

  function Sends(schedule: seq<Event>): seq<FragmentData> {
    if schedule == [] then []
    else Sends(schedule[..|schedule| - 1]) +
         (if schedule[|schedule| - 1].Send? then [schedule[|schedule| - 1].data] else [])
  }

  class QueueSourceState {
    var sourceQueue: seq<FragmentData>
    var numTasks: map<nat, nat>
    var errorMessage: Option<string>
    var nextOpState: NextState

    function View(): Source
      reads this
    {
      Source(numTasks, errorMessage, nextOpState)
    }

    constructor (next: NextState)
      ensures View() == Source(map[], None, next) && sourceQueue == []
    {
      sourceQueue, numTasks, errorMessage, nextOpState := [], map[], None, next;
    }

    method SetTaskNum(fragmentId: nat, n: nat)
      modifies this`numTasks
      ensures numTasks == old(numTasks)[fragmentId := n]
    {
      numTasks := numTasks[fragmentId := n];
    }

    // A child task sends a message.
    method Enqueue(m: FragmentData)
      modifies this`sourceQueue
      ensures sourceQueue == old(sourceQueue) + [m]
    {
      sourceQueue := sourceQueue + [m];
    }

    method MarkCompletedTask(fragmentId: nat)
      modifies this`numTasks
      ensures numTasks == Marked(old(numTasks), fragmentId)
    {
      if fragmentId in numTasks {
        var pending := (numTasks[fragmentId] - 1) % U64;
        numTasks := numTasks[fragmentId := pending];
        if pending == 0 {
          numTasks := numTasks - {fragmentId};
        }
      }
    }

    // True when the source is complete, whether or not an error arrived.
    method GetData() returns (r: Status)
      requires sourceQueue != []
      modifies this
      ensures sourceQueue == old(sourceQueue)[1..] && View() == Deliver(old(View()), old(sourceQueue[0]))
      ensures r == StatusOf(View())
    {
      var data := sourceQueue[0];
      sourceQueue := sourceQueue[1..];
      if data.error.Some? {
        if errorMessage.None? { errorMessage := data.error; }
        MarkCompletedTask(data.fragmentId);
      } else if (data.dataIdx + 1) % U64 == data.dataCount {
        MarkCompletedTask(data.fragmentId);
      }
      var completed := numTasks == map[];
      match nextOpState {
        case MergeKnn(_, _) =>
          nextOpState := MergeKnn(data.block, completed);
        case Fusion(blocks, _) =>
          nextOpState := Fusion(blocks[data.fragmentId := BlocksOf(blocks, data.fragmentId) + [data.block]], completed);
        case Unsupported =>
          return ExecutorError;
      }
      r := Ok(completed);
    }

    // One event; what it delivers, if anything, is the oldest message queued.
    method React(e: Event) returns (delivered: seq<FragmentData>, statuses: seq<Status>, states: seq<NextState>)
      modifies this
      ensures old(sourceQueue) + (if e.Send? then [e.data] else []) == delivered + sourceQueue
      ensures delivered == [] ==> View() == old(View()) && statuses == [] && states == []
      ensures delivered != [] ==>
                && |delivered| == 1 && View() == Deliver(old(View()), delivered[0])
                && statuses == [StatusOf(View())] && states == [nextOpState]
    {
      delivered, statuses, states := [], [], [];
      if e.Send? {
        Enqueue(e.data);
      } else if sourceQueue != [] {
        delivered := [sourceQueue[0]];
        var r := GetData();
        statuses, states := [r], [nextOpState];
      }
    }

    // Messages are delivered in the order sent, each once, whatever the order
    // of sending and reading; the rest is still queued.
    method Process(schedule: seq<Event>)
      returns (delivered: seq<FragmentData>, statuses: seq<Status>, states: seq<NextState>)
      modifies this
      ensures delivered + sourceQueue == old(sourceQueue) + Sends(schedule)
      ensures View() == DeliverAll(old(View()), delivered)
      ensures Statuses(old(View()), delivered, statuses, states)
    {
      delivered, statuses, states := [], [], [];
      for i := 0 to |schedule|
        invariant delivered + sourceQueue == old(sourceQueue) + Sends(schedule[..i])
        invariant View() == DeliverAll(old(View()), delivered)
        invariant Statuses(old(View()), delivered, statuses, states)
      {
        ghost var queue := sourceQueue;
        var more, results, nexts := React(schedule[i]);
        SendsMore(schedule, i);
        Shifted(delivered, queue, old(sourceQueue), Sends(schedule[..i]), Sends(schedule[i..i + 1]), more, sourceQueue);
        DeliveredMore(old(View()), delivered, statuses, states, more, results, nexts, View());
        delivered, statuses, states := delivered + more, statuses + results, states + nexts;
      }
      assert schedule[..|schedule|] == schedule;
    }

    // A source that knows its children's tasks returns true for the last message
    // of a whole run and for no other, and hands every block on in order.
    method Collect(schedule: seq<Event>, ghost tasks: map<nat, nat>, ghost sent: seq<Sent>)
      returns (delivered: seq<FragmentData>, statuses: seq<Status>, states: seq<NextState>)
      requires WholeRun(tasks, sent) && Sends(schedule) == Messages(sent)
      requires sourceQueue == [] && errorMessage.None? && numTasks == tasks && !nextOpState.Unsupported?
      modifies this
      ensures delivered + sourceQueue == Messages(sent) && |statuses| == |delivered| == |states|
      ensures forall i :: 0 <= i < |statuses| ==> statuses[i] == Ok(i + 1 == |sent|)
      ensures IsFirstError(delivered, errorMessage)
      ensures old(nextOpState).MergeKnn? ==>
                forall i :: 0 <= i < |states| ==> states[i] == MergeKnn(sent[i].data.block, i + 1 == |sent|)
      ensures old(nextOpState).Fusion? && old(nextOpState).inputBlocks == map[] ==>
                forall i :: 0 <= i < |states| ==>
                  && states[i].Fusion? && states[i].inputComplete == (i + 1 == |sent|)
                  && Grouped(delivered[..i + 1], states[i])
    {
      ghost var next := nextOpState;
      delivered, statuses, states := Process(schedule);
      assert delivered + sourceQueue == [] + Messages(sent) == Messages(sent);
      forall i | 0 <= i < |statuses| ensures statuses[i] == Ok(i + 1 == |sent|) {
        DeliveredStatus(tasks, sent, next, delivered, i);
      }
      if next.MergeKnn? {
        MergeStates(tasks, sent, next, delivered, states);
      } else if next.inputBlocks == map[] {
        FusionStates(tasks, sent, next, delivered, states);
      }
      ErrorAfter(Source(tasks, None, next), delivered);
    }
  }

  // What each read returned, and the operator state it left.
  ghost predicate Statuses(s: Source, delivered: seq<FragmentData>, statuses: seq<Status>, states: seq<NextState>) {
    && |statuses| == |delivered| == |states|
    && (forall i :: 0 <= i < |statuses| ==> statuses[i] == StatusOf(DeliverAll(s, delivered[..i + 1])))
    && (forall i :: 0 <= i < |states| ==> states[i] == DeliverAll(s, delivered[..i + 1]).next)
  }

  lemma SendsMore(schedule: seq<Event>, i: nat)
    requires i < |schedule|
    ensures Sends(schedule[..i + 1]) == Sends(schedule[..i]) + Sends(schedule[i..i + 1])
    ensures Sends(schedule[i..i + 1]) == if schedule[i].Send? then [schedule[i].data] else []
  {
    assert schedule[..i + 1][..i] == schedule[..i];
    assert schedule[i..i + 1][..0] == [];
  }

  lemma Shifted<T>(done: seq<T>, queue: seq<T>, first: seq<T>, sends: seq<T>, added: seq<T>, more: seq<T>,
                   queue': seq<T>)
    requires done + queue == first + sends && queue + added == more + queue'
    ensures done + more + queue' == first + (sends + added)
  {
    assert done + more + queue' == done + (more + queue') == done + (queue + added) == done + queue + added;
  }

  lemma DeliveredMore(s: Source, delivered: seq<FragmentData>, statuses: seq<Status>, states: seq<NextState>,
                      more: seq<FragmentData>, results: seq<Status>, nexts: seq<NextState>, after: Source)
    requires Statuses(s, delivered, statuses, states)
    requires if more == [] then after == DeliverAll(s, delivered) && results == [] && nexts == []
             else
               && |more| == 1 && after == Deliver(DeliverAll(s, delivered), more[0])
               && results == [StatusOf(after)] && nexts == [after.next]
    ensures after == DeliverAll(s, delivered + more)
    ensures Statuses(s, delivered + more, statuses + results, states + nexts)
  {
    var all, results', states' := delivered + more, statuses + results, states + nexts;
    if more == [] {
      assert all == delivered && results' == statuses && states' == states;
    } else {
      assert all[..|delivered|] == delivered;
      forall i | 0 <= i < |results'|
        ensures results'[i] == StatusOf(DeliverAll(s, all[..i + 1])) && states'[i] == DeliverAll(s, all[..i + 1]).next
      {
        if i < |statuses| { assert all[..i + 1] == delivered[..i + 1]; } else { assert all[..i + 1] == all; }
      }
    }
  }

  lemma {:induction false} KeepsKind(s: Source, ms: seq<FragmentData>)
    requires !s.next.Unsupported?
    ensures !DeliverAll(s, ms).next.Unsupported?
  {
    if ms != [] { KeepsKind(s, ms[..|ms| - 1]); }
  }

  lemma DeliveredStatus(tasks: map<nat, nat>, sent: seq<Sent>, next: NextState, delivered: seq<FragmentData>, i: nat)
    requires WholeRun(tasks, sent) && !next.Unsupported? && delivered <= Messages(sent) && i < |delivered|
    ensures StatusOf(DeliverAll(Source(tasks, None, next), delivered[..i + 1])) == Ok(i + 1 == |sent|)
  {
    assert delivered[..i + 1] == Messages(sent[..i + 1]);
    KeepsKind(Source(tasks, None, next), delivered[..i + 1]);
    CompleteExactlyAtEnd(tasks, sent, next, i + 1);
  }

  // ------------------------------------------------------- interleaved runs

  // A message together with the task, of the sending fragment, it came from.
  datatype Sent = Sent(task: nat, data: FragmentData)

  function Messages(sent: seq<Sent>): (ms: seq<FragmentData>)
    ensures |ms| == |sent|
  {
    seq(|sent|, i requires 0 <= i < |sent| => sent[i].data)
  }

  predicate SameTask(a: Sent, b: Sent) {
    a.task == b.task && a.data.fragmentId == b.data.fragmentId
  }

  // Task k of fragment f has sent its terminal message.
  ghost predicate Finished(sent: seq<Sent>, f: nat, k: nat) {
    exists i :: 0 <= i < |sent| && sent[i].task == k && sent[i].data.fragmentId == f && Terminal(sent[i].data)
  }

  // Every message comes from a task of a known fragment, and a task sends
  // nothing after its terminal message.
  ghost predicate Interleaving(tasks: map<nat, nat>, sent: seq<Sent>) {
    && (forall f :: f in tasks ==> 0 < tasks[f] < U64)
    && (forall i :: 0 <= i < |sent| ==>
          sent[i].data.fragmentId in tasks && sent[i].task < tasks[sent[i].data.fragmentId])
    && (forall i, j :: 0 <= i < j < |sent| && SameTask(sent[i], sent[j]) ==> !Terminal(sent[i].data))
  }

  // A whole run: each task has also sent its terminal message.
  ghost predicate WholeRun(tasks: map<nat, nat>, sent: seq<Sent>) {
    && Interleaving(tasks, sent)
    && (forall f, k :: f in tasks && 0 <= k < tasks[f] ==> Finished(sent, f, k))
  }

  // The tasks of f whose terminal message has been delivered.
  ghost function Done(sent: seq<Sent>, f: nat, n: nat): set<nat> {
    set k | 0 <= k < n && Finished(sent, f, k)
  }

  // The error of the earliest message that carries one.
  ghost predicate IsFirstError(ms: seq<FragmentData>, e: Option<string>) {
    if e.None? then forall i :: 0 <= i < |ms| ==> ms[i].error.None?
    else exists i :: 0 <= i < |ms| && ms[i].error == e && forall j :: 0 <= j < i ==> ms[j].error.None?
  }

  ghost function BlocksFrom(ms: seq<FragmentData>, f: nat): seq<Option<Block>> {
    if ms == [] then []
    else BlocksFrom(ms[..|ms| - 1], f) + (if ms[|ms| - 1].fragmentId == f then [ms[|ms| - 1].block] else [])
  }

  // The counters show the terminal messages still to come.
  ghost predicate Counts(tasks: map<nat, nat>, sent: seq<Sent>, numTasks: map<nat, nat>) {
    forall f :: CountOk(tasks, sent, numTasks, f)
  }

  ghost predicate CountOk(tasks: map<nat, nat>, sent: seq<Sent>, numTasks: map<nat, nat>, f: nat) {
    && (f in numTasks <==> f in tasks && |Done(sent, f, tasks[f])| < tasks[f])
    && (f in numTasks ==> numTasks[f] == tasks[f] - |Done(sent, f, tasks[f])|)
  }

  lemma FinishedMore(sent: seq<Sent>, m: Sent, f: nat, k: nat)
    ensures Finished(sent + [m], f, k) <==>
              Finished(sent, f, k) || (m.task == k && m.data.fragmentId == f && Terminal(m.data))
  {
    var sent' := sent + [m];
    if Finished(sent, f, k) {
      var i :| 0 <= i < |sent| && sent[i].task == k && sent[i].data.fragmentId == f && Terminal(sent[i].data);
      assert sent'[i] == sent[i];
    }
    if m.task == k && m.data.fragmentId == f && Terminal(m.data) {
      assert sent'[|sent|] == m;
    }
  }

  lemma DoneMore(sent: seq<Sent>, m: Sent, f: nat, n: nat)
    ensures Done(sent + [m], f, n) ==
              Done(sent, f, n) + if m.data.fragmentId == f && m.task < n && Terminal(m.data) then {m.task} else {}
  {
    forall k ensures Finished(sent + [m], f, k) <==>
                       Finished(sent, f, k) || (m.task == k && m.data.fragmentId == f && Terminal(m.data))
    {
      FinishedMore(sent, m, f, k);
    }
  }

  ghost function Range(n: nat): (r: set<nat>)
    ensures |r| == n && forall k :: k in r <==> 0 <= k < n
  {
    if n == 0 then {} else Range(n - 1) + {n - 1}
  }

  lemma SubsetSize(a: set<nat>, b: set<nat>)
    requires a <= b
    ensures |a| <= |b| && (|a| == |b| ==> a == b)
  {
    assert |b - a| == |b| - |a|;
  }

  lemma DoneSize(sent: seq<Sent>, f: nat, n: nat)
    ensures |Done(sent, f, n)| <= n
    ensures |Done(sent, f, n)| == n <==> forall k :: 0 <= k < n ==> Finished(sent, f, k)
  {
    var all := Range(n);
    SubsetSize(Done(sent, f, n), all);
    if |Done(sent, f, n)| == n {
      forall k | 0 <= k < n ensures Finished(sent, f, k) { assert k in all; }
    }
    if forall k :: 0 <= k < n ==> Finished(sent, f, k) { assert Done(sent, f, n) == all; }
  }

  lemma MarkedAt(numTasks: map<nat, nat>, g: nat, f: nat)
    requires g in numTasks && 1 <= numTasks[g] < U64
    ensures var marked := Marked(numTasks, g);
            if f != g then (f in marked <==> f in numTasks) && (f in marked ==> marked[f] == numTasks[f])
            else (f in marked <==> numTasks[g] > 1) && (f in marked ==> marked[f] == numTasks[g] - 1)
  {
    assert (numTasks[g] - 1) % U64 == numTasks[g] - 1;
  }

  // One delivery: the sender was not done, so its counter is positive.
  lemma SenderPending(tasks: map<nat, nat>, sent: seq<Sent>, m: Sent, numTasks: map<nat, nat>)
    requires Interleaving(tasks, sent + [m]) && Counts(tasks, sent, numTasks)
    ensures var g := m.data.fragmentId;
            g in tasks && m.task < tasks[g] < U64 && g in numTasks && 1 <= numTasks[g] <= tasks[g]
  {
    var g := m.data.fragmentId;
    assert (sent + [m])[|sent|] == m;
    SenderNotDone(tasks, sent, m);
    DoneSize(sent, g, tasks[g]);
    assert CountOk(tasks, sent, numTasks, g);
  }

  lemma CountStepAt(tasks: map<nat, nat>, sent: seq<Sent>, m: Sent, numTasks: map<nat, nat>, f: nat)
    requires Interleaving(tasks, sent + [m]) && Counts(tasks, sent, numTasks)
    ensures CountOk(tasks, sent + [m],
                    if Terminal(m.data) then Marked(numTasks, m.data.fragmentId) else numTasks, f)
  {
    var g := m.data.fragmentId;
    SenderPending(tasks, sent, m, numTasks);
    SenderNotDone(tasks, sent, m);
    assert CountOk(tasks, sent, numTasks, f);
    MarkedAt(numTasks, g, f);
    if f in tasks {
      DoneMore(sent, m, f, tasks[f]);
      if f == g { assert m.task !in Done(sent, g, tasks[g]); }
    }
  }

  lemma CountsStep(tasks: map<nat, nat>, sent: seq<Sent>, m: Sent, numTasks: map<nat, nat>)
    requires Interleaving(tasks, sent + [m]) && Counts(tasks, sent, numTasks)
    ensures Counts(tasks, sent + [m], if Terminal(m.data) then Marked(numTasks, m.data.fragmentId) else numTasks)
  {
    var after := if Terminal(m.data) then Marked(numTasks, m.data.fragmentId) else numTasks;
    forall f ensures CountOk(tasks, sent + [m], after, f) {
      CountStepAt(tasks, sent, m, numTasks, f);
    }
  }

  lemma SenderNotDone(tasks: map<nat, nat>, sent: seq<Sent>, m: Sent)
    requires Interleaving(tasks, sent + [m])
    ensures !Finished(sent, m.data.fragmentId, m.task)
  {
    var sent' := sent + [m];
    forall i | 0 <= i < |sent| && SameTask(sent[i], m) ensures !Terminal(sent[i].data) {
      assert sent'[i] == sent[i] && sent'[|sent|] == m;
    }
  }

  ghost predicate Grouped(ms: seq<FragmentData>, next: NextState) {
    next.Fusion? ==> forall f :: BlocksOf(next.inputBlocks, f) == BlocksFrom(ms, f)
  }

  lemma {:induction false} CountsAfter(tasks: map<nat, nat>, sent: seq<Sent>, next: NextState)
    requires Interleaving(tasks, sent)
    ensures Counts(tasks, sent, DeliverAll(Source(tasks, None, next), Messages(sent)).numTasks)
  {
    if sent == [] {
      forall f ensures CountOk(tasks, sent, tasks, f) {
        if f in tasks { assert Done(sent, f, tasks[f]) == {}; }
      }
    } else {
      var n := |sent| - 1;
      var before, m := sent[..n], sent[n];
      assert sent == before + [m];
      CountsAfter(tasks, before, next);
      assert Messages(sent)[..n] == Messages(before);
      CountsStep(tasks, before, m, DeliverAll(Source(tasks, None, next), Messages(before)).numTasks);
    }
  }

  lemma {:induction false} ErrorAfter(s: Source, ms: seq<FragmentData>)
    requires s.error.None?
    ensures IsFirstError(ms, DeliverAll(s, ms).error)
  {
    if ms != [] {
      var n := |ms| - 1;
      ErrorAfter(s, ms[..n]);
      var e := DeliverAll(s, ms[..n]).error;
      if e.Some? {
        var i :| 0 <= i < n && ms[..n][i].error == e && forall j :: 0 <= j < i ==> ms[..n][j].error.None?;
        assert ms[i].error == e && forall j :: 0 <= j < i ==> ms[..n][j] == ms[j];
      } else {
        assert forall j :: 0 <= j < n ==> ms[..n][j] == ms[j];
      }
    }
  }

  lemma {:induction false} BlocksAfter(s: Source, ms: seq<FragmentData>)
    requires s.next.Fusion? && s.next.inputBlocks == map[]
    ensures DeliverAll(s, ms).next.Fusion? && Grouped(ms, DeliverAll(s, ms).next)
  {
    if ms != [] { BlocksAfter(s, ms[..|ms| - 1]); }
  }

  // A merge state holds the block of the message delivered last.
  lemma MergeReceives(s: Source, ms: seq<FragmentData>)
    requires s.next.MergeKnn? && ms != []
    ensures DeliverAll(s, ms).next == MergeKnn(ms[|ms| - 1].block, DeliverAll(s, ms).numTasks == map[])
  {
    MergeStays(s, ms[..|ms| - 1]);
  }

  lemma {:induction false} MergeStays(s: Source, ms: seq<FragmentData>)
    requires s.next.MergeKnn?
    ensures DeliverAll(s, ms).next.MergeKnn?
  {
    if ms != [] { MergeStays(s, ms[..|ms| - 1]); }
  }

  lemma CompleteIsEmpty(s: Source, ms: seq<FragmentData>)
    requires !s.next.Unsupported? && ms != []
    ensures var r := DeliverAll(s, ms); !r.next.Unsupported? && (r.next.inputComplete <==> r.numTasks == map[])
  {
    KeepsKind(s, ms[..|ms| - 1]);
  }

  // After any non-empty prefix of an interleaving, the next operator's input is
  // complete exactly when every task has sent its terminal message.
  lemma CompleteExactlyWhen(tasks: map<nat, nat>, sent: seq<Sent>, next: NextState)
    requires Interleaving(tasks, sent) && sent != [] && !next.Unsupported?
    ensures var s := DeliverAll(Source(tasks, None, next), Messages(sent));
            && !s.next.Unsupported?
            && (s.next.inputComplete <==> forall f, k :: f in tasks && 0 <= k < tasks[f] ==> Finished(sent, f, k))
  {
    var s := DeliverAll(Source(tasks, None, next), Messages(sent));
    CompleteIsEmpty(Source(tasks, None, next), Messages(sent));
    CountsAfter(tasks, sent, next);
    forall f | f in tasks
      ensures f in s.numTasks <==> !(forall k :: 0 <= k < tasks[f] ==> Finished(sent, f, k))
    {
      assert CountOk(tasks, sent, s.numTasks, f);
      DoneSize(sent, f, tasks[f]);
    }
    forall f | f !in tasks ensures f !in s.numTasks { assert CountOk(tasks, sent, s.numTasks, f); }
    if s.numTasks != map[] {
      var f :| f in s.numTasks;
    }
  }

  lemma MergeState(tasks: map<nat, nat>, sent: seq<Sent>, next: NextState, delivered: seq<FragmentData>, i: nat)
    requires WholeRun(tasks, sent) && next.MergeKnn? && delivered <= Messages(sent) && i < |delivered|
    ensures DeliverAll(Source(tasks, None, next), delivered[..i + 1]).next ==
            MergeKnn(sent[i].data.block, i + 1 == |sent|)
  {
    DeliveredStatus(tasks, sent, next, delivered, i);
    MergeReceives(Source(tasks, None, next), delivered[..i + 1]);
    assert delivered[i] == Messages(sent)[i];
  }

  // The blocks handed to a merge, read by read, are the blocks sent.
  lemma MergeStates(tasks: map<nat, nat>, sent: seq<Sent>, next: NextState, delivered: seq<FragmentData>,
                    states: seq<NextState>)
    requires WholeRun(tasks, sent) && next.MergeKnn? && delivered <= Messages(sent) && |states| == |delivered|
    requires forall i :: 0 <= i < |states| ==>
               states[i] == DeliverAll(Source(tasks, None, next), delivered[..i + 1]).next
    ensures forall i :: 0 <= i < |states| ==> states[i] == MergeKnn(sent[i].data.block, i + 1 == |sent|)
  {
    forall i | 0 <= i < |states| ensures states[i] == MergeKnn(sent[i].data.block, i + 1 == |sent|) {
      MergeState(tasks, sent, next, delivered, i);
    }
  }

  lemma FusionStates(tasks: map<nat, nat>, sent: seq<Sent>, next: NextState, delivered: seq<FragmentData>,
                     states: seq<NextState>)
    requires WholeRun(tasks, sent) && next.Fusion? && next.inputBlocks == map[]
    requires delivered <= Messages(sent) && |states| == |delivered|
    requires forall i :: 0 <= i < |states| ==>
               states[i] == DeliverAll(Source(tasks, None, next), delivered[..i + 1]).next
    ensures forall i :: 0 <= i < |states| ==>
              && states[i].Fusion? && states[i].inputComplete == (i + 1 == |sent|)
              && Grouped(delivered[..i + 1], states[i])
  {
    forall i | 0 <= i < |states|
      ensures states[i].Fusion? && states[i].inputComplete == (i + 1 == |sent|)
      ensures Grouped(delivered[..i + 1], states[i])
    {
      DeliveredStatus(tasks, sent, next, delivered, i);
      BlocksAfter(Source(tasks, None, next), delivered[..i + 1]);
      CompleteIsEmpty(Source(tasks, None, next), delivered[..i + 1]);
    }
  }

  // The message of a task that sends n blocks, or of one that fails.
  function BlockMessage(fragmentId: nat, block: Block, i: nat, n: nat): FragmentData {
    FragmentData(fragmentId, Some(block), None, i, n)
  }

  // Of n blocks the last is terminal and no other is; an error always is.
  lemma TerminalIsLast(fragmentId: nat, block: Block, i: nat, n: nat, error: string)
    requires i < n < U64
    ensures Terminal(BlockMessage(fragmentId, block, i, n)) <==> i == n - 1
    ensures Terminal(FragmentData(fragmentId, None, Some(error), i, n))
  {
  }

  // After any prefix of any interleaving: the counters equal the terminal
  // messages still undelivered, the first error is kept, and a fusion state
  // holds every block under its fragment, in arrival order.
  lemma AfterPrefix(tasks: map<nat, nat>, sent: seq<Sent>, next: NextState)
    requires Interleaving(tasks, sent)
    ensures var s := DeliverAll(Source(tasks, None, next), Messages(sent));
            && Counts(tasks, sent, s.numTasks)
            && IsFirstError(Messages(sent), s.error)
            && (next.Fusion? && next.inputBlocks == map[] ==> s.next.Fusion? && Grouped(Messages(sent), s.next))
  {
    CountsAfter(tasks, sent, next);
    ErrorAfter(Source(tasks, None, next), Messages(sent));
    if next.Fusion? && next.inputBlocks == map[] { BlocksAfter(Source(tasks, None, next), Messages(sent)); }
  }

  // No delivery of an interleaving underflows a counter.
  lemma NoUnderflow(tasks: map<nat, nat>, sent: seq<Sent>, next: NextState, i: nat)
    requires Interleaving(tasks, sent) && i < |sent|
    ensures var numTasks := DeliverAll(Source(tasks, None, next), Messages(sent[..i])).numTasks;
            sent[i].data.fragmentId in numTasks && numTasks[sent[i].data.fragmentId] >= 1
  {
    assert sent[..i] + [sent[i]] == sent[..i + 1];
    AfterPrefix(tasks, sent[..i], next);
    SenderPending(tasks, sent[..i], sent[i], DeliverAll(Source(tasks, None, next), Messages(sent[..i])).numTasks);
  }

  // The source is complete after the last message of a whole run and not before.
  lemma CompleteExactlyAtEnd(tasks: map<nat, nat>, sent: seq<Sent>, next: NextState, i: nat)
    requires WholeRun(tasks, sent) && i <= |sent|
    ensures DeliverAll(Source(tasks, None, next), Messages(sent[..i])).numTasks == map[] <==> i == |sent|
  {
    var numTasks := DeliverAll(Source(tasks, None, next), Messages(sent[..i])).numTasks;
    if i < |sent| {
      NoUnderflow(tasks, sent, next, i);
    } else {
      assert sent[..i] == sent;
      AfterPrefix(tasks, sent, next);
      forall f ensures f !in numTasks {
        assert CountOk(tasks, sent, numTasks, f);
        if f in tasks { DoneSize(sent, f, tasks[f]); }
      }
      assert numTasks.Keys == {};
    }
  }
}
