// Group commit: sessions submit entries, one flush at a time numbers and writes
// a batch, syncs it, commits it and now and then posts a checkpoint.
module Wal {
  import opened Prelude
  import opened WalLog

  // A session between two of its atomic steps.
  datatype Session = Allocated(id: nat) | Begun(id: nat) | Submitting(entry: Entry) {
    function Txn(): nat { if Submitting? then entry.txn else id }
  }

  // Where Flush() stands.
  datatype Phase =
    | Idle
    | Entered(maxLsn: int)
    | Writing(written: nat, maxLsn: int)
    | Committing(written: nat, maxLsn: int)
    | Deciding(maxLsn: int)

  // `existing` is what the file held when it was opened for appending;
  // `submitted`, `committed` and `posted` record what happened, in order.
  datatype State = State(
    running: bool,
    nextTxn: nat, active: set<nat>, lsnOf: map<nat, nat>,
    sessions: map<nat, Session>,
    que: seq<Entry>, que2: seq<Entry>, que3: seq<Record>,
    nextLsn: nat, existing: seq<byte>, file: seq<byte>, log: seq<Record>, synced: nat,
    pending: int, phase: Phase,
    submitted: seq<Entry>, committed: seq<Record>, posted: seq<int>)

  // pending_checkpoint_ starts with whatever its memory held, and the file
  // with whatever was written to it before.
  predicate Initial(s: State) {
    && s.running && s.nextTxn == 1 && s.active == {} && s.lsnOf == map[] && s.sessions == map[]
    && s.que == [] && s.que2 == [] && s.que3 == []
    && s.nextLsn == 1 && s.file == s.existing && s.log == [] && s.synced == 0
    && s.phase == Idle && s.submitted == [] && s.committed == [] && s.posted == []
  }

  // ------------------------------------------------------------------ steps

  datatype Step =
    // sessions, and a stop at any time
    | AllocTxnId(session: nat)
    | AddActiveTxn(session: nat)
    | LoadRunning(session: nat, entry: Entry)
    | Push(session: nat)
    | Stop
    // Flush()
    | EnterFlush
    | SwapQueues
    | WriteFront
    | EndWriting
    | CommitFront
    | EndCommitting
    | Decide(elapsed: bool)

  predicate BySession(st: Step) {
    st.AllocTxnId? || st.AddActiveTxn? || st.LoadRunning? || st.Push? || st.Stop?
  }

  predicate Enabled(s: State, st: Step) {
    match st
    case AllocTxnId(x) => x !in s.sessions
    case AddActiveTxn(x) => x in s.sessions && s.sessions[x].Allocated?
    case LoadRunning(x, e) => x in s.sessions && s.sessions[x].Begun? && e.txn == s.sessions[x].id && e.Sized()
    case Push(x) => x in s.sessions && s.sessions[x].Submitting?
    case Stop => true
    case EnterFlush => s.phase.Idle?
    case SwapQueues => s.phase.Entered?
    case WriteFront => s.phase.Writing? && s.que2 != []
    case EndWriting => s.phase.Writing? && s.que2 == []
    case CommitFront => s.phase.Committing? && s.que3 != []
    case EndCommitting => s.phase.Committing? && s.que3 == []
    case Decide(_) => s.phase.Deciding?
  }

  // CommitTxn uses the transaction it looked up, so it must be there.
  predicate Safe(s: State, st: Step)
    requires Enabled(s, st)
  {
    st.CommitFront? ==> s.que3[0].entry.txn in s.active
  }

  function Allocate(s: State, x: nat): State {
    s.(sessions := s.sessions[x := Allocated(s.nextTxn)], nextTxn := s.nextTxn + 1)
  }

  function Activate(s: State, x: nat): State
    requires Enabled(s, AddActiveTxn(x))
  {
    s.(sessions := s.sessions[x := Begun(s.sessions[x].id)], active := s.active + {s.sessions[x].id})
  }

  // An entry offered after Stop() is dropped.
  function Offer(s: State, x: nat, e: Entry): State {
    s.(sessions := if s.running then s.sessions[x := Submitting(e)] else s.sessions - {x})
  }

  function Submit(s: State, x: nat): State
    requires Enabled(s, Push(x))
  {
    var e := s.sessions[x].entry;
    s.(sessions := s.sessions - {x}, que := s.que + [e], submitted := s.submitted + [e])
  }

  function DoSession(s: State, st: Step): State
    requires Enabled(s, st) && BySession(st)
  {
    match st
    case AllocTxnId(x) => Allocate(s, x)
    case AddActiveTxn(x) => Activate(s, x)
    case LoadRunning(x, e) => Offer(s, x, e)
    case Push(x) => Submit(s, x)
    case Stop => s.(running := false)
  }

  function Start(s: State): State {
    s.(phase := if s.running then Entered(s.nextLsn - 1) else Idle)
  }

  function Swapped(s: State): State
    requires Enabled(s, SwapQueues)
  {
    s.(que := s.que2, que2 := s.que, phase := Writing(0, s.phase.maxLsn))
  }

  function Written(s: State): State
    requires Enabled(s, WriteFront)
  {
    var r := Record(s.que2[0], s.nextLsn);
    s.(que2 := s.que2[1..], que3 := s.que3 + [r], nextLsn := s.nextLsn + 1,
       file := s.file + Image(r) + ToLittleEndian(r.entry.GetSize(), 4), log := s.log + [r],
       phase := Writing(s.phase.written + 1, s.nextLsn))
  }

  function Synced(s: State): State
    requires Enabled(s, EndWriting)
  {
    if s.phase.written > 0 then s.(synced := |s.log|, phase := Committing(s.phase.written, s.phase.maxLsn))
    else s.(phase := Deciding(s.phase.maxLsn))
  }

  function Committed(s: State): State
    requires Enabled(s, CommitFront)
  {
    var r := s.que3[0];
    s.(que3 := s.que3[1..], active := s.active - {r.entry.txn}, lsnOf := s.lsnOf[r.entry.txn := r.lsn],
       committed := s.committed + [r])
  }

  function Counted(s: State): State
    requires Enabled(s, EndCommitting)
  {
    s.(pending := s.pending + s.phase.written, phase := Deciding(s.phase.maxLsn))
  }

  function Decided(s: State, elapsed: bool): State
    requires Enabled(s, Decide(elapsed))
  {
    if s.pending >= 10 || elapsed then s.(posted := s.posted + [s.phase.maxLsn], pending := 0, phase := Idle)
    else s.(phase := Idle)
  }

  function DoFlush(s: State, st: Step): State
    requires Enabled(s, st) && !BySession(st)
  {
    match st
    case EnterFlush => Start(s)
    case SwapQueues => Swapped(s)
    case WriteFront => Written(s)
    case EndWriting => Synced(s)
    case CommitFront => Committed(s)
    case EndCommitting => Counted(s)
    case Decide(elapsed) => Decided(s, elapsed)
  }

  function Do(s: State, st: Step): State
    requires Enabled(s, st)
  {
    if BySession(st) then DoSession(s, st) else DoFlush(s, st)
  }

  ghost predicate Next(s: State, s': State) {
    exists st :: Enabled(s, st) && Do(s, st) == s'
  }

  ghost predicate IsRun(run: seq<State>) {
    run != [] && Initial(run[0]) && forall i :: 0 <= i < |run| - 1 ==> NextAt(run, i)
  }

  ghost predicate NextAt(run: seq<State>, i: nat)
    requires i + 1 < |run|
  {
    Next(run[i], run[i + 1])
  }

  // ------------------------------------------------------------- invariants

  // Nothing submitted is lost, doubled or reordered.
  predicate Conserved(s: State) {
    s.log == s.committed + s.que3 && s.submitted == Entries(s.log) + s.que2 + s.que
  }

  predicate Numbered(s: State) {
    s.nextLsn == |s.log| + 1 && forall i :: 0 <= i < |s.log| ==> s.log[i].lsn == i + 1
  }

  predicate Phased(s: State) {
    && |s.committed| <= s.synced <= |s.log|
    && match s.phase
       case Idle => s.que2 == [] && s.que3 == []
       case Entered(m) => s.que2 == [] && s.que3 == [] && m == |s.log|
       case Writing(w, m) => w == |s.que3| && m == |s.log|
       case Committing(w, m) => s.que2 == [] && m == |s.log| == s.synced
       case Deciding(m) => s.que2 == [] && s.que3 == [] && m == |s.log|
  }

  // A checkpoint covers committed entries only, and never goes back.
  predicate Covered(s: State) {
    && (forall i :: 0 <= i < |s.posted| ==> s.posted[i] <= |s.committed|)
    && (forall i, j :: 0 <= i < j < |s.posted| ==> s.posted[i] <= s.posted[j])
  }

  // Once a checkpoint is posted, the counter is what was committed since; it
  // reaches ten only while the next checkpoint is being decided.
  predicate Counting(s: State) {
    s.posted != [] ==>
      var last := s.posted[|s.posted| - 1];
      && last + s.pending + (if s.phase.Writing? || s.phase.Committing? then s.phase.written else 0) == |s.log|
      && (s.pending < 10 || s.phase.Deciding?)
  }

  predicate DistinctTxns(s: State) {
    && (forall i :: 0 <= i < |s.submitted| ==> s.submitted[i].txn < s.nextTxn)
    && (forall i, j :: 0 <= i < j < |s.submitted| ==> s.submitted[i].txn != s.submitted[j].txn)
    && (forall x :: x in s.sessions ==> s.sessions[x].Txn() < s.nextTxn)
    && (forall x, y :: x in s.sessions && y in s.sessions && x != y ==> s.sessions[x].Txn() != s.sessions[y].Txn())
    && (forall x, i :: x in s.sessions && 0 <= i < |s.submitted| ==> s.sessions[x].Txn() != s.submitted[i].txn)
  }

  predicate Active(s: State) {
    && (forall x :: x in s.sessions && !s.sessions[x].Allocated? ==> s.sessions[x].Txn() in s.active)
    && (forall i :: |s.committed| <= i < |s.submitted| ==> s.submitted[i].txn in s.active)
  }

  // A committed transaction keeps the LSN of its record.
  predicate Stamped(s: State) {
    forall i :: 0 <= i < |s.committed| ==>
      var r := s.committed[i]; r.entry.txn in s.lsnOf && s.lsnOf[r.entry.txn] == r.lsn
  }

  predicate Encoded(s: State) {
    s.file == s.existing + LogBytes(s.log)
  }

  predicate AllSized(s: State) {
    && (forall i :: 0 <= i < |s.submitted| ==> s.submitted[i].Sized())
    && (forall x :: x in s.sessions && s.sessions[x].Submitting? ==> s.sessions[x].entry.Sized())
  }

  predicate Inv(s: State) {
    && AllSized(s) && Encoded(s) && Counting(s) && Conserved(s) && Numbered(s)
    && Phased(s) && Covered(s) && DistinctTxns(s) && Active(s) && Stamped(s)
  }

  // What session steps leave alone.
  predicate FlushUntouched(s: State, s': State) {
    && s'.que2 == s.que2 && s'.que3 == s.que3 && s'.nextLsn == s.nextLsn && s'.synced == s.synced
    && s'.existing == s.existing && s'.file == s.file && s'.log == s.log
    && s'.pending == s.pending && s'.phase == s.phase && s'.committed == s.committed && s'.posted == s.posted
    && s'.lsnOf == s.lsnOf
  }

  // What session steps do to the queue.
  predicate Appended(s: State, s': State) {
    s.que <= s'.que && s'.submitted == s.submitted + s'.que[|s.que|..]
  }

  lemma SessionShape(s: State, st: Step)
    requires Enabled(s, st) && BySession(st)
    ensures FlushUntouched(s, DoSession(s, st)) && Appended(s, DoSession(s, st))
  {
    var s' := DoSession(s, st);
    var added := if st.Push? then [s.sessions[st.session].entry] else [];
    assert s'.que == s.que + added && s'.submitted == s.submitted + added;
  }

  lemma ConservedSession(s: State, s': State)
    requires FlushUntouched(s, s') && Appended(s, s') && Conserved(s)
    ensures Conserved(s')
  {
    assert s'.submitted == Entries(s'.log) + s'.que2 + s'.que;
  }

  lemma ConservedWrite(s: State)
    requires Enabled(s, WriteFront) && Conserved(s)
    ensures Conserved(Written(s))
  {
    var s', e := Written(s), s.que2[0];
    assert Entries(s'.log) == Entries(s.log) + [e];
    assert s'.submitted == Entries(s.log) + ([e] + s'.que2) + s'.que by { assert s.que2 == [e] + s'.que2; }
    assert s'.submitted == Entries(s'.log) + s'.que2 + s'.que;
  }

  lemma ConservedFlush(s: State, st: Step)
    requires Enabled(s, st) && !BySession(st) && Conserved(s) && Phased(s)
    ensures Conserved(DoFlush(s, st))
  {
    var s' := DoFlush(s, st);
    if st.WriteFront? {
      ConservedWrite(s);
    } else if st.SwapQueues? {
      assert s'.submitted == Entries(s'.log) + s'.que2 + s'.que;
    }
  }

  lemma PhasedFlush(s: State, st: Step)
    requires Enabled(s, st) && !BySession(st) && Conserved(s) && Numbered(s) && Phased(s)
    ensures Numbered(DoFlush(s, st)) && Phased(DoFlush(s, st))
  {
  }

  lemma CoveredFlush(s: State, st: Step)
    requires Enabled(s, st) && !BySession(st) && Conserved(s) && Phased(s) && Covered(s)
    ensures Covered(DoFlush(s, st))
  {
  }

  lemma CountingFlush(s: State, st: Step)
    requires Enabled(s, st) && !BySession(st) && Conserved(s) && Phased(s) && Counting(s)
    ensures Counting(DoFlush(s, st))
  {
  }

  lemma DistinctPush(s: State, x: nat)
    requires Enabled(s, Push(x)) && DistinctTxns(s)
    ensures DistinctTxns(Submit(s, x))
  {
    var s', e := Submit(s, x), s.sessions[x].entry;
    forall i | 0 <= i < |s.submitted| ensures s'.submitted[i] == s.submitted[i] && s.submitted[i].txn != e.txn {
    }
  }

  lemma DistinctSession(s: State, st: Step)
    requires Enabled(s, st) && BySession(st) && DistinctTxns(s)
    ensures DistinctTxns(DoSession(s, st))
  {
    if st.Push? { DistinctPush(s, st.session); }
  }

  // The record at the head of que3 is the next submitted entry to commit.
  lemma FrontIsNext(s: State)
    requires Conserved(s) && s.que3 != []
    ensures |s.committed| < |s.submitted| && s.submitted[|s.committed|] == s.que3[0].entry
  {
    assert s.log[|s.committed|] == s.que3[0];
  }

  lemma ActiveSession(s: State, st: Step)
    requires Enabled(s, st) && BySession(st) && |s.committed| <= |s.submitted| && Active(s)
    ensures Active(DoSession(s, st))
  {
  }

  lemma SizedSession(s: State, st: Step)
    requires Enabled(s, st) && BySession(st) && AllSized(s)
    ensures AllSized(DoSession(s, st))
  {
  }

  lemma ActiveCommit(s: State)
    requires s.que3 != [] && Enabled(s, CommitFront) && Conserved(s) && DistinctTxns(s) && Active(s)
    ensures Safe(s, CommitFront) && Active(Committed(s))
  {
    FrontIsNext(s);
  }

  lemma StampedCommit(s: State)
    requires Enabled(s, CommitFront) && Conserved(s) && DistinctTxns(s) && Stamped(s)
    ensures Stamped(Committed(s))
  {
    FrontIsNext(s);
    forall i | 0 <= i < |s.committed| ensures s.committed[i].entry.txn != s.que3[0].entry.txn {
      assert s.submitted[i] == s.log[i].entry == s.committed[i].entry;
    }
  }

  lemma SessionInv(s: State, st: Step)
    requires Enabled(s, st) && BySession(st) && Inv(s)
    ensures Inv(DoSession(s, st))
  {
    SessionShape(s, st);
    ConservedSession(s, DoSession(s, st));
    DistinctSession(s, st);
    ActiveSession(s, st);
    SizedSession(s, st);
  }

  predicate SessionsUntouched(s: State, s': State) {
    s'.sessions == s.sessions && s'.nextTxn == s.nextTxn && s'.submitted == s.submitted
  }

  lemma FlushShape(s: State, st: Step)
    requires Enabled(s, st) && !BySession(st)
    ensures var s' := DoFlush(s, st);
            && SessionsUntouched(s, s')
            && (!st.CommitFront? ==> s'.active == s.active && s'.lsnOf == s.lsnOf && s'.committed == s.committed)
  {
  }

  lemma TxnsKept(s: State, s': State)
    requires SessionsUntouched(s, s') && DistinctTxns(s) && AllSized(s)
    ensures DistinctTxns(s') && AllSized(s')
    ensures s'.active == s.active && s'.lsnOf == s.lsnOf && s'.committed == s.committed && Active(s) && Stamped(s) ==>
              Active(s') && Stamped(s')
  {
  }

  lemma EncodedFlush(s: State, st: Step)
    requires Enabled(s, st) && !BySession(st) && Encoded(s)
    ensures Encoded(DoFlush(s, st))
  {
    if st.WriteFront? { LogBytesAppend(s.existing, s.log, Record(s.que2[0], s.nextLsn)); }
  }

  lemma FlushInv(s: State, st: Step)
    requires Enabled(s, st) && !BySession(st) && Inv(s)
    ensures Inv(DoFlush(s, st)) && Safe(s, st)
  {
    var s' := DoFlush(s, st);
    assert Conserved(s') by { ConservedFlush(s, st); }
    assert Encoded(s') by { EncodedFlush(s, st); }
    assert Numbered(s') && Phased(s') by { PhasedFlush(s, st); }
    assert Covered(s') by { CoveredFlush(s, st); }
    assert Counting(s') by { CountingFlush(s, st); }
    assert DistinctTxns(s') && AllSized(s') && Active(s') && Stamped(s') && Safe(s, st) by {
      FlushShape(s, st);
      TxnsKept(s, s');
      if st.CommitFront? {
        ActiveCommit(s);
        StampedCommit(s);
      }
    }
  }

  lemma StepInv(s: State, st: Step)
    requires Enabled(s, st) && Inv(s)
    ensures Inv(Do(s, st)) && Safe(s, st)
  {
    if BySession(st) { SessionInv(s, st); } else { FlushInv(s, st); }
  }

  lemma StepAt(run: seq<State>, k: nat) returns (st: Step)
    requires IsRun(run) && k + 1 < |run|
    ensures Enabled(run[k], st) && Do(run[k], st) == run[k + 1]
  {
    assert NextAt(run, k);
    st :| Enabled(run[k], st) && Do(run[k], st) == run[k + 1];
  }

  lemma InitialInv(s: State)
    requires Initial(s)
    ensures Inv(s)
  {
    assert s.existing + [] == s.existing;
  }

  lemma {:induction false} RunInv(run: seq<State>, k: nat)
    requires IsRun(run) && k < |run|
    ensures Inv(run[k])
  {
    if k == 0 {
      InitialInv(run[0]);
    } else {
      RunInv(run, k - 1);
      var st := StepAt(run, k - 1);
      StepInv(run[k - 1], st);
    }
  }

  // --------------------------------------------------------- over every run

  // Submitted entries are the committed ones and the three queues, in order.
  lemma EntriesConserved(run: seq<State>, k: nat)
    requires IsRun(run) && k < |run|
    ensures run[k].submitted == Entries(run[k].committed) + Entries(run[k].que3) + run[k].que2 + run[k].que
  {
    RunInv(run, k);
    assert Entries(run[k].log) == Entries(run[k].committed) + Entries(run[k].que3);
  }

  lemma LogSized(s: State)
    requires Conserved(s) && AllSized(s)
    ensures forall i :: 0 <= i < |s.log| ==> s.log[i].entry.Sized()
  {
    forall i | 0 <= i < |s.log| ensures s.log[i].entry.Sized() {
      assert s.submitted[i] == s.log[i].entry;
    }
  }

  // Walking the file back from its end passes every record this manager wrote
  // and then goes on in what the file held before, whatever that was.
  lemma LogWalk(run: seq<State>, k: nat)
    requires IsRun(run) && k < |run|
    ensures var s := run[k];
            match WalkBack(s.existing)
            case None => WalkBack(s.file) == None
            case Some(w) =>
              WalkBack(s.file) == Some(Walk(w.boundaries + Offsets(|s.existing|, s.log), w.images + Images(s.log)))
  {
    RunInv(run, k);
    LogSized(run[k]);
    WalkBackOver(run[k].existing, run[k].log);
  }

  lemma FileHolds(s: State, earlier: seq<Record>)
    requires Encoded(s) && s.existing == LogBytes(earlier)
    ensures s.file == LogBytes(earlier + s.log)
  {
    LogBytesConcat(earlier, s.log);
  }

  // On a file that held a log, the walk meets every record of both; the j-th
  // record this manager wrote carries LSN j. The i-th record of the file
  // carries i throughout exactly when the file held nothing before, or was so
  // numbered and nothing was added.
  lemma LogNumbered(run: seq<State>, k: nat, earlier: seq<Record>)
    requires IsRun(run) && k < |run| && |run[k].log| <= MAX_INT64
    requires run[k].existing == LogBytes(earlier) && forall i :: 0 <= i < |earlier| ==> earlier[i].entry.Sized()
    ensures var all := earlier + run[k].log;
            && WalkBack(run[k].file) == Some(Walk(Boundaries(all), Images(all)))
            && (forall i :: |earlier| <= i < |all| ==> CarriedLsn(all, i) == i - |earlier| + 1)
            && (CarryNumbers(all) <==> earlier == [] || (run[k].log == [] && CarryNumbers(earlier)))
  {
    var s := run[k];
    assert Numbered(s) && s.file == LogBytes(earlier + s.log) &&
           (forall i :: 0 <= i < |s.log| ==> s.log[i].entry.Sized()) by {
      RunInv(run, k);
      LogSized(s);
      FileHolds(s, earlier);
    }
    WalkBackMeetsEveryRecord(earlier + s.log);
    AppendedNumbers(earlier, s.log);
    NumbersStartAgain(earlier, s.log);
  }

  lemma Longer(run: seq<State>, st: Step) returns (longer: seq<State>)
    requires IsRun(run) && Enabled(run[|run| - 1], st)
    ensures IsRun(longer) && longer == run + [Do(run[|run| - 1], st)]
  {
    longer := run + [Do(run[|run| - 1], st)];
    forall i | 0 <= i < |longer| - 1 ensures NextAt(longer, i) {
      if i < |run| - 1 { assert NextAt(run, i); }
    }
  }

  lemma DecidingFacts(s: State)
    requires Conserved(s) && Phased(s) && s.phase.Deciding?
    ensures s.committed == s.log && s.phase.maxLsn == |s.log|
  {
  }

  // When a flush decides about a checkpoint, all it wrote is committed.
  lemma AllCommitted(run: seq<State>, k: nat)
    requires IsRun(run) && k < |run| && run[k].phase.Deciding?
    ensures run[k].committed == run[k].log && run[k].phase.maxLsn == |run[k].log|
  {
    assert Conserved(run[k]) && Phased(run[k]) by { RunInv(run, k); }
    DecidingFacts(run[k]);
  }

  // Commits follow the log: a prefix of it, synced, each transaction once,
  // with the LSN it keeps.
  lemma CommitsFollowLog(run: seq<State>, k: nat)
    requires IsRun(run) && k < |run|
    ensures run[k].committed <= run[k].log[..Min(run[k].synced, |run[k].log|)]
    ensures forall i :: 0 <= i < |run[k].committed| ==>
              run[k].committed[i].lsn == i + 1 && run[k].committed[i].entry.txn in run[k].lsnOf &&
              run[k].lsnOf[run[k].committed[i].entry.txn] == i + 1
    ensures forall i, j :: 0 <= i < j < |run[k].committed| ==>
              run[k].committed[i].entry.txn != run[k].committed[j].entry.txn
  {
    RunInv(run, k);
    var s := run[k];
    forall i | 0 <= i < |s.committed| ensures s.committed[i] == s.log[i] && s.submitted[i] == s.committed[i].entry {
    }
  }

  // Every step that commits finds its transaction.
  lemma CommitFindsTxn(run: seq<State>, k: nat)
    requires IsRun(run) && k < |run| && Enabled(run[k], CommitFront)
    ensures run[k].que3[0].entry.txn in run[k].active
  {
    RunInv(run, k);
    ActiveCommit(run[k]);
  }

  // What has been written, synced, committed or posted stays so.
  predicate Grows(s: State, s': State) {
    && s.log <= s'.log && s.synced <= s'.synced && s.committed <= s'.committed && s.posted <= s'.posted
    && s.submitted <= s'.submitted && s'.existing == s.existing
  }

  lemma StepGrows(s: State, st: Step)
    requires Enabled(s, st) && Phased(s)
    ensures Grows(s, Do(s, st))
  {
    if BySession(st) { SessionShape(s, st); }
  }

  lemma GrowsTransitive(s: State, t: State, u: State)
    requires Grows(s, t) && Grows(t, u)
    ensures Grows(s, u)
  {
  }

  lemma {:induction false} HistoryGrows(run: seq<State>, j: nat, k: nat)
    requires IsRun(run) && j <= k < |run|
    ensures Grows(run[j], run[k])
  {
    if j < k {
      HistoryGrows(run, j, k - 1);
      RunInv(run, k - 1);
      var st := StepAt(run, k - 1);
      StepGrows(run[k - 1], st);
      GrowsTransitive(run[j], run[k - 1], run[k]);
    }
  }

  // A checkpoint posted by state j covers only entries committed, hence
  // synced, by then; later ones never go back.
  lemma CheckpointsCovered(run: seq<State>, j: nat, k: nat)
    requires IsRun(run) && j <= k < |run|
    ensures forall i :: 0 <= i < |run[j].posted| ==> run[j].posted[i] <= |run[j].committed| <= run[j].synced
    ensures forall i, m :: 0 <= i < |run[j].posted| && |run[j].posted| <= m < |run[k].posted| ==>
              run[j].posted[i] <= run[k].posted[m]
  {
    RunInv(run, j);
    RunInv(run, k);
    HistoryGrows(run, j, k);
  }

  // Between flushes fewer than ten committed entries are not covered by the
  // last checkpoint.
  lemma CheckpointsKeepUp(run: seq<State>, k: nat)
    requires IsRun(run) && k < |run| && run[k].phase.Idle? && run[k].posted != []
    ensures |run[k].committed| - run[k].posted[|run[k].posted| - 1] < 10
  {
    RunInv(run, k);
  }

  // -------------------------------------------------------------- after Stop

  predicate Offered(s: State, e: Entry) {
    exists x :: x in s.sessions && s.sessions[x] == Submitting(e)
  }

  // t is stopped, and what it took or may still take, s was already offered.
  predicate Draining(s: State, t: State) {
    && !t.running && |s.submitted| <= |t.submitted|
    && (forall i :: |s.submitted| <= i < |t.submitted| ==> Offered(s, t.submitted[i]))
    && (forall x :: x in t.sessions && t.sessions[x].Submitting? ==> Offered(s, t.sessions[x].entry))
  }

  lemma DrainingStep(s: State, t: State, st: Step)
    requires Draining(s, t) && Enabled(t, st)
    ensures Draining(s, Do(t, st))
  {
    if !BySession(st) { FlushShape(t, st); }
  }

  // After a stop, only the entries that were on their way before it are still
  // taken.
  lemma {:induction false} StopTakesNoMore(run: seq<State>, j: nat, k: nat)
    requires IsRun(run) && j < k < |run| && run[j + 1] == Do(run[j], Stop)
    ensures Draining(run[j], run[k])
  {
    if j + 1 < k {
      StopTakesNoMore(run, j, k - 1);
      var st := StepAt(run, k - 1);
      DrainingStep(run[j], run[k - 1], st);
    }
  }

  // ------------------------------------------------- the transaction is gone

  predicate Retired(s: State) {
    forall i :: 0 <= i < |s.committed| ==> s.committed[i].entry.txn !in s.active
  }

  lemma CommittedWereSubmitted(s: State, i: nat)
    requires Conserved(s) && i < |s.committed|
    ensures i < |s.submitted| && s.submitted[i] == s.committed[i].entry
  {
    assert s.log[i] == s.committed[i];
  }

  lemma RetiredSession(s: State, st: Step)
    requires Enabled(s, st) && BySession(st) && Conserved(s) && DistinctTxns(s) && Retired(s)
    ensures Retired(DoSession(s, st))
  {
    forall i | 0 <= i < |s.committed| ensures s.committed[i].entry.txn !in DoSession(s, st).active {
      CommittedWereSubmitted(s, i);
    }
  }

  // A committed transaction is no longer active.
  lemma {:induction false} CommittedNotActive(run: seq<State>, k: nat)
    requires IsRun(run) && k < |run|
    ensures Retired(run[k])
  {
    if k > 0 {
      CommittedNotActive(run, k - 1);
      assert Conserved(run[k - 1]) && DistinctTxns(run[k - 1]) by { RunInv(run, k - 1); }
      var st := StepAt(run, k - 1);
      if BySession(st) { RetiredSession(run[k - 1], st); } else { RetiredFlush(run[k - 1], st); }
    }
  }

  lemma RetiredFlush(s: State, st: Step)
    requires Enabled(s, st) && !BySession(st) && Retired(s)
    ensures Retired(DoFlush(s, st))
  {
    FlushShape(s, st);
  }
}
