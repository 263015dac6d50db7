// Flush() as a whole, with its loops, while sessions go on between any two of
// its steps.
module WalFlush {
  import opened Prelude
  import opened WalLog
  import opened Wal

  // ------------------------------------------------------------ specification

  // What the sessions do at the k-th interruption.
  function At(env: seq<seq<Step>>, k: nat): seq<Step> {
    if k < |env| then env[k] else []
  }

  function Interfered(s: State, steps: seq<Step>): (r: State)
    ensures FlushUntouched(s, r) && s.que <= r.que
    decreases |steps|
  {
    if steps == [] then s
    else if BySession(steps[0]) && Enabled(s, steps[0]) then
      SessionShape(s, steps[0]);
      Interfered(DoSession(s, steps[0]), steps[1..])
    else Interfered(s, steps[1..])
  }

  function WriteAll(s: State, env: seq<seq<Step>>, k: nat): (r: State)
    requires s.phase.Writing?
    ensures r.phase.Writing? && r.que2 == []
    decreases |s.que2|
  {
    if s.que2 == [] then s else WriteAll(Interfered(Written(s), At(env, k)), env, k + 1)
  }

  function CommitAll(s: State, env: seq<seq<Step>>, k: nat): (r: State)
    requires s.phase.Committing?
    ensures r.phase == s.phase && r.que3 == []
    decreases |s.que3|
  {
    if s.que3 == [] then s else CommitAll(Interfered(Committed(s), At(env, k)), env, k + 1)
  }

  function Taken(s: State, env: seq<seq<Step>>): (r: State)
    requires s.phase.Entered?
    ensures r.phase == Writing(0, s.phase.maxLsn)
  {
    Interfered(Swapped(Interfered(s, At(env, 0))), At(env, 1))
  }

  function CommitPart(s: State, env: seq<seq<Step>>): (r: State)
    requires s.phase.Committing? || s.phase.Deciding?
    ensures r.phase == Deciding(s.phase.maxLsn)
  {
    if s.phase.Committing? then Counted(CommitAll(Interfered(s, At(env, 1)), env, 2)) else s
  }

  // The state in which Flush() decides about a checkpoint.
  function Settled(s: State, env: seq<seq<Step>>, env2: seq<seq<Step>>): (r: State)
    requires s.phase.Idle? && s.running
    ensures r.phase.Deciding?
  {
    Interfered(CommitPart(Synced(WriteAll(Taken(Start(s), env), env, 2)), env2), At(env2, 0))
  }

  function Flushed(s: State, env: seq<seq<Step>>, env2: seq<seq<Step>>, elapsed: bool): State
    requires s.phase.Idle?
  {
    if !s.running then s
    else Decided(Settled(s, env, env2), elapsed)
  }

  // ----------------------------------------------------------------- the class

  // The manager's own fields, the transactions and the sessions it serves. The
  // ghost state adds the progress of Flush() and the history.
  class WalManager {
    var running: bool
    var nextTxn: nat
    var active: set<nat>
    var lsnOf: map<nat, nat>
    var sessions: map<nat, Session>
    var que: seq<Entry>
    var que2: seq<Entry>
    var que3: seq<Record>
    var nextLsn: nat
    var file: seq<byte>
    var pendingCheckpoint: int
    ghost var s: State

    ghost predicate Valid()
      reads this
    {
      && s.running == running && s.nextTxn == nextTxn && s.sessions == sessions
      && s.active == active && s.lsnOf == lsnOf
      && s.que == que && s.que2 == que2 && s.que3 == que3 && s.nextLsn == nextLsn
      && s.pending == pendingCheckpoint && s.file == file
    }

    // The file is opened for appending.
    constructor (garbage: int, existing: seq<byte>)
      ensures Valid() && Initial(s) && s.existing == existing
    {
      running, nextTxn, active, lsnOf, sessions, que, que2, que3 := true, 1, {}, map[], map[], [], [], [];
      nextLsn, file, pendingCheckpoint := 1, existing, garbage;
      s := State(true, 1, {}, map[], map[], [], [], [], 1, existing, existing, [], 0, garbage, Idle, [], [], []);
    }

    // One atomic step of a session, or a stop.
    method SessionStep(st: Step)
      requires Valid() && BySession(st) && Enabled(s, st)
      modifies `running, `nextTxn, `active, `sessions, `que, `s
      ensures Valid() && s == DoSession(old(s), st)
    {
      match st {
        case AllocTxnId(x) =>
          sessions, nextTxn := sessions[x := Allocated(nextTxn)], nextTxn + 1;
        case AddActiveTxn(x) =>
          active, sessions := active + {sessions[x].id}, sessions[x := Begun(sessions[x].id)];
        case LoadRunning(x, e) =>
          sessions := if running then sessions[x := Submitting(e)] else sessions - {x};
        case Push(x) =>
          que, sessions := que + [sessions[x].entry], sessions - {x};
        case Stop =>
          running := false;
      }
      s := DoSession(s, st);
    }

    predicate CanStep(st: Step)
      reads this
    {
      match st
      case AllocTxnId(x) => x !in sessions
      case AddActiveTxn(x) => x in sessions && sessions[x].Allocated?
      case LoadRunning(x, e) => x in sessions && sessions[x].Begun? && e.txn == sessions[x].id && e.Sized()
      case Push(x) => x in sessions && sessions[x].Submitting?
      case Stop => true
      case _ => false
    }

    // What the sessions do between two steps of Flush().
    method Interfere(steps: seq<Step>)
      requires Valid()
      modifies `running, `nextTxn, `active, `sessions, `que, `s
      ensures Valid() && s == Interfered(old(s), steps)
    {
      for i := 0 to |steps|
        invariant Valid() && Interfered(s, steps[i..]) == Interfered(old(s), steps)
      {
        assert steps[i..][1..] == steps[i + 1..];
        if CanStep(steps[i]) {
          SessionStep(steps[i]);
        }
      }
    }

    method WriteFrontEntry()
      requires Valid() && Enabled(s, WriteFront)
      modifies `que2, `que3, `nextLsn, `file, `s
      ensures Valid() && s == Written(old(s))
    {
      var entry := que2[0];
      var sizePad := entry.GetSize();
      var r := Record(entry, nextLsn);
      nextLsn := nextLsn + 1;
      file := file + Image(r);
      file := file + ToLittleEndian(sizePad, 4);
      que2 := que2[1..];
      que3 := que3 + [r];
      s := Written(s);
    }

    // Commits the front of que3.
    method CommitTxn()
      requires Valid() && Enabled(s, CommitFront)
      modifies `active, `lsnOf, `que3, `s
      ensures Valid() && s == Committed(old(s))
    {
      var r := que3[0];
      active, lsnOf := active - {r.entry.txn}, lsnOf[r.entry.txn := r.lsn];
      que3 := que3[1..];
      s := Committed(s);
    }

    // Takes the queued entries.
    method Take(env: seq<seq<Step>>)
      requires Valid() && s.phase.Entered?
      modifies `running, `nextTxn, `active, `sessions, `que, `que2, `s
      ensures Valid() && s == Taken(old(s), env)
    {
      Interfere(At(env, 0));
      que, que2 := que2, que;
      s := Swapped(s);
      Interfere(At(env, 1));
    }

    // Writes one entry, and whatever the sessions do next.
    method WriteOne(steps: seq<Step>)
      requires Valid() && Enabled(s, WriteFront)
      modifies `running, `nextTxn, `active, `sessions, `que, `que2, `que3, `nextLsn, `file, `s
      ensures Valid() && s == Interfered(Written(old(s)), steps)
    {
      WriteFrontEntry();
      Interfere(steps);
    }

    // The next round of the loop leads to the same end.
    method WriteNext(env: seq<seq<Step>>, k: nat, written: nat, maxLsn: int, ghost end: State)
      requires Valid() && s.phase == Writing(written, maxLsn) && que2 != [] && WriteAll(s, env, k) == end
      modifies `running, `nextTxn, `active, `sessions, `que, `que2, `que3, `nextLsn, `file, `s
      ensures Valid() && s.phase == Writing(written + 1, old(nextLsn)) && WriteAll(s, env, k + 1) == end
      ensures |que2| < |old(que2)|
    {
      WriteOne(At(env, k));
    }

    // Numbers and writes the batch in order.
    method WriteBatch(last: int, env: seq<seq<Step>>) returns (written: nat, maxLsn: int)
      requires Valid() && s.phase == Writing(0, last)
      modifies `running, `nextTxn, `active, `sessions, `que, `que2, `que3, `nextLsn, `file, `s
      ensures Valid() && s == WriteAll(old(s), env, 2) && s.phase == Writing(written, maxLsn)
    {
      written, maxLsn := 0, last;
      var k := 2;
      while que2 != []
        invariant Valid() && s.phase == Writing(written, maxLsn)
        invariant WriteAll(s, env, k) == WriteAll(old(s), env, 2)
        decreases |que2|
      {
        var lsn := nextLsn;
        WriteNext(env, k, written, maxLsn, WriteAll(old(s), env, 2));
        written, maxLsn, k := written + 1, lsn, k + 1;
      }
    }

    method CommitOne(steps: seq<Step>)
      requires Valid() && Enabled(s, CommitFront)
      modifies `running, `nextTxn, `active, `lsnOf, `sessions, `que, `que3, `s
      ensures Valid() && s == Interfered(Committed(old(s)), steps)
    {
      CommitTxn();
      Interfere(steps);
    }

    method CommitNext(env: seq<seq<Step>>, k: nat, ghost end: State)
      requires Valid() && s.phase.Committing? && que3 != [] && CommitAll(s, env, k) == end
      modifies `running, `nextTxn, `active, `lsnOf, `sessions, `que, `que3, `s
      ensures Valid() && s.phase == old(s.phase) && CommitAll(s, env, k + 1) == end
      ensures |que3| < |old(que3)|
    {
      CommitOne(At(env, k));
    }

    // Commits the synced batch in log order.
    method CommitBatch(written: nat, maxLsn: int, env: seq<seq<Step>>)
      requires Valid() && s.phase == Committing(written, maxLsn)
      modifies `running, `nextTxn, `active, `lsnOf, `sessions, `que, `que3, `pendingCheckpoint, `s
      ensures Valid() && s == Counted(CommitAll(old(s), env, 2))
    {
      var k := 2;
      while que3 != []
        invariant Valid() && s.phase == Committing(written, maxLsn)
        invariant CommitAll(s, env, k) == CommitAll(old(s), env, 2)
        decreases |que3|
      {
        CommitNext(env, k, CommitAll(old(s), env, 2));
        k := k + 1;
      }
      pendingCheckpoint := pendingCheckpoint + written;
      s := Counted(s);
    }

    // Syncs and commits if anything was written.
    method SyncBatch(written: nat, maxLsn: int, env: seq<seq<Step>>)
      requires Valid() && Enabled(s, EndWriting) && s.phase == Writing(written, maxLsn)
      modifies `running, `nextTxn, `active, `lsnOf, `sessions, `que, `que3, `pendingCheckpoint, `s
      ensures Valid() && s == CommitPart(Synced(old(s)), env) && s.phase == Deciding(maxLsn)
    {
      s := Synced(s);
      if written > 0 {
        Interfere(At(env, 1));
        CommitBatch(written, maxLsn, env);
      }
    }

    method DecideCheckpoint(maxLsn: int, elapsed: bool) returns (checkpoint: Option<int>)
      requires Valid() && s.phase == Deciding(maxLsn)
      modifies `pendingCheckpoint, `s
      ensures Valid() && s == Decided(old(s), elapsed)
      ensures s.posted == old(s.posted) + if checkpoint.Some? then [checkpoint.value] else []
    {
      checkpoint := None;
      if pendingCheckpoint >= 10 || elapsed {
        checkpoint := Some(maxLsn);
        pendingCheckpoint := 0;
      }
      s := Decided(s, elapsed);
    }

    // Returns the checkpoint it posts, if any.
    method Flush(env: seq<seq<Step>>, env2: seq<seq<Step>>, elapsed: bool) returns (checkpoint: Option<int>)
      requires Valid() && s.phase.Idle?
      modifies this
      ensures Valid() && s == Flushed(old(s), env, env2, elapsed)
      ensures s.posted == old(s.posted) + if checkpoint.Some? then [checkpoint.value] else []
    {
      checkpoint := None;
      var last := nextLsn - 1;
      if running {
        SettledLog(s, env, env2);
        s := Start(s);
        Take(env);
        var written, maxLsn := WriteBatch(last, env);
        SyncBatch(written, maxLsn, env2);
        Interfere(At(env2, 0));
        checkpoint := DecideCheckpoint(maxLsn, elapsed);
      }
    }
  }

  // ---------------------------------------------------------------- every flush

  ghost predicate Reachable(s: State) {
    exists run :: IsRun(run) && run[|run| - 1] == s
  }

  lemma ReachNext(s: State, st: Step)
    requires Reachable(s) && Enabled(s, st)
    ensures Reachable(Do(s, st))
  {
    var run :| IsRun(run) && run[|run| - 1] == s;
    var longer := Longer(run, st);
    assert longer[|longer| - 1] == Do(s, st);
  }

  lemma {:induction false} ReachInterfered(s: State, steps: seq<Step>)
    requires Reachable(s)
    ensures Reachable(Interfered(s, steps))
    decreases |steps|
  {
    if steps != [] {
      if BySession(steps[0]) && Enabled(s, steps[0]) {
        ReachNext(s, steps[0]);
        ReachInterfered(DoSession(s, steps[0]), steps[1..]);
      } else {
        ReachInterfered(s, steps[1..]);
      }
    }
  }

  lemma {:induction false} ReachWriteAll(s: State, env: seq<seq<Step>>, k: nat)
    requires Reachable(s) && s.phase.Writing?
    ensures Reachable(WriteAll(s, env, k))
    decreases |s.que2|
  {
    if s.que2 != [] {
      ReachNext(s, WriteFront);
      ReachInterfered(Written(s), At(env, k));
      ReachWriteAll(Interfered(Written(s), At(env, k)), env, k + 1);
    }
  }

  lemma {:induction false} ReachCommitAll(s: State, env: seq<seq<Step>>, k: nat)
    requires Reachable(s) && s.phase.Committing?
    ensures Reachable(CommitAll(s, env, k))
    decreases |s.que3|
  {
    if s.que3 != [] {
      ReachNext(s, CommitFront);
      ReachInterfered(Committed(s), At(env, k));
      ReachCommitAll(Interfered(Committed(s), At(env, k)), env, k + 1);
    }
  }

  lemma ReachTaken(s: State, env: seq<seq<Step>>)
    requires Reachable(s) && s.phase.Entered?
    ensures Reachable(Taken(s, env))
  {
    ReachInterfered(s, At(env, 0));
    ReachNext(Interfered(s, At(env, 0)), SwapQueues);
    ReachInterfered(Swapped(Interfered(s, At(env, 0))), At(env, 1));
  }

  lemma ReachCommitPart(s: State, env: seq<seq<Step>>)
    requires Reachable(s) && (s.phase.Committing? || s.phase.Deciding?)
    ensures Reachable(CommitPart(s, env))
  {
    if s.phase.Committing? {
      ReachInterfered(s, At(env, 1));
      ReachCommitAll(Interfered(s, At(env, 1)), env, 2);
      ReachNext(CommitAll(Interfered(s, At(env, 1)), env, 2), EndCommitting);
    }
  }

  lemma ReachSynced(s: State, env: seq<seq<Step>>)
    requires Reachable(s) && s.phase.Writing?
    ensures Reachable(Synced(WriteAll(s, env, 2)))
  {
    ReachWriteAll(s, env, 2);
    ReachNext(WriteAll(s, env, 2), EndWriting);
  }

  lemma ReachSettled(s: State, env: seq<seq<Step>>, env2: seq<seq<Step>>)
    requires Reachable(s) && s.phase.Idle? && s.running
    ensures Reachable(Settled(s, env, env2))
  {
    var taken := Taken(Start(s), env);
    assert Reachable(taken) by {
      ReachNext(s, EnterFlush);
      ReachTaken(Start(s), env);
    }
    var synced := Synced(WriteAll(taken, env, 2));
    ReachSynced(taken, env);
    ReachCommitPart(synced, env2);
    ReachInterfered(CommitPart(synced, env2), At(env2, 0));
  }

  // One session begins ...
  lemma BeginOne(s: State) returns (s': State)
    requires Initial(s)
    ensures Reachable(s') && s' == Activate(Allocate(s, 0), 0)
  {
    assert Reachable(s) by { assert IsRun([s]) && [s][|[s]| - 1] == s; }
    ReachNext(s, AllocTxnId(0));
    ReachNext(Allocate(s, 0), AddActiveTxn(0));
    s' := Activate(Allocate(s, 0), 0);
  }

  // ... submits an entry and leaves.
  lemma SubmitOne(s: State, e: Entry) returns (s': State)
    requires Initial(s) && e.txn == 1 && e.Sized()
    ensures Reachable(s') && s'.existing == s.existing && s'.running && s'.phase.Idle?
    ensures s'.que == [e] && s'.que2 == [] && s'.que3 == [] && s'.log == [] && s'.nextLsn == 1
  {
    s' := BeginOne(s);
    ReachNext(s', LoadRunning(0, e));
    s' := Offer(s', 0, e);
    ReachNext(s', Push(0));
    s' := Submit(s', 0);
  }

  // A reopened log: whatever log the file held and whatever entry comes next,
  // the file is no longer numbered once that entry is written.
  lemma ReopenedLog(earlier: seq<Record>, e: Entry)
    requires earlier != [] && e.txn == 1 && e.Sized()
    ensures exists s :: Reachable(s) && s.existing == LogBytes(earlier) && s.log == [Record(e, 1)] &&
                        !CarryNumbers(earlier + s.log)
  {
    var s := WriteOnce(LogBytes(earlier), e);
    NumbersStartAgain(earlier, s.log);
  }

  lemma WriteOnce(file: seq<byte>, e: Entry) returns (s: State)
    requires e.txn == 1 && e.Sized()
    ensures Reachable(s) && s.existing == file && s.log == [Record(e, 1)]
  {
    s := SubmitOne(State(true, 1, {}, map[], map[], [], [], [], 1, file, file, [], 0, 0, Idle, [], [], []), e);
    ReachNext(s, EnterFlush);
    s := Start(s);
    ReachNext(s, SwapQueues);
    s := Swapped(s);
    ReachNext(s, WriteFront);
    s := Written(s);
  }

  // Whatever the sessions do meanwhile, a flush takes a reachable state to a
  // reachable one, so all that holds over every run holds after every flush.
  lemma FlushReaches(s: State, env: seq<seq<Step>>, env2: seq<seq<Step>>, elapsed: bool)
    requires Reachable(s) && s.phase.Idle?
    ensures Reachable(Flushed(s, env, env2, elapsed))
  {
    if s.running {
      ReachSettled(s, env, env2);
      ReachNext(Settled(s, env, env2), Decide(elapsed));
    }
  }

  lemma WriteOneWrites(s: State, steps: seq<Step>)
    requires Enabled(s, WriteFront)
    ensures var t := Interfered(Written(s), steps);
            && Entries(t.log) + t.que2 == Entries(s.log) + s.que2 && t.posted == s.posted
            && t.phase.Writing? && |t.que2| < |s.que2| && t.pending == s.pending
            && |t.log| == |s.log| + 1 && t.phase.written == s.phase.written + 1
  {
    var t := Written(s);
    assert Entries(t.log) == Entries(s.log) + [s.que2[0]];
    assert s.que2 == [s.que2[0]] + t.que2;
  }

  lemma {:induction false} WriteAllWrites(s: State, env: seq<seq<Step>>, k: nat)
    requires s.phase.Writing?
    ensures var r := WriteAll(s, env, k);
            && Entries(r.log) == Entries(s.log) + s.que2 && r.posted == s.posted && r.pending == s.pending
            && |r.log| - |s.log| == r.phase.written - s.phase.written
    decreases |s.que2|
  {
    if s.que2 != [] {
      WriteOneWrites(s, At(env, k));
      WriteAllWrites(Interfered(Written(s), At(env, k)), env, k + 1);
    }
  }

  lemma {:induction false} CommitAllKeepsLog(s: State, env: seq<seq<Step>>, k: nat)
    requires s.phase.Committing?
    ensures var r := CommitAll(s, env, k); r.log == s.log && r.posted == s.posted && r.pending == s.pending
    decreases |s.que3|
  {
    if s.que3 != [] { CommitAllKeepsLog(Interfered(Committed(s), At(env, k)), env, k + 1); }
  }

  lemma SettledLog(s: State, env: seq<seq<Step>>, env2: seq<seq<Step>>)
    requires s.phase.Idle? && s.running
    ensures var r := Settled(s, env, env2);
            && Entries(s.log) + s.que <= Entries(r.log) && r.posted == s.posted
            && r.pending == s.pending + |r.log| - |s.log|
  {
    var taken := Taken(Start(s), env);
    var written := WriteAll(taken, env, 2);
    WriteAllWrites(taken, env, 2);
    var synced := Synced(written);
    if synced.phase.Committing? { CommitAllKeepsLog(Interfered(synced, At(env2, 1)), env2, 2); }
    assert s.que <= taken.que2 && taken.log == s.log && taken.posted == s.posted;
  }

  lemma DecidingIsCommitted(s: State)
    requires Reachable(s) && s.phase.Deciding?
    ensures s.committed == s.log && s.phase.maxLsn == |s.log|
  {
    var run :| IsRun(run) && run[|run| - 1] == s;
    AllCommitted(run, |run| - 1);
  }

  lemma SettledCommitted(s: State, env: seq<seq<Step>>, env2: seq<seq<Step>>)
    requires Reachable(s) && s.phase.Idle? && s.running
    ensures var t := Settled(s, env, env2); t.committed == t.log && t.phase.maxLsn == |t.log|
  {
    ReachSettled(s, env, env2);
    DecidingIsCommitted(Settled(s, env, env2));
  }

  lemma DecidedKeeps(t: State, elapsed: bool)
    requires t.phase.Deciding?
    ensures var r := Decided(t, elapsed);
            && r.log == t.log && r.committed == t.committed
            && (r.posted == t.posted || r.posted == t.posted + [t.phase.maxLsn])
  {
  }

  // A flush of a running manager writes at least what was queued, after what
  // was there, and commits the whole log before it returns; a checkpoint it
  // posts covers exactly that. A stopped manager is left alone.
  lemma FlushCommitsQueue(s: State, env: seq<seq<Step>>, env2: seq<seq<Step>>, elapsed: bool)
    requires Reachable(s) && s.phase.Idle?
    ensures var r := Flushed(s, env, env2, elapsed);
            if s.running then
              && Entries(s.log) + s.que <= Entries(r.log) && r.committed == r.log
              && (r.posted == s.posted || r.posted == s.posted + [|r.log|])
            else r == s
  {
    if s.running {
      SettledLog(s, env, env2);
      SettledCommitted(s, env, env2);
      DecidedKeeps(Settled(s, env, env2), elapsed);
    }
  }

  lemma DecidedExactly(t: State, elapsed: bool)
    requires t.phase.Deciding? && t.phase.maxLsn == |t.log|
    ensures var r := Decided(t, elapsed);
            && r.log == t.log
            && if elapsed || t.pending >= 10 then r.posted == t.posted + [|t.log|] && r.pending == 0
               else r.posted == t.posted && r.pending == t.pending
  {
  }

  // A running manager's flush posts a checkpoint exactly when the interval has
  // elapsed or the entries written since the last one, this flush's among them,
  // are ten or more; then it covers the whole log and the count starts again.
  lemma PostsExactlyWhen(s: State, env: seq<seq<Step>>, env2: seq<seq<Step>>, elapsed: bool)
    requires Reachable(s) && s.phase.Idle? && s.running
    ensures var r := Flushed(s, env, env2, elapsed);
            var count := s.pending + |r.log| - |s.log|;
            if elapsed || count >= 10 then r.posted == s.posted + [|r.log|] && r.pending == 0
            else r.posted == s.posted && r.pending == count
  {
    SettledLog(s, env, env2);
    SettledCommitted(s, env, env2);
    DecidedExactly(Settled(s, env, env2), elapsed);
  }
}
