// When `enqueue` allocates a buffer ahead of need, and that no buffer is leaked.
module MpscLookAhead {
  import opened MpscState
  import opened MpscInvariant
  import opened MpscRuns
  import opened MpscProgress

  // ------------------------------------------------------------ the look-ahead

  // Between states i and i + 1 p goes from a buffer to another one.
  ghost predicate WalksBack<T>(run: seq<State<T>>, p: Pid, i: nat)
    requires i + 1 < |run|
  {
    && p in run[i].producers && p in run[i + 1].producers
    && var at, at' := run[i].producers[p].at, run[i + 1].producers[p].at;
       at.Walk? && at'.Walk? && at.buf != at'.buf
  }

  ghost predicate WalkedBack<T>(run: seq<State<T>>, p: Pid, j: nat, k: nat)
    requires j <= k < |run|
  {
    exists i :: j <= i < k && WalksBack(run, p, i)
  }

  lemma WalkedBackMore<T>(run: seq<State<T>>, p: Pid, j: nat, k: nat)
    requires j <= k && k + 1 < |run|
    ensures WalkedBack(run, p, j, k + 1) <==> WalkedBack(run, p, j, k) || WalksBack(run, p, k)
  {
    if i :| j <= i < k && WalksBack(run, p, i) { assert j <= i < k + 1; }
    if WalksBack(run, p, k) { assert j <= k < k + 1; }
  }

  // p's call began with the step from state j and has not ended by state k.
  ghost predicate Calls<T>(run: seq<State<T>>, p: Pid, j: nat, k: nat) {
    j < k < |run| && p !in run[j].producers && forall i :: j < i <= k ==> p in run[i].producers
  }

  lemma BeginsFresh<T(!new)>(s: State<T>, s': State<T>, p: Pid)
    requires Next(s, s') && p !in s.producers && p in s'.producers
    ensures !s'.producers[p].goBack && s'.producers[p].at == LoadTail
  {
    if q :| q in s.producers && Safe(s, s.producers[q]) && s' == Advance(s, q) {
      OnlySelf(s, q);
      Others(s.producers, s'.producers, q, p);
    }
  }

  lemma PrevDiffers<T>(s: State<T>, buf: Ref)
    requires Linked(s) && InChain(s, buf) && s.heap[buf].prev.Some?
    ensures s.heap[buf].prev.value != buf
  {
    var i := s.heap[buf].position - 1;
    assert BufferOk(s, i);
    if i > 0 { assert BufferOk(s, i - 1); }
  }

  // A producer's own step sets the flag exactly when it walks back.
  lemma OwnStepFlag<T>(s: State<T>, p: Pid)
    requires ChainInv(s) && ProducerInv(s) && p in s.producers && Safe(s, s.producers[p])
    requires p in Advance(s, p).producers
    ensures var pr, pr' := s.producers[p], Advance(s, p).producers[p];
            pr'.goBack <==> pr.goBack || (pr.at.Walk? && pr'.at.Walk? && pr.at.buf != pr'.at.buf)
  {
    assert ProducerOk(s, p);
    var pr := s.producers[p];
    if pr.at.Walk? && pr.loc < pr.at.prevSize { PrevDiffers(s, pr.at.buf); }
  }

  lemma StepFlag<T(!new)>(run: seq<State<T>>, p: Pid, k: nat)
    requires IsRun(run) && k + 1 < |run| && WithinLimit(run[k])
    requires p in run[k].producers && p in run[k + 1].producers
    ensures run[k + 1].producers[p].goBack <==> run[k].producers[p].goBack || WalksBack(run, p, k)
  {
    assert NextAt(run, k);
    assert ChainInv(run[k]) && ProducerInv(run[k]) by { RunInv(run, k); }
    RunApart(run, k);
    if StepOf(run[k], run[k + 1], p) {
      OwnStepFlag(run[k], p);
    } else {
      OtherStep(run[k], run[k + 1], p);
    }
  }

  // The flag says whether the call has walked back.
  lemma {:induction false} FlagIsWalkedBack<T(!new)>(run: seq<State<T>>, p: Pid, j: nat, k: nat)
    requires IsRun(run) && Calls(run, p, j, k) && WithinLimit(run[k])
    ensures run[k].producers[p].goBack <==> WalkedBack(run, p, j + 1, k)
    decreases k
  {
    if k == j + 1 {
      assert NextAt(run, j);
      BeginsFresh(run[j], run[k], p);
    } else {
      assert WithinLimit(run[k - 1]) by { StepGrows(run, k - 1); }
      assert Calls(run, p, j, k - 1);
      FlagIsWalkedBack(run, p, j, k - 1);
      StepFlag(run, p, k - 1);
      WalkedBackMore(run, p, j + 1, k - 1);
    }
  }

  // In every run up to the limit: having set its slot, a call goes on to
  // allocate the next buffer exactly when the slot is the second of its buffer
  // and the call has not walked back; otherwise it is done.
  lemma LooksAheadExactlyWhen<T(!new)>(run: seq<State<T>>, p: Pid, j: nat, k: nat)
    requires IsRun(run) && Calls(run, p, j, k) && WithinLimit(run[k]) && run[k].producers[p].at.Publish?
    ensures var s, pr := run[k], run[k].producers[p];
            && Safe(s, pr)
            && var s' := Advance(s, p);
               && (p in s'.producers <==> pr.loc % s.bufferSize == 1 && !WalkedBack(run, p, j + 1, k))
               && (p in s'.producers ==> s'.producers[p].at == Alloc(pr.at.buf, true))
  {
    var s, pr := run[k], run[k].producers[p];
    FlagIsWalkedBack(run, p, j, k);
    ChainInEveryRun(run, k);
    assert ProducerInv(s) by { RunInv(run, k); }
    assert ProducerOk(s, p);
    DivModOfLoc(s.bufferSize, s.heap[pr.at.buf].position - 1, pr.at.index);
  }

  // ------------------------------------------------------------- no buffer leaks

  ghost predicate HeldBy<T>(s: State<T>, p: Pid, r: Ref) {
    p in s.producers && s.producers[p].at.CasNext? && s.producers[p].at.added == r
  }

  // Every allocated buffer is linked, or some producer is about to link or free it.
  ghost predicate Accounted<T>(s: State<T>) {
    forall r :: r in s.heap ==> r in s.chain || exists p :: HeldBy(s, p, r)
  }

  lemma HeldOnBy<T>(s: State<T>, p: Pid, q: Pid, r: Ref)
    requires p in s.producers && Safe(s, s.producers[p]) && q != p && HeldBy(s, q, r)
    ensures HeldBy(Advance(s, p), q, r)
  {
    OnlySelf(s, p);
    Others(s.producers, Advance(s, p).producers, p, q);
  }

  lemma AdvanceAccounted<T>(s: State<T>, p: Pid)
    requires p in s.producers && Safe(s, s.producers[p]) && Accounted(s)
    ensures Accounted(Advance(s, p))
  {
    var s' := Advance(s, p);
    forall r | r in s'.heap && r !in s'.chain ensures exists q :: HeldBy(s', q, r) {
      if s.producers[p].at.Alloc? && r == s.nextRef {
        assert HeldBy(s', p, r);
      } else {
        assert r in s.heap && r !in s.chain;
        var q :| HeldBy(s, q, r);
        assert q != p;
        HeldOnBy(s, p, q, r);
      }
    }
  }

  lemma NextAccounted<T(!new)>(s: State<T>, s': State<T>)
    requires Next(s, s') && Accounted(s)
    ensures Accounted(s')
  {
    if p :| p in s.producers && Safe(s, s.producers[p]) && s' == Advance(s, p) {
      AdvanceAccounted(s, p);
    } else {
      forall r | r in s'.heap && r !in s'.chain ensures exists q :: HeldBy(s', q, r) {
        assert r in s.heap && r !in s.chain;
        var q :| HeldBy(s, q, r);
        assert HeldBy(s', q, r);
      }
    }
  }

  // In every run, of any number of enqueues, no buffer is lost.
  lemma {:induction false} NoBufferLeaks<T(!new)>(run: seq<State<T>>, k: nat)
    requires IsRun(run) && k < |run|
    ensures Accounted(run[k])
  {
    if k > 0 {
      NoBufferLeaks(run, k - 1);
      assert NextAt(run, k - 1);
      NextAccounted(run[k - 1], run[k]);
    }
  }
}
