/** What clients call is what happens: each call of a transaction is carried out once and in order, reads see the
    transaction's own last write, and Commit leaves the last write of each key. Calls are recorded when they are
    made. */
module KeyValueCalls {
  import opened Common
  import opened KeyValueSpec
  import opened KeyValueLocks
  import opened KeyValueSerial

  /** The calls of a trace, without their results. */
  function Made(trace: Trace): seq<Call> {
    seq(|trace|, i requires 0 <= i < |trace| => trace[i].call)
  }

  /** The call that has been made and not carried out yet. */
  function Underway(tx: Tx): seq<Call> {
    if tx.pc.Waiting? || tx.pc.Ready? then [tx.pc.call] else []
  }

  predicate CallsKept(d: Db, t: nat) {
    CallsOf(d, t) == if t in d.txs then Made(d.txs[t].trace) + Underway(d.txs[t]) else []
  }

  /** A transaction in the log is over, and what is logged are its calls. */
  predicate LogKept(d: Db, e: Commitment) {
    e.tx.Some? ==> e.tx.value in d.txs && d.txs[e.tx.value].done && Made(e.trace) == CallsOf(d, e.tx.value)
  }

  ghost predicate Kept(d: Db) {
    && (forall t :: CallsKept(d, t))
    && (forall i | 0 <= i < |d.log| :: LogKept(d, d.log[i]))
    && forall i, j | 0 <= i < j < |d.log| && d.log[i].tx.Some? :: d.log[j].tx != d.log[i].tx
  }

  lemma RanMade(tx: Tx, s: Store)
    requires tx.pc.Ready?
    ensures Made(Ran(tx, s, tx.pc.call).trace) + Underway(Ran(tx, s, tx.pc.call)) == Made(tx.trace) + Underway(tx)
    ensures Ran(tx, s, tx.pc.call).done == tx.done
  {
  }

  lemma StepCalls(d: Db, s: Step, t: nat)
    requires Enabled(d, s) && forall u :: CallsKept(d, u)
    ensures CallsKept(Do(d, s), t)
  {
    assert CallsKept(d, t);
    match s
    case Invoke(u, c) => InvokeCalls(d, u, c, t);
    case Run(u) =>
      RanMade(d.txs[u], d.store);
      hide Ran;
    case Grant(u) => hide Grab;
    case ReleaseOne(_, _) => hide Release;
    case Commit(_) => hide Merge;
    case Direct(_) => hide Effect, Observe;
    case _ =>
  }

  lemma InvokeCalls(d: Db, u: nat, c: Call, t: nat)
    requires Enabled(d, Invoke(u, c)) && CallsKept(d, t)
    ensures CallsKept(DoInvoke(d, u, c), t)
  {
    hide Register;
    if t == u {
      assert Made(d.txs[t].trace) + [] + [c] == Made(d.txs[t].trace) + [c];
    }
  }

  lemma StepKept(d: Db, s: Step)
    requires Enabled(d, s) && Kept(d)
    ensures Kept(Do(d, s))
  {
    var d' := Do(d, s);
    forall t ensures CallsKept(d', t) { StepCalls(d, s, t); }
    hide Do;
    StepLog(d, s);
  }

  lemma StepLog(d: Db, s: Step)
    requires Enabled(d, s) && Kept(d)
    ensures forall i | 0 <= i < |Do(d, s).log| :: LogKept(Do(d, s), Do(d, s).log[i])
    ensures forall i, j | 0 <= i < j < |Do(d, s).log| && Do(d, s).log[i].tx.Some? ::
              Do(d, s).log[j].tx != Do(d, s).log[i].tx
  {
    hide Register, Grab, Release, Merge, Effect, Execute, Ran, CallsKept;
    var d' := Do(d, s);
    forall i | 0 <= i < |d'.log| ensures LogKept(d', d'.log[i]) {
      if i < |d.log| {
        assert LogKept(d, d.log[i]);
        if d.log[i].tx.Some? { DoneKept(d, s, d.log[i].tx.value); }
      } else if s.Commit? {
        CommitMade(d, s.t);
      }
    }
    forall i, j | 0 <= i < j < |d'.log| && d'.log[i].tx.Some? ensures d'.log[j].tx != d'.log[i].tx {
      assert LogKept(d, d.log[i]);
    }
  }

  lemma DoneKept(d: Db, s: Step, t: nat)
    requires Enabled(d, s) && t in d.txs && d.txs[t].done
    ensures t in Do(d, s).txs && Do(d, s).txs[t].done && CallsOf(Do(d, s), t) == CallsOf(d, t)
  {
    hide Register, Grab, Release, Merge, Effect, Execute;
    if s == Run(t) { RanMade(d.txs[t], d.store); }
    hide Ran;
  }

  lemma CommitMade(d: Db, t: nat)
    requires Enabled(d, Commit(t)) && CallsKept(d, t)
    ensures LogKept(Do(d, Commit(t)), Commitment(Some(t), d.txs[t].trace))
  {
    assert Made(d.txs[t].trace) + [] == Made(d.txs[t].trace);
  }

  /** Every call a transaction makes is carried out exactly once and in order: what it has done, and the call that is
      under way, are the calls its client has made. A transaction is committed at most once, with all its calls. */
  lemma {:induction false} CallsOnce(run: seq<Db>, i: nat)
    requires IsRun(run) && i < |run|
    ensures Kept(run[i])
  {
    hide Kept, Do, Enabled;
    if i == 0 {
      EmptyKept();
    } else {
      CallsOnce(run, i - 1);
      assert Next(run[i - 1], run[i - 1 + 1]);
      var s :| Enabled(run[i - 1], s) && run[i] == Do(run[i - 1], s);
      StepKept(run[i - 1], s);
    }
  }

  lemma EmptyKept()
    ensures Kept(Empty)
  {
  }

  // ---- What the calls mean ----

  /** What k holds after the calls: the last write of k decides, and without one it holds before. */
  function Written(calls: seq<Call>, k: Key, before: Option<Bytes>): Option<Bytes> {
    if calls == [] then before
    else
      match calls[|calls| - 1]
      case SetCall(j, v) => if j == k then Some(v) else Written(calls[..|calls| - 1], k, before)
      case RemoveCall(j) => if j == k then None else Written(calls[..|calls| - 1], k, before)
      case GetCall(_) => Written(calls[..|calls| - 1], k, before)
  }

  lemma {:induction false} SerialWrites(s: Store, trace: Trace, k: Key)
    ensures Look(Serial(s, trace), k) == Written(Made(trace), k, Look(s, k))
  {
    if trace != [] {
      assert Made(trace)[..|trace| - 1] == Made(trace[..|trace| - 1]);
      SerialWrites(s, trace[..|trace| - 1], k);
    }
  }

  lemma GuardedIsRun(run: seq<Db>)
    requires IsGuardedRun(run)
    ensures IsRun(run)
  {
    hide Do, Enabled, Guarded;
    forall k | 0 <= k < |run| - 1 ensures Next(run[k], run[k + 1]) {
      assert NextGuarded(run[k], run[k + 1]);
    }
  }

  /** Every read of a live transaction returned what the client's own last write of the key before it left, and without
      one what the store holds, at that moment and ever since; writes return nothing. */
  lemma ReadsOwnWrites(run: seq<Db>, i: nat, t: nat, j: nat)
    requires IsGuardedRun(run) && i < |run| && t in run[i].txs && !run[i].txs[t].done && j < |run[i].txs[t].trace|
    ensures j < |CallsOf(run[i], t)| && run[i].txs[t].trace[j].call == CallsOf(run[i], t)[j]
    ensures run[i].txs[t].trace[j].result
            == var c := CallsOf(run[i], t)[j];
               if c.GetCall? then Written(CallsOf(run[i], t)[..j], c.k, Look(run[i].store, c.k)) else None
  {
    hide IsGuardedRun, IsRun, LockInv;
    var d, trace := run[i], run[i].txs[t].trace;
    GuardedIsRun(run);
    CallsOnce(run, i);
    CommitOrderSerializable(run, i);
    assert CallsKept(d, t);
    var c := trace[j].call;
    assert trace[j].result == Observe(Serial(d.store, trace[..j]), c);
    SerialWrites(d.store, trace[..j], c.k);
    assert Made(trace[..j]) == CallsOf(d, t)[..j];
  }

  /** Commit leaves in every key the client's last write of it, and other keys as they are. */
  lemma CommitLeavesLastWrites(run: seq<Db>, i: nat, t: nat, k: Key)
    requires IsGuardedRun(run) && i < |run| && Enabled(run[i], Commit(t))
    ensures Look(Do(run[i], Commit(t)).store, k) == Written(CallsOf(run[i], t), k, Look(run[i].store, k))
  {
    hide IsGuardedRun, IsRun, LockInv, Explains;
    var d := run[i];
    GuardedIsRun(run);
    CallsOnce(run, i);
    CommitOrderSerializable(run, i);
    assert CallsKept(d, t);
    assert Made(d.txs[t].trace) + [] == Made(d.txs[t].trace);
    SerialWrites(d.store, d.txs[t].trace, k);
  }
}
