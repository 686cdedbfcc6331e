/** Commit-order serializability: whatever the interleaving, running the committed transactions one after another in
    commit order gives every read the value it had and ends with the same store. */
module KeyValueSerial {
  import opened Common
  import opened KeyValueSpec
  import opened KeyValueLocks

  // ---- The serial reference: calls applied straight to a store, one after another ----

  function Serial(s: Store, trace: Trace): Store {
    if trace == [] then s else Effect(Serial(s, trace[..|trace| - 1]), trace[|trace| - 1].call)
  }

  /** Run alone from store s, every call of the trace returns what the trace says. */
  ghost predicate Explains(s: Store, trace: Trace) {
    forall i | 0 <= i < |trace| :: trace[i].result == Observe(Serial(s, trace[..i]), trace[i].call)
  }

  function SerialAll(log: seq<Commitment>): Store {
    if log == [] then map[] else Serial(SerialAll(log[..|log| - 1]), log[|log| - 1].trace)
  }

  ghost predicate ExplainsAll(log: seq<Commitment>) {
    forall i | 0 <= i < |log| :: Explains(SerialAll(log[..i]), log[i].trace)
  }

  ghost predicate Serializable(d: Db) {
    ExplainsAll(d.log) && SerialAll(d.log) == d.store
  }

  // ---- A transaction's sandbox ----

  function PendingOf(trace: Trace): map<Key, Entry> {
    if trace == [] then map[]
    else
      var before := PendingOf(trace[..|trace| - 1]);
      match trace[|trace| - 1].call
      case SetCall(k, v) => before[k := Put(v)]
      case RemoveCall(k) => before[k := Deleted]
      case GetCall(_) => before
  }

  predicate Within(trace: Trace, keys: set<Key>) {
    forall i | 0 <= i < |trace| :: trace[i].call.k in keys
  }

  predicate AgreeOn(s: Store, s': Store, keys: set<Key>) {
    forall k | k in keys :: Look(s, k) == Look(s', k)
  }

  lemma {:induction false} SandboxIsSerial(s: Store, trace: Trace)
    ensures Merge(s, PendingOf(trace)) == Serial(s, trace)
  {
    if trace != [] {
      SandboxIsSerial(s, trace[..|trace| - 1]);
    }
  }

  lemma {:induction false} SerialLocal(s: Store, s': Store, trace: Trace, keys: set<Key>)
    requires Within(trace, keys) && AgreeOn(s, s', keys)
    ensures AgreeOn(Serial(s, trace), Serial(s', trace), keys)
    ensures forall k | k !in keys :: Look(Serial(s, trace), k) == Look(s, k)
  {
    if trace != [] {
      var n := |trace| - 1;
      assert trace[n].call.k in keys;
      SerialLocal(s, s', trace[..n], keys);
    }
  }

  /** What a transaction saw stays explained when others change only keys it never touched. */
  lemma ExplainsLocal(s: Store, s': Store, trace: Trace, keys: set<Key>)
    requires Explains(s, trace) && Within(trace, keys) && AgreeOn(s, s', keys)
    ensures Explains(s', trace)
  {
    forall i | 0 <= i < |trace| ensures trace[i].result == Observe(Serial(s', trace[..i]), trace[i].call) {
      assert trace[i].call.k in keys;
      SerialLocal(s, s', trace[..i], keys);
    }
  }

  /** A live transaction: its sandbox is its own writes, it touched only keys it holds, and from the current store
      a serial run would have seen what it saw. */
  ghost predicate TxSerial(d: Db, t: nat)
    requires t in d.txs
  {
    var tx := d.txs[t];
    !tx.done ==> tx.pending == PendingOf(tx.trace) && Within(tx.trace, tx.acquired) && Explains(d.store, tx.trace)
  }

  ghost predicate SerialInv(d: Db) {
    && LockInv(d) && Serializable(d)
    && forall t | t in d.txs :: TxSerial(d, t)
  }

  lemma ExecuteSerial(tx: Tx, s: Store)
    requires tx.pc.Ready? && tx.pc.call.k in tx.acquired
    requires tx.pending == PendingOf(tx.trace) && Within(tx.trace, tx.acquired) && Explains(s, tx.trace)
    ensures var tx1 := Ran(tx, s, tx.pc.call);
            tx1.pending == PendingOf(tx1.trace) && Within(tx1.trace, tx1.acquired) && Explains(s, tx1.trace)
  {
    var c := tx.pc.call;
    var tx1 := Ran(tx, s, c);
    var n := |tx.trace|;
    assert tx1.trace[..n] == tx.trace && tx1.trace[n].call == c;
    SandboxIsSerial(s, tx.trace);
    assert Look(Merge(s, tx.pending), c.k) == Sandboxed(tx, s, c.k);
    forall i | 0 <= i < |tx1.trace|
      ensures tx1.trace[i].result == Observe(Serial(s, tx1.trace[..i]), tx1.trace[i].call) {
      assert i < n ==> tx1.trace[..i] == tx.trace[..i] && tx1.trace[i] == tx.trace[i];
    }
  }

  lemma Logged(d: Db, e: Commitment, s': Store)
    requires Serializable(d) && Explains(d.store, e.trace) && s' == Serial(d.store, e.trace)
    ensures ExplainsAll(d.log + [e]) && SerialAll(d.log + [e]) == s'
  {
    var log := d.log + [e];
    assert log[..|d.log|] == d.log;
    forall i | 0 <= i < |log| ensures Explains(SerialAll(log[..i]), log[i].trace) {
      assert i < |d.log| ==> log[..i] == d.log[..i] && log[i] == d.log[i];
    }
  }

  /** The store changed only on keys that no live transaction but t holds. */
  lemma OthersKeep(d: Db, d': Db, trace: Trace, keys: set<Key>, u: nat)
    requires u in d.txs && TxSerial(d, u) && Within(trace, keys) && d'.store == Serial(d.store, trace)
    requires d.txs[u].acquired !! keys
    requires u in d'.txs && d'.txs[u] == d.txs[u]
    ensures TxSerial(d', u)
  {
    var tx := d.txs[u];
    SerialLocal(d.store, d.store, trace, keys);
    if !tx.done {
      assert AgreeOn(d.store, d'.store, tx.acquired);
      ExplainsLocal(d.store, d'.store, tx.trace, tx.acquired);
    }
  }

  lemma CommitSerial(d: Db, t: nat)
    requires SerialInv(d) && Enabled(d, Commit(t))
    ensures SerialInv(Do(d, Commit(t)))
  {
    hide LockInv, Explains, Exclusive;
    var d' := Do(d, Commit(t));
    var tx := d.txs[t];
    LockStep(d, Commit(t));
    assert TxSerial(d, t);
    SandboxIsSerial(d.store, tx.trace);
    Logged(d, Commitment(Some(t), tx.trace), d'.store);
    forall u | u in d'.txs ensures TxSerial(d', u) {
      if u != t {
        assert TxSerial(d, u);
        Apart(d, t, u);
        OthersKeep(d, d', tx.trace, tx.acquired, u);
      }
    }
  }

  /** Two transactions never hold a key in common; finished ones hold none. */
  lemma Apart(d: Db, t: nat, u: nat)
    requires LockInv(d) && t in d.txs && u in d.txs && t != u
    ensures d.txs[t].acquired !! d.txs[u].acquired
  {
    assert TxOk(d, t) && TxOk(d, u);
    forall k | k in d.txs[t].acquired && k in d.txs[u].acquired ensures false {
      assert Holds(d, t, k) && Holds(d, u, k);
    }
  }

  lemma DirectSerial(d: Db, c: Call)
    requires SerialInv(d) && Enabled(d, Direct(c)) && Guarded(d, Direct(c))
    ensures SerialInv(Do(d, Direct(c)))
  {
    hide LockInv, Explains;
    var d' := Do(d, Direct(c));
    var trace := [Did(c, Observe(d.store, c))];
    LockStep(d, Direct(c));
    DirectExplained(d.store, c);
    Logged(d, Commitment(None, trace), d'.store);
    forall u | u in d'.txs ensures TxSerial(d', u) {
      assert TxSerial(d, u);
      if !c.GetCall? {
        OthersKeep(d, d', trace, {c.k}, u);
      }
    }
  }

  lemma DirectExplained(s: Store, c: Call)
    ensures var trace := [Did(c, Observe(s, c))];
            Explains(s, trace) && Serial(s, trace) == Effect(s, c)
  {
    var trace := [Did(c, Observe(s, c))];
    assert trace[..0] == [];
  }

  lemma RunSerial(d: Db, t: nat)
    requires SerialInv(d) && Enabled(d, Run(t))
    ensures SerialInv(Do(d, Run(t)))
  {
    hide LockInv, Explains, Serializable;
    var d' := Do(d, Run(t));
    LockStep(d, Run(t));
    assert TxOk(d, t) by { InvTx(d, t); }
    assert TxSerial(d, t);
    ExecuteSerial(d.txs[t], d.store);
    forall u | u in d'.txs ensures TxSerial(d', u) {
      assert u != t ==> TxSerial(d, u);
    }
    SameLog(d, d');
  }

  lemma InvTx(d: Db, t: nat)
    requires LockInv(d) && t in d.txs
    ensures TxOk(d, t)
  {
  }

  lemma SameLog(d: Db, d': Db)
    requires Serializable(d) && d'.log == d.log && d'.store == d.store
    ensures Serializable(d')
  {
  }

  /** A step that only moves locks and program counters. */
  lemma OnlyLocks(d: Db, s: Step)
    requires SerialInv(d) && Enabled(d, s) && (s.Begin? || s.Invoke? || s.Grant? || s.ReleaseOne? || s.Rollback?)
    ensures SerialInv(Do(d, s))
  {
    hide LockInv, Serializable;
    var d' := Do(d, s);
    LockStep(d, s);
    InvAlive(d');
    assert d'.store == d.store && d'.log == d.log;
    SameLog(d, d');
    forall u | u in d'.txs ensures TxSerial(d', u) {
      assert u in d.txs ==> TxSerial(d, u);
    }
  }

  lemma InvAlive(d: Db)
    requires LockInv(d)
    ensures !d.crashed
  {
  }

  lemma SerialStep(d: Db, s: Step)
    requires SerialInv(d) && Enabled(d, s) && Guarded(d, s)
    ensures SerialInv(Do(d, s))
  {
    hide SerialInv, Do;
    match s
    case Commit(t) => CommitSerial(d, t);
    case Direct(c) => DirectSerial(d, c);
    case Run(t) => RunSerial(d, t);
    case _ => OnlyLocks(d, s);
  }

  lemma {:induction false} GuardedInv(run: seq<Db>, i: nat)
    requires IsGuardedRun(run) && i < |run|
    ensures SerialInv(run[i])
  {
    hide SerialInv, Do, Enabled;
    if i == 0 {
      EmptySerial();
    } else {
      GuardedInv(run, i - 1);
      assert NextGuarded(run[i - 1], run[i - 1 + 1]);
      var s :| Enabled(run[i - 1], s) && Guarded(run[i - 1], s) && run[i] == Do(run[i - 1], s);
      SerialStep(run[i - 1], s);
    }
  }

  lemma EmptySerial()
    ensures SerialInv(Empty)
  {
  }

  /** The main theorem: at every moment of every interleaving whose direct writes leave held keys alone, the committed
      transactions replayed one after another in commit order see what they saw and produce the store; what a live
      transaction has read so far is what it would read if it ran alone now. Rolled-back transactions do not occur. */
  lemma CommitOrderSerializable(run: seq<Db>, i: nat)
    requires IsGuardedRun(run) && i < |run|
    ensures ExplainsAll(run[i].log) && SerialAll(run[i].log) == run[i].store
    ensures forall t | t in run[i].txs && !run[i].txs[t].done ::
              Explains(run[i].store, run[i].txs[t].trace)
              && Merge(run[i].store, run[i].txs[t].pending) == Serial(run[i].store, run[i].txs[t].trace)
  {
    hide IsGuardedRun, LockInv, Explains;
    GuardedInv(run, i);
    forall t | t in run[i].txs && !run[i].txs[t].done
      ensures Explains(run[i].store, run[i].txs[t].trace)
      ensures Merge(run[i].store, run[i].txs[t].pending) == Serial(run[i].store, run[i].txs[t].trace)
    {
      assert TxSerial(run[i], t);
      SandboxIsSerial(run[i].store, run[i].txs[t].trace);
    }
  }

  /** Commit order never changes afterwards. */
  lemma {:induction false} LogGrows(run: seq<Db>, i: nat, j: nat)
    requires IsRun(run) && i <= j < |run|
    ensures run[i].log <= run[j].log
  {
    if i < j {
      LogGrows(run, i, j - 1);
      assert Next(run[j - 1], run[j - 1 + 1]);
    }
  }

  // ---- When do direct writes do no harm? ----

  /** Transactions touch only keys in tk, and direct writes only keys in dk. */
  ghost predicate Confined(d: Db, s: Step, tk: set<Key>, dk: set<Key>) {
    (s.Invoke? ==> s.call.k in tk) && ((s.Direct? && !s.call.GetCall?) ==> s.call.k in dk)
  }

  ghost predicate NextConfined(d: Db, d': Db, tk: set<Key>, dk: set<Key>) {
    exists s :: Enabled(d, s) && Confined(d, s, tk, dk) && d' == Do(d, s)
  }

  ghost predicate IsConfinedRun(run: seq<Db>, tk: set<Key>, dk: set<Key>) {
    && run != [] && run[0] == Empty
    && forall k | 0 <= k < |run| - 1 :: NextConfined(run[k], run[k + 1], tk, dk)
  }

  ghost predicate AlwaysSerializable(tk: set<Key>, dk: set<Key>) {
    forall run, i | IsConfinedRun(run, tk, dk) && 0 <= i < |run| :: Serializable(run[i])
  }

  /** order holds what was committed, in whatever order, and explains every read and the store. */
  ghost predicate Orders(order: seq<Commitment>, d: Db) {
    multiset(order) == multiset(d.log) && ExplainsAll(order) && SerialAll(order) == d.store
  }

  ghost predicate SerializableInSomeOrder(d: Db) { exists order :: Orders(order, d) }

  ghost predicate AlwaysInSomeOrder(tk: set<Key>, dk: set<Key>) {
    forall run, i | IsConfinedRun(run, tk, dk) && 0 <= i < |run| :: SerializableInSomeOrder(run[i])
  }

  /** What transactions hold or ask for lies in tk. */
  ghost predicate Bounded(d: Db, tk: set<Key>) {
    forall t | t in d.txs :: d.txs[t].acquired <= tk && (d.txs[t].pc.Waiting? ==> d.txs[t].pc.call.k in tk)
  }

  lemma {:induction false} ConfinedInv(run: seq<Db>, i: nat, tk: set<Key>, dk: set<Key>)
    requires IsConfinedRun(run, tk, dk) && i < |run| && tk !! dk
    ensures SerialInv(run[i]) && Bounded(run[i], tk)
  {
    hide SerialInv, Do, Enabled;
    if i == 0 {
      EmptySerial();
    } else {
      ConfinedInv(run, i - 1, tk, dk);
      assert NextConfined(run[i - 1], run[i - 1 + 1], tk, dk);
      var s :| Enabled(run[i - 1], s) && Confined(run[i - 1], s, tk, dk) && run[i] == Do(run[i - 1], s);
      SerialStep(run[i - 1], s);
      BoundedStep(run[i - 1], s, tk, dk);
    }
  }

  lemma BoundedStep(d: Db, s: Step, tk: set<Key>, dk: set<Key>)
    requires Bounded(d, tk) && Enabled(d, s) && Confined(d, s, tk, dk)
    ensures Bounded(Do(d, s), tk)
  {
  }

  ghost predicate Reaches(d: Db, tk: set<Key>, dk: set<Key>) {
    exists run :: IsConfinedRun(run, tk, dk) && run[|run| - 1] == d
  }

  lemma Go(d: Db, s: Step, tk: set<Key>, dk: set<Key>)
    requires Reaches(d, tk, dk) && Enabled(d, s) && Confined(d, s, tk, dk)
    ensures Reaches(Do(d, s), tk, dk)
  {
    hide Do, Enabled;
    var run :| IsConfinedRun(run, tk, dk) && run[|run| - 1] == d;
    assert NextConfined(d, Do(d, s), tk, dk);
    assert IsConfinedRun(run + [Do(d, s)], tk, dk);
  }

  /** One transaction has begun, locked k and read it when it was absent. */
  function AfterRead(k: Key): Db {
    Db(map[], Locks(map[k := 0], [Lock(true, 1)]), map[0 := Tx(map[], {k}, false, Idle, [Did(GetCall(k), None)])], [],
       false, map[0 := [GetCall(k)]])
  }

  lemma ReadOnce(k: Key, tk: set<Key>, dk: set<Key>)
    requires k in tk
    ensures Reaches(AfterRead(k), tk, dk)
  {
    hide Reaches;
    assert Reaches(Empty, tk, dk) by { StartsEmpty(tk, dk); }
    Go(Empty, Begin(0), tk, dk);
    var d1 := Do(Empty, Begin(0));
    Go(d1, Invoke(0, GetCall(k)), tk, dk);
    var d2 := DoInvoke(d1, 0, GetCall(k));
    Go(d2, Grant(0), tk, dk);
    var d3 := DoGrant(d2, 0);
    Go(d3, Run(0), tk, dk);
    var d4 := Do(d3, Run(0));
    assert d4.txs[0] == AfterRead(k).txs[0];
    assert [] + [GetCall(k)] == [GetCall(k)];
    assert d4.calls == map[0 := [GetCall(k)]];
    assert d4.txs == AfterRead(k).txs && d4.locks.objs == [Lock(true, 1)] && d4.log == [];
  }

  lemma StartsEmpty(tk: set<Key>, dk: set<Key>)
    ensures Reaches(Empty, tk, dk)
  {
    assert IsConfinedRun([Empty], tk, dk);
  }

  /** Someone then sets k directly, and the transaction reads k again and commits. */
  lemma ReadAgain(k: Key, tk: set<Key>, dk: set<Key>) returns (d: Db)
    requires k in tk && k in dk
    ensures Reaches(d, tk, dk)
    ensures d.log == [Commitment(None, [Did(SetCall(k, [7]), None)]),
                      Commitment(Some(0), [Did(GetCall(k), None), Did(GetCall(k), Some([7]))])]
  {
    hide Reaches;
    ReadOnce(k, tk, dk);
    var d4 := AfterRead(k);
    Go(d4, Direct(SetCall(k, [7])), tk, dk);
    var d5 := Do(d4, Direct(SetCall(k, [7])));
    Go(d5, Invoke(0, GetCall(k)), tk, dk);
    var d6 := DoInvoke(d5, 0, GetCall(k));
    Go(d6, Run(0), tk, dk);
    var d7 := Do(d6, Run(0));
    Go(d7, Commit(0), tk, dk);
    d := Do(d7, Commit(0));
    assert d5.log == [Commitment(None, [Did(SetCall(k, [7]), None)])] && k in d6.store;
    assert d7.txs[0].trace == [Did(GetCall(k), None), Did(GetCall(k), Some([7]))];
  }

  lemma NotRepeatable(s: Store, trace: Trace, k: Key)
    requires trace == [Did(GetCall(k), None), Did(GetCall(k), Some([7]))]
    ensures !Explains(s, trace)
  {
    assert trace[..0] == [] && trace[..1] == [trace[0]] && [trace[0]][..0] == [];
    assert Serial(s, trace[..1]) == Serial(s, trace[..0]);
    assert trace[0].result != trace[1].result;
  }

  lemma Explained(d: Db, order: seq<Commitment>, e: Commitment) returns (s: Store)
    requires Orders(order, d) && e in d.log
    ensures Explains(s, e.trace)
  {
    hide Explains, SerialAll;
    assert e in multiset(d.log);
    assert e in multiset(order);
    var i :| 0 <= i < |order| && order[i] == e;
    s := SerialAll(order[..i]);
    assert Explains(SerialAll(order[..i]), order[i].trace);
  }

  /** No order of a log explains a trace that no store explains. */
  lemma NoOrder(d: Db, e: Commitment)
    requires e in d.log && forall s :: !Explains(s, e.trace)
    ensures !SerializableInSomeOrder(d)
  {
    hide Explains, SerialAll, Orders;
    if order: seq<Commitment> :| Orders(order, d) {
      var s := Explained(d, order, e);
    }
  }

  /** A transaction that reads a key twice around a direct write sees two values, which no order of the commits
      explains, whatever the store it starts from. */
  lemma DirectWriteBreaks(k: Key, tk: set<Key>, dk: set<Key>) returns (run: seq<Db>)
    requires k in tk && k in dk
    ensures IsConfinedRun(run, tk, dk) && run != []
    ensures !Serializable(run[|run| - 1]) && !SerializableInSomeOrder(run[|run| - 1])
    ensures exists e :: e in run[|run| - 1].log && forall s :: !Explains(s, e.trace)
  {
    hide Explains, NextConfined;
    var d := ReadAgain(k, tk, dk);
    run :| IsConfinedRun(run, tk, dk) && run[|run| - 1] == d;
    var e := d.log[1];
    forall s ensures !Explains(s, e.trace) { NotRepeatable(s, e.trace, k); }
    assert e in d.log;
    NoOrder(d, e);
    NotRepeatable(SerialAll(d.log[..1]), e.trace, k);
  }

  /** Every interleaving is serializable exactly if direct writes and transactions use different keys, and if they do
      not, there is one that no order of the commits explains. */
  lemma SerializableExactly(tk: set<Key>, dk: set<Key>)
    ensures AlwaysSerializable(tk, dk) <==> tk !! dk
    ensures AlwaysInSomeOrder(tk, dk) <==> tk !! dk
  {
    hide Serializable, SerializableInSomeOrder, IsConfinedRun;
    if tk !! dk {
      forall run, i | IsConfinedRun(run, tk, dk) && 0 <= i < |run|
        ensures Serializable(run[i]) && SerializableInSomeOrder(run[i]) {
        ConfinedInv(run, i, tk, dk);
        CommitOrder(run[i]);
      }
    } else {
      var k :| k in tk && k in dk;
      var run := DirectWriteBreaks(k, tk, dk);
      assert 0 <= |run| - 1;
    }
  }

  lemma CommitOrder(d: Db)
    requires SerialInv(d)
    ensures Serializable(d) && SerializableInSomeOrder(d)
  {
    assert Serializable(d);
    hide SerialInv, ExplainsAll, SerialAll;
    assert Orders(d.log, d);
  }
}
