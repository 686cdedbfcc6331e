/** Key-lock identity: lock objects are deleted and recreated, and still a key never has two holders, every lock
    object counts exactly its holder and those blocked on it, and unused entries leave the table. */
module KeyValueLocks {
  import opened Common
  import opened KeyValueSpec

  predicate Uses(tx: Tx, k: Key) {
    k in Held(tx) || Awaits(tx, k)
  }

  /** The transactions that hold k or are blocked on it. */
  function Users(d: Db, k: Key): set<nat> {
    set t | t in d.txs && Uses(d.txs[t], k)
  }

  predicate Holds(d: Db, t: nat, k: Key) {
    t in d.txs && k in Held(d.txs[t])
  }

  /** What the lock table says about k is true. */
  ghost predicate KeyOk(d: Db, k: Key)
    requires InHeap(d.locks)
  {
    if k in d.locks.table then
      var o := d.locks.objs[d.locks.table[k]];
      && o.waiters == |Users(d, k)| > 0
      && (o.locked <==> exists t :: Holds(d, t, k))
    else Users(d, k) == {}
  }

  /** The lock object a transaction waits for is the one in the table. */
  predicate TxOk(d: Db, t: nat)
    requires t in d.txs
  {
    var tx := d.txs[t];
    && (tx.pc.Waiting? ==>
          && tx.pc.call.k in d.locks.table && d.locks.table[tx.pc.call.k] == tx.pc.id
          && tx.pc.call.k !in tx.acquired)
    && (tx.pc.Ready? ==> tx.pc.call.k in tx.acquired)
    && (tx.done <==> tx.pc.Releasing?)
    && (tx.done ==> tx.acquired == {})
  }

  ghost predicate Exclusive(d: Db) {
    forall t, u, k :: Holds(d, t, k) && Holds(d, u, k) ==> t == u
  }

  predicate Injective(l: Locks) {
    forall j, k :: j in l.table && k in l.table && l.table[j] == l.table[k] ==> j == k
  }

  ghost predicate LockInv(d: Db) {
    && !d.crashed && InHeap(d.locks) && Injective(d.locks)
    && (forall k: Key :: KeyOk(d, k))
    && (forall t | t in d.txs :: TxOk(d, t))
    && Exclusive(d)
  }

  lemma UsersAfter(d: Db, d': Db, t: nat, k: Key)
    requires t in d'.txs && d'.txs == d.txs[t := d'.txs[t]]
    ensures Users(d', k) == if Uses(d'.txs[t], k) then Users(d, k) + {t} else Users(d, k) - {t}
  {
  }

  /** A step that changes neither the locks nor what the stepping transaction holds or awaits. */
  lemma Quiet(d: Db, d': Db, t: nat)
    requires LockInv(d) && !d'.crashed && d'.locks == d.locks
    requires t in d'.txs && d'.txs == d.txs[t := d'.txs[t]] && TxOk(d', t)
    requires forall k :: k in Held(d'.txs[t]) <==> Holds(d, t, k)
    requires forall k :: Awaits(d'.txs[t], k) <==> (t in d.txs && Awaits(d.txs[t], k))
    ensures LockInv(d')
  {
    assert forall u, k :: Holds(d', u, k) <==> Holds(d, u, k);
    forall k: Key ensures KeyOk(d', k) {
      assert KeyOk(d, k);
      UsersAfter(d, d', t, k);
      assert Users(d', k) == Users(d, k);
    }
    forall u | u in d'.txs ensures TxOk(d', u) {
      assert u != t ==> TxOk(d, u);
    }
  }

  /** k is as it was: same entry, same object, same users and holders. */
  lemma KeyStays(d: Db, d': Db, k: Key)
    requires InHeap(d.locks) && KeyOk(d, k) && InHeap(d'.locks)
    requires k in d'.locks.table <==> k in d.locks.table
    requires (k in d.locks.table ==>
                d'.locks.table[k] == d.locks.table[k]
                    && d'.locks.objs[d.locks.table[k]] == d.locks.objs[d.locks.table[k]])
    requires Users(d', k) == Users(d, k)
    requires forall u :: Holds(d', u, k) <==> Holds(d, u, k)
    ensures KeyOk(d', k)
  {
  }

  lemma InvokeKeeps(d: Db, t: nat, c: Call)
    requires LockInv(d) && Enabled(d, Invoke(t, c))
    ensures LockInv(DoInvoke(d, t, c))
  {
    hide KeyOk;
    var d' := DoInvoke(d, t, c);
    assert TxOk(d, t);
    assert d'.txs.Keys == d.txs.Keys && forall u | u in d.txs && u != t :: d'.txs[u] == d.txs[u];
    if c.k in d.txs[t].acquired {
      Quiet(d, d', t);
    } else {
      forall k: Key ensures KeyOk(d', k) { RegisterKeeps(d, t, c, k); }
      Counted(d, t, c) by { assert KeyOk(d, c.k); }
      assert Exclusive(d') by { assert forall u, k :: Holds(d', u, k) <==> Holds(d, u, k); }
      forall u | u in d'.txs ensures TxOk(d', u) { assert TxOk(d, u); }
    }
  }

  lemma RegisterKeeps(d: Db, t: nat, c: Call, k: Key)
    requires LockInv(d) && Enabled(d, Invoke(t, c)) && c.k !in d.txs[t].acquired
    ensures KeyOk(DoInvoke(d, t, c), k)
  {
    hide KeyOk;
    var d' := DoInvoke(d, t, c);
    assert KeyOk(d, k) && TxOk(d, t);
    assert forall u, j :: Holds(d', u, j) <==> Holds(d, u, j);
    UsersAfter(d, d', t, k);
    if k == c.k { Counted(d, t, c); } else { KeyStays(d, d', k); }
  }

  lemma Counted(d: Db, t: nat, c: Call)
    requires InHeap(d.locks) && KeyOk(d, c.k) && t in d.txs && TxOk(d, t) && d.txs[t].pc.Idle?
    requires c.k !in d.txs[t].acquired
    ensures var d' := DoInvoke(d, t, c);
            InHeap(d'.locks) && KeyOk(d', c.k)
  {
    var d' := DoInvoke(d, t, c);
    assert forall u :: Holds(d', u, c.k) <==> Holds(d, u, c.k);
    UsersAfter(d, d', t, c.k);
    assert t !in Users(d, c.k) && t in Users(d', c.k);
    assert c.k !in d.locks.table ==> forall u :: Holds(d, u, c.k) ==> u in Users(d, c.k);
  }

  lemma GrantKeeps(d: Db, t: nat)
    requires LockInv(d) && Enabled(d, Grant(t))
    ensures LockInv(DoGrant(d, t))
  {
    var d' := DoGrant(d, t);
    var c := d.txs[t].pc.call;
    assert TxOk(d, t) && KeyOk(d, c.k);
    assert forall u, k :: Holds(d', u, k) <==> Holds(d, u, k) || (u == t && k == c.k);
    forall k: Key ensures KeyOk(d', k) {
      assert KeyOk(d, k);
      UsersAfter(d, d', t, k);
      assert Users(d', k) == Users(d, k);
      assert k == c.k ==> Holds(d', t, k);
    }
    forall u | u in d'.txs ensures TxOk(d', u) {
      assert u != t ==> TxOk(d, u);
    }
  }

  lemma ReleaseKeeps(d: Db, t: nat, k0: Key)
    requires LockInv(d) && Enabled(d, ReleaseOne(t, k0))
    ensures LockInv(DoRelease(d, t, k0))
  {
    hide KeyOk;
    var d' := DoRelease(d, t, k0);
    assert TxOk(d, t) && Holds(d, t, k0) && KeyOk(d, k0);
    Freed(d, t, k0);
    assert forall u, k :: Holds(d', u, k) <==> Holds(d, u, k) && !(u == t && k == k0);
    forall k: Key ensures KeyOk(d', k) {
      if k != k0 {
        assert KeyOk(d, k);
        UsersAfter(d, d', t, k);
        KeyStays(d, d', k);
      }
    }
    forall u | u in d'.txs ensures TxOk(d', u) {
      assert u != t ==> TxOk(d, u);
    }
  }

  /** The holder releases: its lock object loses one user, and leaves the table exactly if it was the last. */
  lemma Freed(d: Db, t: nat, k: Key)
    requires LockInv(d) && Enabled(d, ReleaseOne(t, k))
    ensures k in d.locks.table && d.locks.table[k] < |d.locks.objs|
    ensures var d' := DoRelease(d, t, k);
            && !d'.crashed && InHeap(d'.locks) && KeyOk(d', k)
            && d'.locks.objs == d.locks.objs[d.locks.table[k] := d'.locks.objs[d.locks.table[k]]]
            && (k !in d'.locks.table ==> forall u | u in d.txs && Awaits(d.txs[u], k) :: u == t)
  {
    var d' := DoRelease(d, t, k);
    assert TxOk(d, t) && KeyOk(d, k) && Holds(d, t, k);
    assert t in Users(d, k);
    UsersAfter(d, d', t, k);
    assert |Users(d, k) - {t}| == |Users(d, k)| - 1;
    forall u ensures !Holds(d', u, k) {
      assert Holds(d', u, k) ==> Holds(d, u, k);
    }
    if |Users(d, k)| == 1 {
      assert Users(d, k) - {t} == {};
      assert forall u | u in d.txs && Awaits(d.txs[u], k) :: u in Users(d, k);
    }
  }

  lemma LockStep(d: Db, s: Step)
    requires LockInv(d) && Enabled(d, s)
    ensures LockInv(Do(d, s))
  {
    match s
    case Begin(t) => Quiet(d, Do(d, s), t);
    case Invoke(t, c) => InvokeKeeps(d, t, c);
    case Grant(t) => GrantKeeps(d, t);
    case Run(t) => Quiet(d, Do(d, s), t);
    case Commit(t) => Quiet(d, Do(d, s), t);
    case Rollback(t) => Quiet(d, Do(d, s), t);
    case ReleaseOne(t, k) => ReleaseKeeps(d, t, k);
    case Direct(c) =>
      var d' := Do(d, s);
      assert forall u, k :: Holds(d', u, k) <==> Holds(d, u, k);
      forall k: Key ensures KeyOk(d', k) {
        assert KeyOk(d, k);
        KeyStays(d, d', k);
      }
      assert forall t | t in d.txs :: TxOk(d, t);
  }

  /** In every state of every interleaving. */
  lemma {:induction false} RunLocks(run: seq<Db>, i: nat)
    requires IsRun(run) && i < |run|
    ensures LockInv(run[i])
  {
    hide LockInv, Do;
    if i == 0 {
      EmptyLocks();
    } else {
      RunLocks(run, i - 1);
      assert Next(run[i - 1], run[i - 1 + 1]);
      var s :| Enabled(run[i - 1], s) && run[i] == Do(run[i - 1], s);
      LockStep(run[i - 1], s);
    }
  }

  lemma EmptyLocks()
    ensures LockInv(Empty)
  {
  }

  /** No interleaving ever unlocks a free mutex, lets two transactions hold a key, or miscounts a lock's users. */
  lemma KeyLockIdentity(run: seq<Db>, i: nat)
    requires IsRun(run) && i < |run|
    ensures !run[i].crashed
    ensures forall t, u, k | Holds(run[i], t, k) && Holds(run[i], u, k) :: t == u
    ensures forall k | k in run[i].locks.table ::
              run[i].locks.table[k] < |run[i].locks.objs|
              && run[i].locks.objs[run[i].locks.table[k]].waiters == |Users(run[i], k)|
              && (run[i].locks.objs[run[i].locks.table[k]].locked <==> exists t :: Holds(run[i], t, k))
    ensures forall k :: k in run[i].locks.table <==> exists t :: t in run[i].txs && Uses(run[i].txs[t], k)
  {
    RunLocks(run, i);
    var d := run[i];
    forall k ensures k in d.locks.table <==> exists t :: t in d.txs && Uses(d.txs[t], k) {
      assert KeyOk(d, k);
      if k in d.locks.table {
        var t := OneOutside(Users(d, k), {});
        assert t in d.txs && Uses(d.txs[t], k);
      } else {
        assert forall t | t in d.txs :: Uses(d.txs[t], k) ==> t in Users(d, k);
      }
    }
    assert forall k | k in d.locks.table :: KeyOk(d, k);
  }
}
