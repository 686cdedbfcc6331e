/** The store, its lock objects and transactions as objects, proved against the value model. A method that takes a key
    lock covers the moment at which the mutex is free; the wait for that moment is part of the system. */
module KeyValueStore {
  import opened Common
  import opened KeyValueSpec
  import opened KeyValueLocks

  class KeyLock {
    var locked: bool
    var waiters: int

    constructor ()
      ensures !locked && waiters == 0
    {
      locked, waiters := false, 0;
    }
  }

  // ---- Taking and releasing several locks ----

  /** acquireKeyLock when the mutex is free. */
  function Take(l: Locks, k: Key): Locks
    requires InHeap(l)
  {
    var (l1, id) := Register(l, k);
    Grab(l1, id)
  }

  predicate HoldsAll(l: Locks, keys: set<Key>) {
    InHeap(l) && forall k | k in keys :: k in l.table && l.objs[l.table[k]].locked
  }

  /** All of keys released, whatever the order. */
  function ReleaseSet(l: Locks, keys: set<Key>): Locks
    requires InHeap(l)
  {
    Locks(map k | k in l.table && (k in keys ==> l.objs[l.table[k]].waiters != 1) :: l.table[k],
          seq(|l.objs|, i requires 0 <= i < |l.objs| =>
            if exists k :: k in keys && k in l.table && l.table[k] == i
            then Lock(false, l.objs[i].waiters - 1) else l.objs[i]))
  }

  lemma ReleaseNone(l: Locks)
    requires InHeap(l)
    ensures ReleaseSet(l, {}) == l
  {
    assert ReleaseSet(l, {}).table == l.table;
    assert ReleaseSet(l, {}).objs == l.objs;
  }

  /** Releasing one more key extends the released set. */
  lemma ReleaseOneMore(l: Locks, keys: set<Key>, k: Key)
    requires HoldsAll(l, keys + {k}) && Injective(l) && k !in keys
    ensures InHeap(ReleaseSet(l, keys))
    ensures Release(ReleaseSet(l, keys), k) == Some(ReleaseSet(l, keys + {k}))
  {
    var l1, l2 := ReleaseSet(l, keys), ReleaseSet(l, keys + {k});
    var id := l.table[k];
    assert k in l1.table && l1.objs[id] == l.objs[id];
    var r := Release(l1, k).value;
    assert r.table == l2.table;
    forall i | 0 <= i < |l.objs| ensures r.objs[i] == l2.objs[i] {
      assert i == id ==> k in keys + {k} && l.table[k] == i;
      if i != id && exists j :: j in keys && j in l.table && l.table[j] == i {
        var j :| j in keys && j in l.table && l.table[j] == i;
        assert j in keys + {k};
      }
    }
    assert r.objs == l2.objs;
  }

  /** Merging the entries of a map iteration one by one. */
  lemma MergeOneMore(s: Store, pending: map<Key, Entry>, left: set<Key>, k: Key)
    requires left <= pending.Keys && k in left
    ensures Merge(s, pending - (left - {k})) ==
            if pending[k].Deleted? then Merge(s, pending - left) - {k}
                else Merge(s, pending - left)[k := pending[k].value]
  {
  }

  class KVStore {
    var store: Store
    var keyLocks: map<Key, KeyLock>
    /** Every lock object ever created, and which of them each key has now. */
    ghost var created: seq<KeyLock>
    ghost var ids: map<Key, nat>

    ghost function Objs(): set<KeyLock>
      reads this`created
    {
      set o | o in created
    }

    ghost predicate Valid()
      reads this`keyLocks, this`created, this`ids, Objs()
    {
      && keyLocks.Keys == ids.Keys
      && (forall k | k in ids :: ids[k] < |created| && created[ids[k]] == keyLocks[k])
      && (forall i, j | 0 <= i < j < |created| :: created[i] != created[j])
      && (forall j, k | j in ids && k in ids && ids[j] == ids[k] :: j == k)
    }

    ghost function LockView(): (l: Locks)
      requires Valid()
      reads this`keyLocks, this`created, this`ids, Objs()
      ensures InHeap(l) && Injective(l)
    {
      var c := created;
      Locks(ids, seq(|c|, i requires 0 <= i < |c| reads c => Lock(c[i].locked, c[i].waiters)))
    }

    ghost predicate Free(k: Key)
      requires Valid()
      reads this`keyLocks, this`created, this`ids, Objs()
    {
      k in ids ==> !created[ids[k]].locked
    }

    constructor ()
      ensures Valid() && store == map[] && LockView() == Locks(map[], []) && created == []
    {
      store, keyLocks := map[], map[];
      created, ids := [], map[];
    }

    method Set(k: Key, v: Bytes)
      modifies this`store
      ensures store == Effect(old(store), SetCall(k, v))
    {
      store := store[k := v];
    }

    method Get(k: Key) returns (r: Option<Bytes>)
      ensures r == Observe(store, GetCall(k))
    {
      r := if k in store then Some(store[k]) else None;
    }

    method Remove(k: Key)
      modifies this`store
      ensures store == Effect(old(store), RemoveCall(k))
    {
      store := store - {k};
    }

    /** A key without a lock object gets a new one. */
    method NewLock(k: Key) returns (kl: KeyLock)
      requires Valid() && k !in keyLocks
      modifies this`keyLocks, this`created, this`ids
      ensures Valid() && fresh(kl) && !kl.locked && kl.waiters == 0 && created == old(created) + [kl]
      ensures ids == old(ids)[k := |old(created)|]
      ensures LockView() == Locks(old(LockView()).table[k := |old(created)|], old(LockView()).objs + [Lock(false, 0)])
    {
      kl := new KeyLock();
      keyLocks := keyLocks[k := kl];
      ids := ids[k := |created|];
      created := created + [kl];
      assert forall i | 0 <= i < |old(created)| :: created[i] == old(created)[i] && created[i] != kl;
      assert LockView().objs == old(LockView()).objs + [Lock(false, 0)];
    }

    method Raise(k: Key) returns (kl: KeyLock)
      requires Valid() && k in keyLocks
      modifies Objs()
      ensures Valid() && kl == keyLocks[k]
      ensures LockView() == Register(old(LockView()), k).0
    {
      kl := keyLocks[k];
      assert kl in created;
      kl.waiters := kl.waiters + 1;
      assert LockView().objs == Register(old(LockView()), k).0.objs;
    }

    /** acquireKeyLock up to the mutex: the caller is counted in at the object it will wait for. */
    method CountIn(k: Key) returns (kl: KeyLock)
      requires Valid()
      modifies this`keyLocks, this`created, this`ids, Objs()
      ensures Valid() && LockView() == Register(old(LockView()), k).0
      ensures k in keyLocks && kl == keyLocks[k]
      ensures fresh(Objs() - old(Objs()))
    {
      if k !in keyLocks {
        ghost var was := LockView();
        kl := NewLock(k);
        assert was.objs + [Lock(false, 1)] == (was.objs + [Lock(false, 0)])[|was.objs| := Lock(false, 1)];
      }
      kl := Raise(k);
    }

    method AcquireKeyLock(k: Key)
      requires Valid() && Free(k)
      modifies this`keyLocks, this`created, this`ids, Objs()
      ensures Valid() && LockView() == Take(old(LockView()), k)
      ensures fresh(Objs() - old(Objs()))
    {
      var kl := CountIn(k);
      assert kl in created;
      hide Register;
      ghost var counted := LockView();
      kl.locked := true;
      assert LockView().objs == Grab(counted, ids[k]).objs;
    }

    method ReleaseKeyLock(k: Key)
      requires Valid() && Release(LockView(), k).Some?
      modifies this`keyLocks, this`ids, Objs()
      ensures Valid() && created == old(created)
      ensures Some(LockView()) == Release(old(LockView()), k)
    {
      if k in keyLocks {
        var kl := keyLocks[k];
        kl.waiters := kl.waiters - 1;
        kl.locked := false;
        ghost var id := ids[k];
        if kl.waiters == 0 {
          keyLocks := keyLocks - {k};
          ids := ids - {k};
        }
        assert LockView().objs == old(LockView()).objs[id := Lock(false, kl.waiters)];
      }
    }

    method Begin() returns (tx: Transaction)
      requires Valid()
      ensures fresh(tx) && tx.kv == this && tx.View() == NewTx && tx.Valid()
    {
      tx := new Transaction(this);
    }
  }

  class Transaction {
    const kv: KVStore
    var pending: map<Key, Entry>
    var acquired: set<Key>
    var done: bool
    /** The calls that have returned. */
    ghost var trace: Trace

    constructor (kv: KVStore)
      requires kv.Valid()
      ensures this.kv == kv && View() == NewTx && Valid()
    {
      this.kv := kv;
      pending, acquired, done, trace := map[], {}, false, [];
    }

    /** The transaction between calls. */
    ghost function View(): Tx
      reads this
    {
      Tx(pending, acquired, done, if done then Releasing({}) else Idle, trace)
    }

    ghost predicate Valid()
      reads this, kv`keyLocks, kv`created, kv`ids, kv.Objs()
    {
      kv.Valid() && HoldsAll(kv.LockView(), acquired)
    }

    /** Nobody else holds k. */
    ghost predicate Available(k: Key)
      requires kv.Valid()
      reads this, kv`keyLocks, kv`created, kv`ids, kv.Objs()
    {
      k !in acquired ==> kv.Free(k)
    }

    /** What a call finds: the key locked for this transaction. */
    ghost function Entered(c: Call): Tx
      reads this
    {
      View().(acquired := acquired + {c.k}, pc := Ready(c))
    }

    ghost function Locked(k: Key): Locks
      requires kv.Valid()
      reads this, kv`keyLocks, kv`created, kv`ids, kv.Objs()
    {
      if k in acquired then kv.LockView() else Take(kv.LockView(), k)
    }

    method EnsureLocked(k: Key)
      requires Valid() && !done && Available(k)
      modifies this`acquired, kv`keyLocks, kv`created, kv`ids, kv.Objs()
      ensures Valid() && acquired == old(acquired) + {k} && kv.LockView() == old(Locked(k))
      ensures fresh(kv.Objs() - old(kv.Objs()))
    {
      if k !in acquired {
        ghost var was := kv.LockView();
        kv.AcquireKeyLock(k);
        TakeKeeps(was, acquired, k);
        acquired := acquired + {k};
      } else {
        assert acquired + {k} == acquired;
      }
    }

    /** Set panics on a finished transaction; otherwise the write goes to the sandbox under the key's lock. */
    method Set(k: Key, v: Bytes) returns (panicked: bool)
      requires Valid() && Available(k)
      modifies this, kv`keyLocks, kv`created, kv`ids, kv.Objs()
      ensures Valid() && panicked == old(done)
      ensures View() == if panicked then old(View())
                else Ran(old(Entered(SetCall(k, v))), old(kv.store), SetCall(k, v))
      ensures !panicked ==> pending == old(pending)[k := Put(v)]
      ensures kv.LockView() == if panicked then old(kv.LockView()) else old(Locked(k))
      ensures fresh(kv.Objs() - old(kv.Objs()))
    {
      hide KVStore.Valid, KVStore.LockView;
      panicked := done;
      if done { return; }
      EnsureLocked(k);
      pending := pending[k := Put(v)];
      trace := trace + [Did(SetCall(k, v), None)];
    }

    /** Get answers from the sandbox, else from the store. */
    method Get(k: Key) returns (panicked: bool, r: Option<Bytes>)
      requires Valid() && Available(k)
      modifies this`acquired, this`trace, kv`keyLocks, kv`created, kv`ids, kv.Objs()
      ensures Valid() && panicked == old(done)
      ensures View() == if panicked then old(View()) else Ran(old(Entered(GetCall(k))), old(kv.store), GetCall(k))
      ensures !panicked ==> r == old(Sandboxed(View(), kv.store, k))
      ensures kv.LockView() == if panicked then old(kv.LockView()) else old(Locked(k))
      ensures fresh(kv.Objs() - old(kv.Objs()))
    {
      hide KVStore.Valid, KVStore.LockView;
      panicked, r := done, None;
      if done { return; }
      EnsureLocked(k);
      if k in pending {
        r := if pending[k].Deleted? then None else Some(pending[k].value);
      } else {
        r := kv.Get(k);
      }
      trace := trace + [Did(GetCall(k), r)];
    }

    method Remove(k: Key) returns (panicked: bool)
      requires Valid() && Available(k)
      modifies this, kv`keyLocks, kv`created, kv`ids, kv.Objs()
      ensures Valid() && panicked == old(done)
      ensures View() == if panicked then old(View())
                else Ran(old(Entered(RemoveCall(k))), old(kv.store), RemoveCall(k))
      ensures !panicked ==> pending == old(pending)[k := Deleted]
      ensures kv.LockView() == if panicked then old(kv.LockView()) else old(Locked(k))
      ensures fresh(kv.Objs() - old(kv.Objs()))
    {
      hide KVStore.Valid, KVStore.LockView;
      panicked := done;
      if done { return; }
      EnsureLocked(k);
      pending := pending[k := Deleted];
      trace := trace + [Did(RemoveCall(k), None)];
    }

    method ReleaseAllLocks()
      requires Valid()
      modifies this`acquired, kv`keyLocks, kv`ids, kv.Objs()
      ensures Valid() && acquired == {} && kv.created == old(kv.created)
      ensures kv.LockView() == ReleaseSet(old(kv.LockView()), old(acquired))
    {
      hide KVStore.Valid, KVStore.LockView, ReleaseSet, Release;
      ghost var was := kv.LockView();
      var left := acquired;
      ReleaseNone(was);
      assert acquired - left == {};
      while left != {}
        invariant left <= acquired == old(acquired) && kv.created == old(kv.created) && kv.Valid()
        invariant kv.LockView() == ReleaseSet(was, acquired - left)
        decreases |left|
      {
        var k := PickAny(left);
        assert acquired - left + {k} == acquired - (left - {k});
        assert HoldsAll(was, acquired - left + {k});
        ReleaseOneMore(was, acquired - left, k);
        kv.ReleaseKeyLock(k);
        left := left - {k};
      }
      assert acquired - left == acquired;
      acquired := {};
    }

    /** The loop of Commit over the sandbox. */
    method MergePending()
      modifies kv`store
      ensures kv.store == Merge(old(kv.store), pending)
    {
      var left := pending.Keys;
      assert Merge(kv.store, pending - left) == kv.store;
      while left != {}
        invariant left <= pending.Keys && kv.store == Merge(old(kv.store), pending - left)
        decreases |left|
      {
        var k := PickAny(left);
        MergeOneMore(old(kv.store), pending, left, k);
        if pending[k].Deleted? {
          kv.store := kv.store - {k};
        } else {
          kv.store := kv.store[k := pending[k].value];
        }
        left := left - {k};
      }
      assert pending - left == pending;
    }

    method Commit()
      requires Valid()
      modifies this, kv`store, kv`keyLocks, kv`ids, kv.Objs()
      ensures Valid() && kv.created == old(kv.created)
      ensures old(done) ==> View() == old(View()) && kv.store == old(kv.store) && kv.LockView() == old(kv.LockView())
      ensures !old(done) ==>
                && kv.store == Merge(old(kv.store), old(pending))
                && View() == Finish(old(View())).(pc := Releasing({}))
                && kv.LockView() == ReleaseSet(old(kv.LockView()), old(acquired))
    {
      hide KVStore.Valid, KVStore.LockView;
      if done { return; }
      done := true;
      MergePending();
      pending := map[];
      ReleaseAllLocks();
    }

    method Rollback()
      requires Valid()
      modifies this, kv`keyLocks, kv`ids, kv.Objs()
      ensures Valid() && kv.created == old(kv.created)
      ensures old(done) ==> View() == old(View()) && kv.LockView() == old(kv.LockView())
      ensures !old(done) ==>
                && View() == Finish(old(View())).(pc := Releasing({}))
                && kv.LockView() == ReleaseSet(old(kv.LockView()), old(acquired))
    {
      hide KVStore.Valid, KVStore.LockView;
      if done { return; }
      done := true;
      pending := map[];
      ReleaseAllLocks();
    }
  }

  lemma TakeKeeps(l: Locks, keys: set<Key>, k: Key)
    requires HoldsAll(l, keys) && Injective(l)
    ensures Injective(Take(l, k)) && HoldsAll(Take(l, k), keys + {k})
  {
  }
}
