/** The in-memory key-value store on values: the store, the per-key lock table and what each step of a transaction
    does. A lock object is identified by its position in the list of lock objects ever created. */
module KeyValueSpec {
  import opened Common

  newtype byte = x: int | 0 <= x < 256
  type Bytes = seq<byte>
  type Key = string
  type Store = map<Key, Bytes>

  datatype Entry = Put(value: Bytes) | Deleted

  datatype Call = SetCall(k: Key, v: Bytes) | GetCall(k: Key) | RemoveCall(k: Key)

  /** A call that has returned, with what it returned; writes return nothing. */
  datatype Action = Did(call: Call, result: Option<Bytes>)

  type Trace = seq<Action>

  function Look(s: Store, k: Key): Option<Bytes> {
    if k in s then Some(s[k]) else None
  }

  function Effect(s: Store, c: Call): Store {
    match c
    case SetCall(k, v) => s[k := v]
    case RemoveCall(k) => s - {k}
    case GetCall(_) => s
  }

  function Observe(s: Store, c: Call): Option<Bytes> {
    if c.GetCall? then Look(s, c.k) else None
  }

  /** What Commit's loop over the pending entries leaves in the store. */
  function Merge(s: Store, pending: map<Key, Entry>): Store {
    map k | k in s.Keys + pending.Keys && (k in pending ==> pending[k].Put?) ::
      if k in pending then pending[k].value else s[k]
  }

  // ---- Per-key locks ----

  datatype Lock = Lock(locked: bool, waiters: int)

  datatype Locks = Locks(table: map<Key, nat>, objs: seq<Lock>)

  predicate InHeap(l: Locks) {
    forall k | k in l.table :: l.table[k] < |l.objs|
  }

  /** The first half of acquireKeyLock: find or create the lock object and count ourselves in. */
  function Register(l: Locks, k: Key): (Locks, nat)
    requires InHeap(l)
  {
    if k in l.table then
      var id := l.table[k];
      (l.(objs := l.objs[id := l.objs[id].(waiters := l.objs[id].waiters + 1)]), id)
    else
      (Locks(l.table[k := |l.objs|], l.objs + [Lock(false, 1)]), |l.objs|)
  }

  /** The second half: the mutex is free and we take it. */
  function Grab(l: Locks, id: nat): Locks
    requires id < |l.objs|
  {
    l.(objs := l.objs[id := l.objs[id].(locked := true)])
  }

  /** releaseKeyLock; None when it would unlock a mutex that is not locked, which ends the program. */
  function Release(l: Locks, k: Key): Option<Locks>
    requires InHeap(l)
  {
    if k !in l.table then Some(l)
    else
      var id := l.table[k];
      var o := l.objs[id];
      if !o.locked then None
      else Some(Locks(if o.waiters == 1 then l.table - {k} else l.table,
                      l.objs[id := Lock(false, o.waiters - 1)]))
  }

  // ---- Transactions ----

  /** Where the goroutine that drives a transaction stands. Waiting: counted in at lock object id and blocked on its
      mutex. Ready: holds the key. Releasing: in releaseAllLocks, with these keys still to release. */
  datatype Pc = Idle | Waiting(call: Call, id: nat) | Ready(call: Call) | Releasing(left: set<Key>)

  datatype Tx = Tx(pending: map<Key, Entry>, acquired: set<Key>, done: bool, pc: Pc, trace: Trace)

  const NewTx := Tx(map[], {}, false, Idle, [])

  function Sandboxed(tx: Tx, s: Store, k: Key): Option<Bytes> {
    if k in tx.pending then (if tx.pending[k].Deleted? then None else Some(tx.pending[k].value)) else Look(s, k)
  }

  /** The rest of Set, Get or Remove once the key is held: the transaction afterwards, and what the call returns. */
  function Execute(tx: Tx, s: Store, c: Call): (Tx, Option<Bytes>) {
    var tx1 := tx.(pc := Idle);
    match c
    case SetCall(k, v) => (tx1.(pending := tx.pending[k := Put(v)]), None)
    case RemoveCall(k) => (tx1.(pending := tx.pending[k := Deleted]), None)
    case GetCall(k) => (tx1, Sandboxed(tx, s, k))
  }

  /** The call has returned. */
  function Ran(tx: Tx, s: Store, c: Call): Tx {
    var (tx1, result) := Execute(tx, s, c);
    tx1.(trace := tx.trace + [Did(c, result)])
  }

  /** Commit and Rollback up to releaseAllLocks. */
  function Finish(tx: Tx): Tx {
    tx.(pending := map[], acquired := {}, done := true, pc := Releasing(tx.acquired))
  }

  function Held(tx: Tx): set<Key> {
    if tx.pc.Releasing? then tx.pc.left else tx.acquired
  }

  predicate Awaits(tx: Tx, k: Key) {
    tx.pc.Waiting? && tx.pc.call.k == k
  }

  // ---- The system ----

  /** What took effect at once: the calls of a committed transaction, or one call made directly on the store. */
  datatype Commitment = Commitment(tx: Option<nat>, trace: Trace)

  /** log lists the commitments in commit order; calls is what the client of each transaction has called so far. */
  datatype Db = Db(store: Store, locks: Locks, txs: map<nat, Tx>, log: seq<Commitment>, crashed: bool,
                   calls: map<nat, seq<Call>>)

  const Empty := Db(map[], Locks(map[], []), map[], [], false, map[])

  function CallsOf(d: Db, t: nat): seq<Call> {
    if t in d.calls then d.calls[t] else []
  }

  datatype Step =
    | Begin(t: nat)
    | Invoke(t: nat, call: Call)
    | Grant(t: nat)
    | Run(t: nat)
    | Commit(t: nat)
    | Rollback(t: nat)
    | ReleaseOne(t: nat, k: Key)
    | Direct(call: Call)

  predicate Enabled(d: Db, s: Step) {
    && !d.crashed && InHeap(d.locks)
    && match s
       case Begin(t) => t !in d.txs
       case Invoke(t, _) => t in d.txs && d.txs[t].pc.Idle? && !d.txs[t].done
       case Grant(t) =>
         && t in d.txs && d.txs[t].pc.Waiting?
         && d.txs[t].pc.id < |d.locks.objs| && !d.locks.objs[d.txs[t].pc.id].locked
       case Run(t) => t in d.txs && d.txs[t].pc.Ready?
       case Commit(t) => t in d.txs && d.txs[t].pc.Idle? && !d.txs[t].done
       case Rollback(t) => t in d.txs && d.txs[t].pc.Idle? && !d.txs[t].done
       case ReleaseOne(t, k) => t in d.txs && d.txs[t].pc.Releasing? && k in d.txs[t].pc.left
       case Direct(_) => true
  }

  function DoInvoke(d: Db, t: nat, c: Call): Db
    requires t in d.txs && InHeap(d.locks)
  {
    var tx := d.txs[t];
    var calls := d.calls[t := CallsOf(d, t) + [c]];
    if c.k in tx.acquired then d.(txs := d.txs[t := tx.(pc := Ready(c))], calls := calls)
    else
      var (l, id) := Register(d.locks, c.k);
      d.(locks := l, txs := d.txs[t := tx.(pc := Waiting(c, id))], calls := calls)
  }

  function DoGrant(d: Db, t: nat): Db
    requires t in d.txs && d.txs[t].pc.Waiting? && d.txs[t].pc.id < |d.locks.objs|
  {
    var tx := d.txs[t];
    d.(locks := Grab(d.locks, tx.pc.id),
       txs := d.txs[t := tx.(acquired := tx.acquired + {tx.pc.call.k}, pc := Ready(tx.pc.call))])
  }

  function DoRelease(d: Db, t: nat, k: Key): Db
    requires t in d.txs && d.txs[t].pc.Releasing? && InHeap(d.locks)
  {
    var tx := d.txs[t];
    match Release(d.locks, k)
    case None => d.(crashed := true)
    case Some(l) => d.(locks := l, txs := d.txs[t := tx.(pc := Releasing(tx.pc.left - {k}))])
  }

  function Do(d: Db, s: Step): Db
    requires Enabled(d, s)
  {
    match s
    case Begin(t) => d.(txs := d.txs[t := NewTx])
    case Invoke(t, c) => DoInvoke(d, t, c)
    case Grant(t) => DoGrant(d, t)
    case Run(t) => d.(txs := d.txs[t := Ran(d.txs[t], d.store, d.txs[t].pc.call)])
    case Commit(t) =>
      d.(store := Merge(d.store, d.txs[t].pending), txs := d.txs[t := Finish(d.txs[t])],
           log := d.log + [Commitment(Some(t), d.txs[t].trace)])
    case Rollback(t) => d.(txs := d.txs[t := Finish(d.txs[t])])
    case ReleaseOne(t, k) => DoRelease(d, t, k)
    case Direct(c) => d.(store := Effect(d.store, c),
           log := d.log + [Commitment(None, [Did(c, Observe(d.store, c))])])
  }

  ghost predicate Next(d: Db, d': Db) {
    exists s :: Enabled(d, s) && d' == Do(d, s)
  }

  ghost predicate IsRun(run: seq<Db>) {
    && run != [] && run[0] == Empty
    && forall k | 0 <= k < |run| - 1 :: Next(run[k], run[k + 1])
  }

  /** A write that bypasses the key locks leaves every key alone that a live transaction holds. */
  ghost predicate Guarded(d: Db, s: Step) {
    (s.Direct? && !s.call.GetCall?) ==> forall t | t in d.txs :: s.call.k !in d.txs[t].acquired
  }

  ghost predicate NextGuarded(d: Db, d': Db) {
    exists s :: Enabled(d, s) && Guarded(d, s) && d' == Do(d, s)
  }

  ghost predicate IsGuardedRun(run: seq<Db>) {
    && run != [] && run[0] == Empty
    && forall k | 0 <= k < |run| - 1 :: NextGuarded(run[k], run[k + 1])
  }
}
