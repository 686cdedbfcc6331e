/** The inbox on the key-value store: its encoding of value lists, what its transactions do, and conservation of the
    stored values over every interleaving. */
module InboxSpec {
  import opened Common
  import opened KeyValueSpec
  import opened KeyValueLocks
  import opened KeyValueSerial

  datatype Value = Value(typeName: string, content: Bytes)
  datatype Envelope = Envelope(typeName: string, payload: Bytes)

  /** What the registry hands back: a value, the list of envelopes, or something of another type. */
  datatype Object = Item(value: Value) | Raw(envelopes: seq<Envelope>) | Other

  /** The codec registry; None stands for an error. */
  datatype Codec = Codec(marshal: Object -> Option<Bytes>, unmarshal: (Bytes, string) -> Option<Object>)

  const RAW_NAME := "raw"
  const INBOX_KEY := "inboxed"

  function GenKey(key: string): Key {
    INBOX_KEY + ":" + (if key == "" then "unresolved" else key)
  }

  /** The empty key shares its slot with the key "unresolved"; otherwise slots are distinct. */
  lemma SlotsDistinct(a: string, b: string)
    ensures GenKey(a) == GenKey(b) <==> a == b || (a in ["", "unresolved"] && b in ["", "unresolved"])
  {
    var prefix := INBOX_KEY + ":";
    assert GenKey(a)[|prefix|..] == if a == "" then "unresolved" else a;
    assert GenKey(b)[|prefix|..] == if b == "" then "unresolved" else b;
  }

  // ---- Encoding ----

  function Envelopes(c: Codec, vs: seq<Value>): Option<seq<Envelope>> {
    if vs == [] then Some([])
    else
      var last := vs[|vs| - 1];
      var init := Envelopes(c, vs[..|vs| - 1]);
      var data := c.marshal(Item(last));
      if init.None? || data.None? then None
      else Some(init.value + [Envelope(last.typeName, data.value)])
  }

  function Encode(c: Codec, vs: seq<Value>): Option<Bytes> {
    var envs := Envelopes(c, vs);
    if envs.None? then None else c.marshal(Raw(envs.value))
  }

  function Open(c: Codec, e: Envelope): Option<Value> {
    var obj := c.unmarshal(e.payload, e.typeName);
    if obj.Some? && obj.value.Item? then Some(obj.value.value) else None
  }

  function OpenAll(c: Codec, envs: seq<Envelope>): Option<seq<Value>> {
    if envs == [] then Some([])
    else
      var init := OpenAll(c, envs[..|envs| - 1]);
      var v := Open(c, envs[|envs| - 1]);
      if init.None? || v.None? then None else Some(init.value + [v.value])
  }

  function Decode(c: Codec, data: Bytes): Option<seq<Value>> {
    var obj := c.unmarshal(data, RAW_NAME);
    if obj.Some? && obj.value.Raw? then OpenAll(c, obj.value.envelopes) else None
  }

  /** getByKey: an absent key is an empty list. */
  function Current(c: Codec, raw: Option<Bytes>): Option<seq<Value>> {
    if raw.None? then Some([]) else Decode(c, raw.value)
  }

  /** The list container inverts. */
  ghost predicate InvertsRaw(c: Codec) {
    forall envs: seq<Envelope> :: c.marshal(Raw(envs)).Some? ==>
        c.unmarshal(c.marshal(Raw(envs)).value, RAW_NAME) == Some(Raw(envs))
  }

  /** v comes back under its own type name. */
  predicate Inverts(c: Codec, v: Value) {
    c.marshal(Item(v)).Some? ==> c.unmarshal(c.marshal(Item(v)).value, v.typeName) == Some(Item(v))
  }

  ghost predicate AllInvert(c: Codec, vs: seq<Value>) {
    forall v | v in vs :: Inverts(c, v)
  }

  lemma AllInvertAppend(c: Codec, init: seq<Value>, last: Value)
    ensures AllInvert(c, init + [last]) <==> AllInvert(c, init) && Inverts(c, last)
  {
    hide Inverts;
    assert forall v :: v in init + [last] <==> v in init || v == last;
  }

  lemma OpensLast(c: Codec, v: Value, data: Bytes)
    requires c.marshal(Item(v)) == Some(data)
    ensures Open(c, Envelope(v.typeName, data)) == Some(v) <==> Inverts(c, v)
  {
  }

  lemma {:induction false} OpensToItself(c: Codec, vs: seq<Value>)
    requires Envelopes(c, vs).Some?
    ensures |Envelopes(c, vs).value| == |vs|
    ensures OpenAll(c, Envelopes(c, vs).value) == Some(vs) <==> AllInvert(c, vs)
  {
    if vs != [] {
      var init, last := vs[..|vs| - 1], vs[|vs| - 1];
      var envs := Envelopes(c, vs).value;
      OpensToItself(c, init);
      assert envs[..|envs| - 1] == Envelopes(c, init).value;
      OpensLast(c, last, c.marshal(Item(last)).value);
      AllInvertAppend(c, init, last);
      assert init + [last] == vs;
      hide AllInvert, Inverts, Open;
      LastAndInit(OpenAll(c, envs[..|envs| - 1]), Open(c, envs[|envs| - 1]), vs);
    }
  }

  lemma LastAndInit(init: Option<seq<Value>>, last: Option<Value>, vs: seq<Value>)
    requires vs != []
    ensures (init.Some? && last.Some? && init.value + [last.value] == vs) <==>
            (init == Some(vs[..|vs| - 1]) && last == Some(vs[|vs| - 1]))
  {
    assert vs == vs[..|vs| - 1] + [vs[|vs| - 1]];
    if init.Some? && last.Some? && init.value + [last.value] == vs {
      assert init.value == vs[..|vs| - 1];
    }
  }

  /** A list that could be encoded decodes to itself exactly if each of its values does. */
  lemma RoundTrip(c: Codec, vs: seq<Value>)
    requires InvertsRaw(c) && Encode(c, vs).Some?
    ensures Decode(c, Encode(c, vs).value) == Some(vs) <==> forall v | v in vs :: Inverts(c, v)
  {
    OpensToItself(c, vs);
    assert c.marshal(Raw(Envelopes(c, vs).value)).Some?;
  }

  // ---- What the inbox's transactions do ----

  /** Foreign: some other client, which keeps away from the slot we look at. */
  datatype Op = Store(key: string, values: seq<Value>) | GetAndClear(key: string) | Foreign

  datatype Move = Do(call: Call) | Finish | GiveUp

  /** The next thing the operation does, given what its calls have returned so far. */
  function NextMove(c: Codec, op: Op, trace: Trace): Move
    requires !op.Foreign?
  {
    if |trace| == 0 then Do(GetCall(GenKey(op.key)))
    else if |trace| == 1 then
      var current := Current(c, trace[0].result);
      if current.None? then GiveUp
      else match op
        case Store(key, values) =>
          var raw := Encode(c, current.value + values);
          if raw.None? then GiveUp else Do(SetCall(GenKey(key), raw.value))
        case GetAndClear(key) => Do(RemoveCall(GenKey(key)))
    else Finish
  }

  /** Step s is one the clients take: transaction t runs ops(t), and nobody writes to the store directly. */
  ghost predicate Follows(c: Codec, ops: nat -> Op, slot: Key, d: Db, s: Step) {
    match s
    case Invoke(t, call) =>
      t in d.txs && (if ops(t).Foreign? then call.k != slot else NextMove(c, ops(t), d.txs[t].trace) == Do(call))
    case Commit(t) => t in d.txs && (!ops(t).Foreign? ==> NextMove(c, ops(t), d.txs[t].trace) == Finish)
    case Rollback(t) => true
    case Direct(call) => call.GetCall?
    case _ => true
  }

  ghost predicate NextInbox(c: Codec, ops: nat -> Op, slot: Key, d: Db, d': Db) {
    exists s :: Enabled(d, s) && Follows(c, ops, slot, d, s) && d' == KeyValueSpec.Do(d, s)
  }

  ghost predicate IsInboxRun(c: Codec, ops: nat -> Op, slot: Key, run: seq<Db>) {
    && run != [] && run[0] == Empty
    && forall k | 0 <= k < |run| - 1 :: NextInbox(c, ops, slot, run[k], run[k + 1])
  }

  // ---- A committed transaction is a whole operation ----

  /** Every call of the trace is the one the operation makes next. */
  ghost predicate Conforms(c: Codec, op: Op, slot: Key, trace: Trace) {
    forall i | 0 <= i < |trace| ::
      if op.Foreign? then trace[i].call.k != slot else NextMove(c, op, trace[..i]) == Do(trace[i].call)
  }

  ghost predicate Whole(c: Codec, ops: nat -> Op, slot: Key, e: Commitment) {
    if e.tx.None? then |e.trace| == 1 && e.trace[0].call.GetCall?
    else Conforms(c, ops(e.tx.value), slot, e.trace) && (!ops(e.tx.value).Foreign? ==> |e.trace| == 2)
  }

  ghost predicate Driven(c: Codec, op: Op, slot: Key, tx: Tx) {
    && Conforms(c, op, slot, tx.trace)
    && ((tx.pc.Waiting? || tx.pc.Ready?) ==>
          if op.Foreign? then tx.pc.call.k != slot else NextMove(c, op, tx.trace) == Do(tx.pc.call))
  }

  ghost predicate InboxInv(c: Codec, ops: nat -> Op, slot: Key, d: Db) {
    && (forall t | t in d.txs :: Driven(c, ops(t), slot, d.txs[t]))
    && (forall i | 0 <= i < |d.log| :: Whole(c, ops, slot, d.log[i]))
  }

  lemma ConformsMore(c: Codec, op: Op, slot: Key, trace: Trace, a: Action)
    requires Conforms(c, op, slot, trace)
    requires if op.Foreign? then a.call.k != slot else NextMove(c, op, trace) == Do(a.call)
    ensures Conforms(c, op, slot, trace + [a])
  {
    var more := trace + [a];
    forall i | 0 <= i < |more|
      ensures if op.Foreign? then more[i].call.k != slot else NextMove(c, op, more[..i]) == Do(more[i].call)
    {
      assert more[..i] == trace[..i];
      assert i == |trace| ==> trace[..i] == trace;
    }
  }

  lemma ConformsShort(c: Codec, op: Op, slot: Key, trace: Trace)
    requires Conforms(c, op, slot, trace) && !op.Foreign?
    ensures |trace| <= 2
  {
    assert |trace| > 2 ==> NextMove(c, op, trace[..2]) == Finish;
  }

  lemma InboxStep(c: Codec, ops: nat -> Op, slot: Key, d: Db, s: Step)
    requires InboxInv(c, ops, slot, d) && Enabled(d, s) && Follows(c, ops, slot, d, s)
    ensures InboxInv(c, ops, slot, KeyValueSpec.Do(d, s))
  {
    hide Conforms, NextMove;
    var d' := KeyValueSpec.Do(d, s);
    forall t | t in d'.txs ensures Driven(c, ops(t), slot, d'.txs[t]) {
      assert t in d.txs ==> Driven(c, ops(t), slot, d.txs[t]);
      if s == Run(t) {
        ConformsMore(c, ops(t), slot, d.txs[t].trace, d'.txs[t].trace[|d.txs[t].trace|]);
      } else if s == Begin(t) {
        ConformsNothing(c, ops(t), slot);
      }
    }
    if s.Commit? {
      var tx := d.txs[s.t];
      assert Driven(c, ops(s.t), slot, tx);
      if !ops(s.t).Foreign? {
        ConformsShort(c, ops(s.t), slot, tx.trace);
        FinishesAtTwo(c, ops(s.t), tx.trace);
      }
    }
    forall i | 0 <= i < |d'.log| ensures Whole(c, ops, slot, d'.log[i]) {
      assert i < |d.log| ==> Whole(c, ops, slot, d.log[i]);
    }
  }

  lemma ConformsNothing(c: Codec, op: Op, slot: Key)
    ensures Conforms(c, op, slot, [])
  {
  }

  lemma FinishesAtTwo(c: Codec, op: Op, trace: Trace)
    requires !op.Foreign? && NextMove(c, op, trace) == Finish
    ensures |trace| >= 2
  {
  }

  lemma {:induction false} RunInv(c: Codec, ops: nat -> Op, slot: Key, run: seq<Db>, i: nat)
    requires IsInboxRun(c, ops, slot, run) && i < |run|
    ensures InboxInv(c, ops, slot, run[i]) && SerialInv(run[i])
  {
    hide SerialInv, InboxInv, KeyValueSpec.Do, Enabled;
    if i == 0 {
      EmptySerial();
      EmptyInbox(c, ops, slot);
    } else {
      RunInv(c, ops, slot, run, i - 1);
      assert NextInbox(c, ops, slot, run[i - 1], run[i - 1 + 1]);
      var s :| Enabled(run[i - 1], s) && Follows(c, ops, slot, run[i - 1], s)
          && run[i] == KeyValueSpec.Do(run[i - 1], s);
      SerialStep(run[i - 1], s);
      InboxStep(c, ops, slot, run[i - 1], s);
    }
  }

  lemma EmptyInbox(c: Codec, ops: nat -> Op, slot: Key)
    ensures InboxInv(c, ops, slot, Empty)
  {
  }

  // ---- Conservation ----

  ghost predicate OnSlot(ops: nat -> Op, slot: Key, e: Commitment) {
    e.tx.Some? && !ops(e.tx.value).Foreign? && GenKey(ops(e.tx.value).key) == slot
  }

  /** Everything committed to the slot so far, in commit order. */
  ghost function Stored(ops: nat -> Op, slot: Key, log: seq<Commitment>): seq<Value> {
    if log == [] then []
    else
      var e := log[|log| - 1];
      Stored(ops, slot, log[..|log| - 1])
      + if OnSlot(ops, slot, e) && ops(e.tx.value).Store? then ops(e.tx.value).values else []
  }

  /** Everything GetAndClear has returned from the slot, in commit order. */
  ghost function Drained(c: Codec, ops: nat -> Op, slot: Key, log: seq<Commitment>): seq<Value> {
    if log == [] then []
    else
      var e := log[|log| - 1];
      Drained(c, ops, slot, log[..|log| - 1])
      + if OnSlot(ops, slot, e) && ops(e.tx.value).GetAndClear? && e.trace != [] && Current(c, e.trace[0].result).Some?
        then Current(c, e.trace[0].result).value else []
  }

  /** What one commitment does to the slot, given what it saw there. */
  lemma SlotAfter(c: Codec, ops: nat -> Op, slot: Key, s: KeyValueSpec.Store, e: Commitment)
    requires Whole(c, ops, slot, e) && Explains(s, e.trace)
    ensures !OnSlot(ops, slot, e) ==> Look(Serial(s, e.trace), slot) == Look(s, slot)
    ensures OnSlot(ops, slot, e) ==>
              && |e.trace| == 2 && e.trace[0].result == Look(s, slot) && Current(c, Look(s, slot)).Some?
              && (ops(e.tx.value).GetAndClear? ==> Look(Serial(s, e.trace), slot) == None)
              && (ops(e.tx.value).Store? ==>
                    && Encode(c, Current(c, Look(s, slot)).value + ops(e.tx.value).values).Some?
                    && Look(Serial(s, e.trace), slot)
                        == Encode(c, Current(c, Look(s, slot)).value + ops(e.tx.value).values))
  {
    if |e.trace| > 0 { assert e.trace[..0] == []; }
    if e.tx.None? {
      assert Serial(s, e.trace) == s;
    } else if ops(e.tx.value).Foreign? {
      Untouched(s, e.trace, slot);
    } else {
      TwoCalls(c, ops(e.tx.value), slot, s, e.trace);
    }
  }

  lemma {:induction false} Untouched(s: KeyValueSpec.Store, trace: Trace, slot: Key)
    requires forall i | 0 <= i < |trace| :: trace[i].call.k != slot
    ensures Look(Serial(s, trace), slot) == Look(s, slot)
  {
    if trace != [] {
      Untouched(s, trace[..|trace| - 1], slot);
    }
  }

  lemma TwoCalls(c: Codec, op: Op, slot: Key, s: KeyValueSpec.Store, trace: Trace)
    requires !op.Foreign? && Conforms(c, op, slot, trace) && |trace| == 2 && Explains(s, trace)
    ensures trace[0].call == GetCall(GenKey(op.key)) && trace[0].result == Look(s, GenKey(op.key))
    ensures NextMove(c, op, trace[..1]) == Do(trace[1].call) && Current(c, trace[0].result).Some?
    ensures trace[1].call.k == GenKey(op.key) && Serial(s, trace) == Effect(s, trace[1].call)
  {
    assert trace[..0] == [] && trace[..1] == [trace[0]] && [trace[0]][..0] == [];
    assert NextMove(c, op, trace[..0]) == Do(trace[0].call);
    assert NextMove(c, op, trace[..1]) == Do(trace[1].call);
    assert trace[0].result == Observe(Serial(s, trace[..0]), trace[0].call);
    assert Serial(s, trace[..1]) == s;
  }

  /** The slot's current contents, as values. */
  function Remaining(c: Codec, s: KeyValueSpec.Store, slot: Key): Option<seq<Value>> {
    Current(c, Look(s, slot))
  }

  ghost predicate StoresSound(c: Codec, ops: nat -> Op) {
    forall t: nat :: ops(t).Store? ==> forall v | v in ops(t).values :: Inverts(c, v)
  }

  ghost predicate Balanced(c: Codec, ops: nat -> Op, slot: Key, log: seq<Commitment>) {
    var rest := Remaining(c, SerialAll(log), slot);
    && rest.Some? && (forall v | v in rest.value :: Inverts(c, v))
    && Drained(c, ops, slot, log) + rest.value == Stored(ops, slot, log)
  }

  lemma {:induction false} LogBalance(c: Codec, ops: nat -> Op, slot: Key, log: seq<Commitment>)
    requires InvertsRaw(c) && StoresSound(c, ops)
    requires ExplainsAll(log) && forall i | 0 <= i < |log| :: Whole(c, ops, slot, log[i])
    ensures Balanced(c, ops, slot, log)
  {
    hide Balanced, Explains, Whole;
    if log == [] {
      NothingYet(c, ops, slot);
    } else {
      var n := |log| - 1;
      forall i | 0 <= i < n ensures Explains(SerialAll(log[..n][..i]), log[..n][i].trace) {
        assert log[..n][..i] == log[..i];
      }
      LogBalance(c, ops, slot, log[..n]);
      OneMore(c, ops, slot, log[..n], log[n]);
      assert log[..n] + [log[n]] == log;
    }
  }

  lemma NothingYet(c: Codec, ops: nat -> Op, slot: Key)
    ensures Balanced(c, ops, slot, [])
  {
  }

  lemma OneMore(c: Codec, ops: nat -> Op, slot: Key, log: seq<Commitment>, e: Commitment)
    requires InvertsRaw(c) && StoresSound(c, ops) && Balanced(c, ops, slot, log)
    requires Explains(SerialAll(log), e.trace) && Whole(c, ops, slot, e)
    ensures Balanced(c, ops, slot, log + [e])
  {
    hide Explains, Whole, Inverts, Drained, Stored, Encode, Decode, GenKey;
    var s := SerialAll(log);
    Unfold(c, ops, slot, log, e);
    SlotAfter(c, ops, slot, s, e);
    var rest := Remaining(c, s, slot).value;
    if OnSlot(ops, slot, e) && ops(e.tx.value).Store? {
      StoredAfter(c, rest, ops(e.tx.value).values);
      assert Drained(c, ops, slot, log) + (rest + ops(e.tx.value).values)
          == (Drained(c, ops, slot, log) + rest) + ops(e.tx.value).values;
    }
  }

  lemma StoredAfter(c: Codec, rest: seq<Value>, values: seq<Value>)
    requires InvertsRaw(c) && Encode(c, rest + values).Some?
    requires (forall v | v in rest :: Inverts(c, v)) && forall v | v in values :: Inverts(c, v)
    ensures Decode(c, Encode(c, rest + values).value) == Some(rest + values)
    ensures forall v | v in rest + values :: Inverts(c, v)
  {
    RoundTrip(c, rest + values);
  }

  lemma Unfold(c: Codec, ops: nat -> Op, slot: Key, log: seq<Commitment>, e: Commitment)
    ensures SerialAll(log + [e]) == Serial(SerialAll(log), e.trace)
    ensures Stored(ops, slot, log + [e]) == Stored(ops, slot, log)
              + if OnSlot(ops, slot, e) && ops(e.tx.value).Store? then ops(e.tx.value).values else []
    ensures Drained(c, ops, slot, log + [e]) == Drained(c, ops, slot, log)
              + if OnSlot(ops, slot, e) && ops(e.tx.value).GetAndClear? && e.trace != []
                  && Current(c, e.trace[0].result).Some?
                then Current(c, e.trace[0].result).value else []
  {
    assert (log + [e])[..|log|] == log;
  }

  /** Conservation: in every interleaving, what GetAndClear handed out so far, followed by what the slot still holds,
      is exactly what Store put in, in commit order; nothing is lost, duplicated or reordered. */
  lemma InboxConservation(c: Codec, ops: nat -> Op, slot: Key, run: seq<Db>, i: nat)
    requires InvertsRaw(c) && StoresSound(c, ops) && IsInboxRun(c, ops, slot, run) && i < |run|
    ensures Remaining(c, run[i].store, slot).Some?
    ensures Drained(c, ops, slot, run[i].log) + Remaining(c, run[i].store, slot).value == Stored(ops, slot, run[i].log)
  {
    hide IsInboxRun, LockInv;
    RunInv(c, ops, slot, run, i);
    LogBalance(c, ops, slot, run[i].log);
  }
}
