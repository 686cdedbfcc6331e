/** The inbox as an object over a store object. */
module Inbox {
  import opened Common
  import opened KeyValueSpec
  import opened KeyValueLocks
  import opened KeyValueStore
  import opened InboxSpec

  class Inbox {
    const storage: KVStore
    const registry: Codec

    constructor (registry: Codec, storage: KVStore)
      ensures this.storage == storage && this.registry == registry
    {
      this.storage, this.registry := storage, registry;
    }

    method EncodeValues(values: seq<Value>) returns (r: Option<Bytes>)
      ensures r == Encode(registry, values)
    {
      var envelopes := [];
      for i := 0 to |values|
        invariant Envelopes(registry, values[..i]) == Some(envelopes)
      {
        assert values[..i + 1][..i] == values[..i];
        var data := registry.marshal(Item(values[i]));
        if data.None? {
          NoPrefixNoWhole(registry, values, i + 1);
          return None;
        }
        envelopes := envelopes + [Envelope(values[i].typeName, data.value)];
      }
      assert values[..|values|] == values;
      r := registry.marshal(Raw(envelopes));
    }

    method DecodeValues(data: Bytes) returns (r: Option<seq<Value>>)
      ensures r == Decode(registry, data)
    {
      var obj := registry.unmarshal(data, RAW_NAME);
      if obj.None? || !obj.value.Raw? { return None; }
      var envs := obj.value.envelopes;
      var values := [];
      for i := 0 to |envs|
        invariant OpenAll(registry, envs[..i]) == Some(values)
      {
        assert envs[..i + 1][..i] == envs[..i];
        var o := registry.unmarshal(envs[i].payload, envs[i].typeName);
        if o.None? || !o.value.Item? {
          NoneOpensNone(registry, envs, i + 1);
          return None;
        }
        values := values + [o.value.value];
      }
      assert envs[..|envs|] == envs;
      r := Some(values);
    }

    method FromRaw(raw: Option<Bytes>) returns (r: Option<seq<Value>>)
      ensures r == Current(registry, raw)
    {
      if raw.None? { return Some([]); }
      r := DecodeValues(raw.value);
    }

    /** Get reads the store directly, without the key's lock. */
    method Get(key: string) returns (r: Option<seq<Value>>)
      ensures r == Remaining(registry, storage.store, GenKey(key))
    {
      var raw := storage.Get(GenKey(key));
      r := FromRaw(raw);
    }

    /** How both operations start: a transaction that has read the slot. */
    method Peek(slot: Key) returns (tx: Transaction, raw: Option<Bytes>)
      requires storage.Valid() && storage.Free(slot)
      modifies storage`keyLocks, storage`created, storage`ids, storage.Objs()
      ensures fresh(tx) && tx.kv == storage && tx.Valid() && fresh(storage.Objs() - old(storage.Objs()))
      ensures raw == Look(storage.store, slot)
      ensures tx.View() == Tx(map[], {slot}, false, Idle, [Did(GetCall(slot), raw)])
      ensures tx.Available(slot)
    {
      hide KVStore.Valid, KVStore.LockView, Transaction.Locked, HoldsAll;
      tx := storage.Begin();
      FreeIsAvailable(tx, slot);
      var _, r := tx.Get(slot);
      raw := r;
      assert [] + [Did(GetCall(slot), raw)] == [Did(GetCall(slot), raw)] && {} + {slot} == {slot};
    }

    /** Decode what is there, append, encode again; either can fail. */
    method Extend(raw: Option<Bytes>, values: seq<Value>) returns (data: Option<Bytes>)
      ensures data == if Current(registry, raw).None? then None
                else Encode(registry, Current(registry, raw).value + values)
    {
      var current := FromRaw(raw);
      if current.None? { return None; }
      data := EncodeValues(current.value + values);
    }

    /** Store appends to the slot or fails and changes nothing; its transaction follows the operation's program. */
    method Store(key: string, values: seq<Value>) returns (err: bool, ghost trace: Trace)
      requires storage.Valid() && storage.Free(GenKey(key))
      modifies storage, storage.Objs()
      ensures storage.Valid()
      ensures var slot := GenKey(key);
              var before := Remaining(registry, old(storage.store), slot);
              && (err <==> values != [] && (before.None? || Encode(registry, before.value + values).None?))
              && storage.store == (if err || values == [] then old(storage.store)
                                   else old(storage.store)[slot := Encode(registry, before.value + values).value])
      ensures values != [] ==>
                && Conforms(registry, InboxSpec.Store(key, values), GenKey(key), trace)
                && NextMove(registry, InboxSpec.Store(key, values), trace) == if err then GiveUp else Finish
    {
      hide KVStore.Valid, KVStore.LockView, Transaction.Locked, Transaction.Available, HoldsAll, Conforms, Encode,
          Current, Release, Register, Grab, Sandboxed;
      trace := [];
      if values == [] { return false, []; }
      var slot := GenKey(key);
      ghost var op := InboxSpec.Store(key, values);
      var tx, raw := Peek(slot);
      ReadConforms(registry, op, slot, raw);
      trace := tx.trace;
      var data := Extend(raw, values);
      if data.None? {
        tx.Rollback();
        return true, trace;
      }
      var _ := tx.Set(slot, data.value);
      ConformsMore(registry, op, slot, trace, Did(SetCall(slot, data.value), None));
      trace := tx.trace;
      tx.Commit();
      err := false;
    }

    /** GetAndClear returns the slot's values and empties it, or fails and changes nothing. */
    method GetAndClear(key: string) returns (r: Option<seq<Value>>, ghost trace: Trace)
      requires storage.Valid() && storage.Free(GenKey(key))
      modifies storage, storage.Objs()
      ensures storage.Valid()
      ensures r == Remaining(registry, old(storage.store), GenKey(key))
      ensures storage.store == if r.None? then old(storage.store) else old(storage.store) - {GenKey(key)}
      ensures Conforms(registry, InboxSpec.GetAndClear(key), GenKey(key), trace)
      ensures NextMove(registry, InboxSpec.GetAndClear(key), trace) == if r.None? then GiveUp else Finish
    {
      hide KVStore.Valid, KVStore.LockView, Transaction.Locked, Transaction.Available, HoldsAll, Conforms, Encode,
          Current, Release, Register, Grab, Sandboxed;
      var slot := GenKey(key);
      ghost var op := InboxSpec.GetAndClear(key);
      var tx, raw := Peek(slot);
      ReadConforms(registry, op, slot, raw);
      trace := tx.trace;
      r := FromRaw(raw);
      if r.None? {
        tx.Rollback();
        return;
      }
      var _ := tx.Remove(slot);
      ConformsMore(registry, op, slot, trace, Did(RemoveCall(slot), None));
      trace := tx.trace;
      tx.Commit();
    }
  }

  lemma ReadConforms(c: Codec, op: Op, slot: Key, raw: Option<Bytes>)
    requires !op.Foreign? && GenKey(op.key) == slot
    ensures Conforms(c, op, slot, [Did(GetCall(slot), raw)])
  {
  }

  lemma FreeIsAvailable(tx: Transaction, k: Key)
    requires tx.kv.Valid() && tx.kv.Free(k)
    ensures tx.Available(k)
  {
  }

  lemma {:induction false} NoPrefixNoWhole(c: Codec, vs: seq<Value>, i: nat)
    requires i <= |vs| && Envelopes(c, vs[..i]).None?
    ensures Envelopes(c, vs).None?
    decreases |vs| - i
  {
    if i < |vs| {
      assert vs[..i + 1][..i] == vs[..i];
      NoPrefixNoWhole(c, vs, i + 1);
    } else {
      assert vs[..i] == vs;
    }
  }

  lemma {:induction false} NoneOpensNone(c: Codec, envs: seq<Envelope>, i: nat)
    requires i <= |envs| && OpenAll(c, envs[..i]).None?
    ensures OpenAll(c, envs).None?
    decreases |envs| - i
  {
    if i < |envs| {
      assert envs[..i + 1][..i] == envs[..i];
      NoneOpensNone(c, envs, i + 1);
    } else {
      assert envs[..i] == envs;
    }
  }
}
