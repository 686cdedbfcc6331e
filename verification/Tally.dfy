/** The counting loops of the Byzantine broadcasts. Every loop skips the entry it starts from, so "count > k" is
    reached exactly by values that at least k + 2 distinct processes sent. */
module Tally {
  import opened Common

  /** The processes whose entry is m. */
  function Support<M(==)>(entries: map<PID, M>, m: M): set<PID> {
    set p | p in entries && entries[p] == m
  }

  /** What a loop with threshold k may return, whatever the iteration order of the map. */
  ghost predicate Elects<M(!new)>(entries: map<PID, M>, k: nat, pick: Option<M>) {
    if pick.Some? then |Support(entries, pick.value)| >= k + 2
    else forall m :: |Support(entries, m)| < k + 2
  }

  /** who is the process whose entry the loop stopped at. The nested loops of checkReadyStage, checkEnhanceReady,
      checkDeliver, maybeDeliverInner and maybeBroadcastFinal. */
  method Elect<M(!new,==)>(entries: map<PID, M>, k: nat) returns (pick: Option<M>, who: PID)
    ensures Elects(entries, k, pick)
    ensures pick.Some? ==> who in Support(entries, pick.value)
  {
    var left := entries.Keys;
    while left != {}
      invariant left <= entries.Keys
      invariant forall p | p in entries.Keys - left :: |Support(entries, entries[p])| < k + 2
      decreases |left|
    {
      var pid := PickAny(left);
      var enough := Enough(entries, k, pid);
      if enough { return Some(entries[pid]), pid; }
      left := left - {pid};
    }
    forall m ensures |Support(entries, m)| < k + 2 {
      if Support(entries, m) != {} {
        var p := OneOutside(Support(entries, m), {});
        assert p in entries.Keys - left;
      }
    }
    return None, 0;
  }

  /** The inner loop: does pid's value have more than k other supporters? */
  method Enough<M(!new,==)>(entries: map<PID, M>, k: nat, pid: PID) returns (enough: bool)
    requires pid in entries
    ensures enough <==> |Support(entries, entries[pid])| >= k + 2
  {
    var msg := entries[pid];
    ghost var all := Support(entries, msg);
    assert |all - {pid}| == |all| - 1;
    var count := 0;
    var others := entries.Keys;
    ghost var counted := {};
    while others != {}
      invariant others <= entries.Keys && counted == (all - {pid}) - others
      invariant count == |counted| <= k
      decreases |others|
    {
      var other := PickAny(others);
      others := others - {other};
      if other != pid && entries[other] == msg {
        assert (all - {pid}) - others == counted + {other};
        counted := counted + {other};
        count := count + 1;
        if count > k {
          SubsetCard(counted, all - {pid});
          return true;
        }
      } else {
        assert (all - {pid}) - others == counted;
      }
    }
    assert counted == all - {pid};
    return false;
  }

  lemma SupportInsert<M>(entries: map<PID, M>, p: PID, v: M, m: M)
    requires p !in entries
    ensures Support(entries[p := v], m) == if v == m then Support(entries, m) + {p} else Support(entries, m)
  {
  }

  /** Two values that both reach a Byzantine quorum of an n-process group share a supporter outside the faulty set. */
  lemma ByzantineQuorumsMeet(a: set<PID>, b: set<PID>, procs: set<PID>, faulty: set<PID>, f: nat) returns (p: PID)
    requires a <= procs && b <= procs && |faulty| <= f
    requires |a| > (|procs| + f) / 2 && |b| > (|procs| + f) / 2
    ensures p in a && p in b && p !in faulty
  {
    p := QuorumsMeet(a, b, procs, faulty);
  }
}
