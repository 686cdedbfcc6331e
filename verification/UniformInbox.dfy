/** What a node buffers while it has no inner instance: exactly what came in that time and whose epoch it has not
    cleared, so nothing of its next epoch is lost before the new instance starts. */
module UniformInbox {
  import opened Common
  import opened EpochInstance
  import opened UniformNode
  import opened UniformSystem

  /** Packet id came to p while it had no instance, and p has not cleared epoch e since. */
  predicate Waits(s: Sys, p: PID, e: int, id: nat) {
    (p, id) in s.held && id < |s.sent| && s.sent[id].msg.epoch == e
  }

  /** The inbox holds what waits and nothing else, under its own epoch and as it was sent. */
  ghost predicate InboxExact(s: Sys, p: PID)
    requires p in s.nodes
  {
    && (forall e, id: nat :: id in Buffered(s.nodes[p].inbox, e) <==> Waits(s, p, e, id))
    && (forall e, id: nat | Waits(s, p, e, id) ::
          id in Buffered(s.nodes[p].inbox, e) && Buffered(s.nodes[p].inbox, e)[id] == s.sent[id])
  }

  ghost predicate AllExact(s: Sys) {
    && (forall x | x in s.held :: x.1 < |s.sent|)
    && forall p | p in s.nodes :: InboxExact(s, p)
  }

  /** Everything outside p's inbox, and what was sent before, is as it was. */
  ghost predicate SameElsewhere(s: Sys, s': Sys, p: PID) {
    && s.sent <= s'.sent && s'.nodes.Keys == s.nodes.Keys
    && (forall q | q in s.nodes && q != p :: s'.nodes[q].inbox == s.nodes[q].inbox)
    && forall x: (PID, nat) | x.0 != p :: x in s'.held <==> x in s.held
  }

  lemma Untouched(s: Sys, s': Sys, p: PID, q: PID)
    requires AllExact(s) && SameElsewhere(s, s', p) && q in s.nodes
    requires q != p || (s'.nodes[q].inbox == s.nodes[q].inbox && forall x: (PID, nat) :: x in s'.held <==> x in s.held)
    ensures q in s'.nodes && InboxExact(s', q)
  {
    assert InboxExact(s, q);
    assert forall id: nat :: (q, id) in s'.held <==> (q, id) in s.held;
    forall e, id: nat ensures Waits(s', q, e, id) <==> Waits(s, q, e, id) {
      assert (q, id) in s.held ==> (q, id).1 < |s.sent|;
    }
  }

  lemma PushedExactly(b: Inbox, epoch: int, id: nat, k: Packet, e: int, j: nat)
    ensures j in Buffered(Push(b, epoch, id, k), e) <==> j in Buffered(b, e) || (e == epoch && j == id)
    ensures j in Buffered(b, e) ==> Buffered(Push(b, epoch, id, k), e)[j] == Buffered(b, e)[j]
    ensures e == epoch && j == id && j !in Buffered(b, e) ==> Buffered(Push(b, epoch, id, k), e)[j] == k
  {
  }

  lemma ReceiveExact(c: Config, s: Sys, p: PID, id: nat)
    requires AllExact(s) && Enabled(c, s, Receive(p, id)) && !s.nodes[p].inner
    ensures InboxExact(Do(c, s, Receive(p, id)), p)
  {
    var s', k := Do(c, s, Receive(p, id)), s.sent[id];
    assert InboxExact(s, p);
    forall e, j: nat
      ensures j in Buffered(s'.nodes[p].inbox, e) <==> Waits(s', p, e, j)
      ensures Waits(s', p, e, j) ==>
                j in Buffered(s'.nodes[p].inbox, e) && Buffered(s'.nodes[p].inbox, e)[j] == s'.sent[j]
    {
      PushedExactly(s.nodes[p].inbox, k.msg.epoch, id, k, e, j);
      assert Waits(s', p, e, j) <==> Waits(s, p, e, j) || (e == k.msg.epoch && j == id);
    }
  }

  lemma ClearExact(c: Config, s: Sys, p: PID, a: AbortedState, order: seq<nat>)
    requires AllExact(s) && Enabled(c, s, TakeAborted(p, a, order))
    ensures InboxExact(Do(c, s, TakeAborted(p, a, order)), p)
  {
    hide DeliverAll, IsDelivery, Start;
    var s' := Do(c, s, TakeAborted(p, a, order));
    assert InboxExact(s, p);
    assert s'.nodes[p].inbox == Clear(s.nodes[p].inbox, a.ts) && s'.sent == s.sent && s'.held == Uncleared(s, p, a.ts);
    forall e, j: nat
      ensures j in Buffered(s'.nodes[p].inbox, e) <==> Waits(s', p, e, j)
      ensures Waits(s', p, e, j) ==>
                j in Buffered(s'.nodes[p].inbox, e) && Buffered(s'.nodes[p].inbox, e)[j] == s'.sent[j]
    {
      assert Waits(s', p, e, j) <==> Waits(s, p, e, j) && e != a.ts;
      assert Buffered(s'.nodes[p].inbox, e) == if e == a.ts then map[] else Buffered(s.nodes[p].inbox, e);
    }
  }

  lemma StepElsewhere(c: Config, s: Sys, t: Step)
    requires Enabled(c, s, t)
    ensures SameElsewhere(s, Do(c, s, t), t.p)
    ensures !t.TakeAborted? && !(t.Receive? && !s.nodes[t.p].inner) ==>
              Do(c, s, t).nodes[t.p].inbox == s.nodes[t.p].inbox && Do(c, s, t).held == s.held
    ensures forall x | x in Do(c, s, t).held :: x in s.held || (t.Receive? && x.1 == t.id)
  {
    hide DeliverAll, DeliverTo, Take, IsDelivery, Push, Clear, Start, Enqueue, CancelInner;
  }

  lemma StepExact(c: Config, s: Sys, t: Step)
    requires AllExact(s) && Enabled(c, s, t)
    ensures AllExact(Do(c, s, t))
  {
    hide InboxExact, Do;
    StepElsewhere(c, s, t);
    var s' := Do(c, s, t);
    assert t.Receive? ==> t.id < |s.sent|;
    forall p | p in s'.nodes ensures InboxExact(s', p) {
      if p == t.p && t.TakeAborted? {
        ClearExact(c, s, p, t.a, t.order);
      } else if p == t.p && t.Receive? && !s.nodes[p].inner {
        ReceiveExact(c, s, p, t.id);
      } else {
        Untouched(s, s', t.p, p);
      }
    }
  }

  /** In every run: a node's inbox holds exactly the packets that came to it while it had no inner instance and whose
      epoch it has not cleared since. */
  lemma {:induction false} BufferedExactly(c: Config, run: seq<Sys>, i: nat)
    requires IsRun(c, run) && i < |run|
    ensures AllExact(run[i])
  {
    hide AllExact, Do, Enabled;
    if i == 0 {
      InitExact(c);
    } else {
      BufferedExactly(c, run, i - 1);
      assert Next(c, run[i - 1], run[i - 1 + 1]);
      var t :| Enabled(c, run[i - 1], t) && run[i] == Do(c, run[i - 1], t);
      StepExact(c, run[i - 1], t);
    }
  }

  lemma InitExact(c: Config)
    ensures AllExact(Init(c))
  {
  }

  /** ... and the new instance is offered all of them that belong to its epoch. */
  lemma NextEpochOffered(c: Config, run: seq<Sys>, i: nat, p: PID, id: nat)
    requires IsRun(c, run) && i < |run| && p in run[i].nodes
    ensures Waits(run[i], p, run[i].nodes[p].newTs, id) <==>
              id in Buffered(run[i].nodes[p].inbox, run[i].nodes[p].newTs)
    ensures Waits(run[i], p, run[i].nodes[p].newTs, id) ==>
              Buffered(run[i].nodes[p].inbox, run[i].nodes[p].newTs)[id] == run[i].sent[id]
  {
    hide IsRun;
    BufferedExactly(c, run, i);
    assert InboxExact(run[i], p);
  }
}
