/** The Byzantine epoch changer: as a value, as an object, and accuracy of the group. */
module ByzantineEpochChange {
  import opened Common

  /** The leader the rotating detector computes for an epoch. */
  type Selector = nat -> PID

  /** started: epochs given to the starter. */
  datatype Changer = Changer(last: nat, next: nat, trusted: PID, newEpoches: set<PID>, faults: nat, started: seq<nat>)

  /** After Init; nobody is trusted yet, the first leader is still on its way through the channel. */
  function NewChanger(faults: nat): Changer { Changer(1, 1, 0, {}, faults, []) }

  /** The option is the epoch of a NEWEPOCH broadcast. */
  function CheckComplaint(ch: Changer, selector: Selector): (Changer, Option<nat>) {
    if ch.next == ch.last && ch.trusted != selector(ch.last)
    then (ch.(next := ch.last + 1), Some(ch.last + 1))
    else (ch, None)
  }

  function CheckQuorums(ch: Changer): (Changer, Option<nat>) {
    var count := |ch.newEpoches|;
    var joins := count > ch.faults && ch.next == ch.last;
    var ch1 := if joins then ch.(next := ch.last + 1) else ch;
    (if count > 2 * ch.faults && ch1.next > ch1.last
     then ch1.(last := ch1.next, newEpoches := {}, started := ch1.started + [ch1.next]) else ch1,
     if joins then Some(ch.last + 1) else None)
  }

  /** The loop's turns; a NEWEPOCH that is not for the next epoch skips the rest of its turn. */
  datatype Input = Trusted(leader: PID) | NewEpoch(from: PID, epoch: nat)

  datatype Check = Complaint | Quorums

  function Take(ch: Changer, i: Input): (Changer, seq<Check>) {
    match i
    case Trusted(leader) => (ch.(trusted := leader), [Complaint, Complaint, Quorums])
    case NewEpoch(from, epoch) =>
      if epoch != ch.last + 1 then (ch, [])
      else (ch.(newEpoches := ch.newEpoches + {from}), [Quorums, Complaint, Quorums])
  }

  function Perform(ch: Changer, k: Check, selector: Selector): (Changer, Option<nat>) {
    if k.Complaint? then CheckComplaint(ch, selector) else CheckQuorums(ch)
  }

  /** A turn's checks one after another, and the epochs they broadcast. */
  function PerformAll(ch: Changer, ks: seq<Check>, selector: Selector): (Changer, seq<nat>) {
    if ks == [] then (ch, [])
    else
      var (ch1, sent1) := PerformAll(ch, ks[..|ks| - 1], selector);
      var (ch2, out) := Perform(ch1, ks[|ks| - 1], selector);
      (ch2, sent1 + if out.Some? then [out.value] else [])
  }

  function Turn(ch: Changer, i: Input, selector: Selector): (Changer, seq<nat>) {
    var (ch1, ks) := Take(ch, i);
    PerformAll(ch1, ks, selector)
  }

  class EpochChanger {
    const faults: nat
    const selector: Selector
    var lastEpoch: nat
    var nextEpoch: nat
    var trusted: PID
    var newEpoches: set<PID>
    /** What was broadcast and started. */
    var sent: seq<nat>
    var started: seq<nat>

    ghost function View(): Changer
      reads this
    {
      Changer(lastEpoch, nextEpoch, trusted, newEpoches, faults, started)
    }

    constructor (faults: nat, selector: Selector)
      ensures View() == NewChanger(faults) && this.selector == selector && sent == []
    {
      this.faults, this.selector := faults, selector;
      lastEpoch, nextEpoch, trusted, newEpoches, sent, started := 1, 1, 0, {}, [], [];
    }

    method DoCheckComplaint()
      modifies this`nextEpoch, this`sent
      ensures var (ch, out) := CheckComplaint(old(View()), selector);
              View() == ch && sent == old(sent) + if out.Some? then [out.value] else []
    {
      var curLeader := selector(lastEpoch);
      if nextEpoch == lastEpoch && trusted != curLeader {
        nextEpoch := lastEpoch + 1;
        sent := sent + [nextEpoch];
      }
    }

    method DoCheckQuorums()
      modifies this`nextEpoch, this`lastEpoch, this`newEpoches, this`sent, this`started
      ensures var (ch, out) := CheckQuorums(old(View()));
              View() == ch && sent == old(sent) + if out.Some? then [out.value] else []
    {
      var count := |newEpoches|;
      if count > faults && nextEpoch == lastEpoch {
        nextEpoch := lastEpoch + 1;
        sent := sent + [nextEpoch];
      }
      if count > 2 * faults && nextEpoch > lastEpoch {
        lastEpoch := nextEpoch;
        newEpoches := {};
        started := started + [lastEpoch];
      }
    }

    /** One turn of the background loop. */
    method Background(i: Input)
      modifies this
      ensures var (ch, out) := Turn(old(View()), i, selector);
              View() == ch && sent == old(sent) + out
    {
      ghost var ch0 := Take(old(View()), i).0;
      match i {
        case Trusted(leader) =>
          trusted := leader;
          DoCheckComplaint();
          ThreeChecks(ch0, Complaint, Complaint, Quorums, selector);
        case NewEpoch(from, epoch) =>
          if epoch != lastEpoch + 1 { return; }
          newEpoches := newEpoches + {from};
          DoCheckQuorums();
          ThreeChecks(ch0, Quorums, Complaint, Quorums, selector);
      }
      DoCheckComplaint();
      DoCheckQuorums();
    }
  }

  lemma ThreeChecks(ch: Changer, a: Check, b: Check, k: Check, selector: Selector)
    ensures var (ch1, o1) := Perform(ch, a, selector);
            var (ch2, o2) := Perform(ch1, b, selector);
            var (ch3, o3) := Perform(ch2, k, selector);
            PerformAll(ch, [a, b, k], selector) ==
            (ch3, (if o1.Some? then [o1.value] else []) + (if o2.Some? then [o2.value] else []) + if o3.Some?
                then [o3.value] else [])
  {
    hide Perform;
    assert [a, b, k][..2] == [a, b] && [a, b][..1] == [a] && [a][..0] == [];
    assert PerformAll(ch, [], selector) == (ch, []);
    assert PerformAll(ch, [a], selector).0 == Perform(ch, a, selector).0;
    var o1 := Perform(ch, a, selector).1;
    assert PerformAll(ch, [a], selector).1 == if o1.Some? then [o1.value] else [];
  }

  // ---- The group ----

  datatype Config = Config(procs: set<PID>, byz: set<PID>, f: nat, selector: Selector)

  ghost predicate ValidConfig(c: Config) {
    c.byz <= c.procs && |c.byz| <= c.f
  }

  function Correct(c: Config): set<PID> { c.procs - c.byz }

  datatype Packet = Packet(from: PID, to: PID, epoch: nat)

  /** Histories: wrong, the correct members that trusted a leader other than the epoch's when they had dealt with an
      input in that epoch; heard, whose NEWEPOCHs for the epoch after its own a member has received. */
  datatype Sys = Sys(nodes: map<PID, Changer>, sent: set<Packet>, wrong: set<(PID, nat)>,
                     heard: map<(PID, nat), set<PID>>)

  function Heard(s: Sys, p: PID, e: nat): set<PID> {
    if (p, e) in s.heard then s.heard[(p, e)] else {}
  }

  /** Inputs the loop deals with: all but NEWEPOCHs for another epoch than the next. */
  predicate DealtWith(ch: Changer, i: Input) { i.NewEpoch? ==> i.epoch == ch.last + 1 }

  /** Detect: p's leader detector announces a leader, which may be any process at any time. */
  datatype Step =
    | Detect(p: PID, leader: PID)
    | Forge(k: Packet)
    | Receive(k: Packet)

  ghost function Start(c: Config): Sys {
    Sys(map p | p in Correct(c) :: NewChanger(c.f), {}, {}, map[])
  }

  function ToAll(procs: set<PID>, from: PID, epochs: seq<nat>): set<Packet> {
    set p, e | p in procs && e in epochs :: Packet(from, p, e)
  }

  predicate Enabled(c: Config, s: Sys, t: Step) {
    match t
    case Detect(p, _) => p in s.nodes
    case Forge(k) => k.from in c.byz && k.to in c.procs
    case Receive(k) => k in s.sent && k.to in s.nodes
  }

  function At(c: Config, s: Sys, p: PID, i: Input): Sys
    requires p in s.nodes
  {
    var (ch, out) := Turn(s.nodes[p], i, c.selector);
    s.(nodes := s.nodes[p := ch], sent := s.sent + ToAll(c.procs, p, out),
       wrong := if DealtWith(s.nodes[p], i) && ch.trusted != c.selector(ch.last) then s.wrong + {(p, ch.last)}
                else s.wrong,
       heard := if i.NewEpoch? && DealtWith(s.nodes[p], i) then s.heard[(p, i.epoch) := Heard(s, p, i.epoch) + {i.from}]
                else s.heard)
  }

  function Do(c: Config, s: Sys, t: Step): Sys
    requires Enabled(c, s, t)
  {
    match t
    case Detect(p, leader) => At(c, s, p, Trusted(leader))
    case Forge(k) => s.(sent := s.sent + {k})
    case Receive(k) => At(c, s, k.to, NewEpoch(k.from, k.epoch))
  }

  ghost predicate Next(c: Config, s: Sys, s': Sys) {
    exists t :: Enabled(c, s, t) && s' == Do(c, s, t)
  }

  ghost predicate IsRun(c: Config, run: seq<Sys>) {
    && run != [] && run[0] == Start(c)
    && forall i | 0 <= i < |run| - 1 :: Next(c, run[i], run[i + 1])
  }

  // ---- A turn as a whole ----

  /** Between turns: at most one more epoch is under way, it is if more than f ask for it, and 2f have asked at most. */
  predicate Settled(ch: Changer) {
    && (ch.next == ch.last || ch.next == ch.last + 1)
    && (|ch.newEpoches| > ch.faults ==> ch.next == ch.last + 1) && |ch.newEpoches| <= 2 * ch.faults
  }

  lemma TrustedTurn(ch: Changer, leader: PID, selector: Selector)
    requires Settled(ch)
    ensures var asks := ch.next == ch.last && leader != selector(ch.last);
            Turn(ch, Trusted(leader), selector)
            == (ch.(trusted := leader, next := if asks then ch.last + 1 else ch.next), if asks then [ch.last + 1]
                else [])
  {
    var ch0 := ch.(trusted := leader);
    ThreeChecks(ch0, Complaint, Complaint, Quorums, selector);
    var (ch1, o1) := CheckComplaint(ch0, selector);
    assert CheckComplaint(ch1, selector) == (ch1, None) && CheckQuorums(ch1) == (ch1, None);
    hide PerformAll;
    var none: seq<nat> := [];
    assert [ch.last + 1] + none + none == [ch.last + 1] && none + none + none == none;
  }

  /** The turn of a NEWEPOCH that is not enough to start the epoch. */
  lemma CountingTurn(ch: Changer, from: PID, selector: Selector)
    requires Settled(ch) && |ch.newEpoches + {from}| <= 2 * ch.faults
    ensures var more := ch.newEpoches + {from};
            var asks := ch.next == ch.last && (|more| > ch.faults || ch.trusted != selector(ch.last));
            Turn(ch, NewEpoch(from, ch.last + 1), selector)
            == (ch.(newEpoches := more, next := if asks then ch.last + 1 else ch.next), if asks then [ch.last + 1]
                else [])
  {
    var ch0 := ch.(newEpoches := ch.newEpoches + {from});
    ThreeChecks(ch0, Quorums, Complaint, Quorums, selector);
    var (ch1, o1) := CheckQuorums(ch0);
    var (ch2, o2) := CheckComplaint(ch1, selector);
    assert CheckQuorums(ch2) == (ch2, None) && (o1.None? || o2.None?);
    hide PerformAll;
    var none: seq<nat>, x := [], [ch.last + 1];
    assert x + none + none == x && none + x + none == x && none + none + none == none;
  }

  /** The turn of the NEWEPOCH that starts the epoch; the new epoch's leader is looked at right away. */
  lemma StartingTurn(ch: Changer, from: PID, selector: Selector)
    requires Settled(ch) && |ch.newEpoches + {from}| > 2 * ch.faults
    ensures var e := ch.last + 1;
            var asks := ch.trusted != selector(e);
            Turn(ch, NewEpoch(from, e), selector)
            == (ch.(last := e, next := if asks then e + 1 else e, newEpoches := {}, started := ch.started + [e]),
                (if ch.next == ch.last then [e] else []) + if asks then [e + 1] else [])
  {
    var e, ch0 := ch.last + 1, ch.(newEpoches := ch.newEpoches + {from});
    ThreeChecks(ch0, Quorums, Complaint, Quorums, selector);
    var (ch1, o1) := CheckQuorums(ch0);
    assert ch1 == ch.(last := e, next := e, newEpoches := {}, started := ch.started + [e]);
    var (ch2, o2) := CheckComplaint(ch1, selector);
    assert CheckQuorums(ch2) == (ch2, None);
    hide PerformAll;
    var x, y := if o1.Some? then [o1.value] else [], if o2.Some? then [o2.value] else [];
    assert x + y + [] == x + y;
  }

  lemma SkippedTurn(ch: Changer, from: PID, epoch: nat, selector: Selector)
    requires epoch != ch.last + 1
    ensures Turn(ch, NewEpoch(from, epoch), selector) == (ch, [])
  {
    assert PerformAll(ch, [], selector) == (ch, []);
  }

  // ---- Invariant ----

  /** The reasons to ask for the epoch after e: the wrong leader trusted in e, or more than f others who ask. */
  predicate Moved(c: Config, s: Sys, p: PID, e: nat) {
    (p, e) in s.wrong || |Heard(s, p, e + 1)| > c.f
  }

  predicate Asks(c: Config, s: Sys, p: PID, e: nat) {
    if Moved(c, s, p, e) then ToAll(c.procs, p, [e + 1]) <= s.sent
    else forall k | k in s.sent :: !(k.from == p && k.epoch == e + 1)
  }

  ghost predicate Tracks(c: Config, s: Sys, p: PID)
    requires p in s.nodes
  {
    var ch := s.nodes[p];
    && ch.faults == c.f && ch.last >= 1 && ch.newEpoches == Heard(s, p, ch.last + 1) && |ch.newEpoches| <= 2 * c.f
    && ch.next == (if Moved(c, s, p, ch.last) then ch.last + 1 else ch.last)
    && ch.started == Epochs(ch.last)
    && (forall e: nat | e > ch.last :: Unreached(s, p, e))
    && (forall e: nat :: Asks(c, s, p, e))
    && (forall e: nat | 1 <= e < ch.last :: Outvoted(c, s, p, e))
  }

  /** 2, 3, ..., last */
  function Epochs(last: nat): seq<nat> {
    if last <= 1 then [] else Epochs(last - 1) + [last]
  }

  predicate Unreached(s: Sys, p: PID, e: nat) { Heard(s, p, e + 1) == {} && (p, e) !in s.wrong }

  predicate Outvoted(c: Config, s: Sys, p: PID, e: nat) { |Heard(s, p, e + 1)| > 2 * c.f }

  lemma {:induction false} EpochsAre(last: nat)
    requires last >= 1
    ensures |Epochs(last)| == last - 1 && forall i | 0 <= i < last - 1 :: Epochs(last)[i] == i + 2
  {
    if last > 1 { EpochsAre(last - 1); }
  }

  /** Some correct member trusted another leader than the epoch's in epoch e. */
  ghost predicate Genuine(c: Config, s: Sys, e: nat) {
    exists g :: g in Correct(c) && (g, e) in s.wrong
  }

  ghost predicate HeardSent(c: Config, s: Sys) {
    && (forall k | k in s.sent :: k.from in c.procs)
    && forall p, e: nat, q | q in Heard(s, p, e) :: Packet(q, p, e) in s.sent
  }

  ghost predicate Inv(c: Config, s: Sys) {
    && s.nodes.Keys == Correct(c) && HeardSent(c, s)
    && (forall p | p in s.nodes :: Tracks(c, s, p))
    && forall p, e: nat | p in Correct(c) && Moved(c, s, p, e) :: Genuine(c, s, e)
  }

  lemma NodeSettled(c: Config, s: Sys, p: PID)
    requires p in s.nodes && Tracks(c, s, p)
    ensures Settled(s.nodes[p])
  {
  }

  /** What others do is of no concern. */
  lemma OthersTrack(c: Config, s: Sys, s': Sys, p: PID)
    requires p in s.nodes && p in s'.nodes && Tracks(c, s, p) && s'.nodes[p] == s.nodes[p]
    requires forall e: nat :: Heard(s', p, e) == Heard(s, p, e) && ((p, e) in s'.wrong <==> (p, e) in s.wrong)
    requires s.sent <= s'.sent && forall k | k in s'.sent && k !in s.sent :: k.from != p
    ensures Tracks(c, s', p)
  {
    forall e: nat ensures Asks(c, s', p, e) && Unreached(s', p, e) == Unreached(s, p, e)
                          && Outvoted(c, s', p, e) == Outvoted(c, s, p, e) {
      assert Asks(c, s, p, e);
    }
    assert Moved(c, s', p, s.nodes[p].last) == Moved(c, s, p, s.nodes[p].last);
  }

  /** The facts about p epoch by epoch are enough. */
  lemma Assembled(c: Config, s: Sys, p: PID)
    requires p in s.nodes && s.nodes[p].faults == c.f && s.nodes[p].last >= 1
    requires s.nodes[p].newEpoches == Heard(s, p, s.nodes[p].last + 1) && |s.nodes[p].newEpoches| <= 2 * c.f
    requires s.nodes[p].next == (if Moved(c, s, p, s.nodes[p].last) then s.nodes[p].last + 1 else s.nodes[p].last)
    requires s.nodes[p].started == Epochs(s.nodes[p].last)
    requires forall e: nat ::
               Asks(c, s, p, e) && (e > s.nodes[p].last ==> Unreached(s, p, e))
               && (1 <= e < s.nodes[p].last ==> Outvoted(c, s, p, e))
    ensures Tracks(c, s, p)
  {
    hide Asks, Unreached, Outvoted, Heard, Moved;
  }

  lemma HeardAfter(c: Config, s: Sys, p: PID, i: Input, q: PID, e: nat)
    requires p in s.nodes
    ensures Heard(At(c, s, p, i), q, e)
            == if i.NewEpoch? && DealtWith(s.nodes[p], i) && q == p && e == i.epoch then Heard(s, p, e) + {i.from}
               else Heard(s, q, e)
  {
    hide Turn;
  }

  /** What has been sent afterwards: everything in out, to everybody. */
  lemma AsksAfter(c: Config, s: Sys, s': Sys, p: PID, out: seq<nat>, e: nat)
    requires Asks(c, s, p, e) && s'.sent == s.sent + ToAll(c.procs, p, out)
    requires Moved(c, s', p, e) <==> Moved(c, s, p, e) || e + 1 in out
    ensures Asks(c, s', p, e)
  {
    if e + 1 in out {
      assert ToAll(c.procs, p, [e + 1]) <= ToAll(c.procs, p, out);
    }
  }

  lemma TrustedTracks(c: Config, s: Sys, p: PID, leader: PID)
    requires p in s.nodes && Tracks(c, s, p)
    ensures Tracks(c, At(c, s, p, Trusted(leader)), p)
  {
    NodeSettled(c, s, p);
    TrustedTurn(s.nodes[p], leader, c.selector);
    var s' := At(c, s, p, Trusted(leader));
    hide Turn;
    forall e: nat ensures Heard(s', p, e) == Heard(s, p, e) { HeardAfter(c, s, p, Trusted(leader), p, e); }
    var out := Turn(s.nodes[p], Trusted(leader), c.selector).1;
    forall e: nat
      ensures Asks(c, s', p, e) && (e > s'.nodes[p].last ==> Unreached(s', p, e))
              && (1 <= e < s'.nodes[p].last ==> Outvoted(c, s', p, e))
    {
      assert e > s.nodes[p].last ==> Unreached(s, p, e);
      assert 1 <= e < s.nodes[p].last ==> Outvoted(c, s, p, e);
      assert Asks(c, s, p, e);
      assert e + 1 in out <==> out != [] && e == s.nodes[p].last;
      AlreadyAsked(c, s, s', p, out, e);
    }
    Assembled(c, s', p);
  }

  /** Whoever has reason to ask twice asks once. */
  lemma AlreadyAsked(c: Config, s: Sys, s': Sys, p: PID, out: seq<nat>, e: nat)
    requires Asks(c, s, p, e) && s'.sent == s.sent + ToAll(c.procs, p, out)
    requires Moved(c, s, p, e) || e + 1 in out ==> Moved(c, s', p, e)
    requires Moved(c, s', p, e) ==> Moved(c, s, p, e) || e + 1 in out
    ensures Asks(c, s', p, e)
  {
    AsksAfter(c, s, s', p, out, e);
  }

  lemma CountingTracks(c: Config, s: Sys, p: PID, from: PID)
    requires p in s.nodes && Tracks(c, s, p) && |s.nodes[p].newEpoches + {from}| <= 2 * c.f
    ensures Tracks(c, At(c, s, p, NewEpoch(from, s.nodes[p].last + 1)), p)
  {
    var ch, i := s.nodes[p], NewEpoch(from, s.nodes[p].last + 1);
    NodeSettled(c, s, p);
    CountingTurn(ch, from, c.selector);
    var s', out := At(c, s, p, i), Turn(ch, i, c.selector).1;
    hide Turn;
    forall e: nat ensures Heard(s', p, e) == if e == ch.last + 1 then Heard(s, p, e) + {from} else Heard(s, p, e) {
      HeardAfter(c, s, p, i, p, e);
    }
    CardGrows(ch.newEpoches, from);
    forall e: nat
      ensures Asks(c, s', p, e) && (e > s'.nodes[p].last ==> Unreached(s', p, e))
              && (1 <= e < s'.nodes[p].last ==> Outvoted(c, s', p, e))
    {
      assert e > s.nodes[p].last ==> Unreached(s, p, e);
      assert 1 <= e < s.nodes[p].last ==> Outvoted(c, s, p, e);
      assert Asks(c, s, p, e);
      assert e + 1 in out <==> out != [] && e == ch.last;
      AlreadyAsked(c, s, s', p, out, e);
    }
    Assembled(c, s', p);
  }

  lemma CardGrows(a: set<PID>, x: PID)
    ensures |a| <= |a + {x}| <= |a| + 1
  {
    SubsetCard(a, a + {x});
    if x in a { assert a + {x} == a; }
  }

  lemma StartingTracks(c: Config, s: Sys, p: PID, from: PID)
    requires p in s.nodes && Tracks(c, s, p) && |s.nodes[p].newEpoches + {from}| > 2 * c.f
    ensures Tracks(c, At(c, s, p, NewEpoch(from, s.nodes[p].last + 1)), p)
  {
    var ch, i := s.nodes[p], NewEpoch(from, s.nodes[p].last + 1);
    NodeSettled(c, s, p);
    StartingTurn(ch, from, c.selector);
    var s', out := At(c, s, p, i), Turn(ch, i, c.selector).1;
    hide Turn;
    forall e: nat ensures Heard(s', p, e) == if e == ch.last + 1 then Heard(s, p, e) + {from} else Heard(s, p, e) {
      HeardAfter(c, s, p, i, p, e);
    }
    assert Unreached(s, p, ch.last + 1);
    assert Heard(s', p, ch.last + 2) == {};
    CardGrows(ch.newEpoches, from);
    forall e: nat
      ensures Asks(c, s', p, e) && (e > s'.nodes[p].last ==> Unreached(s', p, e))
              && (1 <= e < s'.nodes[p].last ==> Outvoted(c, s', p, e))
    {
      assert e > s.nodes[p].last ==> Unreached(s, p, e);
      assert 1 <= e < s.nodes[p].last ==> Outvoted(c, s, p, e);
      assert Asks(c, s, p, e);
      assert e + 1 in out <==> (e == ch.last && ch.next == ch.last)
                               || (e == ch.last + 1 && ch.trusted != c.selector(ch.last + 1));
      AlreadyAsked(c, s, s', p, out, e);
    }
    Assembled(c, s', p);
  }

  lemma InputTracks(c: Config, s: Sys, p: PID, i: Input)
    requires p in s.nodes && Tracks(c, s, p)
    ensures Tracks(c, At(c, s, p, i), p)
  {
    hide Tracks, At;
    match i
    case Trusted(leader) => TrustedTracks(c, s, p, leader);
    case NewEpoch(from, epoch) =>
      if epoch != s.nodes[p].last + 1 {
        SkippedTracks(c, s, p, from, epoch);
      } else if |s.nodes[p].newEpoches + {from}| <= 2 * c.f {
        CountingTracks(c, s, p, from);
      } else {
        StartingTracks(c, s, p, from);
      }
  }

  lemma SkippedTracks(c: Config, s: Sys, p: PID, from: PID, epoch: nat)
    requires p in s.nodes && Tracks(c, s, p) && epoch != s.nodes[p].last + 1
    ensures Tracks(c, At(c, s, p, NewEpoch(from, epoch)), p)
  {
    SkippedTurn(s.nodes[p], from, epoch, c.selector);
    var s' := At(c, s, p, NewEpoch(from, epoch));
    forall e: nat ensures Heard(s', p, e) == Heard(s, p, e) { HeardAfter(c, s, p, NewEpoch(from, epoch), p, e); }
    hide Turn;
    assert s'.sent == s.sent;
    OthersTrack(c, s, s', p);
  }

  /** An input at p leaves the others alone, and its reasons to ask can be traced to a correct member. */
  lemma AtKeeps(c: Config, s: Sys, p: PID, i: Input)
    requires ValidConfig(c) && Inv(c, s) && p in s.nodes
    requires i.NewEpoch? ==> Packet(i.from, p, i.epoch) in s.sent
    ensures Inv(c, At(c, s, p, i))
  {
    hide Tracks, Turn;
    var s' := At(c, s, p, i);
    forall q, e: nat
      ensures Heard(s', q, e)
              == if i.NewEpoch? && DealtWith(s.nodes[p], i) && q == p && e == i.epoch then Heard(s, p, e) + {i.from}
                 else Heard(s, q, e)
    {
      HeardAfter(c, s, p, i, q, e);
    }
    forall q | q in s'.nodes ensures Tracks(c, s', q) {
      if q == p { InputTracks(c, s, p, i); } else { OthersTrack(c, s, s', q); }
    }
    forall q, e: nat | q in Correct(c) && Moved(c, s', q, e) ensures Genuine(c, s', e) {
      MovedGenuine(c, s, p, i, q, e);
    }
  }

  lemma MovedGenuine(c: Config, s: Sys, p: PID, i: Input, q: PID, e: nat)
    requires ValidConfig(c) && Inv(c, s) && p in s.nodes && q in Correct(c) && Moved(c, At(c, s, p, i), q, e)
    requires i.NewEpoch? ==> Packet(i.from, p, i.epoch) in s.sent
    ensures Genuine(c, At(c, s, p, i), e)
  {
    hide Tracks, Turn;
    var s' := At(c, s, p, i);
    HeardAfter(c, s, p, i, q, e + 1);
    if (q, e) in s'.wrong {
      assert Genuine(c, s', e);
    } else {
      forall r | r in Heard(s', q, e + 1) ensures Packet(r, q, e + 1) in s.sent && r in c.procs {
        assert r in Heard(s, q, e + 1) || (r == i.from && q == p && i.epoch == e + 1);
      }
      var r := OneOutside(Heard(s', q, e + 1), c.byz);
      assert Packet(r, q, e + 1) in s.sent && r in s.nodes;
      AskedMoved(c, s, r, e);
      GenuineStays(c, s, s', e);
    }
  }

  lemma AskedMoved(c: Config, s: Sys, r: PID, e: nat)
    requires Inv(c, s) && r in s.nodes && exists k :: k in s.sent && k.from == r && k.epoch == e + 1
    ensures Genuine(c, s, e)
  {
    assert Tracks(c, s, r);
    assert Asks(c, s, r, e);
    assert Moved(c, s, r, e);
  }

  lemma GenuineStays(c: Config, s: Sys, s': Sys, e: nat)
    requires Genuine(c, s, e) && s.wrong <= s'.wrong
    ensures Genuine(c, s', e)
  {
    var g :| g in Correct(c) && (g, e) in s.wrong;
    assert (g, e) in s'.wrong;
  }

  lemma ForgeKeeps(c: Config, s: Sys, k: Packet)
    requires ValidConfig(c) && Inv(c, s) && Enabled(c, s, Forge(k))
    ensures Inv(c, Do(c, s, Forge(k)))
  {
    hide Tracks;
    var s' := Do(c, s, Forge(k));
    forall q | q in s'.nodes ensures Tracks(c, s', q) { OthersTrack(c, s, s', q); }
    forall q, e: nat | q in Correct(c) && Moved(c, s', q, e) ensures Genuine(c, s', e) {
      assert Moved(c, s, q, e);
      GenuineStays(c, s, s', e);
    }
  }

  lemma StepInv(c: Config, s: Sys, t: Step)
    requires ValidConfig(c) && Inv(c, s) && Enabled(c, s, t)
    ensures Inv(c, Do(c, s, t))
  {
    hide Inv, At;
    match t
    case Detect(p, leader) => AtKeeps(c, s, p, Trusted(leader));
    case Receive(k) => AtKeeps(c, s, k.to, NewEpoch(k.from, k.epoch));
    case Forge(k) => ForgeKeeps(c, s, k);
  }

  lemma {:induction false} RunInv(c: Config, run: seq<Sys>, i: nat)
    requires ValidConfig(c) && IsRun(c, run) && i < |run|
    ensures Inv(c, run[i])
  {
    hide Inv, Do, Enabled;
    if i == 0 {
      StartInv(c);
    } else {
      RunInv(c, run, i - 1);
      assert Next(c, run[i - 1], run[i - 1 + 1]);
      var t :| Enabled(c, run[i - 1], t) && run[i] == Do(c, run[i - 1], t);
      StepInv(c, run[i - 1], t);
    }
  }

  lemma StartInv(c: Config)
    ensures Inv(c, Start(c))
  {
  }

  // ---- The theorems ----

  /** Accuracy: a correct member has left epoch e only if some correct member trusted another leader than epoch e's
      while in e; epochs are started in order, each once, and at most one more is under way. */
  lemma Accuracy(c: Config, run: seq<Sys>, i: nat, p: PID, e: nat)
    requires ValidConfig(c) && IsRun(c, run) && i < |run| && p in Correct(c)
    ensures p in run[i].nodes
    ensures 1 <= e < run[i].nodes[p].last ==> exists g :: g in Correct(c) && (g, e) in run[i].wrong
    ensures run[i].nodes[p].last >= 1 && run[i].nodes[p].next in {run[i].nodes[p].last, run[i].nodes[p].last + 1}
    ensures |run[i].nodes[p].started| == run[i].nodes[p].last - 1
    ensures forall j | 0 <= j < run[i].nodes[p].last - 1 :: run[i].nodes[p].started[j] == j + 2
  {
    hide IsRun;
    RunInv(c, run, i);
    assert Tracks(c, run[i], p);
    EpochsAre(run[i].nodes[p].last);
    if 1 <= e < run[i].nodes[p].last {
      assert Outvoted(c, run[i], p, e);
      assert Moved(c, run[i], p, e);
      assert Genuine(c, run[i], e);
    }
  }

  /** In every run a correct member has asked everybody for the epoch after e exactly if it trusted another leader than
      e's when it had dealt with an input in e, or more than f members have asked it while it was in e; otherwise it has
      asked nobody. */
  lemma AsksExactly(c: Config, run: seq<Sys>, i: nat, p: PID, e: nat)
    requires ValidConfig(c) && IsRun(c, run) && i < |run| && p in Correct(c)
    ensures (p, e) in run[i].wrong || |Heard(run[i], p, e + 1)| > c.f ==>
              forall q | q in c.procs :: Packet(p, q, e + 1) in run[i].sent
    ensures !((p, e) in run[i].wrong || |Heard(run[i], p, e + 1)| > c.f) ==>
              forall k | k in run[i].sent :: !(k.from == p && k.epoch == e + 1)
  {
    hide IsRun;
    RunInv(c, run, i);
    assert Tracks(c, run[i], p);
    assert Asks(c, run[i], p, e);
    if Moved(c, run[i], p, e) {
      forall q | q in c.procs ensures Packet(p, q, e + 1) in run[i].sent {
        assert Packet(p, q, e + 1) in ToAll(c.procs, p, [e + 1]);
      }
    }
  }

  /** In every run a correct member has started the epoch after e exactly if more than 2f members have asked it while it
      was in e. */
  lemma StartsExactly(c: Config, run: seq<Sys>, i: nat, p: PID, e: nat)
    requires ValidConfig(c) && IsRun(c, run) && i < |run| && p in Correct(c) && e >= 1
    ensures p in run[i].nodes
    ensures e + 1 in run[i].nodes[p].started <==> |Heard(run[i], p, e + 1)| > 2 * c.f
    ensures e < run[i].nodes[p].last <==> e + 1 in run[i].nodes[p].started
  {
    hide IsRun;
    RunInv(c, run, i);
    assert Tracks(c, run[i], p);
    var last, started := run[i].nodes[p].last, run[i].nodes[p].started;
    EpochsAre(last);
    if e < last {
      assert started[e - 1] == e + 1;
      assert Outvoted(c, run[i], p, e);
    } else if e > last {
      assert Unreached(run[i], p, e);
    }
  }

  lemma EpochsByOne(c: Config, run: seq<Sys>, i: nat, p: PID)
    requires ValidConfig(c) && IsRun(c, run) && i + 1 < |run| && p in Correct(c)
    ensures p in run[i].nodes && p in run[i + 1].nodes
    ensures run[i].nodes[p].last <= run[i + 1].nodes[p].last <= run[i].nodes[p].last + 1
  {
    hide Turn;
    RunInv(c, run, i);
    assert Next(c, run[i], run[i + 1]);
    var t :| Enabled(c, run[i], t) && run[i + 1] == Do(c, run[i], t);
    assert Tracks(c, run[i], p);
    match t
    case Detect(q, leader) => TurnByOne(c, run[i], q, Trusted(leader));
    case Receive(k) => TurnByOne(c, run[i], k.to, NewEpoch(k.from, k.epoch));
    case Forge(_) =>
  }

  /** A turn changes the epoch by at most one. */
  lemma TurnByOne(c: Config, s: Sys, p: PID, i: Input)
    requires Inv(c, s) && p in s.nodes
    ensures s.nodes[p].last <= Turn(s.nodes[p], i, c.selector).0.last <= s.nodes[p].last + 1
  {
    var ch := s.nodes[p];
    assert Tracks(c, s, p);
    NodeSettled(c, s, p);
    hide Turn;
    match i
    case Trusted(leader) => TrustedTurn(ch, leader, c.selector);
    case NewEpoch(from, epoch) =>
      if epoch != ch.last + 1 {
        SkippedTurn(ch, from, epoch, c.selector);
      } else if |ch.newEpoches + {from}| <= 2 * ch.faults {
        CountingTurn(ch, from, c.selector);
      } else {
        StartingTurn(ch, from, c.selector);
      }
  }

  /** Before the first leader arrives, a single NEWEPOCH for epoch 2 makes a fresh changer ask for it too, unless
      process 0 happens to lead epoch 1. */
  lemma EarlyNewEpoch(f: nat, from: PID, selector: Selector)
    requires f >= 1
    ensures Turn(NewChanger(f), NewEpoch(from, 2), selector).1 == if selector(1) != 0 then [2] else []
    ensures Turn(NewChanger(f), NewEpoch(from, 2), selector).0.last == 1
  {
    assert {} + {from} == {from} && |{from}| == 1;
    CountingTurn(NewChanger(f), from, selector);
  }
}
