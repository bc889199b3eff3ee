/** How often a publish is transmitted over its whole life. */
module SendLifetime {
  import opened Protocol
  import opened SendModel
  import opened SendInvariant
  import opened SendActions
  import opened SendSteps
  import opened SendTurns
  import opened SendTheorems
  import opened SendAcks
  import opened SendEffects

  /** In each phase, transmissions not made by a reconnection stay within `total`. */
  ghost predicate Spent(h: seq<Packet>, total: nat) {
    forall rel :: Transmissions(h, rel) <= total + Redeliveries(h, rel)
  }

  /** What is claimed of publish `u`, and what it takes to go on claiming it while
      it is pending. */
  ghost predicate Bound(s: Sched, u: nat, total: nat) {
    var h := History(s.wire, u);
    && u < s.nextUid && Spent(h, total)
    && forall i :: 0 <= i < |s.ops| && s.ops[i].uid == u ==> s.ops[i].total <= total && Accounted(h, s.ops[i])
  }

  ghost predicate Alive(s: Sched, u: nat, total: nat) {
    Tidy(s) && Bound(s, u, total)
  }

  // ----- one action

  lemma RemoveBound(s: Sched, i: nat, st: Status, u: nat, total: nat)
    requires Bound(s, u, total) && i < |s.ops|
    ensures Bound(RemoveAt(s, i, st), u, total)
  {
  }

  lemma EmitBound(s: Sched, i: nat, o: SendOp, p: Packet, n: nat, u: nat, total: nat)
    requires Bound(s, u, total) && Numbered(s) && i < |s.ops|
    requires o.uid == s.ops[i].uid && o.total == s.ops[i].total && About(p, o.uid)
    requires var h := History(s.wire, u); o.uid == u ==> Spent(h + [p], total) && Accounted(h + [p], o)
    ensures Bound(Emit(s, i, o, p, n), u, total)
  {
    PushWire(s.wire, p);
    var r := Emit(s, i, o, p, n);
    forall j | 0 <= j < |r.ops| && r.ops[j].uid == u
      ensures r.ops[j].total <= total && Accounted(History(r.wire, u), r.ops[j])
    {
      if j != i {
        assert s.ops[j].uid != o.uid;
      }
    }
  }

  lemma SendBound(s: Sched, u: nat, total: nat)
    requires Queue(s) && Bound(s, u, total) && s.inFlight < |s.ops|
    ensures Bound(SendAt(s, s.inFlight), u, total)
  {
    var i := s.inFlight;
    var o := s.ops[i].(paused := false, published := true, attempts := 1);
    var p := Publish(o.uid, o.packetId, o.qos, o.dup, First);
    assert WaitingOp(s.ordering, s.ops[i]);
    PushTransmission([], p);
    assert [] + [p] == [p];
    EmitBound(s, i, o, p, i + 1, u, total);
  }

  lemma ResentSpent(h: seq<Packet>, o: SendOp, cause: Cause, total: nat)
    requires !o.paused && Accounted(h, o) && Spent(h, total) && o.total <= total
    requires cause.Reconnect? || (cause.Retry? && o.attempts < o.total)
    ensures Spent(h + [Resent(o, cause)], total)
  {
    PushTransmission(h, Resent(o, cause));
  }

  lemma RetransmitBound(s: Sched, i: nat, cause: Cause, u: nat, total: nat)
    requires Numbered(s) && Bound(s, u, total) && i < |s.ops| && !s.ops[i].paused
    requires cause.Reconnect? || (cause.Retry? && s.ops[i].attempts < s.ops[i].total)
    ensures Bound(Retransmit(s, i, cause), u, total)
  {
    var o := s.ops[i];
    var h := History(s.wire, u);
    if o.uid == u {
      assert Accounted(h, o);
      ResentCounted(h, o, cause);
      ResentSpent(h, o, cause, total);
    }
    EmitBound(s, i, Again(o, cause), Resent(o, cause), s.inFlight, u, total);
    assert Retransmit(s, i, cause) == Emit(s, i, Again(o, cause), Resent(o, cause), s.inFlight);
  }

  lemma AckBound(s: Sched, i: nat, u: nat, total: nat)
    requires Numbered(s) && Bound(s, u, total) && i < |s.ops| && InFlightOp(s.ops[i]) && !s.ops[i].acked
    ensures Bound(AckAt(s, i), u, total)
  {
    var o := s.ops[i];
    var p := Pubrel(o.uid, o.packetId, First);
    var h := History(s.wire, u);
    if o.uid == u {
      assert Accounted(h, o);
      PushTransmission(h, p);
      RedeliveriesAreTransmissions(h);
    }
    EmitBound(s, i, o.(acked := true, attempts := 1), p, s.inFlight, u, total);
  }

  /** Whatever leaves the pending publish `u` and its packets alone. */
  lemma FrameBound(s: Sched, t: Sched, u: nat, total: nat)
    requires Bound(s, u, total) && t.ops == s.ops && t.wire == s.wire && s.nextUid <= t.nextUid
    ensures Bound(t, u, total)
  {
  }

  lemma ForeignBound(s: Sched, t: Sched, p: Packet, u: nat, total: nat)
    requires Bound(s, u, total) && t.wire == s.wire + [p] && !About(p, u) && s.nextUid <= t.nextUid
    requires forall i :: 0 <= i < |t.ops| && t.ops[i].uid == u ==> i < |s.ops| && t.ops[i] == s.ops[i]
    ensures Bound(t, u, total)
  {
    PushWire(s.wire, p);
  }

  lemma ResumeBound(s: Sched, u: nat, total: nat)
    requires Queue(s) && CanResume(s) && Bound(s, u, total)
    ensures Bound(ResumeOne(s), u, total)
  {
    SendBound(s, u, total);
    RemoveBound(SendAt(s, s.inFlight), s.inFlight, Sent, u, total);
  }

  lemma ActionQueue(s: Sched, a: Action)
    requires Queue(s) && Can(s, a)
    ensures Queue(Do(s, a))
  {
    match a
    case Leaves(i, st) => RemoveQueue(s, i, st);
    case Resumes => ResumeOneQueue(s);
    case Resends(i, cause) =>
      InFlightIff(s, i);
      RetransmitQueue(s, i, cause);
    case Releases(i) =>
      InFlightIff(s, i);
      AckQueue(s, i);
    case Notes(p) =>
    case Turns(t) =>
  }

  lemma ActionBound(s: Sched, a: Action, u: nat, total: nat)
    requires Queue(s) && Bound(s, u, total) && Can(s, a)
    ensures Bound(Do(s, a), u, total)
  {
    match a
    case Leaves(i, st) => RemoveBound(s, i, st, u, total);
    case Resumes => ResumeBound(s, u, total);
    case Resends(i, cause) =>
      InFlightIff(s, i);
      RetransmitBound(s, i, cause, u, total);
    case Releases(i) =>
      InFlightIff(s, i);
      AckBound(s, i, u, total);
    case Notes(p) => ForeignBound(s, Do(s, a), p, u, total);
    case Turns(t) => FrameBound(s, t, u, total);
  }

  // ----- inputs

  /** A new publish is none of `u`'s business. */
  lemma OtherPublished(s: Sched, qos: Qos, more: nat, u: nat, total: nat)
    requires Alive(s, u, total)
    ensures Bound(OnPublish(s, qos, more), u, total)
  {
    if s.connected && !s.disconnecting {
      var t := Submitted(s, qos, more);
      var i := |s.ops|;
      var sent := SendAt(t, i);
      assert forall j :: 0 <= j < i ==> t.ops[j] == s.ops[j];
      if !CanSend(t, i) {
        assert Bound(PauseLast(t), u, total);
      } else if qos > 0 {
        ForeignBound(s, sent, sent.wire[|s.wire|], u, total);
      } else {
        SentThroughStuck(s);
        CompleteSentThrough(s, more);
        ForeignBound(s, SentAndReported(s), Publish(s.nextUid, 0, 0, false, First), u, total);
      }
    }
  }

  lemma BoundClosed(u: nat, total: nat)
    ensures Closed(t => Queue(t) && Bound(t, u, total))
  {
    forall t: Sched, a: Action | Queue(t) && Bound(t, u, total) && Can(t, a)
      ensures Queue(Do(t, a)) && Bound(Do(t, a), u, total)
    {
      ActionQueue(t, a);
      ActionBound(t, a, u, total);
    }
  }

  lemma NextBound(s: Sched, e: Input, u: nat, total: nat)
    requires Alive(s, u, total)
    ensures Bound(Next(s, e), u, total)
  {
    if e.InPublish? {
      OtherPublished(s, e.qos, e.total, u, total);
    } else {
      BoundClosed(u, total);
      FrameBound(s, Limited(s, e), u, total);
      NextActs(s, e, t => Queue(t) && Bound(t, u, total));
    }
  }

  lemma {:induction false} RunBound(s: Sched, es: seq<Input>, u: nat, total: nat)
    requires Inv(s) && Possible(s, es) && Bound(s, u, total)
    ensures Bound(Run(s, es), u, total)
    decreases |es|
  {
    if es != [] {
      NextBound(s, es[0], u, total);
      NextKeeps(s, es[0]);
      RunBound(Next(s, es[0]), es[1..], u, total);
    }
  }

  // ----- the whole life

  /** Publish `u` was just accepted with `total` attempts. */
  ghost predicate Born(r: Sched, u: nat, total: nat) {
    && r.nextUid == u + 1 && Spent(History(r.wire, u), total)
    && forall i :: 0 <= i < |r.ops| && r.ops[i].uid == u ==> r.ops[i].total == total
  }

  lemma BornPaused(s: Sched, qos: Qos, total: nat)
    requires Numbered(s) && History(s.wire, s.nextUid) == []
    ensures Born(PauseLast(Submitted(s, qos, total)), s.nextUid, total)
  {
    var r := PauseLast(Submitted(s, qos, total));
    assert forall j :: 0 <= j < |s.ops| ==> r.ops[j] == s.ops[j];
  }

  lemma SpentOnce(wire: seq<Packet>, p: Packet, u: nat, total: nat)
    requires History(wire, u) == [] && About(p, u) && total > 0
    ensures Spent(History(wire + [p], u), total)
  {
    PushWire(wire, p);
    assert [] + [p] == [p];
    PushTransmission([], p);
  }

  lemma BornSent(s: Sched, qos: Qos, total: nat)
    requires Numbered(s) && History(s.wire, s.nextUid) == [] && total > 0
    ensures Born(SendAt(Submitted(s, qos, total), |s.ops|), s.nextUid, total)
  {
    var t := Submitted(s, qos, total);
    assert forall j :: 0 <= j < |s.ops| ==> t.ops[j] == s.ops[j];
    SpentOnce(s.wire, Publish(s.nextUid, t.ops[|s.ops|].packetId, qos, false, First), s.nextUid, total);
  }

  lemma BornThrough(s: Sched, total: nat)
    requires Queue(s) && !s.disconnecting && !CanResume(s) && History(s.wire, s.nextUid) == [] && total > 0
    ensures var i := |s.ops|; Born(Complete(SendAt(Submitted(s, 0, total), i), i, Sent), s.nextUid, total)
  {
    SentThroughStuck(s);
    CompleteSentThrough(s, total);
    SpentOnce(s.wire, Publish(s.nextUid, 0, 0, false, First), s.nextUid, total);
  }

  lemma NewPublish(s: Sched, qos: Qos, total: nat)
    requires Reachable(s) && s.connected && total > 0
    ensures Born(OnPublish(s, qos, total), s.nextUid, total)
  {
    ReachableFresh(s);
    if !CanSend(Submitted(s, qos, total), |s.ops|) {
      BornPaused(s, qos, total);
    } else if qos > 0 {
      BornSent(s, qos, total);
    } else {
      BornThrough(s, total);
    }
  }

  lemma BornBound(r: Sched, u: nat, total: nat)
    requires Born(r, u, total) && Traffic(r)
    ensures Bound(r, u, total)
  {
  }

  /** From its submission on, whatever happens and whether it is pending or gone: a
      publish is transmitted at most as often as configured, in each phase, not
      counting the resends made by reconnections. */
  lemma LifetimeAttempts(s: Sched, qos: Qos, total: nat, es: seq<Input>)
    requires Reachable(s) && s.connected && total > 0 && Possible(Next(s, InPublish(qos, total)), es)
    ensures var h := History(Run(Next(s, InPublish(qos, total)), es).wire, s.nextUid);
            forall rel :: Transmissions(h, rel) <= total + Redeliveries(h, rel)
  {
    var r := Next(s, InPublish(qos, total));
    NewPublish(s, qos, total);
    ReachableNext(s, InPublish(qos, total));
    ReachableInv(r);
    BornBound(r, s.nextUid, total);
    RunBound(r, es, s.nextUid, total);
  }
}
