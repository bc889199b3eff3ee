/** What inputs come to, said on the fields of the queue and the session alone. */
module SendOutcomes {
  import opened Protocol
  import opened PacketIds
  import opened SendModel
  import opened SendInvariant
  import opened SendActions
  import opened SendSteps
  import opened SendTheorems
  import opened SendAcks
  import opened SendEffects
  import opened SendFreed
  import opened SendCallbacks

  // ----- which acknowledgements are acted on

  /** Nothing but timeouts, and transmissions at QoS 0, made publishes leave. */
  ghost predicate OnlyTimeouts(s: Sched, r: Sched) {
    && s.exits <= r.exits
    && forall k :: |s.exits| <= k < |r.exits| ==> r.exits[k].status.TimedOut? || r.exits[k].status.Sent?
  }

  lemma ForceResendTimeouts(s: Sched, t: Sched, i: nat)
    requires OnlyTimeouts(s, t) && i < |t.ops|
    ensures OnlyTimeouts(s, ForceResend(t, i))
  {
    if !t.ops[i].paused && IsExhausted(t.ops[i]) {
      var g := RemoveAt(t, i, TimedOut);
      assert OnlyTimeouts(s, g);
      SettleExits(g);
      assert ForceResend(t, i).exits == if t.disconnecting then g.exits else Settle(g).exits;
    }
  }

  lemma SweepTimeouts(s: Sched, uid: nat)
    ensures OnlyTimeouts(s, ResendUntil(s, 0, uid))
  {
    forall t: Sched, j: nat | OnlyTimeouts(s, t) && j < |t.ops| ensures OnlyTimeouts(s, ForceResend(t, j)) {
      ForceResendTimeouts(s, t, j);
    }
    SweepKeeps(s, 0, uid, t => OnlyTimeouts(s, t));
  }

  /** Publish `i` left first, and not by a timeout. */
  lemma EndedIsTaken(s: Sched, r: Sched, i: nat, st: Status)
    requires i < |s.ops| && !st.TimedOut? && !st.Sent? && s.exits + [Exit(s.ops[i].uid, st)] <= r.exits
    ensures !OnlyTimeouts(s, r)
  {
    assert r.exits[|s.exits|] == Exit(s.ops[i].uid, st);
  }

  lemma ViolationTaken(s: Sched, i: nat)
    requires i < |s.ops|
    ensures s.exits + [Exit(s.ops[i].uid, ProtocolError)] <= Violation(s, i).exits
  {
    CallbacksReverseExits(s, i, ProtocolError);
    var r := Complete(s, i, ProtocolError);
    var q := r.(wire := r.wire + [Disconnect]);
    AbortGrows(q.(connected := false, disconnecting := true, initialized := false), BrokerDisconnected);
  }

  lemma AckedIsTaken(s: Sched, i: nat)
    requires i < |s.ops| && !s.ops[i].acked
    ensures !SameAcks(s, AckAt(s, i))
  {
    assert AckAt(s, i).ops[i].uid == s.ops[i].uid;
  }

  lemma TurnTaken(s: Sched, e: Input, i: nat)
    requires IsAck(e) && i == Find(s.ops, e.id) < |s.ops| && TurnHasCome(s, e, i)
    ensures !(SameAcks(s, Next(s, e)) && OnlyTimeouts(s, Next(s, e)))
  {
    if Continues(e, s.ops[i]) {
      AckedIsTaken(s, i);
    } else if Finishes(e, s.ops[i]) {
      CallbacksReverseExits(s, i, FinalStatus(e));
      EndedIsTaken(s, Next(s, e), i, FinalStatus(e));
    } else if e.InPubrec? && s.ops[i].qos == 2 && !s.ops[i].acked && e.wellFormed {
      CallbacksReverseExits(s, i, Refused);
      EndedIsTaken(s, Next(s, e), i, Refused);
    } else {
      ViolationTaken(s, i);
      EndedIsTaken(s, Next(s, e), i, ProtocolError);
    }
  }

  /** An acknowledgement is acted on if and only if the turn of its publish has come;
      any other changes no acknowledged flag and makes nothing leave but by timeouts. */
  lemma AckTakenIff(s: Sched, e: Input)
    requires Reachable(s) && IsAck(e) && Find(s.ops, e.id) < |s.ops|
    ensures TurnHasCome(s, e, Find(s.ops, e.id)) <==> !(SameAcks(s, Next(s, e)) && OnlyTimeouts(s, Next(s, e)))
  {
    var i := Find(s.ops, e.id);
    if TurnHasCome(s, e, i) {
      TurnTaken(s, e, i);
    } else {
      ReachableQueue(s);
      OutOfTurnIs(s, e, e.id);
      SweepSameAcks(s, 0, s.ops[i].uid);
      SweepTimeouts(s, s.ops[i].uid);
    }
  }

  /** An acknowledgement nobody waits for is ignored, but for a PUBREC, which is
      answered with its identifier. */
  lemma UnknownAck(s: Sched, e: Input)
    requires IsAck(e) && forall i :: 0 <= i < |s.ops| ==> s.ops[i].packetId != e.id
    ensures Next(s, e) == if e.InPubrec? then s.(wire := s.wire + [PubrelUnknown(e.id)]) else s
  {
    assert Find(s.ops, e.id) == |s.ops|;
  }

  /** An acknowledgement in turn that its publish cannot be given. */
  predicate Violates(e: Input, o: SendOp)
    requires IsAck(e)
  {
    || !e.wellFormed
    || (e.InPuback? && o.qos != 1)
    || (e.InPubrec? && (o.qos != 2 || o.acked))
    || (e.InPubcomp? && (o.qos != 2 || !o.acked))
  }

  lemma {:induction false} AbortWire(s: Sched, st: Status)
    requires s.disconnecting
    ensures AbortAll(s, st).wire == s.wire && AbortAll(s, st).disconnecting && AbortAll(s, st).connected == s.connected
    decreases |s.ops|
  {
    if s.ops != [] {
      AbortWire(Complete(s, 0, st), st);
    }
  }

  /** It ends its publish with a protocol error, sends DISCONNECT last, and takes the
      connection down. */
  lemma ViolationEnds(s: Sched, e: Input)
    requires Reachable(s) && IsAck(e) && Find(s.ops, e.id) < |s.ops|
    requires TurnHasCome(s, e, Find(s.ops, e.id)) && Violates(e, s.ops[Find(s.ops, e.id)])
    ensures var r := Next(s, e);
            && s.exits + [Exit(s.ops[Find(s.ops, e.id)].uid, ProtocolError)] <= r.exits
            && !r.connected && r.disconnecting
            && r.wire != [] && r.wire[|r.wire| - 1] == Disconnect
  {
    var i := Find(s.ops, e.id);
    ViolationTaken(s, i);
    var r := Complete(s, i, ProtocolError);
    var q := r.(wire := r.wire + [Disconnect]);
    AbortWire(q.(connected := false, disconnecting := true, initialized := false), BrokerDisconnected);
    assert Next(s, e) == Violation(s, i);
  }

  // ----- sessions

  lemma QuietLeave(s: Sched, st: Status)
    requires Queue(s) && s.ops != [] && (s.disconnecting || s.limit == 0)
    ensures var c := Complete(s, 0, st); var e := Exit(s.ops[0].uid, st);
            && Queue(c) && c.disconnecting == s.disconnecting && c.limit == s.limit
            && c.wire == s.wire && c.ops == s.ops[1..]
            && c.exits == s.exits + [e] && c.reports == s.reports + [e]
  {
    CompleteTidy(s, 0, st);
    RemoveQueue(s, 0, st);
    var g := RemoveAt(s, 0, st);
    if !s.disconnecting {
      ZeroLimitStuck(g);
      StuckDrain(g);
    }
  }

  /** Every pending publish ended, in order, and nothing was sent. */
  ghost predicate AllEnded(s: Sched, r: Sched, st: Status) {
    && r.ops == [] && r.wire == s.wire
    && r.exits == s.exits + ExitsOf(s.ops, st) && r.reports == s.reports + ExitsOf(s.ops, st)
  }

  lemma {:induction false} AbortQuiet(s: Sched, st: Status)
    requires Queue(s) && (s.disconnecting || s.limit == 0)
    ensures AllEnded(s, AbortAll(s, st), st)
    decreases |s.ops|
  {
    if s.ops != [] {
      var c := Complete(s, 0, st);
      QuietLeave(s, st);
      AbortQuiet(c, st);
      ExitsCons(s.exits, s.ops, c.ops, st);
      ExitsCons(s.reports, s.ops, c.ops, st);
    }
  }

  /** When the session expires every pending publish ends, in order, and nothing is sent. */
  lemma ExpiryEndsAll(s: Sched)
    requires Reachable(s) && !s.connected
    ensures AllEnded(s, Next(s, InExpiry), BrokerDisconnected)
  {
    assert AllEnded(s, OnExpiry(s), BrokerDisconnected) by {
      DownEnds(s, BrokerDisconnected);
    }
  }

  lemma DownEnds(s: Sched, st: Status)
    requires Reachable(s) && !s.connected
    ensures AllEnded(s, AbortAll(s, st), st)
  {
    DownIsQuiet(s);
    AbortQuiet(s, st);
  }

  lemma DownIsQuiet(s: Sched)
    requires Reachable(s) && !s.connected
    ensures Queue(s) && (s.disconnecting || s.limit == 0)
  {
    ReachableInv(s);
  }

  /** Without a connection, and for a publish that is not in flight, inputs that need
      one change nothing; neither does preparing to connect once that is done. */
  lemma Ignored(s: Sched, qos: Qos, total: nat, uid: nat)
    requires Reachable(s)
    ensures !s.connected ==> Next(s, InPublish(qos, total)) == s && Next(s, InTimeout(uid)) == s
    ensures (forall i :: 0 <= i < s.inFlight <= |s.ops| ==> s.ops[i].uid != uid) ==> Next(s, InTimeout(uid)) == s
    ensures (forall i :: 0 <= i < |s.ops| ==> s.ops[i].uid != uid) ==> Next(s, InCancel(uid)) == s
    ensures s.initialized ==> Next(s, InPrepareConnect) == s
  {
    ReachableQueue(s);
    var i := FindUid(s.ops, uid);
    if i < |s.ops| {
      InFlightIff(s, i);
    }
  }

  /** After the loss of a connection the client can be connected again: preparation
      and CONNACK bring it up with the limit granted, and the pending publishes
      survived exactly if the CONNACK before had a session to keep. */
  lemma Reconnects(s: Sched, limit: nat, keep: bool, st: Status, again: nat)
    requires Reachable(s) && Enabled(s, InConnack(true, limit, keep)) && Enabled(s, InDrop(st)) && again > 0
    ensures var up := Next(s, InConnack(true, limit, keep));
            var down := Next(up, InDrop(st)); var ready := Next(down, InPrepareConnect);
            && up.connected && up.limit == limit
            && !down.connected && ready.ops == (if keep then up.ops else [])
            && Enabled(ready, InConnack(true, again, keep))
            && Next(ready, InConnack(true, again, keep)).connected
            && Next(ready, InConnack(true, again, keep)).limit == again
  {
    var up := OnConnack(s, true, limit, keep);
    ConnackFlags(s, limit, keep);
    DropReady(up, st);
    ConnackFlags(OnPrepareConnect(Drop(up, st)), again, keep);
  }

  lemma DropReady(s: Sched, st: Status)
    ensures var ready := OnPrepareConnect(Drop(s, st));
            && !Drop(s, st).connected && ready.ops == (if s.keepSession then s.ops else [])
            && ready.initialized && !ready.connected && !ready.disconnecting
  {
    var down := s.(connected := false, disconnecting := true, initialized := false);
    AbortEndsAll(down, st);
    AbortSession(down, st);
  }

  lemma {:induction false} SettleSession(s: Sched)
    ensures SameSession(s, Settle(s))
    decreases |s.ops| - s.inFlight
  {
    if CanResume(s) {
      SettleSession(ResumeOne(s));
    }
  }

  lemma ConnackFlags(s: Sched, limit: nat, keep: bool)
    ensures var r := OnConnack(s, true, limit, keep);
            && r.connected && r.limit == limit && r.keepSession == keep
            && r.initialized == s.initialized && r.disconnecting == s.disconnecting
  {
    var up := s.(connected := true, limit := limit, keepSession := keep);
    SettleSession(up.(ops := Redelivered(s.ops, |s.ops|), wire := s.wire + RedeliveryPackets(s.ops)));
  }

  lemma {:induction false} AbortSession(s: Sched, st: Status)
    requires s.disconnecting
    ensures SameSession(s, AbortAll(s, st))
    decreases |s.ops|
  {
    if s.ops != [] {
      AbortSession(Complete(s, 0, st), st);
    }
  }

  // ----- a publish as it was submitted

  /** The publish joined the end of the queue with its number, QoS and attempts; if it
      was sent, one PUBLISH without DUP is on the wire. */
  ghost predicate Stored(s: Sched, r: Sched, qos: Qos, total: nat) {
    && |r.ops| == |s.ops| + 1 && r.ops[..|s.ops|] == s.ops && r.exits == s.exits
    && var o := r.ops[|s.ops|];
       && o.uid == s.nextUid && o.qos == qos && o.total == total && !o.acked
       && if o.paused then r.wire == s.wire
          else r.wire == s.wire + [Publish(o.uid, o.packetId, qos, false, First)] && o.published && o.attempts == 1
  }

  /** The publish was of QoS 0, went out and left. */
  ghost predicate PassedThrough(s: Sched, r: Sched) {
    && r.ops == s.ops && r.exits == s.exits + [Exit(s.nextUid, Sent)]
    && r.wire == s.wire + [Publish(s.nextUid, 0, 0, false, First)]
  }

  lemma PublishStored(s: Sched, qos: Qos, total: nat)
    requires Reachable(s) && s.connected && total > 0
    ensures var r := Next(s, InPublish(qos, total));
            Stored(s, r, qos, total) || (qos == 0 && PassedThrough(s, r))
  {
    ReachableFresh(s);
    if qos == 0 && CanSend(Submitted(s, qos, total), |s.ops|) {
      SentThroughStuck(s);
      CompleteSentThrough(s, total);
    } else {
      assert Stored(s, Next(s, InPublish(qos, total)), qos, total);
    }
  }

  /** A publish above QoS 0 gets an identifier of its own if there is room for one and
      one is free between the start point of the search and 65535. */
  lemma PublishIdentified(s: Sched, qos: Qos, total: nat, x: nat)
    requires Reachable(s) && s.connected && total > 0 && qos > 0
    requires |s.pool.ids| < s.pool.capacity && |s.pool.ids| < 65535
    requires SearchStart(s.pool.last) <= x <= 65535 && x !in s.pool.ids
    ensures var r := Next(s, InPublish(qos, total));
            && |r.ops| == |s.ops| + 1 && r.ops[|s.ops|].packetId != 0 && r.ops[|s.ops|].packetId in r.pool.ids
            && forall i :: 0 <= i < |s.ops| ==> s.ops[i].packetId != r.ops[|s.ops|].packetId
  {
    PublishStored(s, qos, total);
    ReachableInv(s);
    AllocSucceeds(s.pool, x);
    var id := Alloc(s.pool).1;
    forall i | 0 <= i < |s.ops| ensures s.ops[i].packetId != id {
      assert Holds(s.ops, s.ops[i].packetId);
    }
  }

  // ----- response timeouts, one after the other

  function Copies(p: Packet, k: nat): (r: seq<Packet>)
    ensures |r| == k
  {
    seq(k, i requires 0 <= i < k => p)
  }

  function Again(e: Input, k: nat): seq<Input> {
    if k == 0 then [] else Again(e, k - 1) + [e]
  }

  /** `t` is `s` after `k` repetitions of the packet of publish `i`. */
  ghost predicate Repeated(s: Sched, t: Sched, i: nat, k: nat)
    requires i < |s.ops|
  {
    && t.connected == s.connected && t.inFlight == s.inFlight && |t.ops| == |s.ops| && t.exits == s.exits
    && t.ops[i].uid == s.ops[i].uid && t.ops[i].total == s.ops[i].total
    && t.ops[i].attempts == s.ops[i].attempts + k
    && t.wire == s.wire + Copies(Resent(s.ops[i], Retry), k)
    && Resent(t.ops[i], Retry) == Resent(s.ops[i], Retry)
  }

  lemma RepeatedOnce(s: Sched, t: Sched, i: nat, k: nat)
    requires i < |s.ops| && Repeated(s, t, i, k)
    ensures Repeated(s, Retransmit(t, i, Retry), i, k + 1)
  {
    var p := Resent(s.ops[i], Retry);
    assert Copies(p, k) + [p] == Copies(p, k + 1);
    assert s.wire + Copies(p, k) + [p] == s.wire + (Copies(p, k) + [p]);
  }

  /** Response timeouts of publish `i` repeat its packet as long as attempts are left. */
  lemma {:induction false} TimeoutsRepeat(s: Sched, i: nat, k: nat)
    requires Reachable(s) && s.connected && i < s.inFlight <= |s.ops| && s.ops[i].attempts + k <= s.ops[i].total
    ensures var es := Again(InTimeout(s.ops[i].uid), k);
            Possible(s, es) && Reachable(Run(s, es)) && Repeated(s, Run(s, es), i, k)
  {
    if k == 0 {
      assert s.wire + [] == s.wire;
    } else {
      var e := InTimeout(s.ops[i].uid);
      TimeoutsRepeat(s, i, k - 1);
      var t := Run(s, Again(e, k - 1));
      RunExtend(s, Again(e, k - 1), e);
      ReachableNext(t, e);
      OneMoreTimeout(t, i);
      RepeatedOnce(s, t, i, k - 1);
    }
  }

  lemma OneMoreTimeout(s: Sched, i: nat)
    requires Reachable(s) && s.connected && i < s.inFlight <= |s.ops| && s.ops[i].attempts < s.ops[i].total
    ensures Next(s, InTimeout(s.ops[i].uid)) == Retransmit(s, i, Retry)
  {
    ReachableQueue(s);
    InFlightIff(s, i);
    UidFound(s, i);
  }

  /** A publish above QoS 0 that was sent when submitted with `total` attempts: each of
      its first `total - 1` response timeouts repeats the PUBLISH with DUP, and one
      more ends it. */
  lemma AttemptsAreSpent(s: Sched, qos: Qos, total: nat, k: nat)
    requires Reachable(s) && s.connected && qos > 0 && k < total
    requires var r := Next(s, InPublish(qos, total)); r.ops != [] && r.ops[|r.ops| - 1].published
    ensures var r := Next(s, InPublish(qos, total)); var o := r.ops[|r.ops| - 1];
            var es := Again(InTimeout(s.nextUid), k); var t := Run(r, es);
            && Possible(r, es) && o.uid == s.nextUid && t.exits == s.exits
            && t.wire == r.wire + Copies(Publish(o.uid, o.packetId, qos, true, Retry), k)
            && (k == total - 1 ==> Exit(s.nextUid, TimedOut) in Next(t, InTimeout(s.nextUid)).exits)
  {
    var r := Next(s, InPublish(qos, total));
    var i := |s.ops|;
    PublishStored(s, qos, total);
    ReachableNext(s, InPublish(qos, total));
    PublishedInFlight(r, i);
    TimeoutsRepeat(r, i, k);
    var t := Run(r, Again(InTimeout(s.nextUid), k));
    if k == total - 1 {
      LastTimeout(t, i);
    }
  }

  lemma PublishedInFlight(r: Sched, i: nat)
    requires Reachable(r) && i < |r.ops| && r.ops[i].published
    ensures i < r.inFlight <= |r.ops| && !r.ops[i].paused
  {
    ReachableQueue(r);
    InFlightIff(r, i);
  }

  lemma LastTimeout(t: Sched, i: nat)
    requires Reachable(t) && t.connected && i < t.inFlight <= |t.ops| && t.ops[i].attempts == t.ops[i].total
    ensures Exit(t.ops[i].uid, TimedOut) in Next(t, InTimeout(t.ops[i].uid)).exits
  {
    ReachableQueue(t);
    InFlightIff(t, i);
    UidFound(t, i);
    CallbacksReverseExits(t, i, TimedOut);
    var r := Complete(t, i, TimedOut);
    assert r.exits[|t.exits|] == Exit(t.ops[i].uid, TimedOut);
  }
}
