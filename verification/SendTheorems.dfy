/** What the publish scheduler guarantees over every run from start-up. */
module SendTheorems {
  import opened Protocol
  import opened PacketIds
  import opened SendModel
  import opened SendInvariant
  import opened SendActions
  import opened SendSteps
  import opened SendTurns

  /** The states the client can be in. */
  ghost predicate Reachable(s: Sched) {
    exists ordering, capacity: nat, es :: ReachedBy(s, ordering, capacity, es)
  }

  ghost predicate ReachedBy(s: Sched, ordering: Ordering, capacity: nat, es: seq<Input>) {
    Possible(Initial(ordering, capacity), es) && s == Run(Initial(ordering, capacity), es)
  }

  lemma ReachableInv(s: Sched)
    requires Reachable(s)
    ensures Inv(s)
  {
    var ordering, capacity: nat, es :| ReachedBy(s, ordering, capacity, es);
    InitialInv(ordering, capacity);
    RunKeeps(Initial(ordering, capacity), es);
  }

  lemma {:induction false} RunExtend(s: Sched, es: seq<Input>, e: Input)
    requires Possible(s, es) && Enabled(Run(s, es), e)
    ensures Possible(s, es + [e]) && Run(s, es + [e]) == Next(Run(s, es), e)
    decreases |es|
  {
    if es == [] {
      assert [] + [e] == [e] && [e][1..] == [];
    } else {
      RunExtend(Next(s, es[0]), es[1..], e);
      assert (es + [e])[1..] == es[1..] + [e];
    }
  }

  lemma ReachableNext(s: Sched, e: Input)
    requires Reachable(s) && Enabled(s, e)
    ensures Reachable(Next(s, e))
  {
    var ordering, capacity: nat, es :| ReachedBy(s, ordering, capacity, es);
    RunExtend(Initial(ordering, capacity), es, e);
    assert ReachedBy(Next(s, e), ordering, capacity, es + [e]);
  }

  lemma ReachableInitial(ordering: Ordering, capacity: nat)
    ensures Reachable(Initial(ordering, capacity))
  {
    assert ReachedBy(Initial(ordering, capacity), ordering, capacity, []);
  }

  // ----- the shape of the queue

  function PublishedCount(ops: seq<SendOp>): nat {
    if ops == [] then 0 else (if ops[0].published then 1 else 0) + PublishedCount(ops[1..])
  }

  function AckedPrefix(ops: seq<SendOp>): nat {
    if ops == [] || !ops[0].acked then 0 else 1 + AckedPrefix(ops[1..])
  }

  lemma {:induction false} AckedPrefixSplits(ops: seq<SendOp>)
    requires forall i, j :: 0 <= i < j < |ops| && ops[j].acked ==> ops[i].acked
    ensures AckedPrefix(ops) <= |ops|
    ensures forall i :: 0 <= i < |ops| ==> (ops[i].acked <==> i < AckedPrefix(ops))
  {
    if ops != [] && ops[0].acked {
      AckedPrefixSplits(ops[1..]);
      forall i | 0 <= i < |ops| ensures ops[i].acked <==> i < AckedPrefix(ops) {
        assert i > 0 ==> ops[i] == ops[1..][i - 1];
      }
    }
  }

  lemma {:induction false} PrefixCount(ops: seq<SendOp>, n: nat)
    requires n <= |ops|
    requires forall i :: 0 <= i < |ops| ==> (ops[i].published <==> i < n)
    ensures PublishedCount(ops) == n
  {
    if ops != [] {
      PrefixCount(ops[1..], if n > 0 then n - 1 else 0);
    }
  }

  /** In every reachable state the queue is: acknowledged, then published and
      unacknowledged, then paused; the in-flight counter counts the published
      ones; with full ordering QoS does not fall along them. */
  lemma QueueShape(s: Sched)
    requires Reachable(s)
    ensures AckedPrefix(s.ops) <= s.inFlight <= |s.ops|
    ensures forall i :: 0 <= i < |s.ops| ==>
              && (s.ops[i].acked <==> i < AckedPrefix(s.ops))
              && (s.ops[i].published <==> i < s.inFlight)
              && (s.ops[i].paused <==> s.inFlight <= i)
    ensures s.inFlight == PublishedCount(s.ops)
    ensures s.ordering.Full? ==> forall i, j :: 0 <= i < j < s.inFlight ==> s.ops[i].qos <= s.ops[j].qos
  {
    ReachableInv(s);
    AckedPrefixSplits(s.ops);
    AckedAreInFlight(s);
    forall i | 0 <= i < |s.ops|
      ensures (s.ops[i].published <==> i < s.inFlight) && (s.ops[i].paused <==> s.inFlight <= i)
    {
      InFlightIff(s, i);
    }
    PrefixCount(s.ops, s.inFlight);
  }

  lemma AckedAreInFlight(s: Sched)
    requires Queue(s)
    ensures AckedPrefix(s.ops) <= s.inFlight
  {
    AckedPrefixSplits(s.ops);
    assert s.inFlight < |s.ops| ==> WaitingOp(s.ordering, s.ops[s.inFlight]);
  }

  /** Looking at the one publish in front answers for all of them. */
  lemma OneNeighbourSuffices(s: Sched, i: nat)
    requires Reachable(s) && i < |s.ops|
    ensures HasPausedBefore(s.ops, i) <==> exists j :: 0 <= j < i && s.ops[j].paused
  {
    QueueShape(s);
  }

  /** While the connection is up the scheduler never idles: the first paused
      publish may not send, and with full ordering the head is not paused. */
  lemma WorkConserving(s: Sched)
    requires Reachable(s) && s.connected
    ensures s.inFlight < |s.ops| ==> s.ops[s.inFlight].paused && !CanSend(s, s.inFlight)
    ensures s.ordering.Full? && s.ops != [] ==> !s.ops[0].paused
    ensures s.ordering.SameQos? && s.inFlight < |s.ops| ==> s.limit <= s.inFlight
  {
    ReachableInv(s);
    if s.ops != [] {
      InFlightIff(s, 0);
    }
    if s.inFlight < |s.ops| {
      InFlightIff(s, s.inFlight);
    }
  }

  // ----- order

  /** First PUBLISH transmissions follow submission order: all of them with full
      ordering, those above QoS 0 with same-QoS ordering. */
  lemma FirstTransmissionsInOrder(s: Sched)
    requires Reachable(s)
    ensures Increasing(FirstSends(s.wire, s.ordering))
    ensures forall u: nat :: FirstSends(History(s.wire, u), Full) == if History(s.wire, u) == [] then [] else [u]
  {
    ReachableInv(s);
    forall u: nat ensures FirstSends(History(s.wire, u), Full) == if History(s.wire, u) == [] then [] else [u] {
      OneFirstSend(History(s.wire, u), u);
    }
  }

  lemma {:induction false} OneFirstSend(h: seq<Packet>, u: nat)
    requires WellFormed(h) && forall k :: 0 <= k < |h| ==> About(h[k], u)
    ensures FirstSends(h, Full) == if h == [] then [] else [u]
  {
    if |h| > 1 {
      var n := |h| - 1;
      assert Follows(h[0], h[n - 1], h[n]);
      assert WellFormed(h[..n]);
      OneFirstSend(h[..n], u);
    } else if |h| == 1 {
      assert h[..0] == [];
    }
  }

  /** With full ordering every delivery is of the oldest pending publish, so
      deliveries follow submission order whatever the QoS. */
  lemma FullOrderingIsFifo(s: Sched)
    requires Reachable(s) && s.ordering.Full?
    ensures Increasing(Delivered(s.exits))
    ensures forall k, i :: 0 <= k < |Delivered(s.exits)| && 0 <= i < |s.ops| ==> Delivered(s.exits)[k] < s.ops[i].uid
  {
    ReachableInv(s);
  }

  /** With either ordering, deliveries of equal QoS follow submission order. */
  lemma EqualQosIsFifo(s: Sched, st: Status)
    requires Reachable(s) && st.Delivered()
    ensures InOrderBy(s, st)
  {
    ReachableInv(s);
  }

  // ----- conservation

  /** Each accepted publish is pending, or has left exactly once; each that left
      was reported exactly once, unless the application cancelled it. */
  lemma Conservation(s: Sched, u: nat)
    requires Reachable(s)
    ensures u < s.nextUid ==> ExitCount(s.exits, u) == if Pending(s.ops, u) then 0 else 1
    ensures s.nextUid <= u ==> ExitCount(s.exits, u) == 0 && !Pending(s.ops, u)
    ensures multiset(s.reports) == multiset(Reportable(s.exits))
  {
    ReachableInv(s);
  }

  /** The identifiers in use are those of the pending publishes, each held once;
      only the reserved value 0 may be listed without a holder. */
  lemma IdentifiersMatchPending(s: Sched)
    requires Reachable(s)
    ensures ValidPool(s.pool)
    ensures forall id: nat :: id > 0 ==> (id in s.pool.ids <==> Holds(s.ops, id))
    ensures forall i, j :: 0 <= i < j < |s.ops| && s.ops[i].packetId == s.ops[j].packetId ==> s.ops[i].packetId == 0
  {
    ReachableInv(s);
  }

  // ----- retransmission accounting

  /** What any publish, pending or gone, put on the wire: one PUBLISH without
      DUP, later PUBLISHes with DUP and the same identifier, and no PUBLISH
      after a PUBREL. */
  lemma HistoryWellFormed(s: Sched, u: nat)
    requires Reachable(s)
    ensures var h := History(s.wire, u);
            && (forall k :: 0 <= k < |h| && h[k].Publish? ==> (h[k].dup <==> k > 0))
            && (forall j, k :: 0 <= j < k < |h| ==> h[j].packetId == h[k].packetId)
            && (forall j, k :: 0 <= j < k < |h| && h[j].Pubrel? ==> h[k].Pubrel?)
  {
    ReachableInv(s);
    HistoryOf(History(s.wire, u));
  }

  lemma {:induction false} HistoryOf(h: seq<Packet>)
    requires WellFormed(h)
    ensures forall k :: 0 <= k < |h| ==> h[k].Publish? || h[k].Pubrel?
    ensures forall k :: 0 <= k < |h| && h[k].Publish? ==> (h[k].dup <==> k > 0)
    ensures forall k :: 0 <= k < |h| ==> h[k].packetId == h[0].packetId
    ensures forall j, k :: 0 <= j < k < |h| && h[j].Pubrel? ==> h[k].Pubrel?
  {
    if |h| > 1 {
      var n := |h| - 1;
      assert Follows(h[0], h[n - 1], h[n]);
      forall k | 0 < k < n ensures Follows(h[..n][0], h[..n][k - 1], h[..n][k]) {
        assert Follows(h[0], h[k - 1], h[k]);
      }
      HistoryOf(h[..n]);
      assert forall k :: 0 <= k < n ==> h[..n][k] == h[k];
    }
  }

  /** Transmissions in the current phase of a pending publish are its attempts
      plus the resends made by reconnections, and attempts stay within bounds. */
  lemma AttemptsAccounted(s: Sched, i: nat)
    requires Reachable(s) && i < |s.ops|
    ensures var o := s.ops[i]; var h := History(s.wire, o.uid);
            && (o.paused ==> h == [])
            && (o.published ==>
                  && 1 <= o.attempts <= o.total
                  && Transmissions(h, o.acked) == o.attempts + Redeliveries(h, o.acked)
                  && h != [] && h[0].packetId == o.packetId)
  {
    ReachableInv(s);
    InFlightIff(s, i);
    assert Accounted(History(s.wire, s.ops[i].uid), s.ops[i]);
  }

  // ----- flow control

  function Max(a: nat, b: nat): nat {
    if a < b then b else a
  }

  function Min(a: nat, b: nat): nat {
    if a < b then a else b
  }

  predicate IsFirstHigh(p: Packet) {
    p.Publish? && p.cause.First? && p.qos > 0
  }

  /** Between `a` and `b` some publish above QoS 0 was transmitted for the first time. */
  ghost predicate SentFirst(a: Sched, b: Sched) {
    exists k :: |a.wire| <= k < |b.wire| && IsFirstHigh(b.wire[k])
  }

  /** From `a` to `b` under one limit: nothing is added beyond it, and after a
      first transmission above QoS 0 the window holds all that is in flight. */
  ghost predicate Paced(a: Sched, b: Sched) {
    && a.wire <= b.wire && b.limit == a.limit
    && b.inFlight <= Max(a.inFlight, a.limit)
    && (SentFirst(a, b) ==> b.inFlight <= b.limit)
  }

  lemma PacedTrans(a: Sched, b: Sched, c: Sched)
    requires Paced(a, b) && Paced(b, c)
    ensures Paced(a, c)
  {
    if SentFirst(a, c) && !SentFirst(b, c) {
      var k :| |a.wire| <= k < |c.wire| && IsFirstHigh(c.wire[k]);
      assert k < |b.wire| && b.wire[k] == c.wire[k];
      assert SentFirst(a, b);
    }
  }

  lemma ActionPaced(s: Sched, a: Action)
    requires Can(s, a)
    ensures Paced(s, Do(s, a))
  {
  }

  lemma PublishPaced(s: Sched, qos: Qos, total: nat)
    ensures Paced(s, OnPublish(s, qos, total))
  {
    if s.connected && !s.disconnecting {
      var t := Submitted(s, qos, total);
      var i := |s.ops|;
      if CanSend(t, i) && qos == 0 {
        var g := RemoveAt(SendAt(t, i), i, Sent);
        assert Paced(s, g);
        PacedClosed(s);
        DrainActs(g, t => Paced(s, t));
      }
    }
  }

  lemma PacedClosed(s: Sched)
    ensures Closed(t => Paced(s, t))
  {
    forall t: Sched, a: Action | Paced(s, t) && Can(t, a) ensures Paced(s, Do(t, a)) {
      ActionPaced(t, a);
      PacedTrans(s, t, Do(t, a));
    }
  }

  lemma NextPaced(s: Sched, e: Input)
    ensures Paced(Limited(s, e), Next(s, e))
  {
    if e.InPublish? {
      PublishPaced(s, e.qos, e.total);
    } else {
      PacedClosed(Limited(s, e));
      NextActs(s, e, t => Paced(Limited(s, e), t));
    }
  }

  /** A publish above QoS 0 is transmitted for the first time only while less is
      in flight than the limit in force: whatever the input, once one went out,
      all that is in flight is within the limit. */
  lemma FirstSendsWithinLimit(s: Sched, e: Input)
    ensures s.wire <= Next(s, e).wire
    ensures SentFirst(s, Next(s, e)) ==> Next(s, e).inFlight <= Next(s, e).limit
    ensures Next(s, e).limit == Limited(s, e).limit
  {
    NextPaced(s, e);
  }

  /** `b` is within the window `a` allows: nothing is added beyond the limit. */
  ghost predicate Within(a: Sched, b: Sched) {
    b.inFlight <= Max(a.inFlight, a.limit) && b.limit <= a.limit
  }

  /** Until the next CONNACK, in-flight publishes never exceed the larger of
      what was in flight already and the limit the broker granted. */
  lemma {:induction false} FlowControl(s: Sched, es: seq<Input>)
    requires forall k :: 0 <= k < |es| ==> !es[k].InConnack?
    ensures Within(s, Run(s, es))
    decreases |es|
  {
    if es != [] {
      NextPaced(s, es[0]);
      assert Within(s, Next(s, es[0]));
      FlowControl(Next(s, es[0]), es[1..]);
    }
  }

  // ----- reconnection

  function FirstPacket(o: SendOp): Packet {
    Publish(o.uid, o.packetId, o.qos, false, First)
  }

  function FirstPackets(ops: seq<SendOp>): (r: seq<Packet>)
    ensures |r| == |ops|
    ensures forall i :: 0 <= i < |r| ==> r[i] == FirstPacket(ops[i])
  {
    seq(|ops|, i requires 0 <= i < |ops| => FirstPacket(ops[i]))
  }

  lemma ResumeOneSends(s: Sched)
    requires Queue(s) && CanResume(s)
    ensures var p := s.inFlight; var r := ResumeOne(s);
            && r.wire == s.wire + [FirstPacket(s.ops[p])]
            && r.inFlight <= |r.ops| && r.ops[r.inFlight..] == s.ops[p..][1..]
  {
    assert WaitingOp(s.ordering, s.ops[s.inFlight]);
  }

  /** Settling transmits a stretch of paused publishes, in queue order, once each. */
  lemma {:induction false} SettleSends(s: Sched) returns (k: nat)
    requires Queue(s)
    ensures k <= |s.ops[s.inFlight..]|
    ensures var r := Settle(s);
            && r.wire == s.wire + FirstPackets(s.ops[s.inFlight..][..k])
            && r.inFlight <= |r.ops| && r.ops[r.inFlight..] == s.ops[s.inFlight..][k..]
    decreases |s.ops| - s.inFlight
  {
    if !CanResume(s) {
      k := 0;
    } else {
      ResumeOneSends(s);
      ResumeOneQueue(s);
      var m := SettleSends(ResumeOne(s));
      k := m + 1;
      ConsPackets(s.wire, s.ops[s.inFlight..], m);
    }
  }

  lemma ConsPackets(wire: seq<Packet>, ops: seq<SendOp>, m: nat)
    requires m < |ops|
    ensures wire + FirstPackets(ops[..m + 1]) == wire + [FirstPacket(ops[0])] + FirstPackets(ops[1..][..m])
    ensures ops[1..][m..] == ops[m + 1..]
  {
  }

  /** With same-QoS ordering, settling fills the window. */
  lemma {:induction false} SettleFills(s: Sched)
    requires Queue(s) && s.ordering.SameQos?
    ensures Settle(s).inFlight == Max(s.inFlight, Min(s.limit, |s.ops|))
    decreases |s.ops| - s.inFlight
  {
    if s.inFlight < |s.ops| {
      assert WaitingOp(s.ordering, s.ops[s.inFlight]);
      if CanResume(s) {
        ResumeOneQueue(s);
        SettleFills(ResumeOne(s));
      }
    }
  }

  lemma {:induction false} RedeliveryIs(ops: seq<SendOp>, p: nat)
    requires p <= |ops| && forall i :: 0 <= i < |ops| ==> (ops[i].paused <==> p <= i)
    ensures RedeliveryPackets(ops) == seq(p, i requires 0 <= i < p => Resent(ops[i], Reconnect))
  {
    if ops != [] {
      var n := |ops| - 1;
      RedeliveryIs(ops[..n], if p <= n then p else n);
    }
  }

  /** Reconnecting to a kept session puts on the wire exactly one packet per
      in-flight publish, in submission order and with its identifier (PUBREL if
      acknowledged, else PUBLISH with DUP), then first transmissions of the next
      paused publishes; with same-QoS ordering the window ends up full. */
  lemma ReconnectEmits(s: Sched, limit: nat, keep: bool) returns (k: nat)
    requires Reachable(s) && Enabled(s, InConnack(true, limit, keep))
    ensures s.inFlight <= |s.ops| && k <= |s.ops| - s.inFlight
    ensures var p := s.inFlight; var r := OnConnack(s, true, limit, keep);
            && r.wire == s.wire + seq(p, i requires 0 <= i < p => Resent(s.ops[i], Reconnect))
                                + FirstPackets(s.ops[p..p + k])
            && (s.ordering.SameQos? ==> r.inFlight == Max(p, Min(limit, |s.ops|)))
  {
    var up := s.(connected := true, limit := limit, keepSession := keep);
    ReachableQueue(s);
    PausedBehind(s);
    k := ResumedSends(up);
    SliceOfTail(s.ops, s.inFlight, k);
  }

  lemma PausedBehind(s: Sched)
    requires Queue(s)
    ensures RedeliveryPackets(s.ops) == seq(s.inFlight, i requires 0 <= i < s.inFlight => Resent(s.ops[i], Reconnect))
  {
    forall i | 0 <= i < |s.ops| ensures s.ops[i].paused <==> s.inFlight <= i {
      InFlightIff(s, i);
    }
    RedeliveryIs(s.ops, s.inFlight);
  }

  lemma SliceOfTail(ops: seq<SendOp>, p: nat, k: nat)
    requires p + k <= |ops|
    ensures ops[p..][..k] == ops[p..p + k]
  {
  }

  lemma ReachableQueue(s: Sched)
    requires Reachable(s)
    ensures Queue(s)
  {
    ReachableInv(s);
  }

  lemma ResumedSends(s: Sched) returns (k: nat)
    requires Queue(s)
    ensures k <= |s.ops[s.inFlight..]|
    ensures var r := Drain(s.(ops := Redelivered(s.ops, |s.ops|), wire := s.wire + RedeliveryPackets(s.ops)));
            && r.wire == s.wire + RedeliveryPackets(s.ops) + FirstPackets(s.ops[s.inFlight..][..k])
            && (s.ordering.SameQos? ==> r.inFlight == Max(s.inFlight, Min(s.limit, |s.ops|)))
  {
    var q := s.(ops := Redelivered(s.ops, |s.ops|), wire := s.wire + RedeliveryPackets(s.ops));
    WaitingUntouched(s);
    RedeliveredQueue(s, q.wire);
    k := SettleSends(q);
    if s.ordering.SameQos? {
      SettleFills(q);
    }
  }

  lemma RedeliveredQueue(s: Sched, wire: seq<Packet>)
    requires Queue(s)
    ensures Queue(s.(ops := Redelivered(s.ops, |s.ops|), wire := wire))
  {
  }

  lemma WaitingUntouched(s: Sched)
    requires Queue(s)
    ensures Redelivered(s.ops, |s.ops|)[s.inFlight..] == s.ops[s.inFlight..]
  { }
}
