/** Runs from start-up that show what full ordering does not promise. */
module SendExamples {
  import opened PacketIds
  import opened SendModel
  import opened SendTheorems
  import opened SendAcks

  // ----- runs as chains of states

  ghost predicate Leads(s: Sched, e: Input, t: Sched) {
    Enabled(s, e) && Next(s, e) == t
  }

  /** States that follow one another by the given inputs make up a run. */
  lemma {:induction false} Trace(states: seq<Sched>, es: seq<Input>)
    requires |states| == |es| + 1
    requires forall i :: 0 <= i < |es| ==> Leads(states[i], es[i], states[i + 1])
    ensures Possible(states[0], es) && Run(states[0], es) == states[|es|]
    decreases |es|
  {
    if es != [] {
      assert Leads(states[0], es[0], states[1]);
      Trace(states[1..], es[1..]);
    }
  }

  lemma Then(s: Sched, es: seq<Input>, t: Sched, e: Input, u: Sched)
    requires Possible(s, es) && Run(s, es) == t && Leads(t, e, u)
    ensures Possible(s, es + [e]) && Run(s, es + [e]) == u
  {
    RunExtend(s, es, e);
  }

  /** The state while connected with full ordering, before anything left. */
  function AtWork(limit: nat, capacity: nat, keep: bool, ops: seq<SendOp>, inFlight: nat,
                  ids: seq<nat>, last: nat, wire: seq<Packet>): Sched {
    Sched(Full, ops, inFlight, limit, true, false, true, keep, |ops|, Pool(ids, last, capacity), wire, [], [])
  }

  function Connected(limit: nat, capacity: nat, keep: bool): Sched {
    AtWork(limit, capacity, keep, [], 0, [], 0, [])
  }

  /** A publish in flight at QoS 1, and one of QoS 0 that waits. */
  function Flying(uid: nat): SendOp {
    SendOp(uid, 1, uid + 1, 1, 1, false, true, false, false)
  }

  function Waiting(uid: nat): SendOp {
    SendOp(uid, 0, 0, 1, 0, true, false, false, false)
  }

  function Sending(uid: nat): Packet {
    Publish(uid, uid + 1, 1, false, First)
  }

  lemma Connects(limit: nat, capacity: nat, keep: bool)
    requires limit > 0
    ensures var s0 := Initial(Full, capacity); var s1 := s0.(initialized := true);
            && Leads(s0, InPrepareConnect, s1)
            && Leads(s1, InConnack(false, limit, keep), Connected(limit, capacity, keep))
  {
  }

  function OneFlying(limit: nat, capacity: nat, keep: bool): Sched {
    AtWork(limit, capacity, keep, [Flying(0)], 1, [1], 1, [Sending(0)])
  }

  lemma FirstFlies(limit: nat, capacity: nat, keep: bool)
    requires limit > 0 && capacity > 0
    ensures Leads(Connected(limit, capacity, keep), InPublish(1, 1), OneFlying(limit, capacity, keep))
  {
    assert Insert([], 1) == [1];
  }

  lemma SecondId(capacity: nat)
    requires capacity > 1
    ensures Alloc(Pool([1], 1, capacity)) == (Pool([1, 2], 2, capacity), 2)
  {
    assert Probe([1], 2, 0) == 2;
    assert Insert([1], 2) == [1, 2];
  }

  function TwoFlying(limit: nat, capacity: nat): Sched {
    AtWork(limit, capacity, false, [Flying(0), Flying(1)], 2, [1, 2], 2, [Sending(0), Sending(1)])
  }

  lemma SecondFlies(limit: nat, capacity: nat)
    requires limit > 1 && capacity > 1
    ensures Leads(OneFlying(limit, capacity, false), InPublish(1, 1), TwoFlying(limit, capacity))
  {
    SecondId(capacity);
    var s := OneFlying(limit, capacity, false);
    var t := Submitted(s, 1, 1);
    assert t.ops[0] == Flying(0) && !HasHigherQosBefore(t.ops, 1);
    assert [Flying(0)] + [Flying(1)] == [Flying(0), Flying(1)];
    assert SendAt(t, 1).ops == [Flying(0), Flying(1)];
    assert SendAt(t, 1).wire == [Sending(0), Sending(1)];
  }

  /** A QoS 0 publish has to wait behind one of QoS 1. */
  lemma Waits(s: Sched)
    requires s.ordering.Full? && s.connected && !s.disconnecting && s.ops != [] && s.ops[0].qos == 1
    ensures Leads(s, InPublish(0, 1), s.(ops := s.ops + [Waiting(s.nextUid)], nextUid := s.nextUid + 1))
  {
    var t := Submitted(s, 0, 1);
    assert t.ops[0].qos > t.ops[|s.ops|].qos;
    assert PauseLast(t).ops == s.ops + [Waiting(s.nextUid)];
  }

  // ----- settling a queue of QoS 0 publishes

  lemma OneSettles(s: Sched, a: SendOp)
    requires s.ordering.Full? && s.limit > 0 && s.inFlight == 0 && s.ops == [a] && a.qos == 0
    ensures var r := Settle(s);
            && r.ops == [] && r.exits == s.exits + [Exit(a.uid, Sent)]
            && r.wire == s.wire + [Publish(a.uid, a.packetId, 0, a.dup, First)]
  {
    var r := ResumeOne(s);
    assert r.ops == [] && Settle(r) == r;
  }

  lemma TwoSettle(s: Sched, a: SendOp, b: SendOp)
    requires s.ordering.Full? && s.limit > 0 && s.inFlight == 0 && s.ops == [a, b] && a.qos == 0 && b.qos == 0
    ensures var r := Settle(s);
            && r.ops == [] && r.exits == s.exits + [Exit(a.uid, Sent), Exit(b.uid, Sent)]
            && r.wire == s.wire + [Publish(a.uid, a.packetId, 0, a.dup, First), Publish(b.uid, b.packetId, 0, b.dup, First)]
  {
    var r := ResumeOne(s);
    assert r.ops == [b];
    OneSettles(r, b);
  }

  /** Two QoS 0 publishes set free together are reported the younger one first. */
  lemma TwoDrain(s: Sched, a: SendOp, b: SendOp)
    requires s.ordering.Full? && s.limit > 0 && s.inFlight == 0 && s.ops == [a, b] && a.qos == 0 && b.qos == 0
    ensures Drain(s).reports == s.reports + [Exit(b.uid, Sent), Exit(a.uid, Sent)]
  {
    TwoSettle(s, a, b);
    var news := Settle(s).exits[|s.exits|..];
    assert news == [Exit(a.uid, Sent), Exit(b.uid, Sent)];
    assert Reverse(news) == [Exit(b.uid, Sent), Exit(a.uid, Sent)];
  }

  // ----- a delivery is reported after the publish it set free

  function Inversion(limit: nat): seq<Input> {
    [InPrepareConnect, InConnack(false, limit, false), InPublish(1, 1), InPublish(0, 1), InPuback(1, true)]
  }

  function OneWaiting(limit: nat, capacity: nat): Sched {
    AtWork(limit, capacity, false, [Flying(0), Waiting(1)], 1, [1], 1, [Sending(0)])
  }

  lemma AckFrees(limit: nat, capacity: nat)
    requires limit > 0
    ensures var r := OnPuback(OneWaiting(limit, capacity), 1, true);
            && r.exits == [Exit(0, Acked), Exit(1, Sent)]
            && r.reports == [Exit(1, Sent), Exit(0, Acked)]
  {
    var s := OneWaiting(limit, capacity);
    assert Find(s.ops, 1) == 0;
    var g := RemoveAt(s, 0, Acked);
    OneSettles(g, Waiting(1));
    CallbacksReverseExits(s, 0, Acked);
    assert Complete(s, 0, Acked).exits == [Exit(0, Acked), Exit(1, Sent)];
  }

  /** The QoS 0 publish left the queue second but its callback is made first. */
  lemma CallbackInversion(limit: nat, capacity: nat)
    requires limit > 0 && capacity > 0
    ensures Possible(Initial(Full, capacity), Inversion(limit))
    ensures var s := Run(Initial(Full, capacity), Inversion(limit));
            && s.exits == [Exit(0, Acked), Exit(1, Sent)]
            && s.reports == [Exit(1, Sent), Exit(0, Acked)]
  {
    var s0 := Initial(Full, capacity);
    var s4 := OneWaiting(limit, capacity);
    Connects(limit, capacity, false);
    FirstFlies(limit, capacity, false);
    Waits(OneFlying(limit, capacity, false));
    AckFrees(limit, capacity);
    Trace([s0, s0.(initialized := true), Connected(limit, capacity, false), OneFlying(limit, capacity, false),
           s4, OnPuback(s4, 1, true)], Inversion(limit));
  }

  // ----- an acknowledgement out of turn completes a publish

  function EarlyAck(limit: nat): seq<Input> {
    [InPrepareConnect, InConnack(false, limit, false), InPublish(1, 1), InPublish(1, 1), InPublish(0, 1), InPuback(2, true)]
  }

  function TwoAndOne(limit: nat, capacity: nat): Sched {
    AtWork(limit, capacity, false, [Flying(0), Flying(1), Waiting(2)], 2, [1, 2], 2, [Sending(0), Sending(1)])
  }

  lemma HeadEnds(s: Sched)
    requires s.ordering.Full? && !s.disconnecting && s.limit > 1 && s.inFlight == 2
    requires s.ops == [Flying(0), Flying(1), Waiting(2)] && s.exits == s.reports == []
    ensures var r := ForceResend(s, 0);
            && r.ordering.Full? && !r.disconnecting && r.limit == s.limit && r.inFlight == 1
            && r.ops == [Flying(1), Waiting(2)] && r.exits == [Exit(0, TimedOut)]
  {
    var g := RemoveAt(s, 0, TimedOut);
    assert g.ops == [Flying(1), Waiting(2)] && g.ops[0].qos > g.ops[1].qos;
    assert Settle(g) == g;
  }

  lemma LastEnds(s: Sched)
    requires s.ordering.Full? && !s.disconnecting && s.limit > 1 && s.inFlight == 1
    requires s.ops == [Flying(1), Waiting(2)] && s.exits == [Exit(0, TimedOut)]
    ensures ForceResend(s, 0).exits == [Exit(0, TimedOut), Exit(1, TimedOut), Exit(2, Sent)]
  {
    OneSettles(RemoveAt(s, 0, TimedOut), Waiting(2));
  }

  lemma EarlyAckSweeps(limit: nat, capacity: nat)
    requires limit > 1
    ensures OnPuback(TwoAndOne(limit, capacity), 2, true).exits == [Exit(0, TimedOut), Exit(1, TimedOut), Exit(2, Sent)]
  {
    var s := TwoAndOne(limit, capacity);
    assert s.ops[0].packetId == 1 && s.ops[1].packetId == 2;
    assert Find(s.ops, 2) == 1;
    assert !LegitAck(s, 1, false);
    HeadEnds(s);
    var t := ForceResend(s, 0);
    LastEnds(t);
    SweepStep(s, 0, 1);
    SweepStep(t, 0, 1);
  }

  /** PUBACK for the second of two publishes in flight, both on their last attempt:
      both time out and a waiting QoS 0 publish completes. */
  lemma EarlyAckCompletes(limit: nat, capacity: nat)
    requires limit > 1 && capacity > 1
    ensures Possible(Initial(Full, capacity), EarlyAck(limit))
    ensures Run(Initial(Full, capacity), EarlyAck(limit)).exits ==
            [Exit(0, TimedOut), Exit(1, TimedOut), Exit(2, Sent)]
  {
    var s0 := Initial(Full, capacity);
    var s5 := TwoAndOne(limit, capacity);
    Connects(limit, capacity, false);
    FirstFlies(limit, capacity, false);
    SecondFlies(limit, capacity);
    Waits(TwoFlying(limit, capacity));
    EarlyAckSweeps(limit, capacity);
    Trace([s0, s0.(initialized := true), Connected(limit, capacity, false), OneFlying(limit, capacity, false),
           TwoFlying(limit, capacity), s5, OnPuback(s5, 2, true)], EarlyAck(limit));
  }

  // ----- reconnecting reports in reverse

  function Publishing(limit: nat): seq<Input> {
    [InPrepareConnect, InConnack(false, limit, true), InPublish(1, 1), InPublish(0, 1), InPublish(0, 1)]
  }

  /** The publish in flight is cancelled while the connection is down. */
  function Offline(limit: nat): seq<Input> {
    Publishing(limit) + [InDrop(BrokerDisconnected)] + [InCancel(0)] + [InPrepareConnect]
  }

  function Reversal(limit: nat): seq<Input> {
    Offline(limit) + [InConnack(true, limit, true)]
  }

  function OneAndTwo(limit: nat, capacity: nat): Sched {
    AtWork(limit, capacity, true, [Flying(0), Waiting(1), Waiting(2)], 1, [1], 1, [Sending(0)])
  }

  lemma ThreePublished(limit: nat, capacity: nat) returns (s: Sched)
    requires limit > 0 && capacity > 0
    ensures Leads(OneFlying(limit, capacity, true), InPublish(0, 1), s)
    ensures Leads(s, InPublish(0, 1), OneAndTwo(limit, capacity))
  {
    Waits(OneFlying(limit, capacity, true));
    s := AtWork(limit, capacity, true, [Flying(0), Waiting(1)], 1, [1], 1, [Sending(0)]);
    Waits(s);
    assert [Flying(0), Waiting(1)] + [Waiting(2)] == [Flying(0), Waiting(1), Waiting(2)];
  }

  lemma CancelledOffline(limit: nat, capacity: nat) returns (down: Sched, left: Sched, ready: Sched)
    ensures Leads(OneAndTwo(limit, capacity), InDrop(BrokerDisconnected), down)
    ensures Leads(down, InCancel(0), left) && Leads(left, InPrepareConnect, ready)
    ensures ready.ordering.Full? && ready.inFlight == 0 && ready.ops == [Waiting(1), Waiting(2)]
    ensures ready.initialized && !ready.connected && !ready.disconnecting && ready.reports == []
  {
    var s := OneAndTwo(limit, capacity);
    down := s.(connected := false, disconnecting := true, initialized := false);
    assert FindUid(down.ops, 0) == 0;
    left := RemoveAt(down, 0, Cancelled);
    assert left.ops == [Waiting(1), Waiting(2)];
    ready := OnPrepareConnect(left);
  }

  lemma ReadyDrains(s: Sched, limit: nat)
    requires s.ordering.Full? && s.inFlight == 0 && s.ops == [Waiting(1), Waiting(2)] && limit > 0 && s.reports == []
    ensures OnConnack(s, true, limit, true).reports == [Exit(2, Sent), Exit(1, Sent)]
  {
    var q := s.(connected := true, limit := limit, keepSession := true,
                ops := Redelivered(s.ops, |s.ops|), wire := s.wire + RedeliveryPackets(s.ops));
    assert q.ops == s.ops;
    TwoDrain(q, Waiting(1), Waiting(2));
  }

  lemma PublishingLeads(limit: nat, capacity: nat)
    requires limit > 0 && capacity > 0
    ensures Possible(Initial(Full, capacity), Publishing(limit))
    ensures Run(Initial(Full, capacity), Publishing(limit)) == OneAndTwo(limit, capacity)
  {
    var s0 := Initial(Full, capacity);
    Connects(limit, capacity, true);
    FirstFlies(limit, capacity, true);
    var s4 := ThreePublished(limit, capacity);
    Trace([s0, s0.(initialized := true), Connected(limit, capacity, true), OneFlying(limit, capacity, true),
           s4, OneAndTwo(limit, capacity)], Publishing(limit));
  }

  lemma OfflineLeads(limit: nat, capacity: nat) returns (ready: Sched)
    requires limit > 0 && capacity > 0
    ensures Possible(Initial(Full, capacity), Offline(limit)) && Run(Initial(Full, capacity), Offline(limit)) == ready
    ensures ready.ordering.Full? && ready.inFlight == 0 && ready.ops == [Waiting(1), Waiting(2)]
    ensures ready.initialized && !ready.connected && !ready.disconnecting && ready.reports == []
  {
    var s0, es := Initial(Full, capacity), Publishing(limit);
    PublishingLeads(limit, capacity);
    var down, left, last := CancelledOffline(limit, capacity);
    Then(s0, es, OneAndTwo(limit, capacity), InDrop(BrokerDisconnected), down);
    Then(s0, es + [InDrop(BrokerDisconnected)], down, InCancel(0), left);
    Then(s0, es + [InDrop(BrokerDisconnected)] + [InCancel(0)], left, InPrepareConnect, last);
    ready := last;
  }

  /** Two QoS 0 publishes sent on reconnection are reported the younger one first. */
  lemma ReconnectReverses(limit: nat, capacity: nat)
    requires limit > 0 && capacity > 0
    ensures Possible(Initial(Full, capacity), Reversal(limit))
    ensures Run(Initial(Full, capacity), Reversal(limit)).reports == [Exit(2, Sent), Exit(1, Sent)]
  {
    var ready := OfflineLeads(limit, capacity);
    ReadyDrains(ready, limit);
    RunExtend(Initial(Full, capacity), Offline(limit), InConnack(true, limit, true));
  }

  // ----- a lost session with QoS 0 publishes waiting

  function Losing(limit: nat): seq<Input> {
    Publishing(limit) + [InDrop(BrokerDisconnected)] + [InPrepareConnect]
  }

  lemma LosingLeads(limit: nat, capacity: nat)
    requires limit > 0 && capacity > 0
    ensures Possible(Initial(Full, capacity), Losing(limit))
    ensures Run(Initial(Full, capacity), Losing(limit)) ==
            OneAndTwo(limit, capacity).(limit := 0, connected := false, keepSession := false)
  {
    var s := OneAndTwo(limit, capacity);
    var down := s.(connected := false, disconnecting := true, initialized := false);
    PublishingLeads(limit, capacity);
    assert Leads(s, InDrop(BrokerDisconnected), down);
    Then(Initial(Full, capacity), Publishing(limit), s, InDrop(BrokerDisconnected), down);
    Then(Initial(Full, capacity), Publishing(limit) + [InDrop(BrokerDisconnected)], down, InPrepareConnect,
         OnPrepareConnect(down));
  }

  /** A run after which a CONNACK without a session finds two QoS 0 publishes
      behind the head: they are transmitted and complete when the head is ended. */
  lemma LostSessionCompletes(limit: nat, capacity: nat)
    requires limit > 0 && capacity > 0
    ensures Possible(Initial(Full, capacity), Losing(limit))
    ensures var s := Run(Initial(Full, capacity), Losing(limit)); var r := OnConnack(s, false, limit, true);
            && s.initialized && !s.connected && !s.disconnecting && !NoQos0Behind(s.ops)
            && r.exits == [Exit(0, Aborted), Exit(1, Sent), Exit(2, Sent)]
            && r.wire == [Sending(0), Publish(1, 0, 0, false, First), Publish(2, 0, 0, false, First)]
  {
    LosingLeads(limit, capacity);
    var s := OneAndTwo(limit, capacity).(limit := 0, connected := false, keepSession := false);
    assert s.ops[1].qos == 0;
    var up := s.(connected := true, limit := limit, keepSession := true);
    LostEnds(up);
  }

  lemma LostEnds(s: Sched)
    requires s.ordering.Full? && !s.disconnecting && s.limit > 0 && s.inFlight == 1
    requires s.ops == [Flying(0), Waiting(1), Waiting(2)] && s.exits == [] && s.wire == [Sending(0)]
    ensures AbortAll(s, Aborted).exits == [Exit(0, Aborted), Exit(1, Sent), Exit(2, Sent)]
    ensures AbortAll(s, Aborted).wire == [Sending(0), Publish(1, 0, 0, false, First), Publish(2, 0, 0, false, First)]
  {
    var g := RemoveAt(s, 0, Aborted);
    assert g.ops == [Waiting(1), Waiting(2)];
    TwoSettle(g, Waiting(1), Waiting(2));
    var c := Complete(s, 0, Aborted);
    assert c.ops == [] && AbortAll(c, Aborted) == c;
  }
}
