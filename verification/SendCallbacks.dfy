/** With full ordering: which callbacks each input makes, and exactly when they
    are out of submission order; what an acknowledgement out of turn sets free. */
module SendCallbacks {
  import opened Protocol
  import opened SendModel
  import opened SendInvariant
  import opened SendActions
  import opened SendSteps
  import opened SendTheorems
  import opened SendAcks
  import opened SendEffects
  import opened SendFreed

  // ----- order

  /** A sweep whose callbacks come out of order: it ends one publish after the
      other from the head on, and meets two QoS 0 publishes in a row right behind
      one that it ends. */
  predicate SweepInverts(fs: seq<Fate>, target: nat)
    decreases |fs|
  {
    && fs != [] && fs[0].doomed
    && (ZeroRun(fs[1..]) >= 2 || (fs[0].uid != target && SweepInverts(AfterRun(fs[1..]), target)))
  }

  lemma BackwardsOrder(fs: seq<Fate>)
    requires Rising(fs)
    ensures Increasing(Backwards(fs)) <==> |fs| <= 1
  {
    if |fs| > 1 {
      assert Backwards(fs)[0] > Backwards(fs)[1];
    }
  }

  lemma ConcatOrder(a: seq<nat>, b: seq<nat>, m: nat)
    requires (forall k :: 0 <= k < |a| ==> a[k] < m) && (forall k :: 0 <= k < |b| ==> m <= b[k])
    ensures Increasing(a + b) <==> Increasing(a) && Increasing(b)
  {
    var c := a + b;
    if Increasing(c) {
      forall i, j | 0 <= i < j < |b| ensures b[i] < b[j] {
        assert c[|a| + i] < c[|a| + j];
      }
      forall i, j | 0 <= i < j < |a| ensures a[i] < a[j] {
        assert c[i] < c[j];
      }
    }
  }

  lemma RisingRest(fs: seq<Fate>)
    requires Rising(fs)
    ensures Rising(AfterRun(fs)) && (fs != [] ==> Rising(fs[1..]))
  {
  }

  lemma {:induction false} SweepCallsAbove(fs: seq<Fate>, target: nat)
    requires Rising(fs) && fs != []
    ensures forall k :: 0 <= k < |SweepCalls(fs, target)| ==> fs[0].uid < SweepCalls(fs, target)[k]
    decreases |fs|
  {
    var rest := fs[1..];
    RisingRest(rest);
    if AfterRun(rest) != [] {
      SweepCallsAbove(AfterRun(rest), target);
    }
  }

  lemma RunOrder(fs: seq<Fate>)
    requires Rising(fs)
    ensures Increasing(RunCalls(fs)) <==> ZeroRun(fs) <= 1
  {
    BackwardsOrder(fs[..ZeroRun(fs)]);
  }

  lemma RunThenMore(fs: seq<Fate>, more: seq<nat>)
    requires Rising(fs)
    requires if AfterRun(fs) == [] then more == []
             else forall k :: 0 <= k < |more| ==> AfterRun(fs)[0].uid < more[k]
    ensures Increasing(RunCalls(fs) + more) <==> ZeroRun(fs) <= 1 && Increasing(more)
  {
    RunOrder(fs);
    if AfterRun(fs) == [] {
      assert RunCalls(fs) + more == RunCalls(fs);
    } else {
      ConcatOrder(RunCalls(fs), more, AfterRun(fs)[0].uid);
    }
  }

  lemma {:induction false} SweepOrder(fs: seq<Fate>, target: nat)
    requires Rising(fs)
    ensures Increasing(SweepCalls(fs, target)) <==> !SweepInverts(fs, target)
    decreases |fs|
  {
    if fs != [] && fs[0].doomed {
      var rest := fs[1..];
      RisingRest(fs);
      if fs[0].uid == target {
        RunOrder(rest);
      } else {
        RisingRest(rest);
        SweepOrder(AfterRun(rest), target);
        if AfterRun(rest) != [] {
          SweepCallsAbove(AfterRun(rest), target);
        }
        RunThenMore(rest, SweepCalls(AfterRun(rest), target));
      }
    }
  }

  // ----- the callbacks of every input

  /** Whether a publish that leaves makes others resume. */
  predicate Resumes(s: Sched) {
    !s.disconnecting && s.limit > 0
  }

  /** Callbacks of the QoS 0 publishes that the head sets free by leaving. */
  function HeadCalls(s: Sched): seq<nat>
    requires s.ops != []
  {
    if Resumes(s) then RunCalls(Fates(s.ops[1..])) else []
  }

  /** A PUBREC that only moves its publish on. */
  predicate Continues(e: Input, o: SendOp) {
    e.InPubrec? && !e.refused && e.wellFormed && o.qos == 2 && !o.acked
  }

  function AckCalls(s: Sched, e: Input): seq<nat>
    requires IsAck(e)
  {
    var i := Find(s.ops, e.id);
    if i == |s.ops| then []
    else if !LegitAck(s, i, e.InPubcomp?) then
      if Resumes(s) then SweepCalls(Fates(s.ops), s.ops[i].uid) else []
    else if i > 0 || Continues(e, s.ops[0]) then []
    else if Finishes(e, s.ops[0]) then HeadCalls(s) + [s.ops[0].uid]
    else HeadCalls(s)
  }

  predicate IsHead(s: Sched, uid: nat) {
    s.ops != [] && s.ops[0].uid == uid
  }

  /** The callbacks of deliveries that an input makes, in their order. */
  function Calls(s: Sched, e: Input): seq<nat> {
    match e
    case InPublish(qos, _) => if qos == 0 && s.connected && s.ops == [] then [s.nextUid] else []
    case InCancel(uid) => if IsHead(s, uid) then HeadCalls(s) else []
    case InTimeout(uid) =>
      if s.connected && IsHead(s, uid) && s.ops[0].published && IsExhausted(s.ops[0]) then HeadCalls(s) else []
    case InConnack(present, _, _) => if present && s.inFlight == 0 then RunCalls(Fates(s.ops)) else []
    case _ => if IsAck(e) then AckCalls(s, e) else []
  }

  ghost predicate Reports(s: Sched, r: Sched, calls: seq<nat>) {
    Delivered(r.reports) == Delivered(s.reports) + calls
  }

  ghost predicate Poised(s: Sched) {
    Queue(s) && s.ordering.Full? && (Resumes(s) ==> !CanResume(s))
  }

  lemma ReachablePoised(s: Sched)
    requires Reachable(s) && s.ordering.Full?
    ensures Poised(s) && (s.connected ==> Resumes(s))
    ensures !s.connected ==> Still(s)
  {
    ReachableInv(s);
  }

  function LeaveCalls(s: Sched, i: nat): seq<nat>
    requires i < |s.ops|
  {
    if i == 0 then HeadCalls(s) else []
  }

  lemma LeaveReports(s: Sched, i: nat, st: Status)
    requires Poised(s) && i < |s.ops|
    ensures Reports(s, Leave(s, i, st), LeaveCalls(s, i))
  {
    if !Resumes(s) {
      StillLeaves(s, i, st);
    } else if i == 0 {
      HeadLeaves(s, st);
    } else {
      OtherLeaves(s, i, st);
    }
  }

  lemma CompleteReports(s: Sched, i: nat, st: Status)
    requires Poised(s) && i < |s.ops|
    ensures Reports(s, Complete(s, i, st), if st.Delivered() then LeaveCalls(s, i) + [s.ops[i].uid] else LeaveCalls(s, i))
  {
    LeaveReports(s, i, st);
    OwnCall(s, i, st);
  }

  lemma {:induction false} AbortReports(s: Sched, st: Status)
    requires Still(s) && !st.Delivered()
    ensures Reports(s, AbortAll(s, st), [])
    decreases |s.ops|
  {
    if s.ops != [] {
      StillLeaves(s, 0, st);
      OwnCall(s, 0, st);
      AbortReports(Complete(s, 0, st), st);
    }
  }

  lemma DropReports(s: Sched, st: Status)
    requires s.ordering.Full? && !st.Delivered()
    ensures Reports(s, Drop(s, st), [])
  {
    AbortReports(s.(connected := false, disconnecting := true, initialized := false), st);
  }

  lemma ViolationReports(s: Sched, i: nat)
    requires Poised(s) && i < |s.ops|
    ensures Reports(s, Violation(s, i), LeaveCalls(s, i))
  {
    CompleteReports(s, i, ProtocolError);
    var r := Complete(s, i, ProtocolError);
    DropReports(r.(wire := r.wire + [Disconnect]), BrokerDisconnected);
  }

  lemma SweepReports(s: Sched, target: nat)
    requires Poised(s)
    ensures Reports(s, ResendUntil(s, 0, target), if Resumes(s) then SweepCalls(Fates(s.ops), target) else [])
  {
    if Resumes(s) {
      SweepAdds(s, target);
    } else {
      SweepStill(s, target);
    }
  }

  lemma PubackReports(s: Sched, e: Input)
    requires Poised(s) && e.InPuback?
    ensures Reports(s, Next(s, e), AckCalls(s, e))
  {
    var i := Find(s.ops, e.id);
    if i == |s.ops| {
    } else if !LegitAck(s, i, false) {
      SweepReports(s, s.ops[i].uid);
    } else if s.ops[i].qos != 1 || !e.wellFormed {
      ViolationReports(s, i);
    } else {
      LegitPubackIsHead(s, i);
      CompleteReports(s, 0, Acked);
    }
  }

  lemma PubrecReports(s: Sched, e: Input)
    requires Poised(s) && e.InPubrec?
    ensures Reports(s, Next(s, e), AckCalls(s, e))
  {
    var i := Find(s.ops, e.id);
    if i < |s.ops| {
      if LegitAck(s, i, false) {
        PubrecInTurnReports(s, e, i);
      } else {
        SweepReports(s, s.ops[i].uid);
      }
    }
  }

  lemma PubrecInTurnReports(s: Sched, e: Input, i: nat)
    requires Poised(s) && e.InPubrec? && i == Find(s.ops, e.id) < |s.ops| && LegitAck(s, i, false)
    ensures Reports(s, Next(s, e), if Continues(e, s.ops[i]) then [] else LeaveCalls(s, i))
  {
    if s.ops[i].qos != 2 || s.ops[i].acked || !e.wellFormed {
      assert Next(s, e) == Violation(s, i);
      ViolationReports(s, i);
    } else if e.refused {
      assert Next(s, e) == Complete(s, i, Refused);
      CompleteReports(s, i, Refused);
    } else {
      assert Next(s, e).reports == s.reports;
    }
  }

  lemma PubcompReports(s: Sched, e: Input)
    requires Poised(s) && e.InPubcomp?
    ensures Reports(s, Next(s, e), AckCalls(s, e))
  {
    var i := Find(s.ops, e.id);
    if i == |s.ops| {
    } else if !LegitAck(s, i, true) {
      SweepReports(s, s.ops[i].uid);
    } else if s.ops[i].qos != 2 || !s.ops[i].acked || !e.wellFormed {
      ViolationReports(s, i);
    } else {
      CompleteReports(s, 0, Completed);
    }
  }

  lemma CancelReports(s: Sched, uid: nat)
    requires Poised(s)
    ensures Reports(s, OnCancel(s, uid), Calls(s, InCancel(uid)))
  {
    var i := FindUid(s.ops, uid);
    if i < |s.ops| {
      LeaveReports(s, i, Cancelled);
    }
  }

  lemma TimeoutReports(s: Sched, uid: nat)
    requires Poised(s)
    ensures Reports(s, OnTimeout(s, uid), Calls(s, InTimeout(uid)))
  {
    var i := FindUid(s.ops, uid);
    if i < |s.ops| && s.ops[i].published && s.connected && IsExhausted(s.ops[i]) {
      CompleteReports(s, i, TimedOut);
    }
  }

  lemma PublishReports(s: Sched, qos: Qos, total: nat)
    requires Reachable(s) && s.ordering.Full?
    ensures Reports(s, OnPublish(s, qos, total), Calls(s, InPublish(qos, total)))
  {
    ReachableInv(s);
    if s.connected && qos == 0 {
      if CanSend(Submitted(s, qos, total), |s.ops|) {
        NewSenderIsFirst(s, qos, total);
        SentThroughStuck(s);
        CompleteSentThrough(s, total);
        PushExit(s.reports, Exit(s.nextUid, Sent));
      } else {
        assert s.ops != [];
      }
    }
  }

  lemma ReconnectReports(s: Sched, limit: nat, keep: bool)
    requires Queue(s) && s.ordering.Full? && limit > 0
    ensures Reports(s, OnConnack(s, true, limit, keep), if s.inFlight == 0 then RunCalls(Fates(s.ops)) else [])
  {
    var up := s.(connected := true, limit := limit, keepSession := keep);
    var q := up.(ops := Redelivered(s.ops, |s.ops|), wire := s.wire + RedeliveryPackets(s.ops));
    RedeliveredQueue(up, q.wire);
    if s.inFlight == 0 {
      WaitingUntouched(s);
      assert q.ops == s.ops;
      SettleFrees(q);
      DrainCalls(q, s.ops, ZeroRun(Fates(s.ops)));
    } else {
      SettleHolds(q);
      DrainIs(q, []);
      assert Drain(q).reports == s.reports;
    }
  }

  // ----- a lost session

  lemma {:induction false} SettleNoQos0(s: Sched)
    requires forall i :: 0 <= i < |s.ops| ==> s.ops[i].qos > 0
    ensures var r := Settle(s);
            && r.exits == s.exits && |r.ops| == |s.ops|
            && forall i :: 0 <= i < |s.ops| ==> r.ops[i].qos == s.ops[i].qos && r.ops[i].uid == s.ops[i].uid
    decreases |s.ops| - s.inFlight
  {
    if CanResume(s) {
      SettleNoQos0(ResumeOne(s));
    }
  }

  lemma LeaveNoQos0(s: Sched, st: Status)
    requires s.ops != [] && NoQos0Behind(s.ops)
    ensures var r := Leave(s, 0, st);
            && r.exits == s.exits + [Exit(s.ops[0].uid, st)] && r.reports == s.reports && |r.ops| == |s.ops| - 1
            && forall i :: 0 < i < |s.ops| ==> s.ops[i].uid == r.ops[i - 1].uid && s.ops[i].qos == r.ops[i - 1].qos
  {
    var g := RemoveAt(s, 0, st);
    SettleNoQos0(g);
    if !s.disconnecting {
      DrainIs(g, []);
      assert Drain(g).reports == s.reports;
    }
  }

  lemma CompleteNoQos0(s: Sched, st: Status)
    requires s.ops != [] && NoQos0Behind(s.ops)
    ensures var c := Complete(s, 0, st); var e := Exit(s.ops[0].uid, st);
            && c.exits == s.exits + [e] && c.reports == s.reports + [e]
            && NoQos0Behind(c.ops) && |c.ops| == |s.ops| - 1
            && forall i :: 0 < i < |s.ops| ==> s.ops[i].uid == c.ops[i - 1].uid && s.ops[i].qos == c.ops[i - 1].qos
  {
    LeaveNoQos0(s, st);
    OwnCall(s, 0, st);
  }

  /** Ending everything ends each publish in order, and nothing else happens to one. */
  lemma {:induction false} AbortNoQos0(s: Sched, st: Status)
    requires NoQos0Behind(s.ops)
    ensures var r := AbortAll(s, st);
            r.ops == [] && r.exits == s.exits + ExitsOf(s.ops, st) && r.reports == s.reports + ExitsOf(s.ops, st)
    decreases |s.ops|
  {
    if s.ops != [] {
      var c := Complete(s, 0, st);
      CompleteNoQos0(s, st);
      AbortNoQos0(c, st);
      ExitsCons(s.exits, s.ops, c.ops, st);
      ExitsCons(s.reports, s.ops, c.ops, st);
    }
  }

  lemma {:induction false} SentGrow(a: seq<Exit>, b: seq<Exit>)
    requires a <= b
    ensures |ExitsBy(a, Sent)| <= |ExitsBy(b, Sent)|
  {
    if |a| < |b| {
      SentGrow(a, b[..|b| - 1]);
    } else {
      assert a == b;
    }
  }

  lemma {:induction false} AbortGrows(s: Sched, st: Status)
    ensures s.exits <= AbortAll(s, st).exits
    decreases |s.ops|
  {
    if s.ops != [] {
      CallbacksReverseExits(s, 0, st);
      AbortGrows(Complete(s, 0, st), st);
    }
  }

  /** A QoS 0 publish directly behind the head goes out when the head is ended. */
  lemma SecondFreed(s: Sched, st: Status)
    requires Flowing(s) && |s.ops| > 1 && s.ops[1].qos == 0 && !st.Sent?
    ensures |ExitsBy(Complete(s, 0, st).exits, Sent)| > |ExitsBy(s.exits, Sent)|
  {
    HeadLeaves(s, st);
    OwnCall(s, 0, st);
    assert Fates(s.ops[1..])[0].qos == 0;
  }

  lemma SecondKept(s: Sched, st: Status)
    requires Flowing(s) && |s.ops| > 1 && s.ops[1].qos > 0 && !st.Sent?
    ensures var c := Complete(s, 0, st);
            && |ExitsBy(c.exits, Sent)| == |ExitsBy(s.exits, Sent)| && Fates(c.ops) == Fates(s.ops[1..])
  {
    HeadLeaves(s, st);
    OwnCall(s, 0, st);
    assert Fates(s.ops[1..])[0].qos > 0;
  }

  lemma {:induction false} AbortFrees(s: Sched, st: Status, j: nat)
    requires Flowing(s) && 0 < j < |s.ops| && s.ops[j].qos == 0 && !st.Sent?
    ensures |ExitsBy(AbortAll(s, st).exits, Sent)| > |ExitsBy(s.exits, Sent)|
    decreases j
  {
    var c := Complete(s, 0, st);
    if s.ops[1].qos == 0 {
      SecondFreed(s, st);
      AbortGrows(c, st);
      SentGrow(c.exits, AbortAll(c, st).exits);
    } else {
      SecondKept(s, st);
      LeaveLive(s, 0, st);
      assert Fates(c.ops)[j - 1] == Fates(s.ops[1..])[j - 1] == FateOf(s.ops[j]);
      AbortFrees(c, st, j - 1);
    }
  }

  // ----- what goes out meanwhile

  /** The paused publishes that ending everything from the head on will resume. */
  function Overdue(s: Sched): seq<SendOp>
    requires s.inFlight <= |s.ops|
  {
    if s.ops == [] then [] else s.ops[Max(1, s.inFlight)..]
  }

  /** Ending the head transmits some of them; the rest stay. */
  lemma HeadSends(s: Sched, st: Status) returns (k: nat)
    requires Queue(s) && s.ops != [] && !s.disconnecting && s.limit > 0
    ensures Queue(Complete(s, 0, st)) && k <= |Overdue(s)|
    ensures var c := Complete(s, 0, st);
            && c.wire == s.wire + FirstPackets(Overdue(s)[..k]) && Overdue(c) == Overdue(s)[k..]
  {
    CompleteTidy(s, 0, st);
    HeadGoneWaiting(s, st);
    k := SettleSends(RemoveAt(s, 0, st));
    AllWaiting(Complete(s, 0, st));
  }

  lemma HeadGoneWaiting(s: Sched, st: Status)
    requires Queue(s) && s.ops != []
    ensures var g := RemoveAt(s, 0, st); Queue(g) && g.ops[g.inFlight..] == Overdue(s)
  {
    InFlightIff(s, 0);
    RemoveQueue(s, 0, st);
    var g := RemoveAt(s, 0, st);
    assert g.ops == s.ops[1..];
    assert g.inFlight + 1 == Max(1, s.inFlight);
    assert s.ops[1..][g.inFlight..] == s.ops[g.inFlight + 1..];
  }

  /** Where nothing can be resumed, the head is not among the paused ones. */
  lemma AllWaiting(s: Sched)
    requires Queue(s) && s.limit > 0 && !CanResume(s)
    ensures Overdue(s) == s.ops[s.inFlight..]
  {
  }

  lemma PacketsSplit(ops: seq<SendOp>, k: nat)
    requires k <= |ops|
    ensures FirstPackets(ops[..k]) + FirstPackets(ops[k..]) == FirstPackets(ops)
  {
    var both := FirstPackets(ops[..k]) + FirstPackets(ops[k..]);
    assert |both| == |ops|;
    forall i | 0 <= i < |ops| ensures both[i] == FirstPacket(ops[i]) {
      assert i >= k ==> ops[k..][i - k] == ops[i];
    }
  }

  lemma JoinPackets(wire: seq<Packet>, ops: seq<SendOp>, k: nat)
    requires k <= |ops|
    ensures wire + FirstPackets(ops[..k]) + FirstPackets(ops[k..]) == wire + FirstPackets(ops)
  {
    PacketsSplit(ops, k);
    var now, later := FirstPackets(ops[..k]), FirstPackets(ops[k..]);
    assert wire + now + later == wire + (now + later);
  }

  /** Ending everything while others resume transmits every paused publish but the
      head, once each and in order. */
  lemma {:induction false} AbortSends(s: Sched, st: Status)
    requires Queue(s) && !s.disconnecting && s.limit > 0
    ensures AbortAll(s, st).wire == s.wire + FirstPackets(Overdue(s))
    decreases |s.ops|
  {
    if s.ops != [] {
      var c := Complete(s, 0, st);
      var k := HeadSends(s, st);
      CompleteTidy(s, 0, st);
      AbortSends(c, st);
      JoinPackets(s.wire, Overdue(s), k);
    }
  }

  /** A CONNACK without a session ends each pending publish in order, and nothing
      else leaves, exactly when no QoS 0 publish waits behind the head. Meanwhile
      every paused publish but the head is transmitted, so nothing goes out
      exactly when all are in flight or only one is pending. */
  lemma LostSessionIff(s: Sched, limit: nat, keep: bool)
    requires Reachable(s) && s.initialized && !s.connected && !s.disconnecting && limit > 0
    ensures s.inFlight <= |s.ops|
    ensures var r := OnConnack(s, false, limit, keep);
            && (NoQos0Behind(s.ops) <==> |ExitsBy(r.exits, Sent)| == |ExitsBy(s.exits, Sent)|)
            && (NoQos0Behind(s.ops) ==>
                  r.ops == [] && r.exits == s.exits + ExitsOf(s.ops, Aborted) && r.reports == s.reports + ExitsOf(s.ops, Aborted))
            && r.wire == s.wire + FirstPackets(Overdue(s))
            && (r.wire == s.wire <==> s.inFlight == |s.ops| || |s.ops| == 1)
  {
    ReachableQueue(s);
    var up := s.(connected := true, limit := limit, keepSession := keep);
    AbortSends(up, Aborted);
    LostSessionExits(s, up);
    assert |OnConnack(s, false, limit, keep).wire| == |s.wire| + |Overdue(s)|;
  }

  lemma LostSessionExits(s: Sched, up: Sched)
    requires Queue(up) && !up.disconnecting && up.limit > 0
    requires up.ops == s.ops && up.exits == s.exits && up.reports == s.reports
    ensures var r := AbortAll(up, Aborted);
            && (NoQos0Behind(s.ops) <==> |ExitsBy(r.exits, Sent)| == |ExitsBy(s.exits, Sent)|)
            && (NoQos0Behind(s.ops) ==>
                  r.ops == [] && r.exits == s.exits + ExitsOf(s.ops, Aborted) && r.reports == s.reports + ExitsOf(s.ops, Aborted))
  {
    if NoQos0Behind(s.ops) {
      AbortNoQos0(up, Aborted);
      NoneSent(s.exits, ExitsOf(s.ops, Aborted));
    } else {
      var j :| 0 < j < |s.ops| && s.ops[j].qos == 0;
      InFlightIff(up, j);
      assert WaitingOp(up.ordering, up.ops[j]);
      AbortFrees(up, Aborted, j);
    }
  }

  /** `ops` is what is left of `all` from entry `k` on. */
  ghost predicate Lined(ops: seq<SendOp>, all: seq<SendOp>, k: nat) {
    && k <= |all| && |ops| == |all| - k
    && forall j :: k <= j < |all| ==> all[j].uid == ops[j - k].uid && all[j].qos == ops[j - k].qos
  }

  /** After the head was ended the next one is there, unless it is of QoS 0 and gone. */
  lemma NextEntry(s: Sched, st: Status)
    requires Queue(s) && s.ops != [] && !s.disconnecting && s.limit > 0 && !st.Sent?
    ensures var c := Complete(s, 0, st);
            if |s.ops| > 1 && s.ops[1].qos == 0 then !Pending(c.ops, s.ops[1].uid) else Lined(c.ops, s.ops, 1)
  {
    if s.ordering.SameQos? {
      forall i | 0 <= i < |s.ops| ensures s.ops[i].qos > 0 {
        InFlightIff(s, i);
      }
      CompleteNoQos0(s, st);
    } else {
      HeadLeaves(s, st);
      OwnCall(s, 0, st);
      NextFate(s, Complete(s, 0, st).ops);
    }
  }

  lemma NextFate(s: Sched, left: seq<SendOp>)
    requires Numbered(s) && s.ops != [] && Fates(left) == AfterRun(Fates(s.ops[1..]))
    ensures if |s.ops| > 1 && s.ops[1].qos == 0 then !Pending(left, s.ops[1].uid) else Lined(left, s.ops, 1)
  {
    var rest := Fates(s.ops[1..]);
    var z := ZeroRun(rest);
    assert forall j :: 0 <= j < |left| ==> Fates(left)[j] == rest[z + j];
  }

  lemma {:induction false} NoneSent(a: seq<Exit>, b: seq<Exit>)
    requires forall k :: 0 <= k < |b| ==> !b[k].status.Sent?
    ensures ExitsBy(a + b, Sent) == ExitsBy(a, Sent)
  {
    if b == [] {
      assert a + b == a;
    } else {
      var n := |b| - 1;
      NoneSent(a, b[..n]);
      PushExitBy(a + b[..n], b[n], Sent);
      Unsnoc(a, b);
    }
  }

  lemma LostSessionReports(s: Sched, limit: nat, keep: bool)
    requires NoQos0Behind(s.ops)
    ensures Reports(s, OnConnack(s, false, limit, keep), [])
  {
    AbortNoQos0(s.(connected := true, limit := limit, keepSession := keep), Aborted);
    DeliveredAppend(s.reports, ExitsOf(s.ops, Aborted));
    DeliveredOf(ExitsOf(s.ops, Aborted), Aborted);
  }

  // ----- every input

  /** Exactly which callbacks of deliveries an input makes, and in which order. */
  lemma CallbacksAre(s: Sched, e: Input)
    requires Reachable(s) && s.ordering.Full? && Enabled(s, e)
    ensures Delivered(Next(s, e).reports) == Delivered(s.reports) + Calls(s, e)
  {
    ReachablePoised(s);
    assert Reports(s, Next(s, e), Calls(s, e)) by {
      match e
      case InPublish(qos, total) => PublishReports(s, qos, total);
      case InCancel(uid) => CancelReports(s, uid);
      case InPuback(_, _) => PubackReports(s, e);
      case InPubrec(_, _, _) => PubrecReports(s, e);
      case InPubcomp(_, _) => PubcompReports(s, e);
      case InTimeout(uid) => TimeoutReports(s, uid);
      case InDrop(st) => DropReports(s, st);
      case InPrepareConnect =>
      case InConnack(present, limit, keep) =>
        if present {
          ReconnectReports(s, limit, keep);
        } else {
          LostSessionReports(s, limit, keep);
        }
      case InExpiry => AbortReports(s, BrokerDisconnected);
    }
  }

  /** The head, by leaving, sets free at least `m` QoS 0 publishes. */
  predicate Frees(s: Sched, m: nat)
    requires s.ops != []
  {
    Resumes(s) && ZeroRun(Fates(s.ops[1..])) >= m
  }

  /** The inputs whose callbacks are out of order: a delivery that frees one QoS 0
      publish, any other end of the head that frees two, an acknowledgement out of
      turn that does so on its way, and a reconnection that finds two at the front. */
  predicate Inverts(s: Sched, e: Input) {
    match e
    case InCancel(uid) => IsHead(s, uid) && Frees(s, 2)
    case InTimeout(uid) =>
      s.connected && IsHead(s, uid) && s.ops[0].published && IsExhausted(s.ops[0]) && Frees(s, 2)
    case InConnack(present, _, _) => present && s.inFlight == 0 && ZeroRun(Fates(s.ops)) >= 2
    case _ => IsAck(e) && AckInverts(s, e)
  }

  predicate AckInverts(s: Sched, e: Input)
    requires IsAck(e)
  {
    var i := Find(s.ops, e.id);
    i < |s.ops| &&
    if !LegitAck(s, i, e.InPubcomp?) then Resumes(s) && SweepInverts(Fates(s.ops), s.ops[i].uid)
    else i == 0 && !Continues(e, s.ops[0]) && Frees(s, if Finishes(e, s.ops[0]) then 1 else 2)
  }

  lemma RisingFates(s: Sched)
    requires Numbered(s)
    ensures Rising(Fates(s.ops)) && (s.ops != [] ==> Rising(Fates(s.ops[1..])))
  {
  }

  lemma HeadOrder(s: Sched)
    requires Numbered(s) && s.ops != []
    ensures Increasing(HeadCalls(s)) <==> !Frees(s, 2)
    ensures Increasing(HeadCalls(s) + [s.ops[0].uid]) <==> !Frees(s, 1)
  {
    var rest := Fates(s.ops[1..]);
    RisingFates(s);
    RunOrder(rest);
    if Frees(s, 1) {
      assert rest[ZeroRun(rest) - 1].uid > s.ops[0].uid;
      NotRising(HeadCalls(s), s.ops[0].uid);
    }
  }

  lemma NotRising(calls: seq<nat>, last: nat)
    requires calls != [] && calls[0] > last
    ensures !Increasing(calls + [last])
  {
    var all := calls + [last];
    assert all[0] > all[|calls|];
  }

  lemma AckOrder(s: Sched, e: Input)
    requires Numbered(s) && IsAck(e)
    ensures Increasing(AckCalls(s, e)) <==> !AckInverts(s, e)
  {
    var i := Find(s.ops, e.id);
    if i < |s.ops| {
      if !LegitAck(s, i, e.InPubcomp?) {
        RisingFates(s);
        SweepOrder(Fates(s.ops), s.ops[i].uid);
      } else if i == 0 && !Continues(e, s.ops[0]) {
        HeadOrder(s);
      }
    }
  }

  lemma EndOrder(s: Sched, e: Input)
    requires Numbered(s) && (e.InCancel? || e.InTimeout?)
    ensures Increasing(Calls(s, e)) <==> !Inverts(s, e)
  {
    if s.ops != [] {
      HeadOrder(s);
    }
  }

  lemma ReconnectOrder(s: Sched, e: Input)
    requires Numbered(s) && e.InConnack?
    ensures Increasing(Calls(s, e)) <==> !Inverts(s, e)
  {
    RisingFates(s);
    RunOrder(Fates(s.ops));
  }

  lemma CallsOrder(s: Sched, e: Input)
    requires Numbered(s)
    ensures Increasing(Calls(s, e)) <==> !Inverts(s, e)
  {
    if IsAck(e) {
      AckOrder(s, e);
    } else if e.InCancel? || e.InTimeout? {
      EndOrder(s, e);
    } else if e.InConnack? {
      ReconnectOrder(s, e);
    }
  }

  /** With full ordering the callbacks of deliveries that an input makes follow
      submission order if and only if it is not one of these. */
  lemma CallbacksInOrderIff(s: Sched, e: Input)
    requires Reachable(s) && s.ordering.Full? && Enabled(s, e)
    ensures var before := Delivered(s.reports); var after := Delivered(Next(s, e).reports);
            && before <= after
            && (Increasing(after[|before|..]) <==> !Inverts(s, e))
  {
    CallbacksAre(s, e);
    ReachableQueue(s);
    CallsOrder(s, e);
    assert Delivered(Next(s, e).reports)[|Delivered(s.reports)|..] == Calls(s, e);
  }

  /** All callbacks of a completed head: in submission order exactly when it frees
      no QoS 0 publish. */
  lemma HeadCallbacksInOrderIff(s: Sched, st: Status)
    requires Queue(s) && s.ordering.Full? && s.inFlight > 0
    ensures var r := Complete(s, 0, st);
            && s.reports <= r.reports
            && (Increasing(Uids(r.reports[|s.reports|..])) <==> !Frees(s, 1))
  {
    var z := if Resumes(s) then ZeroRun(Fates(s.ops[1..])) else 0;
    var left := [Exit(s.ops[0].uid, st)] + ExitsOf(s.ops[1..][..z], Sent);
    HeadExits(s, st, z);
    CallbacksReverseExits(s, 0, st);
    assert Complete(s, 0, st).exits[|s.exits|..] == left;
    assert Complete(s, 0, st).reports[|s.reports|..] == Reverse(left);
    if z > 0 {
      assert left[0].uid < left[1].uid;
    }
    ReversedOrder(left);
  }

  lemma HeadExits(s: Sched, st: Status, z: nat)
    requires Queue(s) && s.ordering.Full? && s.inFlight > 0
    requires z == if Resumes(s) then ZeroRun(Fates(s.ops[1..])) else 0
    ensures Complete(s, 0, st).exits == s.exits + ([Exit(s.ops[0].uid, st)] + ExitsOf(s.ops[1..][..z], Sent))
  {
    OwnCall(s, 0, st);
    if Resumes(s) {
      HeadSettles(s, st);
      DrainIs(RemoveAt(s, 0, st), ExitsOf(s.ops[1..][..z], Sent));
    } else {
      StillLeaves(s, 0, st);
    }
    Assoc(s.exits, Exit(s.ops[0].uid, st), ExitsOf(s.ops[1..][..z], Sent));
  }

  lemma Assoc(a: seq<Exit>, x: Exit, b: seq<Exit>)
    ensures a + [x] + b == a + ([x] + b)
    ensures b == [] ==> a + [x] == a + ([x] + b)
  {
  }

  lemma ReversedOrder(left: seq<Exit>)
    requires left != [] && (|left| > 1 ==> left[0].uid < left[1].uid)
    ensures Increasing(Uids(Reverse(left))) <==> |left| == 1
  {
    var u := Uids(Reverse(left));
    if |left| > 1 {
      assert u[|u| - 1] == left[0].uid && u[|u| - 2] == left[1].uid;
    }
  }

  // ----- whole runs

  lemma {:induction false} DeliveredFrom(xs: seq<Exit>, k: nat)
    requires k < |Delivered(xs)|
    ensures exists e :: e in xs && e.status.Delivered() && e.uid == Delivered(xs)[k]
  {
    var n := |xs| - 1;
    if k < |Delivered(xs[..n])| {
      DeliveredFrom(xs[..n], k);
    } else {
      assert xs[n] in xs;
    }
  }

  lemma {:induction false} DeliveredHas(xs: seq<Exit>, e: Exit)
    requires e in xs && e.status.Delivered()
    ensures e.uid in Delivered(xs)
  {
    var n := |xs| - 1;
    if xs[n] != e {
      DeliveredHas(xs[..n], e);
    }
  }

  lemma {:induction false} ReportableFrom(xs: seq<Exit>, e: Exit)
    requires e in Reportable(xs)
    ensures e in xs
  {
    var n := |xs| - 1;
    if e in Reportable(xs[..n]) {
      ReportableFrom(xs[..n], e);
    }
  }

  /** The oldest submission number still to be reported. */
  function Oldest(s: Sched): nat {
    if s.ops == [] then s.nextUid else s.ops[0].uid
  }

  lemma ReportsBelow(s: Sched, k: nat)
    requires Reachable(s) && s.ordering.Full? && k < |Delivered(s.reports)|
    ensures Delivered(s.reports)[k] < Oldest(s)
  {
    ReachableInv(s);
    DeliveredFrom(s.reports, k);
    var e :| e in s.reports && e.status.Delivered() && e.uid == Delivered(s.reports)[k];
    assert e in multiset(s.reports);
    assert e in multiset(Reportable(s.exits));
    ReportableFrom(s.exits, e);
    DeliveredHas(s.exits, e);
  }

  lemma RunAbove(fs: seq<Fate>, m: nat)
    requires forall i :: 0 <= i < |fs| ==> m <= fs[i].uid
    ensures forall k :: 0 <= k < |RunCalls(fs)| ==> m <= RunCalls(fs)[k]
  {
  }

  lemma HeadCallsAbove(s: Sched)
    requires Numbered(s) && s.ops != []
    ensures forall k :: 0 <= k < |HeadCalls(s)| ==> Oldest(s) <= HeadCalls(s)[k]
  {
    RunAbove(Fates(s.ops[1..]), s.ops[0].uid);
  }

  lemma AckCallsAbove(s: Sched, e: Input)
    requires Numbered(s) && IsAck(e)
    ensures forall k :: 0 <= k < |AckCalls(s, e)| ==> Oldest(s) <= AckCalls(s, e)[k]
  {
    var i := Find(s.ops, e.id);
    if i < |s.ops| {
      if !LegitAck(s, i, e.InPubcomp?) {
        RisingFates(s);
        SweepCallsAbove(Fates(s.ops), s.ops[i].uid);
      } else {
        HeadCallsAbove(s);
      }
    }
  }

  lemma CallsAbove(s: Sched, e: Input)
    requires Numbered(s)
    ensures forall k :: 0 <= k < |Calls(s, e)| ==> Oldest(s) <= Calls(s, e)[k]
  {
    if IsAck(e) {
      AckCallsAbove(s, e);
    } else if s.ops != [] {
      if e.InConnack? {
        RunAbove(Fates(s.ops), s.ops[0].uid);
      } else {
        HeadCallsAbove(s);
      }
    }
  }

  lemma StepInOrder(s: Sched, e: Input)
    requires Reachable(s) && s.ordering.Full? && Enabled(s, e)
    ensures Increasing(Delivered(Next(s, e).reports)) <==> Increasing(Delivered(s.reports)) && !Inverts(s, e)
  {
    var before, calls := Delivered(s.reports), Calls(s, e);
    CallbacksAre(s, e);
    ReachableQueue(s);
    CallsOrder(s, e);
    CallsAbove(s, e);
    assert forall k :: 0 <= k < |before| ==> before[k] < Oldest(s) by {
      forall k | 0 <= k < |before| ensures before[k] < Oldest(s) {
        ReportsBelow(s, k);
      }
    }
    ConcatOrder(before, calls, Oldest(s));
  }

  /** No input of the run is one of those. */
  predicate NeverInverts(s: Sched, es: seq<Input>)
    decreases |es|
  {
    es == [] || (!Inverts(s, es[0]) && NeverInverts(Next(s, es[0]), es[1..]))
  }

  lemma {:induction false} RunInOrder(s: Sched, es: seq<Input>)
    requires Reachable(s) && s.ordering.Full? && Possible(s, es)
    ensures Increasing(Delivered(Run(s, es).reports)) <==> Increasing(Delivered(s.reports)) && NeverInverts(s, es)
    decreases |es|
  {
    if es != [] {
      StepInOrder(s, es[0]);
      ReachableNext(s, es[0]);
      RunInOrder(Next(s, es[0]), es[1..]);
    }
  }

  /** Over a whole run from start-up with full ordering, the callbacks of deliveries
      follow submission order if and only if no input of it puts them out of order. */
  lemma RunCallbacksInOrderIff(capacity: nat, es: seq<Input>)
    requires Possible(Initial(Full, capacity), es)
    ensures Increasing(Delivered(Run(Initial(Full, capacity), es).reports)) <==> NeverInverts(Initial(Full, capacity), es)
  {
    ReachableInitial(Full, capacity);
    RunInOrder(Initial(Full, capacity), es);
  }

  // ----- what an acknowledgement out of turn sets free

  /** The target is the last publish in flight, all in flight have used up their
      attempts, and a QoS 0 publish waits behind them. */
  predicate FreedByAck(s: Sched, n: nat) {
    && s.ordering.Full? && Resumes(s)
    && n + 1 == s.inFlight < |s.ops| && s.ops[s.inFlight].qos == 0
    && forall j :: 0 <= j < s.inFlight ==> IsExhausted(s.ops[j])
  }

  ghost predicate AllDoomed(fs: seq<Fate>, p: nat)
    requires p <= |fs|
  {
    forall j :: 0 <= j < p ==> fs[j].doomed
  }

  lemma {:induction false} SweepCallsIff(fs: seq<Fate>, p: nat, n: nat, target: nat)
    requires Rising(fs) && n < p <= |fs| && fs[n].uid == target && AllHigh(fs, p)
    ensures SweepCalls(fs, target) != [] <==>
            n + 1 == p < |fs| && fs[p].qos == 0 && AllDoomed(fs, p)
    decreases p
  {
    DoomedCons(fs, p);
    if n == 0 || !fs[0].doomed {
      HeadDecides(fs, target);
    } else {
      HighTail(fs, p, n);
      PassDoomed(fs, target);
      SweepCallsIff(fs[1..], p - 1, n - 1, target);
    }
  }

  ghost predicate AllHigh(fs: seq<Fate>, p: nat)
    requires p <= |fs|
  {
    forall j :: 0 <= j < p ==> fs[j].qos > 0
  }

  lemma HighTail(fs: seq<Fate>, p: nat, n: nat)
    requires Rising(fs) && 0 < n < p <= |fs| && AllHigh(fs, p)
    ensures Rising(fs[1..]) && AllHigh(fs[1..], p - 1)
    ensures fs[1].qos > 0 && fs[0].uid != fs[n].uid && fs[1..][n - 1] == fs[n]
    ensures p < |fs| ==> fs[1..][p - 1] == fs[p]
  {
  }

  lemma HeadDecides(fs: seq<Fate>, target: nat)
    requires fs != [] && (fs[0].uid == target || !fs[0].doomed)
    ensures SweepCalls(fs, target) != [] <==> fs[0].doomed && |fs| > 1 && fs[1].qos == 0
  {
  }

  lemma NoRun(fs: seq<Fate>)
    requires fs != [] && fs[0].qos > 0
    ensures AfterRun(fs) == fs && RunCalls(fs) == []
  {
  }

  lemma PassDoomed(fs: seq<Fate>, target: nat)
    requires |fs| > 1 && fs[0].doomed && fs[0].uid != target && fs[1].qos > 0
    ensures SweepCalls(fs, target) == SweepCalls(fs[1..], target)
  {
    NoRun(fs[1..]);
  }

  lemma DoomedCons(fs: seq<Fate>, p: nat)
    requires 0 < p <= |fs|
    ensures AllDoomed(fs, p) <==> fs[0].doomed && AllDoomed(fs[1..], p - 1)
  {
    if fs[0].doomed && AllDoomed(fs[1..], p - 1) {
      forall j | 0 <= j < p ensures fs[j].doomed {
        assert j > 0 ==> fs[j] == fs[1..][j - 1];
      }
    }
  }

  /** With same-QoS ordering no QoS 0 publish ever waits, so none is set free. */
  lemma {:induction false} SettleSameQos(s: Sched)
    requires Queue(s) && s.ordering.SameQos?
    ensures Settle(s).exits == s.exits
    decreases |s.ops| - s.inFlight
  {
    if CanResume(s) {
      assert WaitingOp(s.ordering, s.ops[s.inFlight]);
      ResumeOneQueue(s);
      SettleSameQos(ResumeOne(s));
    }
  }

  lemma ForceResendSameQos(s: Sched, i: nat)
    requires Tidy(s) && s.ordering.SameQos? && i < |s.ops|
    ensures Tidy(ForceResend(s, i)) && ExitsBy(ForceResend(s, i).exits, Sent) == ExitsBy(s.exits, Sent)
  {
    ForceResendTidy(s, i);
    RemoveQueue(s, i, TimedOut);
    SettleSameQos(RemoveAt(s, i, TimedOut));
    PushExitBy(s.exits, Exit(s.ops[i].uid, TimedOut), Sent);
  }

  lemma SweepSameQos(s: Sched, target: nat)
    requires Tidy(s) && s.ordering.SameQos?
    ensures ExitsBy(ResendUntil(s, 0, target).exits, Sent) == ExitsBy(s.exits, Sent)
  {
    var d := ExitsBy(s.exits, Sent);
    forall t: Sched, j: nat | Tidy(t) && t.ordering.SameQos? && ExitsBy(t.exits, Sent) == d && j < |t.ops|
      ensures Tidy(ForceResend(t, j)) && ExitsBy(ForceResend(t, j).exits, Sent) == d
    {
      ForceResendSameQos(t, j);
    }
    SweepKeeps(s, 0, target, t => Tidy(t) && t.ordering.SameQos? && ExitsBy(t.exits, Sent) == d);
  }

  lemma SweepFreesIff(s: Sched, n: nat)
    requires Tidy(s) && n < |s.ops| && s.ops[n].published
    ensures var r := ResendUntil(s, 0, s.ops[n].uid);
            |ExitsBy(r.exits, Sent)| > |ExitsBy(s.exits, Sent)| <==> FreedByAck(s, n)
  {
    InFlightIff(s, n);
    if s.ordering.SameQos? {
      SweepSameQos(s, s.ops[n].uid);
    } else if !Resumes(s) {
      SweepStill(s, s.ops[n].uid);
    } else {
      SweepAdds(s, s.ops[n].uid);
      RisingFates(s);
      InFlightFates(s);
      SweepCallsIff(Fates(s.ops), s.inFlight, n, s.ops[n].uid);
    }
  }

  lemma InFlightFates(s: Sched)
    requires Queue(s)
    ensures AllHigh(Fates(s.ops), s.inFlight)
    ensures forall j :: 0 <= j < s.inFlight ==> Fates(s.ops)[j].doomed == IsExhausted(s.ops[j])
  {
    forall j | 0 <= j < s.inFlight
      ensures Fates(s.ops)[j].qos > 0 && Fates(s.ops)[j].doomed == IsExhausted(s.ops[j])
    {
      InFlightIff(s, j);
    }
  }

  /** An acknowledgement out of turn completes a publish, namely a QoS 0 one that
      was waiting, if and only if it ends everything in flight in front of it. */
  lemma OutOfOrderAckFreesIff(s: Sched, e: Input)
    requires Reachable(s) && IsAck(e)
    requires var n := Find(s.ops, e.id); n < |s.ops| && s.ops[n].published && !LegitAck(s, n, e.InPubcomp?)
    ensures |ExitsBy(Next(s, e).exits, Sent)| > |ExitsBy(s.exits, Sent)| <==> FreedByAck(s, Find(s.ops, e.id))
  {
    ReachableInv(s);
    SweepFreesIff(s, Find(s.ops, e.id));
    OutOfTurnIs(s, e, e.id);
  }
}
