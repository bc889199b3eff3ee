/** Every step of the client keeps the scheduler invariant, so every run does. */
module SendSteps {
  import opened Protocol
  import opened SendModel
  import opened SendInvariant
  import opened SendActions

  /** What no action on the queue touches. */
  ghost predicate SameSession(a: Sched, b: Sched) {
    && a.ordering == b.ordering && a.limit == b.limit && a.connected == b.connected
    && a.disconnecting == b.disconnecting && a.initialized == b.initialized
    && a.keepSession == b.keepSession && a.nextUid == b.nextUid
  }

  /** The core invariant is about the queue, the pool and the history only. */
  ghost predicate SameHistory(s: Sched, t: Sched) {
    t == s.(limit := t.limit, connected := t.connected, disconnecting := t.disconnecting,
            initialized := t.initialized, keepSession := t.keepSession, reports := t.reports)
  }

  lemma QueueFrame(s: Sched, t: Sched)
    requires Queue(s) && Ids(s) && Ledger(s) && SameHistory(s, t)
    ensures Queue(t) && Ids(t) && Ledger(t)
  {
  }

  lemma HistoryFrame(s: Sched, t: Sched)
    requires Order(s) && Fifo(s) && PerQos(s) && Traffic(s) && SameHistory(s, t)
    ensures Order(t) && Fifo(t) && PerQos(t) && Traffic(t)
  {
  }

  lemma CoreFrame(s: Sched, t: Sched)
    requires Core(s) && SameHistory(s, t)
    ensures Core(t)
  {
    QueueFrame(s, t);
    HistoryFrame(s, t);
  }

  ghost predicate Sound(s: Sched) {
    Core(s) && Phase(s) && Reported(s)
  }

  // ----- settling

  lemma {:induction false} SettleKeeps(s: Sched)
    requires Core(s)
    ensures Core(Settle(s)) && !CanResume(Settle(s)) && SameSession(s, Settle(s))
    decreases |s.ops| - s.inFlight
  {
    if CanResume(s) {
      ResumeOneKeeps(s);
      SettleKeeps(ResumeOne(s));
    }
  }

  /** Settling makes publishes leave only by being sent. */
  lemma {:induction false} SettleExits(s: Sched)
    ensures forall k :: |s.exits| <= k < |Settle(s).exits| ==> Settle(s).exits[k].status == Sent
    decreases |s.ops| - s.inFlight
  {
    if CanResume(s) {
      SettleExits(ResumeOne(s));
    }
  }

  lemma {:induction false} ReportableAppend(a: seq<Exit>, b: seq<Exit>)
    requires forall k :: 0 <= k < |b| ==> !b[k].status.Cancelled?
    ensures Reportable(a + b) == Reportable(a) + b
  {
    if b == [] {
      assert a + b == a;
    } else {
      var n := |b| - 1;
      ReportableAppend(a, b[..n]);
      PushExit(a + b[..n], b[n]);
      Unsnoc(a, b);
      Unsnoc(Reportable(a), b);
    }
  }

  lemma Unsnoc(a: seq<Exit>, b: seq<Exit>)
    requires b != []
    ensures a + b == a + b[..|b| - 1] + [b[|b| - 1]]
  {
  }

  lemma {:induction false} ReverseMultiset(xs: seq<Exit>)
    ensures multiset(Reverse(xs)) == multiset(xs)
  {
    if xs == [] {
      assert Reverse(xs) == [];
    } else {
      var n := |xs| - 1;
      ReverseMultiset(xs[..n]);
      assert Reverse(xs) == [xs[n]] + Reverse(xs[..n]);
      assert xs == xs[..n] + [xs[n]];
    }
  }

  /** `late` are reportable exits whose callbacks are still to come. */
  ghost predicate Owed(s: Sched, late: seq<Exit>) {
    multiset(s.reports + late) == multiset(Reportable(s.exits))
  }

  lemma DrainOwed(s: Sched, late: seq<Exit>)
    requires Owed(s, late)
    ensures Owed(Drain(s), late)
  {
    var r := Settle(s);
    var news := r.exits[|s.exits|..];
    SettleExits(s);
    assert r.exits == s.exits + news;
    ReportableAppend(s.exits, news);
    ReverseMultiset(news);
    var d := Drain(s);
    assert multiset(d.reports + late) == multiset(s.reports + late) + multiset(news);
  }

  lemma DrainReported(s: Sched)
    requires Reported(s)
    ensures Reported(Drain(s))
  {
    assert s.reports + [] == s.reports;
    DrainOwed(s, []);
    assert Drain(s).reports + [] == Drain(s).reports;
  }

  lemma DrainKeeps(s: Sched)
    requires Core(s)
    ensures Core(Drain(s)) && !CanResume(Drain(s)) && SameSession(s, Drain(s))
  {
    SettleKeeps(s);
    CoreFrame(Settle(s), Drain(s));
  }

  lemma LeaveKeeps(s: Sched, i: nat, st: Status)
    requires Core(s) && i < |s.ops|
    requires InTurn(s, i, st)
    ensures var r := Leave(s, i, st); Core(r) && SameSession(s, r) && (!s.disconnecting ==> !CanResume(r))
  {
    RemoveKeeps(s, i, st);
    DrainKeeps(RemoveAt(s, i, st));
  }

  lemma LeaveOwed(s: Sched, i: nat, st: Status)
    requires Reported(s) && i < |s.ops|
    ensures Owed(Leave(s, i, st), if st.Cancelled? then [] else [Exit(s.ops[i].uid, st)])
  {
    var e := Exit(s.ops[i].uid, st);
    var late := if st.Cancelled? then [] else [e];
    var g := RemoveAt(s, i, st);
    PushExit(s.exits, e);
    assert g.reports + [] == g.reports;
    assert Owed(g, late);
    DrainOwed(g, late);
  }

  lemma CompleteKeeps(s: Sched, i: nat, st: Status)
    requires Sound(s) && i < |s.ops| && !st.Cancelled?
    requires InTurn(s, i, st)
    ensures var r := Complete(s, i, st); Sound(r) && SameSession(s, r) && (!s.disconnecting ==> !CanResume(r))
  {
    LeaveKeeps(s, i, st);
    LeaveOwed(s, i, st);
    CoreFrame(Leave(s, i, st), Complete(s, i, st));
  }

  lemma CancelReported(s: Sched, i: nat)
    requires Reported(s) && i < |s.ops|
    ensures Reported(Leave(s, i, Cancelled))
  {
    LeaveOwed(s, i, Cancelled);
    var r := Leave(s, i, Cancelled);
    assert r.reports + [] == r.reports;
  }

  lemma CancelKeeps(s: Sched, i: nat)
    requires Sound(s) && i < |s.ops|
    ensures var r := Leave(s, i, Cancelled); Sound(r) && (!r.disconnecting ==> !CanResume(r))
  {
    LeaveKeeps(s, i, Cancelled);
    CancelReported(s, i);
  }

  lemma OnCancelKeeps(s: Sched, uid: nat)
    requires Inv(s)
    ensures Inv(OnCancel(s, uid))
  {
    var i := FindUid(s.ops, uid);
    if i < |s.ops| {
      CancelKeeps(s, i);
    }
  }

  // ----- retransmission

  lemma InFlightIff(s: Sched, i: nat)
    requires Queue(s) && i < |s.ops|
    ensures s.ops[i].published <==> i < s.inFlight
    ensures s.ops[i].paused <==> s.inFlight <= i
    ensures i < s.inFlight ==> InFlightOp(s.ops[i])
  { }

  lemma RetransmitStuck(s: Sched, i: nat)
    requires Queue(s) && i < s.inFlight && Queue(Retransmit(s, i, Retry))
    ensures CanResume(s) == CanResume(Retransmit(s, i, Retry))
  {
    StillStuck(s, Retransmit(s, i, Retry));
  }

  lemma RetransmitInv(s: Sched, i: nat)
    requires Inv(s) && i < s.inFlight && s.ops[i].attempts < s.ops[i].total
    ensures Inv(Retransmit(s, i, Retry))
  {
    RetransmitKeeps(s, i, Retry);
    RetransmitStuck(s, i);
  }

  /** Whether the first paused publish may send depends only on the QoS of those before it. */
  lemma StillStuck(s: Sched, r: Sched)
    requires Queue(s) && Queue(r) && |r.ops| == |s.ops| && r.inFlight == s.inFlight
    requires r.ordering == s.ordering && r.limit == s.limit
    requires forall j :: 0 <= j < |s.ops| ==> r.ops[j].qos == s.ops[j].qos
    ensures CanResume(s) == CanResume(r)
  { }

  lemma ForceResendKeeps(s: Sched, i: nat)
    requires Inv(s) && i < |s.ops|
    ensures Inv(ForceResend(s, i))
  {
    InFlightIff(s, i);
    if i < s.inFlight {
      if s.ops[i].total <= s.ops[i].attempts {
        CompleteKeeps(s, i, TimedOut);
      } else {
        RetransmitInv(s, i);
      }
    }
  }

  /** Whatever one forced resend keeps, the whole sweep keeps. */
  lemma {:induction false} SweepKeeps(s: Sched, i: nat, uid: nat, P: Sched -> bool)
    requires P(s)
    requires forall t: Sched, j: nat :: P(t) && j < |t.ops| ==> P(ForceResend(t, j))
    ensures P(ResendUntil(s, i, uid))
    decreases |s.ops| - i
  {
    if i < |s.ops| {
      var r := ForceResend(s, i);
      assert P(r);
      if s.ops[i].uid != uid {
        SweepKeeps(r, Onward(r, i, s.ops[i].uid), uid, P);
      }
    }
  }

  lemma ResendUntilKeeps(s: Sched, i: nat, uid: nat)
    requires Inv(s)
    ensures Inv(ResendUntil(s, i, uid))
  {
    forall t: Sched, j: nat | Inv(t) && j < |t.ops| ensures Inv(ForceResend(t, j)) {
      ForceResendKeeps(t, j);
    }
    SweepKeeps(s, i, uid, t => Inv(t));
  }

  // ----- the end of the connection

  lemma {:induction false} AbortAllKeeps(s: Sched, st: Status)
    requires Sound(s) && !st.Delivered() && !st.Cancelled?
    ensures var r := AbortAll(s, st); Sound(r) && SameSession(s, r) && r.ops == []
    decreases |s.ops|
  {
    if s.ops != [] {
      CompleteKeeps(s, 0, st);
      AbortAllKeeps(Complete(s, 0, st), st);
    }
  }

  lemma DropKeeps(s: Sched, st: Status)
    requires Sound(s) && !st.Delivered() && !st.Cancelled?
    ensures Inv(Drop(s, st))
  {
    var down := s.(connected := false, disconnecting := true, initialized := false);
    CoreFrame(s, down);
    if !s.keepSession {
      AbortAllKeeps(down, st);
    }
  }

  /** Packets that belong to no publish. */
  lemma NoticeKeeps(s: Sched, p: Packet)
    requires Core(s) && !p.Publish? && !p.Pubrel?
    ensures Core(s.(wire := s.wire + [p]))
  {
    NoticeOrder(s, p);
    NoticeTraffic(s, p);
    NoticeBooks(s, p);
  }

  lemma NoticeOrder(s: Sched, p: Packet)
    requires Order(s) && !p.Publish?
    ensures Order(s.(wire := s.wire + [p]))
  {
    PushWire(s.wire, p);
  }

  lemma NoticeBooks(s: Sched, p: Packet)
    requires Queue(s) && Ids(s) && Fifo(s) && PerQos(s) && Ledger(s)
    ensures var r := s.(wire := s.wire + [p]); Queue(r) && Ids(r) && Fifo(r) && PerQos(r) && Ledger(r)
  {
    var r := s.(wire := s.wire + [p]);
    assert Queue(r);
    assert Fifo(r) && PerQos(r);
  }

  lemma NoticeTraffic(s: Sched, p: Packet)
    requires Traffic(s) && !p.Publish? && !p.Pubrel?
    ensures Traffic(s.(wire := s.wire + [p]))
  {
    PushWire(s.wire, p);
    var r := s.(wire := s.wire + [p]);
    forall i | 0 <= i < |r.ops| ensures Accounted(History(r.wire, r.ops[i].uid), r.ops[i]) {
      assert Accounted(History(s.wire, s.ops[i].uid), s.ops[i]);
    }
  }

  lemma ViolationKeeps(s: Sched, i: nat)
    requires Sound(s) && i < |s.ops|
    ensures Inv(Violation(s, i))
  {
    CompleteKeeps(s, i, ProtocolError);
    NoticeThenDrop(Complete(s, i, ProtocolError));
  }

  lemma NoticeThenDrop(s: Sched)
    requires Sound(s)
    ensures Inv(Drop(s.(wire := s.wire + [Disconnect]), BrokerDisconnected))
  {
    NoticeKeeps(s, Disconnect);
    DropKeeps(s.(wire := s.wire + [Disconnect]), BrokerDisconnected);
  }

  // ----- acknowledgements

  /** With full ordering an acknowledged QoS 1 publish is the head of the queue. */
  lemma LegitPubackIsHead(s: Sched, i: nat)
    requires Queue(s) && i < |s.ops| && s.ordering.Full?
    requires LegitAck(s, i, false) && s.ops[i].qos == 1
    ensures i == 0
  {
    InFlightIff(s, i);
    assert InFlightOp(s.ops[0]);
  }

  /** A taken PUBACK overtakes no QoS 1 publish. */
  lemma LegitPubackInTurn(s: Sched, i: nat)
    requires Queue(s) && i < |s.ops|
    requires LegitAck(s, i, false) && s.ops[i].qos == 1
    ensures InTurn(s, i, Acked)
  {
    InFlightIff(s, i);
    if s.ordering.Full? {
      LegitPubackIsHead(s, i);
    }
    forall j | 0 <= j < i ensures s.ops[j].qos == 2 {
      assert InFlightOp(s.ops[j]);
    }
  }

  lemma LegitIsInFlight(s: Sched, i: nat, pubcomp: bool)
    requires Queue(s) && i < |s.ops| && LegitAck(s, i, pubcomp)
    ensures i < s.inFlight
  {
    InFlightIff(s, i);
  }

  lemma OnPubackKeeps(s: Sched, id: nat, wf: bool)
    requires Inv(s)
    ensures Inv(OnPuback(s, id, wf))
  {
    var i := Find(s.ops, id);
    if i == |s.ops| {
    } else if !LegitAck(s, i, false) {
      ResendUntilKeeps(s, 0, s.ops[i].uid);
    } else if s.ops[i].qos != 1 || !wf {
      ViolationKeeps(s, i);
    } else {
      LegitPubackInTurn(s, i);
      CompleteKeeps(s, i, Acked);
    }
  }

  lemma NoticeInv(s: Sched, p: Packet)
    requires Inv(s) && !p.Publish? && !p.Pubrel?
    ensures Inv(s.(wire := s.wire + [p]))
  {
    NoticeKeeps(s, p);
    StillStuck(s, s.(wire := s.wire + [p]));
  }

  lemma AckStuck(s: Sched, i: nat)
    requires Queue(s) && i < s.inFlight && Queue(AckAt(s, i))
    ensures CanResume(s) == CanResume(AckAt(s, i))
  {
    StillStuck(s, AckAt(s, i));
  }

  lemma AckInv(s: Sched, i: nat)
    requires Inv(s) && i < s.inFlight
    requires s.ops[i].qos == 2 && !s.ops[i].acked && forall j :: 0 <= j < i ==> s.ops[j].acked
    ensures Inv(AckAt(s, i))
  {
    AckKeeps(s, i);
    AckStuck(s, i);
  }

  lemma OnPubrecKeeps(s: Sched, id: nat, refused: bool, wf: bool)
    requires Inv(s)
    ensures Inv(OnPubrec(s, id, refused, wf))
  {
    var i := Find(s.ops, id);
    if i == |s.ops| {
      NoticeInv(s, PubrelUnknown(id));
    } else if !LegitAck(s, i, false) {
      ResendUntilKeeps(s, 0, s.ops[i].uid);
    } else if s.ops[i].qos != 2 || s.ops[i].acked || !wf {
      ViolationKeeps(s, i);
    } else if refused {
      CompleteKeeps(s, i, Refused);
    } else {
      LegitIsInFlight(s, i, false);
      AckInv(s, i);
    }
  }

  lemma OnPubcompKeeps(s: Sched, id: nat, wf: bool)
    requires Inv(s)
    ensures Inv(OnPubcomp(s, id, wf))
  {
    var i := Find(s.ops, id);
    if i == |s.ops| {
    } else if !LegitAck(s, i, true) {
      ResendUntilKeeps(s, 0, s.ops[i].uid);
    } else if s.ops[i].qos != 2 || !s.ops[i].acked || !wf {
      ViolationKeeps(s, i);
    } else {
      CompleteKeeps(s, i, Completed);
    }
  }

  lemma OnTimeoutKeeps(s: Sched, uid: nat)
    requires Inv(s)
    ensures Inv(OnTimeout(s, uid))
  {
    var i := FindUid(s.ops, uid);
    if i < |s.ops| && s.ops[i].published {
      InFlightIff(s, i);
      ForceResendKeeps(s, i);
    }
  }

  // ----- publishing

  /** Behind a paused publish nothing new may send, except QoS 0 with same-QoS ordering. */
  lemma PausedBlocks(s: Sched, qos: Qos, total: nat)
    requires Inv(s) && !s.disconnecting && s.inFlight < |s.ops|
    requires s.ordering.Full? || qos > 0
    ensures !CanSend(Submitted(s, qos, total), |s.ops|)
  { }

  lemma PendingBlocksQos0(s: Sched, total: nat)
    requires Queue(s) && s.ordering.Full? && s.inFlight == |s.ops| > 0
    ensures !CanSend(Submitted(s, 0, total), |s.ops|)
  { }

  /** A publish above QoS 0, or any with full ordering, that may send at once finds nothing paused. */
  lemma NewSenderIsFirst(s: Sched, qos: Qos, total: nat)
    requires Inv(s) && !s.disconnecting
    requires CanSend(Submitted(s, qos, total), |s.ops|)
    requires s.ordering.Full? || qos > 0
    ensures s.inFlight == |s.ops|
    ensures CanResume(Joined(s, qos, total))
    ensures qos == 0 ==> s.ops == []
  {
    if s.inFlight < |s.ops| {
      PausedBlocks(s, qos, total);
      assert false;
    }
    SameTest(s, qos, total);
    if qos == 0 && s.ops != [] {
      PendingBlocksQos0(s, total);
      assert false;
    }
  }

  /** Being marked paused itself makes no difference to whether a publish may send. */
  lemma SameTest(s: Sched, qos: Qos, total: nat)
    ensures CanSend(Joined(s, qos, total), |s.ops|) == CanSend(Submitted(s, qos, total), |s.ops|)
  {
    var q, t := Joined(s, qos, total), Submitted(s, qos, total);
    assert forall j :: 0 <= j < |t.ops| ==> q.ops[j].qos == t.ops[j].qos;
    assert forall j :: 0 <= j < |s.ops| ==> q.ops[j] == t.ops[j];
  }

  /** A QoS 0 publish sent at once leaves only its traces. */
  function SentThrough(s: Sched): Sched {
    var e := Exit(s.nextUid, Sent);
    Passed(s.(nextUid := s.nextUid + 1, exits := s.exits + [e]), s.nextUid)
  }

  lemma SentThroughIs(s: Sched, total: nat)
    requires s.inFlight <= |s.ops|
    ensures var t := SendAt(Submitted(s, 0, total), |s.ops|);
            RemoveAt(t, |s.ops|, Sent) == SentThrough(s)
  { }

  lemma SentThroughBooks(s: Sched)
    requires Ledger(s) && Fifo(s) && Numbered(s)
    requires s.ordering.Full? ==> s.ops == []
    ensures Ledger(SentThrough(s)) && Fifo(SentThrough(s))
  { }

  lemma SentThroughInOrderBy(s: Sched, kind: Status)
    requires kind.Delivered() && InOrderBy(s, kind)
    requires forall i :: 0 <= i < |s.ops| ==> s.ops[i].qos > 0
    ensures InOrderBy(SentThrough(s), kind)
  {
    PushExitBy(s.exits, Exit(s.nextUid, Sent), kind);
    var r := SentThrough(s);
    if kind == Sent {
      assert ExitsBy(r.exits, kind) == ExitsBy(s.exits, kind) + [s.nextUid];
    } else {
      assert ExitsBy(r.exits, kind) == ExitsBy(s.exits, kind);
    }
  }

  lemma SentThroughPerQos(s: Sched)
    requires PerQos(s) && Queue(s)
    requires s.ordering.Full? ==> s.ops == []
    ensures PerQos(SentThrough(s))
  {
    forall i | 0 <= i < |s.ops| ensures s.ops[i].qos > 0 {
      InFlightIff(s, i);
    }
    SentThroughInOrderBy(s, Sent);
    SentThroughInOrderBy(s, Acked);
    SentThroughInOrderBy(s, Completed);
  }

  lemma SentThroughWire(s: Sched)
    requires Order(s) && Traffic(s) && Numbered(s)
    requires s.ordering.Full? ==> s.ops == []
    ensures Order(SentThrough(s)) && Traffic(SentThrough(s))
  {
    var t := s.(nextUid := s.nextUid + 1, exits := s.exits + [Exit(s.nextUid, Sent)]);
    assert Order(t);
    PassOrder(t, s.nextUid);
    SentThroughTraffic(s);
  }

  lemma SentThroughTraffic(s: Sched)
    requires Traffic(s) && Numbered(s)
    ensures Traffic(SentThrough(s))
  {
    var t := s.(nextUid := s.nextUid + 1, exits := s.exits + [Exit(s.nextUid, Sent)]);
    assert !Pending(s.ops, s.nextUid);
    assert Traffic(t);
    PassTraffic(t, s.nextUid);
  }

  lemma SentThroughKeeps(s: Sched)
    requires Core(s)
    requires s.ordering.Full? ==> s.ops == []
    ensures Core(SentThrough(s))
  {
    SentThroughBooks(s);
    SentThroughPerQos(s);
    SentThroughWire(s);
    assert Queue(SentThrough(s)) && Ids(SentThrough(s));
  }

  lemma CompleteSentThrough(s: Sched, total: nat)
    requires s.inFlight <= |s.ops| && !s.disconnecting && !CanResume(SentThrough(s))
    ensures var i := |s.ops|;
            Complete(SendAt(Submitted(s, 0, total), i), i, Sent) == SentAndReported(s)
  {
    var g := SentThrough(s);
    SentThroughIs(s, total);
    assert Settle(g) == g;
    assert Reverse(g.exits[|g.exits|..]) == [];
    assert g.reports + [] == g.reports;
  }

  lemma SentThroughStuck(s: Sched)
    requires Queue(s) && !CanResume(s)
    ensures !CanResume(SentThrough(s)) && !CanResume(SentAndReported(s))
  { }

  lemma SentAndReportedCore(s: Sched)
    requires Core(s)
    requires s.ordering.Full? ==> s.ops == []
    ensures Core(SentAndReported(s))
  {
    SentThroughKeeps(s);
    CoreFrame(SentThrough(s), SentAndReported(s));
  }

  function SentAndReported(s: Sched): Sched {
    SentThrough(s).(reports := s.reports + [Exit(s.nextUid, Sent)])
  }

  lemma SentThroughReported(s: Sched)
    requires Reported(s)
    ensures Reported(SentAndReported(s))
  {
    PushExit(s.exits, Exit(s.nextUid, Sent));
  }

  lemma SentThroughInv(s: Sched)
    requires Inv(s) && !s.disconnecting
    requires s.ordering.Full? ==> s.ops == []
    ensures Inv(SentAndReported(s))
  {
    SentThroughStuck(s);
    SentAndReportedCore(s);
    SentThroughReported(s);
  }

  lemma PublishSentThrough(s: Sched, total: nat)
    requires Inv(s) && !s.disconnecting
    requires s.ordering.Full? ==> s.ops == []
    ensures var i := |s.ops|; Inv(Complete(SendAt(Submitted(s, 0, total), i), i, Sent))
  {
    SentThroughStuck(s);
    CompleteSentThrough(s, total);
    SentThroughInv(s);
  }

  lemma PublishSentCore(s: Sched, qos: Qos, total: nat)
    requires Core(s) && total > 0 && qos > 0 && s.inFlight == |s.ops|
    requires CanResume(Joined(s, qos, total))
    ensures Core(SendAt(Submitted(s, qos, total), |s.ops|))
  {
    JoinKeeps(s, qos, total);
    assert SendAt(Submitted(s, qos, total), |s.ops|) == SendAt(Joined(s, qos, total), |s.ops|);
    SendAtKeeps(Joined(s, qos, total));
  }

  lemma PublishSentKeeps(s: Sched, qos: Qos, total: nat)
    requires Inv(s) && s.connected && total > 0 && qos > 0
    requires CanSend(Submitted(s, qos, total), |s.ops|)
    ensures Inv(SendAt(Submitted(s, qos, total), |s.ops|))
  {
    NewSenderIsFirst(s, qos, total);
    PublishSentCore(s, qos, total);
  }

  lemma OnPublishKeeps(s: Sched, qos: Qos, total: nat)
    requires Inv(s) && total > 0
    ensures Inv(OnPublish(s, qos, total))
  {
    if s.connected && !s.disconnecting {
      var t := Submitted(s, qos, total);
      var i := |s.ops|;
      if !CanSend(t, i) {
        JoinStuck(s, qos, total);
      } else if qos > 0 {
        PublishSentKeeps(s, qos, total);
      } else {
        if s.ordering.Full? {
          NewSenderIsFirst(s, qos, total);
        }
        PublishSentThrough(s, total);
      }
    }
  }

  lemma JoinStuck(s: Sched, qos: Qos, total: nat)
    requires Inv(s) && s.connected && total > 0
    requires !CanSend(Submitted(s, qos, total), |s.ops|)
    ensures Inv(Joined(s, qos, total))
  {
    JoinKeeps(s, qos, total);
    JoinBlocked(s, qos, total);
  }

  lemma JoinBlocked(s: Sched, qos: Qos, total: nat)
    requires s.inFlight <= |s.ops| && !CanResume(s) && !CanSend(Submitted(s, qos, total), |s.ops|)
    ensures !CanResume(Joined(s, qos, total))
  {
    var q := Joined(s, qos, total);
    assert forall j :: 0 <= j < |s.ops| ==> q.ops[j] == s.ops[j];
    if s.inFlight < |s.ops| {
      assert HasHigherQosBefore(q.ops, s.inFlight) == HasHigherQosBefore(s.ops, s.inFlight);
    } else {
      SameTest(s, qos, total);
    }
  }

  // ----- reconnecting

  function Resumed(s: Sched, k: nat): Sched
    requires k <= |s.ops|
  {
    s.(ops := Redelivered(s.ops, k), wire := s.wire + RedeliveryPackets(s.ops[..k]))
  }

  lemma {:induction false} RedeliverKeeps(s: Sched, k: nat)
    requires Core(s) && k <= |s.ops|
    ensures Core(Resumed(s, k))
  {
    if k == 0 {
      assert Resumed(s, k) == s;
    } else {
      RedeliverKeeps(s, k - 1);
      RedeliverOneMore(s, k - 1);
      InFlightIff(s, k - 1);
      if k - 1 < s.inFlight {
        RetransmitKeeps(Resumed(s, k - 1), k - 1, Reconnect);
      }
    }
  }

  lemma RedeliverOneMore(s: Sched, k: nat)
    requires k < |s.ops|
    ensures var r := Resumed(s, k);
            Resumed(s, k + 1) == if s.ops[k].paused then r else Retransmit(r, k, Reconnect)
  {
    var r := Resumed(s, k);
    assert s.ops[..k + 1][..k] == s.ops[..k];
    if s.ops[k].paused {
      assert Redelivered(s.ops, k + 1) == Redelivered(s.ops, k);
      assert RedeliveryPackets(s.ops[..k + 1]) == RedeliveryPackets(s.ops[..k]);
    } else {
      assert Redelivered(s.ops, k + 1) == Retransmit(r, k, Reconnect).ops;
    }
  }

  lemma OnConnackKeeps(s: Sched, present: bool, limit: nat, keep: bool)
    requires Inv(s) && Enabled(s, InConnack(present, limit, keep))
    ensures Inv(OnConnack(s, present, limit, keep))
  {
    var up := s.(connected := true, limit := limit, keepSession := keep);
    CoreFrame(s, up);
    if present {
      RedeliverKeeps(up, |s.ops|);
      assert s.ops[..|s.ops|] == s.ops;
      DrainKeeps(Resumed(up, |s.ops|));
      DrainReported(Resumed(up, |s.ops|));
    } else {
      AbortAllKeeps(up, Aborted);
    }
  }

  lemma OnPrepareKeeps(s: Sched)
    requires Inv(s)
    ensures Inv(OnPrepareConnect(s))
  {
    var r := OnPrepareConnect(s);
    CoreFrame(s, r);
    if !s.initialized {
      ZeroLimitStuck(r);
    }
  }

  lemma ZeroLimitStuck(s: Sched)
    requires Queue(s) && s.limit == 0
    ensures !CanResume(s)
  { }

  // ----- all steps, all runs

  lemma NextKeeps(s: Sched, e: Input)
    requires Inv(s) && Enabled(s, e)
    ensures Inv(Next(s, e))
  {
    match e
    case InPublish(qos, total) => OnPublishKeeps(s, qos, total);
    case InCancel(uid) => OnCancelKeeps(s, uid);
    case InPuback(id, wf) => OnPubackKeeps(s, id, wf);
    case InPubrec(id, refused, wf) => OnPubrecKeeps(s, id, refused, wf);
    case InPubcomp(id, wf) => OnPubcompKeeps(s, id, wf);
    case InTimeout(uid) => OnTimeoutKeeps(s, uid);
    case InDrop(st) => DropKeeps(s, st);
    case InPrepareConnect => OnPrepareKeeps(s);
    case InConnack(present, limit, keep) => OnConnackKeeps(s, present, limit, keep);
    case InExpiry => AbortAllKeeps(s, BrokerDisconnected);
  }

  lemma {:induction false} RunKeeps(s: Sched, es: seq<Input>)
    requires Inv(s) && Possible(s, es)
    ensures Inv(Run(s, es))
    decreases |es|
  {
    if es != [] {
      NextKeeps(s, es[0]);
      RunKeeps(Next(s, es[0]), es[1..]);
    }
  }

  lemma InitialInv(ordering: Ordering, capacity: nat)
    ensures Inv(Initial(ordering, capacity))
  {
    var s := Initial(ordering, capacity);
    assert Queue(s) && Ids(s) && Order(s) && Fifo(s) && PerQos(s) && Ledger(s) && Traffic(s);
  }
}
