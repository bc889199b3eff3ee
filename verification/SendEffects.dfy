/** What each step brings about, said without naming how it is computed. */
module SendEffects {
  import opened Protocol
  import opened SendModel
  import opened SendInvariant
  import opened SendActions
  import opened SendSteps
  import opened SendTheorems
  import opened SendAcks

  /** Leaving the queue: the publish is gone with that status, the publishes in
      flight around it stay, and only paused QoS 0 publishes can leave with it. */
  ghost predicate Gone(s: Sched, r: Sched, i: nat, st: Status)
    requires i < |s.ops|
  {
    && !Pending(r.ops, s.ops[i].uid)
    && NotSent(r.exits) == NotSent(s.exits) + [Exit(s.ops[i].uid, st)]
    && Retries(r.wire) == Retries(s.wire)
    && i < s.inFlight <= |s.ops|
    && Without(s.ops, i)[..s.inFlight - 1] <= r.ops
  }

  lemma {:induction false} SettleAddsNobody(s: Sched, u: nat)
    requires !Pending(s.ops, u)
    ensures !Pending(Settle(s).ops, u)
    decreases |s.ops| - s.inFlight
  {
    if CanResume(s) {
      assert !Pending(SendAt(s, s.inFlight).ops, u);
      assert !Pending(ResumeOne(s).ops, u);
      SettleAddsNobody(ResumeOne(s), u);
    }
  }

  lemma CompleteEffect(s: Sched, i: nat, st: Status)
    requires Queue(s) && i < s.inFlight && !st.Sent?
    ensures Gone(s, Complete(s, i, st), i, st)
  {
    InFlightIff(s, i);
    var g := RemoveAt(s, i, st);
    RemoveQueue(s, i, st);
    PushNotSent(s.exits, Exit(s.ops[i].uid, st));
    PendingWithout(s.ops, i, s.ops[i].uid);
    SettleAddsNobody(g, s.ops[i].uid);
    SettleQuiet(g);
  }

  /** The acknowledgement that finishes a publish of this QoS. */
  function FinalStatus(e: Input): Status {
    if e.InPuback? then Acked else Completed
  }

  predicate Finishes(e: Input, o: SendOp) {
    || (e.InPuback? && e.wellFormed && o.qos == 1)
    || (e.InPubcomp? && e.wellFormed && o.qos == 2 && o.acked)
  }

  /** Publish `i` was sent, everything in front of it is acknowledged, and a PUBCOMP
      finds it at the head. */
  predicate TurnHasCome(s: Sched, e: Input, i: nat)
    requires i < |s.ops|
  {
    s.ops[i].published && (forall j :: 0 <= j < i ==> s.ops[j].acked) && (e.InPubcomp? ==> i == 0)
  }

  /** A well-formed final acknowledgement in turn delivers its publish. */
  lemma FinalAckDelivers(s: Sched, e: Input, i: nat)
    requires Reachable(s) && (e.InPuback? || e.InPubcomp?) && i == Find(s.ops, e.id) < |s.ops|
    requires TurnHasCome(s, e, i) && Finishes(e, s.ops[i])
    ensures Gone(s, Next(s, e), i, FinalStatus(e))
  {
    ReachableQueue(s);
    LegitIsInFlight(s, i, e.InPubcomp?);
    CompleteEffect(s, i, FinalStatus(e));
  }

  /** A PUBREC in turn is answered with one PUBREL and marks the publish, or,
      with a reason code of failure, ends it. */
  lemma PubrecMovesOn(s: Sched, e: Input, i: nat)
    requires Reachable(s) && e.InPubrec? && i == Find(s.ops, e.id) < |s.ops|
    requires TurnHasCome(s, e, i) && s.ops[i].qos == 2 && !s.ops[i].acked && e.wellFormed
    ensures var r := Next(s, e);
            if e.refused then Gone(s, r, i, Refused)
            else && r.wire == s.wire + [Pubrel(s.ops[i].uid, e.id, First)]
                 && |r.ops| == |s.ops| && r.ops[i].acked && r.exits == s.exits
                 && (forall j :: 0 <= j < |s.ops| && j != i ==> r.ops[j] == s.ops[j])
  {
    ReachableQueue(s);
    LegitIsInFlight(s, i, false);
    if e.refused {
      CompleteEffect(s, i, Refused);
    }
  }

  /** A response timeout repeats the current packet of the publish, or ends it
      when its attempts are used up. */
  lemma TimeoutRepeatsOrEnds(s: Sched, i: nat)
    requires Reachable(s) && s.connected && i < s.inFlight
    ensures i < |s.ops|
    ensures var r := Next(s, InTimeout(s.ops[i].uid));
            if s.ops[i].attempts == s.ops[i].total then Gone(s, r, i, TimedOut)
            else r.wire == s.wire + [Resent(s.ops[i], Retry)] && r.exits == s.exits
                 && |r.ops| == |s.ops| && r.ops[i].attempts == s.ops[i].attempts + 1
  {
    ReachableQueue(s);
    InFlightIff(s, i);
    if s.ops[i].attempts == s.ops[i].total {
      CompleteEffect(s, i, TimedOut);
    }
  }

  /** A publish with number `u` was accepted: it is pending afterwards, or it was
      of QoS 0 and has been sent; `sent` tells whether it is on the wire. */
  ghost predicate Accepted(s: Sched, r: Sched, qos: Qos, sent: bool) {
    var u := s.nextUid;
    && r.nextUid == u + 1 && s.ops <= r.ops
    && (Pending(r.ops, u) || (qos == 0 && r.exits == s.exits + [Exit(u, Sent)]))
    && (sent <==> History(r.wire, u) != [])
  }

  lemma ReachableFresh(s: Sched)
    requires Reachable(s)
    ensures Queue(s) && History(s.wire, s.nextUid) == [] && (s.connected ==> !s.disconnecting && !CanResume(s))
  {
    ReachableInv(s);
  }

  lemma AcceptedPaused(s: Sched, qos: Qos, total: nat)
    requires History(s.wire, s.nextUid) == []
    ensures Accepted(s, PauseLast(Submitted(s, qos, total)), qos, false)
  {
    assert PauseLast(Submitted(s, qos, total)).ops[|s.ops|].uid == s.nextUid;
  }

  lemma AcceptedSent(s: Sched, qos: Qos, total: nat)
    requires History(s.wire, s.nextUid) == []
    ensures Accepted(s, SendAt(Submitted(s, qos, total), |s.ops|), qos, true)
  {
    var t := Submitted(s, qos, total);
    assert SendAt(t, |s.ops|).ops[|s.ops|].uid == s.nextUid;
    PushWire(s.wire, Publish(s.nextUid, t.ops[|s.ops|].packetId, qos, false, First));
  }

  lemma AcceptedThrough(s: Sched, total: nat)
    requires Queue(s) && !s.disconnecting && !CanResume(s)
    ensures var i := |s.ops|; Accepted(s, Complete(SendAt(Submitted(s, 0, total), i), i, Sent), 0, true)
  {
    SentThroughStuck(s);
    CompleteSentThrough(s, total);
    PushWire(s.wire, Publish(s.nextUid, 0, 0, false, First));
  }

  /** A publish submitted while connected is accepted, and sent at once exactly
      when it may be. */
  lemma PublishAccepted(s: Sched, qos: Qos, total: nat)
    requires Reachable(s) && s.connected && total > 0
    ensures Accepted(s, Next(s, InPublish(qos, total)), qos, CanSend(Submitted(s, qos, total), |s.ops|))
  {
    ReachableFresh(s);
    if !CanSend(Submitted(s, qos, total), |s.ops|) {
      AcceptedPaused(s, qos, total);
    } else if qos > 0 {
      AcceptedSent(s, qos, total);
    } else {
      AcceptedThrough(s, total);
    }
  }

  /** With same-QoS ordering a new publish is postponed exactly if it is above
      QoS 0 and the window is full. */
  lemma SameQosPostponesIff(s: Sched, qos: Qos, total: nat)
    requires Reachable(s) && s.connected && s.ordering.SameQos? && total > 0
    ensures History(Next(s, InPublish(qos, total)).wire, s.nextUid) == [] <==> qos > 0 && s.limit <= s.inFlight
  {
    PublishAccepted(s, qos, total);
  }

  /** With full ordering a new publish is postponed exactly if the window is full, an
      earlier one is postponed, or an incomplete one has a higher QoS. */
  lemma FullPostponesIff(s: Sched, qos: Qos, total: nat)
    requires Reachable(s) && s.connected && s.ordering.Full? && total > 0
    ensures History(Next(s, InPublish(qos, total)).wire, s.nextUid) == [] <==>
            s.limit <= s.inFlight || exists j :: 0 <= j < |s.ops| && (s.ops[j].paused || s.ops[j].qos > qos)
  {
    PublishAccepted(s, qos, total);
    QueueShape(s);
    var t := Submitted(s, qos, total);
    assert forall j :: 0 <= j < |s.ops| ==> t.ops[j] == s.ops[j];
    if HasHigherQosBefore(t.ops, |s.ops|) {
      var j :| 0 <= j < |s.ops| && t.ops[j].qos > qos;
      assert s.ops[j].qos > qos;
    }
    if s.inFlight < |s.ops| {
      assert s.ops[|s.ops| - 1].paused;
    }
  }

  function ExitsOf(ops: seq<SendOp>, st: Status): (r: seq<Exit>)
    ensures |r| == |ops|
    ensures forall i :: 0 <= i < |r| ==> r[i] == Exit(ops[i].uid, st)
  {
    seq(|ops|, i requires 0 <= i < |ops| => Exit(ops[i].uid, st))
  }

  /** Losing a connection without a session to keep ends every pending publish,
      in order, and reports them in that order; nothing is sent any more. */
  lemma {:induction false} AbortEndsAll(s: Sched, st: Status)
    requires s.disconnecting
    ensures var r := AbortAll(s, st);
            && r.ops == [] && r.wire == s.wire
            && r.exits == s.exits + ExitsOf(s.ops, st)
            && r.reports == s.reports + ExitsOf(s.ops, st)
    decreases |s.ops|
  {
    if s.ops != [] {
      var c := Complete(s, 0, st);
      EndsHead(s, st);
      AbortEndsAll(c, st);
      ExitsCons(s.exits, s.ops, c.ops, st);
      ExitsCons(s.reports, s.ops, c.ops, st);
    }
  }

  lemma EndsHead(s: Sched, st: Status)
    requires s.disconnecting && s.ops != []
    ensures var c := Complete(s, 0, st); var e := Exit(s.ops[0].uid, st);
            && c.disconnecting && c.wire == s.wire && c.ops == s.ops[1..]
            && c.exits == s.exits + [e] && c.reports == s.reports + [e]
  {
  }

  lemma ExitsCons(exits: seq<Exit>, ops: seq<SendOp>, rest: seq<SendOp>, st: Status)
    requires |ops| == |rest| + 1 && forall i :: 0 < i < |ops| ==> ops[i].uid == rest[i - 1].uid
    ensures exits + [Exit(ops[0].uid, st)] + ExitsOf(rest, st) == exits + ExitsOf(ops, st)
  {
    var all := [Exit(ops[0].uid, st)] + ExitsOf(rest, st);
    forall i | 0 <= i < |ops| ensures all[i] == ExitsOf(ops, st)[i] {
      assert i > 0 ==> all[i] == ExitsOf(rest, st)[i - 1];
    }
    assert all == ExitsOf(ops, st);
  }

  /** A dropped connection keeps the queue and its history untouched when there
      is a session to keep, and ends everything otherwise. */
  lemma DropKeepsOrEnds(s: Sched, st: Status)
    ensures var r := Drop(s, st);
            && !r.connected && r.disconnecting && r.wire == s.wire
            && (if s.keepSession then r.ops == s.ops && r.exits == s.exits && r.inFlight == s.inFlight
                else r.ops == [] && r.exits == s.exits + ExitsOf(s.ops, st))
  {
    if !s.keepSession {
      var down := s.(connected := false, disconnecting := true, initialized := false);
      AbortEndsAll(down, st);
      AbortFlags(down, st);
    }
  }

  lemma {:induction false} AbortFlags(s: Sched, st: Status)
    requires s.disconnecting
    ensures AbortAll(s, st).disconnecting && AbortAll(s, st).connected == s.connected
    decreases |s.ops|
  {
    if s.ops != [] {
      AbortFlags(Complete(s, 0, st), st);
    }
  }

  /** Cancelling takes the publish out without a callback of its own. */
  lemma CancelIsSilent(s: Sched, i: nat)
    requires Reachable(s) && i < |s.ops|
    ensures var r := Next(s, InCancel(s.ops[i].uid));
            && !Pending(r.ops, s.ops[i].uid)
            && NotSent(r.exits) == NotSent(s.exits) + [Exit(s.ops[i].uid, Cancelled)]
            && Exit(s.ops[i].uid, Cancelled) !in r.reports
  {
    var u := s.ops[i].uid;
    ReachableQueue(s);
    UidFound(s, i);
    CancelLeaves(s, i);
    ReachableNext(s, InCancel(u));
    Conservation(Next(s, InCancel(u)), u);
    NeverReportedCancelled(Next(s, InCancel(u)), Exit(u, Cancelled));
  }

  lemma CancelLeaves(s: Sched, i: nat)
    requires Queue(s) && i < |s.ops|
    ensures var r := Leave(s, i, Cancelled);
            && !Pending(r.ops, s.ops[i].uid)
            && NotSent(r.exits) == NotSent(s.exits) + [Exit(s.ops[i].uid, Cancelled)]
  {
    var u := s.ops[i].uid;
    var g := RemoveAt(s, i, Cancelled);
    RemoveQueue(s, i, Cancelled);
    PushNotSent(s.exits, Exit(u, Cancelled));
    PendingWithout(s.ops, i, u);
    SettleAddsNobody(g, u);
    SettleQuiet(g);
  }

  lemma UidFound(s: Sched, i: nat)
    requires Numbered(s) && i < |s.ops|
    ensures FindUid(s.ops, s.ops[i].uid) == i
  {
  }

  lemma NeverReportedCancelled(s: Sched, e: Exit)
    requires Reported(s) && e.status.Cancelled?
    ensures e !in s.reports
  {
    ReportableSkips(s.exits, e);
    assert e !in multiset(s.reports);
  }

  lemma {:induction false} ReportableSkips(exits: seq<Exit>, e: Exit)
    requires e.status.Cancelled?
    ensures e !in Reportable(exits)
  {
    if exits != [] {
      ReportableSkips(exits[..|exits| - 1], e);
    }
  }
}
