/** Every input other than a publish is a sequence of elementary actions: whatever
    each of these keeps, the input keeps. */
module SendTurns {
  import opened SendModel
  import opened SendSteps

  datatype Action =
    | Leaves(i: nat, st: Status)
    | Resumes
    | Resends(i: nat, cause: Cause)
    | Releases(i: nat)
    | Notes(p: Packet)
    | Turns(t: Sched)

  predicate CanResend(o: SendOp, cause: Cause) {
    (!o.paused || o.published) && (cause.Reconnect? || (cause.Retry? && o.attempts < o.total))
  }

  /** A session flag changes or a callback is made; the limit stays. */
  ghost predicate Turn(s: Sched, t: Sched) {
    SameHistory(s, t) && t.limit == s.limit
  }

  ghost predicate Can(s: Sched, a: Action) {
    match a
    case Leaves(i, _) => i < |s.ops|
    case Resumes => CanResume(s)
    case Resends(i, cause) => i < |s.ops| && CanResend(s.ops[i], cause)
    case Releases(i) => i < |s.ops| && LegitAck(s, i, false) && s.ops[i].qos == 2 && !s.ops[i].acked
    case Notes(p) => !p.Publish? && !p.Pubrel?
    case Turns(t) => Turn(s, t)
  }

  ghost function Do(s: Sched, a: Action): Sched
    requires Can(s, a)
  {
    match a
    case Leaves(i, st) => RemoveAt(s, i, st)
    case Resumes => ResumeOne(s)
    case Resends(i, cause) => Retransmit(s, i, cause)
    case Releases(i) => AckAt(s, i)
    case Notes(p) => s.(wire := s.wire + [p])
    case Turns(t) => t
  }

  ghost predicate Closed(P: Sched -> bool) {
    forall s: Sched, a: Action :: P(s) && Can(s, a) ==> P(Do(s, a))
  }

  lemma Acts(s: Sched, a: Action, P: Sched -> bool)
    requires Closed(P) && P(s) && Can(s, a)
    ensures P(Do(s, a))
  {
  }

  lemma {:induction false} SettleActs(s: Sched, P: Sched -> bool)
    requires Closed(P) && P(s)
    ensures P(Settle(s))
    decreases |s.ops| - s.inFlight
  {
    if CanResume(s) {
      Acts(s, Resumes, P);
      SettleActs(ResumeOne(s), P);
    }
  }

  lemma DrainActs(s: Sched, P: Sched -> bool)
    requires Closed(P) && P(s)
    ensures P(Drain(s))
  {
    SettleActs(s, P);
    Acts(Settle(s), Turns(Drain(s)), P);
  }

  lemma LeaveActs(s: Sched, i: nat, st: Status, P: Sched -> bool)
    requires Closed(P) && P(s) && i < |s.ops|
    ensures P(Leave(s, i, st)) && P(Complete(s, i, st))
  {
    Acts(s, Leaves(i, st), P);
    if !s.disconnecting {
      DrainActs(RemoveAt(s, i, st), P);
    }
    Acts(Leave(s, i, st), Turns(Complete(s, i, st)), P);
  }

  lemma ResendActs(s: Sched, i: nat, P: Sched -> bool)
    requires Closed(P) && P(s) && i < |s.ops| && (!s.ops[i].paused || s.ops[i].published)
    ensures P(ResendDup(s, i))
  {
    if s.ops[i].total <= s.ops[i].attempts {
      LeaveActs(s, i, TimedOut, P);
    } else {
      Acts(s, Resends(i, Retry), P);
    }
  }

  lemma SweepActs(s: Sched, uid: nat, P: Sched -> bool)
    requires Closed(P) && P(s)
    ensures P(ResendUntil(s, 0, uid))
  {
    forall t: Sched, j: nat | P(t) && j < |t.ops| ensures P(ForceResend(t, j)) {
      if !t.ops[j].paused {
        ResendActs(t, j, P);
      }
    }
    SweepKeeps(s, 0, uid, P);
  }

  lemma {:induction false} AbortActs(s: Sched, st: Status, P: Sched -> bool)
    requires Closed(P) && P(s)
    ensures P(AbortAll(s, st))
    decreases |s.ops|
  {
    if s.ops != [] {
      LeaveActs(s, 0, st, P);
      AbortActs(Complete(s, 0, st), st, P);
    }
  }

  lemma DropActs(s: Sched, st: Status, P: Sched -> bool)
    requires Closed(P) && P(s)
    ensures P(Drop(s, st))
  {
    var down := s.(connected := false, disconnecting := true, initialized := false);
    Acts(s, Turns(down), P);
    AbortActs(down, st, P);
  }

  lemma ViolationActs(s: Sched, i: nat, P: Sched -> bool)
    requires Closed(P) && P(s) && i < |s.ops|
    ensures P(Violation(s, i))
  {
    LeaveActs(s, i, ProtocolError, P);
    var r := Complete(s, i, ProtocolError);
    Acts(r, Notes(Disconnect), P);
    DropActs(r.(wire := r.wire + [Disconnect]), BrokerDisconnected, P);
  }

  lemma PubackActs(s: Sched, id: nat, wf: bool, P: Sched -> bool)
    requires Closed(P) && P(s)
    ensures P(OnPuback(s, id, wf)) && P(OnPubcomp(s, id, wf))
  {
    var i := Find(s.ops, id);
    if i < |s.ops| {
      SweepActs(s, s.ops[i].uid, P);
      ViolationActs(s, i, P);
      LeaveActs(s, i, Acked, P);
      LeaveActs(s, i, Completed, P);
    }
  }

  lemma PubrecActs(s: Sched, id: nat, refused: bool, wf: bool, P: Sched -> bool)
    requires Closed(P) && P(s)
    ensures P(OnPubrec(s, id, refused, wf))
  {
    var i := Find(s.ops, id);
    if i == |s.ops| {
      Acts(s, Notes(PubrelUnknown(id)), P);
    } else if !LegitAck(s, i, false) {
      SweepActs(s, s.ops[i].uid, P);
    } else if s.ops[i].qos != 2 || s.ops[i].acked || !wf {
      ViolationActs(s, i, P);
    } else if refused {
      LeaveActs(s, i, Refused, P);
    } else {
      Acts(s, Releases(i), P);
    }
  }

  lemma TimeoutActs(s: Sched, uid: nat, P: Sched -> bool)
    requires Closed(P) && P(s)
    ensures P(OnTimeout(s, uid))
  {
    var i := FindUid(s.ops, uid);
    if i < |s.ops| && s.ops[i].published {
      ResendActs(s, i, P);
    }
  }

  lemma CancelActs(s: Sched, uid: nat, P: Sched -> bool)
    requires Closed(P) && P(s)
    ensures P(OnCancel(s, uid))
  {
    var i := FindUid(s.ops, uid);
    if i < |s.ops| {
      LeaveActs(s, i, Cancelled, P);
    }
  }

  lemma {:induction false} RedeliverActs(s: Sched, k: nat, P: Sched -> bool)
    requires Closed(P) && P(s) && k <= |s.ops|
    ensures P(Resumed(s, k))
  {
    if k == 0 {
      assert Resumed(s, k) == s;
    } else {
      RedeliverActs(s, k - 1, P);
      RedeliverOneMore(s, k - 1);
      if !s.ops[k - 1].paused {
        Acts(Resumed(s, k - 1), Resends(k - 1, Reconnect), P);
      }
    }
  }

  /** The limit in force while an input is handled: a CONNACK brings its own. */
  function Limited(s: Sched, e: Input): Sched {
    s.(limit := if e.InConnack? then e.limit else if e.InPrepareConnect? then OnPrepareConnect(s).limit else s.limit)
  }

  lemma ConnackActs(s: Sched, e: Input, P: Sched -> bool)
    requires Closed(P) && e.InConnack? && P(Limited(s, e))
    ensures P(Next(s, e))
  {
    var up := s.(connected := true, limit := e.limit, keepSession := e.keep);
    Acts(Limited(s, e), Turns(up), P);
    if e.present {
      RedeliverActs(up, |s.ops|, P);
      assert s.ops[..|s.ops|] == s.ops;
      DrainActs(Resumed(up, |s.ops|), P);
    } else {
      AbortActs(up, Aborted, P);
    }
  }

  /** Whatever every action keeps, every input other than a publish keeps. */
  lemma NextActs(s: Sched, e: Input, P: Sched -> bool)
    requires Closed(P) && P(Limited(s, e)) && !e.InPublish?
    ensures P(Next(s, e))
  {
    match e
    case InCancel(uid) => CancelActs(s, uid, P);
    case InPuback(id, wf) => PubackActs(s, id, wf, P);
    case InPubrec(id, refused, wf) => PubrecActs(s, id, refused, wf, P);
    case InPubcomp(id, wf) => PubackActs(s, id, wf, P);
    case InTimeout(uid) => TimeoutActs(s, uid, P);
    case InDrop(st) => DropActs(s, st, P);
    case InPrepareConnect => Acts(Limited(s, e), Turns(OnPrepareConnect(s)), P);
    case InConnack(_, _, _) => ConnackActs(s, e, P);
    case InExpiry => AbortActs(s, BrokerDisconnected, P);
  }
}
