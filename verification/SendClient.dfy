/** The publish side of the client as the library runs it: one object whose
    fields change step by step, with the mutual recursion between completing a
    publish and resuming others. Each method is proved against the scheduler
    functions of `SendModel`. */
module SendClient {
  import opened Protocol
  import opened PacketIds
  import opened SendModel
  import opened SendInvariant
  import opened SendActions
  import opened SendSteps
  import opened SendAcks
  import opened SendTheorems
  import opened SendEffects
  import opened SendCallbacks

  /** Resuming from `idx` on is as good as resuming from the first paused publish. */
  ghost predicate ResumableFrom(s: Sched, idx: nat) {
    Queue(s) && !s.disconnecting && (idx <= s.inFlight || !CanResume(s))
  }

  /** Publish `i` can be taken out with resumption starting at its place. */
  ghost predicate Removable(s: Sched, i: nat, st: Status)
    requires i < |s.ops|
  {
    && (s.ops[i].published ==> s.inFlight > 0)
    && (!s.disconnecting ==> ResumableFrom(RemoveAt(s, i, st), i))
  }

  /** Sending a paused QoS 0 publish and completing it is the whole rest of the resumption. */
  lemma DrainThroughQos0(s: Sched)
    requires CanResume(s) && s.ops[s.inFlight].qos == 0 && !s.disconnecting
    ensures Complete(SendAt(s, s.inFlight), s.inFlight, Sent) == Drain(s)
  {
    var p := s.inFlight;
    CallbacksReverseExits(SendAt(s, p), p, Sent);
  }

  lemma DrainThroughSend(s: Sched)
    requires CanResume(s) && s.ops[s.inFlight].qos > 0
    ensures Drain(SendAt(s, s.inFlight)) == Drain(s)
  {
  }

  /** What sending the first paused publish leads to. */
  function Launched(s: Sched, i: nat): Sched
    requires i < |s.ops|
  {
    if s.ops[i].qos == 0 then Complete(SendAt(s, i), i, Sent) else SendAt(s, i)
  }

  lemma LaunchedResumes(s: Sched)
    requires Queue(s) && CanResume(s) && !s.disconnecting
    ensures var t := Launched(s, s.inFlight);
            && ResumableFrom(t, s.inFlight) && Drain(t) == Drain(s)
            && |t.ops| - t.inFlight < |s.ops| - s.inFlight
    ensures s.ops[s.inFlight].qos == 0 ==> Removable(SendAt(s, s.inFlight), s.inFlight, Sent)
  {
    ResumeOneQueue(s);
    if s.ops[s.inFlight].qos == 0 {
      DrainThroughQos0(s);
      DrainSettled(s);
      StuckDrain(Drain(s));
    } else {
      DrainThroughSend(s);
    }
  }

  lemma OnlyFirstMaySend(s: Sched, i: nat)
    requires ResumableFrom(s, i) && i < |s.ops| && s.ops[i].paused
    ensures CanSend(s, i) ==> i == s.inFlight && !s.ops[i].published
    ensures CanSend(s, i) <==> CanResume(s)
  { }

  lemma ReachableTidy(s: Sched)
    requires Reachable(s)
    ensures Tidy(s) && ValidPool(s.pool)
  {
    ReachableInv(s);
  }

  lemma RemovableWhenTidy(s: Sched, i: nat, st: Status)
    requires Tidy(s) && i < |s.ops|
    ensures Removable(s, i, st)
  {
    InFlightIff(s, i);
    RemoveQueue(s, i, st);
    if !s.disconnecting && s.inFlight < i {
      FirstUnaffected(s, i, st);
    }
  }

  lemma FirstUnaffected(s: Sched, i: nat, st: Status)
    requires Queue(s) && !CanResume(s) && s.inFlight < i < |s.ops|
    ensures !CanResume(RemoveAt(s, i, st))
  { }

  function ResentOrTimedOut(s: Sched, i: nat, cause: Cause): Sched
    requires i < |s.ops|
  {
    var o := s.ops[i];
    if o.total <= o.attempts then Complete(s, i, TimedOut)
    else s.(ops := s.ops[i := o.(attempts := o.attempts + 1, dup := o.dup || !o.acked)],
            wire := s.wire + [Resent(o, cause)])
  }

  lemma NewQos0Removable(s: Sched, total: nat)
    requires Tidy(s) && !s.disconnecting && CanSend(Submitted(s, 0, total), |s.ops|)
    ensures Removable(SendAt(Submitted(s, 0, total), |s.ops|), |s.ops|, Sent)
  {
    SentThroughIs(s, total);
    SentThroughStuck(s);
    assert Queue(SentThrough(s));
  }

  lemma PausedOrRemovable(s: Sched, total: nat)
    requires Tidy(s) && !s.disconnecting
    ensures var t := Submitted(s, 0, total);
            CanSend(t, |s.ops|) ==> Removable(SendAt(t, |s.ops|), |s.ops|, Sent)
  {
    if CanSend(Submitted(s, 0, total), |s.ops|) {
      NewQos0Removable(s, total);
    }
  }

  lemma RedeliverNext(s: Sched, i: nat)
    requires Queue(s) && i < |s.ops| && Queue(Resumed(s, i))
    ensures var r := Resumed(s, i);
            Resumed(s, i + 1) == (if r.ops[i].paused then r else Retransmit(r, i, Reconnect))
    ensures Queue(Resumed(s, i + 1))
  {
    RedeliverOneMore(s, i);
    InFlightIff(s, i);
    if i < s.inFlight {
      RetransmitQueue(Resumed(s, i), i, Reconnect);
    }
  }

  lemma HeadRemovable(s: Sched, st: Status)
    requires Queue(s) && s.ops != []
    ensures Removable(s, 0, st)
  {
    InFlightIff(s, 0);
    RemoveQueue(s, 0, st);
  }

  /** The backward scan over the window stops at the first paused publish in it. */
  lemma WindowScan(s: Sched, from: nat, until: nat)
    requires Queue(s) && !s.disconnecting
    requires until == (if s.limit < |s.ops| then s.limit else |s.ops|) && from <= until
    requires forall j :: from <= j < until ==> s.ops[j].paused
    requires from > 0 ==> !s.ops[from - 1].paused
    ensures from < until ==> ResumableFrom(s, from)
    ensures from == until ==> !CanResume(s)
  { }

  /** The loop has come to entry `k`: it heads the queue, or it is of QoS 0 and gone. */
  ghost predicate Entry(ops: seq<SendOp>, listed: seq<SendOp>, k: nat) {
    && k <= |listed|
    && (forall j :: 0 < j < k ==> listed[j].qos > 0)
    && if 0 < k < |listed| && listed[k].qos == 0 then !Pending(ops, listed[k].uid) else Lined(ops, listed, k)
  }

  lemma EntryGone(ops: seq<SendOp>, listed: seq<SendOp>, k: nat)
    requires Entry(ops, listed, k) && k < |listed| && FindUid(ops, listed[k].uid) == |ops|
    ensures !NoQos0Behind(listed)
  {
    assert !Lined(ops, listed, k);
  }

  lemma EntryThere(ops: seq<SendOp>, listed: seq<SendOp>, k: nat)
    requires Entry(ops, listed, k) && k < |listed| && FindUid(ops, listed[k].uid) < |ops|
    ensures Lined(ops, listed, k) && FindUid(ops, listed[k].uid) == 0 && (k > 0 ==> listed[k].qos > 0)
  {
    assert Pending(ops, listed[k].uid);
    assert listed[k].uid == ops[0].uid;
  }

  lemma EndEntry(s: Sched, st: Status, listed: seq<SendOp>, k: nat)
    requires Queue(s) && !s.disconnecting && s.limit > 0 && !st.Sent? && k < |listed|
    requires Entry(s.ops, listed, k) && Lined(s.ops, listed, k) && (k > 0 ==> listed[k].qos > 0)
    ensures Entry(Complete(s, 0, st).ops, listed, k + 1)
  {
    NextEntry(s, st);
    assert forall j :: k <= j < |listed| ==> listed[j].uid == s.ops[j - k].uid && listed[j].qos == s.ops[j - k].qos;
    if k + 1 < |listed| {
      assert listed[k + 1].uid == s.ops[1].uid && listed[k + 1].qos == s.ops[1].qos;
    }
  }

  class ClientImpl {
    const ordering: Ordering
    const pool: PacketIdPool
    var sendOps: seq<SendOp>
    var inFlightSends: nat
    var highQosSendLimit: nat
    var connected: bool
    var disconnecting: bool
    var initialized: bool
    var keepSession: bool
    var nextUid: nat
    ghost var wire: seq<Packet>
    ghost var exits: seq<Exit>
    ghost var reports: seq<Exit>

    ghost function Model(): Sched
      reads this, pool
    {
      Sched(ordering, sendOps, inFlightSends, highQosSendLimit, connected, disconnecting, initialized,
            keepSession, nextUid, pool.View(), wire, exits, reports)
    }

    ghost predicate Valid()
      reads this, pool
    {
      Reachable(Model())
    }

    constructor (ordering: Ordering, capacity: nat)
      ensures Model() == Initial(ordering, capacity) && Valid()
      ensures fresh(pool)
    {
      this.ordering := ordering;
      pool := new PacketIdPool(capacity);
      sendOps, inFlightSends, highQosSendLimit, nextUid := [], 0, 0, 0;
      connected, disconnecting, initialized, keepSession := false, false, false, false;
      wire, exits, reports := [], [], [];
      new;
      ReachableInitial(ordering, capacity);
    }

    method SendMessage(p: Packet)
      modifies this`wire
      ensures wire == old(wire) + [p]
    {
      wire := wire + [p];
    }

    // ----- who may send

    method HasPausedSendsBefore(i: nat) returns (r: bool)
      requires i < |sendOps|
      ensures r == HasPausedBefore(sendOps, i)
    {
      if i == 0 {
        return false;
      }
      r := sendOps[i - 1].paused;
    }

    method HasHigherQosSendsBefore(i: nat) returns (r: bool)
      requires i < |sendOps|
      ensures r == HasHigherQosBefore(sendOps, i)
    {
      var j := 0;
      while j < i
        invariant 0 <= j <= i
        invariant forall k :: 0 <= k < j ==> sendOps[k].qos <= sendOps[i].qos
      {
        if sendOps[j].qos > sendOps[i].qos {
          return true;
        }
        j := j + 1;
      }
      return false;
    }

    method CanSendNow(i: nat) returns (r: bool)
      requires i < |sendOps|
      ensures r == CanSend(Model(), i)
    {
      var reachedLimit := highQosSendLimit <= inFlightSends;
      if reachedLimit {
        return sendOps[i].qos == 0 && ordering.SameQos?;
      }
      if ordering.SameQos? {
        return true;
      }
      var pausedBefore := HasPausedSendsBefore(i);
      var higherBefore := HasHigherQosSendsBefore(i);
      return !(pausedBefore || higherBefore);
    }

    // ----- sending, completing, resuming: mutually recursive

    method DoSendInternal(i: nat)
      requires i < |sendOps| && !sendOps[i].published && !sendOps[i].paused && inFlightSends < |sendOps|
      requires sendOps[i].qos == 0 ==> Removable(SendAt(Model(), i), i, Sent)
      modifies this, pool
      ensures var s := old(Model());
              Model() == Launched(s, i)
      decreases |sendOps| - inFlightSends, 1
    {
      var o := sendOps[i];
      sendOps := sendOps[i := o.(attempts := 0)];
      SendMessage(Packet.Publish(o.uid, o.packetId, o.qos, o.dup, First));
      sendOps := sendOps[i := sendOps[i].(published := true)];
      inFlightSends := inFlightSends + 1;
      sendOps := sendOps[i := sendOps[i].(attempts := sendOps[i].attempts + 1)];
      assert Model() == SendAt(old(Model()), i);
      if o.qos == 0 {
        CompleteWithCb(i, Sent);
      }
    }

    method CompleteWithCb(i: nat, st: Status)
      requires i < |sendOps| && Removable(Model(), i, st)
      modifies this, pool
      ensures Model() == Complete(old(Model()), i, st)
      decreases |sendOps| - inFlightSends, 5
    {
      ghost var e := Exit(sendOps[i].uid, st);
      OpCompleteInternal(i, st);
      reports := reports + [e];
    }

    method OpCompleteInternal(i: nat, st: Status)
      requires i < |sendOps| && Removable(Model(), i, st)
      modifies this, pool
      ensures Model() == Leave(old(Model()), i, st)
      decreases |sendOps| - inFlightSends, 4
    {
      var o := sendOps[i];
      if o.published {
        inFlightSends := inFlightSends - 1;
      }
      sendOps := sendOps[..i] + sendOps[i + 1..];
      pool.ReleasePacketId(o.packetId);
      exits := exits + [Exit(o.uid, st)];
      assert Model() == RemoveAt(old(Model()), i, st);
      if disconnecting {
        return;
      }
      ResumeSendOpsSince(i);
    }

    method ResumeSendOpsSince(start: nat)
      requires ResumableFrom(Model(), start)
      modifies this, pool
      ensures Model() == Drain(old(Model()))
      decreases |sendOps| - inFlightSends, 3
    {
      var idx: nat := start;
      while idx < |sendOps|
        invariant ResumableFrom(Model(), idx)
        invariant Drain(Model()) == Drain(old(Model()))
        invariant |sendOps| - inFlightSends <= old(|sendOps| - inFlightSends)
        decreases |sendOps| - inFlightSends, |sendOps| - idx
      {
        InFlightIff(Model(), idx);
        if !sendOps[idx].paused {
          idx := idx + 1;
          continue;
        }
        var resumed := Resume(idx);
        if !resumed {
          break;
        }
      }
      StuckDrain(Model());
    }

    method Resume(i: nat) returns (resumed: bool)
      requires i < |sendOps| && sendOps[i].paused && ResumableFrom(Model(), i)
      modifies this, pool
      ensures resumed ==> ResumableFrom(Model(), i) && Drain(Model()) == Drain(old(Model()))
      ensures resumed ==> |sendOps| - inFlightSends < old(|sendOps| - inFlightSends)
      ensures !resumed ==> Model() == old(Model()) && !CanResume(Model())
      decreases |sendOps| - inFlightSends, 2
    {
      ghost var s := Model();
      OnlyFirstMaySend(s, i);
      var may := CanSendNow(i);
      if !may {
        return false;
      }
      sendOps := sendOps[i := sendOps[i].(paused := false)];
      assert SendAt(Model(), i) == SendAt(s, i);
      LaunchedResumes(s);
      DoSendInternal(i);
      return true;
    }

    // ----- retransmission

    method ResendDupMsg(i: nat, cause: Cause)
      requires i < |sendOps|
      requires sendOps[i].total <= sendOps[i].attempts ==> Removable(Model(), i, TimedOut)
      modifies this, pool
      ensures Model() == ResentOrTimedOut(old(Model()), i, cause)
    {
      var o := sendOps[i];
      if o.total <= o.attempts {
        CompleteWithCb(i, TimedOut);
        return;
      }
      if !o.acked {
        sendOps := sendOps[i := o.(dup := true)];
        SendMessage(Packet.Publish(o.uid, o.packetId, o.qos, true, cause));
        sendOps := sendOps[i := sendOps[i].(attempts := sendOps[i].attempts + 1)];
        return;
      }
      SendMessage(Pubrel(o.uid, o.packetId, cause));
      sendOps := sendOps[i := o.(attempts := o.attempts + 1)];
    }

    method ForceDupResend(i: nat)
      requires Tidy(Model()) && i < |sendOps|
      modifies this, pool
      ensures Model() == ForceResend(old(Model()), i)
    {
      if sendOps[i].paused {
        return;
      }
      RemovableWhenTidy(Model(), i, TimedOut);
      ResendDupMsg(i, Retry);
    }

    method ResendAllUntil(uid: nat)
      requires Tidy(Model())
      modifies this, pool
      ensures Model() == ResendUntil(old(Model()), 0, uid)
    {
      var idx: nat := 0;
      while idx < |sendOps|
        invariant Tidy(Model())
        invariant ResendUntil(Model(), idx, uid) == ResendUntil(old(Model()), 0, uid)
        decreases |sendOps| - idx
      {
        var before := sendOps[idx].uid;
        ForceResendTidy(Model(), idx);
        ForceDupResend(idx);
        if before == uid {
          return;
        }
        if idx < |sendOps| && sendOps[idx].uid == before {
          idx := idx + 1;
        }
      }
    }

    method PostReconnectionResend(i: nat)
      requires i < |sendOps| && Queue(Model())
      modifies this, pool
      ensures var s := old(Model());
              Model() == if s.ops[i].paused then s else Retransmit(s, i, Reconnect)
    {
      InFlightIff(Model(), i);
      if sendOps[i].paused {
        return;
      }
      sendOps := sendOps[i := sendOps[i].(attempts := sendOps[i].attempts - 1)];
      ResendDupMsg(i, Reconnect);
    }

    method ResponseTimeout(uid: nat)
      requires Valid()
      modifies this, pool
      ensures Valid() && Model() == OnTimeout(old(Model()), uid)
    {
      ReachableTidy(Model());
      ReachableNext(Model(), InTimeout(uid));
      var i := FindUid(sendOps, uid);
      if i == |sendOps| || !sendOps[i].published || !connected {
        return;
      }
      RemovableWhenTidy(Model(), i, TimedOut);
      ResendDupMsg(i, Retry);
    }

    // ----- acknowledgements

    method IsLegitSendAck(i: nat, pubcompAck: bool) returns (r: bool)
      requires i < |sendOps|
      ensures r == LegitAck(Model(), i, pubcompAck)
    {
      if !sendOps[i].published {
        return false;
      }
      var j := 0;
      while j < i
        invariant 0 <= j <= i
        invariant forall k :: 0 <= k < j ==> sendOps[k].acked
        invariant j > 0 ==> !pubcompAck
      {
        if !sendOps[j].acked {
          return false;
        }
        if pubcompAck && i != 0 {
          return false;
        }
        j := j + 1;
      }
      return true;
    }

    method ProtocolViolation(i: nat)
      requires Tidy(Model()) && i < |sendOps|
      modifies this, pool
      ensures Model() == Violation(old(Model()), i)
    {
      RemovableWhenTidy(Model(), i, ProtocolError);
      CompleteTidy(Model(), i, ProtocolError);
      CompleteWithCb(i, ProtocolError);
      TerminationWithReason();
    }

    method TerminationWithReason()
      requires Queue(Model())
      modifies this, pool
      ensures var s := old(Model());
              Model() == Drop(s.(wire := s.wire + [Disconnect]), Status.BrokerDisconnected)
    {
      SendMessage(Disconnect);
      CloseSession(Status.BrokerDisconnected);
    }

    method HandlePuback(id: nat, wellFormed: bool)
      requires Valid()
      modifies this, pool
      ensures Valid() && Model() == OnPuback(old(Model()), id, wellFormed)
    {
      ReachableTidy(Model());
      ReachableNext(Model(), InPuback(id, wellFormed));
      var i := Find(sendOps, id);
      if i == |sendOps| {
        return;
      }
      var legit := IsLegitSendAck(i, false);
      if !legit {
        ResendAllUntil(sendOps[i].uid);
      } else if sendOps[i].qos != 1 || !wellFormed {
        ProtocolViolation(i);
      } else {
        RemovableWhenTidy(Model(), i, Acked);
        CompleteWithCb(i, Acked);
      }
    }

    method HandlePubrec(id: nat, refused: bool, wellFormed: bool)
      requires Valid()
      modifies this, pool
      ensures Valid() && Model() == OnPubrec(old(Model()), id, refused, wellFormed)
    {
      ReachableTidy(Model());
      ReachableNext(Model(), InPubrec(id, refused, wellFormed));
      var i := Find(sendOps, id);
      if i == |sendOps| {
        SendMessage(PubrelUnknown(id));
        return;
      }
      var legit := IsLegitSendAck(i, false);
      if !legit {
        ResendAllUntil(sendOps[i].uid);
      } else {
        PubrecInTurn(i, refused, wellFormed);
      }
    }

    method PubrecInTurn(i: nat, refused: bool, wellFormed: bool)
      requires Tidy(Model()) && i < |sendOps|
      modifies this, pool
      ensures var s := old(Model());
              Model() == if s.ops[i].qos != 2 || s.ops[i].acked || !wellFormed then Violation(s, i)
                         else if refused then Complete(s, i, Refused)
                         else AckAt(s, i)
    {
      if sendOps[i].qos != 2 || sendOps[i].acked || !wellFormed {
        ProtocolViolation(i);
      } else if refused {
        RemovableWhenTidy(Model(), i, Refused);
        CompleteWithCb(i, Refused);
      } else {
        AcceptPubrec(i);
      }
    }

    method AcceptPubrec(i: nat)
      requires i < |sendOps|
      modifies this
      ensures Model() == AckAt(old(Model()), i)
    {
      var o := sendOps[i];
      sendOps := sendOps[i := o.(acked := true, attempts := 0)];
      SendMessage(Pubrel(o.uid, o.packetId, First));
      sendOps := sendOps[i := sendOps[i].(attempts := sendOps[i].attempts + 1)];
    }

    method HandlePubcomp(id: nat, wellFormed: bool)
      requires Valid()
      modifies this, pool
      ensures Valid() && Model() == OnPubcomp(old(Model()), id, wellFormed)
    {
      ReachableTidy(Model());
      ReachableNext(Model(), InPubcomp(id, wellFormed));
      var i := Find(sendOps, id);
      if i == |sendOps| {
        return;
      }
      var legit := IsLegitSendAck(i, true);
      if !legit {
        ResendAllUntil(sendOps[i].uid);
      } else if sendOps[i].qos != 2 || !sendOps[i].acked || !wellFormed {
        ProtocolViolation(i);
      } else {
        RemovableWhenTidy(Model(), i, Completed);
        CompleteWithCb(i, Completed);
      }
    }

    // ----- the application's calls

    method Publish(qos: Qos, total: nat)
      requires Valid() && total > 0
      modifies this, pool
      ensures Valid() && Model() == OnPublish(old(Model()), qos, total)
    {
      ghost var s := Model();
      ReachableTidy(s);
      ReachableNext(s, InPublish(qos, total));
      if !connected || disconnecting {
        return;
      }
      var i := |sendOps|;
      PreparePublish(qos, total);
      if qos == 0 {
        PausedOrRemovable(s, total);
      }
      SendPrepared(i);
    }

    method PreparePublish(qos: Qos, total: nat)
      requires ValidPool(pool.View())
      modifies this, pool
      ensures Model() == Submitted(old(Model()), qos, total)
    {
      var id: nat := 0;
      if qos > 0 {
        id := pool.AllocPacketId();
      }
      sendOps := sendOps + [SendOp(nextUid, qos, id, total, 0, false, false, false, false)];
      nextUid := nextUid + 1;
    }

    /** `SendOp::send`: transmit at once if allowed, else pause. */
    method SendPrepared(i: nat)
      requires i == |sendOps| - 1 && inFlightSends <= i && !sendOps[i].published && !sendOps[i].paused
      requires sendOps[i].qos == 0 && CanSend(Model(), i) ==> Removable(SendAt(Model(), i), i, Sent)
      modifies this, pool
      ensures var t := old(Model());
              Model() == if CanSend(t, i) then Launched(t, i) else PauseLast(t)
    {
      var may := CanSendNow(i);
      if !may {
        sendOps := sendOps[i := sendOps[i].(paused := true)];
        return;
      }
      DoSendInternal(i);
    }

    method Cancel(uid: nat)
      requires Valid()
      modifies this, pool
      ensures Valid() && Model() == OnCancel(old(Model()), uid)
    {
      ReachableTidy(Model());
      ReachableNext(Model(), InCancel(uid));
      var i := FindUid(sendOps, uid);
      if i < |sendOps| {
        RemovableWhenTidy(Model(), i, Cancelled);
        OpCompleteInternal(i, Cancelled);
      }
    }

    // ----- the connection

    method TerminateOps(st: Status)
      requires Queue(Model())
      modifies this, pool
      ensures Model() == AbortAll(old(Model()), st)
    {
      while sendOps != []
        invariant Queue(Model())
        invariant AbortAll(Model(), st) == AbortAll(old(Model()), st)
        decreases |sendOps|
      {
        HeadRemovable(Model(), st);
        CompleteTidy(Model(), 0, st);
        CompleteWithCb(0, st);
      }
    }

    method BrokerDisconnected(st: Status)
      requires Queue(Model())
      modifies this, pool
      ensures Model() == Drop(old(Model()), st)
      ensures old(Valid()) && (st.BrokerDisconnected? || st.ProtocolError?) ==> Valid()
    {
      ghost var s := Model();
      if Reachable(s) && Enabled(s, InDrop(st)) {
        ReachableNext(s, InDrop(st));
      }
      CloseSession(st);
    }

    method CloseSession(st: Status)
      requires Queue(Model())
      modifies this, pool
      ensures Model() == Drop(old(Model()), st)
    {
      initialized := false;
      connected := false;
      disconnecting := true;
      if !keepSession {
        TerminateOps(st);
      }
    }

    method PrepareConnect()
      requires Valid()
      modifies this
      ensures Valid() && Model() == OnPrepareConnect(old(Model()))
    {
      ReachableNext(Model(), InPrepareConnect);
      if !initialized {
        highQosSendLimit, connected, disconnecting, keepSession := 0, false, false, false;
        initialized := true;
      }
    }

    method SessionExpiryTimeout()
      requires Valid() && !connected
      modifies this, pool
      ensures Valid() && Model() == OnExpiry(old(Model()))
    {
      ReachableTidy(Model());
      ReachableNext(Model(), InExpiry);
      TerminateOps(Status.BrokerDisconnected);
    }

    /** CONNACK. The result tells whether the loop over the operations met an entry
        that is gone, which the library does not check for. */
    method BrokerConnected(sessionPresent: bool, limit: nat, keep: bool) returns (fault: bool)
      requires Valid() && initialized && !connected && !disconnecting && limit > 0
      modifies this, pool
      ensures fault <==> !sessionPresent && !NoQos0Behind(old(sendOps))
      ensures !fault ==> Valid() && Model() == OnConnack(old(Model()), sessionPresent, limit, keep)
    {
      ghost var s := Model();
      ReachableTidy(s);
      if Enabled(s, InConnack(sessionPresent, limit, keep)) {
        ReachableNext(s, InConnack(sessionPresent, limit, keep));
      }
      fault := ConnackAccepted(sessionPresent, limit, keep);
    }

    method ConnackAccepted(sessionPresent: bool, limit: nat, keep: bool) returns (fault: bool)
      requires Queue(Model()) && !disconnecting && limit > 0
      modifies this, pool
      ensures fault <==> !sessionPresent && !NoQos0Behind(old(sendOps))
      ensures !fault ==> Model() == OnConnack(old(Model()), sessionPresent, limit, keep)
    {
      highQosSendLimit := limit;
      keepSession := keep;
      connected := true;
      if sessionPresent {
        ResumeSession();
        fault := false;
      } else {
        fault := TerminateOldSession(Aborted);
      }
    }

    /** Goes through the operations as they were listed when the loop began. */
    method TerminateOldSession(st: Status) returns (fault: bool)
      requires Queue(Model()) && !disconnecting && highQosSendLimit > 0 && !st.Sent?
      modifies this, pool
      ensures fault <==> !NoQos0Behind(old(sendOps))
      ensures !fault ==> Model() == AbortAll(old(Model()), st)
    {
      var listed := sendOps;
      var k := 0;
      while k < |listed|
        invariant 0 <= k <= |listed| && Queue(Model()) && !disconnecting && highQosSendLimit > 0
        invariant AbortAll(Model(), st) == AbortAll(old(Model()), st)
        invariant Entry(sendOps, listed, k)
      {
        var i := FindUid(sendOps, listed[k].uid);
        if i == |sendOps| {
          EntryGone(sendOps, listed, k);
          return true;
        }
        EntryThere(sendOps, listed, k);
        EndEntry(Model(), st, listed, k);
        HeadRemovable(Model(), st);
        CompleteTidy(Model(), 0, st);
        CompleteWithCb(0, st);
        k := k + 1;
      }
      return false;
    }

    method ResumeSession()
      requires Queue(Model()) && !disconnecting
      modifies this, pool
      ensures var s := old(Model());
              Model() == Drain(s.(ops := Redelivered(s.ops, |s.ops|), wire := s.wire + RedeliveryPackets(s.ops)))
    {
      ghost var s := Model();
      ResendPending();
      assert s.ops[..|s.ops|] == s.ops;
      ResumeWindow();
    }

    method ResendPending()
      requires Queue(Model())
      modifies this, pool
      ensures Queue(Model()) && Model() == Resumed(old(Model()), |old(sendOps)|)
    {
      ghost var s := Model();
      assert Resumed(s, 0) == s;
      var i := 0;
      while i < |sendOps|
        invariant 0 <= i <= |sendOps| == |s.ops|
        invariant Model() == Resumed(s, i) && Queue(Resumed(s, i))
        decreases |s.ops| - i
      {
        RedeliverNext(s, i);
        PostReconnectionResend(i);
        i := i + 1;
      }
    }

    method ResumeWindow()
      requires Queue(Model()) && !disconnecting
      modifies this, pool
      ensures Model() == Drain(old(Model()))
    {
      var n := |sendOps|;
      var resumeUntil := if highQosSendLimit < n then highQosSendLimit else n;
      var resumeFrom := resumeUntil;
      var count := resumeUntil;
      while count > 0
        invariant 0 <= count <= resumeUntil && resumeFrom == count
        invariant forall j :: resumeFrom <= j < resumeUntil ==> sendOps[j].paused
        invariant Model() == old(Model())
      {
        var idx := count - 1;
        if !sendOps[idx].paused {
          break;
        }
        resumeFrom := idx;
        count := count - 1;
      }
      WindowScan(Model(), resumeFrom, resumeUntil);
      if resumeFrom < resumeUntil {
        ResumeSendOpsSince(resumeFrom);
      } else {
        StuckDrain(Model());
      }
    }
  }
}
