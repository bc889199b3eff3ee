/** Acknowledgements out of order, and the order of completion callbacks. */
module SendAcks {
  import opened SendModel
  import opened SendInvariant
  import opened SendActions
  import opened SendSteps
  import opened SendTheorems

  // ----- projections of the history

  /** Exits other than by a QoS 0 transmission. */
  function NotSent(exits: seq<Exit>): seq<Exit> {
    if exits == [] then [] else
      var e := exits[|exits| - 1];
      if e.status.Sent? then NotSent(exits[..|exits| - 1]) else NotSent(exits[..|exits| - 1]) + [e]
  }

  predicate IsRetry(p: Packet) {
    (p.Publish? || p.Pubrel?) && p.cause.Retry?
  }

  function Retries(wire: seq<Packet>): seq<Packet> {
    if wire == [] then [] else
      var p := wire[|wire| - 1];
      if IsRetry(p) then Retries(wire[..|wire| - 1]) + [p] else Retries(wire[..|wire| - 1])
  }

  lemma PushNotSent(exits: seq<Exit>, e: Exit)
    ensures NotSent(exits + [e]) == if e.status.Sent? then NotSent(exits) else NotSent(exits) + [e]
  {
    assert (exits + [e])[..|exits|] == exits;
  }

  lemma PushRetries(wire: seq<Packet>, p: Packet)
    ensures Retries(wire + [p]) == if IsRetry(p) then Retries(wire) + [p] else Retries(wire)
  {
    assert (wire + [p])[..|wire|] == wire;
  }

  // ----- the three things a sweep does to a stretch of in-flight publishes

  predicate IsExhausted(o: SendOp) {
    o.total <= o.attempts
  }

  function Timeouts(ops: seq<SendOp>): seq<Exit> {
    if ops == [] then [] else
      (if IsExhausted(ops[0]) then [Exit(ops[0].uid, TimedOut)] else []) + Timeouts(ops[1..])
  }

  function RetryPackets(ops: seq<SendOp>): seq<Packet> {
    if ops == [] then [] else
      (if IsExhausted(ops[0]) then [] else [Resent(ops[0], Retry)]) + RetryPackets(ops[1..])
  }

  function Survivors(ops: seq<SendOp>): seq<SendOp> {
    if ops == [] then [] else
      (if IsExhausted(ops[0]) then [] else [Again(ops[0], Retry)]) + Survivors(ops[1..])
  }

  // ----- settling disturbs none of it

  lemma {:induction false} SettleQuiet(s: Sched)
    requires Queue(s)
    ensures var r := Settle(s);
            && Queue(r) && s.inFlight <= r.inFlight
            && r.ops[..s.inFlight] == s.ops[..s.inFlight]
            && NotSent(r.exits) == NotSent(s.exits) && Retries(r.wire) == Retries(s.wire)
    decreases |s.ops| - s.inFlight
  {
    if CanResume(s) {
      ResumeOneQueue(s);
      ResumeOneQuiet(s);
      SettleQuiet(ResumeOne(s));
      var r, t := ResumeOne(s), Settle(s);
      assert t.ops[..s.inFlight] == t.ops[..r.inFlight][..s.inFlight];
      assert r.ops[..s.inFlight] == r.ops[..r.inFlight][..s.inFlight];
    }
  }

  lemma ResumeOneQuiet(s: Sched)
    requires Queue(s) && CanResume(s)
    ensures var r := ResumeOne(s);
            && s.inFlight <= r.inFlight <= |r.ops|
            && r.ops[..s.inFlight] == s.ops[..s.inFlight]
            && NotSent(r.exits) == NotSent(s.exits) && Retries(r.wire) == Retries(s.wire)
  {
    var p, o := s.inFlight, s.ops[s.inFlight];
    PushRetries(s.wire, Publish(o.uid, o.packetId, o.qos, o.dup, First));
    PushNotSent(s.exits, Exit(o.uid, Sent));
    assert SendAt(s, p).ops[..p] == s.ops[..p];
    if o.qos == 0 {
      assert Without(SendAt(s, p).ops, p)[..p] == s.ops[..p];
    }
  }

  lemma TimeoutEffect(s: Sched, i: nat)
    requires Queue(s) && i < s.inFlight && IsExhausted(s.ops[i])
    ensures var r := ForceResend(s, i);
            && Queue(r) && s.inFlight - 1 <= r.inFlight
            && r.ops[..s.inFlight - 1] == Without(s.ops, i)[..s.inFlight - 1]
            && NotSent(r.exits) == NotSent(s.exits) + [Exit(s.ops[i].uid, TimedOut)]
            && Retries(r.wire) == Retries(s.wire)
  {
    InFlightIff(s, i);
    var g := RemoveAt(s, i, TimedOut);
    RemoveQueue(s, i, TimedOut);
    PushNotSent(s.exits, Exit(s.ops[i].uid, TimedOut));
    SettleQuiet(g);
    ReportsQueue(Leave(s, i, TimedOut), ForceResend(s, i).reports);
    if !s.disconnecting {
      ReportsQueue(Settle(g), Drain(g).reports);
    }
  }

  lemma ReportsQueue(s: Sched, reports: seq<Exit>)
    ensures Queue(s.(reports := reports)) == Queue(s)
  {
  }

  lemma RetryEffect(s: Sched, i: nat)
    requires Queue(s) && i < s.inFlight && !IsExhausted(s.ops[i])
    ensures var r := ForceResend(s, i);
            && Queue(r) && r.inFlight == s.inFlight
            && r.ops == s.ops[i := Again(s.ops[i], Retry)]
            && r.exits == s.exits
            && Retries(r.wire) == Retries(s.wire) + [Resent(s.ops[i], Retry)]
  {
    InFlightIff(s, i);
    RetransmitQueue(s, i, Retry);
    PushRetries(s.wire, Resent(s.ops[i], Retry));
    assert ForceResend(s, i) == Retransmit(s, i, Retry);
  }

  // ----- states in which nothing more can be resumed

  lemma StuckDrain(s: Sched)
    requires !CanResume(s)
    ensures Drain(s) == s
  { }

  lemma DrainSettled(s: Sched)
    requires Queue(s)
    ensures Queue(Drain(s)) && !CanResume(Drain(s)) && s.inFlight <= Drain(s).inFlight
    ensures Drain(s).disconnecting == s.disconnecting && Drain(s).limit == s.limit
  {
    SettleQuiet(s);
    ReportsQueue(Settle(s), Drain(s).reports);
    SettleStuck(s);
  }

  lemma {:induction false} SettleStuck(s: Sched)
    ensures !CanResume(Settle(s)) && Settle(s).disconnecting == s.disconnecting && Settle(s).limit == s.limit
    decreases |s.ops| - s.inFlight
  {
    if CanResume(s) {
      SettleStuck(ResumeOne(s));
    }
  }

  /** What the retransmitting and completing methods need of the state they start in. */
  ghost predicate Tidy(s: Sched) {
    Queue(s) && (!s.disconnecting ==> !CanResume(s))
  }

  lemma CompleteTidy(s: Sched, i: nat, st: Status)
    requires Queue(s) && i < |s.ops|
    ensures Tidy(Complete(s, i, st)) && Complete(s, i, st).disconnecting == s.disconnecting
    ensures Complete(s, i, st).limit == s.limit
  {
    var g := RemoveAt(s, i, st);
    RemoveQueue(s, i, st);
    DrainSettled(g);
    ReportsQueue(Leave(s, i, st), Complete(s, i, st).reports);
  }

  lemma ForceResendTidy(s: Sched, i: nat)
    requires Tidy(s) && i < |s.ops|
    ensures Tidy(ForceResend(s, i))
  {
    InFlightIff(s, i);
    if i < s.inFlight {
      if IsExhausted(s.ops[i]) {
        CompleteTidy(s, i, TimedOut);
      } else {
        RetransmitQueue(s, i, Retry);
        RetransmitStuck(s, i);
      }
    }
  }

  // ----- the sweep

  /** `r` is what a sweep over `visited` makes of `s`, with `kept` in front of them. */
  ghost predicate Swept(s: Sched, r: Sched, kept: seq<SendOp>, visited: seq<SendOp>) {
    && NotSent(r.exits) == NotSent(s.exits) + Timeouts(visited)
    && Retries(r.wire) == Retries(s.wire) + RetryPackets(visited)
    && kept + Survivors(visited) <= r.ops
  }

  lemma SweptNone(r: Sched, kept: seq<SendOp>)
    requires kept <= r.ops
    ensures Swept(r, r, kept, [])
  {
    assert kept + [] == kept;
  }

  lemma SweptTimeout(s: Sched, t: Sched, r: Sched, kept: seq<SendOp>, o: SendOp, rest: seq<SendOp>)
    requires IsExhausted(o) && Swept(t, r, kept, rest)
    requires NotSent(t.exits) == NotSent(s.exits) + [Exit(o.uid, TimedOut)] && Retries(t.wire) == Retries(s.wire)
    ensures Swept(s, r, kept, [o] + rest)
  {
    assert ([o] + rest)[1..] == rest;
  }

  lemma SweptRetry(s: Sched, t: Sched, r: Sched, kept: seq<SendOp>, o: SendOp, rest: seq<SendOp>)
    requires !IsExhausted(o) && Swept(t, r, kept + [Again(o, Retry)], rest)
    requires t.exits == s.exits && Retries(t.wire) == Retries(s.wire) + [Resent(o, Retry)]
    ensures Swept(s, r, kept, [o] + rest)
  {
    assert ([o] + rest)[1..] == rest;
    assert kept + [Again(o, Retry)] + Survivors(rest) == kept + Survivors([o] + rest);
  }

  lemma PrefixCut(a: seq<SendOp>, b: seq<SendOp>, m: nat, c: seq<SendOp>)
    requires |c| <= m <= |a| && m <= |b| && a[..m] == b[..m] && c <= b
    ensures c <= a
  {
    assert forall j :: 0 <= j < |c| ==> a[j] == a[..m][j] == b[..m][j] == c[j];
  }

  /** The in-flight part of the queue starts with `kept`, then `visited`. */
  ghost predicate Ahead(s: Sched, kept: seq<SendOp>, visited: seq<SendOp>) {
    Queue(s) && |kept| + |visited| <= s.inFlight && kept + visited <= s.ops
  }

  lemma AfterTimeout(s: Sched, kept: seq<SendOp>, o: SendOp, rest: seq<SendOp>)
    requires Ahead(s, kept, [o] + rest) && IsExhausted(o)
    ensures s.ops[|kept|] == o
    ensures Ahead(ForceResend(s, |kept|), kept, rest)
  {
    AheadOf(s, kept, o, rest);
    TimeoutEffect(s, |kept|);
    PrefixCut(ForceResend(s, |kept|).ops, Without(s.ops, |kept|), s.inFlight - 1, kept + rest);
  }

  lemma AheadOf(s: Sched, kept: seq<SendOp>, o: SendOp, rest: seq<SendOp>)
    requires Ahead(s, kept, [o] + rest)
    ensures s.ops[|kept|] == o
    ensures kept + rest <= Without(s.ops, |kept|)
  {
    var all := kept + ([o] + rest);
    assert forall j :: 0 <= j < |all| ==> s.ops[j] == all[j];
  }

  lemma AfterRetry(s: Sched, kept: seq<SendOp>, o: SendOp, rest: seq<SendOp>)
    requires Ahead(s, kept, [o] + rest) && !IsExhausted(o)
    ensures s.ops[|kept|] == o
    ensures Ahead(ForceResend(s, |kept|), kept + [Again(o, Retry)], rest)
  {
    assert forall j :: 0 <= j < |kept| + 1 + |rest| ==> s.ops[j] == (kept + ([o] + rest))[j];
    RetryEffect(s, |kept|);
  }

  /** How a sweep goes on from a publish that is not the target. */
  lemma SweepStep(s: Sched, i: nat, uid: nat)
    requires i < |s.ops|
    ensures var t := ForceResend(s, i);
            ResendUntil(s, i, uid) ==
            if s.ops[i].uid == uid then t else ResendUntil(t, Onward(t, i, s.ops[i].uid), uid)
  {
  }

  lemma FirstOfRest(s: Sched, kept: seq<SendOp>, rest: seq<SendOp>)
    requires Ahead(s, kept, rest) && rest != []
    ensures s.ops[|kept|] == rest[0]
  {
    assert s.ops[|kept|] == (kept + rest)[|kept|];
  }

  lemma LastOfKept(s: Sched, kept: seq<SendOp>, rest: seq<SendOp>)
    requires Ahead(s, kept, rest) && kept != []
    ensures s.ops[|kept| - 1] == kept[|kept| - 1]
  {
    assert s.ops[|kept| - 1] == (kept + rest)[|kept| - 1];
  }

  ghost predicate Distinct(ops: seq<SendOp>) {
    forall i, j :: 0 <= i < j < |ops| ==> ops[i].uid != ops[j].uid
  }

  /** The sweep over `visited`, the last of which is the target, meets each of
      them exactly once, in order; each is retransmitted or ends with a timeout. */
  lemma {:induction false} Sweep(s: Sched, kept: seq<SendOp>, visited: seq<SendOp>)
    requires Ahead(s, kept, visited) && visited != [] && Distinct(visited)
    ensures Swept(s, ResendUntil(s, |kept|, visited[|visited| - 1].uid), kept, visited)
    decreases |visited|, 1
  {
    var o, rest := visited[0], visited[1..];
    var uid := visited[|visited| - 1].uid;
    assert visited == [o] + rest;
    if IsExhausted(o) {
      SweepFromTimeout(s, kept, o, rest, uid);
    } else {
      SweepFromRetry(s, kept, o, rest, uid);
    }
  }

  lemma {:induction false} SweepFromTimeout(s: Sched, kept: seq<SendOp>, o: SendOp, rest: seq<SendOp>, uid: nat)
    requires Ahead(s, kept, [o] + rest) && Distinct([o] + rest) && IsExhausted(o)
    requires uid == ([o] + rest)[|rest|].uid
    ensures Swept(s, ResendUntil(s, |kept|, uid), kept, [o] + rest)
    decreases |rest| + 1, 0
  {
    var t := ForceResend(s, |kept|);
    AfterTimeout(s, kept, o, rest);
    SweepStep(s, |kept|, uid);
    TimeoutEffect(s, |kept|);
    if rest == [] {
      SweptNone(t, kept);
    } else {
      FirstOfRest(t, kept, rest);
      DistinctTail(o, rest);
      Sweep(t, kept, rest);
    }
    SweptTimeout(s, t, ResendUntil(s, |kept|, uid), kept, o, rest);
  }

  lemma {:induction false} SweepFromRetry(s: Sched, kept: seq<SendOp>, o: SendOp, rest: seq<SendOp>, uid: nat)
    requires Ahead(s, kept, [o] + rest) && Distinct([o] + rest) && !IsExhausted(o)
    requires uid == ([o] + rest)[|rest|].uid
    ensures Swept(s, ResendUntil(s, |kept|, uid), kept, [o] + rest)
    decreases |rest| + 1, 0
  {
    var t := ForceResend(s, |kept|);
    var more := kept + [Again(o, Retry)];
    AfterRetry(s, kept, o, rest);
    SweepStep(s, |kept|, uid);
    RetryEffect(s, |kept|);
    LastOfKept(t, more, rest);
    if rest == [] {
      SweptNone(t, more);
    } else {
      DistinctTail(o, rest);
      Sweep(t, more, rest);
    }
    SweptRetry(s, t, ResendUntil(s, |kept|, uid), kept, o, rest);
  }

  lemma DistinctTail(o: SendOp, rest: seq<SendOp>)
    requires Distinct([o] + rest) && rest != []
    ensures Distinct(rest) && rest[0].uid != o.uid && rest[|rest| - 1].uid != o.uid
  {
    var v := [o] + rest;
    assert forall i :: 0 <= i < |rest| ==> v[i + 1] == rest[i];
    assert v[0] == o;
  }

  // ----- acknowledged flags

  /** Publishes pending in both states agree on having been acknowledged. */
  ghost predicate SameAcks(s: Sched, t: Sched) {
    forall j, k :: 0 <= j < |t.ops| && 0 <= k < |s.ops| && t.ops[j].uid == s.ops[k].uid ==> t.ops[j].acked == s.ops[k].acked
  }

  lemma {:induction false} SettleSameAcks(s: Sched, t: Sched)
    requires SameAcks(s, t)
    ensures SameAcks(s, Settle(t))
    decreases |t.ops| - t.inFlight
  {
    if CanResume(t) {
      ResumeOneSameAcks(s, t);
      SettleSameAcks(s, ResumeOne(t));
    }
  }

  lemma ResumeOneSameAcks(s: Sched, t: Sched)
    requires SameAcks(s, t) && CanResume(t)
    ensures SameAcks(s, ResumeOne(t))
  {
    var sent := SendAt(t, t.inFlight);
    assert SameAcks(s, sent);
    RemoveSameAcks(s, sent, t.inFlight, Sent);
  }

  lemma RemoveSameAcks(s: Sched, t: Sched, i: nat, st: Status)
    requires SameAcks(s, t) && i < |t.ops|
    ensures SameAcks(s, RemoveAt(t, i, st))
  {
  }

  lemma ForceResendSameAcks(s: Sched, t: Sched, i: nat)
    requires SameAcks(s, t) && i < |t.ops|
    ensures SameAcks(s, ForceResend(t, i))
  {
    RemoveSameAcks(s, t, i, TimedOut);
    SettleSameAcks(s, RemoveAt(t, i, TimedOut));
  }

  lemma SweepSameAcks(s: Sched, i: nat, uid: nat)
    requires Numbered(s)
    ensures SameAcks(s, ResendUntil(s, i, uid))
  {
    forall t: Sched, j: nat | SameAcks(s, t) && j < |t.ops| ensures SameAcks(s, ForceResend(t, j)) {
      ForceResendSameAcks(s, t, j);
    }
    SweepKeeps(s, i, uid, t => SameAcks(s, t));
  }

  predicate IsAck(e: Input) {
    e.InPuback? || e.InPubrec? || e.InPubcomp?
  }

  predicate IsAckFor(e: Input, id: nat) {
    IsAck(e) && e.id == id
  }

  /** An acknowledgement out of turn for a published publish acknowledges and
      delivers nothing. Everything from the head to the target is visited once,
      in order: retransmitted, or ended by a timeout if its attempts are used
      up. Only QoS 0 publishes that were paused can complete meanwhile. */
  lemma OutOfOrderAck(s: Sched, e: Input, id: nat)
    requires Reachable(s) && IsAckFor(e, id)
    requires var n := Find(s.ops, id); n < |s.ops| && s.ops[n].published && !LegitAck(s, n, e.InPubcomp?)
    ensures var r := Next(s, e); var visited := s.ops[..Find(s.ops, id) + 1];
            && SameAcks(s, r)
            && Swept(s, r, [], visited)
  {
    var n := Find(s.ops, id);
    var r := ResendUntil(s, 0, s.ops[n].uid);
    assert Next(s, e) == r by {
      OutOfTurnIs(s, e, id);
    }
    assert SameAcks(s, r) && Swept(s, r, [], s.ops[..n + 1]) by {
      ReachableQueue(s);
      SweepToTarget(s, n);
    }
  }

  lemma SweepToTarget(s: Sched, n: nat)
    requires Queue(s) && n < |s.ops| && s.ops[n].published
    ensures Swept(s, ResendUntil(s, 0, s.ops[n].uid), [], s.ops[..n + 1])
    ensures SameAcks(s, ResendUntil(s, 0, s.ops[n].uid))
  {
    var visited := s.ops[..n + 1];
    assert visited[|visited| - 1] == s.ops[n];
    InFlightIff(s, n);
    SweepSameAcks(s, 0, s.ops[n].uid);
    VisitedAhead(s, n);
    Sweep(s, [], visited);
  }

  lemma VisitedAhead(s: Sched, n: nat)
    requires Queue(s) && n < s.inFlight
    ensures Ahead(s, [], s.ops[..n + 1]) && Distinct(s.ops[..n + 1])
  {
    var visited := s.ops[..n + 1];
    assert [] + visited == visited;
    forall i, j | 0 <= i < j < |visited| ensures visited[i].uid != visited[j].uid {
      assert s.ops[i].uid < s.ops[j].uid;
    }
  }

  lemma OutOfTurnIs(s: Sched, e: Input, id: nat)
    requires IsAckFor(e, id)
    requires var n := Find(s.ops, id); n < |s.ops| && !LegitAck(s, n, e.InPubcomp?)
    ensures Next(s, e) == ResendUntil(s, 0, s.ops[Find(s.ops, id)].uid)
  {
  }

  // ----- callbacks

  function Uids(exits: seq<Exit>): seq<nat> {
    seq(|exits|, i requires 0 <= i < |exits| => exits[i].uid)
  }

  /** A completion is reported after those it set free: within one completion
      the callbacks run in exactly the reverse of the order of leaving. */
  lemma CallbacksReverseExits(s: Sched, i: nat, st: Status)
    requires i < |s.ops|
    ensures var r := Complete(s, i, st);
            && s.exits + [Exit(s.ops[i].uid, st)] <= r.exits
            && r.reports == s.reports + Reverse(r.exits[|s.exits|..])
  {
    var e := Exit(s.ops[i].uid, st);
    var g := RemoveAt(s, i, st);
    var r := Complete(s, i, st);
    if !s.disconnecting {
      var news := r.exits[|g.exits|..];
      assert r.exits[|s.exits|..] == [e] + news;
      assert Reverse([e] + news) == Reverse(news) + [e];
    } else {
      assert r.exits[|s.exits|..] == [e];
      assert Reverse([e]) == [e];
    }
  }
}
