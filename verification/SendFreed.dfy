/** With full ordering: which waiting QoS 0 publishes are set free when a publish
    leaves the queue, or when a sweep ends several. */
module SendFreed {
  import opened Protocol
  import opened SendModel
  import opened SendInvariant
  import opened SendActions
  import opened SendSteps
  import opened SendAcks
  import opened SendEffects

  // ----- what matters about a pending publish here

  /** `doomed`: a forced resend ends it, now or as soon as it has been sent once. */
  datatype Fate = Fate(uid: nat, qos: Qos, doomed: bool)

  function FateOf(o: SendOp): Fate {
    Fate(o.uid, o.qos, if o.paused then o.total == 1 else IsExhausted(o))
  }

  function Fates(ops: seq<SendOp>): (fs: seq<Fate>)
    ensures |fs| == |ops|
    ensures forall i :: 0 <= i < |fs| ==> fs[i] == FateOf(ops[i])
  {
    seq(|ops|, i requires 0 <= i < |ops| => FateOf(ops[i]))
  }

  ghost predicate Rising(fs: seq<Fate>) {
    forall i, j :: 0 <= i < j < |fs| ==> fs[i].uid < fs[j].uid
  }

  /** How many QoS 0 publishes come first. */
  function ZeroRun(fs: seq<Fate>): (z: nat)
    ensures z <= |fs|
    ensures forall i :: 0 <= i < z ==> fs[i].qos == 0
    ensures z < |fs| ==> fs[z].qos > 0
  {
    if fs == [] || fs[0].qos > 0 then 0 else 1 + ZeroRun(fs[1..])
  }

  function Backwards(fs: seq<Fate>): (r: seq<nat>)
    ensures |r| == |fs|
    ensures forall i :: 0 <= i < |r| ==> r[i] == fs[|fs| - 1 - i].uid
  {
    seq(|fs|, i requires 0 <= i < |fs| => fs[|fs| - 1 - i].uid)
  }

  /** The callbacks of the QoS 0 publishes at the front: last to leave, first to report. */
  function RunCalls(fs: seq<Fate>): seq<nat> {
    Backwards(fs[..ZeroRun(fs)])
  }

  function AfterRun(fs: seq<Fate>): (r: seq<Fate>)
    ensures |r| <= |fs|
  {
    fs[ZeroRun(fs)..]
  }

  /** Callbacks of QoS 0 publishes set free by a sweep that starts at the head. */
  function SweepCalls(fs: seq<Fate>, target: nat): seq<nat>
    decreases |fs|
  {
    if fs == [] || !fs[0].doomed then []
    else if fs[0].uid == target then RunCalls(fs[1..])
    else RunCalls(fs[1..]) + SweepCalls(AfterRun(fs[1..]), target)
  }

  // ----- histories

  lemma {:induction false} DeliveredAppend(a: seq<Exit>, b: seq<Exit>)
    ensures Delivered(a + b) == Delivered(a) + Delivered(b)
  {
    if b == [] {
      assert a + b == a;
    } else {
      var n := |b| - 1;
      DeliveredAppend(a, b[..n]);
      PushExit(a + b[..n], b[n]);
      Unsnoc(a, b);
    }
  }

  lemma {:induction false} DeliveredOf(exits: seq<Exit>, st: Status)
    requires forall k :: 0 <= k < |exits| ==> exits[k].status == st
    ensures Delivered(exits) == if st.Delivered() then Uids(exits) else []
  {
    if exits != [] {
      DeliveredOf(exits[..|exits| - 1], st);
    }
  }

  lemma {:induction false} SentCount(a: seq<Exit>, b: seq<Exit>)
    requires forall k :: 0 <= k < |b| ==> b[k].status.Sent?
    ensures |ExitsBy(a + b, Sent)| == |ExitsBy(a, Sent)| + |b|
  {
    if b == [] {
      assert a + b == a;
    } else {
      var n := |b| - 1;
      SentCount(a, b[..n]);
      PushExitBy(a + b[..n], b[n], Sent);
      Unsnoc(a, b);
    }
  }

  // ----- settling

  /** While anything is in flight, settling releases nothing. */
  lemma {:induction false} SettleHolds(s: Sched)
    requires Queue(s) && s.ordering.Full? && s.inFlight > 0
    ensures var r := Settle(s); r.exits == s.exits && Fates(r.ops) == Fates(s.ops)
    decreases |s.ops| - s.inFlight
  {
    if CanResume(s) {
      NothingHigherAhead(s);
      ResumeOneQueue(s);
      SendFate(s);
      SettleHolds(ResumeOne(s));
    }
  }

  /** With nothing in flight it sends and releases the QoS 0 publishes at the front. */
  lemma {:induction false} SettleFrees(s: Sched)
    requires Queue(s) && s.ordering.Full? && s.limit > 0 && s.inFlight == 0
    ensures var z := ZeroRun(Fates(s.ops)); var r := Settle(s);
            r.exits == s.exits + ExitsOf(s.ops[..z], Sent) && Fates(r.ops) == Fates(s.ops)[z..]
    decreases |s.ops|
  {
    if s.ops != [] {
      HeadResumes(s);
      ResumeOneQueue(s);
      if s.ops[0].qos == 0 {
        FreeOne(s);
        SettleFrees(ResumeOne(s));
        FreesMore(s.exits, s.ops, Settle(s).exits, Fates(Settle(s).ops));
      } else {
        SendFate(s);
        SettleHolds(ResumeOne(s));
        assert ExitsOf(s.ops[..0], Sent) == [];
      }
    }
  }

  lemma FreesMore(exits: seq<Exit>, ops: seq<SendOp>, after: seq<Exit>, left: seq<Fate>)
    requires ops != [] && ops[0].qos == 0
    requires var m := ZeroRun(Fates(ops[1..]));
             && after == exits + [Exit(ops[0].uid, Sent)] + ExitsOf(ops[1..][..m], Sent)
             && left == Fates(ops[1..])[m..]
    ensures var z := ZeroRun(Fates(ops)); after == exits + ExitsOf(ops[..z], Sent) && left == Fates(ops)[z..]
  {
    var m := ZeroRun(Fates(ops[1..]));
    FatesTail(ops);
    FreedCons(exits, ops, m + 1);
    assert Fates(ops)[m + 1..] == Fates(ops)[1..][m..];
  }

  lemma FreedCons(exits: seq<Exit>, ops: seq<SendOp>, z: nat)
    requires 0 < z <= |ops|
    ensures exits + [Exit(ops[0].uid, Sent)] + ExitsOf(ops[1..][..z - 1], Sent) == exits + ExitsOf(ops[..z], Sent)
  {
    ExitsCons(exits, ops[..z], ops[1..][..z - 1], Sent);
  }

  lemma HeadResumes(s: Sched)
    requires s.ordering.Full? && s.limit > 0 && s.inFlight == 0 < |s.ops|
    ensures CanResume(s)
  {
  }

  lemma FreeOne(s: Sched)
    requires Queue(s) && s.inFlight == 0 < |s.ops| && s.ops[0].qos == 0
    ensures var r := ResumeOne(s);
            r.inFlight == 0 && r.ops == s.ops[1..] && r.exits == s.exits + [Exit(s.ops[0].uid, Sent)]
  {
  }

  lemma FatesTail(ops: seq<SendOp>)
    requires ops != []
    ensures Fates(ops)[1..] == Fates(ops[1..])
    ensures ops[0].qos == 0 ==> ZeroRun(Fates(ops)) == 1 + ZeroRun(Fates(ops[1..]))
  {
    assert Fates(ops)[1..] == Fates(ops[1..]);
  }

  lemma SendFate(s: Sched)
    requires Queue(s) && s.inFlight < |s.ops|
    ensures Fates(SendAt(s, s.inFlight).ops) == Fates(s.ops)
  {
    assert WaitingOp(s.ordering, s.ops[s.inFlight]);
  }

  // ----- leaving the queue

  /** A state in which leaving resumes others. */
  ghost predicate Flowing(s: Sched) {
    Queue(s) && s.ordering.Full? && !s.disconnecting && s.limit > 0
  }

  ghost predicate Live(s: Sched) {
    Flowing(s) && !CanResume(s)
  }

  /** A state in which nothing is ever resumed. */
  predicate Still(s: Sched) {
    s.ordering.Full? && (s.disconnecting || s.limit == 0)
  }

  lemma LiveHead(s: Sched)
    requires Live(s) && s.ops != []
    ensures s.inFlight > 0 && InFlightOp(s.ops[0])
  {
    if s.inFlight == 0 {
      HeadResumes(s);
    }
  }

  /** What the head leaving sets free. */
  lemma HeadSettles(s: Sched, st: Status)
    requires Flowing(s) && s.ops != []
    ensures var rest := s.ops[1..]; var z := ZeroRun(Fates(rest)); var g := RemoveAt(s, 0, st);
            && Settle(g).exits == g.exits + ExitsOf(rest[..z], Sent)
            && Fates(Settle(g).ops) == Fates(rest)[z..]
  {
    HeadGone(s, st);
    var g := RemoveAt(s, 0, st);
    if g.inFlight == 0 {
      SettleFrees(g);
    } else {
      SettleHolds(g);
      assert ExitsOf(s.ops[1..][..0], Sent) == [];
    }
  }

  lemma HeadGone(s: Sched, st: Status)
    requires Flowing(s) && s.ops != []
    ensures var g := RemoveAt(s, 0, st);
            && Queue(g) && g.ops == s.ops[1..]
            && (g.inFlight > 0 ==> ZeroRun(Fates(g.ops)) == 0)
  {
    InFlightIff(s, 0);
    RemoveQueue(s, 0, st);
    var g := RemoveAt(s, 0, st);
    assert g.ops == s.ops[1..];
    if g.inFlight > 0 {
      assert InFlightOp(g.ops[0]);
    }
  }

  lemma ReversedRun(ops: seq<SendOp>, z: nat)
    requires z <= |ops|
    ensures Delivered(Reverse(ExitsOf(ops[..z], Sent))) == Backwards(Fates(ops)[..z])
  {
    var xs := Reverse(ExitsOf(ops[..z], Sent));
    DeliveredOf(xs, Sent);
    assert Uids(xs) == Backwards(Fates(ops)[..z]);
  }

  lemma LeaveLive(s: Sched, i: nat, st: Status)
    requires Flowing(s) && i < |s.ops|
    ensures Live(Leave(s, i, st)) && Live(Complete(s, i, st))
  {
    CompleteTidy(s, i, st);
    ReportsQueue(Leave(s, i, st), Complete(s, i, st).reports);
  }

  lemma DrainIs(g: Sched, freed: seq<Exit>)
    requires Settle(g).exits == g.exits + freed
    ensures Drain(g).exits == g.exits + freed && Drain(g).reports == g.reports + Reverse(freed)
  {
    assert Settle(g).exits[|g.exits|..] == freed;
  }

  /** Draining reports what it sets free from the last to the first. */
  lemma DrainCalls(g: Sched, ops: seq<SendOp>, z: nat)
    requires z <= |ops| && Settle(g).exits == g.exits + ExitsOf(ops[..z], Sent)
    ensures var r := Drain(g);
            && Delivered(r.reports) == Delivered(g.reports) + Backwards(Fates(ops)[..z])
            && |ExitsBy(r.exits, Sent)| == |ExitsBy(g.exits, Sent)| + z
  {
    var freed := ExitsOf(ops[..z], Sent);
    DrainIs(g, freed);
    ReversedRun(ops, z);
    DeliveredAppend(g.reports, Reverse(freed));
    SentCount(g.exits, freed);
  }

  lemma HeadLeaves(s: Sched, st: Status)
    requires Flowing(s) && s.ops != []
    ensures var rest := Fates(s.ops[1..]); var r := Leave(s, 0, st);
            && Delivered(r.reports) == Delivered(s.reports) + RunCalls(rest)
            && Fates(r.ops) == AfterRun(rest)
            && (!st.Sent? ==> |ExitsBy(r.exits, Sent)| == |ExitsBy(s.exits, Sent)| + |RunCalls(rest)|)
  {
    HeadSettles(s, st);
    DrainCalls(RemoveAt(s, 0, st), s.ops[1..], ZeroRun(Fates(s.ops[1..])));
    PushExitBy(s.exits, Exit(s.ops[0].uid, st), Sent);
  }

  /** Behind the head nothing is set free. */
  lemma OtherLeaves(s: Sched, i: nat, st: Status)
    requires Live(s) && 0 < i < |s.ops|
    ensures var r := Leave(s, i, st);
            && r.reports == s.reports && r.exits == s.exits + [Exit(s.ops[i].uid, st)]
  {
    LiveHead(s);
    var g := RemoveAt(s, i, st);
    RemoveQueue(s, i, st);
    assert s.ops[0] == g.ops[0];
    InFlightIff(g, 0);
    SettleHolds(g);
    assert Reverse([]) == [];
  }

  lemma StillLeaves(s: Sched, i: nat, st: Status)
    requires Still(s) && i < |s.ops|
    ensures var r := Leave(s, i, st);
            && Still(r) && r.reports == s.reports && r.exits == s.exits + [Exit(s.ops[i].uid, st)]
  {
    var g := RemoveAt(s, i, st);
    if !s.disconnecting {
      assert Settle(g) == g;
      assert Reverse([]) == [];
    }
  }

  /** What `r` adds to the callbacks of deliveries and to the exits at QoS 0. */
  ghost predicate Adds(s: Sched, r: Sched, calls: seq<nat>) {
    && Delivered(r.reports) == Delivered(s.reports) + calls
    && |ExitsBy(r.exits, Sent)| == |ExitsBy(s.exits, Sent)| + |calls|
  }

  lemma HeadTimesOut(s: Sched)
    requires Live(s) && s.ops != []
    ensures var rest := Fates(s.ops[1..]); var r := Complete(s, 0, TimedOut);
            && Adds(s, r, RunCalls(rest)) && Fates(r.ops) == AfterRun(rest)
  {
    HeadLeaves(s, TimedOut);
    OwnCall(s, 0, TimedOut);
  }

  /** Completing is leaving, and then the publish's own callback. */
  lemma OwnCall(s: Sched, i: nat, st: Status)
    requires i < |s.ops|
    ensures var l := Leave(s, i, st); var r := Complete(s, i, st);
            && r.ops == l.ops && r.exits == l.exits
            && Delivered(r.reports) == Delivered(l.reports) + if st.Delivered() then [s.ops[i].uid] else []
  {
    PushExit(Leave(s, i, st).reports, Exit(s.ops[i].uid, st));
  }

  lemma OtherTimesOut(s: Sched, i: nat)
    requires (Live(s) && 0 < i < |s.ops|) || (Still(s) && i < |s.ops|)
    ensures Adds(s, Complete(s, i, TimedOut), [])
  {
    if Still(s) {
      StillLeaves(s, i, TimedOut);
    } else {
      OtherLeaves(s, i, TimedOut);
    }
    PushExit(s.reports, Exit(s.ops[i].uid, TimedOut));
    PushExitBy(s.exits, Exit(s.ops[i].uid, TimedOut), Sent);
  }

  // ----- sweeps

  lemma ForceResendLive(s: Sched, i: nat)
    requires Live(s) && i < |s.ops|
    ensures Live(ForceResend(s, i))
  {
    InFlightIff(s, i);
    if i < s.inFlight {
      if IsExhausted(s.ops[i]) {
        LeaveLive(s, i, TimedOut);
      } else {
        RetransmitQueue(s, i, Retry);
        RetransmitStuck(s, i);
      }
    }
  }

  lemma AddsMore(s: Sched, t: Sched, r: Sched, a: seq<nat>, b: seq<nat>)
    requires Adds(s, t, a) && Adds(t, r, b)
    ensures Adds(s, r, a + b)
  {
  }

  /** A sweep that has left the head in place sets nothing free. */
  lemma {:induction false} SweepBehindHead(s: Sched, i: nat, target: nat)
    requires Live(s) && i > 0
    ensures Adds(s, ResendUntil(s, i, target), [])
    decreases |s.ops| - i
  {
    if i < |s.ops| {
      var t := ForceResend(s, i);
      ForceResendLive(s, i);
      InFlightIff(s, i);
      if i < s.inFlight && IsExhausted(s.ops[i]) {
        OtherTimesOut(s, i);
      }
      assert Adds(s, t, []);
      if s.ops[i].uid != target {
        SweepBehindHead(t, Onward(t, i, s.ops[i].uid), target);
        AddsMore(s, t, ResendUntil(s, i, target), [], []);
      }
    }
  }

  /** The callbacks and QoS 0 exits of a whole sweep. */
  lemma {:induction false} SweepAdds(s: Sched, target: nat)
    requires Live(s)
    ensures Adds(s, ResendUntil(s, 0, target), SweepCalls(Fates(s.ops), target))
    decreases |s.ops|
  {
    if s.ops != [] {
      LiveHead(s);
      var t := ForceResend(s, 0);
      ForceResendLive(s, 0);
      if IsExhausted(s.ops[0]) {
        SweepPastHead(s, target);
      } else {
        assert Adds(s, t, []);
        if s.ops[0].uid != target {
          SweepBehindHead(t, 1, target);
        }
      }
    }
  }

  lemma PastHead(s: Sched)
    requires Live(s) && s.ops != [] && IsExhausted(s.ops[0])
    ensures var rest := Fates(s.ops[1..]); var t := Complete(s, 0, TimedOut);
            && !s.ops[0].paused && t == ForceResend(s, 0) && Onward(t, 0, s.ops[0].uid) == 0
            && Live(t) && Adds(s, t, RunCalls(rest)) && Fates(t.ops) == AfterRun(rest)
  {
    var t := Complete(s, 0, TimedOut);
    LiveHead(s);
    HeadTimesOut(s);
    LeaveLive(s, 0, TimedOut);
    if t.ops != [] {
      var rest := Fates(s.ops[1..]);
      assert Fates(t.ops)[0] == rest[ZeroRun(rest)];
    }
  }

  lemma {:induction false} SweepPastHead(s: Sched, target: nat)
    requires Live(s) && s.ops != [] && IsExhausted(s.ops[0])
    ensures Adds(s, ResendUntil(s, 0, target), SweepCalls(Fates(s.ops), target))
    decreases |s.ops|, 0
  {
    var t := Complete(s, 0, TimedOut);
    PastHead(s);
    SweepStep(s, 0, target);
    DoomedHead(s.ops, target);
    if s.ops[0].uid != target {
      SweepAdds(t, target);
      AddsMore(s, t, ResendUntil(s, 0, target), RunCalls(Fates(s.ops[1..])), SweepCalls(Fates(t.ops), target));
    }
  }

  lemma DoomedHead(ops: seq<SendOp>, target: nat)
    requires ops != [] && !ops[0].paused && IsExhausted(ops[0])
    ensures var rest := Fates(ops[1..]);
            SweepCalls(Fates(ops), target) ==
            if ops[0].uid == target then RunCalls(rest)
            else RunCalls(rest) + SweepCalls(AfterRun(rest), target)
  {
    FatesTail(ops);
  }

  lemma SweepStill(s: Sched, target: nat)
    requires Still(s)
    ensures Adds(s, ResendUntil(s, 0, target), [])
  {
    forall t: Sched, j: nat | Still(t) && Adds(s, t, []) && j < |t.ops|
      ensures Still(ForceResend(t, j)) && Adds(s, ForceResend(t, j), [])
    {
      StillLeaves(t, j, TimedOut);
      OtherTimesOut(t, j);
    }
    SweepKeeps(s, 0, target, t => Still(t) && Adds(s, t, []));
  }
}
