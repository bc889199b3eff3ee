/** Every elementary action on the publish queue keeps the core invariant. */
module SendActions {
  import opened Protocol
  import opened PacketIds
  import opened SendModel
  import opened SendInvariant

  // ----- leaving the queue

  lemma HoldsWithout(ops: seq<SendOp>, i: nat, id: nat)
    requires i < |ops|
    ensures Holds(Without(ops, i), id) ==> Holds(ops, id)
    ensures Holds(ops, id) && id != ops[i].packetId ==> Holds(Without(ops, i), id)
  {
    var r := Without(ops, i);
    if Holds(r, id) {
      var j :| 0 <= j < |r| && r[j].packetId == id;
      assert ops[if j < i then j else j + 1].packetId == id;
    }
    if Holds(ops, id) && id != ops[i].packetId {
      var j :| 0 <= j < |ops| && ops[j].packetId == id;
      assert r[if j < i then j else j - 1].packetId == id;
    }
  }

  lemma PendingWithout(ops: seq<SendOp>, i: nat, uid: nat)
    requires i < |ops|
    requires forall j, k :: 0 <= j < k < |ops| ==> ops[j].uid < ops[k].uid
    ensures Pending(Without(ops, i), uid) <==> Pending(ops, uid) && uid != ops[i].uid
  {
    var r := Without(ops, i);
    if Pending(r, uid) {
      var j :| 0 <= j < |r| && r[j].uid == uid;
      assert ops[if j < i then j else j + 1].uid == uid;
    }
    if Pending(ops, uid) && uid != ops[i].uid {
      var j :| 0 <= j < |ops| && ops[j].uid == uid;
      assert r[if j < i then j else j - 1].uid == uid;
    }
  }

  lemma RemoveQueue(s: Sched, i: nat, st: Status)
    requires Queue(s) && i < |s.ops|
    ensures Queue(RemoveAt(s, i, st))
  {
    assert s.ops[i].published == (i < s.inFlight);
  }

  lemma RemoveIds(s: Sched, i: nat, st: Status)
    requires Ids(s) && i < |s.ops|
    ensures Ids(RemoveAt(s, i, st))
  {
    var r := RemoveAt(s, i, st);
    var gone := s.ops[i].packetId;
    ReleaseValid(s.pool, gone);
    forall id: nat | id > 0 ensures id in r.pool.ids <==> Holds(r.ops, id) {
      HoldsWithout(s.ops, i, id);
      if id == gone {
        NotHeldTwice(s, i);
      }
    }
  }

  lemma NotHeldTwice(s: Sched, i: nat)
    requires Ids(s) && i < |s.ops| && s.ops[i].packetId > 0
    ensures !Holds(Without(s.ops, i), s.ops[i].packetId)
  {
  }

  lemma RemoveFifo(s: Sched, i: nat, st: Status)
    requires Fifo(s) && Numbered(s) && i < |s.ops|
    requires s.ordering.Full? && st.Delivered() ==> i == 0
    ensures Fifo(RemoveAt(s, i, st))
  {
    PushExit(s.exits, Exit(s.ops[i].uid, st));
    var r := RemoveAt(s, i, st);
    if st.Delivered() {
      assert Delivered(r.exits) == Delivered(s.exits) + [s.ops[i].uid];
    } else {
      assert Delivered(r.exits) == Delivered(s.exits);
    }
  }

  lemma RemoveInOrderBy(s: Sched, i: nat, st: Status, kind: Status)
    requires Numbered(s) && i < |s.ops| && kind.Delivered() && InOrderBy(s, kind)
    requires InTurn(s, i, st)
    ensures InOrderBy(RemoveAt(s, i, st), kind)
  {
    PushExitBy(s.exits, Exit(s.ops[i].uid, st), kind);
    var r := RemoveAt(s, i, st);
    if kind == st {
      assert ExitsBy(r.exits, kind) == ExitsBy(s.exits, kind) + [s.ops[i].uid];
      assert forall j :: 0 <= j < i ==> s.ops[j].qos != QosOf(kind);
    } else {
      assert ExitsBy(r.exits, kind) == ExitsBy(s.exits, kind);
    }
  }

  lemma RemovePerQos(s: Sched, i: nat, st: Status)
    requires PerQos(s) && Numbered(s) && i < |s.ops| && InTurn(s, i, st)
    ensures PerQos(RemoveAt(s, i, st))
  {
    RemoveInOrderBy(s, i, st, Sent);
    RemoveInOrderBy(s, i, st, Acked);
    RemoveInOrderBy(s, i, st, Completed);
  }

  lemma RemoveLedger(s: Sched, i: nat, st: Status)
    requires Ledger(s) && Numbered(s) && i < |s.ops|
    ensures Ledger(RemoveAt(s, i, st))
  {
    var uid := s.ops[i].uid;
    PushExit(s.exits, Exit(uid, st));
    forall u: nat ensures Pending(Without(s.ops, i), u) <==> Pending(s.ops, u) && u != uid {
      PendingWithout(s.ops, i, u);
    }
    assert Pending(s.ops, uid);
  }

  lemma RemoveOrder(s: Sched, i: nat, st: Status)
    requires Order(s) && Queue(s) && i < |s.ops|
    ensures Order(RemoveAt(s, i, st))
  {
    assert s.ops[i].published == (i < s.inFlight);
  }

  lemma RemoveTraffic(s: Sched, i: nat, st: Status)
    requires Traffic(s) && i < |s.ops|
    ensures Traffic(RemoveAt(s, i, st))
  {
  }

  lemma RemoveKeeps(s: Sched, i: nat, st: Status)
    requires Core(s) && i < |s.ops| && InTurn(s, i, st)
    ensures Core(RemoveAt(s, i, st))
  {
    RemovePerQos(s, i, st);
    RemoveQueue(s, i, st);
    RemoveIds(s, i, st);
    RemoveOrder(s, i, st);
    RemoveFifo(s, i, st);
    RemoveLedger(s, i, st);
    RemoveTraffic(s, i, st);
  }

  // ----- a packet for publish `i` goes out and its record changes to `o`

  function Emit(s: Sched, i: nat, o: SendOp, p: Packet, n: nat): Sched
    requires i < |s.ops|
  {
    s.(ops := s.ops[i := o], wire := s.wire + [p], inFlight := n)
  }

  lemma EmitTraffic(s: Sched, i: nat, o: SendOp, p: Packet, n: nat)
    requires Traffic(s) && Numbered(s) && i < |s.ops|
    requires o.uid == s.ops[i].uid && About(p, o.uid)
    requires var h := History(s.wire, o.uid);
             && WellFormed(h + [p])
             && Accounted(h + [p], o)
    ensures Traffic(Emit(s, i, o, p, n))
  {
    PushWire(s.wire, p);
    var r := Emit(s, i, o, p, n);
    forall u: nat ensures WellFormed(History(r.wire, u)) {
      assert WellFormed(History(s.wire, u));
    }
    forall j | 0 <= j < |r.ops| ensures Accounted(History(r.wire, r.ops[j].uid), r.ops[j]) {
      if j != i {
        assert Accounted(History(s.wire, s.ops[j].uid), s.ops[j]);
        assert s.ops[j].uid != o.uid;
      }
    }
  }

  lemma EmitLedger(s: Sched, i: nat, o: SendOp, p: Packet, n: nat)
    requires Ledger(s) && i < |s.ops|
    requires o.uid == s.ops[i].uid
    ensures Ledger(Emit(s, i, o, p, n))
  {
    var r := Emit(s, i, o, p, n);
    forall u: nat ensures Pending(r.ops, u) <==> Pending(s.ops, u) {
      if Pending(s.ops, u) {
        var j :| 0 <= j < |s.ops| && s.ops[j].uid == u;
        assert r.ops[j].uid == u;
      }
    }
  }

  lemma EmitIds(s: Sched, i: nat, o: SendOp, p: Packet, n: nat)
    requires Ids(s) && i < |s.ops|
    requires o.packetId == s.ops[i].packetId && o.qos == s.ops[i].qos
    ensures Ids(Emit(s, i, o, p, n))
  {
    var r := Emit(s, i, o, p, n);
    forall id: nat ensures Holds(r.ops, id) <==> Holds(s.ops, id) {
      if Holds(s.ops, id) {
        var j :| 0 <= j < |s.ops| && s.ops[j].packetId == id;
        assert r.ops[j].packetId == id;
      }
    }
  }

  lemma EmitFifo(s: Sched, i: nat, o: SendOp, p: Packet, n: nat)
    requires Fifo(s) && PerQos(s) && i < |s.ops|
    requires o.uid == s.ops[i].uid && o.qos == s.ops[i].qos
    ensures Fifo(Emit(s, i, o, p, n)) && PerQos(Emit(s, i, o, p, n))
  {
  }

  /** Any packet but a first PUBLISH leaves the order of first transmissions alone. */
  lemma EmitOrder(s: Sched, i: nat, o: SendOp, p: Packet)
    requires Order(s) && i < |s.ops|
    requires o.uid == s.ops[i].uid
    requires p.Publish? ==> p.dup
    ensures Order(Emit(s, i, o, p, s.inFlight))
  {
    PushWire(s.wire, p);
  }

  // ----- first transmission of the first paused publish

  /** With full ordering, only publishes of no higher QoS are ahead of one that may send. */
  lemma NothingHigherAhead(s: Sched)
    requires Queue(s) && CanResume(s) && s.ordering.Full?
    ensures forall j :: 0 <= j < s.inFlight ==> s.ops[j].qos <= s.ops[s.inFlight].qos
    ensures s.ops[s.inFlight].qos == 0 ==> s.inFlight == 0
  { }

  lemma SendAtQueue(s: Sched)
    requires Queue(s) && CanResume(s) && s.ops[s.inFlight].qos > 0
    ensures Queue(SendAt(s, s.inFlight))
  {
    assert WaitingOp(s.ordering, s.ops[s.inFlight]);
    if s.ordering.Full? {
      NothingHigherAhead(s);
    }
  }

  lemma SendAtTraffic(s: Sched)
    requires Queue(s) && Traffic(s) && s.inFlight < |s.ops|
    ensures Traffic(SendAt(s, s.inFlight))
  {
    var i := s.inFlight;
    var o := s.ops[i].(paused := false, published := true, attempts := 1);
    var p := Publish(o.uid, o.packetId, o.qos, o.dup, First);
    assert WaitingOp(s.ordering, s.ops[i]);
    assert Accounted(History(s.wire, o.uid), s.ops[i]);
    PushTransmission([], p);
    assert [] + [p] == [p];
    EmitTraffic(s, i, o, p, i + 1);
  }

  lemma SendAtOrder(s: Sched)
    requires Queue(s) && Order(s) && s.inFlight < |s.ops| && s.ops[s.inFlight].qos > 0
    ensures Order(SendAt(s, s.inFlight))
  {
    var o := s.ops[s.inFlight];
    assert WaitingOp(s.ordering, o);
    PushWire(s.wire, Publish(o.uid, o.packetId, o.qos, o.dup, First));
  }

  lemma SendAtBooks(s: Sched)
    requires Ids(s) && Ledger(s) && Fifo(s) && PerQos(s) && s.inFlight < |s.ops|
    ensures var r := SendAt(s, s.inFlight); Ids(r) && Ledger(r) && Fifo(r) && PerQos(r)
  {
    var i := s.inFlight;
    var o := s.ops[i].(paused := false, published := true, attempts := 1);
    var p := Publish(o.uid, o.packetId, o.qos, o.dup, First);
    EmitIds(s, i, o, p, i + 1);
    EmitLedger(s, i, o, p, i + 1);
    EmitFifo(s, i, o, p, i + 1);
  }

  lemma SendAtKeeps(s: Sched)
    requires Core(s) && CanResume(s) && s.ops[s.inFlight].qos > 0
    ensures Core(SendAt(s, s.inFlight))
  {
    SendAtQueue(s);
    SendAtBooks(s);
    SendAtTraffic(s);
    SendAtOrder(s);
  }

  // ----- QoS 0: the publish is on the wire and already gone

  function Passed(s: Sched, uid: nat): Sched {
    s.(wire := s.wire + [Publish(uid, 0, 0, false, First)])
  }

  lemma PassTraffic(s: Sched, uid: nat)
    requires Traffic(s)
    requires uid < s.nextUid && !Pending(s.ops, uid) && History(s.wire, uid) == []
    ensures Traffic(Passed(s, uid))
  {
    var p := Publish(uid, 0, 0, false, First);
    var r := Passed(s, uid);
    PushWire(s.wire, p);
    forall u: nat ensures WellFormed(History(r.wire, u)) {
      assert WellFormed(History(s.wire, u));
    }
    forall i | 0 <= i < |r.ops| ensures Accounted(History(r.wire, r.ops[i].uid), r.ops[i]) {
      assert Pending(s.ops, s.ops[i].uid);
      assert Accounted(History(s.wire, s.ops[i].uid), s.ops[i]);
    }
  }

  lemma PassOrder(s: Sched, uid: nat)
    requires Order(s) && uid < s.nextUid
    requires s.ordering.Full? ==> forall k :: 0 <= k < |FirstSends(s.wire, Full)| ==> FirstSends(s.wire, Full)[k] < uid
    requires s.ordering.Full? ==> forall i :: s.inFlight <= i < |s.ops| ==> uid < s.ops[i].uid
    ensures Order(Passed(s, uid))
  {
    PushWire(s.wire, Publish(uid, 0, 0, false, First));
  }

  lemma Qos0ResumeIs(s: Sched)
    requires Queue(s) && Ids(s) && CanResume(s) && s.ops[s.inFlight].qos == 0
    ensures s.ordering.Full? && s.inFlight == 0
    ensures ResumeOne(s) == Passed(RemoveAt(s, 0, Sent), s.ops[0].uid)
  { }

  lemma PassHead(s: Sched)
    requires Queue(s) && Order(s) && Traffic(s) && s.ordering.Full? && s.inFlight == 0 < |s.ops|
    ensures Order(Passed(RemoveAt(s, 0, Sent), s.ops[0].uid))
    ensures Traffic(Passed(RemoveAt(s, 0, Sent), s.ops[0].uid))
  {
    var g := RemoveAt(s, 0, Sent);
    assert WaitingOp(s.ordering, s.ops[0]);
    assert Accounted(History(s.wire, s.ops[0].uid), s.ops[0]);
    PendingWithout(s.ops, 0, s.ops[0].uid);
    RemoveOrder(s, 0, Sent);
    PassTraffic(g, s.ops[0].uid);
    PassOrder(g, s.ops[0].uid);
  }

  /** A packet of a departed publish does not concern the queue or the exits. */
  lemma PassFrame(s: Sched, uid: nat)
    requires Queue(s) && Ids(s) && Fifo(s) && PerQos(s) && Ledger(s)
    ensures var r := Passed(s, uid); Queue(r) && Ids(r) && Fifo(r) && PerQos(r) && Ledger(r)
  {
  }

  lemma Qos0Resume(s: Sched)
    requires Core(s) && CanResume(s) && s.ops[s.inFlight].qos == 0
    ensures Core(ResumeOne(s))
  {
    Qos0ResumeIs(s);
    RemoveKeeps(s, 0, Sent);
    PassFrame(RemoveAt(s, 0, Sent), s.ops[0].uid);
    PassHead(s);
  }

  lemma ResumeOneQueue(s: Sched)
    requires Queue(s) && CanResume(s)
    ensures Queue(ResumeOne(s))
  {
    var p := s.inFlight;
    if s.ops[p].qos == 0 {
      assert WaitingOp(s.ordering, s.ops[p]);
      var g := RemoveAt(s, p, Sent);
      RemoveQueue(s, p, Sent);
      assert Without(SendAt(s, p).ops, p) == Without(s.ops, p);
      assert ResumeOne(s) == g.(wire := ResumeOne(s).wire);
    } else {
      SendAtQueue(s);
    }
  }

  lemma ResumeOneKeeps(s: Sched)
    requires Core(s) && CanResume(s)
    ensures Core(ResumeOne(s))
  {
    if s.ops[s.inFlight].qos == 0 {
      Qos0Resume(s);
    } else {
      SendAtKeeps(s);
    }
  }

  // ----- later transmissions

  function Again(o: SendOp, cause: Cause): SendOp {
    o.(attempts := if cause.Reconnect? then o.attempts else o.attempts + 1, dup := o.dup || !o.acked)
  }

  lemma RetransmitQueue(s: Sched, i: nat, cause: Cause)
    requires Queue(s) && i < s.inFlight
    requires cause.Reconnect? || (cause.Retry? && s.ops[i].attempts < s.ops[i].total)
    ensures Queue(Retransmit(s, i, cause))
  {
    assert InFlightOp(s.ops[i]);
  }

  lemma RetransmitTraffic(s: Sched, i: nat, cause: Cause)
    requires Queue(s) && Traffic(s) && i < s.inFlight
    requires cause.Retry? || cause.Reconnect?
    ensures Traffic(Retransmit(s, i, cause))
  {
    var o := s.ops[i];
    assert InFlightOp(o);
    var h := History(s.wire, o.uid);
    assert Accounted(h, o) && WellFormed(h);
    ResentAccounted(h, o, cause);
    EmitTraffic(s, i, Again(o, cause), Resent(o, cause), s.inFlight);
  }

  lemma ResentAccounted(h: seq<Packet>, o: SendOp, cause: Cause)
    requires !o.paused && Accounted(h, o) && WellFormed(h) && forall k :: 0 <= k < |h| ==> About(h[k], o.uid)
    requires cause.Retry? || cause.Reconnect?
    ensures WellFormed(h + [Resent(o, cause)]) && Accounted(h + [Resent(o, cause)], Again(o, cause))
  {
    assert About(h[|h| - 1], o.uid);
    PushWellFormed(h, Resent(o, cause));
    ResentCounted(h, o, cause);
  }

  lemma ResentCounted(h: seq<Packet>, o: SendOp, cause: Cause)
    requires !o.paused && Accounted(h, o) && (cause.Retry? || cause.Reconnect?)
    ensures Accounted(h + [Resent(o, cause)], Again(o, cause))
  {
    PushTransmission(h, Resent(o, cause));
  }

  lemma RetransmitBooks(s: Sched, i: nat, cause: Cause)
    requires Ids(s) && Ledger(s) && i < |s.ops|
    ensures var r := Retransmit(s, i, cause); Ids(r) && Ledger(r)
  {
    var o, p := Again(s.ops[i], cause), Resent(s.ops[i], cause);
    EmitIds(s, i, o, p, s.inFlight);
    EmitLedger(s, i, o, p, s.inFlight);
  }

  lemma RetransmitOrder(s: Sched, i: nat, cause: Cause)
    requires Order(s) && Fifo(s) && PerQos(s) && i < |s.ops|
    ensures var r := Retransmit(s, i, cause); Order(r) && Fifo(r) && PerQos(r)
  {
    var o, p := Again(s.ops[i], cause), Resent(s.ops[i], cause);
    assert Retransmit(s, i, cause) == Emit(s, i, o, p, s.inFlight);
    EmitFifo(s, i, o, p, s.inFlight);
    EmitOrder(s, i, o, p);
  }

  lemma RetransmitKeeps(s: Sched, i: nat, cause: Cause)
    requires Core(s) && i < s.inFlight
    requires cause.Reconnect? || (cause.Retry? && s.ops[i].attempts < s.ops[i].total)
    ensures Core(Retransmit(s, i, cause))
  {
    RetransmitQueue(s, i, cause);
    RetransmitBooks(s, i, cause);
    RetransmitOrder(s, i, cause);
    RetransmitTraffic(s, i, cause);
  }

  // ----- PUBREC

  lemma AckQueue(s: Sched, i: nat)
    requires Queue(s) && i < s.inFlight
    requires s.ops[i].qos == 2 && forall j :: 0 <= j < i ==> s.ops[j].acked
    ensures Queue(AckAt(s, i))
  {
    assert InFlightOp(s.ops[i]);
  }

  lemma AckTraffic(s: Sched, i: nat)
    requires Queue(s) && Traffic(s) && i < s.inFlight && !s.ops[i].acked
    ensures Traffic(AckAt(s, i))
  {
    var o := s.ops[i];
    var p := Pubrel(o.uid, o.packetId, First);
    assert InFlightOp(o);
    var h := History(s.wire, o.uid);
    assert Accounted(h, o) && WellFormed(h);
    PushWellFormed(h, p);
    PushTransmission(h, p);
    RedeliveriesAreTransmissions(h);
    EmitTraffic(s, i, o.(acked := true, attempts := 1), p, s.inFlight);
  }

  lemma {:induction false} RedeliveriesAreTransmissions(h: seq<Packet>)
    ensures Redeliveries(h, true) <= Transmissions(h, true)
  {
    if h != [] {
      RedeliveriesAreTransmissions(h[..|h| - 1]);
    }
  }

  lemma AckKeeps(s: Sched, i: nat)
    requires Core(s) && i < s.inFlight
    requires s.ops[i].qos == 2 && !s.ops[i].acked && forall j :: 0 <= j < i ==> s.ops[j].acked
    ensures Core(AckAt(s, i))
  {
    var o := s.ops[i].(acked := true, attempts := 1);
    var p := Pubrel(o.uid, o.packetId, First);
    AckQueue(s, i);
    EmitIds(s, i, o, p, s.inFlight);
    EmitLedger(s, i, o, p, s.inFlight);
    EmitFifo(s, i, o, p, s.inFlight);
    EmitOrder(s, i, o, p);
    AckTraffic(s, i);
  }

  // ----- a new publish joins the queue, paused

  function Joined(s: Sched, qos: Qos, total: nat): Sched {
    PauseLast(Submitted(s, qos, total))
  }

  lemma JoinQueue(s: Sched, qos: Qos, total: nat)
    requires Queue(s) && total > 0
    requires s.ordering.SameQos? ==> qos > 0
    ensures Queue(Joined(s, qos, total))
  {
    var r := Joined(s, qos, total);
    assert forall j :: 0 <= j < |s.ops| ==> r.ops[j] == s.ops[j];
    assert Numbered(r);
    assert WaitingOp(s.ordering, r.ops[|s.ops|]);
  }

  lemma HoldsWith(ops: seq<SendOp>, o: SendOp, x: nat)
    ensures Holds(ops + [o], x) <==> Holds(ops, x) || x == o.packetId
  {
    var r := ops + [o];
    if Holds(ops, x) {
      var j :| 0 <= j < |ops| && ops[j].packetId == x;
      assert r[j].packetId == x;
    }
    assert r[|ops|].packetId == o.packetId;
  }

  /** The new publish gets an identifier nobody holds, or 0. */
  lemma JoinPool(s: Sched, qos: Qos, total: nat)
    requires Ids(s)
    ensures var r := Joined(s, qos, total); var id := r.ops[|s.ops|].packetId;
            && ValidPool(r.pool) && (qos == 0 ==> id == 0)
            && (id > 0 ==> id !in s.pool.ids)
            && (forall x: nat :: x > 0 ==> (x in r.pool.ids <==> x in s.pool.ids || x == id))
  {
    if qos > 0 && !Exhausted(s.pool) {
      AllocTakesFirstFree(s.pool);
    }
  }

  lemma JoinIds(s: Sched, qos: Qos, total: nat)
    requires Ids(s)
    ensures Ids(Joined(s, qos, total))
  {
    var r := Joined(s, qos, total);
    var n := |s.ops|;
    var o := r.ops[n];
    assert r.ops == s.ops + [o];
    JoinPool(s, qos, total);
    forall x: nat | x > 0 ensures x in r.pool.ids <==> Holds(r.ops, x) {
      HoldsWith(s.ops, o, x);
    }
    forall i | 0 <= i < n && s.ops[i].packetId == o.packetId ensures o.packetId == 0 {
      assert Holds(s.ops, o.packetId);
    }
  }

  lemma JoinLedger(s: Sched, qos: Qos, total: nat)
    requires Ledger(s) && Numbered(s)
    ensures Ledger(Joined(s, qos, total))
  {
    var r := Joined(s, qos, total);
    var n := |s.ops|;
    assert forall j :: 0 <= j < n ==> r.ops[j] == s.ops[j];
    forall u: nat ensures Pending(r.ops, u) <==> Pending(s.ops, u) || u == s.nextUid {
      if Pending(s.ops, u) {
        var j :| 0 <= j < n && s.ops[j].uid == u;
        assert r.ops[j].uid == u;
      }
      assert r.ops[n].uid == s.nextUid;
    }
  }

  lemma JoinOrder(s: Sched, qos: Qos, total: nat)
    requires Order(s) && Fifo(s) && PerQos(s)
    ensures Order(Joined(s, qos, total)) && Fifo(Joined(s, qos, total)) && PerQos(Joined(s, qos, total))
  {
  }

  lemma JoinTraffic(s: Sched, qos: Qos, total: nat)
    requires Traffic(s)
    ensures Traffic(Joined(s, qos, total))
  {
  }

  lemma JoinKeeps(s: Sched, qos: Qos, total: nat)
    requires Core(s) && total > 0
    requires s.ordering.SameQos? ==> qos > 0
    ensures Core(Joined(s, qos, total))
  {
    JoinQueue(s, qos, total);
    JoinIds(s, qos, total);
    JoinLedger(s, qos, total);
    JoinOrder(s, qos, total);
    JoinTraffic(s, qos, total);
  }
}
