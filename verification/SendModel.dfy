/** The outgoing publish scheduler as a value: the queue of pending publishes,
    the flow-control counters, and the history the outside world sees. One
    function per thing that can happen to the client. */
module SendModel {
  import opened Protocol
  import opened PacketIds

  datatype Ordering = SameQos | Full

  /** Why a publish left the queue. `Sent`, `Acked` and `Completed` are the three
      ways of being delivered (QoS 0 transmission, PUBACK, PUBCOMP). */
  datatype Status =
    | Sent | Acked | Completed | Refused | TimedOut | ProtocolError
    | BrokerDisconnected | Aborted | Cancelled
  {
    predicate Delivered() {
      Sent? || Acked? || Completed?
    }
  }

  /** One pending publish. `uid` is its submission number. */
  datatype SendOp = SendOp(
    uid: nat, qos: Qos, packetId: nat, total: nat,
    attempts: nat, paused: bool, published: bool, acked: bool, dup: bool)

  /** Which code path put a packet on the wire (not itself transmitted). */
  datatype Cause = First | Retry | Reconnect

  datatype Packet =
    | Publish(uid: nat, packetId: nat, qos: Qos, dup: bool, cause: Cause)
    | Pubrel(uid: nat, packetId: nat, cause: Cause)
    | PubrelUnknown(packetId: nat)
    | Disconnect

  datatype Exit = Exit(uid: nat, status: Status)

  /** `wire`: packets sent. `exits`: publishes in the order they left the queue.
      `reports`: completion callbacks in the order they were invoked. */
  datatype Sched = Sched(
    ordering: Ordering, ops: seq<SendOp>, inFlight: nat, limit: nat,
    connected: bool, disconnecting: bool, initialized: bool, keepSession: bool,
    nextUid: nat, pool: Pool,
    wire: seq<Packet>, exits: seq<Exit>, reports: seq<Exit>)

  function Initial(ordering: Ordering, capacity: nat): Sched {
    Sched(ordering, [], 0, 0, false, false, false, false, 0, Pool([], 0, capacity), [], [], [])
  }

  // ----- who may send

  predicate HasPausedBefore(ops: seq<SendOp>, i: nat)
    requires i < |ops|
  {
    i > 0 && ops[i - 1].paused
  }

  predicate HasHigherQosBefore(ops: seq<SendOp>, i: nat)
    requires i < |ops|
  {
    exists j :: 0 <= j < i && ops[j].qos > ops[i].qos
  }

  predicate CanSend(s: Sched, i: nat)
    requires i < |s.ops|
  {
    if s.limit <= s.inFlight then s.ops[i].qos == 0 && s.ordering.SameQos?
    else s.ordering.SameQos? || !(HasPausedBefore(s.ops, i) || HasHigherQosBefore(s.ops, i))
  }

  // ----- what happens to one pending publish

  /** First transmission of publish `i`. */
  function SendAt(s: Sched, i: nat): Sched
    requires i < |s.ops|
  {
    var o := s.ops[i];
    s.(ops := s.ops[i := o.(paused := false, published := true, attempts := 1)],
       inFlight := s.inFlight + 1,
       wire := s.wire + [Publish(o.uid, o.packetId, o.qos, o.dup, First)])
  }

  function Without(ops: seq<SendOp>, i: nat): (r: seq<SendOp>)
    requires i < |ops|
    ensures |r| == |ops| - 1
    ensures forall j :: 0 <= j < i ==> r[j] == ops[j]
    ensures forall j :: i <= j < |r| ==> r[j] == ops[j + 1]
  {
    ops[..i] + ops[i + 1..]
  }

  /** Publish `i` leaves the queue; its packet identifier is given back. */
  function RemoveAt(s: Sched, i: nat, st: Status): Sched
    requires i < |s.ops|
  {
    var o := s.ops[i];
    s.(ops := Without(s.ops, i),
       inFlight := if o.published && s.inFlight > 0 then s.inFlight - 1 else s.inFlight,
       pool := Release(s.pool, o.packetId),
       exits := s.exits + [Exit(o.uid, st)])
  }

  /** Another transmission of an already published publish. */
  function Retransmit(s: Sched, i: nat, cause: Cause): Sched
    requires i < |s.ops|
  {
    var o := s.ops[i];
    s.(ops := s.ops[i := o.(attempts := if cause.Reconnect? then o.attempts else o.attempts + 1,
                            dup := o.dup || !o.acked)],
       wire := s.wire + [Resent(o, cause)])
  }

  function Resent(o: SendOp, cause: Cause): Packet {
    if o.acked then Pubrel(o.uid, o.packetId, cause) else Publish(o.uid, o.packetId, o.qos, true, cause)
  }

  /** A PUBREC moves publish `i` to its release phase. */
  function AckAt(s: Sched, i: nat): Sched
    requires i < |s.ops|
  {
    var o := s.ops[i];
    s.(ops := s.ops[i := o.(acked := true, attempts := 1)],
       wire := s.wire + [Pubrel(o.uid, o.packetId, First)])
  }

  // ----- resuming paused publishes

  /** The publish at position `inFlight` is the first paused one. */
  predicate CanResume(s: Sched) {
    s.inFlight < |s.ops| && CanSend(s, s.inFlight)
  }

  function ResumeOne(s: Sched): Sched
    requires s.inFlight < |s.ops|
  {
    var sent := SendAt(s, s.inFlight);
    if s.ops[s.inFlight].qos == 0 then RemoveAt(sent, s.inFlight, Sent) else sent
  }

  /** Resume first-paused publishes one after the other until the first may not send. */
  function Settle(s: Sched): (r: Sched)
    ensures |r.ops| <= |s.ops|
    ensures s.exits <= r.exits && r.reports == s.reports && r.ordering == s.ordering
    decreases |s.ops| - s.inFlight
  {
    if CanResume(s) then Settle(ResumeOne(s)) else s
  }

  function Reverse(xs: seq<Exit>): (r: seq<Exit>)
    ensures |r| == |xs|
    ensures forall i :: 0 <= i < |r| ==> r[i] == xs[|xs| - 1 - i]
  {
    seq(|xs|, i requires 0 <= i < |xs| => xs[|xs| - 1 - i])
  }

  /** Settling, with the callbacks it makes: the last to leave is reported first. */
  function Drain(s: Sched): (r: Sched)
    ensures r.ordering == s.ordering
    ensures |r.ops| <= |s.ops|
    ensures s.exits <= r.exits
  {
    var r := Settle(s);
    r.(reports := s.reports + Reverse(r.exits[|s.exits|..]))
  }

  /** Publish `i` leaves and those behind it are resumed. */
  function Leave(s: Sched, i: nat, st: Status): (r: Sched)
    requires i < |s.ops|
    ensures r.ordering == s.ordering
    ensures |r.ops| < |s.ops|
  {
    var gone := RemoveAt(s, i, st);
    if s.disconnecting then gone else Drain(gone)
  }

  /** As `Leave`, followed by the publish's own completion callback. */
  function Complete(s: Sched, i: nat, st: Status): (r: Sched)
    requires i < |s.ops|
    ensures r.ordering == s.ordering
    ensures |r.ops| < |s.ops|
  {
    var left := Leave(s, i, st);
    left.(reports := left.reports + [Exit(s.ops[i].uid, st)])
  }

  function ResendDup(s: Sched, i: nat): (r: Sched)
    requires i < |s.ops|
    ensures r.ordering == s.ordering
    ensures |r.ops| <= |s.ops|
  {
    if s.ops[i].total <= s.ops[i].attempts then Complete(s, i, TimedOut) else Retransmit(s, i, Retry)
  }

  function ForceResend(s: Sched, i: nat): (r: Sched)
    requires i < |s.ops|
    ensures r.ordering == s.ordering
    ensures |r.ops| < |s.ops| || (|r.ops| == |s.ops| && r.ops[i].uid == s.ops[i].uid)
  {
    if s.ops[i].paused then s else ResendDup(s, i)
  }

  // ----- whole-queue actions

  /** Every publish up to the one with number `uid` is forced out again; the
      index stays put when the publish under it left the queue. */
  function ResendUntil(s: Sched, i: nat, uid: nat): (r: Sched)
    ensures r.ordering == s.ordering
    decreases |s.ops| - i
  {
    if |s.ops| <= i then s else
      var r := ForceResend(s, i);
      if s.ops[i].uid == uid then r else ResendUntil(r, Onward(r, i, s.ops[i].uid), uid)
  }

  function Onward(r: Sched, i: nat, uid: nat): nat {
    if i < |r.ops| && r.ops[i].uid == uid then i + 1 else i
  }

  function AbortAll(s: Sched, st: Status): (r: Sched)
    ensures r.ordering == s.ordering
    decreases |s.ops|
  {
    if s.ops == [] then s else AbortAll(Complete(s, 0, st), st)
  }

  /** The first `k` publishes after a reconnection resend: PUBLISH copies carry DUP. */
  function Redelivered(ops: seq<SendOp>, k: nat): (r: seq<SendOp>)
    requires k <= |ops|
    ensures |r| == |ops|
  {
    seq(|ops|, i requires 0 <= i < |ops| =>
      if i < k && !ops[i].paused then ops[i].(dup := ops[i].dup || !ops[i].acked) else ops[i])
  }

  function RedeliveryPackets(ops: seq<SendOp>): seq<Packet> {
    if ops == [] then [] else
      var o := ops[|ops| - 1];
      RedeliveryPackets(ops[..|ops| - 1]) + if o.paused then [] else [Resent(o, Reconnect)]
  }

  // ----- the steps

  function Find(ops: seq<SendOp>, packetId: nat): (i: nat)
    ensures i <= |ops|
    ensures i < |ops| ==> ops[i].packetId == packetId
    ensures forall j :: 0 <= j < i ==> ops[j].packetId != packetId
  {
    if ops == [] || ops[0].packetId == packetId then 0 else 1 + Find(ops[1..], packetId)
  }

  function FindUid(ops: seq<SendOp>, uid: nat): (i: nat)
    ensures i <= |ops|
    ensures i < |ops| ==> ops[i].uid == uid
    ensures forall j :: 0 <= j < i ==> ops[j].uid != uid
  {
    if ops == [] || ops[0].uid == uid then 0 else 1 + FindUid(ops[1..], uid)
  }

  /** Acknowledgements are taken in queue order only. */
  predicate LegitAck(s: Sched, i: nat, pubcomp: bool)
    requires i < |s.ops|
  {
    && s.ops[i].published
    && (forall j :: 0 <= j < i ==> s.ops[j].acked)
    && (pubcomp ==> i == 0)
  }

  /** The connection ends; without a session to keep, every publish ends with it. */
  function Drop(s: Sched, st: Status): Sched {
    var down := s.(connected := false, disconnecting := true, initialized := false);
    if s.keepSession then down else AbortAll(down, st)
  }

  /** An acknowledgement that breaks the protocol ends the publish, then the connection. */
  function Violation(s: Sched, i: nat): Sched
    requires i < |s.ops|
  {
    var r := Complete(s, i, ProtocolError);
    Drop(r.(wire := r.wire + [Disconnect]), BrokerDisconnected)
  }

  function Submitted(s: Sched, qos: Qos, total: nat): Sched {
    var (pool, id) := if qos > 0 then Alloc(s.pool) else (s.pool, 0);
    s.(ops := s.ops + [SendOp(s.nextUid, qos, id, total, 0, false, false, false, false)],
       nextUid := s.nextUid + 1, pool := pool)
  }

  function PauseLast(s: Sched): Sched
    requires s.ops != []
  {
    var i := |s.ops| - 1;
    s.(ops := s.ops[i := s.ops[i].(paused := true)])
  }

  function OnPublish(s: Sched, qos: Qos, total: nat): Sched {
    if !s.connected || s.disconnecting then s else
      var t := Submitted(s, qos, total);
      var i := |s.ops|;
      if !CanSend(t, i) then PauseLast(t)
      else if qos > 0 then SendAt(t, i)
      else Complete(SendAt(t, i), i, Sent)
  }

  function OnCancel(s: Sched, uid: nat): Sched {
    var i := FindUid(s.ops, uid);
    if i == |s.ops| then s else Leave(s, i, Cancelled)
  }

  function OnPuback(s: Sched, id: nat, wellFormed: bool): Sched {
    var i := Find(s.ops, id);
    if i == |s.ops| then s
    else if !LegitAck(s, i, false) then ResendUntil(s, 0, s.ops[i].uid)
    else if s.ops[i].qos != 1 || !wellFormed then Violation(s, i)
    else Complete(s, i, Acked)
  }

  function OnPubrec(s: Sched, id: nat, refused: bool, wellFormed: bool): Sched {
    var i := Find(s.ops, id);
    if i == |s.ops| then s.(wire := s.wire + [PubrelUnknown(id)])
    else if !LegitAck(s, i, false) then ResendUntil(s, 0, s.ops[i].uid)
    else if s.ops[i].qos != 2 || s.ops[i].acked || !wellFormed then Violation(s, i)
    else if refused then Complete(s, i, Refused)
    else AckAt(s, i)
  }

  function OnPubcomp(s: Sched, id: nat, wellFormed: bool): Sched {
    var i := Find(s.ops, id);
    if i == |s.ops| then s
    else if !LegitAck(s, i, true) then ResendUntil(s, 0, s.ops[i].uid)
    else if s.ops[i].qos != 2 || !s.ops[i].acked || !wellFormed then Violation(s, i)
    else Complete(s, i, Completed)
  }

  function OnTimeout(s: Sched, uid: nat): Sched {
    var i := FindUid(s.ops, uid);
    if i == |s.ops| || !s.ops[i].published || !s.connected then s else ResendDup(s, i)
  }

  function OnPrepareConnect(s: Sched): Sched {
    if s.initialized then s
    else s.(limit := 0, connected := false, disconnecting := false, keepSession := false, initialized := true)
  }

  function OnConnack(s: Sched, present: bool, limit: nat, keep: bool): Sched {
    var up := s.(connected := true, limit := limit, keepSession := keep);
    if present then
      Drain(up.(ops := Redelivered(s.ops, |s.ops|), wire := s.wire + RedeliveryPackets(s.ops)))
    else AbortAll(up, Aborted)
  }

  function OnExpiry(s: Sched): Sched {
    AbortAll(s, BrokerDisconnected)
  }

  // ----- runs

  datatype Input =
    | InPublish(qos: Qos, total: nat)
    | InCancel(uid: nat)
    | InPuback(id: nat, wellFormed: bool)
    | InPubrec(id: nat, refused: bool, wellFormed: bool)
    | InPubcomp(id: nat, wellFormed: bool)
    | InTimeout(uid: nat)
    | InDrop(status: Status)
    | InPrepareConnect
    | InConnack(present: bool, limit: nat, keep: bool)
    | InExpiry

  /** No QoS 0 publish behind the head. */
  predicate NoQos0Behind(ops: seq<SendOp>) {
    forall i :: 0 < i < |ops| ==> ops[i].qos > 0
  }

  /** When an input can occur. A lost session (`present` false) is covered unless a
      QoS 0 publish waits behind the head: the library's loop over the operations
      then meets an entry that is gone. Session expiry runs only without a connection. */
  predicate Enabled(s: Sched, e: Input) {
    match e
    case InPublish(_, total) => total > 0
    case InDrop(st) => st.BrokerDisconnected? || st.ProtocolError?
    case InConnack(present, limit, _) =>
      s.initialized && !s.connected && !s.disconnecting && limit > 0 && (present || NoQos0Behind(s.ops))
    case InExpiry => !s.connected
    case _ => true
  }

  function Next(s: Sched, e: Input): (r: Sched)
    ensures r.ordering == s.ordering
  {
    match e
    case InPublish(qos, total) => OnPublish(s, qos, total)
    case InCancel(uid) => OnCancel(s, uid)
    case InPuback(id, wf) => OnPuback(s, id, wf)
    case InPubrec(id, refused, wf) => OnPubrec(s, id, refused, wf)
    case InPubcomp(id, wf) => OnPubcomp(s, id, wf)
    case InTimeout(uid) => OnTimeout(s, uid)
    case InDrop(st) => Drop(s, st)
    case InPrepareConnect => OnPrepareConnect(s)
    case InConnack(present, limit, keep) => OnConnack(s, present, limit, keep)
    case InExpiry => OnExpiry(s)
  }

  predicate Possible(s: Sched, es: seq<Input>)
    decreases |es|
  {
    es == [] || (Enabled(s, es[0]) && Possible(Next(s, es[0]), es[1..]))
  }

  function Run(s: Sched, es: seq<Input>): (r: Sched)
    ensures r.ordering == s.ordering
    decreases |es|
  {
    if es == [] then s else Run(Next(s, es[0]), es[1..])
  }
}
