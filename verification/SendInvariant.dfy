/** The invariant of the publish scheduler, one predicate per concern, and what
    each elementary action does to it. */
module SendInvariant {
  import opened Protocol
  import opened PacketIds
  import opened SendModel

  // ----- the queue: in-flight publishes first, paused ones behind

  ghost predicate InFlightOp(o: SendOp) {
    !o.paused && o.published && o.qos > 0 && 1 <= o.attempts <= o.total && (o.acked ==> o.qos == 2)
  }

  ghost predicate WaitingOp(ordering: Ordering, o: SendOp) {
    o.paused && !o.published && !o.acked && !o.dup && o.total > 0 && (ordering.SameQos? ==> o.qos > 0)
  }

  /** Submission numbers grow along the queue. */
  ghost predicate Numbered(s: Sched) {
    && (forall i, j :: 0 <= i < j < |s.ops| ==> s.ops[i].uid < s.ops[j].uid)
    && (forall i :: 0 <= i < |s.ops| ==> s.ops[i].uid < s.nextUid)
  }

  ghost predicate Queue(s: Sched) {
    && s.inFlight <= |s.ops|
    && (forall i :: 0 <= i < s.inFlight ==> InFlightOp(s.ops[i]))
    && (forall i :: s.inFlight <= i < |s.ops| ==> WaitingOp(s.ordering, s.ops[i]))
    && Numbered(s)
    && (forall i, j :: 0 <= i < j < |s.ops| && s.ops[j].acked ==> s.ops[i].acked)
    && (s.ordering.Full? ==> forall i, j :: 0 <= i < j < s.inFlight ==> s.ops[i].qos <= s.ops[j].qos)
  }

  // ----- packet identifiers

  ghost predicate Holds(ops: seq<SendOp>, id: nat) {
    exists i :: 0 <= i < |ops| && ops[i].packetId == id
  }

  ghost predicate Ids(s: Sched) {
    && ValidPool(s.pool)
    && (forall i :: 0 <= i < |s.ops| && s.ops[i].qos == 0 ==> s.ops[i].packetId == 0)
    && (forall i, j :: 0 <= i < j < |s.ops| && s.ops[i].packetId == s.ops[j].packetId ==> s.ops[i].packetId == 0)
    && (forall id: nat :: id > 0 ==> (id in s.pool.ids <==> Holds(s.ops, id)))
  }

  // ----- order of first transmissions

  ghost predicate Increasing(xs: seq<nat>) {
    forall i, j :: 0 <= i < j < |xs| ==> xs[i] < xs[j]
  }

  /** Submission numbers of the PUBLISH packets sent without DUP; with same-QoS
      ordering only those above QoS 0 are of interest. */
  function FirstSends(wire: seq<Packet>, ordering: Ordering): seq<nat> {
    if wire == [] then [] else
      var p := wire[|wire| - 1];
      FirstSends(wire[..|wire| - 1], ordering) +
      if p.Publish? && !p.dup && (ordering.Full? || p.qos > 0) then [p.uid] else []
  }

  ghost predicate Order(s: Sched) {
    var f := FirstSends(s.wire, s.ordering);
    && Increasing(f)
    && (forall k :: 0 <= k < |f| ==> f[k] < s.nextUid)
    && (forall k, i :: 0 <= k < |f| && s.inFlight <= i < |s.ops| ==> f[k] < s.ops[i].uid)
  }

  // ----- order of delivery

  function Delivered(exits: seq<Exit>): seq<nat> {
    if exits == [] then [] else
      var e := exits[|exits| - 1];
      Delivered(exits[..|exits| - 1]) + if e.status.Delivered() then [e.uid] else []
  }

  ghost predicate Fifo(s: Sched) {
    var d := Delivered(s.exits);
    s.ordering.Full? ==>
      && Increasing(d)
      && (forall k :: 0 <= k < |d| ==> d[k] < s.nextUid)
      && (forall k, i :: 0 <= k < |d| && 0 <= i < |s.ops| ==> d[k] < s.ops[i].uid)
  }

  /** The QoS whose delivery a status stands for. */
  function QosOf(st: Status): Qos
    requires st.Delivered()
  {
    match st
    case Sent => 0
    case Acked => 1
    case Completed => 2
  }

  function ExitsBy(exits: seq<Exit>, st: Status): seq<nat> {
    if exits == [] then [] else
      var e := exits[|exits| - 1];
      if e.status == st then ExitsBy(exits[..|exits| - 1], st) + [e.uid] else ExitsBy(exits[..|exits| - 1], st)
  }

  /** Deliveries of one QoS: in order, and ahead of everything of that QoS still pending. */
  ghost predicate InOrderBy(s: Sched, st: Status)
    requires st.Delivered()
  {
    var d := ExitsBy(s.exits, st);
    && Increasing(d)
    && (forall k :: 0 <= k < |d| ==> d[k] < s.nextUid)
    && (forall k, i :: 0 <= k < |d| && 0 <= i < |s.ops| && s.ops[i].qos == QosOf(st) ==> d[k] < s.ops[i].uid)
  }

  ghost predicate PerQos(s: Sched) {
    InOrderBy(s, Sent) && InOrderBy(s, Acked) && InOrderBy(s, Completed)
  }

  /** Whether publish `i` may be delivered now without overtaking. */
  ghost predicate InTurn(s: Sched, i: nat, st: Status)
    requires i < |s.ops|
  {
    st.Delivered() ==>
      && (s.ordering.Full? ==> i == 0)
      && s.ops[i].qos == QosOf(st)
      && (forall j :: 0 <= j < i ==> s.ops[j].qos != s.ops[i].qos)
  }

  // ----- every accepted publish is somewhere, once

  ghost predicate Pending(ops: seq<SendOp>, uid: nat) {
    exists i :: 0 <= i < |ops| && ops[i].uid == uid
  }

  function ExitCount(exits: seq<Exit>, uid: nat): nat {
    if exits == [] then 0 else
      ExitCount(exits[..|exits| - 1], uid) + if exits[|exits| - 1].uid == uid then 1 else 0
  }

  ghost predicate Ledger(s: Sched) {
    && (forall u: nat :: u < s.nextUid ==> ExitCount(s.exits, u) == if Pending(s.ops, u) then 0 else 1)
    && (forall u: nat :: s.nextUid <= u ==> ExitCount(s.exits, u) == 0)
  }

  // ----- what one publish put on the wire

  predicate About(p: Packet, uid: nat) {
    (p.Publish? || p.Pubrel?) && p.uid == uid
  }

  function History(wire: seq<Packet>, uid: nat): (h: seq<Packet>)
    ensures forall k :: 0 <= k < |h| ==> About(h[k], uid)
  {
    if wire == [] then [] else
      var p := wire[|wire| - 1];
      History(wire[..|wire| - 1], uid) + if About(p, uid) then [p] else []
  }

  /** One PUBLISH without DUP, then copies with DUP, then PUBRELs; one identifier. */
  ghost predicate WellFormed(h: seq<Packet>) {
    h == [] || (
      && h[0].Publish? && !h[0].dup
      && forall k :: 0 < k < |h| ==> Follows(h[0], h[k - 1], h[k])
    )
  }

  predicate Follows(first: Packet, prev: Packet, p: Packet)
    requires first.Publish?
  {
    match p
    case Publish(_, id, qos, dup, _) => prev.Publish? && dup && id == first.packetId && qos == first.qos
    case Pubrel(_, id, _) => id == first.packetId
    case _ => false
  }

  /** Transmissions in the release phase (`rel`) or before it. */
  function Transmissions(h: seq<Packet>, rel: bool): nat {
    if h == [] then 0 else
      Transmissions(h[..|h| - 1], rel) + if h[|h| - 1].Pubrel? == rel then 1 else 0
  }

  predicate IsRedelivery(p: Packet) {
    (p.Publish? || p.Pubrel?) && p.cause.Reconnect?
  }

  /** Those of them made by a reconnection. */
  function Redeliveries(h: seq<Packet>, rel: bool): nat {
    if h == [] then 0 else
      Redeliveries(h[..|h| - 1], rel) + if h[|h| - 1].Pubrel? == rel && IsRedelivery(h[|h| - 1]) then 1 else 0
  }

  ghost predicate Accounted(h: seq<Packet>, o: SendOp) {
    if o.paused then h == [] else
      && h != [] && h[0].Publish? && h[0].packetId == o.packetId && h[0].qos == o.qos
      && (o.acked <==> h[|h| - 1].Pubrel?)
      && (!o.acked ==> Transmissions(h, true) == 0)
      && Transmissions(h, o.acked) == o.attempts + Redeliveries(h, o.acked)
  }

  ghost predicate Traffic(s: Sched) {
    && (forall u: nat :: WellFormed(History(s.wire, u)))
    && (forall u: nat :: s.nextUid <= u ==> History(s.wire, u) == [])
    && (forall i :: 0 <= i < |s.ops| ==> Accounted(History(s.wire, s.ops[i].uid), s.ops[i]))
  }

  ghost predicate Core(s: Sched) {
    Queue(s) && Ids(s) && Order(s) && Fifo(s) && PerQos(s) && Ledger(s) && Traffic(s)
  }

  // ----- callbacks

  function Reportable(exits: seq<Exit>): seq<Exit> {
    if exits == [] then [] else
      var e := exits[|exits| - 1];
      Reportable(exits[..|exits| - 1]) + if e.status.Cancelled? then [] else [e]
  }

  /** Every publish that left was reported exactly once, unless cancelled. */
  ghost predicate Reported(s: Sched) {
    multiset(s.reports) == multiset(Reportable(s.exits))
  }

  ghost predicate Phase(s: Sched) {
    && !(s.connected && s.disconnecting)
    && (s.connected ==> s.initialized && s.limit > 0)
    && (!s.connected && !s.disconnecting ==> s.limit == 0)
  }

  /** The invariant between steps. Unless the connection is going down, the first
      paused publish may not send. */
  ghost predicate Inv(s: Sched) {
    Core(s) && Phase(s) && Reported(s) && (!s.disconnecting ==> !CanResume(s))
  }

  // ----- appending to a history

  lemma PushWire(wire: seq<Packet>, p: Packet)
    ensures forall u: nat :: History(wire + [p], u) == if About(p, u) then History(wire, u) + [p] else History(wire, u)
    ensures forall ord :: FirstSends(wire + [p], ord) ==
                          if p.Publish? && !p.dup && (ord.Full? || p.qos > 0) then FirstSends(wire, ord) + [p.uid]
                          else FirstSends(wire, ord)
  {
    assert (wire + [p])[..|wire|] == wire;
  }

  lemma PushExit(exits: seq<Exit>, e: Exit)
    ensures forall u: nat :: ExitCount(exits + [e], u) == ExitCount(exits, u) + if e.uid == u then 1 else 0
    ensures Delivered(exits + [e]) == if e.status.Delivered() then Delivered(exits) + [e.uid] else Delivered(exits)
    ensures Reportable(exits + [e]) == if e.status.Cancelled? then Reportable(exits) else Reportable(exits) + [e]
  {
    assert (exits + [e])[..|exits|] == exits;
  }

  lemma PushExitBy(exits: seq<Exit>, e: Exit, st: Status)
    ensures ExitsBy(exits + [e], st) == if e.status == st then ExitsBy(exits, st) + [e.uid] else ExitsBy(exits, st)
  {
    assert (exits + [e])[..|exits|] == exits;
  }

  lemma PushTransmission(h: seq<Packet>, p: Packet)
    ensures forall rel :: Transmissions(h + [p], rel) == Transmissions(h, rel) + if p.Pubrel? == rel then 1 else 0
    ensures forall rel :: Redeliveries(h + [p], rel) ==
                          Redeliveries(h, rel) + if p.Pubrel? == rel && IsRedelivery(p) then 1 else 0
  {
    assert (h + [p])[..|h|] == h;
  }

  lemma PushWellFormed(h: seq<Packet>, p: Packet)
    requires WellFormed(h)
    requires if h == [] then p.Publish? && !p.dup else Follows(h[0], h[|h| - 1], p)
    ensures WellFormed(h + [p])
  { }
}
