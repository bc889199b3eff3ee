/** The receiving side of QoS 2: which receptions are open, what is reported to
    the application, and what is answered to the broker. */
module Reception {
  import opened Protocol

  /** Outcome of the checks on an incoming PUBLISH (QoS supported by the build;
      topic, properties, alias, subscription) that do not depend on the receptions. */
  datatype Verdict = Fine | Unsupported | NotAuthorized | Fatal

  /** Outcome of the checks on an incoming PUBREL. */
  datatype Release = Success | ErrorReason | Violation

  datatype Event =
    | Reported(qos: Qos, id: nat)
    | Closed(id: nat)
    | Puback(id: nat, ok: bool)
    | Pubrec(id: nat, code: Code)
    | Pubcomp(id: nat, found: bool)
    | Disconnected

  datatype Code = Ok | InUse | Denied

  /** `open`: packet identifiers of the pending receptions, 0 for one that was
      cut short before it got its identifier. `recvLimit` 0 means no limit. */
  datatype State = State(
    open: seq<nat>, recvLimit: nat, connected: bool, disconnecting: bool, keepSession: bool, log: seq<Event>)

  function Log(s: State, e: Event): State {
    s.(log := s.log + [e])
  }

  function Find(open: seq<nat>, id: nat): (i: nat)
    ensures i <= |open|
    ensures i < |open| ==> open[i] == id
    ensures forall j :: 0 <= j < i ==> open[j] != id
  {
    if open == [] || open[0] == id then 0 else 1 + Find(open[1..], id)
  }

  function Close(s: State, i: nat): State
    requires i < |s.open|
  {
    Log(s, Closed(s.open[i])).(open := s.open[..i] + s.open[i + 1..])
  }

  function CloseAll(s: State): State
    decreases |s.open|
  {
    if s.open == [] then s else CloseAll(Close(s, 0))
  }

  /** The connection ends: receptions survive only with a session to keep. */
  function Drop(s: State): State {
    var down := s.(connected := false, disconnecting := true);
    if s.keepSession then down else CloseAll(down)
  }

  function Terminate(s: State): State {
    Drop(Log(s, Disconnected))
  }

  /** A new reception is entered at the end of the list before it is examined. */
  function Receive(s: State, qos: Qos, id: nat, verdict: Verdict): State {
    var t := s.(open := s.open + [0]);
    var i := |s.open|;
    if verdict.Unsupported? || (qos > 0 && 0 < s.recvLimit < |t.open|) then Terminate(t)
    else if !s.connected || verdict.NotAuthorized? then
      Close(if qos == 0 then t else if qos == 1 then Log(t, Puback(id, false)) else Log(t, Pubrec(id, Denied)), i)
    else if verdict.Fatal? then Terminate(t)
    else if qos == 0 then Close(Log(t, Reported(qos, id)), i)
    else if qos == 1 then Close(Log(Log(t, Reported(qos, id)), Puback(id, true)), i)
    else Log(Log(t, Reported(qos, id)), Pubrec(id, Ok)).(open := s.open + [id])
  }

  function OnPublish(s: State, qos: Qos, dup: bool, id: nat, verdict: Verdict): State {
    if s.disconnecting then s
    else if qos < 2 || Find(s.open, id) == |s.open| then Receive(s, qos, id, verdict)
    else Log(s, Pubrec(id, if dup then Ok else InUse))
  }

  function OnPubrel(s: State, id: nat, release: Release): State {
    var i := Find(s.open, id);
    if i == |s.open| then Log(s, Pubcomp(id, false))
    else match release
      case Success => Close(Log(s, Pubcomp(id, true)), i)
      case ErrorReason => Close(s, i)
      case Violation => Terminate(s)
  }

  datatype Input =
    | InPublish(qos: Qos, dup: bool, id: nat, verdict: Verdict)
    | InPubrel(id: nat, release: Release)
    | InTimeout(i: nat)
    | InDrop
    | InPrepareConnect
    | InConnack(present: bool, limit: nat, keep: bool)
    | InExpiry

  /** Packets name an identifier other than 0; a timeout belongs to a reception. */
  predicate Enabled(s: State, e: Input) {
    match e
    case InPublish(_, _, id, _) => id > 0
    case InPubrel(id, _) => id > 0
    case InTimeout(i) => i < |s.open|
    case InConnack(_, _, _) => !s.connected && !s.disconnecting
    case InExpiry => !s.connected
    case _ => true
  }

  function Next(s: State, e: Input): State
    requires Enabled(s, e)
  {
    match e
    case InPublish(qos, dup, id, verdict) => OnPublish(s, qos, dup, id, verdict)
    case InPubrel(id, release) => OnPubrel(s, id, release)
    case InTimeout(i) => Close(s, i)
    case InDrop => Drop(s)
    case InPrepareConnect =>
      if s.connected then s else s.(disconnecting := false, recvLimit := 0, keepSession := false)
    case InConnack(present, limit, keep) =>
      var up := s.(connected := true, recvLimit := limit, keepSession := keep);
      if present then up else CloseAll(up)
    case InExpiry => CloseAll(s)
  }

  // ----- at most one open reception, at most one report

  /** Whether the last word of the log about `id` at QoS 2 is a report. */
  function OpenIn(log: seq<Event>, id: nat): bool {
    if log == [] then false else
      var e := log[|log| - 1];
      if e == Reported(2, id) then true
      else if e == Closed(id) then false
      else OpenIn(log[..|log| - 1], id)
  }

  /** Every QoS 2 report of an identifier finds it closed. */
  ghost predicate ReportedOnce(log: seq<Event>, id: nat) {
    forall k :: 0 <= k < |log| && log[k] == Reported(2, id) ==> !OpenIn(log[..k], id)
  }

  ghost predicate Inv(s: State) {
    && (forall i, j :: 0 <= i < j < |s.open| && s.open[i] == s.open[j] ==> s.open[i] == 0)
    && (forall id: nat :: id > 0 ==> (OpenIn(s.log, id) <==> id in s.open))
    && (forall id: nat :: id > 0 ==> ReportedOnce(s.log, id))
  }

  lemma PushLog(log: seq<Event>, e: Event)
    ensures forall id: nat :: OpenIn(log + [e], id) ==
              (if e == Reported(2, id) then true else if e == Closed(id) then false else OpenIn(log, id))
  {
    assert (log + [e])[..|log|] == log;
  }

  lemma PushOnce(log: seq<Event>, e: Event, id: nat)
    requires ReportedOnce(log, id) && (e == Reported(2, id) ==> !OpenIn(log, id))
    ensures ReportedOnce(log + [e], id)
  {
    var l := log + [e];
    forall k | 0 <= k < |l| && l[k] == Reported(2, id) ensures !OpenIn(l[..k], id) {
      assert l[..k] == log[..k];
      assert k == |log| ==> log[..k] == log;
    }
  }

  /** Anything but a QoS 2 report or a closing leaves the receptions alone. */
  lemma LogKeeps(s: State, e: Event)
    requires Inv(s) && !e.Closed? && !(e.Reported? && e.qos == 2)
    ensures Inv(Log(s, e))
  {
    PushLog(s.log, e);
    forall id: nat | id > 0 ensures ReportedOnce(s.log + [e], id) {
      PushOnce(s.log, e, id);
    }
  }

  lemma CloseKeeps(s: State, i: nat)
    requires Inv(s) && i < |s.open|
    ensures Inv(Close(s, i))
  {
    var r := Close(s, i);
    var gone := s.open[i];
    PushLog(s.log, Closed(gone));
    forall id: nat | id > 0 ensures ReportedOnce(r.log, id) && (OpenIn(r.log, id) <==> id in r.open) {
      PushOnce(s.log, Closed(gone), id);
      MembersWithout(s.open, i, id);
    }
  }

  lemma MembersWithout(open: seq<nat>, i: nat, id: nat)
    requires i < |open| && id > 0
    requires forall j, k :: 0 <= j < k < |open| && open[j] == open[k] ==> open[j] == 0
    ensures id in open[..i] + open[i + 1..] <==> id in open && id != open[i]
  {
    assert open == open[..i] + [open[i]] + open[i + 1..];
  }

  lemma {:induction false} CloseAllKeeps(s: State)
    requires Inv(s)
    ensures Inv(CloseAll(s)) && CloseAll(s).open == []
    decreases |s.open|
  {
    if s.open != [] {
      CloseKeeps(s, 0);
      CloseAllKeeps(Close(s, 0));
    }
  }

  lemma TerminateKeeps(s: State)
    requires Inv(s)
    ensures Inv(Terminate(s)) && Inv(Drop(s))
  {
    LogKeeps(s, Disconnected);
    CloseAllKeeps(s.(connected := false, disconnecting := true));
    CloseAllKeeps(Log(s, Disconnected).(connected := false, disconnecting := true));
  }

  lemma OpenKeeps(s: State, id: nat)
    requires Inv(s) && id > 0 && id !in s.open
    ensures Inv(Log(s, Reported(2, id)).(open := s.open + [id]))
  {
    PushLog(s.log, Reported(2, id));
    forall x: nat | x > 0 ensures ReportedOnce(s.log + [Reported(2, id)], x) {
      PushOnce(s.log, Reported(2, id), x);
    }
  }

  lemma ReceiveKeeps(s: State, qos: Qos, id: nat, verdict: Verdict)
    requires Inv(s) && id > 0 && (qos == 2 ==> id !in s.open)
    ensures Inv(Receive(s, qos, id, verdict))
  {
    var t := s.(open := s.open + [0]);
    var i := |s.open|;
    assert Inv(t);
    if verdict.Unsupported? || (qos > 0 && 0 < s.recvLimit < |t.open|) {
      TerminateKeeps(t);
    } else if !s.connected || verdict.NotAuthorized? {
      var e := if qos == 1 then Puback(id, false) else Pubrec(id, Denied);
      LogKeeps(t, e);
      CloseKeeps(if qos == 0 then t else Log(t, e), i);
    } else if verdict.Fatal? {
      TerminateKeeps(t);
    } else if qos == 0 {
      LogKeeps(t, Reported(qos, id));
      CloseKeeps(Log(t, Reported(qos, id)), i);
    } else if qos == 1 {
      LogKeeps(t, Reported(qos, id));
      LogKeeps(Log(t, Reported(qos, id)), Puback(id, true));
      CloseKeeps(Log(Log(t, Reported(qos, id)), Puback(id, true)), i);
    } else {
      OpenKeeps(s, id);
      LogKeeps(Log(s, Reported(2, id)).(open := s.open + [id]), Pubrec(id, Ok));
    }
  }

  lemma NextKeeps(s: State, e: Input)
    requires Inv(s) && Enabled(s, e)
    ensures Inv(Next(s, e))
  {
    match e
    case InPublish(qos, dup, id, verdict) =>
      if !s.disconnecting {
        if qos < 2 || Find(s.open, id) == |s.open| {
          ReceiveKeeps(s, qos, id, verdict);
        } else {
          LogKeeps(s, Pubrec(id, if dup then Ok else InUse));
        }
      }
    case InPubrel(id, release) =>
      var i := Find(s.open, id);
      LogKeeps(s, Pubcomp(id, i < |s.open|));
      if i < |s.open| {
        CloseKeeps(Log(s, Pubcomp(id, true)), i);
        CloseKeeps(s, i);
        TerminateKeeps(s);
      }
    case InTimeout(i) => CloseKeeps(s, i);
    case InDrop => TerminateKeeps(s);
    case InPrepareConnect =>
    case InConnack(present, limit, keep) => CloseAllKeeps(s.(connected := true, recvLimit := limit, keepSession := keep));
    case InExpiry => CloseAllKeeps(s);
  }

  predicate Possible(s: State, es: seq<Input>)
    decreases |es|
  {
    es == [] || (Enabled(s, es[0]) && Possible(Next(s, es[0]), es[1..]))
  }

  function Run(s: State, es: seq<Input>): State
    requires Possible(s, es)
    decreases |es|
  {
    if es == [] then s else Run(Next(s, es[0]), es[1..])
  }

  const INITIAL := State([], 0, false, false, false, [])

  lemma {:induction false} RunKeeps(s: State, es: seq<Input>)
    requires Inv(s) && Possible(s, es)
    ensures Inv(Run(s, es))
    decreases |es|
  {
    if es != [] {
      NextKeeps(s, es[0]);
      RunKeeps(Next(s, es[0]), es[1..]);
    }
  }

  /** In every run, however many duplicates arrive: an identifier has at most one
      open reception, and two QoS 2 reports of it have a closing in between. */
  lemma ExactlyOnce(es: seq<Input>, id: nat, j: nat, k: nat)
    requires id > 0 && Possible(INITIAL, es)
    requires var log := Run(INITIAL, es).log;
             j < k < |log| && log[j] == Reported(2, id) && log[k] == Reported(2, id)
    ensures exists m :: j < m < k && Run(INITIAL, es).log[m] == Closed(id)
  {
    RunKeeps(INITIAL, es);
    var log := Run(INITIAL, es).log;
    assert ReportedOnce(log, id);
    ClosedSince(log, id, j, k);
  }

  lemma {:induction false} ClosedSince(log: seq<Event>, id: nat, j: nat, k: nat)
    requires j < k <= |log| && log[j] == Reported(2, id) && !OpenIn(log[..k], id)
    ensures exists m :: j < m < k && log[m] == Closed(id)
    decreases k
  {
    assert log[..k][..k - 1] == log[..k - 1];
    assert log[..k][k - 1] == log[k - 1];
    if log[k - 1] != Closed(id) {
      assert k - 1 != j;
      ClosedSince(log, id, j, k - 1);
    }
  }

  lemma AtMostOneOpen(es: seq<Input>)
    requires Possible(INITIAL, es)
    ensures var open := Run(INITIAL, es).open;
            forall i, j :: 0 <= i < j < |open| && open[i] == open[j] ==> open[i] == 0
  {
    RunKeeps(INITIAL, es);
  }

  // ----- what is reported and answered

  /** Every positive PUBREC is for an identifier that was reported and not closed since. */
  ghost predicate AnsweredOpen(log: seq<Event>) {
    forall k :: 0 <= k < |log| && log[k].Pubrec? && log[k].code.Ok? ==> OpenIn(log[..k], log[k].id)
  }

  lemma PushAnswered(log: seq<Event>, e: Event)
    requires AnsweredOpen(log) && (e.Pubrec? && e.code.Ok? ==> OpenIn(log, e.id))
    ensures AnsweredOpen(log + [e])
  {
    var l := log + [e];
    forall k | 0 <= k < |l| && l[k].Pubrec? && l[k].code.Ok? ensures OpenIn(l[..k], l[k].id) {
      assert l[..k] == log[..k];
      assert k == |log| ==> log[..k] == log;
    }
  }

  lemma {:induction false} CloseAllAnswered(s: State)
    requires AnsweredOpen(s.log)
    ensures AnsweredOpen(CloseAll(s).log)
    decreases |s.open|
  {
    if s.open != [] {
      PushAnswered(s.log, Closed(s.open[0]));
      CloseAllAnswered(Close(s, 0));
    }
  }

  lemma TerminateAnswered(s: State)
    requires AnsweredOpen(s.log)
    ensures AnsweredOpen(Terminate(s).log) && AnsweredOpen(Drop(s).log)
  {
    PushAnswered(s.log, Disconnected);
    CloseAllAnswered(s.(connected := false, disconnecting := true));
    CloseAllAnswered(Log(s, Disconnected).(connected := false, disconnecting := true));
  }

  lemma ReceiveAnswered(s: State, qos: Qos, id: nat, verdict: Verdict)
    requires AnsweredOpen(s.log)
    ensures AnsweredOpen(Receive(s, qos, id, verdict).log)
  {
    var t := s.(open := s.open + [0]);
    TerminateAnswered(t);
    var refusal := if qos == 1 then Puback(id, false) else Pubrec(id, Denied);
    PushAnswered(s.log, refusal);
    PushAnswered(s.log + [refusal], Closed(0));
    PushAnswered(s.log, Closed(0));
    var report := s.log + [Reported(qos, id)];
    PushLog(s.log, Reported(qos, id));
    PushAnswered(s.log, Reported(qos, id));
    PushAnswered(report, Closed(0));
    PushAnswered(report, Puback(id, true));
    PushAnswered(report + [Puback(id, true)], Closed(0));
    if qos == 2 {
      PushAnswered(report, Pubrec(id, Ok));
    }
  }

  lemma NextAnswered(s: State, e: Input)
    requires Inv(s) && AnsweredOpen(s.log) && Enabled(s, e)
    ensures AnsweredOpen(Next(s, e).log)
  {
    TerminateAnswered(s);
    CloseAllAnswered(s);
    match e
    case InPublish(qos, dup, id, verdict) =>
      ReceiveAnswered(s, qos, id, verdict);
      PushAnswered(s.log, Pubrec(id, InUse));
      if Find(s.open, id) < |s.open| {
        PushAnswered(s.log, Pubrec(id, Ok));
      }
    case InPubrel(id, release) =>
      var i := Find(s.open, id);
      PushAnswered(s.log, Pubcomp(id, false));
      PushAnswered(s.log, Pubcomp(id, true));
      PushAnswered(s.log, Closed(id));
      PushAnswered(s.log + [Pubcomp(id, true)], Closed(id));
    case InTimeout(i) => PushAnswered(s.log, Closed(s.open[i]));
    case InConnack(present, limit, keep) => CloseAllAnswered(s.(connected := true, recvLimit := limit, keepSession := keep));
    case _ =>
  }

  lemma {:induction false} RunAnswered(s: State, es: seq<Input>)
    requires Inv(s) && AnsweredOpen(s.log) && Possible(s, es)
    ensures AnsweredOpen(Run(s, es).log)
    decreases |es|
  {
    if es != [] {
      NextAnswered(s, es[0]);
      NextKeeps(s, es[0]);
      RunAnswered(Next(s, es[0]), es[1..]);
    }
  }

  /** In every run a positive PUBREC follows a report of its identifier with no
      closing in between: nothing is acknowledged without having been reported. */
  lemma AnsweredMeansReported(es: seq<Input>)
    requires Possible(INITIAL, es)
    ensures AnsweredOpen(Run(INITIAL, es).log)
  {
    RunAnswered(INITIAL, es);
  }

  /** The positive answer of each QoS; a reception that is not to stay is closed. */
  function Welcome(qos: Qos, id: nat): seq<Event> {
    if qos == 0 then [Reported(0, id), Closed(0)]
    else if qos == 1 then [Reported(1, id), Puback(id, true), Closed(0)]
    else [Reported(2, id), Pubrec(id, Ok)]
  }

  /** Room for one more reception, if a limit is set. */
  predicate Room(s: State) {
    s.recvLimit == 0 || |s.open| < s.recvLimit
  }

  /** A good publish is reported exactly once and then answered; at QoS 2 its reception
      stays open. */
  lemma GoodPublishReported(s: State, qos: Qos, dup: bool, id: nat)
    requires s.connected && !s.disconnecting && id > 0 && (qos > 0 ==> Room(s)) && (qos == 2 ==> id !in s.open)
    ensures var r := Next(s, InPublish(qos, dup, id, Fine));
            r.log == s.log + Welcome(qos, id) && r.open == if qos == 2 then s.open + [id] else s.open
  {
    var t := s.(open := s.open + [0]);
    assert t.open[..|s.open|] + t.open[|s.open| + 1..] == s.open;
  }

  /** A publish that is not authorised, or comes before CONNACK, is refused unreported. */
  lemma BadPublishRefused(s: State, qos: Qos, dup: bool, id: nat, verdict: Verdict)
    requires !s.disconnecting && id > 0 && (qos > 0 ==> Room(s)) && (qos == 2 ==> id !in s.open)
    requires !verdict.Unsupported? && (!s.connected || verdict.NotAuthorized?)
    ensures var r := Next(s, InPublish(qos, dup, id, verdict));
            && r.open == s.open
            && r.log == s.log + (if qos == 0 then [] else if qos == 1 then [Puback(id, false)] else [Pubrec(id, Denied)])
                              + [Closed(0)]
  {
    var t := s.(open := s.open + [0]);
    assert t.open[..|s.open|] + t.open[|s.open| + 1..] == s.open;
  }

  /** One that breaks the protocol, or exceeds the limit, ends the connection unreported. */
  lemma FatalPublishEnds(s: State, qos: Qos, dup: bool, id: nat, verdict: Verdict)
    requires !s.disconnecting && id > 0 && (qos == 2 ==> id !in s.open)
    requires verdict.Unsupported? || (qos > 0 && !Room(s)) || (s.connected && verdict.Fatal?)
    ensures var r := Next(s, InPublish(qos, dup, id, verdict));
            && !r.connected && r.disconnecting
            && r.log == s.log + [Disconnected] + (if s.keepSession then [] else Closings(s.open + [0]))
            && r.open == if s.keepSession then s.open + [0] else []
  {
    TerminateLog(s.(open := s.open + [0]));
  }

  lemma TerminateLog(s: State)
    ensures var r := Terminate(s);
            && !r.connected && r.disconnecting
            && r.log == s.log + [Disconnected] + (if s.keepSession then [] else Closings(s.open))
            && r.open == if s.keepSession then s.open else []
  {
    CloseAllLog(Log(s, Disconnected).(connected := false, disconnecting := true));
  }

  function Closings(open: seq<nat>): (r: seq<Event>)
    ensures |r| == |open|
  {
    seq(|open|, i requires 0 <= i < |open| => Closed(open[i]))
  }

  lemma ClosingsCons(log: seq<Event>, open: seq<nat>)
    requires open != []
    ensures log + [Closed(open[0])] + Closings(open[1..]) == log + Closings(open)
  {
    assert [Closed(open[0])] + Closings(open[1..]) == Closings(open);
  }

  lemma {:induction false} CloseAllLog(s: State)
    ensures CloseAll(s) == s.(open := [], log := s.log + Closings(s.open))
    decreases |s.open|
  {
    if s.open != [] {
      CloseAllLog(Close(s, 0));
      ClosingsCons(s.log, s.open);
    }
  }

  /** A second PUBLISH for an open identifier is not reported; it is answered again if
      it is a duplicate, and refused if not. */
  lemma RepeatAnswered(s: State, dup: bool, id: nat, verdict: Verdict)
    requires !s.disconnecting && id > 0 && id in s.open
    ensures Next(s, InPublish(2, dup, id, verdict)) == s.(log := s.log + [Pubrec(id, if dup then Ok else InUse)])
  {
  }

  lemma IgnoredWhileEnding(s: State, qos: Qos, dup: bool, id: nat, verdict: Verdict)
    requires s.disconnecting && id > 0
    ensures Next(s, InPublish(qos, dup, id, verdict)) == s
  {
  }

  /** PUBREL is always answered with PUBCOMP unless it carries an error, and closes the
      reception of its identifier alone. */
  lemma PubrelAnswered(s: State, id: nat, release: Release)
    requires Inv(s) && id > 0 && (id in s.open ==> !release.Violation?)
    ensures var r := Next(s, InPubrel(id, release));
            if id !in s.open then r == s.(log := s.log + [Pubcomp(id, false)])
            else && r.log == s.log + (if release.Success? then [Pubcomp(id, true)] else []) + [Closed(id)]
                 && (forall x: nat :: x > 0 ==> (x in r.open <==> x in s.open && x != id))
                 && |r.open| == |s.open| - 1
  {
    var i := Find(s.open, id);
    if id in s.open {
      forall x: nat | x > 0 ensures x in s.open[..i] + s.open[i + 1..] <==> x in s.open && x != id {
        MembersWithout(s.open, i, x);
      }
    }
  }

  /** One that breaks the protocol ends the connection. */
  lemma PubrelViolationEnds(s: State, id: nat)
    requires id > 0 && id in s.open
    ensures var r := Next(s, InPubrel(id, Violation));
            && !r.connected && r.disconnecting
            && r.log == s.log + [Disconnected] + (if s.keepSession then [] else Closings(s.open))
            && r.open == if s.keepSession then s.open else []
  {
    TerminateLog(s);
  }

  /** Receptions survive the loss of a connection with a session to keep and a CONNACK
      that finds it; otherwise, and when it expires, each is closed in order. */
  lemma SessionsDecide(s: State, limit: nat, keep: bool)
    requires !s.connected && !s.disconnecting
    ensures var lost := Next(s, InConnack(false, limit, keep)); var found := Next(s, InConnack(true, limit, keep));
            && found == s.(connected := true, recvLimit := limit, keepSession := keep)
            && lost == found.(open := [], log := s.log + Closings(s.open))
            && Next(s, InExpiry) == s.(open := [], log := s.log + Closings(s.open))
            && !Next(found, InDrop).connected && Next(found, InDrop).disconnecting
            && Next(found, InDrop).open == (if keep then s.open else [])
            && Next(Next(found, InDrop), InPrepareConnect).open == Next(found, InDrop).open
            && Enabled(Next(Next(found, InDrop), InPrepareConnect), InConnack(true, limit, keep))
  {
    var found := s.(connected := true, recvLimit := limit, keepSession := keep);
    CloseAllLog(s);
    CloseAllLog(found);
    CloseAllLog(found.(connected := false, disconnecting := true));
  }

  // ----- limits

  /** Accepting a publish never leaves more receptions than a limit that is set. */
  lemma AcceptedWithinLimit(s: State, qos: Qos, dup: bool, id: nat, verdict: Verdict)
    requires id > 0 && s.recvLimit > 0
    ensures var r := OnPublish(s, qos, dup, id, verdict);
            id in r.open && id !in s.open ==> |r.open| <= s.recvLimit
  {
    var t := s.(open := s.open + [0]);
    CloseAllLog(Log(t, Disconnected).(connected := false, disconnecting := true));
  }

  /** While connected, no more than `most` receptions are open. */
  ghost predicate Bounded(s: State, limit: nat, most: nat) {
    s.connected ==> s.recvLimit == limit && |s.open| <= most
  }

  lemma TerminateEnds(s: State)
    ensures !Terminate(s).connected && !Drop(s).connected
  {
    CloseAllLog(s.(connected := false, disconnecting := true));
    CloseAllLog(Log(s, Disconnected).(connected := false, disconnecting := true));
  }

  lemma ReceiveBounded(s: State, qos: Qos, id: nat, verdict: Verdict, limit: nat, most: nat)
    requires 0 < limit <= most && Bounded(s, limit, most)
    ensures Bounded(Receive(s, qos, id, verdict), limit, most)
  {
    TerminateEnds(s.(open := s.open + [0]));
  }

  lemma NextBounded(s: State, e: Input, limit: nat, most: nat)
    requires Enabled(s, e) && !e.InConnack? && 0 < limit <= most && Bounded(s, limit, most)
    ensures Bounded(Next(s, e), limit, most)
  {
    TerminateEnds(s);
    match e
    case InPublish(qos, dup, id, verdict) => ReceiveBounded(s, qos, id, verdict, limit, most);
    case InExpiry => CloseAllLog(s);
    case _ =>
  }

  lemma {:induction false} RunBounded(s: State, es: seq<Input>, limit: nat, most: nat)
    requires Possible(s, es) && forall k :: 0 <= k < |es| ==> !es[k].InConnack?
    requires 0 < limit <= most && Bounded(s, limit, most)
    ensures Bounded(Run(s, es), limit, most)
    decreases |es|
  {
    if es != [] {
      NextBounded(s, es[0], limit, most);
      RunBounded(Next(s, es[0]), es[1..], limit, most);
    }
  }

  /** From a CONNACK on, for as long as the connection lasts, open receptions never
      exceed the larger of those it left open and a limit that is set. */
  lemma OpenWithinLimit(s: State, es: seq<Input>)
    requires s.connected && s.recvLimit > 0
    requires Possible(s, es) && forall k :: 0 <= k < |es| ==> !es[k].InConnack?
    ensures Run(s, es).connected ==> |Run(s, es).open| <= if |s.open| < s.recvLimit then s.recvLimit else |s.open|
  {
    RunBounded(s, es, s.recvLimit, if |s.open| < s.recvLimit then s.recvLimit else |s.open|);
  }

  // ----- the receiving side as the library runs it

  class RecvSide {
    var recvOps: seq<nat>
    var highQosRecvLimit: nat
    var connected: bool
    var disconnecting: bool
    var keepSession: bool
    ghost var log: seq<Event>

    ghost function View(): State
      reads this
    {
      State(recvOps, highQosRecvLimit, connected, disconnecting, keepSession, log)
    }

    constructor ()
      ensures View() == INITIAL
    {
      recvOps, highQosRecvLimit, connected, disconnecting, keepSession, log := [], 0, false, false, false, [];
    }

    method Emit(e: Event)
      modifies this`log
      ensures log == old(log) + [e]
    {
      log := log + [e];
    }

    /** The first reception with this identifier, or the number of receptions. */
    method FindRecvOp(id: nat) returns (i: nat)
      ensures i == Find(recvOps, id)
    {
      i := 0;
      while i < |recvOps| && recvOps[i] != id
        invariant 0 <= i <= |recvOps|
        invariant forall j :: 0 <= j < i ==> recvOps[j] != id
      {
        i := i + 1;
      }
      FindIs(recvOps, id, i);
    }

    method OpComplete(i: nat)
      requires i < |recvOps|
      modifies this
      ensures View() == Close(old(View()), i)
    {
      Emit(Closed(recvOps[i]));
      recvOps := recvOps[..i] + recvOps[i + 1..];
    }

    method TerminateRecvOps()
      modifies this
      ensures View() == CloseAll(old(View()))
    {
      while recvOps != []
        invariant CloseAll(View()) == CloseAll(old(View()))
        decreases |recvOps|
      {
        OpComplete(0);
      }
    }

    method BrokerDisconnected()
      modifies this
      ensures View() == Drop(old(View()))
    {
      connected := false;
      disconnecting := true;
      if !keepSession {
        TerminateRecvOps();
      }
    }

    method TerminationWithReason()
      modifies this
      ensures View() == Terminate(old(View()))
    {
      Emit(Disconnected);
      BrokerDisconnected();
    }

    /** `RecvOp` examines the publish it was created for. */
    method ExaminePublish(i: nat, qos: Qos, id: nat, verdict: Verdict)
      requires recvOps != [] && i == |recvOps| - 1 && recvOps[i] == 0
      modifies this
      ensures View() == Receive(old(View()).(open := old(recvOps)[..i]), qos, id, verdict)
    {
      assert recvOps == recvOps[..i] + [0];
      if verdict.Unsupported? {
        TerminationWithReason();
        return;
      }
      if qos > 0 && 0 < highQosRecvLimit && highQosRecvLimit < |recvOps| {
        TerminationWithReason();
        return;
      }
      if !connected || verdict.NotAuthorized? {
        if qos == 1 {
          Emit(Puback(id, false));
        } else if qos == 2 {
          Emit(Pubrec(id, Denied));
        }
        OpComplete(i);
        return;
      }
      if verdict.Fatal? {
        TerminationWithReason();
        return;
      }
      Emit(Reported(qos, id));
      if qos == 0 {
        OpComplete(i);
        return;
      }
      if qos == 1 {
        Emit(Puback(id, true));
        OpComplete(i);
        return;
      }
      recvOps := recvOps[i := id];
      Emit(Pubrec(id, Ok));
      assert recvOps == old(recvOps)[..i] + [id];
    }

    method HandlePublish(qos: Qos, dup: bool, id: nat, verdict: Verdict)
      modifies this
      ensures View() == OnPublish(old(View()), qos, dup, id, verdict)
    {
      if disconnecting {
        return;
      }
      if qos == 2 {
        var i := FindRecvOp(id);
        if i < |recvOps| {
          Emit(Pubrec(id, if dup then Ok else InUse));
          return;
        }
      }
      CreateRecvOp(qos, id, verdict);
    }

    method CreateRecvOp(qos: Qos, id: nat, verdict: Verdict)
      modifies this
      ensures View() == Receive(old(View()), qos, id, verdict)
    {
      ghost var s := View();
      recvOps := recvOps + [0];
      assert recvOps[..|recvOps| - 1] == s.open;
      assert View().(open := s.open) == s;
      ExaminePublish(|recvOps| - 1, qos, id, verdict);
    }

    method HandlePubrel(id: nat, release: Release)
      modifies this
      ensures View() == OnPubrel(old(View()), id, release)
    {
      var i := FindRecvOp(id);
      if i == |recvOps| {
        Emit(Pubcomp(id, false));
        return;
      }
      match release
      case Violation => TerminationWithReason();
      case ErrorReason => OpComplete(i);
      case Success =>
        Emit(Pubcomp(id, true));
        OpComplete(i);
    }

    method ResponseTimeout(i: nat)
      requires i < |recvOps|
      modifies this
      ensures View() == Next(old(View()), InTimeout(i))
    {
      OpComplete(i);
    }

    method BrokerConnected(sessionPresent: bool, limit: nat, keep: bool)
      requires !connected && !disconnecting
      modifies this
      ensures View() == Next(old(View()), InConnack(sessionPresent, limit, keep))
    {
      connected, highQosRecvLimit, keepSession := true, limit, keep;
      if !sessionPresent {
        TerminateRecvOps();
      }
    }
  }

  lemma {:induction false} FindIs(open: seq<nat>, id: nat, i: nat)
    requires i <= |open| && (forall j :: 0 <= j < i ==> open[j] != id) && (i < |open| ==> open[i] == id)
    ensures Find(open, id) == i
  { }
}
