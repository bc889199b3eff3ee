/** The keep-alive operation: a ping timer, a reception timer and a response
    timer on the table of `Timers`, and the timing guarantees they give. */
module KeepAlive {
  import opened Timers

  // ----- the machine as a value

  datatype Rem = Off | In(ms: nat)

  /** `sends` are the times at which the client sent packets, the first entry
      being the moment the connection was established; `received` is the time of
      the last packet from the broker. */
  datatype State = State(
    keepAlive: nat, response: nat, now: nat,
    ping: Rem, recv: Rem, resp: Rem,
    up: bool, sends: seq<nat>, received: seq<nat>)

  datatype Event = Sent | GotPingresp | GotOther | Tick(ms: nat)

  /** A period of 0 switches keep-alive off: nothing is armed. */
  function Armed(before: Rem, keepAlive: nat): Rem {
    if keepAlive == 0 then before else In(keepAlive)
  }

  function Start(keepAlive: nat, response: nat): State {
    State(keepAlive, response, 0, Armed(Off, keepAlive), Off, Off, true, [0], [])
  }

  /** Any packet sent re-arms the ping timer. */
  function Send(s: State): State {
    s.(ping := Armed(s.ping, s.keepAlive), sends := s.sends + [s.now])
  }

  function SendPing(s: State): State {
    if s.resp.In? then s else Send(s).(resp := In(s.response))
  }

  function PingTimeout(s: State): State {
    Send(s).(up := false)
  }

  const PING := 0
  const RECV := 1
  const RESP := 2

  function Dispatch(s: State, id: nat): State {
    if id == PING || id == RECV then SendPing(s) else if id == RESP then PingTimeout(s) else s
  }

  function DispatchAll(s: State, calls: seq<nat>): State {
    if calls == [] then s else Dispatch(DispatchAll(s, calls[..|calls| - 1]), calls[|calls| - 1])
  }

  predicate Due(r: Rem, ms: nat) {
    r.In? && r.ms <= ms
  }

  function Down(r: Rem, ms: nat): Rem {
    if r.Off? || r.ms <= ms then Off else In(r.ms - ms)
  }

  function Elapsed(s: State, ms: nat): State {
    s.(now := s.now + ms, ping := Down(s.ping, ms), recv := Down(s.recv, ms), resp := Down(s.resp, ms))
  }

  function One(due: bool, id: nat): seq<nat> {
    if due then [id] else []
  }

  function Calls2(s: State, ms: nat): seq<nat> {
    One(Due(s.ping, ms), PING) + One(Due(s.recv, ms), RECV)
  }

  /** The callbacks of one tick, in slot order. */
  function Calls(s: State, ms: nat): seq<nat> {
    Calls2(s, ms) + One(Due(s.resp, ms), RESP)
  }

  function Step(s: State, e: Event): State {
    match e
    case Sent => Send(s)
    case GotPingresp => s.(resp := Off, recv := Armed(s.recv, s.keepAlive), received := s.received + [s.now])
    case GotOther => s.(recv := Armed(s.recv, s.keepAlive), received := s.received + [s.now])
    case Tick(ms) => DispatchAll(Elapsed(s, ms), Calls(s, ms))
  }

  /** Time passes in steps no longer than the next timer needs; after the
      connection is gone nothing happens. */
  predicate Enabled(s: State, e: Event) {
    s.up && (e.Tick? ==> (s.ping.In? ==> e.ms <= s.ping.ms) && (s.recv.In? ==> e.ms <= s.recv.ms)
                         && (s.resp.In? ==> e.ms <= s.resp.ms))
  }

  predicate Possible(s: State, es: seq<Event>)
    decreases |es|
  {
    es == [] || (Enabled(s, es[0]) && Possible(Step(s, es[0]), es[1..]))
  }

  function Run(s: State, es: seq<Event>): State
    decreases |es|
  {
    if es == [] then s else Run(Step(s, es[0]), es[1..])
  }

  // ----- silence from the broker ends the connection

  ghost predicate Running(s: State) {
    && s.keepAlive > 0 && s.response > 0
    && (s.ping.In? ==> 0 < s.ping.ms) && (s.recv.In? ==> 0 < s.recv.ms)
    && (s.resp.In? ==> 0 < s.resp.ms <= s.response)
  }

  function Last(xs: seq<nat>): nat
    requires xs != []
  {
    xs[|xs| - 1]
  }

  /** After a reception either the reception timer or the response timer runs,
      and the latter ends in time. */
  ghost predicate Watched(s: State) {
    && Running(s)
    && (s.up && s.received != [] ==>
          if s.recv.In? then s.now + s.recv.ms == Last(s.received) + s.keepAlive
          else s.resp.In? && s.now + s.resp.ms <= Last(s.received) + s.keepAlive + s.response)
  }

  lemma TickIs(s: State, ms: nat)
    ensures var d := Elapsed(s, ms);
            var p := if Due(s.ping, ms) || Due(s.recv, ms) then SendPing(d) else d;
            Step(s, Tick(ms)) == if Due(s.resp, ms) then PingTimeout(p) else p
  {
    var d := Elapsed(s, ms);
    DispatchAppend(d, Calls2(s, ms), One(Due(s.resp, ms), RESP));
    DispatchAppend(d, One(Due(s.ping, ms), PING), One(Due(s.recv, ms), RECV));
    DispatchOne(d, Due(s.ping, ms), PING);
    DispatchOne(DispatchAll(d, One(Due(s.ping, ms), PING)), Due(s.recv, ms), RECV);
    DispatchOne(DispatchAll(d, Calls2(s, ms)), Due(s.resp, ms), RESP);
  }

  lemma DispatchOne(s: State, due: bool, id: nat)
    ensures DispatchAll(s, One(due, id)) == if due then Dispatch(s, id) else s
  {
    assert [id][..0] == [];
  }

  lemma {:induction false} DispatchAppend(s: State, a: seq<nat>, b: seq<nat>)
    ensures DispatchAll(s, a + b) == DispatchAll(DispatchAll(s, a), b)
    decreases |b|
  {
    if b == [] {
      assert a + b == a;
    } else {
      var n := |b| - 1;
      assert (a + b)[..|a| + n] == a + b[..n];
      DispatchAppend(s, a, b[..n]);
    }
  }

  lemma StepWatched(s: State, e: Event)
    requires Watched(s) && Enabled(s, e)
    ensures Watched(Step(s, e))
  {
    if e.Tick? {
      TickIs(s, e.ms);
    }
  }

  lemma {:induction false} RunWatched(s: State, es: seq<Event>)
    requires Watched(s) && Possible(s, es)
    ensures Watched(Run(s, es))
    decreases |es|
  {
    if es != [] {
      StepWatched(s, es[0]);
      RunWatched(Step(s, es[0]), es[1..]);
    }
  }

  /** A client still connected heard from the broker less than the keep-alive
      period plus the response timeout ago, if it ever did. */
  lemma SilenceIsDetected(keepAlive: nat, response: nat, es: seq<Event>)
    requires keepAlive > 0 && response > 0 && Possible(Start(keepAlive, response), es)
    ensures var s := Run(Start(keepAlive, response), es);
            s.up && s.received != [] ==> s.now < Last(s.received) + keepAlive + response
  {
    RunWatched(Start(keepAlive, response), es);
    RunSettings(Start(keepAlive, response), es);
  }

  lemma {:induction false} RunSettings(s: State, es: seq<Event>)
    ensures Run(s, es).keepAlive == s.keepAlive && Run(s, es).response == s.response
    decreases |es|
  {
    if es != [] {
      if es[0].Tick? {
        TickIs(s, es[0].ms);
      }
      RunSettings(Step(s, es[0]), es[1..]);
    }
  }

  // ----- an unanswered ping ends the connection, and nothing else does

  datatype Ping = Answered | Waiting(since: nat)

  /** Whether a ping is unanswered, and since when, read off the events: a packet sent
      by a tick is a ping, and only PINGRESP answers it. */
  function Pings(s: State, es: seq<Event>, w: Ping): Ping
    decreases |es|
  {
    if es == [] then w else Pings(Step(s, es[0]), es[1..], Heard(s, es[0], w))
  }

  function Heard(s: State, e: Event, w: Ping): Ping {
    match e
    case GotPingresp => Answered
    case Tick(_) => if w.Answered? && |Step(s, e).sends| > |s.sends| then Waiting(Step(s, e).now) else w
    case _ => w
  }

  ghost predicate Awaits(s: State, w: Ping) {
    && Running(s)
    && (w.Waiting? ==> w.since <= s.now)
    && if s.up then if w.Waiting? then s.resp.In? && s.now + s.resp.ms == w.since + s.response else s.resp.Off?
       else w.Waiting? && s.now == w.since + s.response && s.sends != [] && Last(s.sends) == s.now
  }

  lemma TickAwaits(s: State, ms: nat, w: Ping)
    requires Awaits(s, w) && Enabled(s, Tick(ms))
    ensures Awaits(Step(s, Tick(ms)), Heard(s, Tick(ms), w))
  {
    TickIs(s, ms);
    var d := Elapsed(s, ms);
    var p := if Due(s.ping, ms) || Due(s.recv, ms) then SendPing(d) else d;
    assert w.Answered? ==> !Due(s.resp, ms) && (|p.sends| > |s.sends| <==> Due(s.ping, ms) || Due(s.recv, ms));
  }

  lemma StepAwaits(s: State, e: Event, w: Ping)
    requires Awaits(s, w) && Enabled(s, e)
    ensures Awaits(Step(s, e), Heard(s, e, w))
  {
    if e.Tick? {
      TickAwaits(s, e.ms, w);
    }
  }

  lemma {:induction false} RunAwaits(s: State, es: seq<Event>, w: Ping)
    requires Awaits(s, w) && Possible(s, es)
    ensures Awaits(Run(s, es), Pings(s, es, w))
    decreases |es|
  {
    if es != [] {
      StepAwaits(s, es[0], w);
      RunAwaits(Step(s, es[0]), es[1..], Heard(s, es[0], w));
    }
  }

  /** In every run the connection is up if and only if no ping has been unanswered for
      the response timeout, whatever else is sent or received; it ends at that very
      moment, and with a last packet. */
  lemma PingTimeoutIff(keepAlive: nat, response: nat, es: seq<Event>)
    requires keepAlive > 0 && response > 0 && Possible(Start(keepAlive, response), es)
    ensures var s := Run(Start(keepAlive, response), es); var w := Pings(Start(keepAlive, response), es, Answered);
            && (s.up <==> (w.Waiting? ==> s.now < w.since + response))
            && (!s.up ==> s.sends != [] && Last(s.sends) == s.now == w.since + response)
  {
    RunAwaits(Start(keepAlive, response), es, Answered);
    RunSettings(Start(keepAlive, response), es);
  }

  /** From a moment at which a ping is unanswered, without PINGRESP the connection
      does not outlive the response timeout. */
  lemma UnansweredPingEnds(keepAlive: nat, response: nat, es: seq<Event>, more: seq<Event>)
    requires keepAlive > 0 && response > 0 && Possible(Start(keepAlive, response), es)
    requires Pings(Start(keepAlive, response), es, Answered).Waiting?
    requires Possible(Run(Start(keepAlive, response), es), more)
    requires forall i :: 0 <= i < |more| ==> !more[i].GotPingresp?
    ensures var w := Pings(Start(keepAlive, response), es, Answered);
            var s := Run(Run(Start(keepAlive, response), es), more);
            s.up ==> s.now < w.since + response
  {
    var s := Run(Start(keepAlive, response), es);
    var w := Pings(Start(keepAlive, response), es, Answered);
    RunAwaits(Start(keepAlive, response), es, Answered);
    RunAwaits(s, more, w);
    StillWaiting(s, more, w);
    RunSettings(Start(keepAlive, response), es);
    RunSettings(s, more);
  }

  lemma {:induction false} StillWaiting(s: State, es: seq<Event>, w: Ping)
    requires w.Waiting? && forall i :: 0 <= i < |es| ==> !es[i].GotPingresp?
    ensures Pings(s, es, w) == w
    decreases |es|
  {
    if es != [] {
      StillWaiting(Step(s, es[0]), es[1..], w);
    }
  }

  /** With a period of 0 the operation sends nothing and never ends the connection. */
  lemma {:induction false} KeepAliveOff(s: State, es: seq<Event>)
    requires s.keepAlive == 0 && s.up && s.ping.Off? && s.recv.Off? && s.resp.Off?
    ensures var t := Run(s, es);
            t.up && t.ping.Off? && t.resp.Off? && |t.sends| == |s.sends| + Sendings(es)
    decreases |es|
  {
    if es != [] {
      if es[0].Tick? {
        TickIs(s, es[0].ms);
      }
      KeepAliveOff(Step(s, es[0]), es[1..]);
    }
  }

  function Sendings(es: seq<Event>): nat {
    if es == [] then 0 else (if es[0].Sent? then 1 else 0) + Sendings(es[1..])
  }

  // ----- a broker that never answers at all

  /** The time of the last packet other than a ping, in a run from `s`. */
  function LastOwn(s: State, es: seq<Event>, last: nat): nat
    decreases |es|
  {
    if es == [] then last else LastOwn(Step(s, es[0]), es[1..], if es[0].Sent? then s.now else last)
  }

  /** Before anything is received the ping timer runs from the last packet other
      than a ping, then the response timer from the one ping. */
  ghost predicate Unheard(s: State, own: nat) {
    && Running(s)
    && (s.up && s.received == [] ==>
          && s.recv.Off? && own <= s.now
          && if s.resp.In? then s.now + s.resp.ms <= own + s.keepAlive + s.response
             else s.ping.In? && s.now + s.ping.ms == own + s.keepAlive)
  }

  lemma StepUnheard(s: State, e: Event, own: nat)
    requires Unheard(s, own) && Enabled(s, e)
    ensures Unheard(Step(s, e), if e.Sent? then s.now else own)
  {
    if e.Tick? {
      TickIs(s, e.ms);
    }
  }

  lemma {:induction false} RunUnheard(s: State, es: seq<Event>, own: nat)
    requires Unheard(s, own) && Possible(s, es)
    ensures Unheard(Run(s, es), LastOwn(s, es, own))
    decreases |es|
  {
    if es != [] {
      StepUnheard(s, es[0], own);
      RunUnheard(Step(s, es[0]), es[1..], if es[0].Sent? then s.now else own);
    }
  }

  /** A client still connected that never heard from the broker connected, or sent a
      packet other than a ping, less than the period plus the response timeout ago. */
  lemma UnansweredIsDetected(keepAlive: nat, response: nat, es: seq<Event>)
    requires keepAlive > 0 && response > 0 && Possible(Start(keepAlive, response), es)
    ensures var s := Run(Start(keepAlive, response), es);
            s.up && s.received == [] ==> s.now < LastOwn(Start(keepAlive, response), es, 0) + keepAlive + response
  {
    RunUnheard(Start(keepAlive, response), es, 0);
    RunSettings(Start(keepAlive, response), es);
  }

  function Chatter(n: nat): seq<Event> {
    if n == 0 then [] else Chatter(n - 1) + [Sent] + [Tick(1)]
  }

  /** But a client that keeps sending never pings, so a broker that never answers
      goes unnoticed for any length of time. */
  lemma {:induction false} SendingHidesSilence(k: nat, r: nat, n: nat)
    requires 1 < k
    ensures Possible(Start(k, r), Chatter(n))
    ensures var s := Run(Start(k, r), Chatter(n));
            && s.up && s.now == n && s.received == [] && |s.sends| == n + 1
            && s.keepAlive == k && s.recv.Off? && s.resp.Off? && s.ping.In? && s.ping.ms > 0
  {
    if n > 0 {
      SendingHidesSilence(k, r, n - 1);
      var s := Run(Start(k, r), Chatter(n - 1));
      Extend(Start(k, r), Chatter(n - 1), Sent);
      Extend(Start(k, r), Chatter(n - 1) + [Sent], Tick(1));
      TickIs(Step(s, Sent), 1);
    }
  }

  // ----- the client is never silent for longer than the keep-alive period

  ghost predicate GapsWithin(sends: seq<nat>, k: nat) {
    forall i :: 0 < i < |sends| ==> sends[i] <= sends[i - 1] + k
  }

  /** The ping timer runs out with the period, and no later than the response timer. */
  ghost predicate Pinging(s: State) {
    && Running(s) && s.sends != [] && GapsWithin(s.sends, s.keepAlive)
    && (s.up ==>
          && s.ping.In? && s.now + s.ping.ms == Last(s.sends) + s.keepAlive
          && (s.resp.In? ==> s.resp.ms <= s.ping.ms))
  }

  lemma SendPinging(s: State)
    requires Running(s) && s.sends != [] && GapsWithin(s.sends, s.keepAlive) && s.response <= s.keepAlive
    requires s.now <= Last(s.sends) + s.keepAlive
    ensures Pinging(Send(s)) && Pinging(PingTimeout(s)) && Last(Send(s).sends) == s.now
    ensures s.resp.Off? ==> Pinging(SendPing(s)) && Last(SendPing(s).sends) == s.now
  {
  }

  lemma TickPinging(s: State, ms: nat)
    requires Pinging(s) && Enabled(s, Tick(ms)) && s.response <= s.keepAlive
    ensures Pinging(Step(s, Tick(ms)))
  {
    TickIs(s, ms);
    var d := Elapsed(s, ms);
    SendPinging(d);
    var p := if Due(s.ping, ms) || Due(s.recv, ms) then SendPing(d) else d;
    if Due(s.resp, ms) {
      SendPinging(p);
    }
  }

  lemma StepPinging(s: State, e: Event)
    requires Pinging(s) && Enabled(s, e) && s.response <= s.keepAlive
    ensures Pinging(Step(s, e))
  {
    match e
    case Sent => SendPinging(s);
    case GotPingresp =>
    case GotOther =>
    case Tick(ms) => TickPinging(s, ms);
  }

  lemma {:induction false} RunPinging(s: State, es: seq<Event>)
    requires Pinging(s) && Possible(s, es) && s.response <= s.keepAlive
    ensures Pinging(Run(s, es))
    decreases |es|
  {
    if es != [] {
      StepPinging(s, es[0]);
      RunSettings(s, [es[0]]);
      assert [es[0]][1..] == [];
      assert Run(s, [es[0]]) == Step(s, es[0]);
      RunPinging(Step(s, es[0]), es[1..]);
    }
  }

  /** Client packets in a run, and the time since the last one, keep to the period. */
  ghost predicate NeverQuiet(s: State) {
    GapsWithin(s.sends, s.keepAlive) && (s.up ==> s.sends != [] && s.now <= Last(s.sends) + s.keepAlive)
  }

  /** The run that leaves the ping timer dead: it expires while a ping is still
      unanswered, the answer comes afterwards, and the next ping is a period late. */
  function LateRun(k: nat): seq<Event> {
    [Tick(k), Tick(k), GotPingresp, Tick(k)]
  }

  /** The guarantee of the keep-alive period holds in every run exactly when the
      response timeout does not exceed the period. */
  lemma NeverQuietIff(keepAlive: nat, response: nat)
    requires keepAlive > 0 && response > 0
    ensures response <= keepAlive <==>
            forall es :: Possible(Start(keepAlive, response), es) ==> NeverQuiet(Run(Start(keepAlive, response), es))
  {
    var s := Start(keepAlive, response);
    if response <= keepAlive {
      forall es | Possible(s, es) ensures NeverQuiet(Run(s, es)) {
        RunPinging(s, es);
      }
    } else {
      LateRunIsLate(keepAlive, response);
      var sends := Run(s, LateRun(keepAlive)).sends;
      assert sends[2] > sends[1] + keepAlive;
      RunSettings(s, LateRun(keepAlive));
      assert !NeverQuiet(Run(s, LateRun(keepAlive)));
    }
  }

  lemma LateRunIsLate(k: nat, r: nat)
    requires 0 < k < r
    ensures Possible(Start(k, r), LateRun(k))
    ensures Run(Start(k, r), LateRun(k)).sends == [0, k, 3 * k]
  {
    var s0 := Start(k, r);
    var s1 := State(k, r, k, In(k), Off, In(r), true, [0, k], []);
    var s2 := State(k, r, 2 * k, Off, Off, In(r - k), true, [0, k], []);
    var s3 := s2.(resp := Off, recv := In(k), received := [2 * k]);
    assert Step(s0, Tick(k)) == s1 by { TickIs(s0, k); }
    assert Step(s1, Tick(k)) == s2 by { TickIs(s1, k); }
    assert Step(s2, GotPingresp) == s3;
    assert Step(s3, Tick(k)).sends == [0, k, 3 * k] by { TickIs(s3, k); }
    LateRunUnfolds(s0, s1, s2, s3, k);
  }

  lemma LateRunUnfolds(s0: State, s1: State, s2: State, s3: State, k: nat)
    requires Step(s0, Tick(k)) == s1 && Step(s1, Tick(k)) == s2 && Step(s2, GotPingresp) == s3
    requires Enabled(s0, Tick(k)) && Enabled(s1, Tick(k)) && Enabled(s2, GotPingresp) && Enabled(s3, Tick(k))
    ensures Possible(s0, LateRun(k)) && Run(s0, LateRun(k)) == Step(s3, Tick(k))
  {
    Unfold(s3, Tick(k), []);
    Unfold(s2, GotPingresp, [Tick(k)]);
    Unfold(s1, Tick(k), [GotPingresp, Tick(k)]);
    Unfold(s0, Tick(k), [Tick(k), GotPingresp, Tick(k)]);
    assert [Tick(k)] + [] == [Tick(k)];
    assert [GotPingresp] + [Tick(k)] == [GotPingresp, Tick(k)];
    assert [Tick(k)] + [GotPingresp, Tick(k)] == [Tick(k), GotPingresp, Tick(k)];
    assert [Tick(k)] + [Tick(k), GotPingresp, Tick(k)] == LateRun(k);
  }

  lemma Unfold(s: State, e: Event, es: seq<Event>)
    ensures Run(s, [e] + es) == Run(Step(s, e), es)
    ensures Possible(s, [e] + es) == (Enabled(s, e) && Possible(Step(s, e), es))
  {
    assert ([e] + es)[1..] == es;
  }

  /** With a response timeout above the period the client can fall silent for
      good: packets that keep arriving hold off the only timer left running. */
  lemma {:induction false} SilenceUnbounded(k: nat, r: nat, n: nat) returns (es: seq<Event>)
    requires 1 < k < r
    ensures Possible(Start(k, r), es)
    ensures var s := Run(Start(k, r), es);
            && s.up && s.sends == [0, k] && s.now == 2 * k + n
            && s.ping.Off? && s.resp.Off? && s.keepAlive == k
  {
    if n == 0 {
      es := [Tick(k), Tick(k), GotPingresp];
      DeadPing(k, r);
    } else {
      var start := SilenceUnbounded(k, r, n - 1);
      var s := Run(Start(k, r), start);
      es := start + [GotOther] + [Tick(1)];
      Extend(Start(k, r), start, GotOther);
      var t := Step(s, GotOther);
      Extend(Start(k, r), start + [GotOther], Tick(1));
      TickIs(t, 1);
    }
  }

  lemma DeadPing(k: nat, r: nat)
    requires 1 < k < r
    ensures var es := [Tick(k), Tick(k), GotPingresp];
            && Possible(Start(k, r), es)
            && Run(Start(k, r), es) == State(k, r, 2 * k, Off, In(k), Off, true, [0, k], [2 * k])
  {
    var s0 := Start(k, r);
    var s1 := State(k, r, k, In(k), Off, In(r), true, [0, k], []);
    var s2 := State(k, r, 2 * k, Off, Off, In(r - k), true, [0, k], []);
    assert Step(s0, Tick(k)) == s1 by { TickIs(s0, k); }
    assert Step(s1, Tick(k)) == s2 by { TickIs(s1, k); }
    Unfold(s2, GotPingresp, []);
    Unfold(s1, Tick(k), [GotPingresp]);
    Unfold(s0, Tick(k), [Tick(k), GotPingresp]);
    assert [GotPingresp] + [] == [GotPingresp];
    assert [Tick(k)] + [GotPingresp] == [Tick(k), GotPingresp];
    assert [Tick(k)] + [Tick(k), GotPingresp] == [Tick(k), Tick(k), GotPingresp];
  }

  lemma {:induction false} Extend(s: State, es: seq<Event>, e: Event)
    requires Possible(s, es) && Enabled(Run(s, es), e)
    ensures Possible(s, es + [e]) && Run(s, es + [e]) == Step(Run(s, es), e)
    decreases |es|
  {
    if es == [] {
      assert [] + [e] == [e] && [e][1..] == [];
    } else {
      Extend(Step(s, es[0]), es[1..], e);
      assert (es + [e])[1..] == es[1..] + [e];
    }
  }

  // ----- the operation on the timer table

  /** The callbacks that belong to the keep-alive operation. */
  function Mine(calls: seq<nat>): seq<nat> {
    if calls == [] then [] else
      var id := calls[|calls| - 1];
      if id <= RESP then Mine(calls[..|calls| - 1]) + [id] else Mine(calls[..|calls| - 1])
  }

  lemma {:induction false} OthersIgnored(s: State, calls: seq<nat>)
    ensures DispatchAll(s, calls) == DispatchAll(s, Mine(calls))
  {
    if calls != [] {
      var n := |calls| - 1;
      OthersIgnored(s, calls[..n]);
      assert (Mine(calls[..n]) + [calls[n]])[..|Mine(calls[..n])|] == Mine(calls[..n]);
    }
  }

  ghost predicate Owned(ts: seq<Timer>, i: nat, id: nat) {
    i < |ts| && ts[i].taken && !ts[i].suspended && (ts[i].callback == None || ts[i].callback == Call(id))
  }

  /** The three slots, in the order they were handed out; nobody else uses their callbacks. */
  ghost predicate Slots(ts: seq<Timer>, p: nat, q: nat, r: nat) {
    && p < q < r && Owned(ts, p, PING) && Owned(ts, q, RECV) && Owned(ts, r, RESP)
    && (forall i :: 0 <= i < |ts| && i != p && i != q && i != r && ts[i].callback.Call? ==> ts[i].callback.id > RESP)
  }

  function RemOf(t: Timer): Rem {
    if t.callback.None? then Off else In(t.timeoutMs)
  }

  /** Our callbacks among the first `n` slots, in the order ping, reception, response. */
  function Ours(ts: seq<Timer>, p: nat, q: nat, r: nat, ms: nat, n: nat): seq<nat>
    requires p < |ts| && q < |ts| && r < |ts|
  {
    One(p < n && Expires(ts[p], ms), PING) + One(q < n && Expires(ts[q], ms), RECV)
    + One(r < n && Expires(ts[r], ms), RESP)
  }

  lemma OursStep(ts: seq<Timer>, p: nat, q: nat, r: nat, ms: nat, n: nat)
    requires Slots(ts, p, q, r) && n < |ts|
    ensures Ours(ts, p, q, r, ms, n + 1) ==
            if Expires(ts[n], ms) && ts[n].callback.id <= RESP then Ours(ts, p, q, r, ms, n) + [ts[n].callback.id]
            else Ours(ts, p, q, r, ms, n)
  {
  }

  lemma {:induction false} MineAreOurs(ts: seq<Timer>, p: nat, q: nat, r: nat, ms: nat, n: nat)
    requires Slots(ts, p, q, r) && n <= |ts|
    ensures Mine(Fired(ts[..n], ms)) == Ours(ts, p, q, r, ms, n)
  {
    if n > 0 {
      MineAreOurs(ts, p, q, r, ms, n - 1);
      OursStep(ts, p, q, r, ms, n - 1);
      assert ts[..n][..n - 1] == ts[..n - 1];
      if Expires(ts[n - 1], ms) {
        PushMine(Fired(ts[..n - 1], ms), ts[n - 1].callback.id);
      }
    }
  }

  /** Of the callbacks of a tick, ours come in the order ping, reception, response. */
  lemma MineInOrder(ts: seq<Timer>, p: nat, q: nat, r: nat, ms: nat)
    requires Slots(ts, p, q, r)
    ensures Mine(Fired(ts, ms)) ==
            One(Expires(ts[p], ms), PING) + One(Expires(ts[q], ms), RECV) + One(Expires(ts[r], ms), RESP)
  {
    MineAreOurs(ts, p, q, r, ms, |ts|);
    assert ts[..|ts|] == ts;
  }

  lemma PushMine(calls: seq<nat>, id: nat)
    ensures Mine(calls + [id]) == if id <= RESP then Mine(calls) + [id] else Mine(calls)
  {
    assert (calls + [id])[..|calls|] == calls;
  }

  /** A tick no longer than the wait the table announces is one the timing results allow. */
  lemma WaitAllowsTick(ts: seq<Timer>, p: nat, q: nat, r: nat, w: nat, s: State)
    requires Slots(ts, p, q, r) && NotBefore(ts, w) && s.up
    requires s.ping == RemOf(ts[p]) && s.recv == RemOf(ts[q]) && s.resp == RemOf(ts[r])
    ensures forall ms: nat :: ms <= w ==> Enabled(s, Tick(ms))
  {
    assert s.ping.In? ==> Active(ts[p]);
    assert s.recv.In? ==> Active(ts[q]);
    assert s.resp.In? ==> Active(ts[r]);
  }

  class KeepAliveOp {
    const mgr: TimerMgr
    const pingTimer: nat
    const recvTimer: nat
    const respTimer: nat
    const keepAliveMs: nat
    const responseTimeoutMs: nat
    var up: bool
    ghost var now: nat
    ghost var sends: seq<nat>
    ghost var received: seq<nat>

    ghost predicate Valid()
      reads this, mgr
    {
      mgr.Valid() && Slots(mgr.timers, pingTimer, recvTimer, respTimer)
    }

    ghost function View(): State
      requires Valid()
      reads this, mgr
    {
      var ts := mgr.timers;
      State(keepAliveMs, responseTimeoutMs, now, RemOf(ts[pingTimer]), RemOf(ts[recvTimer]), RemOf(ts[respTimer]),
            up, sends, received)
    }

    constructor (mgr: TimerMgr, keepAliveMs: nat, responseTimeoutMs: nat)
      requires mgr.Valid() && mgr.allocatedTimers + 3 <= mgr.maxTimers
      requires forall i :: 0 <= i < |mgr.timers| && mgr.timers[i].callback.Call? ==> mgr.timers[i].callback.id > RESP
      modifies mgr
      ensures Valid() && this.mgr == mgr && View() == Start(keepAliveMs, responseTimeoutMs)
    {
      this.mgr := mgr;
      this.keepAliveMs := keepAliveMs;
      this.responseTimeoutMs := responseTimeoutMs;
      up, now, sends, received := true, 0, [0], [];
      var ok1, p := mgr.AllocTimer();
      var ok2, q := mgr.AllocTimer();
      var ok3, r := mgr.AllocTimer();
      pingTimer, recvTimer, respTimer := p, q, r;
      new;
      RestartPingTimer();
    }

    method RestartPingTimer()
      requires Valid()
      modifies mgr
      ensures Valid() && View() == old(View()).(ping := Armed(old(View()).ping, keepAliveMs))
    {
      if keepAliveMs == 0 {
        return;
      }
      mgr.TimerWait(pingTimer, keepAliveMs, PING);
    }

    method RestartRecvTimer()
      requires Valid()
      modifies mgr
      ensures Valid() && View() == old(View()).(recv := Armed(old(View()).recv, keepAliveMs))
    {
      if keepAliveMs == 0 {
        return;
      }
      mgr.TimerWait(recvTimer, keepAliveMs, RECV);
    }

    /** The client sends a packet and tells the operation. */
    method SendMessage()
      requires Valid()
      modifies this, mgr
      ensures Valid() && View() == Send(old(View()))
    {
      sends := sends + [now];
      RestartPingTimer();
    }

    method HandlePingresp()
      requires Valid()
      modifies this, mgr
      ensures Valid() && View() == Step(old(View()), GotPingresp)
    {
      mgr.TimerCancel(respTimer);
      received := received + [now];
      RestartRecvTimer();
    }

    method HandleOther()
      requires Valid()
      modifies this, mgr
      ensures Valid() && View() == Step(old(View()), GotOther)
    {
      received := received + [now];
      RestartRecvTimer();
    }

    method SendPingMessage()
      requires Valid()
      modifies this, mgr
      ensures Valid() && View() == SendPing(old(View()))
    {
      if mgr.timers[respTimer].callback != None {
        return;
      }
      SendMessage();
      mgr.TimerWait(respTimer, responseTimeoutMs, RESP);
    }

    method PingTimeoutInternal()
      requires Valid()
      modifies this, mgr
      ensures Valid() && View() == PingTimeout(old(View()))
    {
      SendMessage();
      up := false;
    }

    /** Time passes; expired timers call back in slot order. */
    method TickMs(ms: nat)
      requires Valid()
      modifies this, mgr
      ensures Valid() && View() == Step(old(View()), Tick(ms))
    {
      ghost var s := View();
      ghost var ts := mgr.timers;
      var calls := mgr.Tick(ms);
      now := now + ms;
      ghost var d := Elapsed(s, ms);
      assert View() == d;
      CallBack(calls);
      OthersIgnored(d, calls);
      MineInOrder(ts, pingTimer, recvTimer, respTimer, ms);
    }

    method CallBack(calls: seq<nat>)
      requires Valid()
      modifies this, mgr
      ensures Valid() && View() == DispatchAll(old(View()), calls)
    {
      var i := 0;
      assert calls[..0] == [];
      while i < |calls|
        invariant 0 <= i <= |calls| && Valid()
        invariant View() == DispatchAll(old(View()), calls[..i])
      {
        assert calls[..i + 1][..i] == calls[..i];
        if calls[i] == PING || calls[i] == RECV {
          SendPingMessage();
        } else if calls[i] == RESP {
          PingTimeoutInternal();
        }
        i := i + 1;
      }
      assert calls[..i] == calls;
    }
  }
}
