/** Incremental framing: the loop that takes packets off the front of the input,
    and the reader that carries an incomplete tail over to the next read.
    A packet is a header byte, its length as a variable byte integer (section
    1.5.5 of MQTT Version 5.0) and that many bytes of body. */
module Framing {

  type Byte = b: nat | b < 256

  datatype Frame = Frame(header: Byte, body: seq<Byte>)

  /** What the broker and the message definitions decide: the largest packet the
      client accepts (0 for no limit), which header bytes name a packet, and
      which bodies parse. */
  datatype Rules = Rules(maxPacket: nat, known: Byte -> bool, parses: (Byte, seq<Byte>) -> bool)

  /** The client never announces a maximum below the largest possible prefix. */
  predicate ValidRules(r: Rules) {
    r.maxPacket == 0 || r.maxPacket >= 5
  }

  // ----- variable byte integers

  datatype Length = Short | Malformed | Length(value: nat, used: nat)

  function Weighted(digit: nat, weight: nat): nat {
    digit * weight
  }

  /** Reads at most `left` bytes, the next one worth `weight`. */
  function ReadLength(data: seq<Byte>, left: nat, weight: nat): (r: Length)
    ensures r.Length? ==> 1 <= r.used <= |data| && r.used <= left
    decreases |data|
  {
    if left == 0 then Malformed
    else if data == [] then Short
    else if data[0] < 128 then Length(Weighted(data[0], weight), 1)
    else
      match ReadLength(data[1..], left - 1, weight * 128)
      case Length(v, used) => Length(Weighted(data[0] - 128, weight) + v, used + 1)
      case other => other
  }

  /** Bytes the value takes when written. */
  function WrittenSize(value: nat): (n: nat)
    ensures 1 <= n <= 4
  {
    if value < 128 then 1 else if value < 16384 then 2 else if value < 2097152 then 3 else 4
  }

  // ----- the first packet of the input

  datatype First = NeedMore | Bad | Got(frame: Frame, used: nat)

  function ReadFirst(rules: Rules, data: seq<Byte>): (r: First)
    ensures r.Got? ==> 2 <= r.used <= |data|
  {
    if |data| <= 1 then NeedMore else
      match ReadLength(data[1..], 4, 1)
      case Short => NeedMore
      case Malformed => Bad
      case Length(value, used) =>
        if rules.maxPacket > 0 && rules.maxPacket < 1 + WrittenSize(value) + value then Bad
        else if !rules.known(data[0]) then Bad
        else if |data| < 1 + used + value then NeedMore
        else
          var body := data[1 + used..1 + used + value];
          if rules.parses(data[0], body) then Got(Frame(data[0], body), 1 + used + value) else Bad
  }

  /** The whole input: the packets at its front, the unconsumed rest, and
      whether the rest starts with something that is not a packet. */
  datatype Parsed = Parsed(frames: seq<Frame>, rest: seq<Byte>, failed: bool)

  function Parse(rules: Rules, data: seq<Byte>): Parsed
    decreases |data|
  {
    match ReadFirst(rules, data)
    case NeedMore => Parsed([], data, false)
    case Bad => Parsed([], data, true)
    case Got(frame, used) =>
      var p := Parse(rules, data[used..]);
      Parsed([frame] + p.frames, p.rest, p.failed)
  }

  /** `done` has been taken off the input that parses to `whole`; `rem` remains. */
  ghost predicate Progress(rules: Rules, whole: Parsed, done: seq<Frame>, rem: seq<Byte>) {
    var q := Parse(rules, rem);
    whole.frames == done + q.frames && whole.rest == q.rest && whole.failed == q.failed
  }

  lemma ProgressBranch(rules: Rules, whole: Parsed, done: seq<Frame>, rem: seq<Byte>)
    requires Progress(rules, whole, done, rem)
    ensures var first := ReadFirst(rules, rem);
            if first.Got? then Progress(rules, whole, done + [first.frame], rem[first.used..])
            else whole == Parsed(done, rem, first.Bad?)
  { }

  lemma ProgressEnd(rules: Rules, whole: Parsed, done: seq<Frame>)
    requires Progress(rules, whole, done, [])
    ensures whole == Parsed(done, [], false)
  { }

  lemma TailOfTail(data: seq<Byte>, i: nat, j: nat)
    requires i + j <= |data|
    ensures data[i..][j..] == data[i + j..]
  { }

  // ----- more input never changes what was decided

  lemma {:induction false} MoreForLength(data: seq<Byte>, more: seq<Byte>, left: nat, weight: nat)
    ensures !ReadLength(data, left, weight).Short? ==>
            ReadLength(data + more, left, weight) == ReadLength(data, left, weight)
    decreases left
  {
    if left > 0 && data != [] && data[0] >= 128 {
      MoreForLength(data[1..], more, left - 1, weight * 128);
      assert (data + more)[1..] == data[1..] + more;
    }
  }

  lemma MoreForFirst(rules: Rules, data: seq<Byte>, more: seq<Byte>)
    ensures !ReadFirst(rules, data).NeedMore? ==> ReadFirst(rules, data + more) == ReadFirst(rules, data)
  {
    if |data| > 1 {
      MoreForLength(data[1..], more, 4, 1);
      assert (data + more)[1..] == data[1..] + more;
      match ReadLength(data[1..], 4, 1)
      case Length(value, used) =>
        if 1 + used + value <= |data| {
          assert (data + more)[1 + used..1 + used + value] == data[1 + used..1 + used + value];
        }
      case _ =>
    }
  }

  lemma Assoc<T>(a: seq<T>, b: seq<T>, c: seq<T>)
    ensures a + (b + c) == a + b + c
  {
  }

  /** Parsing in two pieces: the packets of the first piece, then those of its
      rest joined with the second; a failure is final. */
  lemma {:induction false} ParseAppend(rules: Rules, data: seq<Byte>, more: seq<Byte>)
    ensures var p := Parse(rules, data); var whole := Parse(rules, data + more);
            if p.failed then whole.failed && whole.frames == p.frames
            else var q := Parse(rules, p.rest + more);
                 whole == Parsed(p.frames + q.frames, q.rest, q.failed)
    decreases |data|
  {
    match ReadFirst(rules, data)
    case NeedMore =>
      var q := Parse(rules, data + more);
      assert [] + q.frames == q.frames;
    case Bad =>
      MoreForFirst(rules, data, more);
    case Got(frame, used) =>
      MoreForFirst(rules, data, more);
      assert (data + more)[used..] == data[used..] + more;
      ParseAppend(rules, data[used..], more);
      var p := Parse(rules, data[used..]);
      var q := Parse(rules, p.rest + more);
      Assoc([frame], p.frames, q.frames);
  }

  /** What is left over is a tail of the input and starts no complete packet. */
  lemma {:induction false} RestIsIncompleteTail(rules: Rules, data: seq<Byte>)
    ensures var p := Parse(rules, data);
            && |p.rest| <= |data| && p.rest == data[|data| - |p.rest|..]
            && (if p.failed then ReadFirst(rules, p.rest).Bad? else ReadFirst(rules, p.rest).NeedMore?)
    decreases |data|
  {
    match ReadFirst(rules, data)
    case Got(frame, used) => RestIsIncompleteTail(rules, data[used..]);
    case _ =>
  }

  // ----- packets survive the trip

  function WriteLength(value: nat): (r: seq<Byte>)
    decreases value
  {
    if value < 128 then [value] else [128 + value % 128] + WriteLength(value / 128)
  }

  function Power(k: nat): nat {
    if k == 0 then 1 else 128 * Power(k - 1)
  }

  function Write(f: Frame): seq<Byte> {
    [f.header] + WriteLength(|f.body|) + f.body
  }

  lemma {:induction false} LengthRoundTrip(value: nat, left: nat, weight: nat, more: seq<Byte>)
    requires left > 0 && value < Power(left)
    ensures ReadLength(WriteLength(value) + more, left, weight) == Length(value * weight, |WriteLength(value)|)
    decreases left
  {
    var w := WriteLength(value) + more;
    if value >= 128 {
      var q := value / 128;
      assert left > 1 by {
        assert Power(1) == 128 * Power(0);
      }
      assert w[1..] == WriteLength(q) + more;
      LengthRoundTrip(q, left - 1, weight * 128, more);
      ScaleSplit(value, weight);
    }
  }

  lemma ScaleSplit(value: nat, weight: nat)
    ensures (value % 128) * weight + (value / 128) * (weight * 128) == value * weight
  { }

  lemma {:induction false} WrittenSizeIs(value: nat)
    requires value < 268435456
    ensures |WriteLength(value)| == WrittenSize(value)
  {
    if value >= 128 {
      WrittenSizeIs(value / 128);
    }
  }

  function WriteAll(frames: seq<Frame>): seq<Byte> {
    if frames == [] then [] else Write(frames[0]) + WriteAll(frames[1..])
  }

  /** A packet the client may be sent. */
  ghost predicate Acceptable(rules: Rules, f: Frame) {
    && |f.body| < 268435456
    && rules.known(f.header) && rules.parses(f.header, f.body)
    && (rules.maxPacket == 0 || |Write(f)| <= rules.maxPacket)
  }

  lemma FirstRoundTrip(rules: Rules, f: Frame, more: seq<Byte>)
    requires Acceptable(rules, f)
    ensures ReadFirst(rules, Write(f) + more) == Got(f, |Write(f)|)
  {
    var n := WriteLength(|f.body|);
    var data := Write(f) + more;
    assert Power(1) == 128 && Power(2) == 16384 && Power(3) == 2097152 && Power(4) == 268435456;
    assert data[1..] == n + (f.body + more);
    LengthRoundTrip(|f.body|, 4, 1, f.body + more);
    WrittenSizeIs(|f.body|);
    assert data[1 + |n|..1 + |n| + |f.body|] == f.body;
  }

  /** A stream of acceptable packets is parsed back into exactly those packets. */
  lemma {:induction false} StreamRoundTrip(rules: Rules, frames: seq<Frame>)
    requires forall i :: 0 <= i < |frames| ==> Acceptable(rules, frames[i])
    ensures Parse(rules, WriteAll(frames)) == Parsed(frames, [], false)
  {
    if frames != [] {
      var f, rest := frames[0], WriteAll(frames[1..]);
      FirstRoundTrip(rules, f, rest);
      assert (Write(f) + rest)[|Write(f)|..] == rest;
      StreamRoundTrip(rules, frames[1..]);
    }
  }

  // ----- exactly what is refused, said on the bytes

  /** A complete length field: every byte but the last has its top bit set. */
  ghost predicate IsLengthField(bs: seq<Byte>) {
    && bs != [] && bs[|bs| - 1] < 128
    && forall i :: 0 <= i < |bs| - 1 ==> bs[i] >= 128
  }

  /** Seven bits per byte, the first byte worth least. */
  function FieldValue(bs: seq<Byte>): nat {
    if bs == [] then 0 else bs[0] % 128 + 128 * FieldValue(bs[1..])
  }

  ghost predicate AllContinue(bs: seq<Byte>, n: nat) {
    n <= |bs| && forall i :: 0 <= i < n ==> bs[i] >= 128
  }

  lemma FieldCons(b: Byte, data: seq<Byte>, u: nat, weight: nat)
    requires data != [] && data[0] == b && b >= 128 && u <= |data| - 1
    ensures FieldValue(data[..u + 1]) == (b - 128) + 128 * FieldValue(data[1..][..u])
    ensures IsLengthField(data[1..][..u]) ==> IsLengthField(data[..u + 1])
  {
    assert data[..u + 1][1..] == data[1..][..u];
    var bs, tail := data[..u + 1], data[1..][..u];
    assert forall i :: 0 < i < |bs| ==> bs[i] == tail[i - 1];
  }

  lemma Distribute(b: nat, v: nat, weight: nat)
    ensures b * weight + v * (weight * 128) == (b + 128 * v) * weight
  {
  }

  /** What reading a length field comes to. */
  lemma {:induction false} ReadLengthIs(data: seq<Byte>, left: nat, weight: nat)
    ensures match ReadLength(data, left, weight)
            case Length(v, u) => u <= left && u <= |data| && IsLengthField(data[..u]) && v == FieldValue(data[..u]) * weight
            case Malformed => AllContinue(data, left)
            case Short => |data| < left && AllContinue(data, |data|)
    decreases left
  {
    if left > 0 && data != [] {
      if data[0] < 128 {
        assert data[..1] == [data[0]] && [data[0]][1..] == [];
      } else {
        ReadLengthIs(data[1..], left - 1, weight * 128);
        match ReadLength(data[1..], left - 1, weight * 128)
        case Length(v, u) =>
          FieldCons(data[0], data, u, weight);
          Distribute(data[0] - 128, FieldValue(data[1..][..u]), weight);
        case _ =>
          assert forall i :: 0 < i < |data| ==> data[i] == data[1..][i - 1];
      }
    }
  }

  /** The first `1 + n` bytes are a header and a complete length field. */
  ghost predicate HasPrefix(data: seq<Byte>, n: nat) {
    1 <= n <= 4 && 1 + n <= |data| && IsLengthField(data[1..1 + n])
  }

  /** The announced packet, its length written as briefly as possible, is too large. */
  predicate TooLarge(rules: Rules, v: nat) {
    rules.maxPacket > 0 && rules.maxPacket < 1 + |WriteLength(v)| + v
  }

  /** The bytes start with something the client must not take: a length that still
      continues in its fourth byte, too large a packet, an unknown header, or a
      complete packet whose body does not parse. */
  ghost predicate Refused(rules: Rules, data: seq<Byte>) {
    || (|data| >= 5 && AllContinue(data[1..], 4))
    || exists n :: HasPrefix(data, n) && RefusedAt(rules, data, n)
  }

  ghost predicate RefusedAt(rules: Rules, data: seq<Byte>, n: nat)
    requires HasPrefix(data, n)
  {
    var v := FieldValue(data[1..1 + n]);
    || TooLarge(rules, v) || !rules.known(data[0])
    || (1 + n + v <= |data| && !rules.parses(data[0], data[1 + n..1 + n + v]))
  }

  lemma OnePrefix(data: seq<Byte>, m: nat, n: nat)
    requires HasPrefix(data, m) && HasPrefix(data, n)
    ensures m == n
  {
    PrefixBytes(data, m);
    PrefixBytes(data, n);
  }

  lemma PrefixBytes(data: seq<Byte>, n: nat)
    requires HasPrefix(data, n)
    ensures data[n] < 128 && data[1..][n - 1] == data[n]
    ensures forall i :: 1 <= i < n ==> data[i] >= 128
  {
    assert data[1..1 + n][n - 1] == data[n];
    forall i | 1 <= i < n ensures data[i] >= 128 {
      assert data[1..1 + n][i - 1] == data[i];
    }
  }

  lemma {:induction false} FieldBound(bs: seq<Byte>)
    ensures FieldValue(bs) < Power(|bs|)
  {
    if bs != [] {
      FieldBound(bs[1..]);
    }
  }

  lemma PrefixSmall(data: seq<Byte>, n: nat)
    requires HasPrefix(data, n)
    ensures FieldValue(data[1..1 + n]) < 268435456
  {
    FieldBound(data[1..1 + n]);
    assert Power(1) == 128 && Power(2) == 16384 && Power(3) == 2097152 && Power(4) == 268435456;
  }

  lemma PrefixRead(rules: Rules, data: seq<Byte>, n: nat)
    requires HasPrefix(data, n)
    ensures ReadLength(data[1..], 4, 1) == Length(FieldValue(data[1..1 + n]), n)
  {
    PrefixBytes(data, n);
    ReadLengthIs(data[1..], 4, 1);
    match ReadLength(data[1..], 4, 1)
    case Length(v, u) =>
      assert data[1..][..u] == data[1..1 + u];
      OnePrefix(data, u, n);
    case _ =>
  }

  lemma RefusedRead(rules: Rules, data: seq<Byte>, n: nat)
    requires HasPrefix(data, n)
    ensures ReadFirst(rules, data).Bad? <==> RefusedAt(rules, data, n)
  {
    PrefixRead(rules, data, n);
    PrefixSmall(data, n);
    WrittenSizeIs(FieldValue(data[1..1 + n]));
  }

  lemma NoPrefix(data: seq<Byte>)
    requires |data| >= 2 && !ReadLength(data[1..], 4, 1).Length?
    ensures forall n :: !HasPrefix(data, n)
    ensures ReadLength(data[1..], 4, 1).Malformed? <==> |data| >= 5 && AllContinue(data[1..], 4)
  {
    forall n | HasPrefix(data, n) ensures data[1..][n - 1] < 128 {
      PrefixBytes(data, n);
    }
    ReadLengthIs(data[1..], 4, 1);
  }

  lemma RefusedIff(rules: Rules, data: seq<Byte>)
    ensures ReadFirst(rules, data).Bad? <==> Refused(rules, data)
  {
    if |data| >= 2 {
      if ReadLength(data[1..], 4, 1).Length? {
        var n := ReadLength(data[1..], 4, 1).used;
        ReadLengthIs(data[1..], 4, 1);
        assert data[1..][..n] == data[1..1 + n];
        RefusedRead(rules, data, n);
        PrefixBytes(data, n);
        forall m | HasPrefix(data, m) ensures m == n {
          OnePrefix(data, m, n);
        }
      } else {
        NoPrefix(data);
      }
    }
  }

  /** Parsing fails exactly when what follows the last packet taken must be refused. */
  lemma FailsIff(rules: Rules, data: seq<Byte>)
    ensures Parse(rules, data).failed <==> Refused(rules, Parse(rules, data).rest)
  {
    RestIsIncompleteTail(rules, data);
    RefusedIff(rules, Parse(rules, data).rest);
  }

  /** A packet is taken if and only if it is acceptable; any other ends the connection
      with nothing dispatched. */
  lemma TakenIff(rules: Rules, f: Frame, more: seq<Byte>)
    requires |f.body| < 268435456
    ensures if Acceptable(rules, f) then [f] <= Parse(rules, Write(f) + more).frames
            else Parse(rules, Write(f) + more) == Parsed([], Write(f) + more, true)
  {
    if Acceptable(rules, f) {
      FirstRoundTrip(rules, f, more);
    } else {
      UnacceptableRefused(rules, f, more);
    }
  }

  lemma UnacceptableRefused(rules: Rules, f: Frame, more: seq<Byte>)
    requires |f.body| < 268435456 && !Acceptable(rules, f)
    ensures ReadFirst(rules, Write(f) + more).Bad?
  {
    var n := WriteLength(|f.body|);
    var data := Write(f) + more;
    assert Power(1) == 128 && Power(2) == 16384 && Power(3) == 2097152 && Power(4) == 268435456;
    assert data[1..] == n + (f.body + more);
    LengthRoundTrip(|f.body|, 4, 1, f.body + more);
    WrittenSizeIs(|f.body|);
    assert data[1 + |n|..1 + |n| + |f.body|] == f.body;
  }

  /** A length field whose fourth byte still continues ends the connection. */
  lemma EndlessLengthFails(rules: Rules, data: seq<Byte>)
    requires |data| >= 5 && forall i :: 1 <= i < 5 ==> data[i] >= 128
    ensures Parse(rules, data) == Parsed([], data, true)
  {
    assert forall i :: 0 <= i < 4 ==> data[1..][i] == data[i + 1];
    RefusedIff(rules, data);
  }

  // ----- the client's receive loop

  /** The receiving end: frames dispatched so far, and whether a protocol error
      ended the connection. */
  class Receiver {
    const rules: Rules
    var dispatched: seq<Frame>
    var failed: bool

    constructor (rules: Rules)
      ensures this.rules == rules && dispatched == [] && !failed
    {
      this.rules := rules;
      dispatched, failed := [], false;
    }

    /** The checks made before and while reading one packet. */
    method FirstMessage(rem: seq<Byte>) returns (first: First)
      requires ValidRules(rules)
      ensures first == ReadFirst(rules, rem)
    {
      if |rem| <= 1 {
        return NeedMore;
      }
      var size := ReadLength(rem[1..], 4, 1);
      if size.Short? {
        return NeedMore;
      }
      if size.Malformed? {
        return Bad;
      }
      if rules.maxPacket > 0 {
        var prefixSize := 1 + WrittenSize(size.value);
        var maxAllowed := rules.maxPacket - prefixSize;
        if maxAllowed < size.value {
          return Bad;
        }
      }
      if !rules.known(rem[0]) {
        return Bad;
      }
      var total := 1 + size.used + size.value;
      if |rem| < total {
        return NeedMore;
      }
      var body := rem[1 + size.used..total];
      return if rules.parses(rem[0], body) then Got(Frame(rem[0], body), total) else Bad;
    }

    /** Reads one packet and hands it to the client: progress towards `goal`, or the
        end of it. */
    method DispatchFirst(rem: seq<Byte>, ghost goal: Parsed) returns (first: First)
      requires ValidRules(rules) && !failed && Progress(rules, goal, dispatched, rem)
      modifies this
      ensures first.Got? ==> 0 < first.used <= |rem| && !failed && Progress(rules, goal, dispatched, rem[first.used..])
      ensures !first.Got? ==> goal == Parsed(dispatched, rem, failed)
      ensures failed == first.Bad?
    {
      ProgressBranch(rules, goal, dispatched, rem);
      first := FirstMessage(rem);
      if first.Got? {
        dispatched := dispatched + [first.frame];
      } else if first.Bad? {
        failed := true;
      }
    }

    /** The loop: takes packets off the front until none is left or one is refused. */
    method TakePackets(data: seq<Byte>, ghost goal: Parsed) returns (consumed: nat)
      requires ValidRules(rules) && !failed && Progress(rules, goal, dispatched, data)
      modifies this
      ensures goal.frames == dispatched && goal.failed == failed && consumed <= |data|
      ensures data[consumed..] == if failed then [] else goal.rest
    {
      consumed := 0;
      ghost var rem := data;
      while consumed < |data|
        invariant 0 <= consumed <= |data| && !failed && rem == data[consumed..]
        invariant Progress(rules, goal, dispatched, rem)
      {
        var first := DispatchFirst(data[consumed..], goal);
        if !first.Got? {
          if first.Bad? {
            consumed := |data|;
          }
          return;
        }
        TailOfTail(data, consumed, first.used);
        rem := rem[first.used..];
        consumed := consumed + first.used;
      }
      ProgressEnd(rules, goal, dispatched);
    }

    /** Takes packets off the front of `data`; returns how many bytes are used up
        (all of them on a protocol error). */
    method ProcessData(data: seq<Byte>) returns (consumed: nat)
      requires ValidRules(rules) && !failed
      modifies this
      ensures var p := Parse(rules, data);
              && dispatched == old(dispatched) + p.frames
              && failed == p.failed
              && consumed <= |data|
              && data[consumed..] == if p.failed then [] else p.rest
    {
      ghost var p := Parse(rules, data);
      consumed := TakePackets(data, Parsed(dispatched + p.frames, p.rest, p.failed));
    }
  }

  // ----- the reader

  class Session {
    const client: Receiver
    var buf: seq<Byte>

    constructor (rules: Rules)
      ensures client.rules == rules && client.dispatched == [] && !client.failed && buf == []
      ensures fresh(client)
    {
      client := new Receiver(rules);
      buf := [];
    }

    /** The carry-over buffer and the frames so far are those of the whole stream read. */
    ghost predicate Tracks(stream: seq<Byte>)
      reads this, client
    {
      var p := Parse(client.rules, stream);
      && client.dispatched == p.frames
      && client.failed == p.failed
      && (!p.failed ==> buf == p.rest)
    }

    /** One read of the socket. */
    method OnRead(input: seq<Byte>, ghost stream: seq<Byte>)
      requires ValidRules(client.rules) && Tracks(stream) && !client.failed
      modifies this, client
      ensures Tracks(stream + input)
    {
      ParseAppend(client.rules, stream, input);
      var data := input;
      if buf != [] {
        buf := buf + input;
        data := buf;
      }
      assert data == old(buf) + input;
      var consumed := client.ProcessData(data);
      if |data| <= consumed {
        buf := [];
      } else if buf != [] {
        buf := buf[consumed..];
      } else {
        buf := buf + input[consumed..];
      }
    }

    /** All the reads of a connection, however the stream is cut into chunks. */
    method ReadAll(chunks: seq<seq<Byte>>)
      requires ValidRules(client.rules) && !client.failed && client.dispatched == [] && buf == []
      modifies this, client
      ensures var p := Parse(client.rules, Joined(chunks));
              && client.dispatched == p.frames
              && client.failed == p.failed
              && (!p.failed ==> buf == p.rest)
    {
      var i := 0;
      assert chunks[..0] == [];
      while i < |chunks| && !client.failed
        invariant 0 <= i <= |chunks|
        invariant Tracks(Joined(chunks[..i]))
      {
        OnRead(chunks[i], Joined(chunks[..i]));
        assert chunks[..i + 1][..i] == chunks[..i];
        i := i + 1;
      }
      if client.failed {
        JoinedSplit(chunks, i);
        ParseAppend(client.rules, Joined(chunks[..i]), Joined(chunks[i..]));
      } else {
        assert chunks[..i] == chunks;
      }
    }
  }

  function Joined(chunks: seq<seq<Byte>>): seq<Byte> {
    if chunks == [] then [] else Joined(chunks[..|chunks| - 1]) + chunks[|chunks| - 1]
  }

  lemma {:induction false} JoinedSplit(chunks: seq<seq<Byte>>, i: nat)
    requires i <= |chunks|
    ensures Joined(chunks) == Joined(chunks[..i]) + Joined(chunks[i..])
    decreases |chunks|
  {
    if i == |chunks| {
      assert chunks[..i] == chunks && chunks[i..] == [];
    } else {
      var n := |chunks| - 1;
      JoinedSplit(chunks[..n], i);
      assert chunks[..n][..i] == chunks[..i];
      assert chunks[i..][..n - i] == chunks[..n][i..];
    }
  }
}
