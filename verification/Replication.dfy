/** The logical replication consumer: the three messages it reads and writes (Streaming Replication
    Protocol, in the Frontend/Backend Protocol chapter of the PostgreSQL documentation) and its
    acknowledgement loop. Positions are 64-bit; times are integers in nanoseconds. */
module Replication {
  import opened Names

  type Byte = x: int | 0 <= x < 256

  const Word := 0x1_0000_0000_0000_0000

  function Tag(c: char): Byte
    requires c < 256 as char
  {
    c as int
  }

  // ----- big-endian words

  function Power(n: nat): (r: int)
    ensures r >= 1
  {
    if n == 0 then 1 else 256 * Power(n - 1)
  }

  function FromBytes(s: seq<Byte>): (r: int)
    ensures 0 <= r < Power(|s|)
  {
    if s == [] then 0 else FromBytes(s[..|s| - 1]) * 256 + s[|s| - 1]
  }

  function ToBytes(v: int, n: nat): (r: seq<Byte>)
    ensures |r| == n
    decreases n
  {
    if n == 0 then [] else ToBytes(v / 256, n - 1) + [v % 256]
  }

  lemma {:induction false} WordRoundTrip(v: int, n: nat)
    requires 0 <= v < Power(n)
    ensures FromBytes(ToBytes(v, n)) == v
    decreases n
  {
    if n > 0 {
      WordRoundTrip(v / 256, n - 1);
      assert ToBytes(v, n)[..n - 1] == ToBytes(v / 256, n - 1);
    }
  }

  lemma EightBytes()
    ensures Power(8) == Word
  {
    assert Power(1) == 256 && Power(2) == 0x1_0000 && Power(3) == 0x100_0000 && Power(4) == 0x1_0000_0000;
    assert Power(5) == 0x100_0000_0000 && Power(6) == 0x1_0000_0000_0000 && Power(7) == 0x100_0000_0000_0000;
  }

  function Big(a: int, b: int, c: int, d: int, e: int, f: int, g: int, h: int): int {
    a * 0x100_0000_0000_0000 + b * 0x1_0000_0000_0000 + c * 0x100_0000_0000 + d * 0x1_0000_0000
    + e * 0x100_0000 + f * 0x1_0000 + g * 0x100 + h
  }

  /** The word of eight bytes, the most significant first. */
  function WordAt(b: seq<Byte>, i: nat): int
    requires i + 8 <= |b|
  {
    Big(b[i], b[i + 1], b[i + 2], b[i + 3], b[i + 4], b[i + 5], b[i + 6], b[i + 7])
  }

  lemma BytesShorter(s: seq<Byte>, n: nat)
    requires 0 < n <= |s|
    ensures FromBytes(s[..n]) == FromBytes(s[..n - 1]) * 256 + s[n - 1]
  {
    assert s[..n][..n - 1] == s[..n - 1];
  }

  lemma WordIs(b: seq<Byte>, i: nat)
    requires i + 8 <= |b|
    ensures FromBytes(b[i..i + 8]) == WordAt(b, i)
  {
    var s := b[i..i + 8];
    BytesShorter(s, 1);
    BytesShorter(s, 2);
    BytesShorter(s, 3);
    BytesShorter(s, 4);
    BytesShorter(s, 5);
    BytesShorter(s, 6);
    BytesShorter(s, 7);
    BytesShorter(s, 8);
    assert s[..8] == s && s[..0] == [];
  }

  lemma WordWritten(b: seq<Byte>, i: nat, v: int)
    requires i + 8 <= |b| && b[i..i + 8] == ToBytes(v, 8) && 0 <= v < Word
    ensures WordAt(b, i) == v
  {
    EightBytes();
    WordRoundTrip(v, 8);
    WordIs(b, i);
  }

  // ----- what the server sends

  datatype WalMessage = WalMessage(end: int, reply: bool)

  /** parseWALMessage: anything but XLogData and primary keepalive, or a truncated message, is not
      one. The end of XLogData is its start plus its payload, in 64 bits. */
  function Parse(data: seq<Byte>): (m: Option<WalMessage>)
    ensures m.Some? ==> 0 <= m.value.end < Word
    ensures m.None? <==>
      !(|data| >= 25 && data[0] == Tag('w')) && !(|data| >= 18 && data[0] == Tag('k'))
  {
    EightBytes();
    if |data| >= 25 && data[0] == Tag('w') then
      Some(WalMessage((FromBytes(data[1..9]) + (|data| - 25)) % Word, false))
    else if |data| >= 18 && data[0] == Tag('k') then
      Some(WalMessage(FromBytes(data[1..9]), data[17] != 0))
    else None
  }

  lemma ParsesFrom(data: seq<Byte>, word: int)
    requires |data| >= 18 && FromBytes(data[1..9]) == word
    ensures |data| >= 25 && data[0] == 119 ==>
      Parse(data) == Some(WalMessage((word + |data| - 25) % 0x1_0000_0000_0000_0000, false))
    ensures data[0] == 107 ==> Parse(data) == Some(WalMessage(word, data[17] != 0))
  {
  }

  /** The two messages: XLogData is tagged 119 and ends its payload past its start, modulo 2^64; a
      keepalive is tagged 107 and carries the end, and in its last byte whether a reply is wanted. */
  lemma ParsesWords(data: seq<Byte>)
    ensures |data| >= 25 && data[0] == 119 ==>
      Parse(data) == Some(WalMessage((WordAt(data, 1) + |data| - 25) % 0x1_0000_0000_0000_0000, false))
    ensures |data| >= 18 && data[0] == 107 ==> Parse(data) == Some(WalMessage(WordAt(data, 1), data[17] != 0))
  {
    if |data| >= 18 {
      WordIs(data, 1);
      ParsesFrom(data, WordAt(data, 1));
    }
  }

  function XLogData(start: int, walEnd: int, clock: int, payload: seq<Byte>): seq<Byte> {
    [Tag('w')] + ToBytes(start, 8) + ToBytes(walEnd, 8) + ToBytes(clock, 8) + payload
  }

  function Keepalive(walEnd: int, clock: int, reply: bool): seq<Byte> {
    [Tag('k')] + ToBytes(walEnd, 8) + ToBytes(clock, 8) + [if reply then 1 else 0]
  }

  /** The consumer reads what the protocol wrote; without wrap-around the end of XLogData is just
      past its last byte. */
  lemma {:induction false} ParsesXLogData(start: int, walEnd: int, clock: int, payload: seq<Byte>)
    requires 0 <= start < Word
    ensures Parse(XLogData(start, walEnd, clock, payload)) == Some(WalMessage((start + |payload|) % Word, false))
    ensures start + |payload| < Word ==>
      Parse(XLogData(start, walEnd, clock, payload)) == Some(WalMessage(start + |payload|, false))
  {
    EightBytes();
    WordRoundTrip(start, 8);
    XLogLayout(ToBytes(start, 8), ToBytes(walEnd, 8), ToBytes(clock, 8), payload);
    StartOf(ToBytes(start, 8), ToBytes(walEnd, 8) + ToBytes(clock, 8) + payload, start);
    WithoutWrap(start + |payload|);
  }

  lemma WithoutWrap(v: int)
    requires v >= 0
    ensures v < Word ==> v % Word == v
  {
  }

  lemma XLogLayout(a: seq<Byte>, b: seq<Byte>, c: seq<Byte>, d: seq<Byte>)
    ensures [Tag('w')] + a + b + c + d == [Tag('w')] + a + (b + c + d)
  {
  }

  lemma StartOf(word: seq<Byte>, rest: seq<Byte>, start: int)
    requires |word| == 8 && FromBytes(word) == start && |rest| >= 16
    ensures Parse([Tag('w')] + word + rest) == Some(WalMessage((start + |rest| - 16) % Word, false))
  {
    var data := [Tag('w')] + word + rest;
    assert data[1..9] == word && |data| == |rest| + 9;
  }

  lemma ParsesKeepalive(walEnd: int, clock: int, reply: bool)
    requires 0 <= walEnd < Word
    ensures Parse(Keepalive(walEnd, clock, reply)) == Some(WalMessage(walEnd, reply))
  {
    EightBytes();
    var data := Keepalive(walEnd, clock, reply);
    assert data[1..9] == ToBytes(walEnd, 8);
    assert data[17] == if reply then 1 else 0;
    WordRoundTrip(walEnd, 8);
  }

  // ----- what the consumer sends

  datatype Status = Status(write: int, flush: int, apply: int)

  function EncodeStatus(s: Status, clock: int): seq<Byte> {
    [Tag('r')] + ToBytes(s.write, 8) + ToBytes(s.flush, 8) + ToBytes(s.apply, 8) + ToBytes(clock % Word, 8) + [0]
  }

  /** A server's reading of a standby status update: positions, clock, and whether it asks for a
      reply. */
  function DecodeStatus(b: seq<Byte>): Option<(Status, int, bool)> {
    if |b| != 34 || b[0] != Tag('r') then None
    else Some((Status(FromBytes(b[1..9]), FromBytes(b[9..17]), FromBytes(b[17..25])), FromBytes(b[25..33]), b[33] != 0))
  }

  predicate StatusOk(s: Status) {
    0 <= s.write < Word && 0 <= s.flush < Word && 0 <= s.apply < Word
  }

  lemma StatusRoundTrip(s: Status, clock: int)
    requires StatusOk(s)
    ensures DecodeStatus(EncodeStatus(s, clock)) == Some((s, clock % Word, false))
  {
    EightBytes();
    var w, f, a, c := ToBytes(s.write, 8), ToBytes(s.flush, 8), ToBytes(s.apply, 8), ToBytes(clock % Word, 8);
    FieldsOf(w, f, a, c);
    WordRoundTrip(s.write, 8);
    WordRoundTrip(s.flush, 8);
    WordRoundTrip(s.apply, 8);
    WordRoundTrip(clock % Word, 8);
  }

  lemma FieldsOf(w: seq<Byte>, f: seq<Byte>, a: seq<Byte>, c: seq<Byte>)
    requires |w| == |f| == |a| == |c| == 8
    ensures var b := [Tag('r')] + w + f + a + c + [0];
      |b| == 34 && b[0] == Tag('r') && b[1..9] == w && b[9..17] == f && b[17..25] == a && b[25..33] == c && b[33] == 0
  {
  }

  /** The message a status is: its tag, the three positions and the clock as words, no reply wanted. */
  predicate IsStatus(b: seq<Byte>, s: Status, clock: int) {
    && |b| == 34 && b[0] == 114 && b[33] == 0
    && WordAt(b, 1) == s.write && WordAt(b, 9) == s.flush && WordAt(b, 17) == s.apply
    && WordAt(b, 25) == clock % 0x1_0000_0000_0000_0000
  }

  lemma EncodesStatus(s: Status, clock: int)
    requires StatusOk(s)
    ensures IsStatus(EncodeStatus(s, clock), s, clock)
  {
    var b := EncodeStatus(s, clock);
    FieldsOf(ToBytes(s.write, 8), ToBytes(s.flush, 8), ToBytes(s.apply, 8), ToBytes(clock % Word, 8));
    WordWritten(b, 1, s.write);
    WordWritten(b, 9, s.flush);
    WordWritten(b, 17, s.apply);
    WordWritten(b, 25, clock % Word);
  }

  /** Writes a word into a buffer, last byte first. */
  method PutWord(b: array<Byte>, at: nat, v: int)
    requires at + 8 <= b.Length
    modifies b
    ensures b[at..at + 8] == ToBytes(v, 8)
    ensures 0 <= v < Word ==> WordAt(b[..], at) == v
    ensures b[..at] == old(b[..at]) && b[at + 8..] == old(b[at + 8..])
  {
    var rest := v;
    assert b[at + 8..at + 8] == [];
    for i := 8 downto 0
      invariant b[..at] == old(b[..at]) && b[at + 8..] == old(b[at + 8..])
      invariant ToBytes(v, 8) == ToBytes(rest, i) + b[at + i..at + 8]
    {
      ghost var done := b[at + i + 1..at + 8];
      b[at + i] := rest % 256;
      assert b[at + i..at + 8] == [rest % 256] + done;
      assert ToBytes(rest, i + 1) == ToBytes(rest / 256, i) + [rest % 256];
      rest := rest / 256;
    }
    assert b[at + 0..at + 8] == b[at..at + 8];
    if 0 <= v < Word {
      WordWritten(b[..], at, v);
    }
  }

  /** standbyStatusAt: fills a 34-byte buffer; the last byte never asks for a reply. */
  method StandbyStatusAt(s: Status, clock: int) returns (b: array<Byte>)
    ensures fresh(b) && b[..] == EncodeStatus(s, clock) && b.Length == 34
    ensures StatusOk(s) ==> IsStatus(b[..], s, clock)
  {
    b := new Byte[34](_ => 0);
    b[0] := Tag('r');
    assert b[..1] == [Tag('r')] && b[33..] == [0];
    PutWord(b, 1, s.write);
    assert b[33..] == b[9..][24..];
    ghost var one := b[..9];
    assert one == [Tag('r')] + ToBytes(s.write, 8);
    assert b[33..] == [0];
    PutWord(b, 9, s.flush);
    ghost var two := b[..17];
    assert two == one + ToBytes(s.flush, 8);
    assert b[33..] == b[17..][16..];
    PutWord(b, 17, s.apply);
    ghost var three := b[..25];
    assert three == two + ToBytes(s.apply, 8);
    assert b[33..] == b[25..][8..];
    PutWord(b, 25, clock % Word);
    assert b[..33] == three + ToBytes(clock % Word, 8);
    assert b[..] == b[..33] + b[33..];
    if StatusOk(s) {
      EncodesStatus(s, clock);
    }
  }

  // ----- the acknowledgement loop

  datatype AckMode = AckNone | AckAll | AckWriteFlush | AckWrite

  function Positions(m: AckMode, base: int, pos: int): Status {
    match m
    case AckWriteFlush => Status(pos, pos, base)
    case AckWrite => Status(pos, base, base)
    case _ => Status(pos, pos, pos)
  }

  const StatusInterval := 200_000_000

  datatype Received = Timeout | Cancelled | Broken | OtherMessage | CopyData(data: seq<Byte>)

  /** One turn of the loop as the outside world shapes it: whether it was told to stop, the clock at
      the check, whether a send fails and when it ended, what came in and when that was handled. */
  datatype Turn = Turn(stop: bool, now: int, sendFails: bool, sentAt: int, received: Received, handledAt: int)

  datatype End = Running | Stopped | Failed

  datatype Sent = Sent(status: Status, at: int, done: int)

  datatype State = State(pos: int, base: int, next: int, sent: seq<Sent>, end: End)

  predicate Due(m: AckMode, s: State, now: int) {
    m != AckNone && s.base != 0 && now >= s.next
  }

  function Acknowledge(m: AckMode, s: State, t: Turn): State {
    if !Due(m, s, t.now) then s
    else if t.sendFails then s.(end := Failed)
    else s.(sent := s.sent + [Sent(Positions(m, s.base, s.pos), t.now, t.sentAt)], next := t.sentAt + StatusInterval)
  }

  function Take(m: AckMode, s: State, data: seq<Byte>, handledAt: int): State {
    match Parse(data)
    case None => s
    case Some(w) =>
      s.(pos := if w.end > s.pos then w.end else s.pos,
         base := if s.base == 0 then w.end else s.base,
         next := if w.reply && m != AckNone then handledAt else s.next)
  }

  function Receive(m: AckMode, s: State, t: Turn): State {
    match t.received
    case Timeout => s
    case Cancelled => s.(end := Stopped)
    case Broken => s.(end := Failed)
    case OtherMessage => s
    case CopyData(data) => Take(m, s, data, t.handledAt)
  }

  function Step(m: AckMode, s: State, t: Turn): State {
    if s.end != Running then s
    else if t.stop then s.(end := Stopped)
    else
      var a := Acknowledge(m, s, t);
      if a.end != Running then a else Receive(m, a, t)
  }

  function Stream(m: AckMode, s: State, turns: seq<Turn>): State {
    if turns == [] then s else Step(m, Stream(m, s, turns[..|turns| - 1]), turns[|turns| - 1])
  }

  function Opened(start: int): State {
    State(0, 0, start, [], Running)
  }

  /** consume. */
  method Consume(m: AckMode, start: int, turns: seq<Turn>) returns (end: End, sent: seq<Sent>)
    ensures end == Stream(m, Opened(start), turns).end && sent == Stream(m, Opened(start), turns).sent
  {
    var pos, base, next := 0, 0, start;
    sent := [];
    for i := 0 to |turns|
      invariant Stream(m, Opened(start), turns[..i]) == State(pos, base, next, sent, Running)
    {
      var t := turns[i];
      assert turns[..i + 1][..i] == turns[..i];
      ghost var s := Stream(m, Opened(start), turns[..i]);
      assert Stream(m, Opened(start), turns[..i + 1]) == Step(m, s, t);
      if t.stop {
        Ended(m, Opened(start), turns, i + 1);
        return Stopped, sent;
      }
      if m != AckNone && base != 0 && t.now >= next {
        if t.sendFails {
          Ended(m, Opened(start), turns, i + 1);
          return Failed, sent;
        }
        sent := sent + [Sent(Positions(m, base, pos), t.now, t.sentAt)];
        next := t.sentAt + StatusInterval;
      }
      match t.received {
        case Cancelled =>
          Ended(m, Opened(start), turns, i + 1);
          return Stopped, sent;
        case Timeout =>
        case Broken =>
          Ended(m, Opened(start), turns, i + 1);
          return Failed, sent;
        case OtherMessage =>
        case CopyData(data) =>
          var w := Parse(data);
          if w.Some? && w.value.end > pos {
            pos := w.value.end;
          }
          if w.Some? && base == 0 {
            base := w.value.end;
          }
          if w.Some? && w.value.reply && m != AckNone {
            next := t.handledAt;
          }
      }
    }
    assert turns[..|turns|] == turns;
    end := Running;
  }

  /** An ended stream stays as it is. */
  lemma {:induction false} Ended(m: AckMode, s: State, turns: seq<Turn>, i: nat)
    requires i <= |turns| && Stream(m, s, turns[..i]).end != Running
    ensures Stream(m, s, turns) == Stream(m, s, turns[..i])
    decreases |turns|
  {
    if i == |turns| {
      assert turns[..i] == turns;
    } else {
      var n := |turns| - 1;
      assert turns[..n][..i] == turns[..i];
      Ended(m, s, turns[..n], i);
    }
  }

  // ----- what every stream keeps

  ghost predicate Sound(m: AckMode, s: State) {
    && 0 <= s.base <= s.pos < Word
    && (s.sent != [] ==> m != AckNone && s.base != 0)
    && (forall i :: 0 <= i < |s.sent| ==>
          s.sent[i].status == Positions(m, s.base, s.sent[i].status.write) && s.base <= s.sent[i].status.write <= s.pos)
    && (forall i, j :: 0 <= i < j < |s.sent| ==> s.sent[i].status.write <= s.sent[j].status.write)
  }

  ghost predicate Grows(s: State, t: State) {
    && s.pos <= t.pos && (s.base != 0 ==> t.base == s.base) && s.sent <= t.sent
  }

  lemma AcknowledgeSound(m: AckMode, s: State, t: Turn)
    requires Sound(m, s)
    ensures Sound(m, Acknowledge(m, s, t)) && Grows(s, Acknowledge(m, s, t))
  {
    if Due(m, s, t.now) && !t.sendFails {
      AppendSound(m, s, Sent(Positions(m, s.base, s.pos), t.now, t.sentAt), t.sentAt + StatusInterval);
    }
  }

  lemma AppendSound(m: AckMode, s: State, x: Sent, next: int)
    requires Sound(m, s) && m != AckNone && s.base != 0 && x.status == Positions(m, s.base, s.pos)
    ensures Sound(m, s.(sent := s.sent + [x], next := next))
  {
    var all := s.sent + [x];
    forall i | 0 <= i < |all|
      ensures all[i].status == Positions(m, s.base, all[i].status.write) && s.base <= all[i].status.write <= s.pos
    {
      if i < |s.sent| {
        assert all[i] == s.sent[i];
      }
    }
  }

  lemma TakeSound(m: AckMode, s: State, data: seq<Byte>, handledAt: int)
    requires Sound(m, s)
    ensures Sound(m, Take(m, s, data, handledAt)) && Grows(s, Take(m, s, data, handledAt))
  {
  }

  lemma StepSound(m: AckMode, s: State, t: Turn)
    requires Sound(m, s)
    ensures Sound(m, Step(m, s, t)) && Grows(s, Step(m, s, t))
  {
    EndSound(m, s, Stopped);
    if s.end == Running && !t.stop {
      AcknowledgeSound(m, s, t);
      var a := Acknowledge(m, s, t);
      ReceiveSound(m, a, t);
      GrowsTransitive(s, a, Receive(m, a, t));
    }
  }

  lemma EndSound(m: AckMode, s: State, e: End)
    requires Sound(m, s)
    ensures Sound(m, s.(end := e)) && Grows(s, s.(end := e))
  {
  }

  lemma GrowsTransitive(a: State, b: State, c: State)
    requires Grows(a, b) && Grows(b, c)
    ensures Grows(a, c)
  {
  }

  lemma ReceiveSound(m: AckMode, s: State, t: Turn)
    requires Sound(m, s)
    ensures Sound(m, Receive(m, s, t)) && Grows(s, Receive(m, s, t))
  {
    match t.received {
      case Cancelled => EndSound(m, s, Stopped);
      case Broken => EndSound(m, s, Failed);
      case CopyData(data) => TakeSound(m, s, data, t.handledAt);
      case _ =>
    }
  }

  lemma {:induction false} StreamSound(m: AckMode, start: int, turns: seq<Turn>)
    ensures Sound(m, Stream(m, Opened(start), turns))
  {
    if turns != [] {
      var n := |turns| - 1;
      StreamSound(m, start, turns[..n]);
      StepSound(m, Stream(m, Opened(start), turns[..n]), turns[n]);
    }
  }

  /** Over the whole of a stream the position never goes back, and the base once set stays. */
  lemma {:induction false} StreamMoves(m: AckMode, start: int, turns: seq<Turn>, i: nat)
    requires i <= |turns|
    ensures var before, after := Stream(m, Opened(start), turns[..i]), Stream(m, Opened(start), turns);
      Grows(before, after)
    decreases |turns|
  {
    if i == |turns| {
      assert turns[..i] == turns;
    } else {
      var n := |turns| - 1;
      assert turns[..n][..i] == turns[..i];
      StreamMoves(m, start, turns[..n], i);
      StreamSound(m, start, turns[..n]);
      StepSound(m, Stream(m, Opened(start), turns[..n]), turns[n]);
    }
  }

  ghost predicate Ordered(s: Status) {
    s.apply <= s.flush <= s.write
  }

  /** What a mode confirms of a position: the stages it leaves behind stay at the base. */
  predicate Confirms(m: AckMode, base: int, pos: int, s: Status) {
    && s.write == pos
    && (m == AckAll ==> s.flush == pos && s.apply == pos)
    && (m == AckWriteFlush ==> s.flush == pos && s.apply == base)
    && (m == AckWrite ==> s.flush == base && s.apply == base)
  }

  /** Every status confirms what its mode says, with apply <= flush <= write, never less than an
      earlier one, never more than the position reached; a consumer that does not acknowledge sends
      none. */
  lemma StatusesInOrder(m: AckMode, start: int, turns: seq<Turn>)
    ensures var s := Stream(m, Opened(start), turns);
      && (m == AckNone ==> s.sent == [])
      && (forall i :: 0 <= i < |s.sent| ==>
            && Confirms(m, s.base, s.sent[i].status.write, s.sent[i].status)
            && Ordered(s.sent[i].status) && StatusOk(s.sent[i].status) && s.sent[i].status.write <= s.pos)
      && (forall i, j :: 0 <= i < j < |s.sent| ==>
            && s.sent[i].status.write <= s.sent[j].status.write
            && s.sent[i].status.flush <= s.sent[j].status.flush
            && s.sent[i].status.apply <= s.sent[j].status.apply)
  {
    StreamSound(m, start, turns);
  }

  // ----- what the position is

  /** Turn i brought a message that ends at e. */
  ghost predicate ReceivedEnd(turns: seq<Turn>, i: nat, e: int) {
    && i < |turns| && turns[i].received.CopyData?
    && Parse(turns[i].received.data).Some? && Parse(turns[i].received.data).value.end == e
  }

  /** The position, and so whatever a status confirms, is an end some message carried. */
  lemma {:induction false} PositionWasReceived(m: AckMode, start: int, turns: seq<Turn>)
    ensures var s := Stream(m, Opened(start), turns);
      && (s.pos != 0 ==> exists i :: ReceivedEnd(turns, i, s.pos))
      && (s.base != 0 ==> exists i :: ReceivedEnd(turns, i, s.base))
  {
    if turns != [] {
      var n := |turns| - 1;
      PositionWasReceived(m, start, turns[..n]);
      var before, after := Stream(m, Opened(start), turns[..n]), Stream(m, Opened(start), turns);
      PositionStep(m, before, turns[n]);
      if after.pos != 0 && after.pos == before.pos {
        var i :| ReceivedEnd(turns[..n], i, before.pos);
        assert ReceivedEnd(turns, i, after.pos);
      } else if after.pos != 0 {
        assert ReceivedEnd(turns, n, after.pos);
      }
      if after.base != 0 && after.base == before.base {
        var i :| ReceivedEnd(turns[..n], i, before.base);
        assert ReceivedEnd(turns, i, after.base);
      } else if after.base != 0 {
        assert ReceivedEnd(turns, n, after.base);
      }
    }
  }

  lemma PositionStep(m: AckMode, s: State, t: Turn)
    ensures var after := Step(m, s, t);
      && (after.pos == s.pos || ReceivedEnd([t], 0, after.pos))
      && (after.base == s.base || ReceivedEnd([t], 0, after.base))
  {
  }

  /** No message among the first n turns carried an end but zero. */
  ghost predicate NoEndBefore(turns: seq<Turn>, n: nat) {
    forall i: nat, e :: i < n && ReceivedEnd(turns, i, e) ==> e == 0
  }

  lemma NoBaseYet(m: AckMode, start: int, turns: seq<Turn>, n: nat)
    requires n <= |turns| && NoEndBefore(turns, n)
    ensures Stream(m, Opened(start), turns[..n]).base == 0
  {
    PositionWasReceived(m, start, turns[..n]);
    var base := Stream(m, Opened(start), turns[..n]).base;
    if base != 0 {
      var i :| ReceivedEnd(turns[..n], i, base);
      assert ReceivedEnd(turns, i, base);
    }
  }

  lemma BaseStep(m: AckMode, s: State, t: Turn, e: int)
    requires Step(m, s, t).end == Running && ReceivedEnd([t], 0, e)
    ensures s.end == Running && (s.base == 0 ==> Step(m, s, t).base == e)
  {
  }

  /** The base is the first end received that is not zero. */
  lemma {:induction false} BaseIsFirstEnd(m: AckMode, start: int, turns: seq<Turn>, i: nat, e: int)
    requires Stream(m, Opened(start), turns).end == Running && ReceivedEnd(turns, i, e) && e != 0
    requires NoEndBefore(turns, i)
    ensures Stream(m, Opened(start), turns).base == e
  {
    RunningBefore(m, Opened(start), turns, i + 1);
    NoBaseYet(m, start, turns, i);
    assert turns[..i + 1][..i] == turns[..i];
    BaseStep(m, Stream(m, Opened(start), turns[..i]), turns[i], e);
    StreamMoves(m, start, turns, i + 1);
  }

  lemma RunningBefore(m: AckMode, s: State, turns: seq<Turn>, i: nat)
    requires i <= |turns| && Stream(m, s, turns).end == Running
    ensures Stream(m, s, turns[..i]).end == Running
  {
    if Stream(m, s, turns[..i]).end != Running {
      Ended(m, s, turns, i);
    }
  }

  /** While the stream runs the position is at least every end received. */
  lemma {:induction false} PositionCoversEnds(m: AckMode, start: int, turns: seq<Turn>, i: nat, e: int)
    requires Stream(m, Opened(start), turns).end == Running && ReceivedEnd(turns, i, e)
    ensures e <= Stream(m, Opened(start), turns).pos
  {
    var n := |turns| - 1;
    var before := Stream(m, Opened(start), turns[..n]);
    assert before.end == Running;
    if i < n {
      assert ReceivedEnd(turns[..n], i, e);
      PositionCoversEnds(m, start, turns[..n], i, e);
      StreamSound(m, start, turns[..n]);
      StepSound(m, before, turns[n]);
    }
  }

  // ----- how often it acknowledges

  /** A message asked for a reply in turn i. */
  ghost predicate Asked(t: Turn) {
    t.received.CopyData? && Parse(t.received.data).Some? && Parse(t.received.data).value.reply
  }

  ghost predicate NextAfterLast(s: State) {
    s.sent != [] && s.next == s.sent[|s.sent| - 1].done + StatusInterval
  }

  lemma PacedStep(m: AckMode, s: State, t: Turn)
    requires NextAfterLast(s) && !Asked(t)
    ensures var after := Step(m, s, t);
      && NextAfterLast(after)
      && (after.sent == s.sent
          || (|after.sent| == |s.sent| + 1 && after.sent[..|s.sent|] == s.sent && after.sent[|s.sent|].at >= s.next))
  {
  }

  /** The turn sends the status of the position reached, if sending does not fail. */
  predicate SendsNow(m: AckMode, s: State, t: Turn) {
    var after := Step(m, s, t);
    if t.sendFails then after.end == Failed
    else
      && |after.sent| == |s.sent| + 1 && after.sent[..|s.sent|] == s.sent
      && Confirms(m, s.base, s.pos, after.sent[|s.sent|].status)
      && after.sent[|s.sent|].at == t.now && after.sent[|s.sent|].done == t.sentAt
  }

  /** A server that asks is answered in the next turn. */
  lemma AskedIsAnswered(m: AckMode, s: State, t: Turn, u: Turn)
    requires s.end == Running && !t.stop && Asked(t) && m != AckNone
    requires Step(m, s, t).end == Running && Step(m, s, t).base != 0
    requires !u.stop && u.now >= t.handledAt
    ensures SendsNow(m, Step(m, s, t), u)
  {
    assert Step(m, s, t).next == t.handledAt;
  }

  /** A consumer that acknowledges sends again as soon as 200 ms have passed. */
  lemma DueIsSent(m: AckMode, s: State, t: Turn)
    requires s.end == Running && !t.stop && m != AckNone && s.base != 0
    requires NextAfterLast(s) && t.now >= s.sent[|s.sent| - 1].done + 200_000_000
    ensures SendsNow(m, s, t)
  {
  }

  /** Unless the server asks, a status goes out no sooner than 200 ms after the last one. */
  lemma {:induction false} Paced(m: AckMode, s: State, turns: seq<Turn>)
    requires NextAfterLast(s)
    requires forall i :: 0 <= i < |turns| ==> !Asked(turns[i])
    ensures var after := Stream(m, s, turns);
      && |s.sent| <= |after.sent| && NextAfterLast(after)
      && (forall i :: |s.sent| <= i < |after.sent| ==> after.sent[i].at >= after.sent[i - 1].done + 200_000_000)
  {
    if turns != [] {
      var n := |turns| - 1;
      Paced(m, s, turns[..n]);
      var before, after := Stream(m, s, turns[..n]), Stream(m, s, turns);
      PacedStep(m, before, turns[n]);
      forall i | |s.sent| <= i < |after.sent|
        ensures after.sent[i].at >= after.sent[i - 1].done + StatusInterval
      {
        if i < |before.sent| {
          assert after.sent[i] == before.sent[i] && after.sent[i - 1] == before.sent[i - 1];
        } else {
          assert after.sent[i - 1] == before.sent[i - 1];
        }
      }
    }
  }
}
