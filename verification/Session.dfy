/**
 * One connection as a machine of byte strings: what every answer of the operating system to
 * a read or a write does to it, and what its bytes sent have to do with its bytes received,
 * for every sequence of events.
 */
module Session {
  import opened Base
  import opened HttpParser
  import opened HttpStream

  const MAX_PIPELINED_RESPONSES := 64
  const MAX_IOVECS := 32

  // ----- reading -----

  /** What one `read` may return; no bytes at all is the end of the stream. */
  datatype ReadResult = Bytes(data: string) | WouldBlock | Failed

  /** Why reading stopped: no room left, nothing there, the end of the stream, an error. */
  datatype ReadEnd = Full | Dry | Eof | Lost

  /** The bytes that the answers deliver into `room` bytes, and why reading stops. The system
      blocks when its answers are used up. */
  function Drained(room: nat, answers: seq<ReadResult>): (r: (string, ReadEnd))
    requires room > 0
    ensures |r.0| <= room && (r.1.Full? <==> |r.0| == room)
  {
    if answers == [] || answers[0].WouldBlock? then ("", Dry)
    else if answers[0].Failed? then ("", Lost)
    else
      var n := Min(|answers[0].data|, room);
      var part := answers[0].data[..n];
      if n == 0 then ("", Eof)
      else if n == room then (part, Full)
      else var (more, end) := Drained(room - n, answers[1..]); (part + more, end)
  }

  datatype ReadOutcome = Data(used: nat) | Blocked | Closed

  /** What reading amounts to behind `start` bytes that were there before. */
  function OutcomeOf(start: nat, got: nat, end: ReadEnd): ReadOutcome {
    if end.Lost? then Closed
    else if start + got > 0 then Data(start + got)
    else if end.Dry? then Blocked
    else Closed
  }

  /** Bytes that fit are delivered whole, in any number of answers. */
  lemma {:induction false} AllDelivered(room: nat, parts: seq<string>, answers: seq<ReadResult>)
    requires |answers| == |parts| && forall i :: 0 <= i < |parts| ==> parts[i] != "" && answers[i] == Bytes(parts[i])
    requires |Concat(parts)| < room
    ensures Drained(room, answers) == (Concat(parts), Dry)
  {
    if parts != [] {
      assert parts[0][..|parts[0]|] == parts[0];
      AllDelivered(room - |parts[0]|, parts[1..], answers[1..]);
    }
  }

  // ----- one batch of requests -----

  datatype Batch = Batch(responses: seq<string>, rest: string, keepAlive: bool)

  /** The requests at the front of a buffer, while there is room for their responses. A
      request that finds no room is dropped, and those behind it stay in the buffer. */
  function TakeBatch(parse: Parser, h: Handler, s: string, room: nat): (b: Batch)
    requires Stable(parse)
    ensures |b.rest| <= |s| && |b.responses| <= room
    ensures if b.responses == [] then room > 0 ==> b.rest == s else |b.rest| < |s|
    decreases |s|
  {
    assert StableAt(parse, s, "");
    match parse(s)
    case NeedMore => Batch([], s, true)
    case Reject(response) => Batch(if room > 0 then [response] else [], "", false)
    case Complete(request, n) =>
      if room == 0 then Batch([], s[n..], false)
      else
        var b := TakeBatch(parse, h, s[n..], room - 1);
        Batch([h(request)] + b.responses, b.rest, request.keepAlive && b.keepAlive)
  }

  lemma EmptyStream(parse: Parser, h: Handler)
    requires Stable(parse)
    ensures Serve(parse, h, "") == Served([], "", false, true)
  {
  }

  /** A batch is all that a buffer is to be answered with exactly when that fits; otherwise
      one response is lost, and the requests behind it are still to be answered. */
  lemma {:induction false} BatchServes(parse: Parser, h: Handler, s: string, room: nat)
    requires Stable(parse)
    ensures var v, b := Serve(parse, h, s), TakeBatch(parse, h, s, room);
            if |v.responses| <= room then b == Batch(v.responses, v.rest, v.keepAlive && !v.closed)
            else
              && b.responses == v.responses[..room] && !b.keepAlive
              && Serve(parse, h, b.rest).responses == v.responses[room + 1..]
    decreases |s|
  {
    assert StableAt(parse, s, "");
    match parse(s)
    case NeedMore =>
    case Reject(response) => EmptyStream(parse, h);
    case Complete(request, n) =>
      var v := Serve(parse, h, s[n..]);
      if room > 0 {
        BatchServes(parse, h, s[n..], room - 1);
        if |v.responses| >= room {
          assert ([h(request)] + v.responses)[..room] == [h(request)] + v.responses[..room - 1];
          assert ([h(request)] + v.responses)[room + 1..] == v.responses[room..];
        }
      } else {
        assert ([h(request)] + v.responses)[1..] == v.responses;
      }
  }

  // ----- writing -----

  /** What one `writev` may do with a non-empty list of pieces. */
  datatype WriteResult = Wrote(count: nat) | WouldBlockWrite | WriteFailed

  /** Up to `room` pieces that come next when `written` bytes of the responses are sent. */
  function NextPieces(responses: seq<string>, written: nat, room: nat): (iovs: seq<string>)
    ensures |iovs| <= room && forall k :: 0 <= k < |iovs| ==> iovs[k] != ""
    decreases |responses|
  {
    if responses == [] || room == 0 then []
    else if written >= |responses[0]| then NextPieces(responses[1..], written - |responses[0]|, room)
    else [responses[0][written..]] + NextPieces(responses[1..], 0, room - 1)
  }

  /** The pieces are the next bytes to send, as many pieces as there is room for: there are none
      when all is sent, and with room to spare they are all that is left. */
  lemma {:induction false} PiecesAreNext(responses: seq<string>, written: nat, room: nat)
    requires written <= |Concat(responses)| && room > 0
    ensures var iovs := NextPieces(responses, written, room);
            && Concat(iovs) <= Concat(responses)[written..] && (iovs == [] <==> written == |Concat(responses)|)
            && (|iovs| < room || |responses| <= room ==> Concat(iovs) == Concat(responses)[written..])
    decreases |responses|
  {
    if responses != [] {
      var first, rest := responses[0], responses[1..];
      if written >= |first| {
        PiecesAreNext(rest, written - |first|, room);
        assert (first + Concat(rest))[written..] == Concat(rest)[written - |first|..];
      } else {
        if room > 1 { PiecesAreNext(rest, 0, room - 1); }
        assert (first + Concat(rest))[written..] == first[written..] + Concat(rest);
        var more := NextPieces(rest, 0, room - 1);
        assert Concat(rest)[0..] == Concat(rest) && ([first[written..]] + more)[1..] == more;
      }
    }
  }

  datatype WriteEnd = Done | Waiting | Broken

  predicate WriteBreaks(w: WriteResult) { w.WriteFailed? || (w.Wrote? && w.count == 0) }

  /** Sending a batch: how far it gets, the answers left over, and why it stops. */
  function WriteOut(responses: seq<string>, written: nat, writes: seq<WriteResult>):
    (r: (nat, seq<WriteResult>, WriteEnd))
    requires written <= |Concat(responses)|
    ensures written <= r.0 <= |Concat(responses)| && (r.2.Done? ==> r.0 == |Concat(responses)|)
    ensures r.2.Waiting? ==> r.0 < |Concat(responses)|
    decreases |writes|
  {
    PiecesAreNext(responses, written, MAX_IOVECS);
    var iovs := NextPieces(responses, written, MAX_IOVECS);
    if iovs == [] then (written, writes, Done)
    else if writes == [] || writes[0].WouldBlockWrite? then (written, writes, Waiting)
    else if WriteBreaks(writes[0]) then (written, writes[1..], Broken)
    else WriteOut(responses, written + Min(writes[0].count, |Concat(iovs)|), writes[1..])
  }

  // ----- the machine -----

  /** Not open; waiting for the rest of a request; sending a batch with bytes left over behind
      its requests; closed by the server or lost. */
  datatype Conn =
    | Never
    | Idle(data: string)
    | Busy(responses: seq<string>, written: nat, leftover: string, keepAlive: bool)
    | Shut

  /** A connection, the pieces its reads handed to the parser, the bytes it sent, and whether
      the peer or an error ended it. */
  datatype Life = Life(conn: Conn, pieces: seq<string>, sent: string, aborted: bool)

  const UNOPENED := Life(Never, [], "", false)
  const OPENED := Life(Idle(""), [], "", false)

  predicate Shaped(c: Conn) {
    match c
    case Idle(data) => |data| < BUF_SIZE
    case Busy(responses, written, leftover, _) =>
      |responses| <= MAX_PIPELINED_RESPONSES && written < |Concat(responses)| && |leftover| < BUF_SIZE
    case _ => true
  }

  /** `drive_reading`: what the bytes in the buffer lead to. */
  function Drive(parse: Parser, h: Handler, l: Life, data: string, writes: seq<WriteResult>): (r: Life)
    requires Stable(parse) && 0 < |data| <= BUF_SIZE
    ensures Shaped(r.conn)
    decreases |data|, 0
  {
    if |data| == BUF_SIZE then Continue(parse, h, l, [RESPONSE_BAD_REQUEST], 0, "", false, writes)
    else
      var b := TakeBatch(parse, h, data, MAX_PIPELINED_RESPONSES);
      if b.responses == [] then l.(conn := Idle(data))
      else Continue(parse, h, l, b.responses, 0, b.rest, b.keepAlive, writes)
  }

  /** `finish_write` and what follows it. */
  function Continue(parse: Parser, h: Handler, l: Life, responses: seq<string>, written: nat, leftover: string,
                    keepAlive: bool, writes: seq<WriteResult>): (r: Life)
    requires Stable(parse) && |responses| <= MAX_PIPELINED_RESPONSES && written <= |Concat(responses)|
    requires |leftover| < BUF_SIZE
    ensures Shaped(r.conn)
    decreases |leftover|, 1
  {
    var (n, later, end) := WriteOut(responses, written, writes);
    var m := l.(sent := l.sent + Concat(responses)[written..n]);
    match end
    case Waiting => m.(conn := Busy(responses, n, leftover, keepAlive))
    case Broken => m.(conn := Shut, aborted := true)
    case Done =>
      if leftover != "" then Drive(parse, h, m, leftover, later)
      else if keepAlive then m.(conn := Idle(""))
      else m.(conn := Shut)
  }

  /** `greedy_read` behind the bytes of an incomplete request, and what follows it. */
  function Receive(parse: Parser, h: Handler, l: Life, before: string, answers: seq<ReadResult>,
                   writes: seq<WriteResult>): (r: Life)
    requires Stable(parse) && |before| < BUF_SIZE
    ensures Shaped(r.conn)
  {
    var (got, end) := Drained(BUF_SIZE - |before|, answers);
    match OutcomeOf(|before|, |got|, end)
    case Closed => l.(conn := Shut, aborted := true)
    case Blocked => l.(conn := Idle(before))
    case Data(_) => Drive(parse, h, l.(pieces := l.pieces + [got]), before + got, writes)
  }

  // ----- events -----

  /** An event carries the system's answers to all reads and writes it leads to. */
  datatype Event =
    | NewClient(fd: nat, configured: bool, answers: seq<ReadResult>, writes: seq<WriteResult>)
    | Hangup(fd: nat)
    | Ready(fd: nat, readable: bool, writable: bool, answers: seq<ReadResult>, writes: seq<WriteResult>,
            more: seq<WriteResult>)

  predicate IsOpen(c: Conn) { c.Idle? || c.Busy? }

  function OpenStep(parse: Parser, h: Handler, configured: bool, answers: seq<ReadResult>, writes: seq<WriteResult>):
    (r: Life)
    requires Stable(parse)
    ensures Shaped(r.conn)
  {
    if configured then Receive(parse, h, OPENED, "", answers, writes) else UNOPENED
  }

  function ReadStep(parse: Parser, h: Handler, l: Life, answers: seq<ReadResult>, writes: seq<WriteResult>): (r: Life)
    requires Stable(parse) && Shaped(l.conn)
    ensures Shaped(r.conn)
  {
    if l.conn.Idle? then Receive(parse, h, l, l.conn.data, answers, writes) else l
  }

  function WriteStep(parse: Parser, h: Handler, l: Life, writes: seq<WriteResult>): (r: Life)
    requires Stable(parse) && Shaped(l.conn)
    ensures Shaped(r.conn)
  {
    if !l.conn.Busy? then l
    else Continue(parse, h, l, l.conn.responses, l.conn.written, l.conn.leftover, l.conn.keepAlive, writes)
  }

  function HangupStep(l: Life): Life { if IsOpen(l.conn) then l.(conn := Shut, aborted := true) else l }

  function ReadyStep(parse: Parser, h: Handler, l: Life, readable: bool, writable: bool, answers: seq<ReadResult>,
                     writes: seq<WriteResult>, more: seq<WriteResult>): (r: Life)
    requires Stable(parse) && Shaped(l.conn)
    ensures Shaped(r.conn)
  {
    var m := if readable then ReadStep(parse, h, l, answers, writes) else l;
    if writable then WriteStep(parse, h, m, more) else m
  }

  /** What one event does to descriptor `fd`. The system does not hand out a descriptor that
      is still open. */
  function Step(parse: Parser, h: Handler, l: Life, e: Event, fd: nat): (r: Life)
    requires Stable(parse) && Shaped(l.conn)
    ensures Shaped(r.conn)
  {
    if e.fd != fd then l
    else
      match e
      case NewClient(_, configured, answers, writes) =>
        if IsOpen(l.conn) then l else OpenStep(parse, h, configured, answers, writes)
      case Hangup(_) => HangupStep(l)
      case Ready(_, readable, writable, answers, writes, more) =>
        ReadyStep(parse, h, l, readable, writable, answers, writes, more)
  }

  /** Descriptor `fd` after a sequence of events. */
  function History(parse: Parser, h: Handler, events: seq<Event>, fd: nat): (l: Life)
    requires Stable(parse)
    ensures Shaped(l.conn)
  {
    if events == [] then UNOPENED
    else Step(parse, h, History(parse, h, events[..|events| - 1], fd), events[|events| - 1], fd)
  }

  // ----- what is handed to the parser -----

  /** Sending and parsing do not receive anything. */
  lemma {:induction false} DriveReceivesNothing(parse: Parser, h: Handler, l: Life, data: string,
                                                writes: seq<WriteResult>)
    requires Stable(parse) && 0 < |data| <= BUF_SIZE
    ensures Drive(parse, h, l, data, writes).pieces == l.pieces
    decreases |data|, 0
  {
    if |data| == BUF_SIZE {
      ContinueReceivesNothing(parse, h, l, [RESPONSE_BAD_REQUEST], 0, "", false, writes);
    } else {
      var b := TakeBatch(parse, h, data, MAX_PIPELINED_RESPONSES);
      if b.responses != [] { ContinueReceivesNothing(parse, h, l, b.responses, 0, b.rest, b.keepAlive, writes); }
    }
  }

  lemma {:induction false} ContinueReceivesNothing(parse: Parser, h: Handler, l: Life, responses: seq<string>,
                                                   written: nat, leftover: string, keepAlive: bool,
                                                   writes: seq<WriteResult>)
    requires Stable(parse) && |responses| <= MAX_PIPELINED_RESPONSES && written <= |Concat(responses)|
    requires |leftover| < BUF_SIZE
    ensures Continue(parse, h, l, responses, written, leftover, keepAlive, writes).pieces == l.pieces
    decreases |leftover|, 1
  {
    var (n, later, end) := WriteOut(responses, written, writes);
    if end.Done? && leftover != "" {
      DriveReceivesNothing(parse, h, l.(sent := l.sent + Concat(responses)[written..n]), leftover, later);
    }
  }

  /** A reading connection receives exactly what the answers deliver into the room left, and
      nothing when reading blocks or fails; no other connection receives anything. */
  lemma {:induction false} ReceivedIsDelivered(parse: Parser, h: Handler, l: Life, answers: seq<ReadResult>,
                                               writes: seq<WriteResult>)
    requires Stable(parse) && Shaped(l.conn)
    ensures !l.conn.Idle? ==> ReadStep(parse, h, l, answers, writes) == l
    ensures l.conn.Idle? ==>
              var (got, end) := Drained(BUF_SIZE - |l.conn.data|, answers);
              ReadStep(parse, h, l, answers, writes).pieces
              == if OutcomeOf(|l.conn.data|, |got|, end).Data? then l.pieces + [got] else l.pieces
  {
    if l.conn.Idle? {
      var (got, end) := Drained(BUF_SIZE - |l.conn.data|, answers);
      if OutcomeOf(|l.conn.data|, |got|, end).Data? {
        DriveReceivesNothing(parse, h, l.(pieces := l.pieces + [got]), l.conn.data + got, writes);
      }
    }
  }
}
