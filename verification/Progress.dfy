/**
 * What one event gets done: the bytes it delivers are received, what the system accepts is
 * sent, and a connection is gone when its peer hangs up.
 */
module Progress {
  import opened Base
  import opened HttpParser
  import opened HttpStream
  import opened Session
  import opened Promise

  // ----- what reading delivers -----

  /** The bytes up to the first answer that has none. */
  function Delivered(answers: seq<ReadResult>): string {
    if answers == [] || !answers[0].Bytes? || answers[0].data == "" then ""
      else answers[0].data + Delivered(answers[1..])
  }

  /** What that answer is; the system blocks when there is none. */
  function Ending(answers: seq<ReadResult>): ReadEnd {
    if answers == [] || answers[0].WouldBlock? then Dry
    else if answers[0].Failed? then Lost
    else if answers[0].data == "" then Eof
    else Ending(answers[1..])
  }

  /** Reading takes what is delivered, as far as there is room. */
  lemma {:induction false} DrainedIs(room: nat, answers: seq<ReadResult>)
    requires room > 0
    ensures var all := Delivered(answers);
            Drained(room, answers) == if |all| >= room then (all[..room], Full) else (all, Ending(answers))
    decreases |answers|
  {
    if answers != [] && answers[0].Bytes? && answers[0].data != "" {
      var data, more := answers[0].data, Delivered(answers[1..]);
      if |data| >= room {
        assert (data + more)[..room] == data[..room];
      } else {
        DrainedIs(room - |data|, answers[1..]);
        assert data[..|data|] == data;
        if |more| >= room - |data| { assert (data + more)[..room] == data + more[..room - |data|]; }
      }
    }
  }

  // ----- what writing sends -----

  /** Fewer pieces first, and then the ones behind them, are the same pieces. */
  lemma {:induction false} PiecesFollow(responses: seq<string>, written: nat, a: nat, b: nat)
    requires written <= |Concat(responses)|
    ensures Follows(responses, written, a, b)
    decreases |responses|
  {
    if responses == [] || a == 0 {
      assert [] + NextPieces(responses, written, b) == NextPieces(responses, written, b);
    } else if written >= |responses[0]| {
      PiecesFollow(responses[1..], written - |responses[0]|, a, b);
      PiecesPast(responses, written, a, b);
    } else {
      PiecesFollow(responses[1..], 0, a - 1, b);
      PiecesBehind(responses, written, a, b);
    }
  }

  ghost predicate Follows(responses: seq<string>, written: nat, a: nat, b: nat) {
    var first := NextPieces(responses, written, a);
    && written + |Concat(first)| <= |Concat(responses)|
    && NextPieces(responses, written, a + b) == first + NextPieces(responses, written + |Concat(first)|, b)
  }

  lemma {:induction false} PiecesPast(responses: seq<string>, written: nat, a: nat, b: nat)
    requires responses != [] && a > 0 && written >= |responses[0]|
    requires Follows(responses[1..], written - |responses[0]|, a, b)
    ensures Follows(responses, written, a, b)
  {
  }

  lemma {:induction false} PiecesBehind(responses: seq<string>, written: nat, a: nat, b: nat)
    requires responses != [] && a > 0 && written < |responses[0]| && Follows(responses[1..], 0, a - 1, b)
    ensures Follows(responses, written, a, b)
  {
    var piece, rest := responses[0][written..], responses[1..];
    var more := NextPieces(rest, 0, a - 1);
    ConcatSum([piece], more);
    assert Concat([piece]) == piece + Concat([]) == piece;
    ConcatAssoc([piece], more, NextPieces(rest, |Concat(more)|, b));
  }

  /** An answer that accepts some bytes sends them, up to the end of the next pieces. */
  lemma {:induction false} FirstWriteSends(responses: seq<string>, written: nat, writes: seq<WriteResult>)
    requires written < |Concat(responses)| && writes != [] && writes[0].Wrote? && writes[0].count > 0
    ensures var iovs := NextPieces(responses, written, MAX_IOVECS);
            && iovs != [] && |Concat(iovs)| > 0
            && WriteOut(responses, written, writes).0 >= written + Min(writes[0].count, |Concat(iovs)|)
  {
    PiecesAreNext(responses, written, MAX_IOVECS);
    var iovs := NextPieces(responses, written, MAX_IOVECS);
    assert Concat(iovs) == iovs[0] + Concat(iovs[1..]);
  }

  /** The first two answers accept `n` bytes each; two, because there may be two lots of pieces. */
  predicate AcceptsAll(writes: seq<WriteResult>, n: nat) {
    |writes| >= 2 && forall i :: 0 <= i < 2 ==> writes[i].Wrote? && writes[i].count >= n && writes[i].count > 0
  }

  /** When all that remains is accepted, all of it is sent. */
  lemma {:induction false} AllAccepted(responses: seq<string>, written: nat, writes: seq<WriteResult>)
    requires written <= |Concat(responses)| && |responses| <= MAX_PIPELINED_RESPONSES
    requires AcceptsAll(writes, |Concat(responses)| - written)
    ensures WriteOut(responses, written, writes).0 == |Concat(responses)|
    ensures WriteOut(responses, written, writes).2.Done?
    ensures WriteOut(responses, written, writes).1 in [writes, writes[1..], writes[1..][1..]]
  {
    TwoLots(responses, written);
    var first := NextPieces(responses, written, MAX_IOVECS);
    var upTo := written + |Concat(first)|;
    if first != [] {
      OneWrite(responses, written, writes, first);
      var second := NextPieces(responses, upTo, MAX_IOVECS);
      if second != [] {
        OneWrite(responses, upTo, writes[1..], second);
        NothingLeft(responses, upTo + |Concat(second)|, writes[1..][1..]);
      }
    }
  }

  lemma {:induction false} NothingLeft(responses: seq<string>, written: nat, writes: seq<WriteResult>)
    requires written == |Concat(responses)|
    ensures WriteOut(responses, written, writes) == (written, writes, Done)
  {
    PiecesAreNext(responses, written, MAX_IOVECS);
  }

  /** A batch is two lots of pieces at most. */
  lemma {:induction false} TwoLots(responses: seq<string>, written: nat)
    requires written <= |Concat(responses)| && |responses| <= MAX_PIPELINED_RESPONSES
    ensures var first := NextPieces(responses, written, MAX_IOVECS);
            var upTo := written + |Concat(first)|;
            && upTo <= |Concat(responses)| && (first == [] ==> upTo == |Concat(responses)|)
            && upTo + |Concat(NextPieces(responses, upTo, MAX_IOVECS))| == |Concat(responses)|
  {
    PiecesAreNext(responses, written, 2 * MAX_IOVECS);
    PiecesAreNext(responses, written, MAX_IOVECS);
    PiecesFollow(responses, written, MAX_IOVECS, MAX_IOVECS);
    var first := NextPieces(responses, written, MAX_IOVECS);
    ConcatSum(first, NextPieces(responses, written + |Concat(first)|, MAX_IOVECS));
  }

  lemma {:induction false} OneWrite(responses: seq<string>, written: nat, writes: seq<WriteResult>, iovs: seq<string>)
    requires written <= |Concat(responses)| && iovs == NextPieces(responses, written, MAX_IOVECS) && iovs != []
    requires writes != [] && writes[0].Wrote? && writes[0].count >= |Concat(responses)| - written && writes[0].count > 0
    ensures written + |Concat(iovs)| <= |Concat(responses)|
    ensures WriteOut(responses, written, writes) == WriteOut(responses, written + |Concat(iovs)|, writes[1..])
  {
    PiecesAreNext(responses, written, MAX_IOVECS);
  }

  lemma {:induction false} DriveAppends(parse: Parser, h: Handler, l: Life, data: string, writes: seq<WriteResult>)
    requires Stable(parse) && 0 < |data| <= BUF_SIZE
    ensures l.sent <= Drive(parse, h, l, data, writes).sent
    decreases |data|, 0
  {
    if |data| == BUF_SIZE {
      ContinueAppends(parse, h, l, [RESPONSE_BAD_REQUEST], 0, "", false, writes);
    } else {
      var b := TakeBatch(parse, h, data, MAX_PIPELINED_RESPONSES);
      if b.responses != [] { ContinueAppends(parse, h, l, b.responses, 0, b.rest, b.keepAlive, writes); }
    }
  }

  /** Whatever follows, what was written stays sent. */
  lemma {:induction false} ContinueAppends(parse: Parser, h: Handler, l: Life, responses: seq<string>, written: nat,
                                           leftover: string, keepAlive: bool, writes: seq<WriteResult>)
    requires Stable(parse) && |responses| <= MAX_PIPELINED_RESPONSES && written <= |Concat(responses)|
    requires |leftover| < BUF_SIZE
    ensures l.sent + Concat(responses)[written..WriteOut(responses, written, writes).0]
            <= Continue(parse, h, l, responses, written, leftover, keepAlive, writes).sent
    decreases |leftover|, 1
  {
    var (n, later, end) := WriteOut(responses, written, writes);
    if end.Done? && leftover != "" {
      DriveAppends(parse, h, l.(sent := l.sent + Concat(responses)[written..n]), leftover, later);
    }
  }

  /** Nothing in it is complete. */
  predicate Unfinished(parse: Parser, data: string) { data == "" || parse(data).NeedMore? }

  /** A batch that is sent as a whole, with nothing complete left over behind it. */
  lemma {:induction false} ContinueFinishes(parse: Parser, h: Handler, l: Life, responses: seq<string>, written: nat,
                                            leftover: string, keepAlive: bool, writes: seq<WriteResult>)
    requires Stable(parse) && |responses| <= MAX_PIPELINED_RESPONSES && written <= |Concat(responses)|
    requires |leftover| < BUF_SIZE && Unfinished(parse, leftover)
    requires AcceptsAll(writes, |Concat(responses)| - written)
    ensures Continue(parse, h, l, responses, written, leftover, keepAlive, writes)
            == l.(sent := l.sent + Concat(responses)[written..],
                  conn := if leftover != "" || keepAlive then Idle(leftover) else Shut)
  {
    AllAccepted(responses, written, writes);
    var (n, later, end) := WriteOut(responses, written, writes);
    assert Concat(responses)[written..n] == Concat(responses)[written..];
  }

  // ----- everything in a buffer is answered -----

  /** The responses to one buffer: 64 of them, the next one is lost, and so on with those behind it. */
  function Kept(responses: seq<string>): seq<string> {
    if |responses| <= 64 then responses else responses[..64] + Kept(responses[65..])
  }

  /** Each answer accepts `n` bytes, and there are enough of them for so many batches. */
  predicate Generous(writes: seq<WriteResult>, n: nat, batches: nat) {
    |writes| >= 2 * batches && forall i :: 0 <= i < |writes| ==> writes[i].Wrote? && writes[i].count >= n + 1
  }

  lemma {:induction false} GenerousOut(responses: seq<string>, writes: seq<WriteResult>, n: nat, batches: nat)
    requires |responses| <= MAX_PIPELINED_RESPONSES && |Concat(responses)| <= n && batches > 0
    requires Generous(writes, n, batches)
    ensures var (upTo, later, end) := WriteOut(responses, 0, writes);
            upTo == |Concat(responses)| && end.Done? && Generous(later, n, batches - 1)
  {
    AllAccepted(responses, 0, writes);
  }

  /** What a batch leaves in the buffer ends as the buffer does. */
  lemma {:induction false} BatchRest(parse: Parser, h: Handler, s: string, room: nat)
    requires Stable(parse)
    ensures Serve(parse, h, TakeBatch(parse, h, s, room).rest).rest == Serve(parse, h, s).rest
    decreases |s|
  {
    assert StableAt(parse, s, "");
    match parse(s)
    case NeedMore =>
    case Reject(response) => EmptyStream(parse, h);
    case Complete(request, n) => if room > 0 { BatchRest(parse, h, s[n..], room - 1); }
  }

  lemma {:induction false} FrontFits(responses: seq<string>, k: nat)
    requires k <= |responses|
    ensures |Concat(responses[..k])| <= |Concat(responses)| && |Concat(responses[k..])| <= |Concat(responses)|
  {
    assert responses == responses[..k] + responses[k..];
    ConcatSum(responses[..k], responses[k..]);
  }

  /** One batch: it is sent, and the answers left over are for what it leaves in the buffer. */
  lemma {:induction false} OneBatchSent(parse: Parser, h: Handler, l: Life, data: string, writes: seq<WriteResult>,
                                        n: nat, batches: nat, b: Batch)
    returns (m: Life, later: seq<WriteResult>)
    requires Stable(parse) && 0 < |data| < BUF_SIZE && b == TakeBatch(parse, h, data, MAX_PIPELINED_RESPONSES)
    requires b.responses != [] && |Concat(b.responses)| <= n && batches > 0 && Generous(writes, n, batches)
    ensures m == l.(sent := l.sent + Concat(b.responses)) && Generous(later, n, batches - 1)
    ensures Drive(parse, h, l, data, writes) == if b.rest != "" then Drive(parse, h, m, b.rest, later)
                                                else m.(conn := if b.keepAlive then Idle("") else Shut)
  {
    GenerousOut(b.responses, writes, n, batches);
    var (upTo, rest, _) := WriteOut(b.responses, 0, writes);
    later := rest;
    m := l.(sent := l.sent + Concat(b.responses));
    assert Concat(b.responses)[0..upTo] == Concat(b.responses);
  }

  /** What a batch has of the responses to the buffer, and what it leaves of them. */
  lemma {:induction false} BatchSplits(parse: Parser, h: Handler, data: string, v: Served, b: Batch)
    requires Stable(parse) && v == Serve(parse, h, data) && v.responses != []
    requires b == TakeBatch(parse, h, data, MAX_PIPELINED_RESPONSES)
    ensures var w := Serve(parse, h, b.rest);
            && b.responses != [] && |w.responses| < |v.responses| && w.rest == v.rest
            && |Concat(b.responses)| <= |Concat(v.responses)| && |Concat(w.responses)| <= |Concat(v.responses)|
            && Concat(Kept(v.responses)) == Concat(b.responses) + Concat(Kept(w.responses))
            && (b.keepAlive ==> |v.responses| <= 64) && (b.rest == "" && |v.responses| <= 64 ==> v.rest == "")
  {
    BatchServes(parse, h, data, MAX_PIPELINED_RESPONSES);
    BatchRest(parse, h, data, MAX_PIPELINED_RESPONSES);
    RestIsUnanswered(parse, h, data);
    RestOfStream(parse, h, data);
    EmptyStream(parse, h);
    if |v.responses| > 64 {
      FrontFits(v.responses, 64);
      LostBehind(v.responses);
    } else {
      assert Concat(Kept([])) == "";
    }
  }

  /** A buffer that is not full, when the system accepts all: the responses to it but those that are
      lost are sent, and the connection waits for the rest of a request, or is closed. */
  lemma {:induction false} BufferAnswered(parse: Parser, h: Handler, l: Life, data: string, writes: seq<WriteResult>,
                                          n: nat, batches: nat)
    requires Stable(parse) && 0 < |data| < BUF_SIZE && |Concat(Serve(parse, h, data).responses)| <= n
    requires batches >= |Serve(parse, h, data).responses| && Generous(writes, n, batches)
    ensures var v, r := Serve(parse, h, data), Drive(parse, h, l, data, writes);
            && r.sent == l.sent + Concat(Kept(v.responses)) && r.aborted == l.aborted
            && (r.conn == Idle(v.rest) || (r.conn == Shut && v.responses != []))
    decreases |data|
  {
    var v, b := Serve(parse, h, data), TakeBatch(parse, h, data, MAX_PIPELINED_RESPONSES);
    if v.responses == [] {
      BatchServes(parse, h, data, MAX_PIPELINED_RESPONSES);
      RestOfStream(parse, h, data);
    } else {
      BatchSplits(parse, h, data, v, b);
      var m, later := OneBatchSent(parse, h, l, data, writes, n, batches, b);
      ConcatAssoc(l.sent, Concat(b.responses), Concat(Kept(Serve(parse, h, b.rest).responses)));
      if b.rest != "" {
        BufferAnswered(parse, h, m, b.rest, later, n, batches - 1);
      } else {
        EmptyStream(parse, h);
      }
    }
  }

  lemma {:induction false} LostBehind(responses: seq<string>)
    requires |responses| > 64
    ensures |Concat(responses[65..])| <= |Concat(responses)|
    ensures Concat(Kept(responses)) == Concat(responses[..64]) + Concat(Kept(responses[65..]))
  {
    FrontFits(responses, 65);
    ConcatSum(responses[..64], Kept(responses[65..]));
  }

  /** A full buffer is one rejection. */
  lemma {:induction false} FullBufferAnswered(parse: Parser, h: Handler, l: Life, data: string,
                                              writes: seq<WriteResult>)
    requires Stable(parse) && |data| == BUF_SIZE && Generous(writes, |RESPONSE_BAD_REQUEST|, 1)
    ensures Drive(parse, h, l, data, writes) == l.(conn := Shut, sent := l.sent + RESPONSE_BAD_REQUEST)
  {
    var responses := [RESPONSE_BAD_REQUEST];
    assert Concat(responses) == RESPONSE_BAD_REQUEST + Concat([]) == RESPONSE_BAD_REQUEST;
    GenerousOut(responses, writes, |RESPONSE_BAD_REQUEST|, 1);
    assert Concat(responses)[0..|Concat(responses)|] == Concat(responses);
  }

  // ----- nothing complete is left waiting -----

  lemma {:induction false} DriveUnfinished(parse: Parser, h: Handler, l: Life, data: string, writes: seq<WriteResult>)
    requires Stable(parse) && 0 < |data| <= BUF_SIZE
    ensures var c := Drive(parse, h, l, data, writes).conn; c.Idle? ==> Unfinished(parse, c.data)
    decreases |data|, 0
  {
    if |data| == BUF_SIZE {
      ContinueUnfinished(parse, h, l, [RESPONSE_BAD_REQUEST], 0, "", false, writes);
    } else {
      var b := TakeBatch(parse, h, data, MAX_PIPELINED_RESPONSES);
      if b.responses != [] { ContinueUnfinished(parse, h, l, b.responses, 0, b.rest, b.keepAlive, writes); }
    }
  }

  lemma {:induction false} ContinueUnfinished(parse: Parser, h: Handler, l: Life, responses: seq<string>, written: nat,
                                              leftover: string, keepAlive: bool, writes: seq<WriteResult>)
    requires Stable(parse) && |responses| <= MAX_PIPELINED_RESPONSES && written <= |Concat(responses)|
    requires |leftover| < BUF_SIZE
    ensures var c := Continue(parse, h, l, responses, written, leftover, keepAlive, writes).conn;
            c.Idle? ==> Unfinished(parse, c.data)
    decreases |leftover|, 1
  {
    var (n, later, end) := WriteOut(responses, written, writes);
    if end.Done? && leftover != "" {
      DriveUnfinished(parse, h, l.(sent := l.sent + Concat(responses)[written..n]), leftover, later);
    }
  }

  lemma {:induction false} ReceiveUnfinished(parse: Parser, h: Handler, l: Life, before: string,
                                             answers: seq<ReadResult>, writes: seq<WriteResult>)
    requires Stable(parse) && |before| < BUF_SIZE && Unfinished(parse, before)
    ensures var c := Receive(parse, h, l, before, answers, writes).conn; c.Idle? ==> Unfinished(parse, c.data)
  {
    var (got, end) := Drained(BUF_SIZE - |before|, answers);
    if OutcomeOf(|before|, |got|, end).Data? {
      DriveUnfinished(parse, h, l.(pieces := l.pieces + [got]), before + got, writes);
    }
  }

  /** In every run a connection that waits for input has nothing complete in its buffer. */
  lemma {:induction false} WaitingIsUnfinished(parse: Parser, h: Handler, events: seq<Event>, fd: nat)
    requires Stable(parse)
    ensures var c := History(parse, h, events, fd).conn; c.Idle? ==> Unfinished(parse, c.data)
    decreases |events|
  {
    if events != [] {
      var front, e := events[..|events| - 1], events[|events| - 1];
      var l := History(parse, h, front, fd);
      WaitingIsUnfinished(parse, h, front, fd);
      match e
      case Hangup(_) =>
      case NewClient(_, _, answers, writes) => ReceiveUnfinished(parse, h, OPENED, "", answers, writes);
      case Ready(_, readable, _, answers, writes, more) =>
        if l.conn.Idle? { ReceiveUnfinished(parse, h, l, l.conn.data, answers, writes); }
        var m := if readable then ReadStep(parse, h, l, answers, writes) else l;
        if m.conn.Busy? {
          ContinueUnfinished(parse, h, m, m.conn.responses, m.conn.written, m.conn.leftover, m.conn.keepAlive, more);
        }
    }
  }

  // ----- what one event does -----

  /** Reading behind `before`: what is delivered is received as one piece; if nothing is, the
      connection goes on waiting, or ends because the stream or reading does. Where the system
      accepts all there is to send, everything in the buffer is answered as described above. */
  ghost predicate Takes(parse: Parser, h: Handler, l: Life, before: string, answers: seq<ReadResult>,
                        writes: seq<WriteResult>, r: Life)
    requires Stable(parse) && |before| < BUF_SIZE
  {
    var room, all := BUF_SIZE - |before|, Delivered(answers);
    var got, end := all[..Min(|all|, room)], if |all| >= room then Full else Ending(answers);
    if end == Lost || (end == Eof && before + got == "") then
      r == l.(conn := Shut, aborted := true)
    else if before + got == "" then r == l.(conn := Idle(""))
    else r.pieces == l.pieces + [got] && l.sent <= r.sent && Answers(parse, h, l, before + got, writes, r)
  }

  /** The buffer is answered, or rejected when it is full. */
  ghost predicate Answers(parse: Parser, h: Handler, l: Life, data: string, writes: seq<WriteResult>, r: Life)
    requires Stable(parse)
  {
    var v := Serve(parse, h, data);
    && (|data| == BUF_SIZE && Generous(writes, |RESPONSE_BAD_REQUEST|, 1) ==>
          r.sent == l.sent + RESPONSE_BAD_REQUEST && r.conn == Shut)
    && (|data| < BUF_SIZE && Generous(writes, |Concat(v.responses)|, |v.responses|) ==>
          && r.sent == l.sent + Concat(Kept(v.responses)) && r.aborted == l.aborted
          && (r.conn == Idle(v.rest) || (r.conn == Shut && v.responses != [])))
  }

  lemma {:induction false} DriveAnswers(parse: Parser, h: Handler, l: Life, m: Life, data: string,
                                        writes: seq<WriteResult>)
    requires Stable(parse) && 0 < |data| <= BUF_SIZE && m.sent == l.sent && m.aborted == l.aborted
    ensures Answers(parse, h, l, data, writes, Drive(parse, h, m, data, writes))
  {
    var v := Serve(parse, h, data);
    if |data| == BUF_SIZE {
      if Generous(writes, |RESPONSE_BAD_REQUEST|, 1) { FullBufferAnswered(parse, h, m, data, writes); }
    } else if Generous(writes, |Concat(v.responses)|, |v.responses|) {
      BufferAnswered(parse, h, m, data, writes, |Concat(v.responses)|, |v.responses|);
    }
  }

  /** Going on with a batch: nothing happens when writing blocks, and the connection ends when it
      fails. At least what the first answer accepts is sent; when all that is left is accepted,
      all of it, and with nothing complete behind it the connection is not busy. */
  ghost predicate Sends(parse: Parser, l: Life, writes: seq<WriteResult>, r: Life)
    requires l.conn.Busy? && l.conn.written <= |Concat(l.conn.responses)|
  {
    var pending := Concat(l.conn.responses)[l.conn.written..];
    var next := Concat(NextPieces(l.conn.responses, l.conn.written, MAX_IOVECS));
    && r.pieces == l.pieces && l.sent <= r.sent
    && (writes == [] || writes[0].WouldBlockWrite? ==> r == l)
    && (writes != [] && (writes[0].WriteFailed? || writes[0] == Wrote(0)) ==> r == l.(conn := Shut, aborted := true))
    && (writes != [] && writes[0].Wrote? && writes[0].count > 0 ==>
          0 < |next| && l.sent + next[..Min(writes[0].count, |next|)] <= r.sent)
    && (AcceptsAll(writes, |pending|) ==> l.sent + pending <= r.sent)
    && (AcceptsAll(writes, |pending|) && Unfinished(parse, l.conn.leftover) ==>
          && r.sent == l.sent + pending && r.aborted == l.aborted
          && r.conn == if l.conn.leftover != "" || l.conn.keepAlive then Idle(l.conn.leftover) else Shut)
  }

  /** The end of a connection whose peer hung up. */
  predicate HangsUp(l: Life, r: Life) {
    !IsOpen(r.conn) && r.sent == l.sent && r.pieces == l.pieces && (IsOpen(l.conn) ==> r.conn == Shut && r.aborted)
  }

  /** What an event does to its own descriptor. */
  ghost predicate Proceeds(parse: Parser, h: Handler, l: Life, e: Event, r: Life)
    requires Stable(parse) && Shaped(l.conn)
  {
    match e
    case Hangup(_) => HangsUp(l, r)
    case NewClient(_, configured, answers, writes) =>
      if IsOpen(l.conn) then r == l
      else if !configured then r == UNOPENED
      else Takes(parse, h, Life(Idle(""), [], "", false), "", answers, writes, r)
    case Ready(_, readable, writable, answers, writes, more) =>
      if l.conn.Idle? && readable then Takes(parse, h, l, l.conn.data, answers, writes, r)
      else if l.conn.Busy? && writable then Sends(parse, l, more, r)
      else r == l
  }

  lemma {:induction false} ReceiveTakes(parse: Parser, h: Handler, l: Life, before: string, answers: seq<ReadResult>,
                                        writes: seq<WriteResult>)
    requires Stable(parse) && |before| < BUF_SIZE
    ensures Takes(parse, h, l, before, answers, writes, Receive(parse, h, l, before, answers, writes))
  {
    var room, all := BUF_SIZE - |before|, Delivered(answers);
    DrainedIs(room, answers);
    var (got, end) := Drained(room, answers);
    assert got == all[..Min(|all|, room)];
    if OutcomeOf(|before|, |got|, end).Data? {
      DriveReceivesNothing(parse, h, l.(pieces := l.pieces + [got]), before + got, writes);
      DriveAppends(parse, h, l.(pieces := l.pieces + [got]), before + got, writes);
      DriveAnswers(parse, h, l, l.(pieces := l.pieces + [got]), before + got, writes);
    }
  }

  lemma {:induction false} WriteStepStops(parse: Parser, h: Handler, l: Life, writes: seq<WriteResult>)
    requires Stable(parse) && Shaped(l.conn) && l.conn.Busy?
    ensures writes == [] || writes[0].WouldBlockWrite? ==> WriteStep(parse, h, l, writes) == l
    ensures writes != [] && (writes[0].WriteFailed? || writes[0] == Wrote(0)) ==>
              WriteStep(parse, h, l, writes) == l.(conn := Shut, aborted := true)
  {
    PiecesAreNext(l.conn.responses, l.conn.written, MAX_IOVECS);
    assert l.sent + Concat(l.conn.responses)[l.conn.written..l.conn.written] == l.sent;
  }

  lemma {:induction false} WriteStepStarts(parse: Parser, h: Handler, l: Life, writes: seq<WriteResult>)
    requires Stable(parse) && Shaped(l.conn) && l.conn.Busy?
    requires writes != [] && writes[0].Wrote? && writes[0].count > 0
    ensures var next := Concat(NextPieces(l.conn.responses, l.conn.written, MAX_IOVECS));
            0 < |next| && l.sent + next[..Min(writes[0].count, |next|)] <= WriteStep(parse, h, l, writes).sent
  {
    var responses, written := l.conn.responses, l.conn.written;
    var all, next := Concat(responses), Concat(NextPieces(responses, written, MAX_IOVECS));
    PiecesAreNext(responses, written, MAX_IOVECS);
    ContinueAppends(parse, h, l, responses, written, l.conn.leftover, l.conn.keepAlive, writes);
    FirstWriteSends(responses, written, writes);
    assert next[..Min(writes[0].count, |next|)] <= all[written..WriteOut(responses, written, writes).0];
  }

  lemma {:induction false} WriteStepFinishes(parse: Parser, h: Handler, l: Life, writes: seq<WriteResult>)
    requires Stable(parse) && Shaped(l.conn) && l.conn.Busy?
    requires AcceptsAll(writes, |Concat(l.conn.responses)| - l.conn.written)
    ensures var pending, r := Concat(l.conn.responses)[l.conn.written..], WriteStep(parse, h, l, writes);
            && l.sent + pending <= r.sent
            && (Unfinished(parse, l.conn.leftover) ==>
                  && r.sent == l.sent + pending && r.aborted == l.aborted
                  && r.conn == if l.conn.leftover != "" || l.conn.keepAlive then Idle(l.conn.leftover) else Shut)
  {
    var responses, written, leftover := l.conn.responses, l.conn.written, l.conn.leftover;
    ContinueAppends(parse, h, l, responses, written, leftover, l.conn.keepAlive, writes);
    AllAccepted(responses, written, writes);
    assert Concat(responses)[written..|Concat(responses)|] == Concat(responses)[written..];
    if Unfinished(parse, leftover) {
      ContinueFinishes(parse, h, l, responses, written, leftover, l.conn.keepAlive, writes);
    }
  }

  lemma {:induction false} WriteStepSends(parse: Parser, h: Handler, l: Life, writes: seq<WriteResult>)
    requires Stable(parse) && Shaped(l.conn) && l.conn.Busy?
    ensures Sends(parse, l, writes, WriteStep(parse, h, l, writes))
  {
    var responses, written, leftover := l.conn.responses, l.conn.written, l.conn.leftover;
    ContinueReceivesNothing(parse, h, l, responses, written, leftover, l.conn.keepAlive, writes);
    ContinueAppends(parse, h, l, responses, written, leftover, l.conn.keepAlive, writes);
    WriteStepStops(parse, h, l, writes);
    if writes != [] && writes[0].Wrote? && writes[0].count > 0 { WriteStepStarts(parse, h, l, writes); }
    if AcceptsAll(writes, |Concat(responses)| - written) { WriteStepFinishes(parse, h, l, writes); }
  }

  /** Every event does what is described above. */
  lemma {:induction false} StepProceeds(parse: Parser, h: Handler, l: Life, e: Event)
    requires Stable(parse) && Shaped(l.conn)
    ensures Proceeds(parse, h, l, e, Step(parse, h, l, e, e.fd))
  {
    match e
    case Hangup(_) =>
    case NewClient(_, configured, answers, writes) =>
      if configured { ReceiveTakes(parse, h, OPENED, "", answers, writes); }
    case Ready(_, readable, writable, answers, writes, more) =>
      if l.conn.Idle? && readable {
        var m := Receive(parse, h, l, l.conn.data, answers, writes);
        ReceiveTakes(parse, h, l, l.conn.data, answers, writes);
        if writable && m.conn.Busy? { WriteStepSends(parse, h, m, more); }
      } else if l.conn.Busy? && writable {
        WriteStepSends(parse, h, l, more);
      }
  }

  // ----- everything is sent -----

  /** All that is owed for the bytes received. */
  ghost function Owed(parse: Parser, h: Handler, l: Life): string
    requires Stable(parse)
  {
    Concat(Serve(parse, h, Concat(l.pieces)).responses)
  }

  lemma {:induction false} RestIsUnfinished(parse: Parser, h: Handler, s: string)
    requires Stable(parse)
    ensures Unfinished(parse, Serve(parse, h, s).rest)
  {
    RestOfStream(parse, h, s);
    RestIsUnanswered(parse, h, s);
    var v := Serve(parse, h, s);
    if !v.closed { RestOfStream(parse, h, v.rest); }
  }

  lemma {:induction false} BusyFinishes(parse: Parser, h: Handler, l: Life, writes: seq<WriteResult>)
    requires Stable(parse) && Shaped(l.conn) && LifeOk(parse, h, l) && AllManageable(parse, h, l.pieces)
    requires AcceptsAll(writes, |Owed(parse, h, l)|)
    ensures !WriteStep(parse, h, l, writes).conn.Busy?
  {
    if l.conn.Busy? {
      RestIsUnfinished(parse, h, Concat(l.pieces));
      var pending := Concat(l.conn.responses)[l.conn.written..];
      assert l.sent + pending == Owed(parse, h, l);
      ContinueFinishes(parse, h, l, l.conn.responses, l.conn.written, l.conn.leftover, l.conn.keepAlive, writes);
    }
  }

  lemma {:induction false} ReadFinishes(parse: Parser, h: Handler, l: Life, before: string, answers: seq<ReadResult>,
                                        writes: seq<WriteResult>, r: Life)
    requires Stable(parse) && |before| < BUF_SIZE && !l.aborted && Quiet(parse, h, TraceOf(parse, h, l), before)
    requires r == Receive(parse, h, l, before, answers, writes) && AllManageable(parse, h, r.pieces)
    requires AcceptsAll(writes, |Owed(parse, h, r)|)
    ensures !r.conn.Busy?
  {
    var (got, end) := Drained(BUF_SIZE - |before|, answers);
    if OutcomeOf(|before|, |got|, end).Data? {
      var m, data := l.(pieces := l.pieces + [got]), before + got;
      DriveReceivesNothing(parse, h, m, data, writes);
      QuietThenData(parse, h, TraceOf(parse, h, l), before, got);
      OneMorePiece(parse, h, l, before, got);
      DataFinishes(parse, h, m, data, writes);
    }
  }

  lemma {:induction false} DataFinishes(parse: Parser, h: Handler, l: Life, data: string, writes: seq<WriteResult>)
    requires Stable(parse) && 0 < |data| && Manageable(parse, h, data)
    requires AllManageable(parse, h, l.pieces) && Due(parse, h, TraceOf(parse, h, l), data)
    requires AcceptsAll(writes, |Owed(parse, h, l)|)
    ensures !Drive(parse, h, l, data, writes).conn.Busy?
  {
    BatchServes(parse, h, data, MAX_PIPELINED_RESPONSES);
    RestIsUnfinished(parse, h, data);
    var b := TakeBatch(parse, h, data, MAX_PIPELINED_RESPONSES);
    if b.responses != [] {
      assert l.sent + Concat(b.responses) == Owed(parse, h, l) && Concat(b.responses)[0..] == Concat(b.responses);
      ContinueFinishes(parse, h, l, b.responses, 0, b.rest, b.keepAlive, writes);
    }
  }

  /** The event accepts `n` bytes of whatever is to be sent last. */
  predicate EventAccepts(l: Life, e: Event, n: nat) {
    match e
    case Hangup(_) => false
    case NewClient(_, configured, _, writes) => !IsOpen(l.conn) && configured && AcceptsAll(writes, n)
    case Ready(_, readable, writable, _, writes, more) =>
      (writable && AcceptsAll(more, n)) || (readable && l.conn.Idle? && AcceptsAll(writes, n))
  }

  /** Whoever accepts what is owed for a manageable stream gets it: after such an event nothing
      is waiting to be sent. */
  lemma {:induction false} AcceptedIsSent(parse: Parser, h: Handler, l: Life, e: Event, r: Life)
    requires Stable(parse) && Shaped(l.conn) && LifeOk(parse, h, l) && r == Step(parse, h, l, e, e.fd)
    requires AllManageable(parse, h, r.pieces) && EventAccepts(l, e, |Owed(parse, h, r)|)
    ensures !r.conn.Busy?
  {
    match e
    case NewClient(_, configured, answers, writes) =>
      EmptyStream(parse, h);
      ReadFinishes(parse, h, OPENED, "", answers, writes, r);
    case Ready(_, readable, writable, answers, writes, more) =>
      var m := if readable then ReadStep(parse, h, l, answers, writes) else l;
      if readable && l.conn.Idle? { ReceiveOk(parse, h, l, l.conn.data, answers, writes); }
      if m.conn.Busy? && writable {
        ContinueReceivesNothing(parse, h, m, m.conn.responses, m.conn.written, m.conn.leftover, m.conn.keepAlive, more);
        if AcceptsAll(more, |Owed(parse, h, m)|) { BusyFinishes(parse, h, m, more); }
      }
      if readable && l.conn.Idle? && AcceptsAll(writes, |Owed(parse, h, r)|) {
        ReadFinishes(parse, h, l, l.conn.data, answers, writes, m);
      }
  }

  // ----- over whole runs -----

  /** What the last event did to descriptor `fd`, which has come to `r`: nothing if it was about
      another one. If it accepted all that is owed for a manageable stream, all is sent. */
  ghost predicate LastEventDone(parse: Parser, h: Handler, events: seq<Event>, fd: nat, r: Life)
    requires Stable(parse)
  {
    if events == [] then r == UNOPENED
    else
      var l, e := History(parse, h, events[..|events| - 1], fd), events[|events| - 1];
      if e.fd != fd then r == l
      else
        && Proceeds(parse, h, l, e, r)
        && (EventAccepts(l, e, |Owed(parse, h, r)|) && AllManageable(parse, h, r.pieces) && r.conn != Never ==>
              !r.conn.Busy? && (!r.aborted ==> r.sent == Owed(parse, h, r)))
  }

  lemma {:induction false} RunProceeds(parse: Parser, h: Handler, events: seq<Event>, fd: nat)
    requires Stable(parse)
    ensures LastEventDone(parse, h, events, fd, History(parse, h, events, fd))
  {
    if events != [] && events[|events| - 1].fd == fd {
      var front, e := events[..|events| - 1], events[|events| - 1];
      var l, r := History(parse, h, front, fd), History(parse, h, events, fd);
      StepProceeds(parse, h, l, e);
      HistoryOk(parse, h, front, fd);
      if EventAccepts(l, e, |Owed(parse, h, r)|) && AllManageable(parse, h, r.pieces) && r.conn != Never {
        AcceptedIsSent(parse, h, l, e, r);
        EveryRunIsAnswered(parse, h, events, fd);
      }
    }
  }
}
