/**
 * What the server owes to a connection, and that it pays: over all sequences of events the
 * bytes sent are the answers to the requests received, in order.
 */
module Promise {
  import opened Base
  import opened HttpParser
  import opened HttpStream
  import opened Session

  // ----- what a connection promises -----

  /** The bytes received and sent, and whether every piece received was manageable. */
  datatype Trace = Trace(received: string, sent: string, clean: bool)

  /** Everything received is answered, up to the incomplete request `data`. */
  ghost predicate Quiet(parse: Parser, h: Handler, t: Trace, data: string)
    requires Stable(parse)
  {
    t.clean ==>
      var v := Serve(parse, h, t.received);
      t.sent == Concat(v.responses) && v.rest == data && !v.closed && v.keepAlive
  }

  /** Only the answers to `data` are missing. */
  ghost predicate Due(parse: Parser, h: Handler, t: Trace, data: string)
    requires Stable(parse)
  {
    t.clean ==>
      var v, d := Serve(parse, h, t.received), Serve(parse, h, data);
      && t.sent + Concat(d.responses) == Concat(v.responses)
      && v.rest == d.rest && v.closed == d.closed && v.keepAlive == d.keepAlive
  }

  /** Only `pending` is missing; `leftover` is an incomplete request. */
  ghost predicate Sending(parse: Parser, h: Handler, t: Trace, pending: string, leftover: string, keepAlive: bool)
    requires Stable(parse)
  {
    t.clean ==>
      var v := Serve(parse, h, t.received);
      && t.sent + pending == Concat(v.responses) && v.rest == leftover
      && keepAlive == (v.keepAlive && !v.closed) && (leftover == "" || keepAlive)
  }

  /** What was sent is the beginning of the answer; all of it, unless the peer or an error
      ended the connection, and then the stream had a rejected request or one to close. */
  ghost predicate Final(parse: Parser, h: Handler, t: Trace, aborted: bool)
    requires Stable(parse)
  {
    t.clean ==>
      var v := Serve(parse, h, t.received);
      && t.sent <= Concat(v.responses)
      && (!aborted ==> t.sent == Concat(v.responses) && (v.closed || !v.keepAlive))
  }

  /** What keeps a connection clean: the buffer is not full, at most 64 requests are
      answered at once, and nothing is left over when one of them asks to close. */
  ghost predicate Manageable(parse: Parser, h: Handler, data: string)
    requires Stable(parse)
  {
    var v := Serve(parse, h, data);
    |data| < BUF_SIZE && |v.responses| <= MAX_PIPELINED_RESPONSES && (v.keepAlive || v.rest == "")
  }

  /** Every piece handed to the parser was manageable behind what was not answered then. */
  ghost predicate AllManageable(parse: Parser, h: Handler, pieces: seq<string>)
    requires Stable(parse)
  {
    pieces == [] ||
    var front, last := pieces[..|pieces| - 1], pieces[|pieces| - 1];
    AllManageable(parse, h, front) && Manageable(parse, h, Serve(parse, h, Concat(front)).rest + last)
  }

  ghost function TraceOf(parse: Parser, h: Handler, l: Life): Trace
    requires Stable(parse)
  {
    Trace(Concat(l.pieces), l.sent, AllManageable(parse, h, l.pieces))
  }

  ghost predicate LifeOk(parse: Parser, h: Handler, l: Life)
    requires Stable(parse)
  {
    var t := TraceOf(parse, h, l);
    match l.conn
    case Never => true
    case Idle(data) => !l.aborted && Quiet(parse, h, t, data)
    case Busy(responses, written, leftover, keepAlive) =>
      !l.aborted && written <= |Concat(responses)|
        && Sending(parse, h, t, Concat(responses)[written..], leftover, keepAlive)
    case Shut => Final(parse, h, t, l.aborted)
  }

  // ----- how the promises are kept -----

  /** An unfinished request alone is not answered. */
  lemma {:induction false} RestIsUnanswered(parse: Parser, h: Handler, s: string)
    requires Stable(parse)
    ensures var v := Serve(parse, h, s); !v.closed ==> Serve(parse, h, v.rest) == Served([], v.rest, false, true)
    decreases |s|
  {
    assert StableAt(parse, s, "");
    if parse(s).Complete? { RestIsUnanswered(parse, h, s[parse(s).consumed..]); }
  }

  lemma QuietThenData(parse: Parser, h: Handler, t: Trace, data: string, got: string)
    requires Stable(parse) && Quiet(parse, h, t, data)
    ensures Due(parse, h, t.(received := t.received + got), data + got)
  {
    ServeInPieces(parse, h, t.received, got);
    if t.clean {
      var v, w := Serve(parse, h, t.received), Serve(parse, h, data + got);
      ConcatSum(v.responses, w.responses);
    }
  }

  lemma LeftoverIsDue(parse: Parser, h: Handler, t: Trace, leftover: string, keepAlive: bool)
    requires Stable(parse) && Sending(parse, h, t, "", leftover, keepAlive)
    ensures leftover == "" && keepAlive ==> Quiet(parse, h, t, "")
    ensures leftover == "" && !keepAlive ==> Final(parse, h, t, false)
    ensures leftover != "" ==> Due(parse, h, t, leftover)
  {
    RestIsUnanswered(parse, h, t.received);
    assert t.sent + "" == t.sent;
  }

  /** What the batch of a buffer leaves to be sent, or the buffer unchanged. */
  lemma {:induction false} BatchIsPending(parse: Parser, h: Handler, t: Trace, data: string, b: Batch)
    requires Stable(parse) && Due(parse, h, t, data) && (t.clean ==> Manageable(parse, h, data))
    requires b == TakeBatch(parse, h, data, MAX_PIPELINED_RESPONSES)
    ensures Sending(parse, h, t, Concat(b.responses), b.rest, b.keepAlive)
    ensures b.responses == [] ==> Quiet(parse, h, t, data)
  {
    BatchServes(parse, h, data, MAX_PIPELINED_RESPONSES);
    RestOfStream(parse, h, data);
  }

  lemma SomeWereSent(parse: Parser, h: Handler, t: Trace, pending: string, n: nat, leftover: string, keepAlive: bool)
    requires Stable(parse) && Sending(parse, h, t, pending, leftover, keepAlive) && n <= |pending|
    ensures Sending(parse, h, t.(sent := t.sent + pending[..n]), pending[n..], leftover, keepAlive)
  {
    assert pending == pending[..n] + pending[n..];
    ConcatAssoc(t.sent, pending[..n], pending[n..]);
  }

  /** An incomplete request shorter than the buffer is manageable. */
  lemma LeftoverManageable(parse: Parser, h: Handler, t: Trace, pending: string, leftover: string, keepAlive: bool)
    requires Stable(parse) && Sending(parse, h, t, pending, leftover, keepAlive)
    requires t.clean && leftover != "" && |leftover| < BUF_SIZE
    ensures Manageable(parse, h, leftover)
  {
    RestIsUnanswered(parse, h, t.received);
  }

  lemma OneMorePiece(parse: Parser, h: Handler, l: Life, before: string, got: string)
    requires Stable(parse) && Quiet(parse, h, TraceOf(parse, h, l), before)
    ensures var t, m := TraceOf(parse, h, l), TraceOf(parse, h, l.(pieces := l.pieces + [got]));
            m == Trace(t.received + got, t.sent, t.clean && Manageable(parse, h, before + got))
  {
    var pieces := l.pieces + [got];
    ConcatSum(l.pieces, [got]);
    assert Concat([got]) == got + Concat([]) == got;
    assert pieces[..|l.pieces|] == l.pieces && pieces[|l.pieces|] == got;
  }

  lemma {:induction false} DriveOk(parse: Parser, h: Handler, l: Life, data: string, writes: seq<WriteResult>)
    requires Stable(parse) && 0 < |data| <= BUF_SIZE && !l.aborted
    requires var t := TraceOf(parse, h, l); Due(parse, h, t, data) && (t.clean ==> Manageable(parse, h, data))
    ensures LifeOk(parse, h, Drive(parse, h, l, data, writes))
    decreases |data|, 0
  {
    if |data| == BUF_SIZE {
      ContinueOk(parse, h, l, [RESPONSE_BAD_REQUEST], 0, "", false, writes);
    } else {
      var b := TakeBatch(parse, h, data, MAX_PIPELINED_RESPONSES);
      BatchIsPending(parse, h, TraceOf(parse, h, l), data, b);
      if b.responses != [] {
        assert Concat(b.responses)[0..] == Concat(b.responses);
        ContinueOk(parse, h, l, b.responses, 0, b.rest, b.keepAlive, writes);
      }
    }
  }

  lemma {:induction false} ContinueOk(parse: Parser, h: Handler, l: Life, responses: seq<string>, written: nat,
                                      leftover: string, keepAlive: bool, writes: seq<WriteResult>)
    requires Stable(parse) && |responses| <= MAX_PIPELINED_RESPONSES && written <= |Concat(responses)|
    requires |leftover| < BUF_SIZE
    requires !l.aborted && Sending(parse, h, TraceOf(parse, h, l), Concat(responses)[written..], leftover, keepAlive)
    ensures LifeOk(parse, h, Continue(parse, h, l, responses, written, leftover, keepAlive, writes))
    decreases |leftover|, 1
  {
    var (n, later, end) := WriteOut(responses, written, writes);
    var all := Concat(responses);
    var m := l.(sent := l.sent + all[written..n]);
    WrittenTo(parse, h, l, m, all, written, n, leftover, keepAlive);
    if end.Done? {
      assert all[n..] == "";
      LeftoverIsDue(parse, h, TraceOf(parse, h, m), leftover, keepAlive);
      if leftover != "" {
        if TraceOf(parse, h, m).clean { LeftoverManageable(parse, h, TraceOf(parse, h, m), "", leftover, keepAlive); }
        DriveOk(parse, h, m, leftover, later);
      }
    }
  }

  lemma {:induction false} WrittenTo(parse: Parser, h: Handler, l: Life, m: Life, all: string, written: nat, n: nat,
                                     leftover: string, keepAlive: bool)
    requires Stable(parse) && written <= n <= |all| && m == l.(sent := l.sent + all[written..n])
    requires Sending(parse, h, TraceOf(parse, h, l), all[written..], leftover, keepAlive)
    ensures Sending(parse, h, TraceOf(parse, h, m), all[n..], leftover, keepAlive)
  {
    var pending := all[written..];
    SomeWereSent(parse, h, TraceOf(parse, h, l), pending, n - written, leftover, keepAlive);
    assert pending[..n - written] == all[written..n] && pending[n - written..] == all[n..];
  }

  lemma ReceiveOk(parse: Parser, h: Handler, l: Life, before: string, answers: seq<ReadResult>,
                  writes: seq<WriteResult>)
    requires Stable(parse) && |before| < BUF_SIZE && !l.aborted && Quiet(parse, h, TraceOf(parse, h, l), before)
    ensures LifeOk(parse, h, Receive(parse, h, l, before, answers, writes))
  {
    var (got, end) := Drained(BUF_SIZE - |before|, answers);
    if OutcomeOf(|before|, |got|, end).Data? {
      QuietThenData(parse, h, TraceOf(parse, h, l), before, got);
      OneMorePiece(parse, h, l, before, got);
      DriveOk(parse, h, l.(pieces := l.pieces + [got]), before + got, writes);
    }
  }

  lemma StepOk(parse: Parser, h: Handler, l: Life, e: Event, fd: nat)
    requires Stable(parse) && Shaped(l.conn) && LifeOk(parse, h, l)
    ensures LifeOk(parse, h, Step(parse, h, l, e, fd))
  {
    if e.fd == fd {
      match e
      case NewClient(_, configured, answers, writes) =>
        if configured && !IsOpen(l.conn) {
          EmptyStream(parse, h);
          ReceiveOk(parse, h, OPENED, "", answers, writes);
        }
      case Hangup(_) =>
      case Ready(_, readable, writable, answers, writes, more) =>
        var m := if readable then ReadStep(parse, h, l, answers, writes) else l;
        if readable && l.conn.Idle? { ReceiveOk(parse, h, l, l.conn.data, answers, writes); }
        WriteStepOk(parse, h, m, more);
    }
  }

  lemma WriteStepOk(parse: Parser, h: Handler, l: Life, writes: seq<WriteResult>)
    requires Stable(parse) && Shaped(l.conn) && LifeOk(parse, h, l)
    ensures LifeOk(parse, h, WriteStep(parse, h, l, writes))
  {
    if l.conn.Busy? {
      ContinueOk(parse, h, l, l.conn.responses, l.conn.written, l.conn.leftover, l.conn.keepAlive, writes);
    }
  }

  lemma {:induction false} HistoryOk(parse: Parser, h: Handler, events: seq<Event>, fd: nat)
    requires Stable(parse)
    ensures LifeOk(parse, h, History(parse, h, events, fd))
  {
    if events != [] {
      var front, last := events[..|events| - 1], events[|events| - 1];
      HistoryOk(parse, h, front, fd);
      StepOk(parse, h, History(parse, h, front, fd), last, fd);
    }
  }

  /** What was sent is the beginning of one response per request in the bytes received, in
      order, and all of it unless the batch is still being written or the connection was cut. */
  ghost predicate Answered(parse: Parser, h: Handler, l: Life)
    requires Stable(parse)
  {
    var v := Serve(parse, h, Concat(l.pieces));
    && l.sent <= Concat(v.responses)
    && (l.conn.Idle? || (l.conn.Shut? && !l.aborted) ==> l.sent == Concat(v.responses))
    && (l.conn.Idle? ==> l.conn.data == v.rest)
    && (l.conn.Shut? && !l.aborted ==> v.closed || !v.keepAlive)
  }

  /** Over all events, with every chunking of the reads and every schedule of partial writes,
      a connection whose pieces were all manageable is answered in order. */
  lemma {:induction false} EveryRunIsAnswered(parse: Parser, h: Handler, events: seq<Event>, fd: nat)
    requires Stable(parse)
    ensures var l := History(parse, h, events, fd);
            l.conn != Never && AllManageable(parse, h, l.pieces) ==> Answered(parse, h, l)
  {
    HistoryOk(parse, h, events, fd);
  }

  // ----- who may cut a connection -----

  predicate WritesBreak(writes: seq<WriteResult>) { exists w :: w in writes && WriteBreaks(w) }

  predicate ReadsBreak(answers: seq<ReadResult>) { exists a :: a in answers && (a.Failed? || a == Bytes("")) }

  predicate Breaks(e: Event) {
    match e
    case NewClient(_, _, answers, writes) => ReadsBreak(answers) || WritesBreak(writes)
    case Hangup(_) => true
    case Ready(_, _, _, answers, writes, more) => ReadsBreak(answers) || WritesBreak(writes) || WritesBreak(more)
  }

  lemma {:induction false} WriteOutBreaks(responses: seq<string>, written: nat, writes: seq<WriteResult>)
    requires written <= |Concat(responses)| && !WritesBreak(writes)
    ensures !WriteOut(responses, written, writes).2.Broken? && !WritesBreak(WriteOut(responses, written, writes).1)
    decreases |writes|
  {
    PiecesAreNext(responses, written, MAX_IOVECS);
    var iovs := NextPieces(responses, written, MAX_IOVECS);
    if iovs != [] && writes != [] && !writes[0].WouldBlockWrite? {
      assert writes[0] in writes;
      assert forall w :: w in writes[1..] ==> w in writes;
      WriteOutBreaks(responses, written + Min(writes[0].count, |Concat(iovs)|), writes[1..]);
    }
  }

  lemma {:induction false} DriveBreaks(parse: Parser, h: Handler, l: Life, data: string, writes: seq<WriteResult>)
    requires Stable(parse) && 0 < |data| <= BUF_SIZE && !WritesBreak(writes)
    ensures Drive(parse, h, l, data, writes).aborted == l.aborted
    decreases |data|, 0
  {
    if |data| == BUF_SIZE {
      ContinueBreaks(parse, h, l, [RESPONSE_BAD_REQUEST], 0, "", false, writes);
    } else {
      var b := TakeBatch(parse, h, data, MAX_PIPELINED_RESPONSES);
      if b.responses != [] { ContinueBreaks(parse, h, l, b.responses, 0, b.rest, b.keepAlive, writes); }
    }
  }

  lemma {:induction false} ContinueBreaks(parse: Parser, h: Handler, l: Life, responses: seq<string>, written: nat,
                                          leftover: string, keepAlive: bool, writes: seq<WriteResult>)
    requires Stable(parse) && |responses| <= MAX_PIPELINED_RESPONSES && written <= |Concat(responses)|
    requires |leftover| < BUF_SIZE
    requires !WritesBreak(writes)
    ensures Continue(parse, h, l, responses, written, leftover, keepAlive, writes).aborted == l.aborted
    decreases |leftover|, 1
  {
    var (n, later, end) := WriteOut(responses, written, writes);
    WriteOutBreaks(responses, written, writes);
    if end.Done? && leftover != "" {
      DriveBreaks(parse, h, l.(sent := l.sent + Concat(responses)[written..n]), leftover, later);
    }
  }

  lemma {:induction false} DrainedBreaks(room: nat, answers: seq<ReadResult>)
    requires room > 0 && !ReadsBreak(answers)
    ensures !Drained(room, answers).1.Lost? && !Drained(room, answers).1.Eof?
    decreases |answers|
  {
    if answers != [] && answers[0].Bytes? {
      assert answers[0] in answers;
      assert forall a :: a in answers[1..] ==> a in answers;
      var n := Min(|answers[0].data|, room);
      assert n > 0;
      if n < room { DrainedBreaks(room - n, answers[1..]); }
    } else if answers != [] {
      assert answers[0] in answers;
    }
  }

  lemma ReceiveBreaks(parse: Parser, h: Handler, l: Life, before: string, answers: seq<ReadResult>,
                      writes: seq<WriteResult>)
    requires Stable(parse) && |before| < BUF_SIZE && !ReadsBreak(answers) && !WritesBreak(writes)
    ensures Receive(parse, h, l, before, answers, writes).aborted == l.aborted
  {
    DrainedBreaks(BUF_SIZE - |before|, answers);
    var (got, end) := Drained(BUF_SIZE - |before|, answers);
    if OutcomeOf(|before|, |got|, end).Data? {
      DriveBreaks(parse, h, l.(pieces := l.pieces + [got]), before + got, writes);
    }
  }

  lemma StepBreaks(parse: Parser, h: Handler, l: Life, e: Event, fd: nat)
    requires Stable(parse) && Shaped(l.conn) && !l.aborted && (e.fd == fd ==> !Breaks(e))
    ensures !Step(parse, h, l, e, fd).aborted
  {
    if e.fd == fd {
      match e
      case NewClient(_, configured, answers, writes) =>
        if configured { ReceiveBreaks(parse, h, OPENED, "", answers, writes); }
      case Hangup(_) =>
      case Ready(_, readable, writable, answers, writes, more) =>
        var m := if readable then ReadStep(parse, h, l, answers, writes) else l;
        if readable && l.conn.Idle? { ReceiveBreaks(parse, h, l, l.conn.data, answers, writes); }
        if writable && m.conn.Busy? {
          ContinueBreaks(parse, h, m, m.conn.responses, m.conn.written, m.conn.leftover, m.conn.keepAlive, more);
        }
    }
  }

  /** A connection is cut only by a hang-up, a failed or empty read, or a failed write. */
  lemma {:induction false} UndisturbedIsNotCut(parse: Parser, h: Handler, events: seq<Event>, fd: nat)
    requires Stable(parse) && forall i :: 0 <= i < |events| && events[i].fd == fd ==> !Breaks(events[i])
    ensures !History(parse, h, events, fd).aborted
  {
    if events != [] {
      var front, last := events[..|events| - 1], events[|events| - 1];
      UndisturbedIsNotCut(parse, h, front, fd);
      StepBreaks(parse, h, History(parse, h, front, fd), last, fd);
    }
  }

  // ----- a client that asks for no more than a buffer at a time -----

  /** At most 64 requests, none of them to close or rejected, and less than a buffer. */
  ghost predicate Modest(parse: Parser, h: Handler, s: string)
    requires Stable(parse)
  {
    var v := Serve(parse, h, s);
    |s| < BUF_SIZE && |v.responses| <= MAX_PIPELINED_RESPONSES && v.keepAlive && !v.closed
  }

  lemma {:induction false} ModestPrefix(parse: Parser, h: Handler, s: string, t: string)
    requires Stable(parse) && Modest(parse, h, s + t)
    ensures Modest(parse, h, s) && Manageable(parse, h, Serve(parse, h, s).rest + t)
  {
    ServeInPieces(parse, h, s, t);
    RestOfStream(parse, h, s);
  }

  lemma {:induction false} ConcatSnoc(pieces: seq<string>, last: string)
    ensures Concat(pieces + [last]) == Concat(pieces) + last
  {
    ConcatSum(pieces, [last]);
    assert Concat([last]) == last + Concat([]) == last;
  }

  /** However a modest stream is cut into pieces, behind whole requests, all are manageable. */
  lemma {:induction false} AnyChunking(parse: Parser, h: Handler, before: seq<string>, pieces: seq<string>)
    requires Stable(parse) && AllManageable(parse, h, before) && Modest(parse, h, Concat(pieces))
    requires var v := Serve(parse, h, Concat(before)); v.rest == "" && !v.closed
    ensures AllManageable(parse, h, before + pieces)
    ensures var v, w := Serve(parse, h, Concat(before + pieces)), Serve(parse, h, Concat(pieces));
            v.rest == w.rest && !v.closed
  {
    if pieces == [] {
      assert before + pieces == before;
      EmptyStream(parse, h);
    } else {
      var front, last := pieces[..|pieces| - 1], pieces[|pieces| - 1];
      assert pieces == front + [last] && before + pieces == before + front + [last];
      ConcatSnoc(front, last);
      ModestPrefix(parse, h, Concat(front), last);
      AnyChunking(parse, h, before, front);
      ConcatSnoc(before + front, last);
      assert (before + pieces)[..|before + front|] == before + front;
      ServeInPieces(parse, h, Concat(front), last);
      ServeInPieces(parse, h, Concat(before + front), last);
    }
  }

  function Flatten(rounds: seq<seq<string>>): seq<string> {
    if rounds == [] then [] else Flatten(rounds[..|rounds| - 1]) + rounds[|rounds| - 1]
  }

  /** A client that waits for its answers before it sends more, and never has more than 64
      keep-alive requests or a buffer of bytes unanswered, is answered however its rounds are
      cut into pieces on the way. */
  lemma {:induction false} WaitingClientIsManageable(parse: Parser, h: Handler, rounds: seq<seq<string>>)
    requires Stable(parse)
    requires forall i :: 0 <= i < |rounds| ==>
               Modest(parse, h, Concat(rounds[i])) && Serve(parse, h, Concat(rounds[i])).rest == ""
    ensures AllManageable(parse, h, Flatten(rounds))
    ensures var v := Serve(parse, h, Concat(Flatten(rounds))); v.rest == "" && !v.closed
  {
    if rounds == [] {
      EmptyStream(parse, h);
    } else {
      WaitingClientIsManageable(parse, h, rounds[..|rounds| - 1]);
      AnyChunking(parse, h, Flatten(rounds[..|rounds| - 1]), rounds[|rounds| - 1]);
    }
  }

  /** Whole keep-alive requests are such a round. */
  lemma {:induction false} RequestsAreModest(parse: Parser, h: Handler, requests: seq<string>)
    requires Stable(parse) && AllRequests(parse, requests)
    requires forall i :: 0 <= i < |requests| ==> parse(requests[i]).Complete? && parse(requests[i]).request.keepAlive
    ensures var v := Serve(parse, h, Concat(requests));
            |v.responses| == |requests| && v.rest == "" && v.keepAlive && !v.closed
    ensures |requests| <= MAX_PIPELINED_RESPONSES && |Concat(requests)| < BUF_SIZE ==>
              Modest(parse, h, Concat(requests))
  {
    if requests == [] {
      EmptyStream(parse, h);
    } else {
      var first, others := requests[0], Concat(requests[1..]);
      RequestsAreModest(parse, h, requests[1..]);
      assert IsRequest(parse, first) && StableAt(parse, first, others);
      assert (first + others)[|first|..] == others;
    }
  }
}
