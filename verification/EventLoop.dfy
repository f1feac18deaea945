/**
 * The event loop's connection table and handlers. Each handler does to the slots and the
 * registered interest of its descriptor what the session machine does to a connection.
 */
module EventLoop {
  import opened Base
  import opened HttpParser
  import opened HttpStream
  import opened Session
  import opened Progress
  import opened Promise
  import opened Connection

  const MAX_CLIENT_FD := 65_536

  datatype WriteOutcome = DoneReading(buf: Buf, used: nat) | Wait(state: ConnState) | Gone

  /** One answer to a write: everything was sent already, or writing stops here, or goes on. */
  lemma {:induction false} OneMoreWrite(responses: seq<string>, written: nat, writes: seq<WriteResult>, i: nat)
    requires written <= |Concat(responses)| && i <= |writes|
    ensures var iovs, all := NextPieces(responses, written, MAX_IOVECS), WriteOut(responses, written, writes[i..]);
            if iovs == [] then all == (written, writes[i..], Done)
            else if i == |writes| || writes[i].WouldBlockWrite? then all == (written, writes[i..], Waiting)
            else if WriteBreaks(writes[i]) then all == (written, writes[i + 1..], Broken)
            else
              var n := written + Min(writes[i].count, |Concat(iovs)|);
              && n <= |Concat(responses)| && all == WriteOut(responses, n, writes[i + 1..])
              && (n == |Concat(responses)| ==> all == (n, writes[i + 1..], Done))
  {
    PiecesAreNext(responses, written, MAX_IOVECS);
    var iovs := NextPieces(responses, written, MAX_IOVECS);
    if iovs != [] && i < |writes| {
      assert writes[i..][1..] == writes[i + 1..];
      if writes[i].Wrote? { PiecesAreNext(responses, written + Min(writes[i].count, |Concat(iovs)|), MAX_IOVECS); }
    }
  }

  /** The loop of `finish_write`: how much is written, the answers left over, and why it ends. */
  method WriteLoop(responses: seq<string>, start: nat, writes: seq<WriteResult>)
    returns (written: nat, later: seq<WriteResult>, end: WriteEnd)
    requires start <= |Concat(responses)|
    ensures (written, later, end) == WriteOut(responses, start, writes)
  {
    written := start;
    var i := 0;
    assert writes[0..] == writes;
    while true
      invariant 0 <= i <= |writes| && written <= |Concat(responses)|
      invariant WriteOut(responses, start, writes) == WriteOut(responses, written, writes[i..])
      decreases |writes| - i
    {
      OneMoreWrite(responses, written, writes, i);
      var iovs := BuildIovecs(responses, written);
      if iovs == [] { return written, writes[i..], Done; }
      if i == |writes| || writes[i].WouldBlockWrite? { return written, writes[i..], Waiting; }
      if WriteBreaks(writes[i]) { return written, writes[i + 1..], Broken; }
      written, i := written + Min(writes[i].count, |Concat(iovs)|), i + 1;
      if written == |Concat(responses)| { return written, writes[i..], Done; }
    }
  }

  /** What `finish_write` makes of the way the writes went, and the interest it leaves. */
  ghost predicate OutcomeFits(outcome: WriteOutcome, interest: Option<Interest>, end: WriteEnd, responses: seq<string>,
                              written: nat, buf: Buf, off: nat, len: nat, keepAlive: bool)
    requires off + len <= BUF_SIZE
  {
    match end
    case Waiting => outcome == Wait(Writing(buf, responses, written, off, len, keepAlive)) && interest == Some(EpollOut)
    case Broken => outcome.Gone? && interest == None
    case Done =>
      if len == 0 && !keepAlive then outcome.Gone? && interest == None
      else outcome.DoneReading? && outcome.used == len && outcome.buf[..len] == buf[off..off + len]
  }

  class EventLoop {
    const parse: Parser
    const handler: Handler
    var slots: seq<Option<ConnState>>
    var interest: seq<Option<Interest>>
    ghost var lives: seq<Life>

    ghost predicate Sized()
      reads this
    {
      Stable(parse) && |slots| == |interest| == |lives| == MAX_CLIENT_FD
    }

    /** The table holds what the connection's history says. */
    ghost predicate Refines(fd: nat)
      requires Sized() && fd < MAX_CLIENT_FD
      reads this
    {
      Shows(slots[fd], interest[fd], lives[fd].conn) && Shaped(lives[fd].conn)
    }

    ghost predicate Valid()
      reads this
    {
      Sized() && forall fd :: 0 <= fd < MAX_CLIENT_FD ==> Refines(fd)
    }

    constructor (assumeKeepAlive: bool, h: Handler)
      ensures Valid() && parse == ParserFor(assumeKeepAlive) && handler == h
      ensures forall fd :: 0 <= fd < MAX_CLIENT_FD ==> lives[fd] == UNOPENED
    {
      parse, handler := ParserFor(assumeKeepAlive), h;
      slots, interest := seq(MAX_CLIENT_FD, _ => None), seq(MAX_CLIENT_FD, _ => None);
      lives := seq(MAX_CLIENT_FD, _ => UNOPENED);
      new;
      ParserIsStable(assumeKeepAlive);
    }

    /** Descriptor `fd` has come to `l`, and nothing else has changed. */
    twostate predicate Becomes(fd: nat, l: Life)
      requires old(Sized()) && fd < MAX_CLIENT_FD
      reads this
    {
      && Sized() && slots == old(slots)[fd := slots[fd]] && interest == old(interest)[fd := interest[fd]]
      && lives == old(lives)[fd := l] && Refines(fd)
    }

    /** `conn_arm_epoll`. */
    method Arm(fd: nat, want: Interest)
      requires Sized() && fd < MAX_CLIENT_FD
      modifies `interest
      ensures interest == old(interest)[fd := Some(want)]
    {
      if interest[fd] != Some(want) {
        interest := interest[fd := Some(want)];
      }
    }

    /** `shutdown_client`. */
    method Shutdown(fd: nat)
      requires Sized() && fd < MAX_CLIENT_FD
      modifies `interest
      ensures interest == old(interest)[fd := None]
    {
      interest := interest[fd := None];
    }

    /** The end of `finish_write`, when everything is written: what is left over comes next;
        the connection is closed exactly when nothing is, and the batch asked for it. */
    method AllWritten(fd: nat, buf: Buf, off: nat, len: nat, keepAlive: bool) returns (outcome: WriteOutcome)
      requires Sized() && fd < MAX_CLIENT_FD && off + len <= BUF_SIZE
      modifies `interest
      ensures outcome.Gone? <==> len == 0 && !keepAlive
      ensures !outcome.Gone? ==>
                outcome.DoneReading? && outcome.used == len && outcome.buf[..len] == buf[off..off + len]
      ensures interest == if outcome.Gone? then old(interest)[fd := None] else old(interest)
    {
      if len > 0 { return DoneReading(CopyToFront(buf, off, len), len); }
      if keepAlive { return DoneReading(buf, 0); }
      Shutdown(fd);
      outcome := Gone;
    }

    /** `finish_write`: writes until everything is written, or the socket is full, or fails. */
    method FinishWrite(fd: nat, buf: Buf, responses: seq<string>, start: nat, off: nat, len: nat, keepAlive: bool,
                       writes: seq<WriteResult>) returns (outcome: WriteOutcome, later: seq<WriteResult>)
      requires Sized() && fd < MAX_CLIENT_FD && start <= |Concat(responses)| && off + len <= BUF_SIZE
      modifies `interest
      ensures Sized() && interest == old(interest)[fd := interest[fd]]
      ensures var (n, rest, end) := WriteOut(responses, start, writes);
              later == rest && OutcomeFits(outcome, interest[fd], end, responses, n, buf, off, len, keepAlive)
    {
      var written, rest, end := WriteLoop(responses, start, writes);
      later := rest;
      match end {
        case Done => outcome := AllWritten(fd, buf, off, len, keepAlive);
        case Waiting =>
          Arm(fd, EpollOut);
          outcome := Wait(Writing(buf, responses, written, off, len, keepAlive));
        case Broken =>
          Shutdown(fd);
          outcome := Gone;
      }
    }

    /** Puts a connection that is being read into the table. */
    method KeepReading(fd: nat, buf: Buf, used: nat, ghost l: Life)
      requires Sized() && fd < MAX_CLIENT_FD && used < BUF_SIZE
      modifies this
      ensures Becomes(fd, l.(conn := Idle(buf[..used])))
    {
      Arm(fd, EpollIn);
      slots := slots[fd := Some(Reading(buf, used))];
      lives := lives[fd := l.(conn := Idle(buf[..used]))];
    }

    /** `drive_reading`: one batch from the buffer, and again as long as bytes are left over. */
    method DriveReading(fd: nat, buf: Buf, used: nat, writes: seq<WriteResult>, ghost l: Life)
      requires Sized() && fd < MAX_CLIENT_FD && 0 < used <= BUF_SIZE && slots[fd] == None
      modifies this
      ensures Becomes(fd, Drive(parse, handler, l, buf[..used], writes))
      decreases used, 0
    {
      if used >= BUF_SIZE {
        StartWrite(fd, buf, [RESPONSE_BAD_REQUEST], 0, 0, false, writes, l);
        return;
      }
      var responses, processed, keepAlive := ProcessBuffer(parse, handler, buf[..used]);
      assert buf[processed..processed + (used - processed)] == buf[..used][processed..];
      if responses != [] {
        StartWrite(fd, buf, responses, processed, used - processed, keepAlive, writes, l);
        return;
      }
      // Without a response nothing was consumed: the bytes need no shifting.
      assert processed == 0;
      KeepReading(fd, buf, used, l);
    }

    /** `start_write`. */
    method StartWrite(fd: nat, buf: Buf, responses: seq<string>, off: nat, len: nat, keepAlive: bool,
                      writes: seq<WriteResult>, ghost l: Life)
      requires Sized() && fd < MAX_CLIENT_FD && |responses| <= MAX_PIPELINED_RESPONSES && slots[fd] == None
      requires off + len <= BUF_SIZE && len < BUF_SIZE
      modifies this
      ensures Becomes(fd, Continue(parse, handler, l, responses, 0, buf[off..off + len], keepAlive, writes))
      decreases len, 2
    {
      ContinueWrite(fd, buf, responses, 0, off, len, keepAlive, writes, l);
    }

    /** What `start_write` and `on_writable` do with a batch and the outcome of writing it. */
    method ContinueWrite(fd: nat, buf: Buf, responses: seq<string>, written: nat, off: nat, len: nat, keepAlive: bool,
                         writes: seq<WriteResult>, ghost l: Life)
      requires Sized() && fd < MAX_CLIENT_FD && |responses| <= MAX_PIPELINED_RESPONSES && slots[fd] == None
      requires written <= |Concat(responses)| && off + len <= BUF_SIZE && len < BUF_SIZE
      modifies this
      ensures Becomes(fd, Continue(parse, handler, l, responses, written, buf[off..off + len], keepAlive, writes))
      decreases len, 1
    {
      var outcome, later := FinishWrite(fd, buf, responses, written, off, len, keepAlive, writes);
      ghost var (n, _, end) := WriteOut(responses, written, writes);
      ghost var m := l.(sent := l.sent + Concat(responses)[written..n]);
      match outcome {
        case DoneReading(buf', used) =>
          if used > 0 {
            DriveReading(fd, buf', used, later, m);
          } else {
            KeepReading(fd, buf', 0, m);
          }
        case Wait(state) =>
          slots := slots[fd := Some(state)];
          lives := lives[fd := m.(conn := Busy(responses, n, buf[off..off + len], keepAlive))];
        case Gone =>
          lives := lives[fd := if end.Broken? then m.(conn := Shut, aborted := true) else m.(conn := Shut)];
      }
    }

    /** What `on_new_client_fd` and `on_readable` have in common: reading behind `used` bytes,
        and then the batches. Registering for input again changes nothing. */
    method ReadAndDrive(fd: nat, buf: Buf, used: nat, answers: seq<ReadResult>, writes: seq<WriteResult>, ghost l: Life)
      requires Sized() && fd < MAX_CLIENT_FD && used < BUF_SIZE && slots[fd] == None
      modifies this
      ensures Becomes(fd, Receive(parse, handler, l, buf[..used], answers, writes))
    {
      var outcome, buf' := GreedyRead(buf, used, answers);
      ghost var (got, end) := Drained(BUF_SIZE - used, answers);
      match outcome {
        case Data(used') => DriveReading(fd, buf', used', writes, l.(pieces := l.pieces + [got]));
        case Blocked => KeepReading(fd, buf', used, l);
        case Closed =>
          Shutdown(fd);
          lives := lives[fd := l.(conn := Shut, aborted := true)];
      }
    }

    /** `on_new_client_fd`, for a descriptor that the table has room for. */
    method OnNewClient(fd: nat, configured: bool, answers: seq<ReadResult>, writes: seq<WriteResult>)
      requires Sized() && fd < MAX_CLIENT_FD && Refines(fd) && slots[fd] == None
      modifies this
      ensures Becomes(fd, OpenStep(parse, handler, configured, answers, writes))
    {
      if configured {
        ReadAndDrive(fd, seq(BUF_SIZE, _ => '\0'), 0, answers, writes, OPENED);
      } else {
        lives := lives[fd := UNOPENED];
      }
    }

    /** `on_readable`. */
    method OnReadable(fd: nat, answers: seq<ReadResult>, writes: seq<WriteResult>)
      requires Sized() && fd < MAX_CLIENT_FD && Refines(fd)
      modifies this
      ensures Becomes(fd, ReadStep(parse, handler, old(lives[fd]), answers, writes))
    {
      match slots[fd] {
        case None =>
        case Some(Writing(_, _, _, _, _, _)) =>
        case Some(Reading(buf, used)) =>
          slots := slots[fd := None];
          ReadAndDrive(fd, buf, used, answers, writes, lives[fd]);
      }
    }

    /** `on_writable`. */
    method OnWritable(fd: nat, writes: seq<WriteResult>)
      requires Sized() && fd < MAX_CLIENT_FD && Refines(fd)
      modifies this
      ensures Becomes(fd, WriteStep(parse, handler, old(lives[fd]), writes))
    {
      match slots[fd] {
        case None =>
        case Some(Reading(_, _)) =>
        case Some(Writing(buf, responses, written, off, len, keepAlive)) =>
          slots := slots[fd := None];
          ContinueWrite(fd, buf, responses, written, off, len, keepAlive, writes, lives[fd]);
      }
    }

    /** `close_conn`, when the peer hung up. */
    method CloseConn(fd: nat)
      requires Sized() && fd < MAX_CLIENT_FD && Refines(fd)
      modifies this
      ensures Becomes(fd, HangupStep(old(lives[fd])))
    {
      slots := slots[fd := None];
      Shutdown(fd);
      lives := lives[fd := HangupStep(lives[fd])];
    }

    /** An event that is no hang-up: first the reading, then the writing. */
    method OnReady(fd: nat, readable: bool, writable: bool, answers: seq<ReadResult>, writes: seq<WriteResult>,
                   more: seq<WriteResult>)
      requires Sized() && fd < MAX_CLIENT_FD && Refines(fd)
      modifies this
      ensures Becomes(fd, ReadyStep(parse, handler, old(lives[fd]), readable, writable, answers, writes, more))
    {
      if readable { OnReadable(fd, answers, writes); }
      if writable { OnWritable(fd, more); }
    }

    /** One event, as the session machine has it for every descriptor. */
    method Dispatch(e: Event)
      requires Valid()
      modifies this
      ensures Valid()
      ensures forall fd: nat :: fd < MAX_CLIENT_FD ==>
                old(Refines(fd)) && lives[fd] == Step(parse, handler, old(lives[fd]), e, fd)
    {
      assert forall fd: nat :: fd < MAX_CLIENT_FD ==> Refines(fd);
      match e {
        case NewClient(fd, configured, answers, writes) =>
          if fd < MAX_CLIENT_FD && slots[fd].None? { OnNewClient(fd, configured, answers, writes); }
        case Hangup(fd) =>
          if fd < MAX_CLIENT_FD { CloseConn(fd); }
        case Ready(fd, readable, writable, answers, writes, more) =>
          if fd < MAX_CLIENT_FD { OnReady(fd, readable, writable, answers, writes, more); }
      }
      forall fd: nat | fd < MAX_CLIENT_FD
        ensures old(Refines(fd)) && Refines(fd) && lives[fd] == Step(parse, handler, old(lives[fd]), e, fd)
      {
        assert old(Refines(fd));
      }
    }
  }

  /** For every run, whatever the system answers: the table shows of every descriptor what the
      session machine makes of the events, and so every connection is answered as promised, and the last event
      has done to its descriptor what is described, and to the others nothing. */
  method Run(events: seq<Event>, assumeKeepAlive: bool, h: Handler) returns (loop: EventLoop)
    ensures loop.Valid() && fresh(loop) && loop.parse == ParserFor(assumeKeepAlive) && loop.handler == h
    ensures forall fd: nat :: fd < MAX_CLIENT_FD ==>
              var l := History(loop.parse, h, events, fd);
              && loop.lives[fd] == l && Shows(loop.slots[fd], loop.interest[fd], l.conn)
              && (l.conn != Never && AllManageable(loop.parse, h, l.pieces) ==> Answered(loop.parse, h, l))
              && ((forall i :: 0 <= i < |events| && events[i].fd == fd ==> !Breaks(events[i])) ==> !l.aborted)
    ensures forall fd: nat :: fd < MAX_CLIENT_FD ==> LastEventDone(loop.parse, h, events, fd, loop.lives[fd])
    ensures forall fd: nat :: fd < MAX_CLIENT_FD ==>
              var slot, interest, c := loop.slots[fd], loop.interest[fd], loop.lives[fd].conn;
              && (c.Idle? ==> c.data == "" || loop.parse(c.data).NeedMore?)
              && (c.Idle? ==> slot.Some? && slot.value.Reading? && interest == Some(EpollIn))
              && (c.Busy? ==> slot.Some? && slot.value.Writing? && interest == Some(EpollOut))
              && (!IsOpen(c) ==> slot == None && interest == None)
  {
    loop := new EventLoop(assumeKeepAlive, h);
    var i := 0;
    while i < |events|
      invariant 0 <= i <= |events| && loop.Valid() && fresh(loop)
      invariant forall fd: nat :: fd < MAX_CLIENT_FD ==> loop.lives[fd] == History(loop.parse, h, events[..i], fd)
    {
      loop.Dispatch(events[i]);
      assert events[..i + 1][..i] == events[..i];
      i := i + 1;
    }
    assert events[..i] == events;
    forall fd: nat | fd < MAX_CLIENT_FD ensures LastEventDone(loop.parse, h, events, fd, loop.lives[fd]) {
      RunProceeds(loop.parse, h, events, fd);
    }
    forall fd: nat | fd < MAX_CLIENT_FD && loop.lives[fd].conn.Idle?
      ensures Unfinished(loop.parse, loop.lives[fd].conn.data)
    {
      WaitingIsUnfinished(loop.parse, h, events, fd);
    }
    forall fd: nat | fd < MAX_CLIENT_FD
      ensures var l := History(loop.parse, h, events, fd);
              && Shows(loop.slots[fd], loop.interest[fd], l.conn)
              && (l.conn != Never && AllManageable(loop.parse, h, l.pieces) ==> Answered(loop.parse, h, l))
              && ((forall i :: 0 <= i < |events| && events[i].fd == fd ==> !Breaks(events[i])) ==> !l.aborted)
    {
      assert loop.Refines(fd);
      EveryRunIsAnswered(loop.parse, h, events, fd);
      if forall i :: 0 <= i < |events| && events[i].fd == fd ==> !Breaks(events[i]) {
        UndisturbedIsNotCut(loop.parse, h, events, fd);
      }
    }
  }
}
