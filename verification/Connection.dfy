/**
 * The buffer and the batch of one connection: reading into the buffer, answering the requests
 * in it, and choosing the bytes to send next.
 */
module Connection {
  import opened Base
  import opened HttpParser
  import opened HttpStream
  import opened Session

  type Buf = s: string | |s| == BUF_SIZE witness seq(BUF_SIZE, _ => '\0')

  datatype ConnState =
    | Reading(buf: Buf, used: nat)
    | Writing(buf: Buf, responses: seq<string>, written: nat, leftoverOff: nat, leftoverLen: nat, keepAlive: bool)

  datatype Interest = EpollIn | EpollOut

  /** A reading slot waits for input, a writing slot for output, and a descriptor that is not
      open has no slot and no interest. */
  ghost predicate Shows(slot: Option<ConnState>, interest: Option<Interest>, c: Conn) {
    match c
    case Idle(data) =>
      slot.Some? && slot.value.Reading? && slot.value.used < BUF_SIZE && slot.value.buf[..slot.value.used] == data
      && interest == Some(EpollIn)
    case Busy(responses, written, leftover, keepAlive) =>
      && slot.Some? && slot.value.Writing? && slot.value.leftoverOff + slot.value.leftoverLen <= BUF_SIZE
      && slot.value.responses == responses && slot.value.written == written && slot.value.keepAlive == keepAlive
      && slot.value.buf[slot.value.leftoverOff..slot.value.leftoverOff + slot.value.leftoverLen] == leftover
      && interest == Some(EpollOut)
    case _ => slot == None && interest == None
  }

  /** `copy_within(off..off + len, 0)`. */
  function CopyToFront(buf: Buf, off: nat, len: nat): (r: Buf)
    requires off + len <= BUF_SIZE
    ensures r[..len] == buf[off..off + len]
  {
    buf[off..off + len] + buf[len..]
  }

  function PutAt(buf: Buf, used: nat, data: string): (r: Buf)
    requires used + |data| <= BUF_SIZE
    ensures r[..used + |data|] == buf[..used] + data
  {
    buf[..used] + data + buf[used + |data|..]
  }

  /** All bytes when those of `held` are there already, and why reading stops. */
  function ReadOn(held: string, answers: seq<ReadResult>): (all: (string, ReadEnd))
    requires |held| < BUF_SIZE
  {
    var (got, end) := Drained(BUF_SIZE - |held|, answers);
    (held + got, end)
  }

  /** One answer: either reading ends here, or its bytes are held too. */
  lemma OneMoreRead(held: string, answers: seq<ReadResult>)
    requires |held| < BUF_SIZE
    ensures ReadOn(held, answers)
            == if answers == [] || answers[0].WouldBlock? then (held, Dry)
               else if answers[0].Failed? then (held, Lost)
               else
                 var n := Min(|answers[0].data|, BUF_SIZE - |held|);
                 var more := held + answers[0].data[..n];
                 if n == 0 then (held, Eof) else if |more| == BUF_SIZE then (more, Full) else ReadOn(more, answers[1..])
  {
    assert held + "" == held;
    if answers != [] && answers[0].Bytes? {
      var n := Min(|answers[0].data|, BUF_SIZE - |held|);
      if 0 < n < BUF_SIZE - |held| {
        ConcatAssoc(held, answers[0].data[..n], Drained(BUF_SIZE - |held| - n, answers[1..]).0);
      }
    }
  }

  /** `greedy_read`: reads until the buffer is full or nothing more is there. */
  method GreedyRead(buf: Buf, start: nat, answers: seq<ReadResult>) returns (outcome: ReadOutcome, buf': Buf)
    requires start < BUF_SIZE
    ensures var (got, end) := Drained(BUF_SIZE - start, answers);
            outcome == OutcomeOf(start, |got|, end) && buf'[..start + |got|] == buf[..start] + got
  {
    buf' := buf;
    var used: nat, i := start, 0;
    ghost var all := ReadOn(buf[..start], answers);
    assert answers[0..] == answers;
    while i < |answers|
      invariant 0 <= i <= |answers| && used < BUF_SIZE
      invariant all == ReadOn(buf'[..used], answers[i..])
    {
      OneMoreRead(buf'[..used], answers[i..]);
      match answers[i] {
        case Bytes(data) =>
          var n := Min(|data|, BUF_SIZE - used);
          if n == 0 {
            return if used > 0 then Data(used) else Closed, buf';
          }
          buf' := PutAt(buf', used, data[..n]);
          used := used + n;
          if used >= BUF_SIZE { return Data(used), buf'; }
        case WouldBlock => return if used > 0 then Data(used) else Blocked, buf';
        case Failed => return Closed, buf';
      }
      assert answers[i..][1..] == answers[i + 1..];
      i := i + 1;
    }
    OneMoreRead(buf'[..used], answers[i..]);
    outcome := if used > 0 then Data(used) else Blocked;
  }

  /** The batch that follows when some responses are already taken. */
  function Batched(parse: Parser, h: Handler, taken: seq<string>, keepAlive: bool, s: string): (b: Batch)
    requires Stable(parse) && |taken| <= MAX_PIPELINED_RESPONSES
  {
    var more := TakeBatch(parse, h, s, MAX_PIPELINED_RESPONSES - |taken|);
    Batch(taken + more.responses, more.rest, keepAlive && more.keepAlive)
  }

  /** One step of the parser. */
  lemma OneMoreRequest(parse: Parser, h: Handler, taken: seq<string>, keepAlive: bool, s: string)
    requires Stable(parse) && |taken| <= MAX_PIPELINED_RESPONSES
    ensures var all, full := Batched(parse, h, taken, keepAlive, s), |taken| == MAX_PIPELINED_RESPONSES;
            match parse(s)
            case NeedMore => all == Batch(taken, s, keepAlive)
            case Reject(response) => all == Batch(if full then taken else taken + [response], "", false)
            case Complete(request, n) =>
              0 < n <= |s|
              && all == if full then Batch(taken, s[n..], false)
                        else Batched(parse, h, taken + [h(request)], keepAlive && request.keepAlive, s[n..])
  {
    assert StableAt(parse, s, "");
    if parse(s).Complete? && |taken| < MAX_PIPELINED_RESPONSES {
      var more := TakeBatch(parse, h, s[parse(s).consumed..], MAX_PIPELINED_RESPONSES - |taken| - 1);
      ConcatAssoc(taken, [h(parse(s).request)], more.responses);
    }
  }

  /** The inner loop of `drive_reading`, on the bytes in use. */
  method ProcessBuffer(parse: Parser, h: Handler, data: string)
    returns (responses: seq<string>, processed: nat, keepAlive: bool)
    requires Stable(parse)
    ensures processed <= |data|
    ensures TakeBatch(parse, h, data, MAX_PIPELINED_RESPONSES) == Batch(responses, data[processed..], keepAlive)
  {
    responses, processed, keepAlive := [], 0, true;
    ghost var all := TakeBatch(parse, h, data, MAX_PIPELINED_RESPONSES);
    assert data[0..] == data && [] + all.responses == all.responses;
    while processed < |data|
      invariant 0 <= processed <= |data| && |responses| <= MAX_PIPELINED_RESPONSES
      invariant all == Batched(parse, h, responses, keepAlive, data[processed..])
    {
      OneMoreRequest(parse, h, responses, keepAlive, data[processed..]);
      match parse(data[processed..]) {
        case Complete(request, consumed) =>
          assert data[processed..][consumed..] == data[processed + consumed..];
          processed := processed + consumed;
          if |responses| == MAX_PIPELINED_RESPONSES {
            keepAlive := false;
            return;
          }
          responses := responses + [h(request)];
          if !request.keepAlive { keepAlive := false; }
        case Reject(response) =>
          processed := |data|;
          if |responses| < MAX_PIPELINED_RESPONSES { responses := responses + [response]; }
          keepAlive := false;
          return;
        case NeedMore =>
          return;
      }
    }
    OneMoreRequest(parse, h, responses, keepAlive, data[processed..]);
  }

  /** `build_iovecs`: the pieces to send next. */
  method BuildIovecs(responses: seq<string>, written: nat) returns (iovs: seq<string>)
    ensures iovs == NextPieces(responses, written, MAX_IOVECS) && |iovs| <= 32
  {
    iovs := [];
    var left: nat, i := written, 0;
    assert responses[0..] == responses;
    while i < |responses|
      invariant 0 <= i <= |responses| && |iovs| < MAX_IOVECS
      invariant NextPieces(responses, written, MAX_IOVECS)
                == iovs + NextPieces(responses[i..], left, MAX_IOVECS - |iovs|)
    {
      var response := responses[i];
      assert responses[i..][1..] == responses[i + 1..];
      if left >= |response| {
        left := left - |response|;
      } else {
        ConcatAssoc(iovs, [response[left..]], NextPieces(responses[i + 1..], 0, MAX_IOVECS - |iovs| - 1));
        iovs, left := iovs + [response[left..]], 0;
        if |iovs| == MAX_IOVECS { return; }
      }
      i := i + 1;
    }
  }
}
