/** Where a connection is not served as its client may expect, with the requests that show it. */
module Limits {
  import opened Base
  import opened HttpParser
  import opened HttpStream
  import opened RequestText
  import opened Session
  import opened Promise

  // ----- the limit of 64 -----

  const READY_REQUEST := "GET /ready \r\n\r\n"

  lemma {:induction false} ReadyRequestParses(request: string, keepAlive: bool)
    requires request == READY_REQUEST
    ensures IsRequest(ParserFor(keepAlive), request) && |request| == 15
  {
    assert request == "GET /ready " + "" + "\r\n" + Lines([]) + "\r\n" && request + "" == request;
    ReadyIsRead(request, "", [], "", keepAlive);
  }

  function Copies(request: string, n: nat): seq<string> { seq(n, _ => request) }

  lemma {:induction false} CopiesLength(request: string, n: nat)
    ensures |Concat(Copies(request, n))| == |request| * n
  {
    if n > 0 {
      CopiesLength(request, n - 1);
      assert Copies(request, n)[1..] == Copies(request, n - 1);
    }
  }

  lemma CopiesServed(parse: Parser, h: Handler, request: string, n: nat)
    requires Stable(parse) && IsRequest(parse, request)
    ensures var v := Serve(parse, h, Concat(Copies(request, n))); |v.responses| == n && v.rest == ""
  {
    PipelinedInOrder(parse, h, Copies(request, n), "");
    EmptyStream(parse, h);
    assert Concat(Copies(request, n)) + "" == Concat(Copies(request, n));
  }

  /** A client may well send 65 complete requests that fit the buffer: 64 of them are answered,
      nothing of the last is kept, and the connection is to be closed. */
  lemma {:induction false} SixtyFifthIsLost(h: Handler, keepAlive: bool, data: string)
    requires data == Concat(Copies(READY_REQUEST, 65))
    ensures Stable(ParserFor(keepAlive)) && |data| == 975 < BUF_SIZE
    ensures var v := Serve(ParserFor(keepAlive), h, data);
            && |v.responses| == 65
            && TakeBatch(ParserFor(keepAlive), h, data, MAX_PIPELINED_RESPONSES).responses == v.responses[..64]
            && !TakeBatch(ParserFor(keepAlive), h, data, MAX_PIPELINED_RESPONSES).keepAlive
    ensures Serve(ParserFor(keepAlive), h,
                  TakeBatch(ParserFor(keepAlive), h, data, MAX_PIPELINED_RESPONSES).rest).responses == []
  {
    ParserIsStable(keepAlive);
    ReadyRequestParses(READY_REQUEST, keepAlive);
    CopiesServed(ParserFor(keepAlive), h, READY_REQUEST, 65);
    CopiesLength(READY_REQUEST, 65);
    BatchServes(ParserFor(keepAlive), h, data, MAX_PIPELINED_RESPONSES);
  }

  // ----- bytes behind a request to close -----

  /** When a batch is written at once, the connection is closed exactly when a request asked
      for it, or was rejected, and nothing is left over behind the requests. */
  lemma {:induction false} ClosedIff(parse: Parser, h: Handler, l: Life, data: string, writes: seq<WriteResult>)
    requires Stable(parse) && 0 < |data| < BUF_SIZE
    requires 0 < |Serve(parse, h, data).responses| <= MAX_PIPELINED_RESPONSES
    requires WriteOut(Serve(parse, h, data).responses, 0, writes).2.Done?
    ensures var v := Serve(parse, h, data);
            Drive(parse, h, l, data, writes).conn
            == if v.rest == "" && (v.closed || !v.keepAlive) then Shut else Idle(v.rest)
  {
    BatchServes(parse, h, data, MAX_PIPELINED_RESPONSES);
    RestIsUnanswered(parse, h, data);
    RestOfStream(parse, h, data);
    var v := Serve(parse, h, data);
    var (n, later, _) := WriteOut(v.responses, 0, writes);
    if v.rest != "" {
      var m := l.(sent := l.sent + Concat(v.responses)[0..n]);
      IncompleteIsKept(parse, h, m, v.rest, later);
      assert Drive(parse, h, l, data, writes) == Drive(parse, h, m, v.rest, later);
    }
  }

  lemma {:induction false} IncompleteIsKept(parse: Parser, h: Handler, l: Life, data: string, writes: seq<WriteResult>)
    requires Stable(parse) && 0 < |data| < BUF_SIZE && Serve(parse, h, data).responses == []
    ensures Drive(parse, h, l, data, writes) == l.(conn := Idle(data))
  {
    BatchServes(parse, h, data, MAX_PIPELINED_RESPONSES);
  }

  const CLOSE_REQUEST := "GET /ready \r\nConnection: close\r\n\r\n"

  lemma CloseField(field: string, lower: string)
    requires field == "Connection: close" && lower == "content-length:"
    ensures LowerAll(field) == "connection: close" && WithoutAnyCase(field, lower) && Inline(field)
  {
    forall k: nat | k < |field| ensures !OccursAt(LowerAll(field), lower, k) {
      if k <= 2 { Differs(LowerAll(field), lower, k, 3); }
    }
  }

  lemma CloseHead(request: string, field: string)
    requires request == CLOSE_REQUEST && field == "Connection: close"
    ensures request == "GET /ready " + "" + "\r\n" + Lines([field]) + "\r\n" && |request| == 34
    ensures request[13..30] == field
  {
    assert Lines([field]) == field + CRLF + Lines([]);
  }

  lemma {:induction false} CloseRequestParses(request: string, field: string)
    requires request == CLOSE_REQUEST && field == "Connection: close"
    ensures |request| == 34 && ParseRequest(request, false) == Complete(Request(Get, "/ready", "", false), 34)
  {
    CloseField(field, "content-length:");
    CloseHead(request, field);
    assert LowerAll(request)[13..30] == LowerAll(request[13..30]);
    assert OccursAt(LowerAll(request), "connection: close", 13);
    assert request + "" == request;
    ReadyIsRead(request, "", [field], "", false);
  }

  /** A client asks to close and one more byte is in the buffer: the answer is sent, and the
      connection stays open. Without that byte it is closed. */
  lemma {:induction false} CloseIsForgotten(h: Handler, l: Life, writes: seq<WriteResult>, request: string,
                                            extra: string)
    requires request == CLOSE_REQUEST && (extra == "" || extra == "G")
    requires WriteOut([h(Request(Get, "/ready", "", false))], 0, writes).2.Done?
    ensures Stable(ParserFor(false)) && 0 < |request + extra| < BUF_SIZE
    ensures Drive(ParserFor(false), h, l, request + extra, writes).conn == if extra == "" then Shut else Idle("G")
  {
    var parse := ParserFor(false);
    ParserIsStable(false);
    CloseRequestParses(request, "Connection: close");
    OneToClose(parse, h, request, extra);
    ClosedIff(parse, h, l, request + extra, writes);
  }

  lemma {:induction false} OneToClose(parse: Parser, h: Handler, request: string, extra: string)
    requires Stable(parse) && IsRequest(parse, request) && !parse(request).request.keepAlive && parse(extra).NeedMore?
    ensures Serve(parse, h, request + extra) == Served([h(parse(request).request)], extra, false, false)
  {
    assert StableAt(parse, request, extra) && (request + extra)[|request|..] == extra;
  }

  // ----- a full buffer -----

  /** Whatever a buffer holds, when it is filled to its last byte it gets one rejection. */
  lemma {:induction false} FullBufferIsRejected(parse: Parser, h: Handler, l: Life, data: string,
                                                writes: seq<WriteResult>)
    requires Stable(parse) && |data| == BUF_SIZE && WriteOut([RESPONSE_BAD_REQUEST], 0, writes).2.Done?
    ensures Drive(parse, h, l, data, writes) == l.(conn := Shut, sent := l.sent + RESPONSE_BAD_REQUEST)
  {
    SoleResponse(RESPONSE_BAD_REQUEST);
  }

  lemma SoleResponse(response: string)
    ensures Concat([response]) == response && response[0..|response|] == response
  {
  }

  /** One read that fills an empty buffer. */
  lemma {:induction false} OneReadFills(parse: Parser, h: Handler, data: string, writes: seq<WriteResult>)
    requires Stable(parse) && |data| == BUF_SIZE && WriteOut([RESPONSE_BAD_REQUEST], 0, writes).2.Done?
    ensures Receive(parse, h, OPENED, "", [Bytes(data)], writes) == Life(Shut, [data], RESPONSE_BAD_REQUEST, false)
  {
    assert data[..BUF_SIZE] == data && "" + data == data && [] + [data] == [data];
    FullBufferIsRejected(parse, h, OPENED.(pieces := [data]), data, writes);
    assert "" + RESPONSE_BAD_REQUEST == RESPONSE_BAD_REQUEST;
  }

  /** 136 complete requests and the first eight bytes of another fill the buffer: a client that
      sends them at once gets one rejection for all of them, and is cut off. */
  lemma {:induction false} FullBufferLosesAll(h: Handler, keepAlive: bool, data: string, more: string,
                                              writes: seq<WriteResult>)
    requires data == Concat(Copies(READY_REQUEST, 136)) + more && |more| == 8
    requires WriteOut([RESPONSE_BAD_REQUEST], 0, writes).2.Done?
    ensures Stable(ParserFor(keepAlive)) && |data| == BUF_SIZE
    ensures |Serve(ParserFor(keepAlive), h, data).responses| >= 136
    ensures Receive(ParserFor(keepAlive), h, OPENED, "", [Bytes(data)], writes)
            == Life(Shut, [data], RESPONSE_BAD_REQUEST, false)
  {
    ParserIsStable(keepAlive);
    ReadyRequestParses(READY_REQUEST, keepAlive);
    CopiesLength(READY_REQUEST, 136);
    PipelinedInOrder(ParserFor(keepAlive), h, Copies(READY_REQUEST, 136), more);
    OneReadFills(ParserFor(keepAlive), h, data, writes);
  }
}
