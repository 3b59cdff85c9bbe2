/**
 One tool call over a newline-delimited JSON-RPC stream: two responses are read with shared budgets for messages and
 bytes. A simple reading of the session, by line positions, is proved to be what the loop does.
 */
module RpcSession {
  import opened Wrappers

  const INITIALIZE_ID := 1
  const INVOCATION_ID := 2
  const MAX_MESSAGES := 32
  const MAX_LINE_BYTES := 2 * 1024 * 1024
  const MAX_SESSION_BYTES := 4 * 1024 * 1024

  datatype Part = Part(kind: string, text: string)

  datatype Wire = Wire(content: seq<Part>, isError: bool)

  /** A result value: null or not, its protocol version and its tool content where it decodes as such. */
  datatype Payload = Payload(isNull: bool, version: Option<string>, wire: Option<Wire>)

  datatype Id = NoId | UndecodableId | IntId(value: int)

  datatype ErrorField = NoError | NullError | UndecodableError | Fault(code: int, message: string)

  datatype Message = Message(supported: bool, id: Id, hasMethod: bool, result: Option<Payload>, error: ErrorField)

  datatype Content = BlankLine | Undecodable | Decoded(message: Message)

  /** A line of the stream: its length as the scanner buffers it, and its length as a token. */
  datatype Line = Line(buffered: nat, size: nat, content: Content)

  /** The stream ends, or breaks, after its lines. */
  datatype Stream = Stream(lines: seq<Line>, breaks: bool)

  datatype RpcError =
    | Canceled | ReadFailed | NotReceived | ByteLimit | MessageLimit
    | BadMessage | BadVersion | BadId | UnexpectedId | NotExactlyOne | BadErrorField
    | WriteFailed | InitializeFailed | BadInitializeResult | BadToolResult

  datatype Reply = ResultReply(payload: Payload) | FaultReply(code: int, message: string)

  datatype Judgement = Skip | Stop(answer: Result<Reply, RpcError>)

  /** What the reader makes of one line while it waits for the response with this id. */
  function Judge(content: Content, expected: int): Judgement {
    match content
    case BlankLine => Skip
    case Undecodable => Stop(Err(BadMessage))
    case Decoded(m) =>
      if !m.supported then Stop(Err(BadVersion))
      else if m.id == NoId && m.hasMethod then Skip
      else if !m.id.IntId? then Stop(Err(BadId))
      else if m.id.value != expected then Stop(Err(UnexpectedId))
      else if m.result.Some? == (m.error != NoError) then Stop(Err(NotExactlyOne))
      else
        match m.error
        case NoError => Stop(Ok(ResultReply(m.result.value)))
        case Fault(code, message) => Stop(Ok(FaultReply(code, message)))
        case _ => Stop(Err(BadErrorField))
  }

  /** Where the scanner is and what is left of the budgets. */
  datatype Cursor = Cursor(pos: nat, messages: nat, bytes: nat)

  const START := Cursor(0, MAX_MESSAGES, MAX_SESSION_BYTES)

  /** The context counts as ended once so many messages have been taken. */
  predicate Ended(cancelAt: Option<nat>, c: Cursor) {
    cancelAt.Some? && MAX_MESSAGES - c.messages >= cancelAt.value
  }

  function Taken(c: Cursor, size: nat): Cursor
    requires c.messages > 0 && size <= c.bytes
  {
    Cursor(c.pos + 1, c.messages - 1, c.bytes - size)
  }

  function Read(s: Stream, expected: int, cancelAt: Option<nat>, c: Cursor): (Cursor, Result<Reply, RpcError>)
    decreases c.messages
  {
    if c.messages == 0 then (c, Err(MessageLimit))
    else if Ended(cancelAt, c) then (c, Err(Canceled))
    else
      var counted := c.(messages := c.messages - 1);
      if c.pos >= |s.lines| then (counted, Err(if s.breaks then ReadFailed else NotReceived))
      else
        var line := s.lines[c.pos];
        if line.buffered >= MAX_LINE_BYTES then (counted, Err(ReadFailed))
        else if line.size > c.bytes then (counted.(pos := c.pos + 1), Err(ByteLimit))
        else
          match Judge(line.content, expected)
          case Skip => Read(s, expected, cancelAt, Taken(c, line.size))
          case Stop(r) => (Taken(c, line.size), r)
  }

  // ---- The same, by positions ----

  function Bytes(lines: seq<Line>, lo: int, hi: int): nat
    requires 0 <= lo <= hi <= |lines|
    decreases hi - lo
  {
    if lo == hi then 0 else lines[lo].size + Bytes(lines, lo + 1, hi)
  }

  lemma {:induction false} BytesSplit(lines: seq<Line>, lo: int, mid: int, hi: int)
    requires 0 <= lo <= mid <= hi <= |lines|
    ensures Bytes(lines, lo, hi) == Bytes(lines, lo, mid) + Bytes(lines, mid, hi)
    decreases mid - lo
  {
    if lo < mid { BytesSplit(lines, lo + 1, mid, hi); }
  }

  predicate Notification(content: Content) {
    content.Decoded? && content.message.supported && content.message.id == NoId && content.message.hasMethod
  }

  /** Only blank lines and notifications are skipped. */
  lemma SkipsExactly(content: Content, expected: int)
    ensures Judge(content, expected) == Skip <==> content.BlankLine? || Notification(content)
  {
  }

  /** A response: the right version, the expected id, and exactly one of result and error, the error an object. */
  predicate Answers(content: Content, expected: int, reply: Reply) {
    && content.Decoded? && content.message.supported && content.message.id == IntId(expected)
    && match reply
       case ResultReply(p) => content.message.result == Some(p) && content.message.error == NoError
       case FaultReply(code, text) => content.message.result.None? && content.message.error == Fault(code, text)
  }

  lemma AcceptsExactly(content: Content, expected: int, reply: Reply)
    ensures Judge(content, expected) == Stop(Ok(reply)) <==> Answers(content, expected, reply)
  {
  }

  predicate Quiet(lines: seq<Line>, lo: nat, hi: nat) {
    forall i :: lo <= i < hi && i < |lines| ==> lines[i].content.BlankLine? || Notification(lines[i].content)
  }

  predicate ShortLines(lines: seq<Line>, lo: nat, hi: nat) {
    forall i :: lo <= i < hi && i < |lines| ==> lines[i].buffered < MAX_LINE_BYTES
  }

  /** Line k is the response, and everything up to it fits the budgets. */
  predicate Arrives(s: Stream, expected: int, cancelAt: Option<nat>, c: Cursor, k: nat, reply: Reply) {
    && c.pos <= k < |s.lines| && k - c.pos < c.messages
    && Quiet(s.lines, c.pos, k) && ShortLines(s.lines, c.pos, k + 1)
    && Bytes(s.lines, c.pos, k + 1) <= c.bytes
    && (cancelAt.Some? ==> MAX_MESSAGES - c.messages + (k - c.pos) < cancelAt.value)
    && Answers(s.lines[k].content, expected, reply)
  }

  function CursorAfter(s: Stream, c: Cursor, k: nat): Cursor
    requires c.pos <= k < |s.lines| && k - c.pos < c.messages && Bytes(s.lines, c.pos, k + 1) <= c.bytes
  {
    Cursor(k + 1, c.messages - (k + 1 - c.pos), c.bytes - Bytes(s.lines, c.pos, k + 1))
  }

  /** If the response arrives at k, the reader returns it and stands right behind it. */
  lemma {:induction false} ArrivalIsRead(s: Stream, expected: int, cancelAt: Option<nat>, c: Cursor, k: nat,
                                         reply: Reply)
    requires Arrives(s, expected, cancelAt, c, k, reply)
    ensures Read(s, expected, cancelAt, c) == (CursorAfter(s, c, k), Ok(reply))
    decreases k - c.pos
  {
    var line := s.lines[c.pos];
    assert Bytes(s.lines, c.pos, k + 1) == line.size + Bytes(s.lines, c.pos + 1, k + 1);
    if c.pos < k {
      SkipsExactly(line.content, expected);
      ArrivalIsRead(s, expected, cancelAt, Taken(c, line.size), k, reply);
    } else {
      AcceptsExactly(line.content, expected, reply);
    }
  }

  /** And a returned response has arrived. */
  lemma {:induction false} ReadHasArrived(s: Stream, expected: int, cancelAt: Option<nat>, c: Cursor) returns (k: nat)
    requires Read(s, expected, cancelAt, c).1.Ok?
    ensures Arrives(s, expected, cancelAt, c, k, Read(s, expected, cancelAt, c).1.value)
    decreases c.messages
  {
    var line := s.lines[c.pos];
    match Judge(line.content, expected)
    case Skip =>
      SkipsExactly(line.content, expected);
      k := ReadHasArrived(s, expected, cancelAt, Taken(c, line.size));
      assert Bytes(s.lines, c.pos, k + 1) == line.size + Bytes(s.lines, c.pos + 1, k + 1);
    case Stop(r) =>
      AcceptsExactly(line.content, expected, r.value);
      k := c.pos;
      assert Bytes(s.lines, c.pos + 1, k + 1) == 0;
  }

  /** The reader returns a reply exactly when one arrives. */
  lemma ReadsExactlyArrivals(s: Stream, expected: int, cancelAt: Option<nat>, c: Cursor, reply: Reply)
    ensures Read(s, expected, cancelAt, c).1 == Ok(reply)
       <==> exists k: nat :: Arrives(s, expected, cancelAt, c, k, reply)
  {
    if Read(s, expected, cancelAt, c).1 == Ok(reply) {
      var k := ReadHasArrived(s, expected, cancelAt, c);
    }
    if k: nat :| Arrives(s, expected, cancelAt, c, k, reply) {
      ArrivalIsRead(s, expected, cancelAt, c, k, reply);
    }
  }

  // ---- Why there is no reply ----

  /** What is wrong with a line that stops the reader; every other line is a reply or is skipped. */
  predicate Wrong(content: Content, expected: int, e: RpcError) {
    if content.Undecodable? then e == BadMessage
    else
      && content.Decoded? && !Notification(content)
      && var m := content.message;
         if !m.supported then e == BadVersion
         else if !m.id.IntId? then e == BadId
         else if m.id != IntId(expected) then e == UnexpectedId
         else if m.result.Some? && m.error == NoError then false
         else if m.result.None? && m.error.Fault? then false
         else e == if m.result.None? && m.error != NoError then BadErrorField else NotExactlyOne
  }

  lemma StopsExactly(content: Content, expected: int, e: RpcError)
    ensures Judge(content, expected) == Stop(Err(e)) <==> Wrong(content, expected, e)
  {
  }

  /** With the lines before k skipped and all of them within the budgets, this is what ends the reading at k. */
  predicate FailsAt(s: Stream, expected: int, cancelAt: Option<nat>, c: Cursor, k: nat, e: RpcError)
    requires c.pos <= k
  {
    var taken := MAX_MESSAGES - c.messages + (k - c.pos);
    if k - c.pos == c.messages then e == MessageLimit
    else if cancelAt.Some? && cancelAt.value <= taken then e == Canceled
    else if k >= |s.lines| then e == if s.breaks then ReadFailed else NotReceived
    else if s.lines[k].buffered >= MAX_LINE_BYTES then e == ReadFailed
    else if Bytes(s.lines, c.pos, k + 1) > c.bytes then e == ByteLimit
    else Wrong(s.lines[k].content, expected, e)
  }

  /** The reader has skipped the lines from the cursor to k. */
  predicate Skipped(s: Stream, cancelAt: Option<nat>, c: Cursor, k: nat) {
    && c.pos <= k && k - c.pos <= c.messages && (k == c.pos || k <= |s.lines|)
    && Quiet(s.lines, c.pos, k) && ShortLines(s.lines, c.pos, k)
    && (k > c.pos ==> Bytes(s.lines, c.pos, k) <= c.bytes)
    && (k > c.pos && cancelAt.Some? ==> MAX_MESSAGES - c.messages + (k - 1 - c.pos) < cancelAt.value)
  }

  lemma BytesFrom(lines: seq<Line>, lo: int, hi: int)
    requires 0 <= lo < hi <= |lines|
    ensures Bytes(lines, lo, hi) == lines[lo].size + Bytes(lines, lo + 1, hi)
  {
  }

  /** Past the first skipped line the same ends the reading. */
  lemma OneLineLess(s: Stream, expected: int, cancelAt: Option<nat>, c: Cursor, k: nat, e: RpcError)
    requires Skipped(s, cancelAt, c, k) && FailsAt(s, expected, cancelAt, c, k, e) && k > c.pos
    ensures var line := s.lines[c.pos];
            && line.size <= c.bytes && line.buffered < MAX_LINE_BYTES && !Ended(cancelAt, c)
            && Skipped(s, cancelAt, Taken(c, line.size), k)
            && FailsAt(s, expected, cancelAt, Taken(c, line.size), k, e)
  {
    BytesFrom(s.lines, c.pos, k);
    if k < |s.lines| { BytesFrom(s.lines, c.pos, k + 1); }
  }

  lemma {:induction false} FailureIsRead(s: Stream, expected: int, cancelAt: Option<nat>, c: Cursor, k: nat,
                                         e: RpcError)
    requires Skipped(s, cancelAt, c, k) && FailsAt(s, expected, cancelAt, c, k, e)
    ensures Read(s, expected, cancelAt, c).1 == Err(e)
    decreases k - c.pos
  {
    if k > c.pos {
      OneLineLess(s, expected, cancelAt, c, k, e);
      SkipsExactly(s.lines[c.pos].content, expected);
      FailureIsRead(s, expected, cancelAt, Taken(c, s.lines[c.pos].size), k, e);
    } else if k < |s.lines| {
      BytesFrom(s.lines, k, k + 1);
      StopsExactly(s.lines[k].content, expected, e);
    }
  }

  lemma {:induction false} ReadHasFailed(s: Stream, expected: int, cancelAt: Option<nat>, c: Cursor) returns (k: nat)
    requires Read(s, expected, cancelAt, c).1.Err?
    ensures Skipped(s, cancelAt, c, k) && FailsAt(s, expected, cancelAt, c, k, Read(s, expected, cancelAt, c).1.error)
    decreases c.messages
  {
    k := c.pos;
    if c.messages > 0 && !Ended(cancelAt, c) && c.pos < |s.lines| {
      var line := s.lines[c.pos];
      assert Bytes(s.lines, c.pos, c.pos + 1) == line.size + Bytes(s.lines, c.pos + 1, c.pos + 1);
      if line.buffered < MAX_LINE_BYTES && line.size <= c.bytes {
        SkipsExactly(line.content, expected);
        if Judge(line.content, expected).Skip? {
          k := ReadHasFailed(s, expected, cancelAt, Taken(c, line.size));
          BytesSplit(s.lines, c.pos, c.pos + 1, if k <= |s.lines| then k else c.pos + 1);
          if k < |s.lines| { BytesSplit(s.lines, c.pos, c.pos + 1, k + 1); }
        } else {
          StopsExactly(line.content, expected, Read(s, expected, cancelAt, c).1.error);
        }
      }
    }
  }

  /** The reader fails exactly where, and exactly as, the first line it cannot skip, or a budget, or the stream says. */
  lemma FailsExactlyWhen(s: Stream, expected: int, cancelAt: Option<nat>, c: Cursor, e: RpcError)
    ensures Read(s, expected, cancelAt, c).1 == Err(e) <==>
              exists k: nat :: Skipped(s, cancelAt, c, k) && FailsAt(s, expected, cancelAt, c, k, e)
  {
    if Read(s, expected, cancelAt, c).1 == Err(e) {
      var k := ReadHasFailed(s, expected, cancelAt, c);
    }
    if k: nat :| Skipped(s, cancelAt, c, k) && FailsAt(s, expected, cancelAt, c, k, e) {
      FailureIsRead(s, expected, cancelAt, c, k, e);
    }
  }

  // ---- The session ----

  const PROTOCOL_VERSION := "2025-06-18"

  predicate InitializeOk(p: Payload) {
    !p.isNull && p.version == Some(PROTOCOL_VERSION)
  }

  function Texts(parts: seq<Part>): seq<string> {
    if parts == [] then []
    else Texts(parts[..|parts| - 1]) + (if parts[|parts| - 1].kind == "text" then [parts[|parts| - 1].text] else [])
  }

  datatype Outcome = ToolOutput(texts: seq<string>, isError: bool) | ToolFault(code: int, message: string)

  function OutcomeOf(reply: Reply): Result<Outcome, RpcError> {
    match reply
    case FaultReply(code, message) => Ok(ToolFault(code, message))
    case ResultReply(p) =>
      if p.wire.None? || Texts(p.wire.value.content) == [] then Err(BadToolResult)
      else Ok(ToolOutput(Texts(p.wire.value.content), p.wire.value.isError))
  }

  /** `writes` is how many of the two requests can be written and flushed. */
  function Session(s: Stream, cancelAt: Option<nat>, writes: nat): Result<Outcome, RpcError> {
    var (between, first) := Read(s, INITIALIZE_ID, cancelAt, START);
    if Ended(cancelAt, START) then Err(Canceled)
    else if writes == 0 then Err(WriteFailed)
    else match first
    case Err(e) => Err(e)
    case Ok(FaultReply(_, _)) => Err(InitializeFailed)
    case Ok(ResultReply(p)) =>
      if !InitializeOk(p) then Err(BadInitializeResult)
      else if writes == 1 then Err(WriteFailed)
      else
        match Read(s, INVOCATION_ID, cancelAt, between).1
        case Err(e) => Err(e)
        case Ok(reply) => OutcomeOf(reply)
  }

  /**
   The whole session by line positions: the initialize response is line i, the tool response line k, everything
   else up to k is blank or a notification, k is among the first 32 lines, no line is too long, and all of the lines
   up to k together have at most 4 MiB.
   */
  predicate Succeeds(s: Stream, cancelAt: Option<nat>, i: nat, k: nat, p: Payload, reply: Reply) {
    && i < k < |s.lines| && k < MAX_MESSAGES
    && Quiet(s.lines, 0, i) && Quiet(s.lines, i + 1, k) && ShortLines(s.lines, 0, k + 1)
    && Bytes(s.lines, 0, k + 1) <= MAX_SESSION_BYTES
    && (cancelAt.Some? ==> k < cancelAt.value)
    && Answers(s.lines[i].content, 1, ResultReply(p)) && !p.isNull && p.version == Some("2025-06-18")
    && Answers(s.lines[k].content, 2, reply)
  }

  lemma SuccessIsSession(s: Stream, cancelAt: Option<nat>, i: nat, k: nat, p: Payload, reply: Reply)
    requires Succeeds(s, cancelAt, i, k, p, reply)
    ensures forall writes: nat :: writes >= 2 ==> Session(s, cancelAt, writes) == OutcomeOf(reply)
  {
    BytesSplit(s.lines, 0, i + 1, k + 1);
    ArrivalIsRead(s, INITIALIZE_ID, cancelAt, START, i, ResultReply(p));
    ArrivalIsRead(s, INVOCATION_ID, cancelAt, CursorAfter(s, START, i), k, reply);
  }

  /** The texts of exactly the text parts, in their order: part ks[i] is the one with text i. */
  ghost predicate TextsAt(parts: seq<Part>, texts: seq<string>, ks: seq<nat>) {
    && |ks| == |texts|
    && (forall i, j :: 0 <= i < j < |ks| ==> ks[i] < ks[j])
    && (forall i :: 0 <= i < |ks| ==> ks[i] < |parts| && parts[ks[i]] == Part("text", texts[i]))
    && (forall k: nat :: k < |parts| && parts[k].kind == "text" ==> k in ks)
  }

  ghost predicate TextsOf(parts: seq<Part>, texts: seq<string>) {
    exists ks: seq<nat> :: TextsAt(parts, texts, ks)
  }

  lemma OneMorePart(before: seq<Part>, last: Part, texts: seq<string>, ks: seq<nat>)
    requires TextsAt(before, texts, ks)
    ensures last.kind == "text" ==> TextsAt(before + [last], texts + [last.text], ks + [|before|])
    ensures last.kind != "text" ==> TextsAt(before + [last], texts, ks)
  {
    var parts, more := before + [last], ks + [|before|];
    assert parts[|before|] == last && more[|ks|] == |before|;
    assert forall k: nat :: k < |before| ==> parts[k] == before[k];
    assert forall k: nat :: k in ks ==> k in more;
  }

  lemma {:induction false} TextsAreOf(parts: seq<Part>) returns (ks: seq<nat>)
    ensures TextsAt(parts, Texts(parts), ks)
  {
    ks := [];
    if parts != [] {
      var before, last := parts[..|parts| - 1], parts[|parts| - 1];
      ks := TextsAreOf(before);
      assert parts == before + [last];
      OneMorePart(before, last, Texts(before), ks);
      assert Texts(before) + [] == Texts(before);
      if last.kind == "text" { ks := ks + [|before|]; }
    }
  }

  lemma LastIsTaken(parts: seq<Part>, texts: seq<string>, ks: seq<nat>)
    requires parts != [] && parts[|parts| - 1].kind == "text" && TextsAt(parts, texts, ks)
    ensures |ks| > 0 && ks[|ks| - 1] == |parts| - 1
  {
    var n: nat := |parts| - 1;
    assert n in ks;
    var i :| 0 <= i < |ks| && ks[i] == n;
    if i < |ks| - 1 { assert ks[i] < ks[|ks| - 1]; }
  }

  lemma WithoutLastText(before: seq<Part>, last: Part, texts: seq<string>, ks: seq<nat>)
    requires last.kind == "text" && TextsAt(before + [last], texts, ks)
    ensures |texts| > 0 && texts[|texts| - 1] == last.text
    ensures TextsAt(before, texts[..|texts| - 1], ks[..|ks| - 1])
  {
    var parts := before + [last];
    LastIsTaken(parts, texts, ks);
    var fewer := ks[..|ks| - 1];
    assert forall i :: 0 <= i < |fewer| ==> fewer[i] < |before| && parts[fewer[i]] == before[fewer[i]];
    forall k: nat | k < |before| && before[k].kind == "text" ensures k in fewer {
      assert parts[k] == before[k];
      var i :| 0 <= i < |ks| && ks[i] == k;
      assert fewer[i] == k;
    }
  }

  lemma WithoutLastPart(before: seq<Part>, last: Part, texts: seq<string>, ks: seq<nat>)
    requires last.kind != "text" && TextsAt(before + [last], texts, ks)
    ensures TextsAt(before, texts, ks)
  {
    var parts := before + [last];
    assert parts[|before|] == last;
    assert forall i :: 0 <= i < |ks| ==> ks[i] != |before|;
    assert forall k: nat :: k < |before| ==> parts[k] == before[k];
  }

  lemma {:induction false} TextsAreUnique(parts: seq<Part>, texts: seq<string>, ks: seq<nat>)
    requires TextsAt(parts, texts, ks)
    ensures texts == Texts(parts)
  {
    if parts != [] {
      var before, last := parts[..|parts| - 1], parts[|parts| - 1];
      assert parts == before + [last];
      if last.kind == "text" {
        WithoutLastText(before, last, texts, ks);
        TextsAreUnique(before, texts[..|texts| - 1], ks[..|ks| - 1]);
        assert texts == texts[..|texts| - 1] + [last.text];
      } else {
        WithoutLastPart(before, last, texts, ks);
        TextsAreUnique(before, texts, ks);
      }
    }
  }

  /** What a tool response says: a fault as it is, or the texts of its text parts with its error flag. */
  ghost predicate Says(reply: Reply, outcome: Outcome) {
    match outcome
    case ToolFault(code, message) => reply == FaultReply(code, message)
    case ToolOutput(texts, isError) =>
      && reply.ResultReply? && reply.payload.wire.Some? && isError == reply.payload.wire.value.isError
      && texts != [] && TextsOf(reply.payload.wire.value.content, texts)
  }

  lemma OutcomeIsSaid(reply: Reply, outcome: Outcome)
    ensures OutcomeOf(reply) == Ok(outcome) <==> Says(reply, outcome)
  {
    if reply.ResultReply? && reply.payload.wire.Some? {
      var parts := reply.payload.wire.value.content;
      var ks := TextsAreOf(parts);
      if outcome.ToolOutput? && TextsOf(parts, outcome.texts) {
        var at: seq<nat> :| TextsAt(parts, outcome.texts, at);
        TextsAreUnique(parts, outcome.texts, at);
      }
    }
  }

  /**
   A session has an outcome exactly when both requests are written and two such lines exist, and the outcome is what
   the second line says.
   */
  lemma SessionSucceedsExactlyWhen(s: Stream, cancelAt: Option<nat>, writes: nat, outcome: Outcome)
    ensures Session(s, cancelAt, writes) == Ok(outcome) <==>
              writes >= 2 &&
              exists i: nat, k: nat, p: Payload, reply: Reply ::
                Succeeds(s, cancelAt, i, k, p, reply) && Says(reply, outcome)
  {
    if Session(s, cancelAt, writes) == Ok(outcome) {
      var (between, first) := Read(s, INITIALIZE_ID, cancelAt, START);
      var p := first.value.payload;
      var i := ReadHasArrived(s, INITIALIZE_ID, cancelAt, START);
      ArrivalIsRead(s, INITIALIZE_ID, cancelAt, START, i, ResultReply(p));
      var reply := Read(s, INVOCATION_ID, cancelAt, between).1.value;
      var k := ReadHasArrived(s, INVOCATION_ID, cancelAt, between);
      BytesSplit(s.lines, 0, i + 1, k + 1);
      OutcomeIsSaid(reply, outcome);
      assert Succeeds(s, cancelAt, i, k, p, reply) && Says(reply, outcome);
    }
    if i: nat, k: nat, p: Payload, reply: Reply :| Succeeds(s, cancelAt, i, k, p, reply) && Says(reply, outcome) {
      OutcomeIsSaid(reply, outcome);
      SuccessIsSession(s, cancelAt, i, k, p, reply);
    }
  }

  // ---- The loops ----

  class Reader {
    const stream: Stream
    var pos: nat
    var remainingMessages: nat
    var remainingBytes: nat

    function State(): Cursor
      reads this
    {
      Cursor(pos, remainingMessages, remainingBytes)
    }

    constructor (stream: Stream)
      ensures this.stream == stream && State() == START
    {
      this.stream := stream;
      pos, remainingMessages, remainingBytes := 0, MAX_MESSAGES, MAX_SESSION_BYTES;
    }

    /** Read until the response arrives, drawing on the budgets of the session. */
    method ReadResponse(expected: int, cancelAt: Option<nat>) returns (r: Result<Reply, RpcError>)
      modifies this
      ensures (State(), r) == Read(stream, expected, cancelAt, old(State()))
    {
      while remainingMessages > 0
        invariant Read(stream, expected, cancelAt, State()) == Read(stream, expected, cancelAt, old(State()))
        decreases remainingMessages
      {
        if cancelAt.Some? && MAX_MESSAGES - remainingMessages >= cancelAt.value { return Err(Canceled); }
        ghost var before := State();
        remainingMessages := remainingMessages - 1;
        if pos >= |stream.lines| { return Err(if stream.breaks then ReadFailed else NotReceived); }
        var line := stream.lines[pos];
        if line.buffered >= MAX_LINE_BYTES { return Err(ReadFailed); }
        pos := pos + 1;
        if line.size > remainingBytes { return Err(ByteLimit); }
        remainingBytes := remainingBytes - line.size;
        assert State() == Taken(before, line.size);
        match Judge(line.content, expected) {
          case Skip =>
          case Stop(answer) => return answer;
        }
      }
      return Err(MessageLimit);
    }
  }

  method DecodeTexts(parts: seq<Part>) returns (texts: seq<string>)
    ensures texts == Texts(parts)
  {
    texts := [];
    for i := 0 to |parts|
      invariant texts == Texts(parts[..i])
    {
      assert parts[..i + 1][..i] == parts[..i];
      if parts[i].kind == "text" {
        texts := texts + [parts[i].text];
      }
    }
    assert parts[..|parts|] == parts;
  }

  /** One session over one stream. */
  method RunToolCallSession(stream: Stream, cancelAt: Option<nat>, writes: nat) returns (r: Result<Outcome, RpcError>)
    ensures r == Session(stream, cancelAt, writes)
  {
    if cancelAt == Some(0) { return Err(Canceled); }
    if writes == 0 { return Err(WriteFailed); }
    var reader := new Reader(stream);
    var first := reader.ReadResponse(INITIALIZE_ID, cancelAt);
    if first.Err? { return Err(first.error); }
    if first.value.FaultReply? { return Err(InitializeFailed); }
    if first.value.payload.isNull { return Err(BadInitializeResult); }
    if first.value.payload.version != Some(PROTOCOL_VERSION) { return Err(BadInitializeResult); }
    if writes == 1 { return Err(WriteFailed); }
    var second := reader.ReadResponse(INVOCATION_ID, cancelAt);
    if second.Err? { return Err(second.error); }
    if second.value.FaultReply? { return Ok(ToolFault(second.value.code, second.value.message)); }
    var payload := second.value.payload;
    if payload.wire.None? { return Err(BadToolResult); }
    var texts := DecodeTexts(payload.wire.value.content);
    if texts == [] { return Err(BadToolResult); }
    return Ok(ToolOutput(texts, payload.wire.value.isError));
  }
}
