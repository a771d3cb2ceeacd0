/**
 * The streaming endpoint: `answer_generator` turns the orchestrator's message stream into
 * Server-Sent-Events lines, and `event_stream` forwards them until the client disconnects.
 */
module Api {
  import opened Wrappers
  import opened Text
  import opened Graphs

  const RECURSION_LIMIT := 150
  const NAMESPACE_KEY := "checkpoint_ns"
  const DONE_LINE := "data: [DONE]\n\n"
  const ERROR_PREFIX := "data: [Error] "

  /** One element of a streamed event: an `AIMessageChunk`, a metadata dict, or any other object
      (a message of another class, named by its Python type). */
  datatype Item = Chunk(content: string) | Metadata(entries: map<string, string>) | Other(typeName: string)

  /** One event of `astream(..., stream_mode="messages")`: normally (message chunk, metadata). */
  type Event = seq<Item>

  /** What the orchestrator produces: the events it yields, then either normal completion or the
      message of the exception it raises. */
  datatype MessageStream = MessageStream(events: seq<Event>, raised: Option<string>)

  /** The exceptions that end the loop. */
  datatype Failure =
    | IndexOutOfRange            // `messages[1]` on an event of fewer than two elements
    | MissingKey(key: string)    // the metadata dict lacks `checkpoint_ns`
    | NotSubscriptable(typeName: string) // `messages[1]` is not a dict
    | Raised(message: string)    // the orchestrator itself raised

  /** `str(e)` for each failure. */
  function Describe(f: Failure): string
  {
    match f
    case IndexOutOfRange => "tuple index out of range"
    case MissingKey(k) => "'" + k + "'"
    case NotSubscriptable(t) => "'" + t + "' object is not subscriptable"
    case Raised(m) => m
  }

  function TypeName(x: Item): string
  {
    match x
    case Chunk(_) => "AIMessageChunk"
    case Metadata(_) => "dict"
    case Other(t) => t
  }

  function DataLine(content: string): string
  {
    "data: " + content + "\n"
  }

  function ErrorLine(f: Failure): string
  {
    ERROR_PREFIX + Describe(f) + "\n\n"
  }

  /** The namespaces the commented-out filter would keep; the guard `True or ...` ignores it. */
  predicate IsCaredNamespace(ns: string)
  {
    StartsWith(ns, "search:") || StartsWith(ns, "note_taker:")
  }

  /** The orchestrator's input: the stripped question as the single user message. */
  function InitialState(question: string): seq<Message>
  {
    [Message(Human, Some(Strip(question)), None)]
  }

  /** One `data:` line per `AIMessageChunk` with non-empty content, in order. */
  function ChunkLines(items: seq<Item>): seq<string>
  {
    if items == [] then []
    else (if items[0].Chunk? && items[0].content != "" then [DataLine(items[0].content)] else [])
         + ChunkLines(items[1..])
  }

  /** ChunkLines is a filter-map: the lines of a concatenation are the lines of each part, in order. */
  lemma {:induction false} ChunkLinesAppend(a: seq<Item>, b: seq<Item>)
    ensures ChunkLines(a + b) == ChunkLines(a) + ChunkLines(b)
    decreases |a|
  {
    if a == [] {
      assert a + b == b;
    } else {
      assert (a + b)[0] == a[0];
      assert (a + b)[1..] == a[1..] + b;
      ChunkLinesAppend(a[1..], b);
    }
  }

  /** The lines of a single item: one for a non-empty chunk, none for anything else. */
  lemma ChunkLinesOfItem(x: Item)
    ensures ChunkLines([x]) == if x.Chunk? && x.content != "" then [DataLine(x.content)] else []
  {
  }

  /** The body of the `async for` loop for one event: the namespace lookup, which may raise, then the
      chunk lines, unconditionally because of `True or ...`. */
  function EventLines(event: Event): Result<seq<string>, Failure>
  {
    if |event| < 2 then Failure(IndexOutOfRange)
    else
      match event[1]
      case Metadata(entries) =>
        if NAMESPACE_KEY !in entries then Failure(MissingKey(NAMESPACE_KEY))
        else
          var cared := IsCaredNamespace(entries[NAMESPACE_KEY]);
          if true || cared then Success(ChunkLines(event)) else Success([])
      case _ => Failure(NotSubscriptable(TypeName(event[1])))
  }

  /** The namespace test never changes the output, and the lookup itself succeeds exactly when the
      second element is a metadata dict holding `checkpoint_ns`. */
  lemma NamespaceFilterIgnored(event: Event)
    ensures EventLines(event).Success? <==>
              |event| >= 2 && event[1].Metadata? && NAMESPACE_KEY in event[1].entries
    ensures EventLines(event).Success? ==> EventLines(event).value == ChunkLines(event)
  {
  }

  /** Reference definition of `answer_generator`'s output for a given stream. */
  function Answer(events: seq<Event>, raised: Option<string>): seq<string>
  {
    if events == [] then
      (if raised.Some? then [ErrorLine(Raised(raised.value))] else []) + [DONE_LINE]
    else
      match EventLines(events[0])
      case Failure(f) => [ErrorLine(f), DONE_LINE]
      case Success(lines) => lines + Answer(events[1..], raised)
  }

  /** Whatever the stream does, the output ends with the DONE line. */
  lemma {:induction false} AnswerEndsWithDone(events: seq<Event>, raised: Option<string>)
    ensures var out := Answer(events, raised); |out| > 0 && out[|out| - 1] == DONE_LINE
  {
    if events != [] && EventLines(events[0]).Success? {
      AnswerEndsWithDone(events[1..], raised);
    }
  }

  /** The number of leading events whose namespace lookup succeeds. */
  function GoodPrefix(events: seq<Event>): (k: nat)
    ensures k <= |events|
    ensures forall j :: 0 <= j < k ==> EventLines(events[j]).Success?
    ensures k < |events| ==> EventLines(events[k]).Failure?
  {
    if events == [] || EventLines(events[0]).Failure? then 0 else 1 + GoodPrefix(events[1..])
  }

  function Flatten(events: seq<Event>): seq<Item>
  {
    if events == [] then [] else events[0] + Flatten(events[1..])
  }

  /** The failure that ends the stream, if any: the first event whose lookup fails, or else the
      exception the orchestrator raised after its last event. */
  function Stop(events: seq<Event>, raised: Option<string>): Option<Failure>
  {
    var k := GoodPrefix(events);
    if k < |events| then Some(EventLines(events[k]).error)
    else if raised.Some? then Some(Raised(raised.value))
    else None
  }

  /** The whole output: the chunk lines of every event before the failure, in stream order; one
      error line if and only if the stream failed; then DONE. */
  lemma {:induction false} AnswerShape(events: seq<Event>, raised: Option<string>)
    ensures var stop := Stop(events, raised);
      Answer(events, raised) ==
        ChunkLines(Flatten(events[..GoodPrefix(events)]))
        + (if stop.Some? then [ErrorLine(stop.value)] else [])
        + [DONE_LINE]
    decreases |events|, 1
  {
    if events == [] {
      assert events[..0] == [];
    } else if EventLines(events[0]).Success? {
      AnswerShapeStep(events, raised);
    } else {
      assert events[..0] == [];
    }
  }

  lemma {:induction false} AnswerShapeStep(events: seq<Event>, raised: Option<string>)
    requires events != [] && EventLines(events[0]).Success?
    ensures var stop := Stop(events, raised);
      Answer(events, raised) ==
        ChunkLines(Flatten(events[..GoodPrefix(events)]))
        + (if stop.Some? then [ErrorLine(stop.value)] else [])
        + [DONE_LINE]
    decreases |events|, 0
  {
    var rest := events[1..];
    AnswerShape(rest, raised);
    AnswerStep(events, raised);
    StopStep(events, raised);
    var k' := GoodPrefix(rest);
    FlattenPrefixStep(events, k');
    ChunkLinesAppend(events[0], Flatten(rest[..k']));
  }

  lemma AnswerStep(events: seq<Event>, raised: Option<string>)
    requires events != [] && EventLines(events[0]).Success?
    ensures Answer(events, raised) == ChunkLines(events[0]) + Answer(events[1..], raised)
  {
  }

  lemma StopStep(events: seq<Event>, raised: Option<string>)
    requires events != [] && EventLines(events[0]).Success?
    ensures GoodPrefix(events) == 1 + GoodPrefix(events[1..])
    ensures Stop(events, raised) == Stop(events[1..], raised)
  {
  }

  lemma FlattenPrefixStep(events: seq<Event>, k: nat)
    requires events != [] && k < |events|
    ensures Flatten(events[..k + 1]) == events[0] + Flatten(events[1..][..k])
  {
    assert events[..k + 1] == [events[0]] + events[1..][..k];
  }

  /** A stream that completes without a malformed event yields exactly its chunk lines, then DONE. */
  lemma CompletedStreamLines(events: seq<Event>)
    requires forall j :: 0 <= j < |events| ==> EventLines(events[j]).Success?
    ensures Answer(events, None) == ChunkLines(Flatten(events)) + [DONE_LINE]
  {
    AllGood(events);
    CompletedPrefix(events);
  }

  lemma CompletedPrefix(events: seq<Event>)
    requires GoodPrefix(events) == |events| && Stop(events, None) == None
    ensures Answer(events, None) == ChunkLines(Flatten(events)) + [DONE_LINE]
  {
    assert events[..|events|] == events;
    AnswerShape(events, None);
  }

  lemma AllGood(events: seq<Event>)
    requires forall j :: 0 <= j < |events| ==> EventLines(events[j]).Success?
    ensures GoodPrefix(events) == |events| && Stop(events, None) == None
  {
  }

  /** No non-empty chunk content ends with a line break, so no chunk line ends with a blank line. */
  ghost predicate OpenEndedChunks(items: seq<Item>)
  {
    forall c :: Chunk(c) in items && c != "" ==> c[|c| - 1] != '\n'
  }

  /** The line closes an SSE event (it ends with a blank line). */
  predicate ClosesEvent(line: string)
  {
    |line| >= 2 && line[|line| - 2..] == "\n\n"
  }

  predicate IsErrorLine(line: string)
  {
    StartsWith(line, ERROR_PREFIX) && ClosesEvent(line)
  }

  lemma {:induction false} ChunkLinesStayOpen(items: seq<Item>)
    requires OpenEndedChunks(items)
    ensures forall line :: line in ChunkLines(items) ==> !ClosesEvent(line)
    decreases |items|
  {
    if items != [] {
      assert items == [items[0]] + items[1..];
      ChunkLinesStayOpen(items[1..]);
      if items[0].Chunk? && items[0].content != "" {
        var c := items[0].content;
        var line := DataLine(c);
        assert line[|line| - 2] == c[|c| - 1];
      }
    }
  }

  /** When no emitted chunk content ends with a line break, the DONE line occurs exactly once and
      last, and an error line occurs only directly before it, exactly when the stream failed. */
  lemma TerminalLines(events: seq<Event>, raised: Option<string>)
    requires OpenEndedChunks(Flatten(events[..GoodPrefix(events)]))
    ensures var out := Answer(events, raised);
      && |out| > 0 && out[|out| - 1] == DONE_LINE
      && (forall i :: 0 <= i < |out| - 1 ==> out[i] != DONE_LINE)
      && (forall i :: 0 <= i < |out| && IsErrorLine(out[i]) ==> i == |out| - 2)
      && (Stop(events, raised).Some? <==> |out| >= 2 && IsErrorLine(out[|out| - 2]))
  {
    AnswerShape(events, raised);
    var prefix := events[..GoodPrefix(events)];
    ChunkLinesStayOpen(Flatten(prefix));
    var stop := Stop(events, raised);
    if stop.Some? {
      ErrorLineShape(stop.value);
    }
    FrameShape(ChunkLines(Flatten(prefix)), if stop.Some? then [ErrorLine(stop.value)] else []);
  }

  lemma ErrorLineShape(f: Failure)
    ensures IsErrorLine(ErrorLine(f)) && ErrorLine(f) != DONE_LINE
  {
  }

  /** The terminal structure of any output made of open chunk lines, at most one error line, and DONE. */
  lemma FrameShape(chunks: seq<string>, tail: seq<string>)
    requires forall line :: line in chunks ==> !ClosesEvent(line)
    requires tail == [] || (|tail| == 1 && IsErrorLine(tail[0]) && tail[0] != DONE_LINE)
    ensures var out := chunks + tail + [DONE_LINE];
      && out[|out| - 1] == DONE_LINE
      && (forall i :: 0 <= i < |out| - 1 ==> out[i] != DONE_LINE)
      && (forall i :: 0 <= i < |out| && IsErrorLine(out[i]) ==> i == |out| - 2)
      && (tail != [] <==> |out| >= 2 && IsErrorLine(out[|out| - 2]))
  {
    var out := chunks + tail + [DONE_LINE];
    assert !IsErrorLine(DONE_LINE) by {
      assert DONE_LINE[..|ERROR_PREFIX|][7] != ERROR_PREFIX[7];
    }
    assert ClosesEvent(DONE_LINE);
    forall i | 0 <= i < |chunks|
      ensures out[i] == chunks[i] && !ClosesEvent(out[i])
    {
      assert chunks[i] in chunks;
    }
  }

  /** A chunk line equals the DONE line exactly when the chunk's content is "[DONE]\n". */
  lemma DataLineIsDone(c: string)
    ensures DataLine(c) == DONE_LINE <==> c == "[DONE]\n"
  {
    if DataLine(c) == DONE_LINE {
      assert c == DataLine(c)[6..|DataLine(c)| - 1];
    }
  }

  lemma {:induction false} DoneInChunkLines(items: seq<Item>)
    ensures DONE_LINE in ChunkLines(items) <==> Chunk("[DONE]\n") in items
    decreases |items|
  {
    if items != [] {
      assert items == [items[0]] + items[1..];
      DoneInChunkLines(items[1..]);
      if items[0].Chunk? {
        DataLineIsDone(items[0].content);
      }
    }
  }

  /** The exact condition for a single DONE line: the DONE line occurs nowhere but last if and only if
      no chunk emitted before the stream stopped has the content "[DONE]\n". */
  lemma DoneOnlyLast(events: seq<Event>, raised: Option<string>)
    ensures var out := Answer(events, raised);
      (forall i :: 0 <= i < |out| - 1 ==> out[i] != DONE_LINE)
      <==> Chunk("[DONE]\n") !in Flatten(events[..GoodPrefix(events)])
  {
    AnswerShape(events, raised);
    var items := Flatten(events[..GoodPrefix(events)]);
    var chunks := ChunkLines(items);
    DoneInChunkLines(items);
    var stop := Stop(events, raised);
    if stop.Some? {
      ErrorLineShape(stop.value);
    }
    var out := Answer(events, raised);
    assert out == chunks + (if stop.Some? then [ErrorLine(stop.value)] else []) + [DONE_LINE];
    if DONE_LINE in chunks {
      var i :| 0 <= i < |chunks| && chunks[i] == DONE_LINE;
      assert out[i] == DONE_LINE;
    } else {
      forall i | 0 <= i < |out| - 1
        ensures out[i] != DONE_LINE
      {
        if i < |chunks| {
          assert out[i] == chunks[i];
        }
      }
    }
  }

  /** Some condition is needed: the terminator can be forged: a chunk whose content is
      "[DONE]\n" yields a line identical to the DONE line, so DONE appears twice. */
  lemma ForgedTerminator()
    ensures Answer([[Chunk("[DONE]\n"), Metadata(map[NAMESPACE_KEY := "search:1"])]], None)
            == [DONE_LINE, DONE_LINE]
  {
    var event := [Chunk("[DONE]\n"), Metadata(map[NAMESPACE_KEY := "search:1"])];
    assert DataLine("[DONE]\n") == DONE_LINE;
    assert ChunkLines(event[1..][1..]) == [];
    assert ChunkLines(event[1..]) == [];
    assert ChunkLines(event) == [DONE_LINE];
    assert EventLines(event) == Success([DONE_LINE]);
    var events: seq<Event> := [event];
    assert events[1..] == [];
  }

  /** A metadata dict without `checkpoint_ns` aborts the stream with the KeyError line, then DONE. */
  lemma MissingNamespaceAborts(event: Event, rest: seq<Event>, raised: Option<string>)
    requires |event| >= 2 && event[1].Metadata? && NAMESPACE_KEY !in event[1].entries
    ensures Answer([event] + rest, raised) == ["data: [Error] 'checkpoint_ns'\n\n", DONE_LINE]
  {
    assert ([event] + rest)[0] == event;
    assert ErrorLine(MissingKey(NAMESPACE_KEY)) == "data: [Error] 'checkpoint_ns'\n\n";
  }

  /** One step of Answer, read at position `i` of the stream. */
  /** One step of `Answer` at position `i`, behind the lines `done` already emitted: a failing event
      ends the output. */
  lemma AnswerAtFailure(events: seq<Event>, i: nat, raised: Option<string>, done: seq<string>)
    requires i < |events| && EventLines(events[i]).Failure?
    ensures done + Answer(events[i..], raised) == done + [ErrorLine(EventLines(events[i]).error), DONE_LINE]
  {
    assert events[i..][0] == events[i];
  }

  /** A succeeding event contributes its lines and the output goes on with the next event. */
  lemma AnswerAtSuccess(events: seq<Event>, i: nat, raised: Option<string>, done: seq<string>)
    requires i < |events| && EventLines(events[i]).Success?
    ensures done + Answer(events[i..], raised)
         == (done + EventLines(events[i]).value) + Answer(events[i + 1..], raised)
  {
    assert events[i..][0] == events[i];
    assert events[i..][1..] == events[i + 1..];
  }

  /** After the last event: the error line of a raising stream, then DONE. */
  lemma AnswerAtEnd(events: seq<Event>, raised: Option<string>, done: seq<string>)
    ensures done + Answer(events[|events|..], raised)
         == (if raised.Some? then done + [ErrorLine(Raised(raised.value))] else done) + [DONE_LINE]
  {
    assert events[|events|..] == [];
  }

  /** The inner `for msg in messages` loop: one `data:` line per non-empty `AIMessageChunk`. */
  method EmitChunks(event: Event) returns (lines: seq<string>)
    ensures lines == ChunkLines(event)
  {
    lines := [];
    var j := 0;
    while j < |event|
      invariant j <= |event|
      invariant lines == ChunkLines(event[..j])
    {
      var item := event[j];
      if item.Chunk? && item.content != "" {
        lines := lines + [DataLine(item.content)];
      }
      ChunkLinesOfItem(item);
      ChunkLinesAppend(event[..j], [item]);
      assert event[..j + 1] == event[..j] + [item];
      j := j + 1;
    }
    assert event[..j] == event;
  }

  /** The body of `answer_generator`'s loop for one event: reads the event's namespace, then emits
      its chunk lines (the namespace test is overridden by `True or`). */
  method EventBody(event: Event) returns (r: Result<seq<string>, Failure>)
    ensures r == EventLines(event)
  {
    if |event| < 2 {
      return Failure(IndexOutOfRange);
    }
    if !event[1].Metadata? {
      return Failure(NotSubscriptable(TypeName(event[1])));
    }
    if NAMESPACE_KEY !in event[1].entries {
      return Failure(MissingKey(NAMESPACE_KEY));
    }
    var checkpointNs := event[1].entries[NAMESPACE_KEY];
    var isCared := IsCaredNamespace(checkpointNs);
    r := Success([]);
    if true || isCared {
      var chunkLines := EmitChunks(event);
      r := Success(chunkLines);
    }
  }

  /** `answer_generator(question)`: drives the orchestrator on the stripped question with recursion
      limit 150 and emits its lines step by step. */
  method AnswerGenerator(question: string, orchestrator: (seq<Message>, nat) -> MessageStream)
    returns (lines: seq<string>)
    ensures var stream := orchestrator(InitialState(question), RECURSION_LIMIT);
            lines == Answer(stream.events, stream.raised)
  {
    var q := Strip(question);
    var stream := orchestrator([Message(Human, Some(q), None)], RECURSION_LIMIT);
    lines := Drain(stream.events, stream.raised);
  }

  /** The `async for` loop of `answer_generator` and what follows it: the lines of each event in turn,
      stopping at the first event that fails, then the error line of a raising stream, then DONE. */
  method Drain(events: seq<Event>, raised: Option<string>) returns (lines: seq<string>)
    ensures lines == Answer(events, raised)
  {
    ghost var expected := Answer(events, raised);
    assert events[0..] == events;
    lines := [];
    var i := 0;
    while i < |events|
      invariant i <= |events|
      invariant lines + Answer(events[i..], raised) == expected
    {
      var r := EventBody(events[i]);
      if r.Failure? {
        AnswerAtFailure(events, i, raised, lines);
        lines := lines + [ErrorLine(r.error), DONE_LINE];
        return;
      }
      AnswerAtSuccess(events, i, raised, lines);
      lines := lines + r.value;
      i := i + 1;
    }
    AnswerAtEnd(events, raised, lines);
    if raised.Some? {
      lines := lines + [ErrorLine(Raised(raised.value))];
    }
    lines := lines + [DONE_LINE];
  }

  /** The first poll at or after `k`, and before `n`, that does not answer "still connected"; `n`
      when every poll from `k` on answers "still connected". */
  function Reached(poll: nat -> Result<bool, string>, n: nat, k: nat): (r: nat)
    requires k <= n
    ensures k <= r <= n
    ensures forall j :: k <= j < r ==> poll(j) == Success(false)
    ensures r < n ==> poll(r) != Success(false)
    decreases n - k
  {
    if k == n || poll(k) != Success(false) then k else Reached(poll, n, k + 1)
  }

  /** What `event_stream()` sends for `lines`: every line up to the first poll that does not answer
      "still connected"; after it, nothing when the poll answered "disconnected", and one error
      line when the poll raised. */
  function Sent(lines: seq<string>, poll: nat -> Result<bool, string>): seq<string>
  {
    var n := Reached(poll, |lines|, 0);
    lines[..n] + (if n < |lines| && poll(n).Failure? then [ErrorLine(Raised(poll(n).error))] else [])
  }

  /** The loop of `event_stream()`: forwards `lines` in order, polling the client before each one;
      `poll(j)` is the outcome of the j-th poll: `Success(true)` when the client has gone,
      `Success(false)` when it is still there, `Failure(m)` when the poll raised with message `m`. */
  method Forward(lines: seq<string>, poll: nat -> Result<bool, string>) returns (sent: seq<string>)
    ensures sent == Sent(lines, poll)
  {
    sent := [];
    var k := 0;
    while k < |lines|
      invariant k <= |lines|
      invariant sent == lines[..k]
      invariant Reached(poll, |lines|, 0) == Reached(poll, |lines|, k)
    {
      var answer := poll(k);
      if answer.Failure? {
        sent := sent + [ErrorLine(Raised(answer.error))];
        return;
      }
      if answer.value {
        return;
      }
      sent := sent + [lines[k]];
      k := k + 1;
    }
  }

  /** Every line sent was produced, in order, except at most one error line at the very end. */
  lemma SentShape(lines: seq<string>, poll: nat -> Result<bool, string>)
    ensures var sent := Sent(lines, poll);
      var n := Reached(poll, |lines|, 0);
      && sent[..n] == lines[..n]
      && |sent| <= n + 1
      && (|sent| == n + 1 ==> IsErrorLine(sent[n]))
  {
    var n := Reached(poll, |lines|, 0);
    if n < |lines| && poll(n).Failure? {
      ErrorLineShape(Raised(poll(n).error));
    }
  }

  /** For lines that end with the DONE line, as every answer does, the full answer is sent exactly
      when every poll answers "still connected". */
  lemma SentAll(lines: seq<string>, poll: nat -> Result<bool, string>)
    requires |lines| > 0 && lines[|lines| - 1] == DONE_LINE
    ensures Sent(lines, poll) == lines <==> forall j :: 0 <= j < |lines| ==> poll(j) == Success(false)
  {
    var n := Reached(poll, |lines|, 0);
    if n < |lines| {
      if poll(n).Failure? {
        ErrorLineShape(Raised(poll(n).error));
        assert Sent(lines, poll)[n] == ErrorLine(Raised(poll(n).error));
      } else {
        assert |Sent(lines, poll)| == n;
      }
    }
  }

  /** The client receives the whole answer, DONE line included, exactly when every poll answers
      "still connected". */
  lemma AnswerSentAll(events: seq<Event>, raised: Option<string>, poll: nat -> Result<bool, string>)
    ensures var out := Answer(events, raised);
      Sent(out, poll) == out <==> forall j :: 0 <= j < |out| ==> poll(j) == Success(false)
  {
    AnswerEndsWithDone(events, raised);
    SentAll(Answer(events, raised), poll);
  }

  /** A poll that raises after an answer that already failed leaves the client with two error lines
      and no DONE line. */
  lemma SecondErrorLine()
    ensures var lines := [ErrorLine(Raised("x")), DONE_LINE];
      var poll := (j: nat) => if j == 0 then Success(false) else Failure("y");
      Sent(lines, poll) == [ErrorLine(Raised("x")), ErrorLine(Raised("y"))]
  {
    var lines := [ErrorLine(Raised("x")), DONE_LINE];
    var poll: nat -> Result<bool, string> := (j: nat) => if j == 0 then Success(false) else Failure("y");
    assert Reached(poll, 2, 1) == 1;
    assert Reached(poll, 2, 0) == 1;
  }

  /** `event_stream()`: forwards `answer_generator`'s lines until the client disconnects or the poll
      raises, so the DONE line may be lost or replaced by an error line. */
  method EventStream(question: string, orchestrator: (seq<Message>, nat) -> MessageStream,
                     poll: nat -> Result<bool, string>)
    returns (sent: seq<string>)
    ensures var stream := orchestrator(InitialState(question), RECURSION_LIMIT);
      sent == Sent(Answer(stream.events, stream.raised), poll)
  {
    var lines := AnswerGenerator(question, orchestrator);
    sent := Forward(lines, poll);
  }
}
