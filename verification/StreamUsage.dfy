/**
 What the stream translators carry beside the text: the model, the token counts and the reason for the end, as a
 client reads them back from what was written.
 */
module StreamUsage {
  import opened Wrappers
  import opened Json
  import opened Sse
  import opened Streams

  lemma {:induction false} WholeNumber(i: int)
    ensures JsonNum(IntJson(i)) == i
  {
    assert Power10(0) == 1;
  }

  // ---------------------------------------------------------------- OpenAI to Anthropic

  datatype Counts = Counts(prompt: int, completion: int)

  /** The counts of the last chunk that has any. */
  function LastCounts(chunks: seq<map<string, Json>>, before: Counts): Counts
    decreases |chunks|
  {
    if chunks == [] then before
    else
      var usage := Get(chunks[|chunks| - 1], "usage");
      if usage.Obj? then Counts(JsonNum(Get(usage.fields, "prompt_tokens")), JsonNum(Get(usage.fields, "completion_tokens")))
      else LastCounts(chunks[..|chunks| - 1], before)
  }

  /** What a client reads of an event that opens or closes the message. */
  datatype Mark = Opens(id: string, model: string, input: int) | Closes(reason: string, output: int)

  function MarkOf(e: Event): Option<Mark> {
    if e.name == "message_start" && Get(e.fields, "message").Obj? then
      var m := Get(e.fields, "message").fields;
      var usage := Get(m, "usage");
      Some(Opens(StrOr(Get(m, "id")), StrOr(Get(m, "model")),
                 if usage.Obj? then JsonNum(Get(usage.fields, "input_tokens")) else 0))
    else if e.name == "message_delta" then
      var delta, usage := Get(e.fields, "delta"), Get(e.fields, "usage");
      Some(Closes(if delta.Obj? then StrOr(Get(delta.fields, "stop_reason")) else "",
                  if usage.Obj? then JsonNum(Get(usage.fields, "output_tokens")) else 0))
    else None
  }

  function Marks(events: seq<Event>): seq<Mark> {
    if events == [] then []
    else (if MarkOf(events[0]).Some? then [MarkOf(events[0]).value] else []) + Marks(events[1..])
  }

  lemma {:induction false} MarksConcat(a: seq<Event>, b: seq<Event>)
    ensures Marks(a + b) == Marks(a) + Marks(b)
  {
    if a == [] {
      assert a + b == b;
    } else {
      assert (a + b)[1..] == a[1..] + b;
      MarksConcat(a[1..], b);
    }
  }

  lemma OneMark(e: Event)
    ensures Marks([e]) == if MarkOf(e).Some? then [MarkOf(e).value] else []
  {
    assert [e][1..] == [];
  }

  function CountsOf(st: ToAnthropic): Counts {
    Counts(st.promptTok, st.outputTok)
  }

  /** A chunk opens the message if none has, with its own model if it names one and with the counts so far. */
  lemma ChunkMarks(st: ToAnthropic, m: map<string, Json>)
    ensures CountsOf(TakeChunk(st, m).0) == LastCounts([m], CountsOf(st)) && TakeChunk(st, m).0.model == st.model
    ensures TakeChunk(st, m).0.msgId == st.msgId
    ensures Marks(TakeChunk(st, m).1)
            == if st.started then []
               else [Opens(st.msgId, if Get(m, "model").Str? then Get(m, "model").s else st.model, LastCounts([m], CountsOf(st)).prompt)]
  {
    assert [m][..0] == [];
    var (st1, out) := TakeChunk(st, m);
    var first := if st.started then [] else [out[0]];
    var text := out[|first|..];
    assert out == first + text;
    MarksConcat(first, text);
    TextHasNoMarks(st, m, text);
    if !st.started {
      OneMark(out[0]);
      WholeNumber(st1.promptTok);
    }
  }

  lemma TextHasNoMarks(st: ToAnthropic, m: map<string, Json>, text: seq<Event>)
    requires |TakeChunk(st, m).1| >= (if st.started then 0 else 1) && text == TakeChunk(st, m).1[if st.started then 0 else 1..]
    ensures Marks(text) == []
  {
    NoMarks(text);
  }

  lemma {:induction false} NoMarks(events: seq<Event>)
    requires forall i | 0 <= i < |events| :: events[i].name != "message_start" && events[i].name != "message_delta"
    ensures Marks(events) == []
  {
    if events != [] {
      NoMarks(events[1..]);
    }
  }

  lemma FinishMarks(st: ToAnthropic)
    ensures Marks(FinishAnthropic(st)) == [Closes("end_turn", st.outputTok)]
  {
    var stop := if st.blockStarted then [BlockStop()] else [];
    NoMarks(stop);
    MarksConcat(stop, [MessageDelta(st.outputTok), MessageStop()]);
    MarksConcat([MessageDelta(st.outputTok)], [MessageStop()]);
    assert [MessageDelta(st.outputTok)] + [MessageStop()] == [MessageDelta(st.outputTok), MessageStop()];
    OneMark(MessageDelta(st.outputTok));
    OneMark(MessageStop());
    WholeNumber(st.outputTok);
  }

  lemma {:induction false} LastCountsSplit(a: seq<map<string, Json>>, b: seq<map<string, Json>>, before: Counts)
    ensures LastCounts(a + b, before) == LastCounts(b, LastCounts(a, before))
    decreases |b|
  {
    if b == [] {
      assert a + b == a;
    } else {
      assert (a + b)[..|a + b| - 1] == a + b[..|b| - 1];
      LastCountsSplit(a, b[..|b| - 1], before);
    }
  }

  /**
   An Anthropic client reads the model and the input count the first chunk had, and at the end the output count of the
   last chunk that had one.
   */
  lemma {:induction false} CountsArrive(st: ToAnthropic, chunks: seq<map<string, Json>>)
    ensures Marks(ToEvents(st, chunks))
            == (if st.started || chunks == [] then []
                else [Opens(st.msgId, if Get(chunks[0], "model").Str? then Get(chunks[0], "model").s else st.model,
                            LastCounts(chunks[..1], CountsOf(st)).prompt)])
               + [Closes("end_turn", LastCounts(chunks, CountsOf(st)).completion)]
    decreases |chunks|
  {
    if chunks == [] {
      FinishMarks(st);
    } else {
      var (st', out) := TakeChunk(st, chunks[0]);
      ChunkMarks(st, chunks[0]);
      CountsArrive(st', chunks[1..]);
      MarksConcat(out, ToEvents(st', chunks[1..]));
      assert chunks[..1] == [chunks[0]] && [chunks[0]] + chunks[1..] == chunks;
      LastCountsSplit([chunks[0]], chunks[1..], CountsOf(st));
    }
  }

  // ---------------------------------------------------------------- Anthropic to OpenAI

  /** What an OpenAI client reads of one chunk. */
  datatype Piece =
    | Begins(model: string)
    | Says(model: string, text: string)
    | Ends(model: string, reason: string, prompt: int, completion: int, total: int)

  function PieceOf(m: map<string, Json>): Option<Piece> {
    var choices := Get(m, "choices");
    if !choices.Arr? || choices.items == [] || !choices.items[0].Obj? then None
    else
      var choice, model := choices.items[0].fields, StrOr(Get(m, "model"));
      var delta, usage := Get(choice, "delta"), Get(m, "usage");
      if Get(choice, "finish_reason").Str? && usage.Obj? then
        Some(Ends(model, Get(choice, "finish_reason").s, JsonNum(Get(usage.fields, "prompt_tokens")),
                  JsonNum(Get(usage.fields, "completion_tokens")), JsonNum(Get(usage.fields, "total_tokens"))))
      else if delta.Obj? && Get(delta.fields, "content").Str? then Some(Says(model, Get(delta.fields, "content").s))
      else if delta.Obj? && Get(delta.fields, "role") == Str("assistant") then Some(Begins(model))
      else None
  }

  function Pieces(chunks: seq<map<string, Json>>): seq<Piece> {
    if chunks == [] then []
    else (if PieceOf(chunks[0]).Some? then [PieceOf(chunks[0]).value] else []) + Pieces(chunks[1..])
  }

  /** What a reader of the events has learnt so far. */
  datatype Seen = Seen(begun: bool, model: string, prompt: int, output: int)

  function ReasonInOpenAI(reason: string): string {
    match reason
    case "max_tokens" => "length"
    case "tool_use" => "tool_calls"
    case _ => "stop"
  }

  function Learnt(seen: Seen, e: Event): Seen {
    if e.name == "message_start" then
      var m := Get(e.fields, "message");
      if !m.Obj? then seen.(begun := true)
      else
        var usage := Get(m.fields, "usage");
        Seen(true, if Get(m.fields, "model").Str? then Get(m.fields, "model").s else seen.model,
             if usage.Obj? then JsonNum(Get(usage.fields, "input_tokens")) else seen.prompt, seen.output)
    else if e.name == "message_delta" && Get(e.fields, "usage").Obj? then
      seen.(output := JsonNum(Get(Get(e.fields, "usage").fields, "output_tokens")))
    else seen
  }

  /** What an event says, once it is learnt: the begin, once; a text, unless it is empty; the end with all counts. */
  function Spoken(before: Seen, after: Seen, e: Event): seq<Piece> {
    if e.name == "message_start" then if before.begun then [] else [Begins(after.model)]
    else if e.name == "content_block_delta" then if DeltaText(e) == "" then [] else [Says(after.model, DeltaText(e))]
    else if e.name == "message_delta" then
      var delta := Get(e.fields, "delta");
      [Ends(after.model, ReasonInOpenAI(if delta.Obj? then StrOr(Get(delta.fields, "stop_reason")) else ""),
            after.prompt, after.output, after.prompt + after.output)]
    else []
  }

  /** All that is said, up to the end of the message. */
  function SpokenAll(seen: Seen, events: seq<Event>): seq<Piece>
    decreases |events|
  {
    if events == [] || events[0].name == "message_stop" then []
    else Spoken(seen, Learnt(seen, events[0]), events[0]) + SpokenAll(Learnt(seen, events[0]), events[1..])
  }

  function SeenBy(st: ToOpenAI): Seen {
    Seen(st.started, st.model, st.promptTok, st.outputTok)
  }

  lemma MadeChunk(st: ToOpenAI, delta: map<string, Json>)
    ensures PieceOf(MakeChunk(st, delta, Null, None).fields)
            == if Get(delta, "content").Str? then Some(Says(st.model, Get(delta, "content").s))
               else if Get(delta, "role") == Str("assistant") then Some(Begins(st.model))
               else None
  {
  }

  lemma MadeLastChunk(st: ToOpenAI, reason: string, prompt: int, completion: int, total: int)
    ensures var counts := Obj(map["prompt_tokens" := IntJson(prompt), "completion_tokens" := IntJson(completion),
                                  "total_tokens" := IntJson(total)]);
            PieceOf(MakeChunk(st, map[], Str(reason), Some(counts)).fields) == Some(Ends(st.model, reason, prompt, completion, total))
  {
    WholeNumber(prompt);
    WholeNumber(completion);
    WholeNumber(total);
  }

  /** One event, what the translator makes of it, and what a reader learns and is told. */
  predicate Matches(st: ToOpenAI, e: Event) {
    var (st', out) := TakeEvent(st, e);
    && SeenBy(st') == Learnt(SeenBy(st), e) && st'.done == st.done
    && |out| <= 1 && (forall o | o in out :: o.Data?)
    && Pieces(PayloadsOf(out)) == Spoken(SeenBy(st), Learnt(SeenBy(st), e), e)
  }

  lemma OnePiece(m: map<string, Json>)
    ensures Pieces(PayloadsOf([Data(m)])) == if PieceOf(m).Some? then [PieceOf(m).value] else []
  {
    assert [Data(m)][1..] == [] && [m][1..] == [];
    assert PayloadsOf([Data(m)]) == [m];
  }

  lemma StartMatches(st: ToOpenAI, e: Event)
    requires e.name == "message_start"
    ensures Matches(st, e)
  {
    var (st', out) := TakeEvent(st, e);
    MadeChunk(st', map["role" := Str("assistant")]);
    if out != [] { OnePiece(out[0].fields); }
  }

  lemma TextMatches(st: ToOpenAI, e: Event)
    requires e.name == "content_block_delta"
    ensures Matches(st, e)
  {
    MadeChunk(st, map["content" := Str(DeltaText(e))]);
    OnePiece(MakeChunk(st, map["content" := Str(DeltaText(e))], Null, None).fields);
  }

  lemma EndMatches(st: ToOpenAI, e: Event)
    requires e.name == "message_delta"
    ensures Matches(st, e)
  {
    var (st', out) := TakeEvent(st, e);
    var delta := Get(e.fields, "delta");
    var reason := if delta.Obj? then StrOr(Get(delta.fields, "stop_reason")) else "";
    MadeLastChunk(st', MapStopReason(reason), st'.promptTok, st'.outputTok, st'.promptTok + st'.outputTok);
    OnePiece(out[0].fields);
  }

  lemma EventMatches(st: ToOpenAI, e: Event)
    requires e.name != "message_stop"
    ensures Matches(st, e)
  {
    if e.name == "message_start" {
      StartMatches(st, e);
    } else if e.name == "content_block_delta" {
      TextMatches(st, e);
    } else if e.name == "message_delta" {
      EndMatches(st, e);
    }
  }

  lemma PiecesOfMore(out: seq<OaiOut>, rest: seq<OaiOut>)
    requires |out| <= 1 && forall o | o in out :: o.Data?
    ensures Pieces(PayloadsOf(out + rest)) == Pieces(PayloadsOf(out)) + Pieces(PayloadsOf(rest))
  {
    if out == [] {
      assert out + rest == rest;
    } else {
      assert (out + rest)[1..] == rest && out[1..] == [];
      assert PayloadsOf(out) == [out[0].fields] && [out[0].fields][1..] == [];
      assert PayloadsOf(out + rest)[1..] == PayloadsOf(rest);
    }
  }

  /** An OpenAI client reads the begin, the texts, and the end with reason and counts, as the events had them. */
  lemma {:induction false} PiecesArrive(st: ToOpenAI, events: seq<Event>)
    requires !st.done && StopsAtStop(events)
    ensures Pieces(PayloadsOf(ToChunks(st, events))) == SpokenAll(SeenBy(st), events)
    decreases |events|
  {
    if events != [] {
      var (st', out) := TakeEvent(st, events[0]);
      if events[0].name == "message_stop" {
        assert events[1..] == [];
      } else {
        EventMatches(st, events[0]);
        PiecesArrive(st', events[1..]);
        PiecesOfMore(out, ToChunks(st', events[1..]));
      }
    }
  }

  /** And so do the readers of the written lines, in either direction. */
  lemma WrittenCountsArrive(c: Codec, a: ToAnthropic, o: ToOpenAI, lines: seq<string>)
    requires Faithful(c) && !o.done && !a.started
    ensures var chunks := Chunks(c, lines);
            Marks(Events(c, Lines(Written(AnthropicStream(c, a, lines))), ""))
            == (if chunks == [] then []
                else [Opens(a.msgId, if Get(chunks[0], "model").Str? then Get(chunks[0], "model").s else a.model,
                            LastCounts(chunks[..1], CountsOf(a)).prompt)])
               + [Closes("end_turn", LastCounts(chunks, CountsOf(a)).completion)]
    ensures Pieces(Chunks(c, Lines(Written(OpenAIStream(c, o, lines))))) == SpokenAll(SeenBy(o), Events(c, lines, ""))
  {
    Terminated(a, Chunks(c, lines));
    EventsArrive(c, ToEvents(a, Chunks(c, lines)));
    CountsArrive(a, Chunks(c, lines));
    EventsStopAtStop(c, lines, "");
    ChunksArrive(c, ToChunks(o, Events(c, lines, "")));
    PiecesArrive(o, Events(c, lines, ""));
  }
}
