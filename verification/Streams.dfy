/**
 The two stream translators: one turns the chunks of an OpenAI stream into Anthropic events, the other the
 reverse. What a client reads from either is what the upstream sent.
 */
module Streams {
  import opened Wrappers
  import opened Json
  import opened Sse

  // ---------------------------------------------------------------- what a client of either stream reads

  /** The text of one chunk of an OpenAI stream: the content of the first choice's delta, if it has one. */
  function ChunkContent(chunk: map<string, Json>): Option<string> {
    var choices := Get(chunk, "choices");
    if !choices.Arr? || choices.items == [] || !choices.items[0].Obj? then None
    else
      var delta := Get(choices.items[0].fields, "delta");
      if !delta.Obj? then None
      else
        var content := Get(delta.fields, "content");
        if content.Str? then Some(content.s) else None
  }

  /** A line of an OpenAI stream is noise, the end, or a chunk. */
  datatype OaiLine = Noise | End | Chunk(fields: map<string, Json>)

  function AsOaiLine(c: Codec, line: string): OaiLine {
    match TrimData(line)
    case None => Noise
    case Some(data) =>
      if TrimSpace(data) == "[DONE]" then End
      else match AsMap(c.parse(data))
           case None => Noise
           case Some(m) => Chunk(m)
  }

  /** The chunks of a stream up to its end. */
  function Chunks(c: Codec, lines: seq<string>): seq<map<string, Json>> {
    if lines == [] then []
    else match AsOaiLine(c, lines[0])
         case Noise => Chunks(c, lines[1..])
         case End => []
         case Chunk(m) => [m] + Chunks(c, lines[1..])
  }

  function ContentOf(chunks: seq<map<string, Json>>): string {
    if chunks == [] then "" else ChunkContent(chunks[0]).GetOr("") + ContentOf(chunks[1..])
  }

  function ReadOpenAI(c: Codec, lines: seq<string>): string {
    ContentOf(Chunks(c, lines))
  }

  /** An event of an Anthropic stream. */
  datatype Event = Event(name: string, fields: map<string, Json>)

  /** The events of a stream up to `message_stop`; an event line names the next data line that parses. */
  function Events(c: Codec, lines: seq<string>, pending: string): seq<Event>
    decreases |lines|
  {
    if lines == [] then []
    else if TrimEvent(lines[0]).Some? then Events(c, lines[1..], TrimEvent(lines[0]).value)
    else match TrimData(lines[0])
         case None => Events(c, lines[1..], pending)
         case Some(data) =>
           match AsMap(c.parse(data))
           case None => Events(c, lines[1..], "")
           case Some(m) =>
             if pending == "message_stop" then [Event(pending, m)] else [Event(pending, m)] + Events(c, lines[1..], "")
  }

  function DeltaText(e: Event): string {
    var delta := Get(e.fields, "delta");
    if e.name == "content_block_delta" && delta.Obj? && Get(delta.fields, "type") == Str("text_delta") then
      StrOr(Get(delta.fields, "text"))
    else ""
  }

  function TextOf(events: seq<Event>): string {
    if events == [] then "" else DeltaText(events[0]) + TextOf(events[1..])
  }

  function ReadAnthropic(c: Codec, lines: seq<string>): string {
    TextOf(Events(c, lines, ""))
  }

  // ---------------------------------------------------------------- what is written

  /** One write of a translator; the driver adds an empty line after each. */
  function Sent(c: Codec, e: Event): string {
    "event: " + e.name + "\n" + "data: " + Text(c, Obj(e.fields))
  }

  function Written(outs: seq<string>): string {
    if outs == [] then "" else outs[0] + "\n\n" + Written(outs[1..])
  }

  function Names(events: seq<Event>): (r: seq<string>)
    ensures |r| == |events|
  {
    seq(|events|, i requires 0 <= i < |events| => events[i].name)
  }

  function SentAll(c: Codec, events: seq<Event>): (r: seq<string>)
    ensures |r| == |events|
  {
    seq(|events|, i requires 0 <= i < |events| => Sent(c, events[i]))
  }

  /** No event but the last is the one that ends a stream; names are tight lines. */
  predicate WellNamed(events: seq<Event>) {
    && (forall i | 0 <= i < |events| :: Tight(events[i].name) && '\n' !in events[i].name)
    && (forall i | 0 <= i < |events| - 1 :: events[i].name != "message_stop")
  }

  /** Whoever reads the lines of a written stream finds exactly the events that were sent. */
  lemma {:induction false} EventsArrive(c: Codec, events: seq<Event>)
    requires Faithful(c) && WellNamed(events)
    ensures Events(c, Lines(Written(SentAll(c, events))), "") == events
  {
    if events != [] {
      WrittenEvent(c, events);
      ReadsEventLines(c, events[0], Lines(Written(SentAll(c, events[1..]))));
      EventsArrive(c, events[1..]);
    }
  }

  lemma EventLine(c: Codec, line: string, rest: seq<string>, pending: string)
    requires TrimEvent(line).Some?
    ensures Events(c, [line] + rest, pending) == Events(c, rest, TrimEvent(line).value)
  {
    assert ([line] + rest)[1..] == rest;
  }

  lemma DataLine(c: Codec, line: string, rest: seq<string>, pending: string, m: map<string, Json>)
    requires TrimEvent(line) == None && TrimData(line).Some? && AsMap(c.parse(TrimData(line).value)) == Some(m)
    ensures Events(c, [line] + rest, pending)
            == if pending == "message_stop" then [Event(pending, m)] else [Event(pending, m)] + Events(c, rest, "")
  {
    assert ([line] + rest)[1..] == rest;
  }

  lemma BlankLine(c: Codec, rest: seq<string>, pending: string)
    ensures Events(c, [""] + rest, pending) == Events(c, rest, pending)
  {
    ReadsBlank();
    assert ([""] + rest)[1..] == rest;
  }

  lemma ReadsEventLines(c: Codec, e: Event, rest: seq<string>)
    requires Faithful(c) && Tight(e.name)
    ensures Events(c, ["event: " + e.name] + (["data: " + Text(c, Obj(e.fields))] + ([""] + rest)), "")
            == if e.name == "message_stop" then [e] else [e] + Events(c, rest, "")
  {
    var data := "data: " + Text(c, Obj(e.fields));
    ReadsEvent(e.name);
    ReadsData(Text(c, Obj(e.fields)));
    EventLine(c, "event: " + e.name, [data] + ([""] + rest), "");
    DataLine(c, data, [""] + rest, e.name, e.fields);
    BlankLine(c, rest, "");
  }

  lemma WrittenEvent(c: Codec, events: seq<Event>)
    requires events != [] && Faithful(c) && '\n' !in events[0].name
    ensures Lines(Written(SentAll(c, events)))
            == ["event: " + events[0].name]
               + (["data: " + Text(c, Obj(events[0].fields))] + ([""] + Lines(Written(SentAll(c, events[1..])))))
  {
    var e := events[0];
    var data := "data: " + Text(c, Obj(e.fields));
    var later := Written(SentAll(c, events[1..]));
    assert SentAll(c, events)[1..] == SentAll(c, events[1..]);
    assert Written(SentAll(c, events)) == ("event: " + e.name) + "\n" + (data + "\n" + ("" + "\n" + later));
    LineThen("event: " + e.name, data + "\n" + ("" + "\n" + later));
    LineThen(data, "" + "\n" + later);
    LineThen("", later);
  }

  // ---------------------------------------------------------------- OpenAI to Anthropic

  /** What the translator remembers between lines. */
  datatype ToAnthropic = ToAnthropic(model: string, msgId: string, started: bool, blockStarted: bool, promptTok: int, outputTok: int)

  function MessageStart(st: ToAnthropic, model: string): Event {
    Event("message_start",
          map["type" := Str("message_start"),
              "message" := Obj(map["id" := Str(st.msgId), "type" := Str("message"), "role" := Str("assistant"),
                                   "model" := Str(model), "content" := Arr([]),
                                   "usage" := Obj(map["input_tokens" := IntJson(st.promptTok), "output_tokens" := IntJson(0)])])])
  }

  function BlockStart(): Event {
    Event("content_block_start",
          map["type" := Str("content_block_start"), "index" := IntJson(0),
              "content_block" := Obj(map["type" := Str("text"), "text" := Str("")])])
  }

  function BlockDelta(text: string): Event {
    Event("content_block_delta",
          map["type" := Str("content_block_delta"), "index" := IntJson(0),
              "delta" := Obj(map["type" := Str("text_delta"), "text" := Str(text)])])
  }

  function BlockStop(): Event {
    Event("content_block_stop", map["type" := Str("content_block_stop"), "index" := IntJson(0)])
  }

  function MessageDelta(outputTok: int): Event {
    Event("message_delta",
          map["type" := Str("message_delta"), "delta" := Obj(map["stop_reason" := Str("end_turn")]),
              "usage" := Obj(map["output_tokens" := IntJson(outputTok)])])
  }

  function MessageStop(): Event {
    Event("message_stop", map["type" := Str("message_stop")])
  }

  /** The state after a chunk and the events it causes. */
  function TakeChunk(st: ToAnthropic, m: map<string, Json>): (ToAnthropic, seq<Event>) {
    var usage := Get(m, "usage");
    var st1 := if usage.Obj? then st.(promptTok := JsonNum(Get(usage.fields, "prompt_tokens")),
                                      outputTok := JsonNum(Get(usage.fields, "completion_tokens")))
               else st;
    var model := if Get(m, "model").Str? then Get(m, "model").s else st.model;
    var first := if st.started then [] else [MessageStart(st1, model)];
    var content := ChunkContent(m);
    var block := if content.Some? && !st.blockStarted then [BlockStart()] else [];
    var delta := if content.Some? && content.value != "" then [BlockDelta(content.value)] else [];
    (st1.(started := true, blockStarted := st.blockStarted || content.Some?), first + (block + delta))
  }

  function FinishAnthropic(st: ToAnthropic): seq<Event> {
    (if st.blockStarted then [BlockStop()] else []) + [MessageDelta(st.outputTok), MessageStop()]
  }

  /** The whole output for the chunks of a stream. */
  function ToEvents(st: ToAnthropic, chunks: seq<map<string, Json>>): seq<Event>
    decreases |chunks|
  {
    if chunks == [] then FinishAnthropic(st)
    else TakeChunk(st, chunks[0]).1 + ToEvents(TakeChunk(st, chunks[0]).0, chunks[1..])
  }

  function Repeat(name: string, n: nat): seq<string> {
    if n == 0 then [] else [name] + Repeat(name, n - 1)
  }

  predicate AnyContent(chunks: seq<map<string, Json>>) {
    exists i | 0 <= i < |chunks| :: ChunkContent(chunks[i]).Some?
  }

  function Deltas(chunks: seq<map<string, Json>>): nat {
    if chunks == [] then 0 else (if ChunkContent(chunks[0]).GetOr("") != "" then 1 else 0) + Deltas(chunks[1..])
  }

  function Opt(b: bool, name: string): seq<string> {
    if b then [name] else []
  }

  function Rest(deltas: nat, stop: bool): seq<string> {
    Repeat("content_block_delta", deltas) + (Opt(stop, "content_block_stop") + ["message_delta", "message_stop"])
  }

  /** The order of events an Anthropic client relies on. */
  function Grammar(start: bool, open: bool, deltas: nat, stop: bool): seq<string> {
    Opt(start, "message_start") + (Opt(open, "content_block_start") + Rest(deltas, stop))
  }

  lemma NamesConcat(a: seq<Event>, b: seq<Event>)
    ensures Names(a + b) == Names(a) + Names(b)
  {
  }

  lemma TakeChunkNames(st: ToAnthropic, m: map<string, Json>)
    ensures Names(TakeChunk(st, m).1)
            == Opt(!st.started, "message_start") + (Opt(!st.blockStarted && ChunkContent(m).Some?, "content_block_start")
                                                    + Opt(ChunkContent(m).GetOr("") != "", "content_block_delta"))
  {
  }

  lemma AnyContentSplit(chunks: seq<map<string, Json>>)
    requires chunks != []
    ensures AnyContent(chunks) <==> ChunkContent(chunks[0]).Some? || AnyContent(chunks[1..])
  {
    if AnyContent(chunks[1..]) {
      var i :| 0 <= i < |chunks[1..]| && ChunkContent(chunks[1..][i]).Some?;
      assert ChunkContent(chunks[i + 1]).Some?;
    }
    if AnyContent(chunks) && ChunkContent(chunks[0]).None? {
      var i :| 0 <= i < |chunks| && ChunkContent(chunks[i]).Some?;
      assert chunks[1..][i - 1] == chunks[i];
    }
  }

  lemma MoreDeltas(delta: bool, n: nat, stop: bool)
    ensures Opt(delta, "content_block_delta") + Rest(n, stop) == Rest((if delta then 1 else 0) + n, stop)
  {
    if delta {
      assert Repeat("content_block_delta", 1 + n) == ["content_block_delta"] + Repeat("content_block_delta", n);
    }
  }

  lemma Regrouped<T>(a: seq<T>, b: seq<T>, c: seq<T>, x: seq<T>)
    ensures (a + (b + c)) + x == a + (b + (c + x))
  {
  }

  /** The names of one chunk before the names of the rest. */
  lemma GrammarStep(started: bool, open: bool, has: bool, delta: bool, more: bool, n: nat)
    requires delta ==> has
    ensures (Opt(!started, "message_start") + (Opt(!open && has, "content_block_start") + Opt(delta, "content_block_delta")))
            + Grammar(false, !(open || has) && more, n, open || has || more)
            == Grammar(!started, !open && (has || more), (if delta then 1 else 0) + n, open || has || more)
  {
    var stop := open || has || more;
    var x := Opt(!(open || has) && more, "content_block_start") + Rest(n, stop);
    assert Grammar(false, !(open || has) && more, n, stop) == x;
    Regrouped(Opt(!started, "message_start"), Opt(!open && has, "content_block_start"), Opt(delta, "content_block_delta"), x);
    if has {
      assert x == Rest(n, stop);
      MoreDeltas(delta, n, stop);
    } else {
      assert Opt(delta, "content_block_delta") + x == x;
      assert [] + x == x;
    }
  }

  lemma AfterChunk(st: ToAnthropic, m: map<string, Json>)
    ensures TakeChunk(st, m).0.started && (TakeChunk(st, m).0.blockStarted <==> st.blockStarted || ChunkContent(m).Some?)
  {
  }

  lemma NamesOfMore(st: ToAnthropic, m: map<string, Json>, rest: seq<map<string, Json>>)
    ensures Names(ToEvents(st, [m] + rest)) == Names(TakeChunk(st, m).1) + Names(ToEvents(TakeChunk(st, m).0, rest))
  {
    assert ([m] + rest)[1..] == rest;
    NamesConcat(TakeChunk(st, m).1, ToEvents(TakeChunk(st, m).0, rest));
  }

  lemma DeltasOfMore(m: map<string, Json>, rest: seq<map<string, Json>>)
    ensures Deltas([m] + rest) == (if ChunkContent(m).GetOr("") != "" then 1 else 0) + Deltas(rest)
    ensures AnyContent([m] + rest) <==> ChunkContent(m).Some? || AnyContent(rest)
  {
    assert ([m] + rest)[1..] == rest;
    AnyContentSplit([m] + rest);
  }

  /** message_start comes exactly when a chunk parsed, the block exactly when some chunk had content, one delta per non-empty content. */
  lemma {:induction false} FollowsGrammar(st: ToAnthropic, chunks: seq<map<string, Json>>)
    requires st.blockStarted ==> st.started
    ensures Names(ToEvents(st, chunks))
            == Grammar(!st.started && chunks != [], !st.blockStarted && AnyContent(chunks), Deltas(chunks),
                       st.blockStarted || AnyContent(chunks))
    decreases |chunks|
  {
    if chunks != [] {
      var m, rest := chunks[0], chunks[1..];
      assert chunks == [m] + rest;
      AfterChunk(st, m);
      FollowsGrammar(TakeChunk(st, m).0, rest);
      TakeChunkNames(st, m);
      NamesOfMore(st, m, rest);
      DeltasOfMore(m, rest);
      GrammarStep(st.started, st.blockStarted, ChunkContent(m).Some?, ChunkContent(m).GetOr("") != "", AnyContent(rest), Deltas(rest));
    }
  }

  lemma {:induction false} TextConcat(a: seq<Event>, b: seq<Event>)
    ensures TextOf(a + b) == TextOf(a) + TextOf(b)
  {
    if a == [] {
      assert a + b == b;
    } else {
      assert (a + b)[1..] == a[1..] + b;
      TextConcat(a[1..], b);
    }
  }

  lemma TextOfOne(e: Event)
    ensures TextOf([e]) == DeltaText(e)
  {
    assert [e][1..] == [];
  }

  lemma TakeChunkText(st: ToAnthropic, m: map<string, Json>)
    ensures TextOf(TakeChunk(st, m).1) == ChunkContent(m).GetOr("")
  {
    var out := TakeChunk(st, m).1;
    var text := ChunkContent(m).GetOr("");
    if text != "" {
      var before := out[..|out| - 1];
      assert out == before + [BlockDelta(text)];
      TextConcat(before, [BlockDelta(text)]);
      TextOfOne(BlockDelta(text));
      Silent(before);
    } else {
      Silent(out);
    }
  }

  lemma {:induction false} Silent(events: seq<Event>)
    requires forall i | 0 <= i < |events| :: events[i].name != "content_block_delta"
    ensures TextOf(events) == ""
  {
    if events != [] {
      Silent(events[1..]);
    }
  }

  /** The text of the events is the text of the chunks. */
  lemma {:induction false} KeepsText(st: ToAnthropic, chunks: seq<map<string, Json>>)
    ensures TextOf(ToEvents(st, chunks)) == ContentOf(chunks)
    decreases |chunks|
  {
    if chunks == [] {
      Silent(FinishAnthropic(st));
    } else {
      var (st', out) := TakeChunk(st, chunks[0]);
      KeepsText(st', chunks[1..]);
      TextConcat(out, ToEvents(st', chunks[1..]));
      TakeChunkText(st, chunks[0]);
    }
  }

  /** A name that fits on a line and does not end the stream. */
  predicate Plain(e: Event) {
    Tight(e.name) && '\n' !in e.name && e.name != "message_stop"
  }

  lemma PlainEvents(st: ToAnthropic, model: string, text: string, n: int)
    ensures Plain(MessageStart(st, model)) && Plain(BlockStart()) && Plain(BlockDelta(text)) && Plain(BlockStop()) && Plain(MessageDelta(n))
    ensures Tight(MessageStop().name) && '\n' !in MessageStop().name
  {
  }

  lemma Opening(st: ToAnthropic, m: map<string, Json>)
    ensures forall i | 0 <= i < |TakeChunk(st, m).1| :: Plain(TakeChunk(st, m).1[i])
  {
    forall st: ToAnthropic, model: string, text: string ensures Plain(MessageStart(st, model)) && Plain(BlockDelta(text)) {
      PlainEvents(st, model, text, 0);
    }
    PlainEvents(st, "", "", 0);
  }

  lemma Closing(st: ToAnthropic)
    ensures WellNamed(FinishAnthropic(st))
    ensures FinishAnthropic(st) != [] && FinishAnthropic(st)[|FinishAnthropic(st)| - 1] == MessageStop()
  {
    PlainEvents(st, "", "", st.outputTok);
  }

  lemma {:induction false} Terminated(st: ToAnthropic, chunks: seq<map<string, Json>>)
    ensures WellNamed(ToEvents(st, chunks))
    ensures ToEvents(st, chunks) != [] && ToEvents(st, chunks)[|ToEvents(st, chunks)| - 1] == MessageStop()
    decreases |chunks|
  {
    if chunks == [] {
      Closing(st);
    } else {
      Terminated(TakeChunk(st, chunks[0]).0, chunks[1..]);
      Opening(st, chunks[0]);
      PlainBefore(TakeChunk(st, chunks[0]).1, ToEvents(TakeChunk(st, chunks[0]).0, chunks[1..]));
    }
  }

  lemma PlainBefore(a: seq<Event>, b: seq<Event>)
    requires WellNamed(b) && b != [] && forall i | 0 <= i < |a| :: Plain(a[i])
    ensures WellNamed(a + b) && (a + b)[|a + b| - 1] == b[|b| - 1]
  {
  }

  // ---------------------------------------------------------------- Anthropic to OpenAI

  datatype ToOpenAI = ToOpenAI(chatId: string, model: string, started: bool, promptTok: int, outputTok: int, done: bool)

  /** One write of this translator. */
  datatype OaiOut = Data(fields: map<string, Json>) | Done

  function MapStopReason(reason: string): string {
    if reason == "max_tokens" then "length" else if reason == "tool_use" then "tool_calls" else "stop"
  }

  function MakeChunk(st: ToOpenAI, delta: map<string, Json>, finish: Json, usage: Option<Json>): OaiOut {
    var chunk := map["id" := Str(st.chatId), "object" := Str("chat.completion.chunk"), "created" := IntJson(0),
                     "model" := Str(st.model),
                     "choices" := Arr([Obj(map["index" := IntJson(0), "delta" := Obj(delta), "finish_reason" := finish])])];
    Data(if usage.Some? then chunk["usage" := usage.value] else chunk)
  }

  function TakeEvent(st: ToOpenAI, e: Event): (ToOpenAI, seq<OaiOut>) {
    if e.name == "message_start" then
      var message := Get(e.fields, "message");
      var st1 := if message.Obj? && Get(message.fields, "model").Str? then st.(model := Get(message.fields, "model").s) else st;
      var st2 := if message.Obj? && Get(message.fields, "usage").Obj? then
                   st1.(promptTok := JsonNum(Get(Get(message.fields, "usage").fields, "input_tokens")))
                 else st1;
      if st2.started then (st2, [])
      else (st2.(started := true), [MakeChunk(st2, map["role" := Str("assistant")], Null, None)])
    else if e.name == "content_block_delta" then
      (st, if DeltaText(e) == "" then [] else [MakeChunk(st, map["content" := Str(DeltaText(e))], Null, None)])
    else if e.name == "message_delta" then
      var usage := Get(e.fields, "usage");
      var st1 := if usage.Obj? then st.(outputTok := JsonNum(Get(usage.fields, "output_tokens"))) else st;
      var delta := Get(e.fields, "delta");
      var reason := if delta.Obj? then StrOr(Get(delta.fields, "stop_reason")) else "";
      var counts := Obj(map["prompt_tokens" := IntJson(st1.promptTok), "completion_tokens" := IntJson(st1.outputTok),
                            "total_tokens" := IntJson(st1.promptTok + st1.outputTok)]);
      (st1, [MakeChunk(st1, map[], Str(MapStopReason(reason)), Some(counts))])
    else if e.name == "message_stop" then (st.(done := true), [Done])
    else (st, [])
  }

  /** The whole output for the events of a stream. */
  function ToChunks(st: ToOpenAI, events: seq<Event>): seq<OaiOut>
    decreases |events|
  {
    if events == [] then if st.done then [] else [Done]
    else TakeEvent(st, events[0]).1 + ToChunks(TakeEvent(st, events[0]).0, events[1..])
  }

  function SentOut(c: Codec, o: OaiOut): string {
    match o
    case Data(m) => "data: " + Text(c, Obj(m))
    case Done => "data: [DONE]"
  }

  function SentOuts(c: Codec, outs: seq<OaiOut>): (r: seq<string>)
    ensures |r| == |outs|
  {
    seq(|outs|, i requires 0 <= i < |outs| => SentOut(c, outs[i]))
  }

  /** Chunks, then the end marker, and no other one. */
  predicate EndsOnce(outs: seq<OaiOut>) {
    && outs != [] && outs[|outs| - 1] == Done
    && forall i | 0 <= i < |outs| - 1 :: outs[i].Data?
  }

  /** Event streams as a reader delivers them: only the last one may be `message_stop`. */
  predicate StopsAtStop(events: seq<Event>) {
    forall i | 0 <= i < |events| - 1 :: events[i].name != "message_stop"
  }

  lemma {:induction false} EventsStopAtStop(c: Codec, lines: seq<string>, pending: string)
    ensures StopsAtStop(Events(c, lines, pending))
    decreases |lines|
  {
    if lines != [] {
      if TrimEvent(lines[0]).Some? {
        EventsStopAtStop(c, lines[1..], TrimEvent(lines[0]).value);
      } else if TrimData(lines[0]).None? {
        EventsStopAtStop(c, lines[1..], pending);
      } else {
        EventsStopAtStop(c, lines[1..], "");
      }
    }
  }

  /** However the upstream ends, the client gets exactly one [DONE], last. */
  lemma {:induction false} DoneOnceLast(st: ToOpenAI, events: seq<Event>)
    requires !st.done && StopsAtStop(events)
    ensures EndsOnce(ToChunks(st, events))
    decreases |events|
  {
    if events != [] {
      var (st', out) := TakeEvent(st, events[0]);
      if events[0].name == "message_stop" {
        assert events[1..] == [];
      } else {
        DoneOnceLast(st', events[1..]);
      }
    }
  }

  function PayloadsOf(outs: seq<OaiOut>): seq<map<string, Json>> {
    if outs == [] || outs[0].Done? then [] else [outs[0].fields] + PayloadsOf(outs[1..])
  }

  /** The text of the chunks is the text of the events. */
  lemma {:induction false} KeepsContent(st: ToOpenAI, events: seq<Event>)
    requires !st.done && StopsAtStop(events)
    ensures ContentOf(PayloadsOf(ToChunks(st, events))) == TextOf(events)
    decreases |events|
  {
    if events != [] {
      var (st', out) := TakeEvent(st, events[0]);
      if events[0].name == "message_stop" {
        assert events[1..] == [];
      } else {
        KeepsContent(st', events[1..]);
        TakeEventContent(st, events[0], ToChunks(st', events[1..]));
      }
    }
  }

  lemma TakeEventContent(st: ToOpenAI, e: Event, rest: seq<OaiOut>)
    requires e.name != "message_stop"
    ensures ContentOf(PayloadsOf(TakeEvent(st, e).1 + rest)) == DeltaText(e) + ContentOf(PayloadsOf(rest))
  {
    var out := TakeEvent(st, e).1;
    if out == [] {
      assert out + rest == rest;
    } else {
      assert (out + rest)[1..] == rest;
      assert PayloadsOf(out + rest)[1..] == PayloadsOf(rest);
    }
  }

  // ---------------------------------------------------------------- from end to end

  lemma SentChunkLine(c: Codec, m: map<string, Json>)
    requires Faithful(c)
    ensures '\n' !in SentOut(c, Data(m)) && AsOaiLine(c, SentOut(c, Data(m))) == Chunk(m)
  {
    var text := Text(c, Obj(m));
    ReadsData(text);
    TrimTight(text);
    assert c.parse(text) == Some(Obj(m));
  }

  lemma SentOutLine(c: Codec, o: OaiOut)
    requires Faithful(c)
    ensures '\n' !in SentOut(c, o)
    ensures AsOaiLine(c, SentOut(c, o)) == if o.Data? then Chunk(o.fields) else End
  {
    if o.Data? {
      SentChunkLine(c, o.fields);
    } else {
      ReadsData("[DONE]");
      TrimTight("[DONE]");
    }
  }

  lemma WrittenOutIs(c: Codec, outs: seq<OaiOut>)
    requires outs != []
    ensures Written(SentOuts(c, outs)) == SentOut(c, outs[0]) + "\n" + ("" + "\n" + Written(SentOuts(c, outs[1..])))
  {
    assert SentOuts(c, outs)[1..] == SentOuts(c, outs[1..]);
  }

  lemma WrittenOut(c: Codec, outs: seq<OaiOut>)
    requires outs != [] && Faithful(c)
    ensures Lines(Written(SentOuts(c, outs)))
            == [SentOut(c, outs[0])] + ([""] + Lines(Written(SentOuts(c, outs[1..]))))
  {
    var line := SentOut(c, outs[0]);
    var later := Written(SentOuts(c, outs[1..]));
    SentOutLine(c, outs[0]);
    WrittenOutIs(c, outs);
    LineThen(line, "" + "\n" + later);
    LineThen("", later);
  }

  lemma OneOaiLine(c: Codec, line: string, rest: seq<string>)
    ensures Chunks(c, [line] + rest)
            == match AsOaiLine(c, line)
               case Noise => Chunks(c, rest)
               case End => []
               case Chunk(m) => [m] + Chunks(c, rest)
  {
    assert ([line] + rest)[1..] == rest;
  }

  /** Whoever reads the lines of a written chunk stream finds exactly the chunks that were sent before the end marker. */
  lemma {:induction false} ChunksArrive(c: Codec, outs: seq<OaiOut>)
    requires Faithful(c)
    ensures Chunks(c, Lines(Written(SentOuts(c, outs)))) == PayloadsOf(outs)
  {
    if outs != [] {
      var later := Lines(Written(SentOuts(c, outs[1..])));
      WrittenOut(c, outs);
      SentOutLine(c, outs[0]);
      OneOaiLine(c, SentOut(c, outs[0]), [""] + later);
      OneOaiLine(c, "", later);
      ReadsBlank();
      ChunksArrive(c, outs[1..]);
    }
  }

  /** The writes of the first driver for an upstream that delivers these lines. */
  function AnthropicStream(c: Codec, st: ToAnthropic, lines: seq<string>): seq<string> {
    SentAll(c, ToEvents(st, Chunks(c, lines)))
  }

  /** The writes of the second driver. */
  function OpenAIStream(c: Codec, st: ToOpenAI, lines: seq<string>): seq<string> {
    SentOuts(c, ToChunks(st, Events(c, lines, "")))
  }

  /** An Anthropic client reads the text the OpenAI upstream sent, whatever its lines and wherever they stop. */
  lemma AnthropicClientReadsAll(c: Codec, st: ToAnthropic, lines: seq<string>)
    requires Faithful(c)
    ensures ReadAnthropic(c, Lines(Written(AnthropicStream(c, st, lines)))) == ReadOpenAI(c, lines)
  {
    var events := ToEvents(st, Chunks(c, lines));
    Terminated(st, Chunks(c, lines));
    EventsArrive(c, events);
    KeepsText(st, Chunks(c, lines));
  }

  /** And an OpenAI client what the Anthropic upstream sent. */
  lemma OpenAIClientReadsAll(c: Codec, st: ToOpenAI, lines: seq<string>)
    requires Faithful(c) && !st.done
    ensures ReadOpenAI(c, Lines(Written(OpenAIStream(c, st, lines)))) == ReadAnthropic(c, lines)
  {
    var events := Events(c, lines, "");
    EventsStopAtStop(c, lines, "");
    ChunksArrive(c, ToChunks(st, events));
    KeepsContent(st, events);
  }

  /** The two translators chained, in either order, keep the text. */
  lemma ChainedKeepsText(c: Codec, a: ToAnthropic, o: ToOpenAI, lines: seq<string>)
    requires Faithful(c) && !o.done
    ensures ReadOpenAI(c, Lines(Written(OpenAIStream(c, o, Lines(Written(AnthropicStream(c, a, lines))))))) == ReadOpenAI(c, lines)
    ensures ReadAnthropic(c, Lines(Written(AnthropicStream(c, a, Lines(Written(OpenAIStream(c, o, lines))))))) == ReadAnthropic(c, lines)
  {
    AnthropicClientReadsAll(c, a, lines);
    OpenAIClientReadsAll(c, o, Lines(Written(AnthropicStream(c, a, lines))));
    OpenAIClientReadsAll(c, o, lines);
    AnthropicClientReadsAll(c, a, Lines(Written(OpenAIStream(c, o, lines))));
  }

  /** What an Anthropic client sees of the event names, for a fresh translator. */
  lemma AnthropicStreamGrammar(c: Codec, st: ToAnthropic, lines: seq<string>)
    requires Faithful(c) && !st.started && !st.blockStarted
    ensures var chunks := Chunks(c, lines);
            Names(Events(c, Lines(Written(AnthropicStream(c, st, lines))), ""))
            == Grammar(chunks != [], AnyContent(chunks), Deltas(chunks), AnyContent(chunks))
  {
    Terminated(st, Chunks(c, lines));
    EventsArrive(c, ToEvents(st, Chunks(c, lines)));
    FollowsGrammar(st, Chunks(c, lines));
  }

  /** The last write is [DONE], and no other is. */
  lemma OpenAIStreamEndsOnce(c: Codec, st: ToOpenAI, lines: seq<string>)
    requires Faithful(c) && !st.done
    ensures var outs := OpenAIStream(c, st, lines);
            outs != [] && forall i | 0 <= i < |outs| :: outs[i] == "data: [DONE]" <==> i == |outs| - 1
  {
    var outs := ToChunks(st, Events(c, lines, ""));
    EventsStopAtStop(c, lines, "");
    DoneOnceLast(st, Events(c, lines, ""));
    forall i | 0 <= i < |outs| ensures SentOut(c, outs[i]) == "data: [DONE]" <==> i == |outs| - 1 {
      SentOutLine(c, outs[i]);
      SentOutLine(c, Done);
    }
  }
}
