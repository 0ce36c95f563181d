/** The stream translators and their drivers, line by line and in place, against `Streams`. */
module Translators {
  import opened Wrappers
  import opened Json
  import opened Sse
  import opened Streams

  /** What one line does to the state, the done flag and the output. */
  predicate OaiLineTaken(c: Codec, line: string, st: ToAnthropic, done: bool, st': ToAnthropic, done': bool, out: seq<string>) {
    match AsOaiLine(c, line)
    case Noise => st' == st && done' == done && out == []
    case End => st' == st && done' && out == []
    case Chunk(m) => st' == TakeChunk(st, m).0 && done' == done && out == SentAll(c, TakeChunk(st, m).1)
  }

  class OpenAIToAnthropic {
    const model: string
    const msgId: string
    var started: bool
    var blockStarted: bool
    var promptTok: int
    var outputTok: int
    var done: bool

    constructor (model: string, msgId: string)
      ensures State() == ToAnthropic(model, msgId, false, false, 0, 0) && !done
    {
      this.model, this.msgId := model, msgId;
      started, blockStarted, promptTok, outputTok, done := false, false, 0, 0, false;
    }

    ghost function State(): ToAnthropic
      reads this
    {
      ToAnthropic(model, msgId, started, blockStarted, promptTok, outputTok)
    }

    method ProcessLine(c: Codec, line: string) returns (out: seq<string>)
      modifies this
      ensures OaiLineTaken(c, line, old(State()), old(done), State(), done, out)
    {
      var data := TrimData(line);
      if data.None? { return []; }
      if TrimSpace(data.value) == "[DONE]" {
        done := true;
        return [];
      }
      var chunk := AsMap(c.parse(data.value));
      if chunk.None? { return []; }
      out := ProcessChunk(c, chunk.value);
    }

    method ProcessChunk(c: Codec, chunk: map<string, Json>) returns (out: seq<string>)
      modifies this`started, this`blockStarted, this`promptTok, this`outputTok
      ensures State() == TakeChunk(old(State()), chunk).0
      ensures out == SentAll(c, TakeChunk(old(State()), chunk).1)
    {
      ghost var was := State();
      var usage := Get(chunk, "usage");
      if usage.Obj? {
        promptTok := JsonNum(Get(usage.fields, "prompt_tokens"));
        outputTok := JsonNum(Get(usage.fields, "completion_tokens"));
      }
      var events: seq<Event> := [];
      if !started {
        started := true;
        var name := if Get(chunk, "model").Str? then Get(chunk, "model").s else model;
        events := [MessageStart(ToAnthropic(model, msgId, false, blockStarted, promptTok, outputTok), name)];
      }
      ghost var first := events;
      var content := ChunkContent(chunk);
      if content.Some? && !blockStarted {
        blockStarted := true;
        events := events + [BlockStart()];
      }
      ghost var second := events;
      if content.Some? && content.value != "" {
        events := events + [BlockDelta(content.value)];
      }
      assert events == TakeChunk(was, chunk).1;
      out := SentAll(c, events);
    }

    method Finish(c: Codec) returns (out: seq<string>)
      ensures out == SentAll(c, FinishAnthropic(State()))
    {
      var events: seq<Event> := [];
      if blockStarted {
        events := [BlockStop()];
      }
      events := events + [MessageDelta(outputTok)];
      events := events + [MessageStop()];
      assert events == FinishAnthropic(State());
      out := SentAll(c, events);
    }
  }

  lemma {:induction false} WrittenConcat(a: seq<string>, b: seq<string>)
    ensures Written(a + b) == Written(a) + Written(b)
  {
    if a == [] {
      assert a + b == b;
    } else {
      assert (a + b)[1..] == a[1..] + b;
      WrittenConcat(a[1..], b);
    }
  }

  method WriteAll(client: string, outs: seq<string>) returns (r: string)
    ensures r == client + Written(outs)
  {
    r := client;
    for i := 0 to |outs|
      invariant r + Written(outs[i..]) == client + Written(outs)
    {
      assert outs[i..][1..] == outs[i + 1..];
      r := r + (outs[i] + "\n\n");
    }
  }

  lemma SentAllConcat(c: Codec, a: seq<Event>, b: seq<Event>)
    ensures Written(SentAll(c, a + b)) == Written(SentAll(c, a)) + Written(SentAll(c, b))
  {
    assert SentAll(c, a + b) == SentAll(c, a) + SentAll(c, b);
    WrittenConcat(SentAll(c, a), SentAll(c, b));
  }

  /** What is still to be written, one line further. */
  lemma AnthropicLine(c: Codec, st: ToAnthropic, line: string, rest: seq<string>)
    ensures Written(AnthropicStream(c, st, [line] + rest))
            == match AsOaiLine(c, line)
               case Noise => Written(AnthropicStream(c, st, rest))
               case End => Written(SentAll(c, FinishAnthropic(st)))
               case Chunk(m) => Written(SentAll(c, TakeChunk(st, m).1)) + Written(AnthropicStream(c, TakeChunk(st, m).0, rest))
  {
    OneOaiLine(c, line, rest);
    match AsOaiLine(c, line)
    case Noise =>
    case End =>
    case Chunk(m) =>
      assert ([m] + Chunks(c, rest))[1..] == Chunks(c, rest);
      SentAllConcat(c, TakeChunk(st, m).1, ToEvents(TakeChunk(st, m).0, Chunks(c, rest)));
  }

  /** What is written plus what is still to come stays the same. */
  lemma AnthropicBalance(c: Codec, line: string, rest: seq<string>, st: ToAnthropic, st': ToAnthropic, done': bool, out: seq<string>)
    requires OaiLineTaken(c, line, st, false, st', done', out)
    ensures Written(out) + Written(if done' then SentAll(c, FinishAnthropic(st')) else AnthropicStream(c, st', rest))
            == Written(AnthropicStream(c, st, [line] + rest))
  {
    AnthropicLine(c, st, line, rest);
  }

  lemma Associates(a: string, b: string, c: string)
    ensures (a + b) + c == a + (b + c)
  {
  }

  /** One turn of the driver's loop. */
  method RelayToAnthropic(c: Codec, translator: OpenAIToAnthropic, line: string, client: string, ghost rest: seq<string>)
    returns (client': string)
    requires !translator.done
    modifies translator
    ensures client' + Written(if translator.done then SentAll(c, FinishAnthropic(translator.State()))
                              else AnthropicStream(c, translator.State(), rest))
            == client + old(Written(AnthropicStream(c, translator.State(), [line] + rest)))
  {
    ghost var st := translator.State();
    var outLines := translator.ProcessLine(c, line);
    client' := WriteAll(client, outLines);
    AnthropicBalance(c, line, rest, st, translator.State(), translator.done, outLines);
    Associates(client, Written(outLines), Written(if translator.done then SentAll(c, FinishAnthropic(translator.State()))
                                                  else AnthropicStream(c, translator.State(), rest)));
  }

  /** Reads until the upstream ends or the translator is done, then finishes. */
  method DriveToAnthropic(c: Codec, model: string, msgId: string, lines: seq<string>) returns (client: string)
    ensures client == Written(AnthropicStream(c, ToAnthropic(model, msgId, false, false, 0, 0), lines))
  {
    var translator := new OpenAIToAnthropic(model, msgId);
    client := "";
    ghost var whole := Written(AnthropicStream(c, translator.State(), lines));
    assert lines[0..] == lines;
    for i := 0 to |lines|
      invariant !translator.done && fresh(translator)
      invariant client + Written(AnthropicStream(c, translator.State(), lines[i..])) == whole
    {
      assert lines[i..] == [lines[i]] + lines[i + 1..];
      client := RelayToAnthropic(c, translator, lines[i], client, lines[i + 1..]);
      if translator.done { break; }
    }
    var finishLines := translator.Finish(c);
    client := WriteAll(client, finishLines);
  }

  predicate EventLineTaken(c: Codec, line: string, st: ToOpenAI, pending: string, st': ToOpenAI, pending': string, out: seq<string>) {
    if TrimEvent(line).Some? then st' == st && out == [] && pending' == TrimEvent(line).value
    else if TrimData(line).None? then st' == st && out == [] && pending' == pending
    else
      && pending' == ""
      && match AsMap(c.parse(TrimData(line).value))
         case None => st' == st && out == []
         case Some(m) => st' == TakeEvent(st, Event(pending, m)).0 && out == SentOuts(c, TakeEvent(st, Event(pending, m)).1)
  }

  class AnthropicToOpenAI {
    const chatId: string
    var model: string
    var started: bool
    var promptTok: int
    var outputTok: int
    var done: bool
    var pendingEvent: string

    constructor (chatId: string)
      ensures State() == ToOpenAI(chatId, "", false, 0, 0, false) && pendingEvent == ""
    {
      this.chatId := chatId;
      model, started, promptTok, outputTok, done, pendingEvent := "", false, 0, 0, false, "";
    }

    ghost function State(): ToOpenAI
      reads this
    {
      ToOpenAI(chatId, model, started, promptTok, outputTok, done)
    }

    method ProcessLine(c: Codec, line: string) returns (out: seq<string>)
      modifies this
      ensures EventLineTaken(c, line, old(State()), old(pendingEvent), State(), pendingEvent, out)
    {
      var event := TrimEvent(line);
      if event.Some? {
        pendingEvent := event.value;
        return [];
      }
      var data := TrimData(line);
      if data.None? { return []; }
      var eventType := pendingEvent;
      pendingEvent := "";
      var payload := AsMap(c.parse(data.value));
      if payload.None? { return []; }
      out := ProcessEvent(c, eventType, payload.value);
    }

    method ProcessEvent(c: Codec, eventType: string, payload: map<string, Json>) returns (out: seq<string>)
      modifies this`model, this`started, this`promptTok, this`outputTok, this`done
      ensures State() == TakeEvent(old(State()), Event(eventType, payload)).0
      ensures out == SentOuts(c, TakeEvent(old(State()), Event(eventType, payload)).1)
    {
      ghost var was := State();
      var outs: seq<OaiOut> := [];
      if eventType == "message_start" {
        var msg := Get(payload, "message");
        if msg.Obj? {
          if Get(msg.fields, "model").Str? {
            model := Get(msg.fields, "model").s;
          }
          if Get(msg.fields, "usage").Obj? {
            promptTok := JsonNum(Get(Get(msg.fields, "usage").fields, "input_tokens"));
          }
        }
        if !started {
          started := true;
          outs := [MakeChunk(ToOpenAI(chatId, model, false, promptTok, outputTok, done), map["role" := Str("assistant")], Null, None)];
        }
      } else if eventType == "content_block_delta" {
        var text := DeltaText(Event(eventType, payload));
        if text != "" {
          outs := [MakeChunk(ToOpenAI(chatId, model, started, promptTok, outputTok, done), map["content" := Str(text)], Null, None)];
        }
      } else if eventType == "message_delta" {
        var usage := Get(payload, "usage");
        if usage.Obj? {
          outputTok := JsonNum(Get(usage.fields, "output_tokens"));
        }
        var delta := Get(payload, "delta");
        var stopReason := if delta.Obj? then StrOr(Get(delta.fields, "stop_reason")) else "";
        var counts := Obj(map["prompt_tokens" := IntJson(promptTok), "completion_tokens" := IntJson(outputTok),
                              "total_tokens" := IntJson(promptTok + outputTok)]);
        outs := [MakeChunk(ToOpenAI(chatId, model, started, promptTok, outputTok, done), map[], Str(MapStopReason(stopReason)), Some(counts))];
      } else if eventType == "message_stop" {
        done := true;
        outs := [Done];
      }
      assert (State(), outs) == TakeEvent(was, Event(eventType, payload));
      out := SentOuts(c, outs);
    }

    method Finish(c: Codec) returns (out: seq<string>)
      ensures out == SentOuts(c, if done then [] else [Done])
    {
      out := if done then [] else ["data: [DONE]"];
    }
  }

  lemma SentOutsConcat(c: Codec, a: seq<OaiOut>, b: seq<OaiOut>)
    ensures Written(SentOuts(c, a + b)) == Written(SentOuts(c, a)) + Written(SentOuts(c, b))
  {
    assert SentOuts(c, a + b) == SentOuts(c, a) + SentOuts(c, b);
    WrittenConcat(SentOuts(c, a), SentOuts(c, b));
  }

  /** The same for an event stream with an event name pending. */
  function OpenAIRest(c: Codec, st: ToOpenAI, lines: seq<string>, pending: string): string {
    Written(SentOuts(c, ToChunks(st, Events(c, lines, pending))))
  }

  lemma OpenAILine(c: Codec, st: ToOpenAI, line: string, rest: seq<string>, pending: string)
    ensures OpenAIRest(c, st, [line] + rest, pending)
            == if TrimEvent(line).Some? then OpenAIRest(c, st, rest, TrimEvent(line).value)
               else if TrimData(line).None? then OpenAIRest(c, st, rest, pending)
               else if AsMap(c.parse(TrimData(line).value)).None? then OpenAIRest(c, st, rest, "")
               else
                 var took := TakeEvent(st, Event(pending, AsMap(c.parse(TrimData(line).value)).value));
                 Written(SentOuts(c, took.1))
                 + if pending == "message_stop" then "" else OpenAIRest(c, took.0, rest, "")
  {
    assert ([line] + rest)[1..] == rest;
    if TrimEvent(line).None? && TrimData(line).Some? && AsMap(c.parse(TrimData(line).value)).Some? {
      OpenAIDataLine(c, st, line, rest, pending, AsMap(c.parse(TrimData(line).value)).value);
    }
  }

  lemma OpenAIDataLine(c: Codec, st: ToOpenAI, line: string, rest: seq<string>, pending: string, m: map<string, Json>)
    requires TrimEvent(line) == None && TrimData(line).Some? && AsMap(c.parse(TrimData(line).value)) == Some(m)
    ensures var took := TakeEvent(st, Event(pending, m));
            OpenAIRest(c, st, [line] + rest, pending)
            == Written(SentOuts(c, took.1)) + if pending == "message_stop" then "" else OpenAIRest(c, took.0, rest, "")
  {
    var e := Event(pending, m);
    var (st', out) := TakeEvent(st, e);
    DataLine(c, line, rest, pending, m);
    if pending == "message_stop" {
      assert [e][1..] == [];
      assert ToChunks(st, [e]) == out + [];
      assert out + [] == out;
    } else {
      assert ([e] + Events(c, rest, ""))[1..] == Events(c, rest, "");
      SentOutsConcat(c, out, ToChunks(st', Events(c, rest, "")));
    }
  }

  lemma OpenAIBalance(c: Codec, line: string, rest: seq<string>, st: ToOpenAI, pending: string, st': ToOpenAI, pending': string,
                      out: seq<string>)
    requires !st.done && EventLineTaken(c, line, st, pending, st', pending', out)
    ensures Written(out) + (if st'.done then "" else OpenAIRest(c, st', rest, pending')) == OpenAIRest(c, st, [line] + rest, pending)
  {
    OpenAILine(c, st, line, rest, pending);
    if TrimEvent(line).None? && TrimData(line).Some? && AsMap(c.parse(TrimData(line).value)).Some? {
      DoneAtStop(st, Event(pending, AsMap(c.parse(TrimData(line).value)).value));
    }
  }

  lemma DoneAtStop(st: ToOpenAI, e: Event)
    ensures TakeEvent(st, e).0.done <==> st.done || e.name == "message_stop"
  {
  }

  method RelayToOpenAI(c: Codec, translator: AnthropicToOpenAI, line: string, client: string, ghost rest: seq<string>)
    returns (client': string)
    requires !translator.done
    modifies translator
    ensures client' + (if translator.done then "" else OpenAIRest(c, translator.State(), rest, translator.pendingEvent))
            == client + old(OpenAIRest(c, translator.State(), [line] + rest, translator.pendingEvent))
  {
    ghost var st, pending := translator.State(), translator.pendingEvent;
    var outLines := translator.ProcessLine(c, line);
    client' := WriteAll(client, outLines);
    OpenAIBalance(c, line, rest, st, pending, translator.State(), translator.pendingEvent, outLines);
    Associates(client, Written(outLines),
               if translator.done then "" else OpenAIRest(c, translator.State(), rest, translator.pendingEvent));
  }

  method DriveToOpenAI(c: Codec, chatId: string, lines: seq<string>) returns (client: string)
    ensures client == Written(OpenAIStream(c, ToOpenAI(chatId, "", false, 0, 0, false), lines))
  {
    var translator := new AnthropicToOpenAI(chatId);
    client := "";
    ghost var whole := Written(OpenAIStream(c, translator.State(), lines));
    assert lines[0..] == lines;
    for i := 0 to |lines|
      invariant !translator.done && fresh(translator)
      invariant client + OpenAIRest(c, translator.State(), lines[i..], translator.pendingEvent) == whole
    {
      assert lines[i..] == [lines[i]] + lines[i + 1..];
      client := RelayToOpenAI(c, translator, lines[i], client, lines[i + 1..]);
      if translator.done { break; }
    }
    var finishLines := translator.Finish(c);
    client := WriteAll(client, finishLines);
  }
}
