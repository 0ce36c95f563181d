/** The two request converters: what they keep, what a round trip keeps, and when a second one changes nothing. */
module Requests {
  import opened Wrappers
  import opened Json
  import opened Conversation

  // ---------------------------------------------------------------- OpenAI to Anthropic, message by message

  function TextJson(text: string): Json {
    Obj(map["type" := Str("text"), "text" := Str(text)])
  }

  function UseJson(call: Call): Json {
    Obj(map["type" := Str("tool_use"), "id" := Str(call.id), "name" := Str(call.name), "input" := call.args])
  }

  function ResultJson(id: string, text: string): Json {
    Obj(map["type" := Str("tool_result"), "tool_use_id" := Str(id), "content" := Str(text)])
  }

  function UseJsons(calls: seq<Call>): (r: seq<Json>)
    ensures |r| == |calls|
  {
    seq(|calls|, i requires 0 <= i < |calls| => UseJson(calls[i]))
  }

  function TextJsons(texts: seq<string>): (r: seq<Json>)
    ensures |r| == |texts|
  {
    seq(|texts|, i requires 0 <= i < |texts| => TextJson(texts[i]))
  }

  /** convertOAIContentToAnthropic. */
  function ForwardContent(c: Codec, m: Fields): Json {
    var content := Get(m, "content");
    if "tool_calls" in m then Arr(TextJsons(AsTexts(StrOr(content))) + UseJsons(Calls(c, m["tool_calls"])))
    else if content.Null? then Arr([TextJson("")])
    else content
  }

  function ForwardMessage(c: Codec, m: Json): Json {
    if !m.Obj? then m
    else
      var role := RoleOf(m.fields);
      if IsTool(role) then
        Obj(map["role" := Str("user"),
                "content" := Arr([ResultJson(StrOr(Get(m.fields, "tool_call_id")), StrOr(Get(m.fields, "content")))])])
      else Obj(map["role" := Str(role), "content" := ForwardContent(c, m.fields)])
  }

  lemma {:induction false} TextJsonsRead(texts: seq<string>)
    ensures Texts(TextJsons(texts)) == texts && Uses(TextJsons(texts)) == [] && Results(TextJsons(texts)) == []
  {
    if texts != [] {
      assert TextJsons(texts)[1..] == TextJsons(texts[1..]);
      TextJsonsRead(texts[1..]);
    }
  }

  lemma {:induction false} UseJsonsRead(calls: seq<Call>)
    ensures Texts(UseJsons(calls)) == [] && Uses(UseJsons(calls)) == calls && Results(UseJsons(calls)) == []
  {
    if calls != [] {
      assert UseJsons(calls)[1..] == UseJsons(calls[1..]);
      UseJsonsRead(calls[1..]);
      assert UseBlock(UseJson(calls[0])) == Some(calls[0]);
    }
  }

  lemma BlocksRead(role: string, texts: seq<string>, calls: seq<Call>)
    ensures BlockTurns(role, TextJsons(texts) + UseJsons(calls)) == Spoken(role, texts, calls)
  {
    TextJsonsRead(texts);
    UseJsonsRead(calls);
    BlocksConcat(TextJsons(texts), UseJsons(calls));
    assert Texts(TextJsons(texts) + UseJsons(calls)) == texts;
    assert Uses(TextJsons(texts) + UseJsons(calls)) == calls;
    assert Results(TextJsons(texts) + UseJsons(calls)) == [];
  }

  /** Every message that is not a system message says the same on the other side. */
  lemma ForwardKeepsTurns(c: Codec, m: Json)
    requires !IsSystem(m)
    ensures AnthropicTurns(ForwardMessage(c, m)) == OaiTurns(c, m, false)
  {
    if m.Obj? {
      if IsTool(RoleOf(m.fields)) {
        ResultRead(StrOr(Get(m.fields, "tool_call_id")), StrOr(Get(m.fields, "content")));
      } else if "tool_calls" in m.fields {
        ForwardKeepsCalls(c, m);
      } else {
        ForwardKeepsSpeech(c, m);
      }
    }
  }

  lemma ForwardKeepsCalls(c: Codec, m: Json)
    requires m.Obj? && !IsSystem(m) && !IsTool(RoleOf(m.fields)) && "tool_calls" in m.fields
    ensures AnthropicTurns(ForwardMessage(c, m)) == OaiTurns(c, m, false)
  {
    BlocksRead(RoleOf(m.fields), AsTexts(StrOr(Get(m.fields, "content"))), Calls(c, m.fields["tool_calls"]));
  }

  lemma ForwardKeepsSpeech(c: Codec, m: Json)
    requires m.Obj? && !IsSystem(m) && !IsTool(RoleOf(m.fields)) && "tool_calls" !in m.fields
    ensures AnthropicTurns(ForwardMessage(c, m)) == OaiTurns(c, m, false)
  {
    if Get(m.fields, "content").Null? {
      BlocksRead(RoleOf(m.fields), [""], []);
      assert TextJsons([""]) + UseJsons([]) == [TextJson("")];
    }
  }

  lemma ResultRead(id: string, text: string)
    ensures BlockTurns("user", [ResultJson(id, text)]) == [Returned(id, text)]
  {
    var b := ResultJson(id, text);
    CollectOne(b, TextBlock);
    CollectOne(b, UseBlock);
    CollectOne(b, ResultBlock);
    assert ResultBlock(b) == Some(Returned(id, text)) && TextBlock(b) == None && UseBlock(b) == None;
  }

  // ---------------------------------------------------------------- Anthropic to OpenAI, message by message

  function CallJson(c: Codec, call: Call): Json {
    Obj(map["id" := Str(call.id), "type" := Str("function"),
            "function" := Obj(map["name" := Str(call.name), "arguments" := Str(Text(c, call.args))])])
  }

  function CallJsons(c: Codec, calls: seq<Call>): (r: seq<Json>)
    ensures |r| == |calls|
  {
    seq(|calls|, i requires 0 <= i < |calls| => CallJson(c, calls[i]))
  }

  function ToolMessage(b: Json): Option<Json> {
    if b.Obj? && IsType(b.fields, "tool_result") then
      Some(Obj(map["role" := Str("tool"), "tool_call_id" := Str(StrOr(Get(b.fields, "tool_use_id"))),
                   "content" := Str(StrOr(Get(b.fields, "content")))]))
    else None
  }

  function TextMessage(role: string, text: string): Json {
    Obj(map["role" := Str(role), "content" := Str(text)])
  }

  function CallMessage(c: Codec, role: string, texts: seq<string>, calls: seq<Call>): Json {
    if texts != [] then
      Obj(map["role" := Str(role), "content" := Str(Join(texts)), "tool_calls" := Arr(CallJsons(c, calls))])
    else
      Obj(map["role" := Str(role), "tool_calls" := Arr(CallJsons(c, calls))])
  }

  function BackSpoken(c: Codec, role: string, texts: seq<string>, calls: seq<Call>): seq<Json> {
    if calls != [] then [CallMessage(c, role, texts, calls)]
    else if texts != [] then [TextMessage(role, Join(texts))]
    else []
  }

  function BackMessage(c: Codec, m: Json): seq<Json> {
    if !m.Obj? then [m]
    else
      var role, content := RoleOf(m.fields), Get(m.fields, "content");
      match content
      case Str(s) => [TextMessage(role, s)]
      case Arr(items) => BackSpoken(c, role, Texts(items), Uses(items)) + Collect(items, ToolMessage)
      case _ => [Obj(map["role" := Str(role), "content" := content])]
  }

  lemma {:induction false} CallJsonsRead(c: Codec, calls: seq<Call>)
    requires Faithful(c)
    ensures Calls(c, Arr(CallJsons(c, calls))) == calls
    ensures SoundCalls(c, Arr(CallJsons(c, calls))) == calls && UnsoundCalls(c, Arr(CallJsons(c, calls))) == []
  {
    if calls != [] {
      assert CallJsons(c, calls)[1..] == CallJsons(c, calls[1..]);
      CallJsonsRead(c, calls[1..]);
      assert CallOf(c, CallJson(c, calls[0])) == Some(calls[0]);
      assert SoundCallOf(c, CallJson(c, calls[0])) == Some(calls[0]);
    }
  }

  /** Roles under which the way back leaves text and calls readable. */
  predicate Talking(role: string) {
    role != "system" && !IsTool(role)
  }

  lemma JoinAsTexts(text: string)
    ensures Join(AsTexts(text)) == text
  {
  }

  /** The calls of a message and its joined text arrive. */
  lemma SpokenReads(c: Codec, role: string, texts: seq<string>, calls: seq<Call>, full: bool)
    requires Faithful(c) && Talking(role)
    ensures Flat(BackSpoken(c, role, texts, calls), Reader(c, full)) == Spoken(role, texts, calls)
  {
    if calls != [] {
      FlatOne(CallMessage(c, role, texts, calls), Reader(c, full));
      CallJsonsRead(c, calls);
      CallMessageReads(c, role, texts, calls, full);
    } else if texts != [] {
      FlatOne(TextMessage(role, Join(texts)), Reader(c, full));
    }
  }

  lemma CallMessageReads(c: Codec, role: string, texts: seq<string>, calls: seq<Call>, full: bool)
    requires Talking(role) && calls != [] && Calls(c, Arr(CallJsons(c, calls))) == calls
    requires SoundCalls(c, Arr(CallJsons(c, calls))) == calls && UnsoundCalls(c, Arr(CallJsons(c, calls))) == []
    ensures OaiTurns(c, CallMessage(c, role, texts, calls), full) == [Called(role, Join(texts), calls)]
  {
    JoinAsTexts(Join(texts));
    JoinAsTexts("");
  }

  lemma {:induction false} ToolMessagesRead(c: Codec, items: seq<Json>, full: bool)
    ensures Flat(Collect(items, ToolMessage), Reader(c, full)) == Results(items)
  {
    if items != [] {
      ToolMessagesRead(c, items[1..], full);
      var t := ToolMessage(items[0]);
      if t.Some? {
        FlatConcat([t.value], Collect(items[1..], ToolMessage), Reader(c, full));
        FlatOne(t.value, Reader(c, full));
        assert OaiTurns(c, t.value, full) == [ResultBlock(items[0]).value];
      } else {
        assert [] + Collect(items[1..], ToolMessage) == Collect(items[1..], ToolMessage);
      }
    }
  }

  /** What the forward converter produces: no system or tool role, and no null content. */
  predicate Converted(m: Json) {
    m.Obj? ==> Talking(RoleOf(m.fields)) && !Get(m.fields, "content").Null?
  }

  lemma ForwardConverts(c: Codec, m: Json)
    requires !IsSystem(m)
    ensures Converted(ForwardMessage(c, m))
  {
  }

  /** On the way back every message says the same, as one message or several. */
  lemma BackKeepsTurns(c: Codec, m: Json, full: bool)
    requires Faithful(c) && Converted(m)
    ensures Flat(BackMessage(c, m), Reader(c, full)) == AnthropicTurns(m)
  {
    if !m.Obj? {
      FlatOne(m, Reader(c, full));
    } else {
      var role, content := RoleOf(m.fields), Get(m.fields, "content");
      if content.Str? {
        FlatOne(TextMessage(role, content.s), Reader(c, full));
      } else if content.Arr? {
        SpokenReads(c, role, Texts(content.items), Uses(content.items), full);
        ToolMessagesRead(c, content.items, full);
        FlatConcat(BackSpoken(c, role, Texts(content.items), Uses(content.items)), Collect(content.items, ToolMessage), Reader(c, full));
      } else {
        FlatOne(Obj(map["role" := Str(role), "content" := content]), Reader(c, full));
      }
    }
  }
}
