/** Whole request bodies through both converters, and the converters' loops. */
module Converters {
  import opened Wrappers
  import opened Json
  import opened Conversation
  import opened Requests
  import opened RoundTrips

  const DEFAULT_MAX_TOKENS := 4096

  // ---------------------------------------------------------------- specification

  function Copied(to: Fields, from: Fields, k: string): Fields {
    if k in from then to[k := from[k]] else to
  }

  function NormalizeStop(v: Json): Json {
    match v
    case Str(s) => Arr([v])
    case Arr(_) => v
    case _ => Null
  }

  function ForwardTool(t: Json): Option<Json> {
    if t.Obj? && Get(t.fields, "function").Obj? then
      var fn := Get(t.fields, "function").fields;
      var tool := map["name" := Str(StrOr(Get(fn, "name"))), "input_schema" := Get(fn, "parameters")];
      var desc := StrOr(Get(fn, "description"));
      Some(Obj(if desc != "" then tool["description" := Str(desc)] else tool))
    else None
  }

  function BackTool(t: Json): Option<Json> {
    if t.Obj? then
      var fn := map["name" := Str(StrOr(Get(t.fields, "name")))];
      var desc := StrOr(Get(t.fields, "description"));
      var fn1 := if desc != "" then fn["description" := Str(desc)] else fn;
      var schema := Get(t.fields, "input_schema");
      var fn2 := if !schema.Null? then fn1["parameters" := schema] else fn1;
      Some(Obj(map["type" := Str("function"), "function" := Obj(fn2)]))
    else None
  }

  /** A list of tools; anything but an array becomes null. */
  function ForwardTools(v: Json): Json {
    if v.Arr? then Arr(Collect(v.items, ForwardTool)) else Null
  }

  function BackTools(v: Json): Json {
    if v.Arr? then Arr(Collect(v.items, BackTool)) else Null
  }

  function MaxOf(oai: Fields): Json {
    if "max_tokens" in oai then oai["max_tokens"]
    else if "max_completion_tokens" in oai then oai["max_completion_tokens"]
    else IntJson(DEFAULT_MAX_TOKENS)
  }

  /** What both requests have in common but for the name of the stop list. */
  function Settings(oai: Fields): Fields {
    var a := Copied(NO_FIELDS, oai, "model")["max_tokens" := MaxOf(oai)];
    var a := Copied(Copied(Copied(a, oai, "stream"), oai, "temperature"), oai, "top_p");
    if "stop" in oai then a["stop_sequences" := NormalizeStop(oai["stop"])] else a
  }

  function WithMessages(c: Codec, a: Fields, msgs: seq<Json>): Fields {
    var a1 := if SystemText(msgs, false) != "" then a["system" := Str(SystemText(msgs, false))] else a;
    a1["messages" := Arr(ForwardMessages(c, Remaining(msgs)))]
  }

  function ToAnthropicBody(c: Codec, oai: Fields): Fields {
    var a := Settings(oai);
    var a := if "messages" in oai then WithMessages(c, a, ListOf(oai["messages"])) else a;
    var a := if "tools" in oai then a["tools" := ForwardTools(oai["tools"])] else a;
    if "user" in oai then a["metadata" := Obj(map["user_id" := oai["user"]])] else a
  }

  function SystemBlock(b: Json): Option<string> {
    if b.Obj? && Get(b.fields, "text").Str? then Some(Get(b.fields, "text").s) else None
  }

  function FlattenSystem(c: Codec, v: Json): string {
    match v
    case Str(s) => s
    case Arr(items) => Join(Collect(items, SystemBlock))
    case _ => c.format(v)
  }

  function BackBody(c: Codec, ant: Fields): seq<Json> {
    SystemPart(if "system" in ant then FlattenSystem(c, ant["system"]) else "")
    + if "messages" in ant then Flat(ListOf(ant["messages"]), Backward(c)) else []
  }

  function ToOpenAIBody(c: Codec, ant: Fields): Fields {
    var o := Copied(Copied(Copied(Copied(Copied(NO_FIELDS, ant, "model"), ant, "max_tokens"), ant, "stream"), ant, "temperature"), ant, "top_p");
    var o := if "stop_sequences" in ant then o["stop" := ant["stop_sequences"]] else o;
    var o := o["messages" := Arr(BackBody(c, ant))];
    if "tools" in ant then o["tools" := BackTools(ant["tools"])] else o
  }

  // ---------------------------------------------------------------- a body there and back

  /** What of a body comes back. */
  datatype Parts = Parts(model: Option<Json>, max: Json, stream: Option<Json>, temperature: Option<Json>, topP: Option<Json>,
                         stop: Option<Json>, messages: seq<Json>, tools: Option<Json>)

  function Look(m: Fields, k: string): Option<Json> {
    if k in m then Some(m[k]) else None
  }

  function PutIf(m: Fields, k: string, v: Option<Json>): Fields {
    if v.Some? then m[k := v.value] else m
  }

  function Built(p: Parts): Fields {
    var b := PutIf(NO_FIELDS, "model", p.model)["max_tokens" := p.max];
    var b := PutIf(PutIf(PutIf(PutIf(b, "stream", p.stream), "temperature", p.temperature), "top_p", p.topP), "stop", p.stop);
    PutIf(b["messages" := Arr(p.messages)], "tools", p.tools)
  }

  function Mapped(v: Option<Json>, f: Json -> Json): Option<Json> {
    if v.Some? then Some(f(v.value)) else None
  }

  function ToolsThereAndBack(v: Json): Json {
    BackTools(ForwardTools(v))
  }

  function PartsAfter(c: Codec, oai: Fields): Parts {
    Parts(Look(oai, "model"),
          MaxOf(oai),
          Look(oai, "stream"), Look(oai, "temperature"), Look(oai, "top_p"),
          Mapped(Look(oai, "stop"), NormalizeStop),
          RoundTrip(c, ListOf(Get(oai, "messages"))),
          Mapped(Look(oai, "tools"), ToolsThereAndBack))
  }

  /** Two maps agree on the keys of the settings. */
  predicate SameSettings(a: Fields, b: Fields) {
    && Look(a, "model") == Look(b, "model") && Look(a, "max_tokens") == Look(b, "max_tokens")
    && Look(a, "stream") == Look(b, "stream") && Look(a, "temperature") == Look(b, "temperature")
    && Look(a, "top_p") == Look(b, "top_p") && Look(a, "stop_sequences") == Look(b, "stop_sequences")
  }

  lemma SettingsLookFirst(oai: Fields)
    ensures var s := Settings(oai);
            && Look(s, "model") == Look(oai, "model") && Look(s, "max_tokens") == Some(MaxOf(oai))
            && Look(s, "stream") == Look(oai, "stream")
            && "system" !in s && "messages" !in s && "tools" !in s
  {
  }

  lemma SettingsLook(oai: Fields)
    ensures var s := Settings(oai);
            && Look(s, "model") == Look(oai, "model") && Look(s, "max_tokens") == Some(MaxOf(oai))
            && Look(s, "stream") == Look(oai, "stream") && Look(s, "temperature") == Look(oai, "temperature")
            && Look(s, "top_p") == Look(oai, "top_p") && Look(s, "stop_sequences") == Mapped(Look(oai, "stop"), NormalizeStop)
            && "system" !in s && "messages" !in s && "tools" !in s
  {
    SettingsLookFirst(oai);
  }

  const SETTING_KEYS := {"model", "max_tokens", "stream", "temperature", "top_p", "stop_sequences"}

  lemma PutKeeps(a: Fields, k: string, v: Json)
    requires k !in SETTING_KEYS
    ensures SameSettings(a[k := v], a)
  {
  }

  lemma OtherKeys()
    ensures "system" !in SETTING_KEYS && "messages" !in SETTING_KEYS && "tools" !in SETTING_KEYS && "metadata" !in SETTING_KEYS
  {
  }

  lemma MessagesKeepSettings(c: Codec, a: Fields, msgs: seq<Json>)
    ensures SameSettings(WithMessages(c, a, msgs), a)
  {
    OtherKeys();
    var text := SystemText(msgs, false);
    PutKeeps(a, "system", Str(text));
    PutKeeps(if text != "" then a["system" := Str(text)] else a, "messages", Arr(ForwardMessages(c, Remaining(msgs))));
  }

  lemma BodyKeepsSettings(c: Codec, oai: Fields)
    ensures SameSettings(ToAnthropicBody(c, oai), Settings(oai))
  {
    OtherKeys();
    var a := Settings(oai);
    var b := if "messages" in oai then WithMessages(c, a, ListOf(oai["messages"])) else a;
    var d := if "tools" in oai then b["tools" := ForwardTools(oai["tools"])] else b;
    if "messages" in oai { MessagesKeepSettings(c, a, ListOf(oai["messages"])); }
    if "tools" in oai { PutKeeps(b, "tools", ForwardTools(oai["tools"])); }
    if "user" in oai { PutKeeps(d, "metadata", Obj(map["user_id" := oai["user"]])); }
  }

  lemma BodyTools(c: Codec, oai: Fields)
    ensures Look(ToAnthropicBody(c, oai), "tools") == Mapped(Look(oai, "tools"), ForwardTools)
  {
    SettingsLook(oai);
  }

  lemma BodyMessages(c: Codec, oai: Fields)
    ensures var ant, msgs := ToAnthropicBody(c, oai), ListOf(Get(oai, "messages"));
            && Look(ant, "messages") == (if "messages" in oai then Some(Arr(ForwardMessages(c, Remaining(msgs)))) else None)
            && Look(ant, "system") == (if SystemText(msgs, false) != "" then Some(Str(SystemText(msgs, false))) else None)
  {
    SettingsLook(oai);
  }

  lemma MessagesThereAndBack(c: Codec, oai: Fields)
    ensures BackBody(c, ToAnthropicBody(c, oai)) == RoundTrip(c, ListOf(Get(oai, "messages")))
  {
    BodyMessages(c, oai);
  }

  lemma BuiltFrom(c: Codec, ant: Fields)
    requires "max_tokens" in ant
    ensures ToOpenAIBody(c, ant)
            == Built(Parts(Look(ant, "model"), ant["max_tokens"], Look(ant, "stream"), Look(ant, "temperature"), Look(ant, "top_p"),
                           Look(ant, "stop_sequences"), BackBody(c, ant), Mapped(Look(ant, "tools"), BackTools)))
  {
  }

  /** What an OpenAI body is after the way there and back. */
  lemma BodyThereAndBack(c: Codec, oai: Fields)
    ensures ToOpenAIBody(c, ToAnthropicBody(c, oai)) == Built(PartsAfter(c, oai))
  {
    SettingsLook(oai);
    BodyKeepsSettings(c, oai);
    BodyTools(c, oai);
    MessagesThereAndBack(c, oai);
    BuiltFrom(c, ToAnthropicBody(c, oai));
  }

  // ---------------------------------------------------------------- a second trip of the whole body

  lemma BuiltLooks(p: Parts)
    ensures var b := Built(p);
            && Look(b, "model") == p.model && Look(b, "max_tokens") == Some(p.max) && Look(b, "stream") == p.stream
            && Look(b, "temperature") == p.temperature && Look(b, "top_p") == p.topP && Look(b, "stop") == p.stop
            && Look(b, "messages") == Some(Arr(p.messages)) && Look(b, "tools") == p.tools
  {
  }

  lemma PartsAgain(c: Codec, p: Parts)
    ensures PartsAfter(c, Built(p))
            == p.(stop := Mapped(p.stop, NormalizeStop), messages := RoundTrip(c, p.messages), tools := Mapped(p.tools, ToolsThereAndBack))
  {
    BuiltLooks(p);
  }

  lemma ToolAgain(t: Json, u: Json)
    requires ForwardTool(t) == Some(u)
    ensures BackTool(u).Some? && ForwardTool(BackTool(u).value) == Some(u)
  {
  }

  lemma {:induction false} ToolListAgain(items: seq<Json>)
    ensures var there := Collect(items, ForwardTool);
            Collect(Collect(there, BackTool), ForwardTool) == there
  {
    if items != [] {
      ToolListAgain(items[1..]);
      var rest := Collect(items[1..], ForwardTool);
      var u := ForwardTool(items[0]);
      if u.Some? {
        ToolAgain(items[0], u.value);
        CollectConcat([u.value], rest, BackTool);
        CollectOne(u.value, BackTool);
        CollectConcat([BackTool(u.value).value], Collect(rest, BackTool), ForwardTool);
        CollectOne(BackTool(u.value).value, ForwardTool);
      } else {
        assert [] + rest == rest;
      }
    }
  }

  lemma ToolsAgain(v: Json)
    ensures ToolsThereAndBack(ToolsThereAndBack(v)) == ToolsThereAndBack(v)
  {
    if v.Arr? { ToolListAgain(v.items); }
  }

  lemma BuiltMessages(p: Parts, msgs: seq<Json>)
    ensures Built(p.(messages := msgs)) == Built(p) <==> msgs == p.messages
  {
    BuiltLooks(p);
    BuiltLooks(p.(messages := msgs));
  }

  function ThereAndBack(c: Codec, oai: Fields): Fields {
    ToOpenAIBody(c, ToAnthropicBody(c, oai))
  }

  lemma StopAgain(v: Option<Json>)
    ensures Mapped(Mapped(v, NormalizeStop), NormalizeStop) == Mapped(v, NormalizeStop)
  {
  }

  lemma ToolsOptionAgain(v: Option<Json>)
    ensures Mapped(Mapped(v, ToolsThereAndBack), ToolsThereAndBack) == Mapped(v, ToolsThereAndBack)
  {
    if v.Some? { ToolsAgain(v.value); }
  }

  /** Only the messages can change on a second trip. */
  lemma PartsSettle(c: Codec, oai: Fields, p: Parts)
    requires p == PartsAfter(c, oai)
    ensures PartsAfter(c, Built(p)) == p.(messages := RoundTrip(c, p.messages))
  {
    PartsAgain(c, p);
    StopAgain(Look(oai, "stop"));
    ToolsOptionAgain(Look(oai, "tools"));
  }

  lemma SecondTripOfParts(c: Codec, oai: Fields, p: Parts)
    requires p == PartsAfter(c, oai)
    ensures ThereAndBack(c, oai) == Built(p)
    ensures ThereAndBack(c, Built(p)) == Built(p.(messages := RoundTrip(c, p.messages)))
  {
    BodyThereAndBack(c, oai);
    BodyThereAndBack(c, Built(p));
    PartsSettle(c, oai, p);
  }

  /** After one trip the whole body is settled, exactly when its messages are. */
  lemma SecondBodyTripIff(c: Codec, oai: Fields)
    requires Faithful(c)
    ensures ThereAndBack(c, ThereAndBack(c, oai)) == ThereAndBack(c, oai) <==> NoEmptyText(Remaining(ListOf(Get(oai, "messages"))))
  {
    var p := PartsAfter(c, oai);
    SecondTripOfParts(c, oai, p);
    BuiltMessages(p, RoundTrip(c, p.messages));
    SecondTripChangesNothingIff(c, ListOf(Get(oai, "messages")));
  }

  /** The conversation in the returned body is that of the original exactly when all of it could be read. */
  lemma BodyKeepsTalkIff(c: Codec, oai: Fields)
    requires Faithful(c)
    ensures var msgs, back := ListOf(Get(oai, "messages")), ListOf(Get(ThereAndBack(c, oai), "messages"));
            OaiTalk(c, back, true) == OaiTalk(c, msgs, true) <==> AllReadInFull(c, msgs)
  {
    BodyThereAndBack(c, oai);
    BuiltLooks(PartsAfter(c, oai));
    RoundTripKeepsAllIff(c, ListOf(Get(oai, "messages")));
  }

  // ---------------------------------------------------------------- the loops

  lemma {:induction false} RemainingConcat(a: seq<Json>, b: seq<Json>)
    ensures Remaining(a + b) == Remaining(a) + Remaining(b)
  {
    if a == [] {
      assert a + b == b;
    } else {
      assert (a + b)[1..] == a[1..] + b;
      RemainingConcat(a[1..], b);
    }
  }

  method ExtractSystemMessages(msgs: seq<Json>) returns (system: string, remaining: seq<Json>)
    ensures system == SystemText(msgs, false) && remaining == Remaining(msgs)
  {
    system, remaining := "", [];
    for i := 0 to |msgs|
      invariant system == SystemText(msgs[..i], false) && remaining == Remaining(msgs[..i])
    {
      assert msgs[..i + 1] == msgs[..i] + [msgs[i]];
      assert msgs[..i + 1][..i] == msgs[..i];
      RemainingConcat(msgs[..i], [msgs[i]]);
      assert [msgs[i]][1..] == [];
      var m := msgs[i];
      if m.Obj? && RoleOf(m.fields) == "system" {
        var content := StrOr(Get(m.fields, "content"));
        if system != "" {
          system := system + "\n";
        }
        system := system + content;
      } else {
        remaining := remaining + [m];
      }
    }
    assert msgs[..|msgs|] == msgs;
  }

  method ConvertOAIMessages(c: Codec, msgs: seq<Json>) returns (result: seq<Json>)
    ensures result == ForwardMessages(c, msgs)
  {
    result := [];
    for i := 0 to |msgs|
      invariant result == ForwardMessages(c, msgs)[..i]
    {
      var m := msgs[i];
      if !m.Obj? {
        result := result + [m];
      } else {
        var role := RoleOf(m.fields);
        if IsTool(role) {
          var block := ResultJson(StrOr(Get(m.fields, "tool_call_id")), StrOr(Get(m.fields, "content")));
          result := result + [Obj(map["role" := Str("user"), "content" := Arr([block])])];
        } else {
          var content := ConvertContent(c, m.fields);
          result := result + [Obj(map["role" := Str(role), "content" := content])];
        }
      }
      assert ForwardMessages(c, msgs)[..i + 1] == ForwardMessages(c, msgs)[..i] + [ForwardMessage(c, msgs[i])];
    }
    assert ForwardMessages(c, msgs)[..|msgs|] == ForwardMessages(c, msgs);
  }

  method ConvertContent(c: Codec, m: Fields) returns (content: Json)
    ensures content == ForwardContent(c, m)
  {
    if "tool_calls" in m {
      var blocks := ToolCallBlocks(c, StrOr(Get(m, "content")), m["tool_calls"]);
      return Arr(blocks);
    }
    if Get(m, "content").Null? {
      return Arr([TextJson("")]);
    }
    return Get(m, "content");
  }

  lemma NextCall(c: Codec, tcs: seq<Json>, i: nat)
    requires i < |tcs|
    ensures var before := Collect(tcs[..i], Caller(c));
            UseJsons(Collect(tcs[..i + 1], Caller(c)))
            == UseJsons(before) + if CallOf(c, tcs[i]).Some? then [UseJson(CallOf(c, tcs[i]).value)] else []
  {
    assert tcs[..i + 1] == tcs[..i] + [tcs[i]];
    CollectConcat(tcs[..i], [tcs[i]], Caller(c));
    CollectOne(tcs[i], Caller(c));
  }

  method ToolCallBlocks(c: Codec, text: string, toolCalls: Json) returns (blocks: seq<Json>)
    ensures blocks == TextJsons(AsTexts(text)) + UseJsons(Calls(c, toolCalls))
  {
    blocks := [];
    if text != "" {
      blocks := [TextJson(text)];
    }
    assert blocks == TextJsons(AsTexts(text));
    if !toolCalls.Arr? { return; }
    var uses := UseBlocks(c, toolCalls.items);
    blocks := blocks + uses;
  }

  method UseBlocks(c: Codec, tcs: seq<Json>) returns (blocks: seq<Json>)
    ensures blocks == UseJsons(Collect(tcs, Caller(c)))
  {
    blocks := [];
    for i := 0 to |tcs|
      invariant blocks == UseJsons(Collect(tcs[..i], Caller(c)))
    {
      NextCall(c, tcs, i);
      var tc := tcs[i];
      if !tc.Obj? { continue; }
      var fn := Get(tc.fields, "function");
      if !fn.Obj? { continue; }
      var input := c.parse(StrOr(Get(fn.fields, "arguments")));
      if input.None? {
        input := Some(Obj(NO_FIELDS));
      }
      blocks := blocks + [UseJson(Call(StrOr(Get(tc.fields, "id")), StrOr(Get(fn.fields, "name")), input.value))];
    }
    assert tcs[..|tcs|] == tcs;
  }

  method ConvertAnthropicMessages(c: Codec, msgs: seq<Json>) returns (result: seq<Json>)
    ensures result == Flat(msgs, Backward(c))
  {
    result := [];
    for i := 0 to |msgs|
      invariant result == Flat(msgs[..i], Backward(c))
    {
      assert msgs[..i + 1] == msgs[..i] + [msgs[i]];
      FlatConcat(msgs[..i], [msgs[i]], Backward(c));
      FlatOne(msgs[i], Backward(c));
      var m := msgs[i];
      if !m.Obj? {
        result := result + [m];
      } else {
        var role, content := RoleOf(m.fields), Get(m.fields, "content");
        if content.Str? {
          result := result + [TextMessage(role, content.s)];
        } else if content.Arr? {
          var converted := ConvertBlocks(c, role, content.items);
          result := result + converted;
        } else {
          result := result + [Obj(map["role" := Str(role), "content" := content])];
        }
      }
    }
    assert msgs[..|msgs|] == msgs;
  }

  method ConvertBlocks(c: Codec, role: string, blocks: seq<Json>) returns (result: seq<Json>)
    ensures result == BackSpoken(c, role, Texts(blocks), Uses(blocks)) + Collect(blocks, ToolMessage)
  {
    var textParts: seq<string>, calls: seq<Call>, toolResults: seq<Json> := [], [], [];
    for i := 0 to |blocks|
      invariant textParts == Texts(blocks[..i]) && calls == Uses(blocks[..i]) && toolResults == Collect(blocks[..i], ToolMessage)
    {
      assert blocks[..i + 1] == blocks[..i] + [blocks[i]];
      BlocksConcat(blocks[..i], [blocks[i]]);
      CollectConcat(blocks[..i], [blocks[i]], ToolMessage);
      var t, u, r := TextBlock(blocks[i]), UseBlock(blocks[i]), ToolMessage(blocks[i]);
      CollectOne(blocks[i], TextBlock);
      CollectOne(blocks[i], UseBlock);
      CollectOne(blocks[i], ToolMessage);
      if t.Some? { textParts := textParts + [t.value]; }
      if u.Some? { calls := calls + [u.value]; }
      if r.Some? { toolResults := toolResults + [r.value]; }
    }
    assert blocks[..|blocks|] == blocks;
    result := BackSpoken(c, role, textParts, calls) + toolResults;
  }

  /** The whole converter on text: an error exactly when the body is no JSON object. */
  method OpenAIChatToAnthropicMessages(c: Codec, body: string) returns (r: Option<string>)
    ensures r == None <==> !(c.parse(body).Some? && (c.parse(body).value.Obj? || c.parse(body).value.Null?))
    ensures match AsMap(c.parse(body))
            case None => r == None
            case Some(oai) => r == Some(Text(c, Obj(ToAnthropicBody(c, oai))))
  {
    var parsed := AsMap(c.parse(body));
    if parsed.None? { return None; }
    var oai := parsed.value;
    var ant := Settings(oai);
    if "messages" in oai {
      var system, remaining := ExtractSystemMessages(ListOf(oai["messages"]));
      if system != "" {
        ant := ant["system" := Str(system)];
      }
      var converted := ConvertOAIMessages(c, remaining);
      ant := ant["messages" := Arr(converted)];
    }
    if "tools" in oai {
      ant := ant["tools" := ForwardTools(oai["tools"])];
    }
    if "user" in oai {
      ant := ant["metadata" := Obj(map["user_id" := oai["user"]])];
    }
    r := Some(Text(c, Obj(ant)));
  }

  method AnthropicMessagesToOpenAIChat(c: Codec, body: string) returns (r: Option<string>)
    ensures r == None <==> !(c.parse(body).Some? && (c.parse(body).value.Obj? || c.parse(body).value.Null?))
    ensures match AsMap(c.parse(body))
            case None => r == None
            case Some(ant) => r == Some(Text(c, Obj(ToOpenAIBody(c, ant))))
  {
    var parsed := AsMap(c.parse(body));
    if parsed.None? { return None; }
    var ant := parsed.value;
    var oai := Copied(Copied(Copied(Copied(Copied(NO_FIELDS, ant, "model"), ant, "max_tokens"), ant, "stream"), ant, "temperature"), ant, "top_p");
    if "stop_sequences" in ant {
      oai := oai["stop" := ant["stop_sequences"]];
    }
    var messages: seq<Json> := [];
    if "system" in ant {
      messages := SystemPart(FlattenSystem(c, ant["system"]));
    }
    if "messages" in ant {
      var converted := ConvertAnthropicMessages(c, ListOf(ant["messages"]));
      messages := messages + converted;
    }
    assert messages == BackBody(c, ant);
    oai := oai["messages" := Arr(messages)];
    if "tools" in ant {
      oai := oai["tools" := BackTools(ant["tools"])];
    }
    r := Some(Text(c, Obj(oai)));
  }

  /** The round trip on text. */
  method ThereAndBackOnText(c: Codec, body: string) returns (r: Option<string>)
    requires Faithful(c)
    ensures match AsMap(c.parse(body))
            case None => r == None
            case Some(oai) => r == Some(Text(c, Obj(ThereAndBack(c, oai))))
  {
    var there := OpenAIChatToAnthropicMessages(c, body);
    if there.None? { return None; }
    r := AnthropicMessagesToOpenAIChat(c, there.value);
  }
}
