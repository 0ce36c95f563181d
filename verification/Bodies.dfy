/**
 What a request body says beside its messages, read from either protocol by readers of its own: the tools, the stop
 list, the limits and settings, and the system text. Both converters keep all of it.
 */
module Bodies {
  import opened Wrappers
  import opened Json
  import opened Conversation
  import opened Requests
  import opened RoundTrips
  import opened Converters

  // ---------------------------------------------------------------- tools

  datatype Tool = Tool(name: string, description: string, schema: Json)

  /** A tool of the OpenAI protocol has its parts in a function object; an entry without one is no tool. */
  function OaiTool(t: Json): Option<Tool> {
    if t.Obj? && Get(t.fields, "function").Obj? then
      var fn := Get(t.fields, "function").fields;
      Some(Tool(StrOr(Get(fn, "name")), StrOr(Get(fn, "description")), Get(fn, "parameters")))
    else None
  }

  /** A tool of the Anthropic protocol is an object with the parts in it. */
  function AntTool(t: Json): Option<Tool> {
    if t.Obj? then
      Some(Tool(StrOr(Get(t.fields, "name")), StrOr(Get(t.fields, "description")), Get(t.fields, "input_schema")))
    else None
  }

  function OaiTools(v: Json): seq<Tool> {
    Collect(ListOf(v), OaiTool)
  }

  function AntTools(v: Json): seq<Tool> {
    Collect(ListOf(v), AntTool)
  }

  lemma {:induction false} ForwardToolsRead(items: seq<Json>)
    ensures Collect(Collect(items, ForwardTool), AntTool) == Collect(items, OaiTool)
    ensures forall t | t in Collect(items, ForwardTool) :: AntTool(t).Some?
  {
    if items != [] {
      ForwardToolsRead(items[1..]);
      var u, rest := ForwardTool(items[0]), Collect(items[1..], ForwardTool);
      if u.Some? {
        CollectConcat([u.value], rest, AntTool);
        CollectOne(u.value, AntTool);
        assert AntTool(u.value) == OaiTool(items[0]);
      } else {
        assert [] + rest == rest;
        assert OaiTool(items[0]).None?;
      }
    }
  }

  lemma {:induction false} BackToolsRead(items: seq<Json>)
    ensures Collect(Collect(items, BackTool), OaiTool) == Collect(items, AntTool)
    ensures forall t | t in Collect(items, BackTool) :: OaiTool(t).Some? && Get(t.fields, "type") == Str("function")
  {
    if items != [] {
      BackToolsRead(items[1..]);
      var u, rest := BackTool(items[0]), Collect(items[1..], BackTool);
      if u.Some? {
        CollectConcat([u.value], rest, OaiTool);
        CollectOne(u.value, OaiTool);
        BackToolReads(items[0]);
      } else {
        assert [] + rest == rest;
        assert AntTool(items[0]).None?;
      }
    }
  }

  lemma BackToolReads(t: Json)
    requires t.Obj?
    ensures BackTool(t).Some? && BackTool(t).value.Obj? && OaiTool(BackTool(t).value) == AntTool(t)
    ensures Get(BackTool(t).value.fields, "type") == Str("function")
  {
  }

  /** The tool list of the converted body is that of the original; only entries that are no tools are missing. */
  lemma ToolsArrive(v: Json)
    ensures AntTools(ForwardTools(v)) == OaiTools(v) && |ListOf(ForwardTools(v))| == |OaiTools(v)|
    ensures OaiTools(BackTools(v)) == AntTools(v) && |ListOf(BackTools(v))| == |AntTools(v)|
    ensures ForwardTools(v).Arr? <==> v.Arr?
    ensures BackTools(v).Arr? <==> v.Arr?
  {
    ForwardToolsRead(ListOf(v));
    BackToolsRead(ListOf(v));
    AllCollected(ListOf(ForwardTools(v)), AntTool);
    AllCollected(ListOf(BackTools(v)), OaiTool);
  }

  lemma {:induction false} AllCollected<S, T>(s: seq<S>, f: S -> Option<T>)
    requires forall x | x in s :: f(x).Some?
    ensures |Collect(s, f)| == |s|
  {
    if s != [] {
      assert f(s[0]).Some?;
      AllCollected(s[1..], f);
    }
  }

  // ---------------------------------------------------------------- stop lists and settings

  /** A stop is a text or a list; anything else asks for none. */
  function Stops(v: Json): seq<Json> {
    match v
    case Str(_) => [v]
    case Arr(items) => items
    case _ => []
  }

  /** The settings of a body under the names of its protocol. */
  datatype Settings = Settings(model: Json, limit: Json, stream: Json, temperature: Json, topP: Json, stops: seq<Json>, user: Json)

  function OaiSettings(m: Fields): Settings {
    Settings(Get(m, "model"), Get(m, "max_tokens"), Get(m, "stream"), Get(m, "temperature"), Get(m, "top_p"),
             Stops(Get(m, "stop")), Get(m, "user"))
  }

  function AntSettings(m: Fields): Settings {
    Settings(Get(m, "model"), Get(m, "max_tokens"), Get(m, "stream"), Get(m, "temperature"), Get(m, "top_p"),
             ListOf(Get(m, "stop_sequences")),
             if Get(m, "metadata").Obj? then Get(Get(m, "metadata").fields, "user_id") else Null)
  }

  lemma LookIsGet(m: Fields, k: string)
    ensures Get(m, k) == Look(m, k).GetOr(Null)
  {
  }

  lemma BodyUser(c: Codec, oai: Fields)
    ensures "metadata" !in Converters.Settings(oai)
    ensures Look(ToAnthropicBody(c, oai), "metadata")
            == if "user" in oai then Some(Obj(map["user_id" := oai["user"]])) else None
  {
    NoMetadata(oai);
    SettingsLook(oai);
  }

  lemma NoMetadata(oai: Fields)
    ensures "metadata" !in Converters.Settings(oai)
  {
  }

  /** What the limit is in the Anthropic body, which must have one. */
  lemma LimitArrives(c: Codec, oai: Fields)
    ensures var ant := ToAnthropicBody(c, oai);
            && "max_tokens" in ant
            && ("max_tokens" in oai ==> ant["max_tokens"] == oai["max_tokens"])
            && ("max_tokens" !in oai && "max_completion_tokens" in oai ==> ant["max_tokens"] == oai["max_completion_tokens"])
            && ("max_tokens" !in oai && "max_completion_tokens" !in oai ==> ant["max_tokens"] == Num(Number(4096, 0)))
  {
    SettingsLook(oai);
    BodyKeepsSettings(c, oai);
    LookIsGet(ToAnthropicBody(c, oai), "max_tokens");
  }

  /** An OpenAI body keeps its settings on the way to the other protocol. */
  lemma SettingsArrive(c: Codec, oai: Fields)
    ensures var ant := ToAnthropicBody(c, oai);
            AntSettings(ant) == OaiSettings(oai).(limit := Get(ant, "max_tokens"))
    ensures forall k | k in {"model", "stream", "temperature", "top_p"} :: k in ToAnthropicBody(c, oai) <==> k in oai
  {
    var ant := ToAnthropicBody(c, oai);
    SettingsLook(oai);
    BodyKeepsSettings(c, oai);
    BodyUser(c, oai);
    StopsArrive(Look(oai, "stop"));
    LooksAreGets(ant, oai);
  }

  lemma StopsArrive(v: Option<Json>)
    ensures ListOf(Mapped(v, NormalizeStop).GetOr(Null)) == Stops(v.GetOr(Null))
  {
  }

  lemma LooksAreGets(a: Fields, b: Fields)
    ensures forall k: string :: Get(a, k) == Look(a, k).GetOr(Null) && Get(b, k) == Look(b, k).GetOr(Null)
    ensures forall k: string :: k in a <==> Look(a, k).Some?
    ensures forall k: string :: k in b <==> Look(b, k).Some?
  {
  }

  function Copies(ant: Fields): Fields {
    Copied(Copied(Copied(Copied(Copied(NO_FIELDS, ant, "model"), ant, "max_tokens"), ant, "stream"), ant, "temperature"), ant, "top_p")
  }

  lemma CopiesAre(ant: Fields)
    ensures var o := Copies(ant);
            && Get(o, "model") == Get(ant, "model") && Get(o, "max_tokens") == Get(ant, "max_tokens")
            && Get(o, "stream") == Get(ant, "stream") && Get(o, "temperature") == Get(ant, "temperature")
            && Get(o, "top_p") == Get(ant, "top_p") && "stop" !in o
  {
  }

  lemma OthersStay(c: Codec, ant: Fields, k: string)
    requires k != "stop" && k != "messages" && k != "tools"
    ensures Get(ToOpenAIBody(c, ant), k) == Get(Copies(ant), k)
  {
  }

  lemma StopComesBack(c: Codec, ant: Fields)
    ensures Get(ToOpenAIBody(c, ant), "stop") == Get(ant, "stop_sequences")
  {
    CopiesAre(ant);
  }

  /** An Anthropic body keeps them on the way back; only its metadata stays behind. */
  lemma SettingsComeBack(c: Codec, ant: Fields)
    ensures var oai := ToOpenAIBody(c, ant);
            && Get(oai, "model") == Get(ant, "model") && Get(oai, "max_tokens") == Get(ant, "max_tokens")
            && Get(oai, "stream") == Get(ant, "stream") && Get(oai, "temperature") == Get(ant, "temperature")
            && Get(oai, "top_p") == Get(ant, "top_p") && Get(oai, "stop") == Get(ant, "stop_sequences")
  {
    CopiesAre(ant);
    StopComesBack(c, ant);
    OthersStay(c, ant, "model");
    OthersStay(c, ant, "max_tokens");
    OthersStay(c, ant, "stream");
    OthersStay(c, ant, "temperature");
    OthersStay(c, ant, "top_p");
  }

  // ---------------------------------------------------------------- tools and system text of a whole body

  /** The tools of a whole body arrive, in either direction. */
  lemma BodyToolsArrive(c: Codec, body: Fields)
    ensures AntTools(Get(ToAnthropicBody(c, body), "tools")) == OaiTools(Get(body, "tools"))
    ensures OaiTools(Get(ToOpenAIBody(c, body), "tools")) == AntTools(Get(body, "tools"))
  {
    BodyTools(c, body);
    LookIsGet(ToAnthropicBody(c, body), "tools");
    LookIsGet(body, "tools");
    ToolsArrive(Get(body, "tools"));
    BackBodyTools(c, body);
  }

  lemma BackBodyTools(c: Codec, ant: Fields)
    ensures Get(ToOpenAIBody(c, ant), "tools") == if "tools" in ant then BackTools(ant["tools"]) else Null
  {
  }

  /** The texts of a system given as blocks. */
  function BlockTexts(items: seq<Json>): seq<string> {
    if items == [] then []
    else
      (if items[0].Obj? && Get(items[0].fields, "text").Str? then [Get(items[0].fields, "text").s] else [])
      + BlockTexts(items[1..])
  }

  /** Texts one after the other, one per line. */
  function Lined(texts: seq<string>): string {
    if texts == [] then "" else if |texts| == 1 then texts[0] else texts[0] + "\n" + Lined(texts[1..])
  }

  /** The system text of an Anthropic body: a text, or the texts of its blocks one per line. */
  function AntSystem(v: Json): string
    requires v.Str? || v.Arr?
  {
    match v
    case Str(s) => s
    case Arr(items) => Lined(BlockTexts(items))
  }

  lemma {:induction false} BlockTextsAre(items: seq<Json>)
    ensures Collect(items, SystemBlock) == BlockTexts(items)
  {
    if items != [] {
      BlockTextsAre(items[1..]);
    }
  }

  lemma {:induction false} LinedIsJoin(texts: seq<string>)
    ensures Lined(texts) == Join(texts)
  {
    if |texts| > 1 {
      LinedIsJoin(texts[1..]);
    }
  }

  /** A system given as text or as blocks comes first among the messages, as one message with that text. */
  lemma SystemComesBack(c: Codec, ant: Fields)
    requires "system" in ant && (ant["system"].Str? || ant["system"].Arr?)
    ensures var text, msgs := AntSystem(ant["system"]), ListOf(Get(ToOpenAIBody(c, ant), "messages"));
            if text == "" then msgs == Flat(ListOf(Get(ant, "messages")), Backward(c))
            else msgs == [Obj(map["role" := Str("system"), "content" := Str(text)])]
                         + Flat(ListOf(Get(ant, "messages")), Backward(c))
  {
    if ant["system"].Arr? {
      BlockTextsAre(ant["system"].items);
      LinedIsJoin(BlockTexts(ant["system"].items));
    }
    BackMessages(c, ant);
    assert [] + Flat(ListOf(Get(ant, "messages")), Backward(c)) == Flat(ListOf(Get(ant, "messages")), Backward(c));
  }

  lemma BackMessages(c: Codec, ant: Fields)
    ensures Get(ToOpenAIBody(c, ant), "messages") == Arr(BackBody(c, ant))
  {
  }

  /** The texts of the system messages of an OpenAI conversation. */
  function SystemTexts(msgs: seq<Json>): seq<string> {
    if msgs == [] then []
    else
      SystemTexts(msgs[..|msgs| - 1])
      + if IsSystem(msgs[|msgs| - 1]) then [StrOr(Get(msgs[|msgs| - 1].fields, "content"))] else []
  }

  lemma {:induction false} LinedMore(texts: seq<string>, t: string)
    requires texts != []
    ensures Lined(texts + [t]) == Lined(texts) + "\n" + t
  {
    assert (texts + [t])[1..] == texts[1..] + [t];
    if |texts| > 1 { LinedMore(texts[1..], t); }
  }

  lemma {:induction false} LinedNotEmpty(texts: seq<string>)
    requires forall t | t in texts :: t != ""
    ensures Lined(texts) == "" <==> texts == []
  {
    if |texts| > 1 {
      assert |texts[0] + "\n" + Lined(texts[1..])| > 0;
    } else if texts != [] {
      assert texts[0] in texts;
    }
  }

  /** Out of all system messages with a text the one system text is made, one per line, in order. */
  lemma {:induction false} SystemIsLined(msgs: seq<Json>)
    requires forall t | t in SystemTexts(msgs) :: t != ""
    ensures SystemText(msgs, false) == Lined(SystemTexts(msgs))
  {
    if msgs != [] {
      var rest := SystemTexts(msgs[..|msgs| - 1]);
      assert forall t | t in rest :: t in SystemTexts(msgs);
      SystemIsLined(msgs[..|msgs| - 1]);
      LinedNotEmpty(rest);
      if IsSystem(msgs[|msgs| - 1]) {
        var t := StrOr(Get(msgs[|msgs| - 1].fields, "content"));
        assert SystemTexts(msgs) == rest + [t];
        if rest == [] {
          assert [] + [t] == [t];
        } else {
          LinedMore(rest, t);
        }
      } else {
        assert SystemTexts(msgs) == rest;
      }
    }
  }
}
