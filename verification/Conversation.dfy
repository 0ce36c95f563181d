/**
 What a request says, read from either protocol: the system text, and in order the texts, the tool calls
 and the tool results. An OpenAI message has two readings: what the converter reads of it, and all of it.
 */
module Conversation {
  import opened Wrappers
  import opened Json

  type Fields = map<string, Json>

  datatype Call = Call(id: string, name: string, args: Json)

  datatype Turn =
    | Raw(m: Json)
    | Said(role: string, text: string)
    | Called(role: string, text: string, calls: seq<Call>)
    | Returned(id: string, text: string)
    | Odd(role: string, content: Json)
    | Unread(role: string, piece: Json)

  function Join(parts: seq<string>): string {
    if parts == [] then "" else if |parts| == 1 then parts[0] else parts[0] + "\n" + Join(parts[1..])
  }

  /** The results of a function on the elements of a sequence, those that there are, in order. */
  function Collect<S, T>(s: seq<S>, f: S -> Option<T>): seq<T> {
    if s == [] then [] else (match f(s[0]) case None => [] case Some(t) => [t]) + Collect(s[1..], f)
  }

  function Flat<S, T>(s: seq<S>, f: S -> seq<T>): seq<T> {
    if s == [] then [] else f(s[0]) + Flat(s[1..], f)
  }

  lemma {:induction false} CollectConcat<S, T>(s: seq<S>, t: seq<S>, f: S -> Option<T>)
    ensures Collect(s + t, f) == Collect(s, f) + Collect(t, f)
  {
    if s == [] {
      assert s + t == t;
    } else {
      assert (s + t)[1..] == s[1..] + t;
      CollectConcat(s[1..], t, f);
    }
  }

  lemma {:induction false} FlatConcat<S, T>(s: seq<S>, t: seq<S>, f: S -> seq<T>)
    ensures Flat(s + t, f) == Flat(s, f) + Flat(t, f)
  {
    if s == [] {
      assert s + t == t;
    } else {
      assert (s + t)[1..] == s[1..] + t;
      FlatConcat(s[1..], t, f);
    }
  }

  lemma {:induction false} CollectNone<S, T>(s: seq<S>, f: S -> Option<T>)
    ensures Collect(s, f) == [] <==> forall i | 0 <= i < |s| :: f(s[i]).None?
  {
    if s != [] {
      assert forall i | 0 <= i < |s[1..]| :: s[1..][i] == s[i + 1];
      CollectNone(s[1..], f);
    }
  }

  lemma {:induction false} FlatNone<S, T>(s: seq<S>, f: S -> seq<T>)
    ensures Flat(s, f) == [] <==> forall i | 0 <= i < |s| :: f(s[i]) == []
  {
    if s != [] {
      assert forall i | 0 <= i < |s[1..]| :: s[1..][i] == s[i + 1];
      FlatNone(s[1..], f);
    }
  }

  lemma CollectOne<S, T>(x: S, f: S -> Option<T>)
    ensures Collect([x], f) == match f(x) case None => [] case Some(t) => [t]
  {
    assert [x][1..] == [];
  }

  lemma FlatOne<S, T>(x: S, f: S -> seq<T>)
    ensures Flat([x], f) == f(x)
  {
    assert [x][1..] == [];
    assert f(x) + [] == f(x);
  }

  // ---------------------------------------------------------------- content blocks, common to both protocols

  predicate IsType(m: Fields, name: string) {
    Get(m, "type") == Str(name)
  }

  function TextBlock(b: Json): Option<string> {
    if b.Obj? && IsType(b.fields, "text") then Some(StrOr(Get(b.fields, "text"))) else None
  }

  function UseBlock(b: Json): Option<Call> {
    if b.Obj? && IsType(b.fields, "tool_use") then
      Some(Call(StrOr(Get(b.fields, "id")), StrOr(Get(b.fields, "name")), Get(b.fields, "input")))
    else None
  }

  function ResultBlock(b: Json): Option<Turn> {
    if b.Obj? && IsType(b.fields, "tool_result") then
      Some(Returned(StrOr(Get(b.fields, "tool_use_id")), StrOr(Get(b.fields, "content"))))
    else None
  }

  function Texts(blocks: seq<Json>): seq<string> {
    Collect(blocks, TextBlock)
  }

  function Uses(blocks: seq<Json>): seq<Call> {
    Collect(blocks, UseBlock)
  }

  function Results(blocks: seq<Json>): seq<Turn> {
    Collect(blocks, ResultBlock)
  }

  function Spoken(role: string, texts: seq<string>, calls: seq<Call>): seq<Turn> {
    if calls != [] then [Called(role, Join(texts), calls)] else if texts != [] then [Said(role, Join(texts))] else []
  }

  function BlockTurns(role: string, blocks: seq<Json>): seq<Turn> {
    Spoken(role, Texts(blocks), Uses(blocks)) + Results(blocks)
  }

  lemma BlocksConcat(a: seq<Json>, b: seq<Json>)
    ensures Texts(a + b) == Texts(a) + Texts(b)
    ensures Uses(a + b) == Uses(a) + Uses(b)
    ensures Results(a + b) == Results(a) + Results(b)
  {
    CollectConcat(a, b, TextBlock);
    CollectConcat(a, b, UseBlock);
    CollectConcat(a, b, ResultBlock);
  }

  // ---------------------------------------------------------------- OpenAI messages

  function RoleOf(m: Fields): string {
    StrOr(Get(m, "role"))
  }

  predicate IsTool(role: string) {
    role == "function" || role == "tool"
  }

  /** A string, or with `full` also the text blocks of an array, as the protocol allows. */
  function ReadContent(v: Json, full: bool): string {
    if v.Str? then v.s else if full && v.Arr? then Join(Texts(v.items)) else ""
  }

  function ParseArgs(c: Codec, s: string): Json {
    match c.parse(s)
    case None => Obj(NO_FIELDS)
    case Some(v) => v
  }

  function CallOf(c: Codec, tc: Json): Option<Call> {
    if tc.Obj? && Get(tc.fields, "function").Obj? then
      var fn := Get(tc.fields, "function").fields;
      Some(Call(StrOr(Get(tc.fields, "id")), StrOr(Get(fn, "name")), ParseArgs(c, StrOr(Get(fn, "arguments")))))
    else None
  }

  function Caller(c: Codec): Json -> Option<Call> {
    tc => CallOf(c, tc)
  }

  function Calls(c: Codec, v: Json): seq<Call> {
    if v.Arr? then Collect(v.items, Caller(c)) else []
  }

  function AsTexts(text: string): seq<string> {
    if text == "" then [] else [text]
  }

  /** What the converter reads of a message. */
  function Heard(c: Codec, m: Fields): seq<Turn> {
    var role, content := RoleOf(m), Get(m, "content");
    if role == "system" then []
    else if IsTool(role) then [Returned(StrOr(Get(m, "tool_call_id")), ReadContent(content, false))]
    else if "tool_calls" in m then Spoken(role, AsTexts(ReadContent(content, false)), Calls(c, m["tool_calls"]))
    else match content
         case Null => [Said(role, "")]
         case Str(s) => [Said(role, s)]
         case Arr(items) => BlockTurns(role, items)
         case _ => [Odd(role, content)]
  }

  // ---------------------------------------------------------------- all that an OpenAI message says

  /** A call as the protocol wants it: a function object whose arguments are a text that is JSON. */
  function SoundCallOf(c: Codec, tc: Json): Option<Call> {
    if tc.Obj? && Get(tc.fields, "function").Obj? && Get(Get(tc.fields, "function").fields, "arguments").Str? then
      var fn := Get(tc.fields, "function").fields;
      match c.parse(fn["arguments"].s)
      case None => None
      case Some(v) => Some(Call(StrOr(Get(tc.fields, "id")), StrOr(Get(fn, "name")), v))
    else None
  }

  function SoundCaller(c: Codec): Json -> Option<Call> {
    tc => SoundCallOf(c, tc)
  }

  function UnsoundCaller(c: Codec): Json -> Option<Json> {
    tc => if SoundCallOf(c, tc).None? then Some(tc) else None
  }

  function SoundCalls(c: Codec, v: Json): seq<Call> {
    if v.Arr? then Collect(v.items, SoundCaller(c)) else []
  }

  /** The calls that are none, as they are. */
  function UnsoundCalls(c: Codec, v: Json): seq<Json> {
    match v
    case Null => []
    case Arr(items) => Collect(items, UnsoundCaller(c))
    case _ => [v]
  }

  function NotText(b: Json): Option<Json> {
    if TextBlock(b).None? then Some(b) else None
  }

  /** What of a content is not text. */
  function BesideText(content: Json): seq<Json> {
    match content
    case Null => []
    case Str(_) => []
    case Arr(items) => Collect(items, NotText)
    case _ => [content]
  }

  /** What of a block is neither text, nor a tool use, nor the text of a tool result. */
  function Besides(b: Json): seq<Json> {
    if !b.Obj? then [b]
    else if IsType(b.fields, "text") || IsType(b.fields, "tool_use") then []
    else if IsType(b.fields, "tool_result") then BesideText(Get(b.fields, "content"))
    else [b]
  }

  function FullResultBlock(b: Json): Option<Turn> {
    if b.Obj? && IsType(b.fields, "tool_result") then
      Some(Returned(StrOr(Get(b.fields, "tool_use_id")), ReadContent(Get(b.fields, "content"), true)))
    else None
  }

  function FullBlockTurns(role: string, items: seq<Json>): seq<Turn> {
    if items == [] then [Said(role, "")] else Spoken(role, Texts(items), Uses(items)) + Collect(items, FullResultBlock)
  }

  /** The texts, calls and results of a message by the protocol; an empty message is a turn as well. */
  function FullyHeard(c: Codec, m: Fields): seq<Turn> {
    var role, content := RoleOf(m), Get(m, "content");
    if role == "system" then []
    else if IsTool(role) then [Returned(StrOr(Get(m, "tool_call_id")), ReadContent(content, true))]
    else if "tool_calls" in m then
      var text, calls := ReadContent(content, true), SoundCalls(c, m["tool_calls"]);
      [if calls != [] then Called(role, text, calls) else Said(role, text)]
    else match content
         case Null => [Said(role, "")]
         case Str(s) => [Said(role, s)]
         case Arr(items) => FullBlockTurns(role, items)
         case _ => [Odd(role, content)]
  }

  /** Whatever else a message carries in its content and its calls. */
  function Pieces(c: Codec, m: Fields): seq<Json> {
    var role, content := RoleOf(m), Get(m, "content");
    if role == "system" || IsTool(role) then BesideText(content)
    else if "tool_calls" in m then BesideText(content) + UnsoundCalls(c, m["tool_calls"])
    else if content.Arr? then Flat(content.items, Besides)
    else []
  }

  function Unreads(role: string, pieces: seq<Json>): (r: seq<Turn>)
    ensures |r| == |pieces|
  {
    seq(|pieces|, i requires 0 <= i < |pieces| => Unread(role, pieces[i]))
  }

  /** What the converter reads of a message, or with `full` all that the message says. */
  function OaiTurns(c: Codec, m: Json, full: bool): seq<Turn> {
    if !m.Obj? then [Raw(m)]
    else if full then FullyHeard(c, m.fields) + Unreads(RoleOf(m.fields), Pieces(c, m.fields))
    else Heard(c, m.fields)
  }

  predicate IsSystem(m: Json) {
    m.Obj? && RoleOf(m.fields) == "system"
  }

  /** All system texts, one per line; empty ones at the front leave no line. */
  function SystemText(msgs: seq<Json>, full: bool): string {
    if msgs == [] then ""
    else
      var before, m := SystemText(msgs[..|msgs| - 1], full), msgs[|msgs| - 1];
      if IsSystem(m) then (if before != "" then before + "\n" else before) + ReadContent(Get(m.fields, "content"), full)
      else before
  }

  /** What a conversation of OpenAI messages says. */
  datatype Talk = Talk(system: string, turns: seq<Turn>)

  function Reader(c: Codec, full: bool): Json -> seq<Turn> {
    m => OaiTurns(c, m, full)
  }

  function OaiTalk(c: Codec, msgs: seq<Json>, full: bool): Talk {
    Talk(SystemText(msgs, full), Flat(msgs, Reader(c, full)))
  }

  // ---------------------------------------------------------------- Anthropic messages

  function AnthropicTurns(m: Json): seq<Turn> {
    if !m.Obj? then [Raw(m)]
    else
      var role, content := RoleOf(m.fields), Get(m.fields, "content");
      match content
      case Str(s) => [Said(role, s)]
      case Arr(items) => BlockTurns(role, items)
      case _ => [Odd(role, content)]
  }
}
