/** OpenAI to Anthropic and back, whole conversations: what arrives, and when a second trip changes nothing. */
module RoundTrips {
  import opened Wrappers
  import opened Json
  import opened Conversation
  import opened Requests

  function ListOf(v: Json): seq<Json> {
    if v.Arr? then v.items else []
  }

  function Remaining(msgs: seq<Json>): seq<Json> {
    if msgs == [] then [] else (if IsSystem(msgs[0]) then [] else [msgs[0]]) + Remaining(msgs[1..])
  }

  function ForwardMessages(c: Codec, msgs: seq<Json>): (r: seq<Json>)
    ensures |r| == |msgs|
  {
    seq(|msgs|, i requires 0 <= i < |msgs| => ForwardMessage(c, msgs[i]))
  }

  function Backward(c: Codec): Json -> seq<Json> {
    m => BackMessage(c, m)
  }

  function SystemPart(text: string): seq<Json> {
    if text == "" then [] else [TextMessage("system", text)]
  }

  /** The messages after the way there and back. */
  function RoundTrip(c: Codec, msgs: seq<Json>): seq<Json> {
    SystemPart(SystemText(msgs, false)) + Flat(ForwardMessages(c, Remaining(msgs)), Backward(c))
  }

  predicate NoSystem(msgs: seq<Json>) {
    forall i | 0 <= i < |msgs| :: !IsSystem(msgs[i])
  }

  lemma {:induction false} RemainingHasNone(msgs: seq<Json>)
    ensures NoSystem(Remaining(msgs))
    ensures NoSystem(msgs) ==> Remaining(msgs) == msgs
  {
    if msgs != [] {
      RemainingHasNone(msgs[1..]);
      if NoSystem(msgs) {
        assert forall i | 0 <= i < |msgs[1..]| :: msgs[1..][i] == msgs[i + 1];
      }
    }
  }

  // ---------------------------------------------------------------- what arrives

  lemma {:induction false} RemainingSays(c: Codec, msgs: seq<Json>)
    ensures Flat(Remaining(msgs), Reader(c, false)) == Flat(msgs, Reader(c, false))
  {
    if msgs != [] {
      RemainingSays(c, msgs[1..]);
      if !IsSystem(msgs[0]) {
        FlatConcat([msgs[0]], Remaining(msgs[1..]), Reader(c, false));
        FlatOne(msgs[0], Reader(c, false));
      } else {
        assert [] + Remaining(msgs[1..]) == Remaining(msgs[1..]);
      }
    }
  }

  lemma {:induction false} TripKeepsTurns(c: Codec, msgs: seq<Json>, full: bool)
    requires Faithful(c) && NoSystem(msgs)
    ensures Flat(Flat(ForwardMessages(c, msgs), Backward(c)), Reader(c, full)) == Flat(msgs, Reader(c, false))
    ensures NoSystem(Flat(ForwardMessages(c, msgs), Backward(c)))
  {
    if msgs != [] {
      var m, rest := msgs[0], msgs[1..];
      var there := ForwardMessage(c, m);
      assert ForwardMessages(c, msgs)[1..] == ForwardMessages(c, rest);
      TripKeepsTurns(c, rest, full);
      FlatConcat(BackMessage(c, there), Flat(ForwardMessages(c, rest), Backward(c)), Reader(c, full));
      ForwardConverts(c, m);
      BackKeepsTurns(c, there, full);
      ForwardKeepsTurns(c, m);
      BackHasNoSystem(c, there);
    }
  }

  lemma BackHasNoSystem(c: Codec, m: Json)
    requires Converted(m)
    ensures NoSystem(BackMessage(c, m))
  {
    if m.Obj? && Get(m.fields, "content").Arr? {
      ToolMessagesAreTools(Get(m.fields, "content").items);
    }
  }

  lemma {:induction false} ToolMessagesAreTools(items: seq<Json>)
    ensures NoSystem(Collect(items, ToolMessage))
  {
    if items != [] {
      ToolMessagesAreTools(items[1..]);
    }
  }

  lemma {:induction false} SystemTextOfPart(part: seq<Json>, rest: seq<Json>, full: bool)
    requires NoSystem(rest)
    ensures SystemText(part + rest, full) == SystemText(part, full)
    decreases |rest|
  {
    if rest == [] {
      assert part + rest == part;
    } else {
      SystemTextOfPart(part, rest[..|rest| - 1], full);
      assert (part + rest)[..|part + rest| - 1] == part + rest[..|rest| - 1];
    }
  }

  lemma SystemPartReads(text: string, full: bool)
    ensures SystemText(SystemPart(text), full) == text
  {
    if text != "" {
      assert SystemPart(text)[..0] == [];
    }
  }

  /** The round trip keeps what the converter reads of a conversation. */
  lemma RoundTripKeeps(c: Codec, msgs: seq<Json>, full: bool)
    requires Faithful(c)
    ensures OaiTalk(c, RoundTrip(c, msgs), full) == OaiTalk(c, msgs, false)
  {
    var text, rest := SystemText(msgs, false), Remaining(msgs);
    var back := Flat(ForwardMessages(c, rest), Backward(c));
    RemainingHasNone(msgs);
    RemainingSays(c, msgs);
    TripKeepsTurns(c, rest, full);
    SystemTextOfPart(SystemPart(text), back, full);
    SystemPartReads(text, full);
    FlatConcat(SystemPart(text), back, Reader(c, full));
    SystemPartSilent(c, text, full);
  }

  lemma SystemPartSilent(c: Codec, text: string, full: bool)
    ensures Flat(SystemPart(text), Reader(c, full)) == []
  {
    if text != "" {
      FlatOne(TextMessage("system", text), Reader(c, full));
    }
  }

  // ---------------------------------------------------------------- what the converter does not read

  /** A content that is a string or null, or an array that holds no more than an empty text. */
  predicate PlainContent(content: Json) {
    match content
    case Null => true
    case Str(_) => true
    case Arr(items) => (forall i | 0 <= i < |items| :: TextBlock(items[i]).Some?) && (Texts(items) == [] || Texts(items) == [""])
    case _ => false
  }

  predicate AllSound(c: Codec, calls: Json) {
    calls.Null? || (calls.Arr? && forall i | 0 <= i < |calls.items| :: SoundCallOf(c, calls.items[i]).Some?)
  }

  /** A text, a tool use, or a tool result with plain content. */
  predicate WholeBlock(b: Json) {
    && b.Obj?
    && (IsType(b.fields, "text") || IsType(b.fields, "tool_use")
        || (IsType(b.fields, "tool_result") && PlainContent(Get(b.fields, "content"))))
  }

  /**
   A message of which the converter reads everything. System and tool messages and those with tool calls have
   plain content; every tool call has a function object whose arguments parse, and beside no calls there is a
   text; an array content elsewhere has blocks, all of them whole.
   */
  predicate ReadInFull(c: Codec, m: Json) {
    m.Obj? ==>
      var role, content := RoleOf(m.fields), Get(m.fields, "content");
      if role == "system" || IsTool(role) then PlainContent(content)
      else if "tool_calls" in m.fields then
        PlainContent(content) && AllSound(c, m.fields["tool_calls"]) && (StrOr(content) != "" || ListOf(m.fields["tool_calls"]) != [])
      else content.Arr? ==> content.items != [] && forall i | 0 <= i < |content.items| :: WholeBlock(content.items[i])
  }

  predicate AllReadInFull(c: Codec, msgs: seq<Json>) {
    forall i | 0 <= i < |msgs| :: ReadInFull(c, msgs[i])
  }

  lemma PlainContentIff(content: Json)
    ensures PlainContent(content) <==> ReadContent(content, true) == ReadContent(content, false) && BesideText(content) == []
  {
    if content.Arr? {
      CollectNone(content.items, NotText);
      JoinEmpty(Texts(content.items));
    }
  }

  lemma {:induction false} SoundAreCalls(c: Codec, items: seq<Json>)
    ensures Collect(items, UnsoundCaller(c)) == [] ==> Collect(items, SoundCaller(c)) == Collect(items, Caller(c))
    ensures Collect(items, UnsoundCaller(c)) == [] ==> |Collect(items, SoundCaller(c))| == |items|
  {
    if items != [] {
      SoundAreCalls(c, items[1..]);
      var s := SoundCallOf(c, items[0]);
      assert s.Some? ==> CallOf(c, items[0]) == s;
    }
  }

  lemma SoundIff(c: Codec, v: Json)
    ensures AllSound(c, v) <==> UnsoundCalls(c, v) == []
    ensures AllSound(c, v) ==> SoundCalls(c, v) == Calls(c, v) && |Calls(c, v)| == |ListOf(v)|
  {
    if v.Arr? {
      CollectNone(v.items, UnsoundCaller(c));
      SoundAreCalls(c, v.items);
    }
  }

  lemma ConsAgrees<T>(x: T, a: seq<T>, y: T, b: seq<T>)
    ensures [x] + a == [y] + b <==> x == y && a == b
  {
    if [x] + a == [y] + b {
      assert x == ([x] + a)[0] && y == ([y] + b)[0];
      assert a == ([x] + a)[1..] && b == ([y] + b)[1..];
    }
  }

  lemma OneCollected<S, T>(s: seq<S>, f: S -> Option<T>)
    requires s != []
    ensures Collect(s, f) == if f(s[0]).Some? then [f(s[0]).value] + Collect(s[1..], f) else Collect(s[1..], f)
  {
    assert [] + Collect(s[1..], f) == Collect(s[1..], f);
  }

  lemma {:induction false} CollectsAgree<S, T>(s: seq<S>, f: S -> Option<T>, g: S -> Option<T>)
    requires forall i | 0 <= i < |s| :: f(s[i]).Some? == g(s[i]).Some?
    ensures |Collect(s, f)| == |Collect(s, g)|
    ensures Collect(s, f) == Collect(s, g) <==> forall i | 0 <= i < |s| :: f(s[i]) == g(s[i])
  {
    if s != [] {
      assert forall i | 0 <= i < |s[1..]| :: s[1..][i] == s[i + 1];
      CollectsAgree(s[1..], f, g);
      OneCollected(s, f);
      OneCollected(s, g);
      if f(s[0]).Some? {
        ConsAgrees(f(s[0]).value, Collect(s[1..], f), g(s[0]).value, Collect(s[1..], g));
      }
    }
  }

  lemma ResultsAgree(items: seq<Json>)
    ensures |Results(items)| == |Collect(items, FullResultBlock)|
    ensures Results(items) == Collect(items, FullResultBlock)
            <==> forall i | 0 <= i < |items| :: ResultBlock(items[i]) == FullResultBlock(items[i])
  {
    CollectsAgree(items, ResultBlock, FullResultBlock);
  }

  lemma BlockIsWhole(b: Json)
    ensures WholeBlock(b) <==> Besides(b) == [] && ResultBlock(b) == FullResultBlock(b)
  {
    if b.Obj? { PlainContentIff(Get(b.fields, "content")); }
  }

  /** Nothing left unread and the same turns make the same reading. */
  lemma ReadingsAgree(c: Codec, m: Json)
    requires m.Obj?
    ensures Pieces(c, m.fields) == [] && Heard(c, m.fields) == FullyHeard(c, m.fields) ==> OaiTurns(c, m, false) == OaiTurns(c, m, true)
  {
  }

  lemma NoMoreTurns(c: Codec, m: Json)
    ensures |OaiTurns(c, m, false)| <= |OaiTurns(c, m, true)|
    ensures !IsSystem(m) ==> (OaiTurns(c, m, false) == OaiTurns(c, m, true) <==> ReadInFull(c, m))
    ensures IsSystem(m) ==> (OaiTurns(c, m, false) == OaiTurns(c, m, true) <==> BesideText(Get(m.fields, "content")) == [])
  {
    if m.Obj? {
      var role, content := RoleOf(m.fields), Get(m.fields, "content");
      if role == "system" {
        ReadingsAgree(c, m);
      } else if IsTool(role) {
        ToolTurns(c, m);
      } else if "tool_calls" in m.fields {
        CallTurns(c, m);
      } else if content.Arr? {
        ArrayTurns(c, m);
      } else {
        ReadingsAgree(c, m);
      }
    }
  }

  lemma ToolTurns(c: Codec, m: Json)
    requires m.Obj? && IsTool(RoleOf(m.fields))
    ensures |OaiTurns(c, m, false)| <= |OaiTurns(c, m, true)|
    ensures OaiTurns(c, m, false) == OaiTurns(c, m, true) <==> ReadInFull(c, m)
  {
    var content := Get(m.fields, "content");
    ReadingsAgree(c, m);
    PlainContentIff(content);
    var h, f, u := Heard(c, m.fields), FullyHeard(c, m.fields), Unreads(RoleOf(m.fields), Pieces(c, m.fields));
    assert |h| == 1 && |f| == 1;
    if h == f + u {
      assert u == [] && h[0] == f[0];
    }
  }

  lemma CallTurns(c: Codec, m: Json)
    requires m.Obj? && Talking(RoleOf(m.fields)) && "tool_calls" in m.fields
    ensures |OaiTurns(c, m, false)| <= |OaiTurns(c, m, true)|
    ensures OaiTurns(c, m, false) == OaiTurns(c, m, true) <==> ReadInFull(c, m)
  {
    var role, content, v := RoleOf(m.fields), Get(m.fields, "content"), m.fields["tool_calls"];
    SoundIff(c, v);
    PlainContentIff(content);
    JoinAsTexts(ReadContent(content, false));
    var h, f, u := Heard(c, m.fields), FullyHeard(c, m.fields), Unreads(role, Pieces(c, m.fields));
    assert |h| <= 1 && |f| == 1;
    if h == f + u {
      assert Pieces(c, m.fields) == [];
      assert h == f;
    }
  }

  lemma ArrayTurns(c: Codec, m: Json)
    requires m.Obj? && Talking(RoleOf(m.fields)) && "tool_calls" !in m.fields && Get(m.fields, "content").Arr?
    ensures |OaiTurns(c, m, false)| <= |OaiTurns(c, m, true)|
    ensures OaiTurns(c, m, false) == OaiTurns(c, m, true) <==> ReadInFull(c, m)
  {
    var role, items := RoleOf(m.fields), Get(m.fields, "content").items;
    forall i | 0 <= i < |items|
      ensures WholeBlock(items[i]) <==> Besides(items[i]) == [] && ResultBlock(items[i]) == FullResultBlock(items[i])
    {
      BlockIsWhole(items[i]);
    }
    FlatNone(items, Besides);
    ResultsAgree(items);
    var spoken := Spoken(role, Texts(items), Uses(items));
    PrefixCancels(spoken, Results(items), Collect(items, FullResultBlock));
    var u := Unreads(role, Pieces(c, m.fields));
    if items != [] && u == [] {
      assert FullBlockTurns(role, items) + u == FullBlockTurns(role, items);
    }
  }

  lemma {:induction false} FlatShorter<S, T>(s: seq<S>, f: S -> seq<T>, g: S -> seq<T>)
    requires forall i | 0 <= i < |s| :: |f(s[i])| <= |g(s[i])|
    ensures |Flat(s, f)| <= |Flat(s, g)|
  {
    if s != [] {
      assert forall i | 0 <= i < |s[1..]| :: s[1..][i] == s[i + 1];
      FlatShorter(s[1..], f, g);
    }
  }

  /** When every part is no longer, the concatenations agree exactly when all parts do. */
  lemma {:induction false} FlatAgrees<S, T>(s: seq<S>, f: S -> seq<T>, g: S -> seq<T>)
    requires forall i | 0 <= i < |s| :: |f(s[i])| <= |g(s[i])|
    ensures Flat(s, f) == Flat(s, g) <==> forall i | 0 <= i < |s| :: f(s[i]) == g(s[i])
  {
    if s != [] {
      assert forall i | 0 <= i < |s[1..]| :: s[1..][i] == s[i + 1];
      FlatShorter(s[1..], f, g);
      FlatAgrees(s[1..], f, g);
      if Flat(s, f) == Flat(s, g) {
        assert f(s[0]) == Flat(s, f)[..|f(s[0])|];
        assert g(s[0]) == Flat(s, g)[..|g(s[0])|];
        assert Flat(s[1..], f) == Flat(s, f)[|f(s[0])|..];
        assert Flat(s[1..], g) == Flat(s, g)[|g(s[0])|..];
      }
    }
  }

  lemma AppendedAgree(b: string, t: string, b': string, t': string)
    requires |b| <= |b'| && (t == t' || t == "")
    ensures var x := (if b != "" then b + "\n" else b) + t;
            var x' := (if b' != "" then b' + "\n" else b') + t';
            |x| <= |x'| && (x == x' <==> b == b' && t == t')
  {
    var x := (if b != "" then b + "\n" else b) + t;
    var x' := (if b' != "" then b' + "\n" else b') + t';
    if x == x' {
      assert |b| == |b'|;
      assert b == x[..|b|] && b' == x'[..|b'|];
    }
  }

  predicate SystemRead(m: Json)
    requires m.Obj?
  {
    ReadContent(Get(m.fields, "content"), true) == ReadContent(Get(m.fields, "content"), false)
  }

  lemma {:induction false} SystemAgrees(msgs: seq<Json>)
    ensures |SystemText(msgs, false)| <= |SystemText(msgs, true)|
    ensures SystemText(msgs, false) == SystemText(msgs, true)
            <==> forall i | 0 <= i < |msgs| :: IsSystem(msgs[i]) ==> SystemRead(msgs[i])
  {
    if msgs != [] {
      var rest, m := msgs[..|msgs| - 1], msgs[|msgs| - 1];
      SystemAgrees(rest);
      if IsSystem(m) {
        var content := Get(m.fields, "content");
        AppendedAgree(SystemText(rest, false), ReadContent(content, false), SystemText(rest, true), ReadContent(content, true));
      }
    }
  }

  /** The round trip keeps all that a conversation says exactly when the converter reads every message in full. */
  lemma RoundTripKeepsAllIff(c: Codec, msgs: seq<Json>)
    requires Faithful(c)
    ensures OaiTalk(c, RoundTrip(c, msgs), true) == OaiTalk(c, msgs, true) <==> AllReadInFull(c, msgs)
  {
    RoundTripKeeps(c, msgs, true);
    forall i | 0 <= i < |msgs|
      ensures |Reader(c, false)(msgs[i])| <= |Reader(c, true)(msgs[i])|
      ensures ReadInFull(c, msgs[i])
              <==> Reader(c, false)(msgs[i]) == Reader(c, true)(msgs[i]) && (IsSystem(msgs[i]) ==> SystemRead(msgs[i]))
    {
      NoMoreTurns(c, msgs[i]);
      if IsSystem(msgs[i]) { PlainContentIff(Get(msgs[i].fields, "content")); }
    }
    FlatAgrees(msgs, Reader(c, false), Reader(c, true));
    SystemAgrees(msgs);
  }

  // ---------------------------------------------------------------- a second trip

  /** An array content whose only text block is empty, beside tool uses. */
  predicate LeavesEmptyText(m: Json) {
    && m.Obj? && Talking(RoleOf(m.fields)) && "tool_calls" !in m.fields && Get(m.fields, "content").Arr?
    && Texts(Get(m.fields, "content").items) == [""] && Uses(Get(m.fields, "content").items) != []
  }

  function Again(c: Codec, m: Json): seq<Json> {
    BackMessage(c, ForwardMessage(c, m))
  }

  lemma TextMessageAgain(c: Codec, role: string, text: string)
    requires Talking(role)
    ensures Again(c, TextMessage(role, text)) == [TextMessage(role, text)]
  {
  }

  lemma ToolMessageAgain(c: Codec, b: Json)
    requires ToolMessage(b).Some?
    ensures Again(c, ToolMessage(b).value) == [ToolMessage(b).value]
  {
    var id, text := StrOr(Get(b.fields, "tool_use_id")), StrOr(Get(b.fields, "content"));
    var r := ResultJson(id, text);
    CollectOne(r, TextBlock);
    CollectOne(r, UseBlock);
    CollectOne(r, ToolMessage);
    assert ToolMessage(r) == ToolMessage(b);
    assert ForwardMessage(c, ToolMessage(b).value) == Obj(map["role" := Str("user"), "content" := Arr([r])]);
  }

  lemma ItemsRead(texts: seq<string>, calls: seq<Call>)
    ensures var items := TextJsons(texts) + UseJsons(calls);
            Texts(items) == texts && Uses(items) == calls && Collect(items, ToolMessage) == []
  {
    var items := TextJsons(texts) + UseJsons(calls);
    TextJsonsRead(texts);
    UseJsonsRead(calls);
    BlocksConcat(TextJsons(texts), UseJsons(calls));
    NoToolMessages(items);
    assert Texts(items) == texts && Uses(items) == calls;
  }

  lemma CallMessageForward(c: Codec, role: string, texts: seq<string>, calls: seq<Call>)
    requires Faithful(c) && Talking(role)
    ensures ForwardMessage(c, CallMessage(c, role, texts, calls))
            == Obj(map["role" := Str(role), "content" := Arr(TextJsons(AsTexts(Join(texts))) + UseJsons(calls))])
  {
    CallJsonsRead(c, calls);
  }

  lemma BackOfBlocks(c: Codec, role: string, items: seq<Json>)
    ensures BackMessage(c, Obj(map["role" := Str(role), "content" := Arr(items)]))
            == BackSpoken(c, role, Texts(items), Uses(items)) + Collect(items, ToolMessage)
  {
  }

  lemma CallMessageAgain(c: Codec, role: string, texts: seq<string>, calls: seq<Call>)
    requires Faithful(c) && Talking(role) && calls != []
    ensures Again(c, CallMessage(c, role, texts, calls)) == [CallMessage(c, role, AsTexts(Join(texts)), calls)]
  {
    var items := TextJsons(AsTexts(Join(texts))) + UseJsons(calls);
    CallMessageForward(c, role, texts, calls);
    BackOfBlocks(c, role, items);
    ItemsRead(AsTexts(Join(texts)), calls);
  }

  lemma {:induction false} NoToolMessages(items: seq<Json>)
    requires forall i | 0 <= i < |items| :: items[i].Obj? && !IsType(items[i].fields, "tool_result")
    ensures Collect(items, ToolMessage) == []
  {
    if items != [] {
      NoToolMessages(items[1..]);
    }
  }

  lemma SameCallMessage(c: Codec, role: string, texts: seq<string>, calls: seq<Call>)
    ensures CallMessage(c, role, AsTexts(Join(texts)), calls) == CallMessage(c, role, texts, calls) <==> texts != [""]
  {
    JoinEmpty(texts);
    JoinAsTexts(Join(texts));
    assert texts == [""] ==> "content" in CallMessage(c, role, texts, calls).fields && "content" !in CallMessage(c, role, [], calls).fields;
  }

  lemma JoinEmpty(texts: seq<string>)
    ensures Join(texts) == "" <==> texts == [] || texts == [""]
  {
    if |texts| > 1 {
      assert |texts[0] + "\n" + Join(texts[1..])| > 0;
    }
  }

  /** A message that a further trip turns into exactly one message. */
  predicate Single(c: Codec, m: Json) {
    !IsSystem(m) && |Again(c, m)| == 1
  }

  predicate Settled(c: Codec, m: Json) {
    Again(c, m) == [m]
  }

  predicate AllSettled(c: Codec, msgs: seq<Json>) {
    forall i | 0 <= i < |msgs| :: Settled(c, msgs[i])
  }

  predicate AllSingle(c: Codec, msgs: seq<Json>) {
    forall i | 0 <= i < |msgs| :: Single(c, msgs[i])
  }

  lemma {:induction false} ToolMessagesSettle(c: Codec, items: seq<Json>)
    ensures AllSettled(c, Collect(items, ToolMessage)) && AllSingle(c, Collect(items, ToolMessage))
  {
    if items != [] {
      ToolMessagesSettle(c, items[1..]);
      if ToolMessage(items[0]).Some? {
        ToolMessageAgain(c, items[0]);
      }
    }
  }

  lemma SpokenSettles(c: Codec, role: string, texts: seq<string>, calls: seq<Call>)
    requires Faithful(c) && Talking(role)
    ensures AllSingle(c, BackSpoken(c, role, texts, calls))
    ensures AllSettled(c, BackSpoken(c, role, texts, calls)) <==> calls == [] || texts != [""]
  {
    if calls != [] {
      CallMessageAgain(c, role, texts, calls);
      SameCallMessage(c, role, texts, calls);
      assert BackSpoken(c, role, texts, calls) == [CallMessage(c, role, texts, calls)];
      assert Settled(c, CallMessage(c, role, texts, calls)) <==> texts != [""];
    } else if texts != [] {
      TextMessageAgain(c, role, Join(texts));
    }
  }

  lemma SettledConcat(c: Codec, a: seq<Json>, b: seq<Json>)
    ensures AllSettled(c, a + b) <==> AllSettled(c, a) && AllSettled(c, b)
    ensures AllSingle(c, a + b) <==> AllSingle(c, a) && AllSingle(c, b)
  {
    forall i | 0 <= i < |a| ensures a[i] == (a + b)[i] {}
    forall i | 0 <= i < |b| ensures b[i] == (a + b)[|a| + i] {}
  }

  /** What one message becomes settles at once, but for the empty text beside tool uses. */
  lemma OneTripSettles(c: Codec, m: Json)
    requires Faithful(c) && !IsSystem(m)
    ensures AllSingle(c, Again(c, m))
    ensures AllSettled(c, Again(c, m)) <==> !LeavesEmptyText(m)
  {
    if m.Obj? {
      var role, content := RoleOf(m.fields), Get(m.fields, "content");
      if IsTool(role) {
        ToolSettles(c, m);
      } else if "tool_calls" in m.fields {
        CallsSettle(c, m);
      } else if content.Null? {
        NullSettles(c, m);
      } else if content.Arr? {
        ArraySettles(c, m);
      }
    }
  }

  lemma ToolSettles(c: Codec, m: Json)
    requires m.Obj? && IsTool(RoleOf(m.fields))
    ensures AllSingle(c, Again(c, m)) && AllSettled(c, Again(c, m)) && !LeavesEmptyText(m)
  {
    var r := ResultJson(StrOr(Get(m.fields, "tool_call_id")), StrOr(Get(m.fields, "content")));
    CollectOne(r, TextBlock);
    CollectOne(r, UseBlock);
    assert Again(c, m) == Collect([r], ToolMessage);
    ToolMessagesSettle(c, [r]);
  }

  lemma CallsSettle(c: Codec, m: Json)
    requires Faithful(c) && m.Obj? && Talking(RoleOf(m.fields)) && "tool_calls" in m.fields
    ensures AllSingle(c, Again(c, m)) && AllSettled(c, Again(c, m)) && !LeavesEmptyText(m)
  {
    var role, texts, calls := RoleOf(m.fields), AsTexts(StrOr(Get(m.fields, "content"))), Calls(c, m.fields["tool_calls"]);
    ItemsRead(texts, calls);
    assert Again(c, m) == BackSpoken(c, role, texts, calls);
    SpokenSettles(c, role, texts, calls);
  }

  lemma NullSettles(c: Codec, m: Json)
    requires Faithful(c) && m.Obj? && Talking(RoleOf(m.fields)) && "tool_calls" !in m.fields && Get(m.fields, "content").Null?
    ensures AllSingle(c, Again(c, m)) && AllSettled(c, Again(c, m)) && !LeavesEmptyText(m)
  {
    ItemsRead([""], []);
    assert TextJsons([""]) + UseJsons([]) == [TextJson("")];
    assert Again(c, m) == BackSpoken(c, RoleOf(m.fields), [""], []);
    SpokenSettles(c, RoleOf(m.fields), [""], []);
  }

  lemma ArraySettles(c: Codec, m: Json)
    requires Faithful(c) && m.Obj? && Talking(RoleOf(m.fields)) && "tool_calls" !in m.fields && Get(m.fields, "content").Arr?
    ensures AllSingle(c, Again(c, m)) && (AllSettled(c, Again(c, m)) <==> !LeavesEmptyText(m))
  {
    var role, items := RoleOf(m.fields), Get(m.fields, "content").items;
    assert Again(c, m) == BackSpoken(c, role, Texts(items), Uses(items)) + Collect(items, ToolMessage);
    SpokenSettles(c, role, Texts(items), Uses(items));
    ToolMessagesSettle(c, items);
    SettledConcat(c, BackSpoken(c, role, Texts(items), Uses(items)), Collect(items, ToolMessage));
  }

  predicate NoEmptyText(msgs: seq<Json>) {
    forall i | 0 <= i < |msgs| :: !LeavesEmptyText(msgs[i])
  }

  /** The messages after the system part of a round trip. */
  function Tail(c: Codec, msgs: seq<Json>): seq<Json> {
    Flat(ForwardMessages(c, msgs), Backward(c))
  }

  lemma TailNext(c: Codec, msgs: seq<Json>)
    requires msgs != []
    ensures Tail(c, msgs) == Again(c, msgs[0]) + Tail(c, msgs[1..])
  {
    assert ForwardMessages(c, msgs)[1..] == ForwardMessages(c, msgs[1..]);
  }

  lemma {:induction false} TailSettles(c: Codec, msgs: seq<Json>)
    requires Faithful(c) && NoSystem(msgs)
    ensures AllSingle(c, Tail(c, msgs))
    ensures AllSettled(c, Tail(c, msgs)) <==> NoEmptyText(msgs)
  {
    if msgs != [] {
      assert forall i | 0 <= i < |msgs[1..]| :: msgs[1..][i] == msgs[i + 1];
      TailSettles(c, msgs[1..]);
      OneTripSettles(c, msgs[0]);
      TailNext(c, msgs);
      SettledConcat(c, Again(c, msgs[0]), Tail(c, msgs[1..]));
      assert NoEmptyText(msgs) <==> !LeavesEmptyText(msgs[0]) && NoEmptyText(msgs[1..]);
    }
  }

  lemma TailOfSingle(c: Codec, msgs: seq<Json>)
    requires msgs != [] && Single(c, msgs[0])
    ensures Tail(c, msgs) == [Again(c, msgs[0])[0]] + Tail(c, msgs[1..])
    ensures Tail(c, msgs) == msgs <==> Settled(c, msgs[0]) && Tail(c, msgs[1..]) == msgs[1..]
  {
    var y := Again(c, msgs[0])[0];
    TailNext(c, msgs);
    assert Again(c, msgs[0]) == [y];
    assert msgs == [msgs[0]] + msgs[1..];
    ConsAgrees(y, Tail(c, msgs[1..]), msgs[0], msgs[1..]);
  }

  lemma AllButFirst(c: Codec, msgs: seq<Json>)
    requires msgs != []
    ensures AllSettled(c, msgs) <==> Settled(c, msgs[0]) && AllSettled(c, msgs[1..])
    ensures AllSingle(c, msgs) <==> Single(c, msgs[0]) && AllSingle(c, msgs[1..])
  {
    assert msgs == [msgs[0]] + msgs[1..];
    SettledConcat(c, [msgs[0]], msgs[1..]);
  }

  /** A further trip over single messages changes nothing exactly when each is settled. */
  lemma {:induction false} TailOfSingles(c: Codec, msgs: seq<Json>)
    requires AllSingle(c, msgs)
    ensures |Tail(c, msgs)| == |msgs|
    ensures Tail(c, msgs) == msgs <==> AllSettled(c, msgs)
  {
    if msgs != [] {
      AllButFirst(c, msgs);
      TailOfSingles(c, msgs[1..]);
      TailOfSingle(c, msgs);
    }
  }

  lemma RemainingOfPart(text: string, tail: seq<Json>)
    requires NoSystem(tail)
    ensures Remaining(SystemPart(text) + tail) == tail
  {
    RemainingHasNone(tail);
    if text == "" {
      assert SystemPart(text) + tail == tail;
    } else {
      var m := TextMessage("system", text);
      assert IsSystem(m);
      assert (SystemPart(text) + tail)[0] == m && (SystemPart(text) + tail)[1..] == tail;
    }
  }

  lemma SecondTripIs(c: Codec, text: string, tail: seq<Json>)
    requires NoSystem(tail)
    ensures RoundTrip(c, SystemPart(text) + tail) == SystemPart(text) + Tail(c, tail)
  {
    SystemTextOfPart(SystemPart(text), tail, false);
    SystemPartReads(text, false);
    RemainingOfPart(text, tail);
  }

  lemma PrefixCancels<T>(p: seq<T>, a: seq<T>, b: seq<T>)
    ensures p + a == p + b <==> a == b
  {
    if p + a == p + b {
      assert a == (p + a)[|p|..] && b == (p + b)[|p|..];
    }
  }

  lemma TailHasNoSystem(c: Codec, msgs: seq<Json>)
    requires AllSingle(c, msgs)
    ensures NoSystem(msgs)
  {
    forall i | 0 <= i < |msgs| ensures !IsSystem(msgs[i]) { assert Single(c, msgs[i]); }
  }

  /** A second round trip changes nothing exactly when no message leaves an empty text beside tool calls. */
  lemma SecondTripChangesNothingIff(c: Codec, msgs: seq<Json>)
    requires Faithful(c)
    ensures RoundTrip(c, RoundTrip(c, msgs)) == RoundTrip(c, msgs) <==> NoEmptyText(Remaining(msgs))
  {
    var part, tail := SystemPart(SystemText(msgs, false)), Tail(c, Remaining(msgs));
    RemainingHasNone(msgs);
    TailSettles(c, Remaining(msgs));
    TailOfSingles(c, tail);
    TailHasNoSystem(c, tail);
    SecondTripIs(c, SystemText(msgs, false), tail);
    PrefixCancels(part, Tail(c, tail), tail);
  }

  // ---------------------------------------------------------------- inputs on which the promises fail

  /** An assistant message with an empty text block and a tool use in an array content. */
  lemma SecondTripCanDiffer(c: Codec) returns (m: Json)
    requires Faithful(c)
    ensures m == Obj(map["role" := Str("assistant"), "content" := Arr([TextJson(""), UseJson(Call("1", "f", Null))])])
    ensures RoundTrip(c, RoundTrip(c, [m])) != RoundTrip(c, [m])
  {
    m := Obj(map["role" := Str("assistant"), "content" := Arr([TextJson(""), UseJson(Call("1", "f", Null))])]);
    ItemsRead([""], [Call("1", "f", Null)]);
    assert TextJsons([""]) + UseJsons([Call("1", "f", Null)]) == [TextJson(""), UseJson(Call("1", "f", Null))];
    assert LeavesEmptyText(m);
    assert Remaining([m]) == [m] by { assert [m][1..] == []; }
    SecondTripChangesNothingIff(c, [m]);
  }

  /** A message that is not read in full loses something. */
  lemma OneMessageLost(c: Codec, m: Json)
    requires Faithful(c) && !ReadInFull(c, m)
    ensures OaiTalk(c, RoundTrip(c, [m]), true) != OaiTalk(c, [m], true)
  {
    RoundTripKeepsAllIff(c, [m]);
    assert [m][0] == m;
  }

  /** A tool result given as an array of text blocks. */
  lemma ToolResultCanBeLost(c: Codec) returns (m: Json)
    requires Faithful(c)
    ensures m == Obj(map["role" := Str("tool"), "tool_call_id" := Str("1"), "content" := Arr([TextJson("42")])])
    ensures OaiTalk(c, RoundTrip(c, [m]), true) != OaiTalk(c, [m], true)
  {
    m := Obj(map["role" := Str("tool"), "tool_call_id" := Str("1"), "content" := Arr([TextJson("42")])]);
    CollectOne(TextJson("42"), TextBlock);
    OneMessageLost(c, m);
  }

  function CallWith(arguments: string): Json {
    Obj(map["role" := Str("assistant"), "tool_calls" := Arr([
      Obj(map["id" := Str("1"), "type" := Str("function"),
              "function" := Obj(map["name" := Str("f"), "arguments" := Str(arguments)])])])])
  }

  lemma CallWithForward(c: Codec, arguments: string)
    requires c.parse(arguments).None?
    ensures ForwardMessage(c, CallWith(arguments))
            == Obj(map["role" := Str("assistant"), "content" := Arr(TextJsons([]) + UseJsons([Call("1", "f", Obj(NO_FIELDS))]))])
    ensures !ReadInFull(c, CallWith(arguments))
  {
    var tcs := CallWith(arguments).fields["tool_calls"];
    CollectOne(tcs.items[0], Caller(c));
    assert Calls(c, tcs) == [Call("1", "f", Obj(NO_FIELDS))];
    assert SoundCallOf(c, tcs.items[0]).None?;
  }

  lemma TripOfOne(c: Codec, m: Json)
    requires !IsSystem(m)
    ensures RoundTrip(c, [m]) == Again(c, m)
  {
    assert Remaining([m]) == [m] by { assert [m][1..] == []; }
    TailNext(c, [m]);
    assert SystemText([m], false) == "" by { assert [m][..0] == []; }
  }

  /** Arguments that are no JSON, as when a model stops in the middle of them: they come back as an empty object. */
  lemma ArgumentsCanBeLost(c: Codec, arguments: string)
    requires Faithful(c) && c.parse(arguments).None?
    ensures RoundTrip(c, [CallWith(arguments)]) == [CallMessage(c, "assistant", [], [Call("1", "f", Obj(NO_FIELDS))])]
    ensures OaiTalk(c, RoundTrip(c, [CallWith(arguments)]), true) != OaiTalk(c, [CallWith(arguments)], true)
  {
    var call := Call("1", "f", Obj(NO_FIELDS));
    CallWithForward(c, arguments);
    BackOfBlocks(c, "assistant", TextJsons([]) + UseJsons([call]));
    ItemsRead([], [call]);
    TripOfOne(c, CallWith(arguments));
    OneMessageLost(c, CallWith(arguments));
  }
}
