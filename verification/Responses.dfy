/** The non-streaming response converters. */
module Responses {
  import opened Wrappers
  import opened Json
  import opened Conversation
  import opened Requests
  import opened RoundTrips
  import Streams

  function FirstChoice(oai: Fields): Option<Fields> {
    var choices := Get(oai, "choices");
    if choices.Arr? && choices.items != [] && choices.items[0].Obj? then Some(choices.items[0].fields) else None
  }

  /** The blocks of the first choice; an answer without text and calls becomes one empty text block. */
  function ChoiceBlocks(c: Codec, oai: Fields): seq<Json> {
    match FirstChoice(oai)
    case None => [TextJson("")]
    case Some(choice) =>
      var message := Get(choice, "message");
      if !message.Obj? then [TextJson("")]
      else
        var blocks := TextJsons(AsTexts(StrOr(Get(message.fields, "content")))) + UseJsons(Calls(c, Get(message.fields, "tool_calls")));
        if blocks == [] then [TextJson("")] else blocks
  }

  /** What the first choice says. */
  function ChoiceSays(c: Codec, oai: Fields): (string, seq<Call>) {
    match FirstChoice(oai)
    case None => ("", [])
    case Some(choice) =>
      var message := Get(choice, "message");
      if !message.Obj? then ("", [])
      else (StrOr(Get(message.fields, "content")), Calls(c, Get(message.fields, "tool_calls")))
  }

  /** extractAnthropicContent: the joined text and the tool calls. */
  function ContentSays(blocks: seq<Json>): (string, seq<Call>) {
    (Join(Texts(blocks)), Uses(blocks))
  }

  /** The tool calls of the first choice, as they are. */
  function ChoiceCalls(oai: Fields): Json {
    match FirstChoice(oai)
    case None => Null
    case Some(choice) => if Get(choice, "message").Obj? then Get(Get(choice, "message").fields, "tool_calls") else Null
  }

  /** Why the first choice ended. */
  function ReasonOf(oai: Fields): string {
    match FirstChoice(oai)
    case None => ""
    case Some(choice) => StrOr(Get(choice, "finish_reason"))
  }

  function MapFinishReason(reason: string): string {
    if reason == "length" then "max_tokens" else if reason == "tool_calls" then "tool_use" else "end_turn"
  }

  /** A finish reason survives both maps exactly when it is one of the three that Anthropic knows. */
  lemma ReasonSurvivesIff(reason: string)
    ensures Streams.MapStopReason(MapFinishReason(reason)) == reason <==> reason == "stop" || reason == "length" || reason == "tool_calls"
  {
  }

  /** Text and calls of an answer arrive on the other side, and come back as chat calls; every call does when all are sound. */
  lemma AnswerArrives(c: Codec, oai: Fields)
    requires Faithful(c)
    ensures ContentSays(ChoiceBlocks(c, oai)) == ChoiceSays(c, oai)
    ensures Calls(c, Arr(CallJsons(c, ContentSays(ChoiceBlocks(c, oai)).1))) == ChoiceSays(c, oai).1
    ensures AllSound(c, ChoiceCalls(oai)) ==>
              var calls := ContentSays(ChoiceBlocks(c, oai)).1;
              calls == SoundCalls(c, ChoiceCalls(oai)) && |calls| == |ListOf(ChoiceCalls(oai))|
    ensures Streams.MapStopReason(MapFinishReason(ReasonOf(oai))) == ReasonOf(oai)
            <==> ReasonOf(oai) == "stop" || ReasonOf(oai) == "length" || ReasonOf(oai) == "tool_calls"
  {
    ReasonSurvivesIff(ReasonOf(oai));
    BlocksSay(c, oai);
    CallJsonsRead(c, ChoiceSays(c, oai).1);
    SoundIff(c, ChoiceCalls(oai));
  }

  lemma BlocksSay(c: Codec, oai: Fields)
    ensures ContentSays(ChoiceBlocks(c, oai)) == ChoiceSays(c, oai)
  {
    ItemsRead([""], []);
    assert TextJsons([""]) + UseJsons([]) == [TextJson("")];
    if FirstChoice(oai).Some? && Get(FirstChoice(oai).value, "message").Obj? {
      var message := Get(FirstChoice(oai).value, "message").fields;
      var text := StrOr(Get(message, "content"));
      ItemsRead(AsTexts(text), Calls(c, Get(message, "tool_calls")));
      JoinAsTexts(text);
    }
  }
}
