/** Lines of server-sent events (section 9.2 of the WHATWG HTML standard), as the program writes and reads them. */
module Sse {
  import opened Wrappers
  import opened Json

  function TrimLeft(s: string): string {
    if s != [] && IsSpace(s[0]) then TrimLeft(s[1..]) else s
  }

  function TrimRight(s: string): string {
    if s != [] && IsSpace(s[|s| - 1]) then TrimRight(s[..|s| - 1]) else s
  }

  function TrimSpace(s: string): string {
    TrimRight(TrimLeft(s))
  }

  /** What follows `data:` on a trimmed line, without one leading space. */
  function TrimData(line: string): Option<string> {
    var trimmed := TrimSpace(line);
    if !("data:" <= trimmed) then None
    else
      var rest := trimmed[5..];
      Some(if rest != [] && rest[0] == ' ' then rest[1..] else rest)
  }

  /** What follows `event:` on a trimmed line, trimmed again. */
  function TrimEvent(line: string): Option<string> {
    var trimmed := TrimSpace(line);
    if "event:" <= trimmed then Some(TrimSpace(trimmed[6..])) else None
  }

  lemma TrimTight(s: string)
    requires Tight(s)
    ensures TrimSpace(s) == s && TrimSpace(" " + s) == s
  {
    assert (" " + s)[1..] == s;
  }

  lemma ReadsData(s: string)
    requires Tight(s)
    ensures TrimData("data: " + s) == Some(s) && TrimEvent("data: " + s) == None
  {
    var line := "data: " + s;
    assert line[0] == 'd' && line[|line| - 1] == s[|s| - 1];
    TrimTight(line);
    assert line[5..] == " " + s;
    assert (" " + s)[1..] == s;
  }

  lemma ReadsEvent(s: string)
    requires Tight(s)
    ensures TrimEvent("event: " + s) == Some(s)
  {
    var line := "event: " + s;
    assert line[0] == 'e' && line[|line| - 1] == s[|s| - 1];
    TrimTight(line);
    assert line[6..] == " " + s;
    TrimTight(s);
  }

  lemma ReadsBlank()
    ensures TrimData("") == None && TrimEvent("") == None
  {
  }

  // ---------------------------------------------------------------- from text to lines

  /** The lines of a text; what follows the last newline is a line if it is not empty. */
  function Lines(text: string): seq<string>
    decreases |text|
  {
    LinesFrom("", text)
  }

  function LinesFrom(begun: string, text: string): seq<string>
    decreases |text|
  {
    if text == [] then if begun == [] then [] else [begun]
    else if text[0] == '\n' then [begun] + LinesFrom("", text[1..])
    else LinesFrom(begun + [text[0]], text[1..])
  }

  lemma {:induction false} FirstLine(begun: string, line: string, rest: string)
    requires '\n' !in line
    ensures LinesFrom(begun, line + "\n" + rest) == [begun + line] + Lines(rest)
    decreases |line|
  {
    if line == [] {
      assert line + "\n" + rest == "\n" + rest;
      assert ("\n" + rest)[1..] == rest;
      assert begun + line == begun;
    } else {
      var text := line + "\n" + rest;
      assert text[0] == line[0] && text[1..] == line[1..] + "\n" + rest;
      FirstLine(begun + [line[0]], line[1..], rest);
      assert begun + [line[0]] + line[1..] == begun + line;
    }
  }

  /** A line of its own, then the rest. */
  lemma LineThen(line: string, rest: string)
    requires '\n' !in line
    ensures Lines(line + "\n" + rest) == [line] + Lines(rest)
  {
    FirstLine("", line, rest);
    assert "" + line == line;
  }
}
