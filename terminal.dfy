/**
 * The terminal adapter (src/platform/terminal.rs): print the greeting, then
 * read lines until end of input or an exit command, sending every non-blank
 * line to the bot and printing its reply or error.
 *
 * Standard input is the sequence of strings successive `read_line` calls
 * yield (each with its line terminator); an empty read, or running out of
 * lines, is end of input. Standard output is the sequence of strings written.
 */
module Terminal {
  import opened Common
  import opened Prompt
  import opened Platform

  const TerminalSession: string := "terminal-session"
  const QuitHint: string := "(Type 'exit' to quit)\n"
  const UserPrompt: string := "You: "
  const Goodbye: string := "Goodbye!\n"

  /** Rust's `char::is_whitespace`: the code points with the Unicode White_Space property. */
  predicate IsWhiteSpace(c: char) {
    var n := c as int;
    || (0x09 <= n <= 0x0D) || n == 0x20 || n == 0x85 || n == 0xA0 || n == 0x1680
    || (0x2000 <= n <= 0x200A) || n == 0x2028 || n == 0x2029 || n == 0x202F || n == 0x205F || n == 0x3000
  }

  predicate AllWhiteSpace(s: string) {
    forall i :: 0 <= i < |s| ==> IsWhiteSpace(s[i])
  }

  /** The number of white-space characters `s` begins with. */
  function LeadingWhiteSpace(s: string): (n: nat)
    ensures n <= |s| && AllWhiteSpace(s[..n])
    ensures n < |s| ==> !IsWhiteSpace(s[n])
  {
    if s != [] && IsWhiteSpace(s[0]) then
      var n := 1 + LeadingWhiteSpace(s[1..]);
      assert s[..n] == [s[0]] + s[1..][..n - 1];
      n
    else 0
  }

  /** The number of white-space characters `s` ends with. */
  function TrailingWhiteSpace(s: string): (n: nat)
    ensures n <= |s| && AllWhiteSpace(s[|s| - n..])
    ensures n < |s| ==> !IsWhiteSpace(s[|s| - n - 1])
  {
    if s != [] && IsWhiteSpace(s[|s| - 1]) then
      var n := 1 + TrailingWhiteSpace(s[..|s| - 1]);
      assert s[|s| - n..] == s[..|s| - 1][|s| - n..] + [s[|s| - 1]];
      n
    else 0
  }

  lemma AllWhiteSpaceConcat(a: string, b: string)
    requires AllWhiteSpace(a) && AllWhiteSpace(b)
    ensures AllWhiteSpace(a + b)
  {
    forall i | 0 <= i < |a + b| ensures IsWhiteSpace((a + b)[i]) {
      if i < |a| { assert (a + b)[i] == a[i]; } else { assert (a + b)[i] == b[i - |a|]; }
    }
  }

  /**
   * `str::trim`: drops leading and trailing white space. The result is the
   * part of the input after its leading white space, followed only by white
   * space; it begins and ends with a non-white-space character, and is empty
   * exactly for an all-white-space input.
   */
  function Trim(s: string): (r: string)
    ensures LeadingWhiteSpace(s) + |r| <= |s|
    ensures r == s[LeadingWhiteSpace(s)..LeadingWhiteSpace(s) + |r|]
    ensures AllWhiteSpace(s[LeadingWhiteSpace(s) + |r|..])
    ensures r == [] || (!IsWhiteSpace(r[0]) && !IsWhiteSpace(r[|r| - 1]))
    ensures r == [] <==> AllWhiteSpace(s)
  {
    var k := LeadingWhiteSpace(s);
    if k == |s| then
      assert s == s[..k];
      []
    else
      var m := TrailingWhiteSpace(s[k..]);
      TrailingOfSuffix(s, k);
      s[k..|s| - m]
  }

  /** The trailing white space of a suffix that starts with a non-white-space character, measured in the whole string. */
  lemma TrailingOfSuffix(s: string, k: nat)
    requires k < |s| && !IsWhiteSpace(s[k])
    ensures var m := TrailingWhiteSpace(s[k..]);
            && m < |s| - k
            && AllWhiteSpace(s[|s| - m..])
            && !IsWhiteSpace(s[|s| - m - 1])
  {
    var t := s[k..];
    var m := TrailingWhiteSpace(t);
    assert t[|t| - m..] == s[|s| - m..];
    assert t[0] == s[k];
    assert t[|t| - m - 1] == s[|s| - m - 1];
  }

  /** Trimming twice is trimming once. */
  lemma TrimIdempotent(s: string)
    ensures Trim(Trim(s)) == Trim(s)
  {
    var r := Trim(s);
    assert LeadingWhiteSpace(r) == 0;
    assert r[0..] == r;
    assert TrailingWhiteSpace(r) == 0;
  }

  /** ASCII upper-case letters to lower case; every other character unchanged. */
  function AsciiLower(c: char): (d: char)
    ensures 'A' <= c <= 'Z' ==> d as int == c as int + 32
    ensures !('A' <= c <= 'Z') ==> d == c
  {
    if 'A' <= c <= 'Z' then (c as int + 32) as char else c
  }

  /** `str::eq_ignore_ascii_case`. */
  predicate EqIgnoreAsciiCase(a: string, b: string) {
    |a| == |b| && forall i :: 0 <= i < |a| ==> AsciiLower(a[i]) == AsciiLower(b[i])
  }

  predicate IsQuitCommand(t: string) {
    EqIgnoreAsciiCase(t, "exit") || EqIgnoreAsciiCase(t, "quit")
  }

  /** Exit commands are four letters long, in any ASCII case, and nothing else. */
  lemma QuitCommands()
    ensures IsQuitCommand("exit") && IsQuitCommand("EXIT") && IsQuitCommand("Quit") && IsQuitCommand("qUIt")
    ensures !IsQuitCommand("exit!") && !IsQuitCommand("") && !IsQuitCommand("bye")
  {
    assert AsciiLower('E') == 'e' && AsciiLower('X') == 'x' && AsciiLower('I') == 'i' && AsciiLower('T') == 't';
    assert AsciiLower('Q') == 'q' && AsciiLower('U') == 'u';
  }

  /** A character lowers to a lower-case letter exactly when it is that letter in either case. */
  lemma LowersTo(c: char, l: char)
    requires 'a' <= l <= 'z'
    ensures AsciiLower(c) == l <==> c == l || c as int == l as int - 32
  {
  }

  /**
   * The exit commands, spelled out: four characters, each the letter of
   * "exit" or of "quit" in either case; any other length or letter is not one.
   */
  lemma QuitCommandSpelling(t: string)
    ensures IsQuitCommand(t) <==>
              |t| == 4 &&
              ((t[0] in "eE" && t[1] in "xX" && t[2] in "iI" && t[3] in "tT") ||
               (t[0] in "qQ" && t[1] in "uU" && t[2] in "iI" && t[3] in "tT"))
  {
    if |t| == 4 {
      LowersTo(t[0], 'e');
      LowersTo(t[1], 'x');
      LowersTo(t[0], 'q');
      LowersTo(t[1], 'u');
      LowersTo(t[2], 'i');
      LowersTo(t[3], 't');
      assert EqIgnoreAsciiCase(t, "exit") <==>
               AsciiLower(t[0]) == 'e' && AsciiLower(t[1]) == 'x' && AsciiLower(t[2]) == 'i' && AsciiLower(t[3]) == 't';
      assert EqIgnoreAsciiCase(t, "quit") <==>
               AsciiLower(t[0]) == 'q' && AsciiLower(t[1]) == 'u' && AsciiLower(t[2]) == 'i' && AsciiLower(t[3]) == 't';
    }
  }

  /** What the loop does with one read. */
  datatype LineAction = EndOfInput | Quit | Skip | Ask(text: string)

  function Classify(read: string): (a: LineAction)
    ensures a == EndOfInput <==> read == []
    ensures a == Quit <==> read != [] && IsQuitCommand(Trim(read))
    ensures a == Skip <==> read != [] && AllWhiteSpace(read)
    ensures a.Ask? ==> a.text == Trim(read) && a.text != [] && !IsQuitCommand(a.text)
  {
    if read == [] then EndOfInput
    else
      var trimmed := Trim(read);
      if IsQuitCommand(trimmed) then Quit
      else if trimmed == [] then Skip
      else Ask(trimmed)
  }

  /** The request a line becomes: fixed session, the trimmed text, no user id. */
  function AskBot(text: string): Request {
    Request(TerminalSession, Text(text), None)
  }

  /** How a reply or an error is printed. */
  function Render(reply: Result<string>): (line: string)
    ensures reply.Success? ==> line == reply.value + "\n"
    ensures reply.Failure? ==> line == "Error: " + reply.error + "\n"
  {
    match reply
    case Success(text) => text + "\n"
    case Failure(e) => "Error: " + e + "\n"
  }

  /**
   * What the loop has produced so far: the text written, the requests sent
   * (the arguments of every `handle_message` call, in order) and whether it
   * has stopped.
   */
  datatype Console = Console(out: seq<string>, asked: seq<Request>, done: bool)

  /** Before the loop: the greeting and the hint are printed. */
  function Start(bot: BotView): Console {
    Console([bot.greeting + "\n", QuitHint], [], false)
  }

  /**
   * One iteration of the loop for a line that was read: the prompt, then
   * stop, skip, or send the trimmed line and print the answer. A stopped
   * loop reads nothing more.
   */
  function Feed(bot: BotView, c: Console, line: string): (d: Console)
    ensures c.done ==> d == c
    ensures |c.out| <= |d.out| && d.out[..|c.out|] == c.out
    ensures !c.done && Classify(line).Ask? ==>
              d == Console(c.out + [UserPrompt, Render(bot.respond(c.asked + [AskBot(Classify(line).text)]))],
                           c.asked + [AskBot(Classify(line).text)], false)
    ensures !c.done && !Classify(line).Ask? ==> d == Console(c.out + [UserPrompt], c.asked, !Classify(line).Skip?)
  {
    if c.done then c
    else match Classify(line)
      case EndOfInput => Console(c.out + [UserPrompt], c.asked, true)
      case Quit => Console(c.out + [UserPrompt], c.asked, true)
      case Skip => Console(c.out + [UserPrompt], c.asked, false)
      case Ask(text) =>
        var sent := c.asked + [AskBot(text)];
        Console(c.out + [UserPrompt, Render(bot.respond(sent))], sent, false)
  }

  /** The loop after it has been fed `lines`, in order. */
  function Session(bot: BotView, lines: seq<string>): Console
  {
    if lines == [] then Start(bot)
    else Feed(bot, Session(bot, lines[..|lines| - 1]), lines[|lines| - 1])
  }

  /**
   * The whole output for a given standard input. Reading past the last line
   * yields an empty read, which is end of input.
   */
  function Transcript(bot: BotView, lines: seq<string>): seq<string>
  {
    Session(bot, lines + [[]]).out + [Goodbye]
  }

  /** The requests sent for a given standard input. */
  function Sent(bot: BotView, lines: seq<string>): seq<Request>
  {
    Session(bot, lines + [[]]).asked
  }

  /** Output is only ever appended to, so the greeting and the hint stay first. */
  lemma {:induction false} GreetingComesFirst(bot: BotView, lines: seq<string>)
    ensures |Session(bot, lines).out| >= 2 && Session(bot, lines).out[..2] == [bot.greeting + "\n", QuitHint]
  {
    if lines != [] {
      var init := lines[..|lines| - 1];
      GreetingComesFirst(bot, init);
      var c := Session(bot, init);
      var d := Session(bot, lines);
      assert d.out[..2] == d.out[..|c.out|][..2];
    }
  }

  /** The transcript opens with the greeting and the hint, before any input is read, and closes with the farewell. */
  lemma TranscriptFrame(bot: BotView, lines: seq<string>)
    ensures |Transcript(bot, lines)| >= 3
    ensures Transcript(bot, lines)[0] == bot.greeting + "\n" && Transcript(bot, lines)[1] == QuitHint
    ensures Transcript(bot, lines)[|Transcript(bot, lines)| - 1] == Goodbye
  {
    GreetingComesFirst(bot, lines + [[]]);
    var c := Session(bot, lines + [[]]);
    assert c.out[0] == c.out[..2][0] && c.out[1] == c.out[..2][1];
  }

  /** Once the loop has stopped, later input is never read. */
  lemma {:induction false} StoppedSessionIgnoresInput(bot: BotView, lines: seq<string>, more: seq<string>)
    requires Session(bot, lines).done
    ensures Session(bot, lines + more) == Session(bot, lines)
  {
    if more == [] {
      assert lines + more == lines;
    } else {
      var init := more[..|more| - 1];
      assert (lines + more)[..|lines + more| - 1] == lines + init;
      StoppedSessionIgnoresInput(bot, lines, init);
    }
  }

  /**
   * Every request the terminal sends is in the terminal session, without a
   * user id, and carries a trimmed, non-blank line that is not an exit command.
   */
  lemma {:induction false} RequestsAreTrimmedLines(bot: BotView, lines: seq<string>)
    ensures forall q :: q in Session(bot, lines).asked ==>
              && q.session == TerminalSession && q.userId == None && q.input.Text?
              && q.input.text != [] && Trim(q.input.text) == q.input.text && !IsQuitCommand(q.input.text)
  {
    if lines != [] {
      var last := lines[|lines| - 1];
      RequestsAreTrimmedLines(bot, lines[..|lines| - 1]);
      if Classify(last).Ask? {
        TrimIdempotent(last);
      }
    }
  }

  /** One iteration of the loop: the prompt, then the line just read. */
  method HandleLine(bot: BotView, c: Console, input: string) returns (d: Console)
    requires !c.done
    ensures d == Feed(bot, c, input)
  {
    var out := c.out + [UserPrompt];
    if input == [] {
      return Console(out, c.asked, true);
    }
    var trimmed := Trim(input);
    if IsQuitCommand(trimmed) {
      return Console(out, c.asked, true);
    }
    if trimmed == [] {
      return Console(out, c.asked, false);
    }
    var asked := c.asked + [AskBot(trimmed)];
    var response := bot.respond(asked);
    match response {
      case Success(reply) =>
        out := out + [reply + "\n"];
      case Failure(e) =>
        out := out + ["Error: " + e + "\n"];
    }
    d := Console(out, asked, false);
  }

  /** `TerminalPlatform::run`. */
  method Run(bot: BotView, lines: seq<string>) returns (out: seq<string>, asked: seq<Request>)
    ensures out == Transcript(bot, lines)
    ensures asked == Sent(bot, lines)
  {
    ghost var input := lines + [[]];
    var c := Start(bot);
    var i := 0;
    while !c.done
      invariant 0 <= i <= |input|
      invariant Session(bot, input[..i]) == c
      invariant i == |input| ==> c.done
      decreases |input| - i
    {
      var line := if i < |lines| then lines[i] else [];
      SessionStep(bot, input, i);
      c := HandleLine(bot, c, line);
      i := i + 1;
    }
    SessionEnds(bot, input, i);
    out := c.out + [Goodbye];
    asked := c.asked;
  }

  /** One more line read: the fold takes one more step; an empty read ends it. */
  lemma SessionStep(bot: BotView, input: seq<string>, i: nat)
    requires i < |input|
    ensures Session(bot, input[..i + 1]) == Feed(bot, Session(bot, input[..i]), input[i])
    ensures input[i] == [] ==> Session(bot, input[..i + 1]).done
  {
    assert input[..i + 1][..i] == input[..i];
    assert Classify([]) == EndOfInput;
  }

  lemma SessionEnds(bot: BotView, input: seq<string>, i: nat)
    requires i <= |input| && Session(bot, input[..i]).done
    ensures Session(bot, input) == Session(bot, input[..i])
  {
    assert input[..i] + input[i..] == input;
    StoppedSessionIgnoresInput(bot, input[..i], input[i..]);
  }
}
