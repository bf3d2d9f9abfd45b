/** The one-line terminal that turns a CLI's echo, redraws and escape sequences into plain lines. */
module Terminal {
  import opened Numbers
  const ESC := '\U{1b}'
  const BEL := '\U{7}'
  const BACKSPACE := '\U{8}'
  const PARAMETER_LIMIT := 32

  datatype Escape = Ground | Esc | Csi | Charset | Osc | OscEnd

  /** The terminal's fields, and the lines completed so far in the text being fed. */
  datatype Screen = Screen(line: string, column: nat, escape: Escape, parameters: string, emitted: seq<string>) {
    predicate Valid() {
      column <= |line|
    }
  }

  /** The characters dropped without a trace: NUL, BEL, SO, SI. */
  predicate Ignored(c: char) {
    c as int in {0x00, 0x07, 0x0e, 0x0f}
  }

  /** A character that is drawn at the cursor. */
  predicate Printed(c: char) {
    c != ESC && c != '\n' && c != '\r' && c != BACKSPACE && !Ignored(c)
  }

  predicate IsDecimal(s: string) {
    s != "" && AllDigits(s)
  }

  function ToInt(s: string): nat
    requires IsDecimal(s) || s == ""
  {
    if s == "" then 0 else 10 * ToInt(s[..|s| - 1]) + (s[|s| - 1] as int - '0' as int)
  }

  /** The control sequences the terminal honours: erase in line and the three cursor moves along it. */
  function AfterControl(t: Screen, final: char): Screen
    requires t.Valid()
  {
    var amount: nat := if IsDecimal(t.parameters) then ToInt(t.parameters) else 0;
    var step := if amount == 0 then 1 else amount;
    match final
    case 'K' =>
      if amount == 2 then t.(line := "", column := 0)
      else if amount == 0 then t.(line := t.line[..t.column])
      else t
    case 'D' => t.(column := Max(0, t.column - step))
    case 'C' => t.(column := Min(|t.line|, t.column + step))
    case 'G' => t.(column := Min(|t.line|, Max(0, amount - 1)))
    case _ => t
  }

  /** One character inside an escape sequence. */
  function AfterEscape(t: Screen, c: char): Screen
    requires t.Valid() && t.escape != Ground
  {
    match t.escape
    case Osc => if c == BEL then t.(escape := Ground) else if c == ESC then t.(escape := OscEnd) else t
    case OscEnd => t.(escape := if c == '\\' then Ground else Osc)
    case Csi =>
      if '@' <= c <= '~' then AfterControl(t, c).(escape := Ground)
      else if |t.parameters| < PARAMETER_LIMIT then t.(parameters := t.parameters + [c])
      else t
    case Charset => t.(escape := Ground)
    case Esc =>
      if c == '[' then t.(escape := Csi, parameters := "")
      else if c == ']' then t.(escape := Osc)
      else if c == '(' || c == ')' then t.(escape := Charset)
      else t.(escape := Ground)
  }

  function Draw(t: Screen, c: char): Screen
    requires t.Valid()
  {
    t.(line := if t.column < |t.line| then t.line[t.column := c] else t.line + [c], column := t.column + 1)
  }

  function AfterKey(t: Screen, c: char): (r: Screen)
    requires t.Valid()
    ensures r.Valid()
  {
    if t.escape != Ground then AfterEscape(t, c)
    else if c == ESC then t.(escape := Esc)
    else if c == '\n' then t.(line := "", column := 0, emitted := t.emitted + [t.line])
    else if c == '\r' then t.(column := 0)
    else if c == BACKSPACE then t.(column := Max(0, t.column - 1))
    else if Ignored(c) then t
    else Draw(t, c)
  }

  function AfterFeed(t: Screen, text: string): (r: Screen)
    requires t.Valid()
    ensures r.Valid()
  {
    if text == "" then t else AfterKey(AfterFeed(t, text[..|text| - 1]), text[|text| - 1])
  }

  class Emulator {
    var line: string
    var column: nat
    var escape: Escape
    var parameters: string

    function View(emitted: seq<string>): Screen
      reads this
    {
      Screen(line, column, escape, parameters, emitted)
    }

    predicate Valid()
      reads this
    {
      column <= |line|
    }

    constructor ()
      ensures View([]) == Screen("", 0, Ground, "", []) && Valid()
    {
      line, column, escape, parameters := "", 0, Ground, "";
    }

    method Control(final: char)
      requires Valid()
      modifies this`line, this`column
      ensures View([]) == AfterControl(old(View([])), final)
    {
      var amount := if IsDecimal(parameters) then ToInt(parameters) else 0;
      var step := if amount == 0 then 1 else amount;
      if final == 'K' {
        if amount == 2 {
          line, column := "", 0;
        } else if amount == 0 {
          line := line[..column];
        }
      } else if final == 'D' {
        column := Max(0, column - step);
      } else if final == 'C' {
        column := Min(|line|, column + step);
      } else if final == 'G' {
        column := Min(|line|, Max(0, amount - 1));
      }
    }

    method Escaped(c: char)
      requires Valid() && escape != Ground
      modifies this
      ensures View([]) == AfterEscape(old(View([])), c)
    {
      if escape == Osc {
        if c == BEL {
          escape := Ground;
        } else if c == ESC {
          escape := OscEnd;
        }
      } else if escape == OscEnd {
        escape := if c == '\\' then Ground else Osc;
      } else if escape == Csi {
        if '@' <= c <= '~' {
          Control(c);
          escape := Ground;
        } else if |parameters| < PARAMETER_LIMIT {
          parameters := parameters + [c];
        }
      } else if escape == Charset {
        escape := Ground;
      } else if c == '[' {
        escape, parameters := Csi, "";
      } else if c == ']' {
        escape := Osc;
      } else if c == '(' || c == ')' {
        escape := Charset;
      } else {
        escape := Ground;
      }
    }

    method Feed(text: string) returns (lines: seq<string>)
      requires Valid()
      modifies this
      ensures View(lines) == AfterFeed(old(View([])), text) && Valid()
    {
      lines := [];
      for n := 0 to |text|
        invariant Valid() && View(lines) == AfterFeed(old(View([])), text[..n])
      {
        var c := text[n];
        assert text[..n + 1][..n] == text[..n];
        if escape != Ground {
          EmittedApart(View(lines), c);
          Escaped(c);
          continue;
        }
        if c == ESC {
          escape := Esc;
        } else if c == '\n' {
          lines := lines + [line];
          line, column := "", 0;
        } else if c == '\r' {
          column := 0;
        } else if c == BACKSPACE {
          column := Max(0, column - 1);
        } else if !Ignored(c) {
          line := if column < |line| then line[column := c] else line + [c];
          column := column + 1;
        }
      }
      assert text[..|text|] == text;
    }
  }

  /** Inside an escape sequence the emitted lines play no part. */
  lemma EmittedApart(t: Screen, c: char)
    requires t.Valid() && t.escape != Ground
    ensures AfterEscape(t, c) == AfterEscape(t.(emitted := []), c).(emitted := t.emitted)
  {
  }

  // ----- chunks

  lemma FeedLast(t: Screen, text: string, c: char)
    requires t.Valid()
    ensures AfterFeed(t, text + [c]) == AfterKey(AfterFeed(t, text), c)
  {
    assert (text + [c])[..|text|] == text;
  }

  /** Feeding a text in two pieces, however cut, is feeding it whole. */
  lemma {:induction false} FeedInChunks(t: Screen, a: string, b: string)
    requires t.Valid()
    ensures AfterFeed(t, a + b) == AfterFeed(AfterFeed(t, a), b)
  {
    if b == "" {
      assert a + b == a;
    } else {
      var before, c := b[..|b| - 1], b[|b| - 1];
      FeedInChunks(t, a, before);
      FeedLast(t, a + before, c);
      FeedLast(AfterFeed(t, a), before, c);
      assert b == before + [c] && a + b == a + before + [c];
    }
  }

  lemma FeedOne(t: Screen, c: char)
    requires t.Valid()
    ensures AfterFeed(t, [c]) == AfterKey(t, c)
  {
    assert [c][..0] == "";
    assert AfterFeed(t, "") == t;
  }

  lemma FeedFirst(t: Screen, c: char, rest: string)
    requires t.Valid()
    ensures AfterFeed(t, [c] + rest) == AfterFeed(AfterKey(t, c), rest)
  {
    FeedOne(t, c);
    FeedInChunks(t, [c], rest);
  }

  // ----- plain text

  function Join(lines: seq<string>): string {
    if lines == [] then ""
    else if |lines| == 1 then lines[0]
    else Join(lines[..|lines| - 1]) + "\n" + lines[|lines| - 1]
  }

  lemma JoinLast(lines: seq<string>, last: string, c: char)
    ensures Join(lines + [last + [c]]) == Join(lines + [last]) + [c]
    ensures Join(lines + [last] + [""]) == Join(lines + [last]) + "\n"
  {
    assert (lines + [last + [c]])[..|lines|] == lines == (lines + [last])[..|lines|];
    assert (lines + [last] + [""])[..|lines| + 1] == lines + [last];
    if lines != [] {
      assert Join(lines) + "\n" + (last + [c]) == Join(lines) + "\n" + last + [c];
    }
  }

  predicate PlainText(text: string) {
    forall i :: 0 <= i < |text| ==> Printed(text[i]) || text[i] == '\n'
  }

  /** Text without controls comes out as exactly its split at newlines: the completed lines and the open one, joined
      by newlines, are the text, and no line holds a newline. */
  lemma {:induction false} PlainTextSplits(text: string, parameters: string)
    requires PlainText(text)
    ensures var end := AfterFeed(Screen("", 0, Ground, parameters, []), text);
            && Join(end.emitted + [end.line]) == text
            && end.column == |end.line| && end.escape == Ground
            && forall line :: line in end.emitted + [end.line] ==> '\n' !in line
  {
    if text == "" {
      assert [] + [""] == [""];
    } else {
      var shorter, c := text[..|text| - 1], text[|text| - 1];
      PlainTextSplits(shorter, parameters);
      var mid := AfterFeed(Screen("", 0, Ground, parameters, []), shorter);
      JoinLast(mid.emitted, mid.line, c);
      assert text == shorter + [c];
    }
  }

  /** Printed text overwrites from the cursor on and keeps what lies beyond it. */
  lemma {:induction false} Overtype(t: Screen, text: string)
    requires t.Valid() && t.escape == Ground && forall i :: 0 <= i < |text| ==> Printed(text[i])
    ensures var keep := t.line[Min(|t.line|, t.column + |text|)..];
            AfterFeed(t, text) == t.(line := t.line[..t.column] + text + keep, column := t.column + |text|)
  {
    if text == "" {
      assert t.line == t.line[..t.column] + "" + t.line[t.column..];
    } else {
      var shorter, c := text[..|text| - 1], text[|text| - 1];
      Overtype(t, shorter);
      var keep := t.line[Min(|t.line|, t.column + |text|)..];
      assert AfterFeed(t, text).line == t.line[..t.column] + shorter + [c] + keep;
      assert shorter + [c] == text;
      assert t.line[..t.column] + shorter + [c] == t.line[..t.column] + text;
    }
  }

  // ----- escape sequences

  /** The body of an OSC string: no BEL, and an ESC only before something other than a backslash. */
  predicate OscBody(body: string) {
    if body == "" then true
    else if body[0] == BEL then false
    else if body[0] == ESC then |body| >= 2 && body[1] != '\\' && OscBody(body[2..])
    else OscBody(body[1..])
  }

  lemma {:induction false} OscBodyKeeps(t: Screen, body: string)
    requires t.Valid() && t.escape == Osc && OscBody(body)
    ensures AfterFeed(t, body) == t
    decreases |body|
  {
    if body == "" {
    } else if body[0] == ESC {
      assert body == [body[0]] + ([body[1]] + body[2..]);
      FeedFirst(t, body[0], [body[1]] + body[2..]);
      FeedFirst(t.(escape := OscEnd), body[1], body[2..]);
      OscBodyKeeps(t, body[2..]);
    } else {
      assert body == [body[0]] + body[1..];
      FeedFirst(t, body[0], body[1..]);
      OscBodyKeeps(t, body[1..]);
    }
  }

  /** The complete sequences that draw nothing: OSC strings, character-set choices, two-character escapes, and
      control sequences the terminal does not honour. */
  predicate Invisible(s: string) {
    && |s| >= 2 && s[0] == ESC
    && if s[1] == ']' then OscTail(s[2..])
       else if s[1] == '(' || s[1] == ')' then |s| == 3
       else if s[1] == '[' then ControlTail(s[2..])
       else |s| == 2
  }

  /** An OSC body and its end: BEL, or ESC and a backslash. */
  predicate OscTail(s: string) {
    && s != ""
    && (|| (s[|s| - 1] == BEL && OscBody(s[..|s| - 1]))
        || (|s| >= 2 && s[|s| - 2] == ESC && s[|s| - 1] == '\\' && OscBody(s[..|s| - 2])))
  }

  predicate ControlTail(s: string) {
    && s != "" && '@' <= s[|s| - 1] <= '~' && s[|s| - 1] !in {'K', 'D', 'C', 'G'}
    && forall i :: 0 <= i < |s| - 1 ==> !('@' <= s[i] <= '~')
  }

  lemma {:induction false} ParametersCollect(t: Screen, s: string)
    requires t.Valid() && t.escape == Csi && forall i :: 0 <= i < |s| ==> !('@' <= s[i] <= '~')
    ensures AfterFeed(t, s) == t.(parameters := AfterFeed(t, s).parameters)
  {
    if s != "" {
      ParametersCollect(t, s[..|s| - 1]);
    }
  }

  /** A complete invisible sequence fed from the ground state leaves the line, the cursor and the emitted lines as
      they were. */
  lemma InvisibleLeavesScreen(t: Screen, s: string)
    requires t.Valid() && t.escape == Ground && Invisible(s)
    ensures AfterFeed(t, s) == t.(parameters := AfterFeed(t, s).parameters)
  {
    var rest := s[2..];
    assert s == [ESC] + ([s[1]] + rest);
    FeedFirst(t, ESC, [s[1]] + rest);
    FeedFirst(t.(escape := Esc), s[1], rest);
    if s[1] == ']' {
      OscLeavesScreen(t.(escape := Osc), rest);
    } else if s[1] == '(' || s[1] == ')' {
      assert rest == [s[2]];
      FeedOne(t.(escape := Charset), s[2]);
    } else if s[1] == '[' {
      ControlLeavesScreen(t.(escape := Csi, parameters := ""), rest);
    }
  }

  lemma ControlLeavesScreen(t: Screen, s: string)
    requires t.Valid() && t.escape == Csi && ControlTail(s)
    ensures AfterFeed(t, s) == t.(escape := Ground, parameters := AfterFeed(t, s).parameters)
  {
    ParametersCollect(t, s[..|s| - 1]);
  }

  lemma OscLeavesScreen(t: Screen, s: string)
    requires t.Valid() && t.escape == Osc && OscTail(s)
    ensures AfterFeed(t, s) == t.(escape := Ground)
  {
    var shorter := s[..|s| - 1];
    if s[|s| - 1] == BEL && OscBody(shorter) {
      OscBodyKeeps(t, shorter);
    } else {
      var body := s[..|s| - 2];
      OscBodyKeeps(t, body);
      assert shorter[..|shorter| - 1] == body;
      assert AfterFeed(t, shorter) == t.(escape := OscEnd);
    }
  }

  /** A stretch of output: one ground character other than ESC, or a complete invisible sequence. */
  datatype Token = Shown(c: char) | Hidden(s: string)

  predicate WellFormed(tokens: seq<Token>) {
    forall i :: 0 <= i < |tokens| ==>
      match tokens[i] case Shown(c) => c != ESC case Hidden(s) => Invisible(s)
  }

  function Written(tokens: seq<Token>): string {
    if tokens == [] then ""
    else (match tokens[0] case Shown(c) => [c] case Hidden(s) => s) + Written(tokens[1..])
  }

  function Visible(tokens: seq<Token>): string {
    if tokens == [] then ""
    else (match tokens[0] case Shown(c) => [c] case Hidden(_) => "") + Visible(tokens[1..])
  }

  /** Invisible sequences can be dropped from any output, anywhere, without changing one emitted line, the open line
      or the cursor. */
  lemma {:induction false} InvisibleVanishes(t: Screen, parameters: string, tokens: seq<Token>)
    requires t.Valid() && t.escape == Ground && WellFormed(tokens)
    ensures var end := AfterFeed(t, Written(tokens));
            && AfterFeed(t.(parameters := parameters), Visible(tokens)).(parameters := end.parameters) == end
            && end.escape == Ground
    decreases tokens
  {
    if tokens != [] {
      match tokens[0] {
        case Shown(c) =>
          FeedFirst(t, c, Written(tokens[1..]));
          FeedFirst(t.(parameters := parameters), c, Visible(tokens[1..]));
          ShownAlike(t, parameters, c);
          InvisibleVanishes(AfterKey(t, c), parameters, tokens[1..]);
        case Hidden(s) =>
          InvisibleLeavesScreen(t, s);
          FeedInChunks(t, s, Written(tokens[1..]));
          InvisibleVanishes(AfterFeed(t, s), parameters, tokens[1..]);
          assert "" + Visible(tokens[1..]) == Visible(tokens[1..]);
      }
    }
  }

  lemma ShownAlike(t: Screen, parameters: string, c: char)
    requires t.Valid() && t.escape == Ground && c != ESC
    ensures AfterKey(t.(parameters := parameters), c) == AfterKey(t, c).(parameters := parameters)
    ensures AfterKey(t, c).escape == Ground
  {
  }

  ghost predicate AllPrinted(s: string) {
    forall i :: 0 <= i < |s| ==> Printed(s[i])
  }

  /** No emitted line and no open line ever carries a character the terminal is meant to consume. */
  lemma {:induction false} LinesArePrinted(t: Screen, text: string)
    requires t.Valid() && AllPrinted(t.line) && forall line :: line in t.emitted ==> AllPrinted(line)
    ensures var end := AfterFeed(t, text);
            AllPrinted(end.line) && forall line :: line in end.emitted ==> AllPrinted(line)
  {
    if text != "" {
      LinesArePrinted(t, text[..|text| - 1]);
    }
  }
}
