/** The Junos dialect's edit check, commit line and key encoder, and the device's reading of what is typed. */
module JunosDialect {
  import opened Wrappers
  import opened Faults
  import opened Numbers
  import opened Text

  /** The fixed commands of a dialect with a candidate. */
  datatype Commands = Commands(
    enter: string, exit: string, discards: seq<string>, diff: string, history: string, configHistory: string)

  const JUNOS := Commands(
    "configure exclusive", "exit", ["rollback 0"], "show | compare", "show system commit", "run show system commit")
  const VERBS := [
    "set ", "delete ", "activate ", "deactivate ", "insert ",
    "rename ", "copy ", "annotate ", "protect ", "unprotect "
  ]

  predicate IsComment(line: string) {
    line != "" && line[0] == '#'
  }

  predicate HasVerb(line: string) {
    exists i :: 0 <= i < |VERBS| && VERBS[i] <= line
  }

  // ----- check_edit

  datatype Refusal = NoCommands | ControlAt(line: nat) | CommitAt(line: nat) | NotSetStyleAt(line: nat)

  /** The stripped lines an edit types: neither blank nor comments. */
  function Meaningful(lines: seq<string>): seq<string> {
    if lines == [] then []
    else
      var rest := Meaningful(lines[..|lines| - 1]);
      var line := Strip(lines[|lines| - 1]);
      if line == "" || IsComment(line) then rest else rest + [line]
  }

  function FirstWord(s: string): string {
    if s == "" || IsSpace(s[0]) then "" else [s[0]] + FirstWord(s[1..])
  }

  function DropSemicolons(s: string): string {
    if s != "" && s[|s| - 1] == ';' then DropSemicolons(s[..|s| - 1]) else s
  }

  /** A commit command or one of its abbreviations from "com" up. */
  predicate NamesCommit(line: string) {
    var word := DropSemicolons(FirstWord(line));
    |word| >= 3 && word <= "commit"
  }

  function CheckLine(raw: string, number: nat): Option<Refusal> {
    var line := Strip(raw);
    if IsComment(line) then None
    else if !Plain(raw) then Some(ControlAt(number))
    else if line == "" then None
    else if NamesCommit(line) then Some(CommitAt(number))
    else if !HasVerb(line) then Some(NotSetStyleAt(number))
    else None
  }

  function CheckLines(lines: seq<string>, number: nat): Option<Refusal>
    requires number <= |lines|
    decreases |lines| - number
  {
    if number == |lines| then None
    else
      var refusal := CheckLine(lines[number], number + 1);
      if refusal.Some? then refusal else CheckLines(lines, number + 1)
  }

  function CheckEdit(lines: seq<string>): Option<Refusal> {
    if Meaningful(lines) == [] then Some(NoCommands) else CheckLines(lines, 0)
  }

  /** What the check promises of one payload line. */
  predicate Editable(raw: string) {
    var line := Strip(raw);
    IsComment(line) || (Plain(raw) && (line == "" || HasVerb(line)))
  }

  /** The check accepts exactly the payloads whose typed lines are plain set-style commands, at least one of them.
      */
  lemma CheckEditAccepts(lines: seq<string>)
    ensures CheckEdit(lines).None? <==>
            Meaningful(lines) != [] && forall i :: 0 <= i < |lines| ==> Editable(lines[i])
  {
    CheckLinesAccepts(lines, 0);
  }

  lemma {:induction false} CheckLinesAccepts(lines: seq<string>, number: nat)
    requires number <= |lines|
    ensures CheckLines(lines, number).None? <==> forall i :: number <= i < |lines| ==> Editable(lines[i])
    decreases |lines| - number
  {
    if number < |lines| {
      VerbIsNotCommit(Strip(lines[number]));
      assert CheckLine(lines[number], number + 1).None? <==> Editable(lines[number]);
      CheckLinesAccepts(lines, number + 1);
    }
  }

  lemma {:induction false} FirstWordOf(word: string, rest: string)
    requires forall i :: 0 <= i < |word| ==> !IsSpace(word[i])
    ensures FirstWord(word + " " + rest) == word
  {
    if word == "" {
      assert word + " " + rest == " " + rest;
    } else {
      assert (word + " " + rest)[1..] == word[1..] + " " + rest;
      FirstWordOf(word[1..], rest);
    }
  }

  /** Each verb is one word and a space, and the word neither ends in a semicolon nor abbreviates commit. */
  lemma VerbShape(verb: string)
    requires verb in VERBS
    ensures |verb| >= 4 && verb[|verb| - 1] == ' ' && verb[|verb| - 2] != ';'
    ensures forall i :: 0 <= i < |verb| - 1 ==> !IsSpace(verb[i])
    ensures verb[0] != 'c' || verb[2] != 'm'
  {
  }

  /** No set-style verb abbreviates commit, so that clause of the check never refuses one. */
  lemma VerbIsNotCommit(line: string)
    ensures HasVerb(line) ==> !NamesCommit(line)
  {
    if HasVerb(line) {
      var i :| 0 <= i < |VERBS| && VERBS[i] <= line;
      var verb := VERBS[i];
      VerbShape(verb);
      WordIsNotCommit(verb, line);
    }
  }

  lemma WordIsNotCommit(verb: string, line: string)
    requires |verb| >= 4 && verb[|verb| - 1] == ' ' && verb[|verb| - 2] != ';' && verb <= line
    requires forall i :: 0 <= i < |verb| - 1 ==> !IsSpace(verb[i])
    requires verb[0] != 'c' || verb[2] != 'm'
    ensures !NamesCommit(line)
  {
    var word := verb[..|verb| - 1];
    assert line == word + " " + line[|verb|..];
    FirstWordOf(word, line[|verb|..]);
    assert DropSemicolons(word) == word;
    assert word[0] == verb[0] && word[2] == verb[2];
  }

  // ----- build_commit

  function Utf8Width(c: char): nat {
    var n := c as int;
    if n < 0x80 then 1 else if n < 0x800 then 2 else if n < 0x10000 then 3 else 4
  }

  function Utf8Length(s: string): nat {
    if s == "" then 0 else Utf8Width(s[0]) + Utf8Length(s[1..])
  }

  function DoubleBackslashes(s: string): string {
    if s == "" then "" else (if s[0] == '\\' then "\\\\" else [s[0]]) + DoubleBackslashes(s[1..])
  }

  function Digit(d: nat): char
    requires d < 10
  {
    '0' + d as char
  }

  function Decimal(n: nat): string {
    if n < 10 then [Digit(n)] else Decimal(n / 10) + [Digit(n % 10)]
  }

  predicate ValidMinutes(minutes: Option<int>) {
    minutes.Some? ==> 1 <= minutes.value <= 65535
  }

  predicate ValidComment(comment: Option<string>) {
    comment.Some? ==>
      && Strip(comment.value) != "" && Plain(comment.value) && '"' !in comment.value
      && Utf8Length(comment.value) <= 512
  }

  /** The commit line, or the LOCAL refusal of a bad timer or comment. */
  function BuildCommit(minutes: Option<int>, comment: Option<string>): Result<string, Kind> {
    if !ValidMinutes(minutes) || !ValidComment(comment) then Err(LOCAL)
    else Ok(CommitLine(minutes, comment))
  }

  function CommitLine(minutes: Option<int>, comment: Option<string>): string
    requires ValidMinutes(minutes)
  {
    "commit"
    + (if minutes.Some? then " confirmed " + Decimal(minutes.value) else "")
    + Note(comment)
  }

  function Note(comment: Option<string>): string {
    if comment.Some? then " comment \"" + DoubleBackslashes(comment.value) + "\"" else ""
  }

  // ----- encode_line, and the line editor that undoes it

  const QUOTE := '\U{16}'

  function QuoteHelp(text: string): string {
    if text == "" then "" else (if text[0] == '?' then [QUOTE, '?'] else [text[0]]) + QuoteHelp(text[1..])
  }

  /** What is typed for one line: a literal ? behind Ctrl-V, then the newline. */
  function EncodeLine(text: string): string {
    QuoteHelp(text) + "\n"
  }

  /** The line editor: Ctrl-V takes the next key literally, a bare ? asks for help and never enters the line, the
      newline ends it. */
  function EditorReads(keys: string): Option<string> {
    if keys == "" then None
    else if keys[0] == '\n' then (if |keys| == 1 then Some("") else None)
    else if keys[0] == QUOTE then
      (if |keys| == 1 then None
       else match EditorReads(keys[2..]) case None => None case Some(rest) => Some([keys[1]] + rest))
    else if IsControl(keys[0]) then None
    else match EditorReads(keys[1..]) case None => None
      case Some(rest) => Some((if keys[0] == '?' then "" else [keys[0]]) + rest)
  }

  lemma {:induction false} EditorUndoesEncode(text: string)
    requires Plain(text)
    ensures EditorReads(EncodeLine(text)) == Some(text)
  {
    if text == "" {
      assert EncodeLine(text) == "\n";
    } else {
      var head := if text[0] == '?' then [QUOTE, '?'] else [text[0]];
      assert EncodeLine(text) == head + EncodeLine(text[1..]);
      assert EncodeLine(text)[|head|..] == EncodeLine(text[1..]);
      EditorUndoesEncode(text[1..]);
      assert text == [text[0]] + text[1..];
    }
  }

  // ----- the device's reading of a commit line

  function DropPrefix(prefix: string, s: string): Option<string> {
    if prefix <= s then Some(s[|prefix|..]) else None
  }

  /** A decimal number and the text after it. */
  function ReadNumber(s: string, value: nat): (nat, string) {
    if s != "" && IsDigit(s[0]) then ReadNumber(s[1..], 10 * value + (s[0] as nat - '0' as nat)) else (value, s)
  }

  /** The body of a quoted string up to its closing quote, a backslash taking the next character literally. */
  function ReadQuoted(s: string): Option<string> {
    if s == "" then None
    else if s[0] == '"' then (if |s| == 1 then Some("") else None)
    else if s[0] == '\\' then
      (if |s| == 1 then None
       else match ReadQuoted(s[2..]) case None => None case Some(rest) => Some([s[1]] + rest))
    else match ReadQuoted(s[1..]) case None => None case Some(rest) => Some([s[0]] + rest)
  }

  datatype CommitOrder = CommitOrder(minutes: Option<int>, comment: Option<string>)

  function ReadComment(minutes: Option<int>, s: string): Option<CommitOrder> {
    if s == "" then Some(CommitOrder(minutes, None))
    else match DropPrefix(" comment \"", s)
      case None => None
      case Some(body) =>
        match ReadQuoted(body) case None => None case Some(text) => Some(CommitOrder(minutes, Some(text)))
  }

  function ReadCommit(line: string): Option<CommitOrder> {
    match DropPrefix("commit", line)
    case None => None
    case Some(tail) =>
      match DropPrefix(" confirmed ", tail)
      case None => ReadComment(None, tail)
      case Some(timer) =>
        var (value, rest) := ReadNumber(timer, 0);
        if rest == timer then None else ReadComment(Some(value), rest)
  }

  /** The value ReadNumber has after the digits of n, starting from `value`. */
  function Appended(value: nat, n: nat): nat {
    if n < 10 then 10 * value + n else 10 * Appended(value, n / 10) + n % 10
  }

  lemma {:induction false} ReadDecimal(n: nat, value: nat, rest: string)
    ensures |Decimal(n)| > 0 && IsDigit(Decimal(n)[0])
    ensures ReadNumber(Decimal(n) + rest, value) == ReadNumber(rest, Appended(value, n))
  {
    if n < 10 {
      assert (Decimal(n) + rest)[1..] == rest;
    } else {
      var last := [Digit(n % 10)];
      assert Decimal(n) + rest == Decimal(n / 10) + (last + rest);
      ReadDecimal(n / 10, value, last + rest);
      assert (last + rest)[1..] == rest;
    }
  }

  lemma {:induction false} AppendedToZero(n: nat)
    ensures Appended(0, n) == n
  {
    if n >= 10 {
      AppendedToZero(n / 10);
    }
  }

  lemma {:induction false} ReadDoubled(comment: string)
    requires '"' !in comment
    ensures ReadQuoted(DoubleBackslashes(comment) + "\"") == Some(comment)
  {
    if comment == "" {
      assert DoubleBackslashes(comment) + "\"" == "\"";
    } else {
      var head := if comment[0] == '\\' then "\\\\" else [comment[0]];
      var all := DoubleBackslashes(comment) + "\"";
      assert all == head + (DoubleBackslashes(comment[1..]) + "\"");
      assert all[|head|..] == DoubleBackslashes(comment[1..]) + "\"";
      ReadDoubled(comment[1..]);
      assert comment == [comment[0]] + comment[1..];
    }
  }

  lemma ReadCommentBack(minutes: Option<int>, comment: Option<string>)
    requires ValidComment(comment)
    ensures ReadComment(minutes, Note(comment)) == Some(CommitOrder(minutes, comment))
  {
    if comment.Some? {
      var body := DoubleBackslashes(comment.value) + "\"";
      var s := Note(comment);
      assert s == " comment \"" + body;
      assert s[|" comment \""|..] == body;
      ReadDoubled(comment.value);
    }
  }

  lemma ReadTimed(minutes: nat, comment: Option<string>)
    requires 1 <= minutes <= 65535 && ValidComment(comment)
    ensures ReadCommit(CommitLine(Some(minutes), comment)) == Some(CommitOrder(Some(minutes), comment))
  {
    var note, digits := Note(comment), Decimal(minutes);
    var line := CommitLine(Some(minutes), comment);
    assert line == "commit" + (" confirmed " + (digits + note));
    assert DropPrefix("commit", line) == Some(" confirmed " + (digits + note));
    assert DropPrefix(" confirmed ", " confirmed " + (digits + note)) == Some(digits + note);
    ReadDecimal(minutes, 0, note);
    AppendedToZero(minutes);
    assert note != "" ==> note[0] == ' ';
    assert note != digits + note by { assert |digits + note| == |digits| + |note|; }
    ReadCommentBack(Some(minutes), comment);
  }

  lemma ReadUntimed(comment: Option<string>)
    requires ValidComment(comment)
    ensures ReadCommit(CommitLine(None, comment)) == Some(CommitOrder(None, comment))
  {
    var note := Note(comment);
    var line := CommitLine(None, comment);
    assert line == "commit" + note;
    assert DropPrefix("commit", line) == Some(note);
    assert DropPrefix(" confirmed ", note).None? by {
      assert note != "" ==> note[3] == 'm' && " confirmed "[3] == 'n';
    }
    ReadCommentBack(None, comment);
  }

  /** Undoing the key quoting and reading the line gives back exactly the timer and comment that built it. */
  lemma CommitRoundTrip(minutes: Option<int>, comment: Option<string>)
    requires BuildCommit(minutes, comment).Ok?
    ensures var keys := EncodeLine(BuildCommit(minutes, comment).value);
            EditorReads(keys).Some? && ReadCommit(EditorReads(keys).value) == Some(CommitOrder(minutes, comment))
  {
    CommitLineTypable(minutes, comment);
    EditorUndoesEncode(CommitLine(minutes, comment));
    if minutes.Some? {
      ReadTimed(minutes.value, comment);
    } else {
      ReadUntimed(comment);
    }
  }

  /** Different settings are never typed as the same keys. */
  lemma CommitLineInjective(m1: Option<int>, c1: Option<string>, m2: Option<int>, c2: Option<string>)
    requires BuildCommit(m1, c1).Ok? && BuildCommit(m2, c2).Ok?
    requires EncodeLine(BuildCommit(m1, c1).value) == EncodeLine(BuildCommit(m2, c2).value)
    ensures m1 == m2 && c1 == c2
  {
    CommitRoundTrip(m1, c1);
    CommitRoundTrip(m2, c2);
  }

  lemma {:induction false} DecimalPlain(n: nat)
    ensures AllDigits(Decimal(n))
  {
    if n >= 10 {
      DecimalPlain(n / 10);
    }
  }

  lemma {:induction false} DoubledPlain(s: string)
    requires Plain(s)
    ensures Plain(DoubleBackslashes(s))
  {
    if s != "" {
      DoubledPlain(s[1..]);
    }
  }

  lemma NotePlain(comment: Option<string>)
    requires ValidComment(comment)
    ensures Plain(Note(comment)) && (comment.Some? ==> Note(comment)[|Note(comment)| - 1] == '"')
  {
    if comment.Some? {
      DoubledPlain(comment.value);
    }
  }

  /** A built commit line passes the engine's own check for typable commands, and is typed unchanged. */
  lemma CommitLineTypable(minutes: Option<int>, comment: Option<string>)
    requires ValidMinutes(minutes) && ValidComment(comment)
    ensures Plain(CommitLine(minutes, comment)) && Trimmed(CommitLine(minutes, comment))
    ensures "commit" <= CommitLine(minutes, comment)
  {
    var timer := if minutes.Some? then " confirmed " + Decimal(minutes.value) else "";
    if minutes.Some? {
      DecimalPlain(minutes.value);
      ReadDecimal(minutes.value, 0, "");
    }
    NotePlain(comment);
    assert Plain(timer);
    assert timer != "" ==> !IsSpace(timer[|timer| - 1]);
    JoinedTypable(timer, Note(comment));
    assert CommitLine(minutes, comment) == "commit" + timer + Note(comment);
  }

  lemma JoinedTypable(timer: string, note: string)
    requires Plain(timer) && Plain(note)
    requires timer != "" ==> !IsSpace(timer[|timer| - 1])
    requires note != "" ==> note[|note| - 1] == '"'
    ensures var line := "commit" + timer + note; Plain(line) && Trimmed(line) && "commit" <= line
  {
  }

  // ----- what the device makes of a typed line

  datatype Meaning = EnterExclusive | LeaveConfig | Rollback | TakeCommit(order: Option<CommitOrder>)
      | Edit(line: string) | Other

  /** The device's reading of one command line in the shapes this program types; a commit carries its options. */
  function Interpret(text: string): Meaning {
    if text == "configure exclusive" then EnterExclusive
    else if text == "exit" then LeaveConfig
    else if text == "rollback 0" then Rollback
    else if "commit" <= text then TakeCommit(ReadCommit(text))
    else if HasVerb(text) then Edit(text)
    else Other
  }

  /** A set-style line is read as an edit, whatever follows its verb. */
  lemma VerbMeansEdit(text: string)
    requires HasVerb(text)
    ensures Interpret(text) == Edit(text)
  {
    var i :| 0 <= i < |VERBS| && VERBS[i] <= text;
    assert text[..|VERBS[i]|] == VERBS[i];
    assert text[0] == VERBS[i][0] && text[1] == VERBS[i][1] && text[2] == VERBS[i][2];
  }

  predicate Typable(command: string) {
    command != "" && Plain(command) && Trimmed(command)
  }

  /** The device understands the fixed commands as the engine means them. */
  predicate Understood(c: Commands) {
    && Typable(c.enter) && Interpret(c.enter) == EnterExclusive
    && Typable(c.exit) && Interpret(c.exit) == LeaveConfig
    && (forall i :: 0 <= i < |c.discards| ==> Typable(c.discards[i]) && Interpret(c.discards[i]) == Rollback)
    && c.discards != []
    && Typable(c.diff) && Interpret(c.diff) == Other
    && Typable(c.history) && Interpret(c.history) == Other
    && Typable(c.configHistory) && Interpret(c.configHistory) == Other
  }

  lemma NotAnEdit(text: string)
    requires |text| >= 2 && (text[0] == 's' ==> text[1] == 'h') && (text[0] == 'r' ==> text[1] == 'u')
    requires text[0] == 's' || text[0] == 'r'
    ensures Interpret(text) == Other
  {
    forall i | 0 <= i < |VERBS|
      ensures !(VERBS[i] <= text)
    {
      assert VERBS[i][0] != text[0] || VERBS[i][1] != text[1];
    }
  }

  lemma JunosUnderstood()
    ensures Understood(JUNOS)
  {
    CommandsUnderstood(JUNOS);
  }

  lemma CommandsUnderstood(c: Commands)
    requires c == JUNOS
    ensures Understood(c)
  {
    FixedTypable(c);
    FixedMeanings(c);
  }

  lemma FixedTypable(c: Commands)
    requires c == JUNOS
    ensures Typable(c.enter) && Typable(c.exit) && c.discards == ["rollback 0"] && Typable(c.discards[0])
    ensures Typable(c.diff) && Typable(c.history) && Typable(c.configHistory)
  {
    LowercaseTypable(c.enter);
    LowercaseTypable(c.exit);
    LowercaseTypable(c.discards[0]);
    LowercaseTypable(c.diff);
    LowercaseTypable(c.history);
    LowercaseTypable(c.configHistory);
  }

  predicate KeyCap(ch: char) {
    ch == ' ' || '0' <= ch <= '9' || 'a' <= ch <= '|'
  }

  lemma LowercaseTypable(text: string)
    requires text != "" && text[0] != ' ' && text[|text| - 1] != ' '
    requires forall i :: 0 <= i < |text| ==> KeyCap(text[i])
    ensures Typable(text)
  {
  }

  lemma FixedMeanings(c: Commands)
    requires c == JUNOS
    ensures Interpret(c.enter) == EnterExclusive && Interpret(c.exit) == LeaveConfig
    ensures forall i :: 0 <= i < |c.discards| ==> Interpret(c.discards[i]) == Rollback
    ensures Interpret(c.diff) == Other && Interpret(c.history) == Other && Interpret(c.configHistory) == Other
  {
    NotAnEdit(c.diff);
    NotAnEdit(c.history);
    NotAnEdit(c.configHistory);
  }
}
