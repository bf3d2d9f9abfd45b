/** Several accepters on one known_hosts file, each working under the file's lock. */
module KnownHostsRuns {
  import opened Wrappers
  import opened KnownHosts
  import Text

  // ----- what one append does to the parse

  /** A host name that a line can carry: one word, no list, neither a comment nor a marker, and no hashed name
      unless a well-formed one. */
  predicate Writable(host: string, lib: Lib) {
    Wordlike(host) && host[0] !in ['#', '@'] && ',' !in host && (host[0] == '|' ==> lib.wellHashed(host))
  }

  /** Read as a pattern the name stands for itself alone; any name does that is not hashed. */
  ghost predicate OnlyItself(host: string, lib: Lib) {
    forall other :: Matches(host, other, lib) ==> other == host
  }

  ghost predicate Nameable(host: string, lib: Lib) {
    Writable(host, lib) && OnlyItself(host, lib)
  }

  lemma PlainIsItself(host: string, lib: Lib)
    requires !Starts(host, '|')
    ensures OnlyItself(host, lib)
  {
  }

  /** The library reads back what it writes for a key. */
  predicate Faithful(lib: Lib, key: Key) {
    Wordlike(key.name) && Wordlike(lib.base64(key)) && lib.read(key.name, lib.base64(key)) == Held(key)
  }

  lemma {:induction false} LinesNext(text: string, line: string)
    requires '\n' !in line
    ensures Lines(text + "\n" + line) == Lines(text) + [line]
  {
    var whole := text + "\n" + line;
    if line == "" {
      assert whole == text + "\n" && whole[..|whole| - 1] == text;
    } else {
      var n := |line| - 1;
      LinesNext(text, line[..n]);
      assert whole[..|whole| - 1] == text + "\n" + line[..n];
      assert line == line[..n] + [line[n]];
    }
  }

  lemma {:induction false} OneLine(line: string)
    requires '\n' !in line
    ensures Lines(line) == [line]
  {
    if line != "" {
      OneLine(line[..|line| - 1]);
      assert line == line[..|line| - 1] + [line[|line| - 1]];
    }
  }

  lemma WordStarts(s: string, c: char)
    requires !Text.IsSpace(c) && (s != "" ==> Text.IsSpace(s[|s| - 1]))
    ensures Words(s + [c]) == Words(s) + [[c]]
  {
    assert (s + [c])[..|s|] == s;
  }

  lemma WordGrows(s: string, c: char)
    requires !Text.IsSpace(c) && s != "" && !Text.IsSpace(s[|s| - 1])
    ensures var words := Words(s); Words(s + [c]) == words[..|words| - 1] + [words[|words| - 1] + [c]]
  {
    assert (s + [c])[..|s|] == s;
  }

  lemma {:induction false} WordNext(s: string, word: string)
    requires Wordlike(word) && (s != "" ==> Text.IsSpace(s[|s| - 1]))
    ensures Words(s + word) == Words(s) + [word]
  {
    var n := |word| - 1;
    var before, c := word[..n], word[n];
    assert word == before + [c];
    assert s + word == s + before + [c];
    if n == 0 {
      assert s + before == s;
      WordStarts(s, c);
    } else {
      WordNext(s, before);
      WordGrows(s + before, c);
    }
  }

  lemma BlankNext(s: string)
    ensures Words(s + " ") == Words(s)
  {
    assert (s + " ")[..|s|] == s;
  }

  lemma WordAfter(s: string, word: string)
    requires Wordlike(word)
    ensures Words(s + " " + word) == Words(s) + [word]
  {
    BlankNext(s);
    WordNext(s + " ", word);
  }

  lemma OneWord(word: string)
    requires Wordlike(word)
    ensures Words(word) == [word]
  {
    var none := word[..0];
    WordNext(none, word);
    assert none + word == word;
  }

  lemma ThreeWords(a: string, b: string, c: string)
    requires Wordlike(a) && Wordlike(b) && Wordlike(c)
    ensures Words(a + " " + b + " " + c) == [a, b, c]
  {
    OneWord(a);
    WordAfter(a, b);
    WordAfter(a + " " + b, c);
  }

  /** Only a field without a comma is one name, and then it is the field. */
  lemma {:induction false} OneName(field: string)
    ensures if ',' in field then |Names(field)| >= 2 else Names(field) == [field]
  {
    if field != "" {
      OneName(field[..|field| - 1]);
      assert field == field[..|field| - 1] + [field[|field| - 1]];
    }
  }

  lemma {:induction false} WordsAreWords(line: string)
    ensures forall i :: 0 <= i < |Words(line)| ==> Wordlike(Words(line)[i])
  {
    if line != "" {
      WordsAreWords(line[..|line| - 1]);
    }
  }

  lemma NoNewline(a: string, b: string, c: string)
    requires Wordlike(a) && Wordlike(b) && Wordlike(c)
    ensures '\n' !in a + " " + b + " " + c
  {
  }

  /** Three fields make the entry for the one host exactly when the first is that one name, and well formed if
      hashed. */
  lemma FieldsRead(fields: seq<string>, host: string, key: Key, lib: Lib)
    requires Faithful(lib, key) && fields == [host, key.name, lib.base64(key)]
    ensures ReadEntry(fields, lib) == Ok(Some(Entry([host], key)))
       <==> ',' !in host && (Starts(host, '|') ==> lib.wellHashed(host))
  {
    OneName(host);
    if ',' !in host {
      assert Names(host)[0] == host;
    }
  }

  /** What a line that holds one word for a host reads as: the entry for it exactly when the name is writable. */
  lemma LineReadsBackIff(store: Store, host: string, key: Key, lib: Lib)
    requires Wordlike(host) && Faithful(lib, key)
    ensures '\n' !in Line(host, key, lib)
    ensures AddLine(store, Line(host, key, lib), lib) == Ok(With(store, host, key)) <==> Writable(host, lib)
  {
    var fields := [host, key.name, lib.base64(key)];
    NoNewline(host, key.name, lib.base64(key));
    ThreeWords(host, key.name, lib.base64(key));
    FieldsRead(fields, host, key, lib);
    EntryAdded(store, fields, host, key, lib);
  }

  lemma EntryAdded(store: Store, fields: seq<string>, host: string, key: Key, lib: Lib)
    requires Wordlike(host) && fields == [host, key.name, lib.base64(key)] && Words(Line(host, key, lib)) == fields
    ensures AddLine(store, Line(host, key, lib), lib) == Ok(With(store, host, key))
       <==> host[0] !in ['#', '@'] && ReadEntry(fields, lib) == Ok(Some(Entry([host], key)))
  {
    var more := With(store, host, key);
    assert |more.entries| == |store.entries| + 1;
    if host[0] !in ['#', '@'] {
      match ReadEntry(fields, lib)
      case Ok(Some(entry)) =>
        assert (store.entries + [entry])[|store.entries|] == entry;
        assert more.entries[|store.entries|] == Entry([host], key);
      case _ =>
    }
  }

  lemma {:induction false} ReadPrefix(a: seq<string>, b: seq<string>, n: nat, lib: Lib)
    requires n <= |a| && n <= |b| && a[..n] == b[..n]
    ensures ReadLines(a, n, lib) == ReadLines(b, n, lib)
  {
    if n > 0 {
      assert a[..n][..n - 1] == a[..n - 1] && b[..n][..n - 1] == b[..n - 1];
      assert a[n - 1] == a[..n][n - 1] && b[n - 1] == b[..n][n - 1];
      ReadPrefix(a, b, n - 1, lib);
    }
  }

  lemma LineEnded(text: string)
    ensures Lines(text + "\n") == Lines(text) + [""]
  {
    assert (text + "\n")[..|text|] == text;
  }

  /** The lines of a file that an append leaves before its own. */
  function Kept(text: string): seq<string> {
    if Unended(text) then Lines(text) else Lines(text)[..|Lines(text)| - 1]
  }

  lemma UnendedAppended(text: string, line: string)
    requires Unended(text) && '\n' !in line
    ensures Lines(text + "\n" + line + "\n") == Kept(text) + [line] + [""]
  {
    LinesNext(text, line);
    LineEnded(text + "\n" + line);
  }

  lemma EndedAppended(text: string, line: string)
    requires text != "" && !Unended(text) && '\n' !in line
    ensures Lines(text + line + "\n") == Kept(text) + [line] + [""]
    ensures Lines(text) == Kept(text) + [""]
  {
    var shorter := text[..|text| - 1];
    assert text == shorter + "\n";
    LineEnded(shorter);
    LinesNext(shorter, line);
    LineEnded(text + line);
  }

  lemma EmptyAppended(text: string, line: string)
    requires text == "" && '\n' !in line
    ensures Lines(text + line + "\n") == Kept(text) + [line] + [""]
    ensures Lines(text) == Kept(text) + [""]
  {
    assert text + line == line;
    OneLine(line);
    LineEnded(line);
  }

  /** The lines of a file after an append, whether or not its last line was ended. */
  lemma LinesAppended(text: string, host: string, key: Key, lib: Lib)
    requires '\n' !in Line(host, key, lib)
    ensures Lines(text + Addition(text, host, key, lib)) == Kept(text) + [Line(host, key, lib)] + [""]
    ensures if Unended(text) then Lines(text) == Kept(text) else Lines(text) == Kept(text) + [""]
  {
    var line := Line(host, key, lib);
    if Unended(text) {
      UnendedAppended(text, line);
      Joined(text, "\n", line);
    } else {
      if text == "" {
        EmptyAppended(text, line);
      } else {
        EndedAppended(text, line);
      }
      Joined(text, "", line);
      assert text + "" == text;
    }
  }

  lemma Joined(text: string, prefix: string, line: string)
    ensures text + (prefix + line + "\n") == text + prefix + line + "\n"
  {
  }

  lemma ReadOneMore(kept: seq<string>, line: string, lib: Lib)
    requires ReadLines(kept, |kept|, lib).Ok?
    ensures ReadLines(kept + [line], |kept| + 1, lib)
         == match AddLine(ReadLines(kept, |kept|, lib).value, line, lib)
            case Err(_) => Err(|kept| + 1)
            case Ok(next) => Ok(next)
  {
    assert (kept + [line])[..|kept|] == kept[..|kept|];
    ReadPrefix(kept + [line], kept, |kept|, lib);
  }

  lemma ReadWithBlank(kept: seq<string>, lib: Lib)
    ensures ReadLines(kept + [""], |kept| + 1, lib) == ReadLines(kept, |kept|, lib)
  {
    assert (kept + [""])[..|kept|] == kept[..|kept|];
    ReadPrefix(kept + [""], kept, |kept|, lib);
  }

  /** A file whose last line was not ended parses the same with it ended: an append is read as one more line. */
  lemma ParseAppended(text: string, host: string, key: Key, lib: Lib)
    requires '\n' !in Line(host, key, lib) && Parse(text, lib).Ok?
    ensures Parse(text + Addition(text, host, key, lib), lib)
         == match AddLine(Parse(text, lib).value, Line(host, key, lib), lib)
            case Err(_) => Err(|Kept(text)| + 1)
            case Ok(next) => Ok(next)
  {
    var kept, line := Kept(text), Line(host, key, lib);
    LinesAppended(text, host, key, lib);
    if !Unended(text) {
      ReadWithBlank(kept, lib);
    }
    ReadOneMore(kept, line, lib);
    ReadWithBlank(kept + [line], lib);
  }

  /** An append keeps the old text as a prefix and adds exactly one entry to what the file parses to, even when the
      last line had no newline. */
  lemma AppendAddsOne(text: string, host: string, key: Key, lib: Lib)
    requires Writable(host, lib) && Faithful(lib, key) && Parse(text, lib).Ok?
    ensures text <= text + Addition(text, host, key, lib)
    ensures Parse(text + Addition(text, host, key, lib), lib) == Ok(With(Parse(text, lib).value, host, key))
  {
    LineReadsBackIff(Parse(text, lib).value, host, key, lib);
    ParseAppended(text, host, key, lib);
  }

  /** An entry for one name has a word for it. */
  ghost predicate OneWorded(store: Store) {
    forall i :: 0 <= i < |store.entries| && |store.entries[i].hosts| == 1 ==> Wordlike(store.entries[i].hosts[0])
  }

  lemma LineOneWorded(store: Store, raw: string, lib: Lib)
    requires OneWorded(store) && AddLine(store, raw, lib).Ok?
    ensures OneWorded(AddLine(store, raw, lib).value)
  {
    var fields := Words(raw);
    WordsAreWords(raw);
    if fields != [] {
      OneName(fields[0]);
    }
  }

  lemma {:induction false} ParsedOneWorded(lines: seq<string>, n: nat, lib: Lib)
    requires n <= |lines| && ReadLines(lines, n, lib).Ok?
    ensures OneWorded(ReadLines(lines, n, lib).value)
  {
    if n > 0 {
      ParsedOneWorded(lines, n - 1, lib);
      LineOneWorded(ReadLines(lines, n - 1, lib).value, lines[n - 1], lib);
    }
  }

  lemma ParsedIsWord(text: string, store: Store, host: string, key: Key, lib: Lib)
    requires Parse(text, lib) == Ok(With(store, host, key))
    ensures Wordlike(host)
  {
    ParsedOneWorded(Lines(text), |Lines(text)|, lib);
    assert With(store, host, key).entries[|store.entries|].hosts == [host];
  }

  /** Exactly when an append adds the one entry for the host and nothing else: the name is one word, holds no comma,
      begins neither a comment nor a marker, and is well formed if it is a hashed name. */
  lemma AppendAddsOneIff(text: string, host: string, key: Key, lib: Lib)
    requires Faithful(lib, key) && Parse(text, lib).Ok?
    ensures Parse(text + Addition(text, host, key, lib), lib) == Ok(With(Parse(text, lib).value, host, key))
       <==> Writable(host, lib)
  {
    var store, after := Parse(text, lib).value, text + Addition(text, host, key, lib);
    if Wordlike(host) {
      LineReadsBackIff(store, host, key, lib);
      ParseAppended(text, host, key, lib);
    } else if Parse(after, lib) == Ok(With(store, host, key)) {
      ParsedIsWord(after, store, host, key, lib);
    }
  }

  /** The store with one more pinned key. */
  function With(store: Store, host: string, key: Key): Store {
    store.(entries := store.entries + [Entry([host], key)])
  }

  /** A name that starts a comment is written and never read back, whatever the file held. */
  lemma CommentIsNotPinned(text: string, host: string, key: Key, lib: Lib)
    requires Wordlike(host) && host[0] == '#' && Faithful(lib, key) && Parse(text, lib).Ok?
    ensures Parse(text + Addition(text, host, key, lib), lib) == Parse(text, lib)
  {
    NoNewline(host, key.name, lib.base64(key));
    ThreeWords(host, key.name, lib.base64(key));
    ParseAppended(text, host, key, lib);
  }

  // ----- what an append does to a host's keys

  /** From one store to a later one: nothing is revoked or taken away, a host that had keys has the same ones, and
      one that had none has at most one. */
  ghost predicate Pins(a: Store, b: Store, lib: Lib) {
    b.revoked == a.revoked && a.entries <= b.entries && forall host :: PinsHost(a, b, host, lib)
  }

  predicate PinsHost(a: Store, b: Store, host: string, lib: Lib) {
    var before, after := KeysOf(a.entries, host, lib), KeysOf(b.entries, host, lib);
    if before == [] then |after| <= 1 else after == before
  }

  lemma PinsTogether(a: Store, b: Store, c: Store, lib: Lib)
    requires Pins(a, b, lib) && Pins(b, c, lib)
    ensures Pins(a, c, lib)
  {
    forall host ensures PinsHost(a, c, host, lib) {
      assert PinsHost(a, b, host, lib) && PinsHost(b, c, host, lib);
    }
  }

  lemma KeysWith(store: Store, host: string, key: Key, other: string, lib: Lib)
    requires OnlyItself(host, lib)
    ensures KeysOf(With(store, host, key).entries, other, lib)
         == KeysOf(store.entries, other, lib) + if other == host then [key] else []
  {
    var entries := With(store, host, key).entries;
    assert entries[..|entries| - 1] == store.entries;
    assert entries[|entries| - 1].hosts[0] == host;
  }

  lemma WithPins(store: Store, host: string, key: Key, lib: Lib)
    requires Nameable(host, lib) && Verify(store, host, key, lib) == UnknownHost
    ensures Pins(store, With(store, host, key), lib)
    ensures Verify(With(store, host, key), host, key, lib) == KnownKey
  {
    forall other ensures PinsHost(store, With(store, host, key), other, lib) {
      KeysWith(store, host, key, other, lib);
    }
    KeysWith(store, host, key, host, lib);
  }

  /** Once a host is known, what is said of its keys never changes. */
  lemma VerdictStays(a: Store, b: Store, host: string, key: Key, lib: Lib)
    requires Pins(a, b, lib) && KeysOf(a.entries, host, lib) != []
    ensures Verify(b, host, key, lib) == Verify(a, host, key, lib)
  {
    assert PinsHost(a, b, host, lib);
  }

  // ----- accepters interleaved

  datatype Phase = Waiting | Locked | HasRead(text: string) | Leaving(result: Accepted) | Over(result: Accepted)
  datatype Accepter = Accepter(host: string, key: Key, phase: Phase)
  datatype World = World(text: string, holder: Option<nat>, accepters: seq<Accepter>)

  function Enter(w: World, i: nat, phase: Phase): World
    requires i < |w.accepters|
  {
    w.(accepters := w.accepters[i := w.accepters[i].(phase := phase)])
  }

  /** Accepter i goes one step on: it waits for the lock, or gives up on it; it reads the file; it judges what it
      read and may append to whatever the file is then; it lets go. */
  function Step(w: World, i: nat, late: bool, lib: Lib): World {
    if i >= |w.accepters| then w
    else
      var me := w.accepters[i];
      match me.phase
      case Waiting =>
        if late then Enter(w, i, Over(TooLate)) else if w.holder.None? then Enter(w, i,
            Locked).(holder := Some(i)) else w
      case Locked => Enter(w, i, HasRead(w.text))
      case HasRead(text) =>
        var judged := Judge(text, me.host, me.key, late, lib);
        var left := Enter(w, i, Leaving(judged));
        if judged.Accepted? then left.(text := w.text + Addition(text, me.host, me.key, lib)) else left
      case Leaving(result) => Enter(w, i, Over(result)).(holder := None)
      case Over(_) => w
  }

  datatype Move = Move(accepter: nat, late: bool)

  function After(w: World, moves: seq<Move>, lib: Lib): World {
    if moves == [] then w
    else
      var last := moves[|moves| - 1];
      Step(After(w, moves[..|moves| - 1], lib), last.accepter, last.late, lib)
  }

  ghost predicate Fresh(w: World, lib: Lib) {
    w.holder.None? && forall i :: 0 <= i < |w.accepters| ==>
      w.accepters[i].phase.Waiting? && Nameable(w.accepters[i].host, lib) && Faithful(lib, w.accepters[i].key)
  }

  /** Only the lock's holder is between its lock and its unlock, and what it has read is what the file still holds.
      */
  ghost predicate Exclusive(w: World) {
    forall i :: 0 <= i < |w.accepters| ==>
      var phase := w.accepters[i].phase;
      && (phase.Locked? || phase.HasRead? || phase.Leaving? ==> w.holder == Some(i))
      && (phase.HasRead? ==> phase.text == w.text)
  }

  /** The accepters are still the ones that began. */
  ghost predicate Same(w0: World, w: World) {
    |w.accepters| == |w0.accepters| && forall i :: 0 <= i < |w.accepters| ==>
      w.accepters[i].host == w0.accepters[i].host && w.accepters[i].key == w0.accepters[i].key
  }

  predicate Succeeded(a: Accepter) {
    (a.phase.Leaving? || a.phase.Over?) && (a.phase.result.Accepted? || a.phase.result.AlreadyKnown?)
  }

  /** An accepter that succeeded finds its key pinned. */
  ghost predicate Pinned(w: World, lib: Lib) {
    forall i :: 0 <= i < |w.accepters| && Succeeded(w.accepters[i]) ==> PinnedFor(w.text, w.accepters[i], lib)
  }

  predicate PinnedFor(text: string, a: Accepter, lib: Lib) {
    Parse(text, lib).Ok? && Verify(Parse(text, lib).value, a.host, a.key, lib) == KnownKey
  }

  /** From one text to a later one; a file that cannot be read stays as it is. */
  ghost predicate Grew(before: string, after: string, lib: Lib) {
    && before <= after
    && match Parse(before, lib)
       case Err(_) => after == before
       case Ok(store) => Parse(after, lib).Ok? && Pins(store, Parse(after, lib).value, lib)
  }

  lemma GrewTogether(a: string, b: string, c: string, lib: Lib)
    requires Grew(a, b, lib) && Grew(b, c, lib)
    ensures Grew(a, c, lib)
  {
    if Parse(a, lib).Ok? {
      PinsTogether(Parse(a, lib).value, Parse(b, lib).value, Parse(c, lib).value, lib);
    }
  }

  lemma GrewNothing(text: string, lib: Lib)
    ensures Grew(text, text, lib)
  {
  }

  /** What one accepter's judgement does to the file it read. */
  lemma AcceptGrows(text: string, host: string, key: Key, late: bool, lib: Lib)
    requires Nameable(host, lib) && Faithful(lib, key)
    ensures var (after, result) := Accept(text, host, key, late, lib);
            Grew(text, after, lib) && (result.Accepted? || result.AlreadyKnown?
                ==> PinnedFor(after, Accepter(host, key, Leaving(result)), lib))
  {
    var result := Judge(text, host, key, late, lib);
    if result.Accepted? {
      AppendAddsOne(text, host, key, lib);
      WithPins(Parse(text, lib).value, host, key, lib);
    }
  }

  lemma PinnedStays(before: string, after: string, a: Accepter, lib: Lib)
    requires Grew(before, after, lib) && PinnedFor(before, a, lib)
    ensures PinnedFor(after, a, lib)
  {
    VerdictStays(Parse(before, lib).value, Parse(after, lib).value, a.host, a.key, lib);
  }

  lemma StepExclusive(w: World, i: nat, late: bool, lib: Lib)
    requires Exclusive(w)
    ensures Exclusive(Step(w, i, late, lib)) && Same(w, Step(w, i, late, lib))
  {
  }

  /** A step that touches the file is a whole accept on what the file holds. */
  lemma StepIsAccept(w: World, i: nat, late: bool, lib: Lib)
    requires Exclusive(w)
    ensures var after := Step(w, i, late, lib);
            if i < |w.accepters| && w.accepters[i].phase.HasRead? then
              var (text, result) := Accept(w.text, w.accepters[i].host, w.accepters[i].key, late, lib);
              after.text == text && after.accepters[i].phase == Leaving(result)
            else after.text == w.text
  {
  }

  lemma StepPins(w: World, i: nat, late: bool, lib: Lib)
    requires Exclusive(w) && Pinned(w, lib)
    requires forall k :: 0 <= k < |w.accepters| ==>
      Nameable(w.accepters[k].host, lib) && Faithful(lib, w.accepters[k].key)
    ensures Grew(w.text, Step(w, i, late, lib).text, lib) && Pinned(Step(w, i, late, lib), lib)
  {
    var after := Step(w, i, late, lib);
    StepIsAccept(w, i, late, lib);
    if i < |w.accepters| && w.accepters[i].phase.HasRead? {
      AcceptGrows(w.text, w.accepters[i].host, w.accepters[i].key, late, lib);
    } else {
      GrewNothing(w.text, lib);
    }
    forall k | 0 <= k < |after.accepters| && Succeeded(after.accepters[k])
        ensures PinnedFor(after.text, after.accepters[k], lib) {
      if k != i || !w.accepters[i].phase.HasRead? {
        PinnedStays(w.text, after.text, w.accepters[k], lib);
      }
    }
  }

  lemma {:induction false} RunPins(w: World, moves: seq<Move>, lib: Lib)
    requires Fresh(w, lib)
    ensures var end := After(w, moves, lib);
            Exclusive(end) && Same(w, end) && Pinned(end, lib) && Grew(w.text, end.text, lib)
  {
    if moves == [] {
      GrewNothing(w.text, lib);
    } else {
      var last := moves[|moves| - 1];
      var before := After(w, moves[..|moves| - 1], lib);
      RunPins(w, moves[..|moves| - 1], lib);
      StepExclusive(before, last.accepter, last.late, lib);
      StepPins(before, last.accepter, last.late, lib);
      GrewTogether(w.text, before.text, Step(before, last.accepter, last.late, lib).text, lib);
    }
  }

  /** Accepters that succeed for a host not known before agree on its key, in every interleaving: a host never gains
      a second, different key. */
  lemma AgreeOnKey(w: World, moves: seq<Move>, i: nat, j: nat, lib: Lib)
    requires Fresh(w, lib) && i < |w.accepters| && j < |w.accepters| && w.accepters[i].host == w.accepters[j].host
    requires Parse(w.text, lib).Ok? && KeysOf(Parse(w.text, lib).value.entries, w.accepters[i].host, lib) == []
    requires var end := After(w, moves, lib).accepters;
             i < |end| && j < |end| && Succeeded(end[i]) && Succeeded(end[j])
    ensures w.accepters[i].key == w.accepters[j].key
  {
    var end, host := After(w, moves, lib), w.accepters[i].host;
    RunPins(w, moves, lib);
    var store := Parse(end.text, lib).value;
    assert PinnedFor(end.text, end.accepters[i], lib) && PinnedFor(end.text, end.accepters[j], lib);
    assert PinsHost(Parse(w.text, lib).value, store, host, lib);
    OnlyKey(store, host, end.accepters[i].key, lib);
    OnlyKey(store, host, end.accepters[j].key, lib);
  }

  lemma OnlyKey(store: Store, host: string, key: Key, lib: Lib)
    requires |KeysOf(store.entries, host, lib)| <= 1 && Verify(store, host, key, lib) == KnownKey
    ensures KeysOf(store.entries, host, lib) == [key]
  {
    var keys := KeysOf(store.entries, host, lib);
    assert keys[1..] == [];
    assert First(keys[1..], key.name) == None;
  }
}
