/** The known_hosts file: how its text is read, and how a new key is accepted into it. */
module KnownHosts {
  import opened Wrappers
  import Text

  /** A public key: its algorithm name and its bytes. */
  datatype Key = Key(name: string, bytes: string)

  /** What the SSH library makes of an algorithm and a base64 blob: an error, nothing it supports, or a key. */
  datatype Blob = Malformed | Unsupported | Held(key: Key)

  /** The library: blobs to keys, keys to base64, and hashed host names. */
  datatype Lib = Lib(read: (string, string) -> Blob, base64: Key -> string, wellHashed: string -> bool,
                     hashed: (string, string) -> bool)

  datatype Entry = Entry(hosts: seq<string>, key: Key)
  datatype Store = Store(entries: seq<Entry>, revoked: set<string>)
  const EMPTY := Store([], {})

  // ----- text

  /** The text split at its newlines. */
  function Lines(text: string): (r: seq<string>)
    ensures r != []
  {
    if text == "" then [""]
    else
      var init, last := Lines(text[..|text| - 1]), text[|text| - 1];
      if last == '\n' then init + [""] else init[..|init| - 1] + [init[|init| - 1] + [last]]
  }

  /** A line's words, as str.split() gives them. */
  function Words(line: string): (r: seq<string>)
    ensures line != "" && !Text.IsSpace(line[|line| - 1]) ==> r != []
  {
    if line == "" then []
    else
      var n := |line| - 1;
      var init, last := Words(line[..n]), line[n];
      if Text.IsSpace(last) then init
      else if n == 0 || Text.IsSpace(line[n - 1]) then init + [[last]]
      else init[..|init| - 1] + [init[|init| - 1] + [last]]
  }

  predicate Wordlike(s: string) {
    s != "" && forall i :: 0 <= i < |s| ==> !Text.IsSpace(s[i])
  }

  /** A name field split at its commas. */
  function Names(field: string): (r: seq<string>)
    ensures r != []
  {
    if field == "" then [""]
    else
      var init, last := Names(field[..|field| - 1]), field[|field| - 1];
      if last == ',' then init + [""] else init[..|init| - 1] + [init[|init| - 1] + [last]]
  }

  // ----- reading

  predicate Starts(s: string, c: char) {
    s != "" && s[0] == c
  }

  /** The entry three fields make. */
  function ReadEntry(fields: seq<string>, lib: Lib): Result<Option<Entry>, ()> {
    if |fields| < 3 then Err(())
    else
      var hosts := Names(fields[0]);
      if exists i :: 0 <= i < |hosts| && Starts(hosts[i], '|') && !lib.wellHashed(hosts[i]) then Err(())
      else
        match lib.read(fields[1], fields[2])
        case Malformed => Err(())
        case Unsupported => Ok(None)
        case Held(key) => Ok(Some(Entry(hosts, key)))
  }

  const REVOKED := "@revoked"

  /** One more line: a bad line is passed over, a bad revocation is an error. */
  function AddLine(store: Store, raw: string, lib: Lib): Result<Store, ()> {
    var fields := Words(raw);
    if fields == [] || Starts(fields[0], '#') then Ok(store)
    else
      var marked := Starts(fields[0], '@');
      if marked && fields[0] != REVOKED then Ok(store)
      else
        match ReadEntry(if marked then fields[1..] else fields, lib)
        case Err(_) => if marked then Err(()) else Ok(store)
        case Ok(None) => Ok(store)
        case Ok(Some(entry)) =>
          Ok(if marked then store.(revoked := store.revoked + {entry.key.bytes})
             else store.(entries := store.entries + [entry]))
  }

  /** The store the first n lines make, or the number of the bad line. */
  function ReadLines(lines: seq<string>, n: nat, lib: Lib): Result<Store, nat>
    requires n <= |lines|
  {
    if n == 0 then Ok(EMPTY)
    else
      match ReadLines(lines, n - 1, lib)
      case Err(number) => Err(number)
      case Ok(store) =>
        match AddLine(store, lines[n - 1], lib)
        case Err(_) => Err(n)
        case Ok(next) => Ok(next)
  }

  function Parse(text: string, lib: Lib): Result<Store, nat> {
    ReadLines(Lines(text), |Lines(text)|, lib)
  }

  // ----- checking and accepting

  predicate Matches(pattern: string, host: string, lib: Lib) {
    pattern == host || (Starts(pattern, '|') && !Starts(host, '|') && lib.hashed(pattern, host))
  }

  predicate For(entry: Entry, host: string, lib: Lib) {
    exists i :: 0 <= i < |entry.hosts| && Matches(entry.hosts[i], host, lib)
  }

  /** The keys a store has for a host, in order. */
  function KeysOf(entries: seq<Entry>, host: string, lib: Lib): seq<Key> {
    if entries == [] then []
    else
      var last := entries[|entries| - 1];
      KeysOf(entries[..|entries| - 1], host, lib) + if For(last, host, lib) then [last.key] else []
  }

  /** The first key of an algorithm. */
  function First(keys: seq<Key>, name: string): Option<Key> {
    if keys == [] then None else if keys[0].name == name then Some(keys[0]) else First(keys[1..], name)
  }

  datatype Verdict = RevokedKey | DifferentKey | UnknownHost | KnownKey

  function Verify(store: Store, host: string, key: Key, lib: Lib): Verdict {
    if key.bytes in store.revoked then RevokedKey
    else
      var keys := KeysOf(store.entries, host, lib);
      if keys == [] then UnknownHost else if First(keys, key.name) == Some(key) then KnownKey else DifferentKey
  }

  predicate Unended(text: string) {
    text != "" && text[|text| - 1] != '\n'
  }

  function Line(host: string, key: Key, lib: Lib): string {
    host + " " + key.name + " " + lib.base64(key)
  }

  /** What the accepter adds to a file that reads `text`. */
  function Addition(text: string, host: string, key: Key, lib: Lib): string {
    (if Unended(text) then "\n" else "") + Line(host, key, lib) + "\n"
  }

  datatype Accepted = Accepted | AlreadyKnown | Conflict | Revoked | Unreadable(line: nat) | TooLate

  function Judge(text: string, host: string, key: Key, late: bool, lib: Lib): Accepted {
    match Parse(text, lib)
    case Err(number) => Unreadable(number)
    case Ok(store) =>
      match Verify(store, host, key, lib)
      case RevokedKey => Revoked
      case DifferentKey => Conflict
      case KnownKey => AlreadyKnown
      case UnknownHost => if late then TooLate else Accepted
  }

  /** A whole accept: the file's text after it, and what came of it. */
  function Accept(text: string, host: string, key: Key, late: bool, lib: Lib): (string, Accepted) {
    var judged := Judge(text, host, key, late, lib);
    (if judged.Accepted? then text + Addition(text, host, key, lib) else text, judged)
  }

  // ----- the file as the accepter works on it

  method ParseKeys(text: string, lib: Lib) returns (r: Result<Store, nat>)
    ensures r == Parse(text, lib)
  {
    var entries: seq<Entry> := [];
    var revoked: set<string> := {};
    var lines := Lines(text);
    for n := 0 to |lines|
      invariant ReadLines(lines, n, lib) == Ok(Store(entries, revoked))
    {
      var fields := Words(lines[n]);
      if fields == [] || Starts(fields[0], '#') {
        continue;
      }
      var marked := Starts(fields[0], '@');
      if marked {
        if fields[0] != REVOKED {
          continue;
        }
        fields := fields[1..];
      }
      match ReadEntry(fields, lib) {
        case Err(_) =>
          if marked {
            ErrorStays(lines, n + 1, |lines|, lib);
            return Err(n + 1);
          }
        case Ok(None) =>
        case Ok(Some(entry)) =>
          if marked {
            revoked := revoked + {entry.key.bytes};
          } else {
            entries := entries + [entry];
          }
      }
    }
    r := Ok(Store(entries, revoked));
  }

  lemma {:induction false} ErrorStays(lines: seq<string>, n: nat, m: nat, lib: Lib)
    requires n <= m <= |lines| && ReadLines(lines, n, lib).Err?
    ensures ReadLines(lines, m, lib) == ReadLines(lines, n, lib)
  {
    if n < m {
      ErrorStays(lines, n, m - 1, lib);
    }
  }

  class HostFile {
    const lib: Lib
    var text: string

    constructor (lib: Lib, text: string)
      ensures this.lib == lib && this.text == text
    {
      this.lib, this.text := lib, text;
    }

    method AcceptKey(host: string, key: Key, late: bool) returns (r: Accepted)
      modifies this`text
      ensures (text, r) == Accept(old(text), host, key, late, lib)
    {
      var parsed := ParseKeys(text, lib);
      if parsed.Err? {
        return Unreadable(parsed.error);
      }
      match Verify(parsed.value, host, key, lib) {
        case RevokedKey => return Revoked;
        case DifferentKey => return Conflict;
        case KnownKey => return AlreadyKnown;
        case UnknownHost =>
      }
      if late {
        return TooLate;
      }
      var prefix := if Unended(text) then "\n" else "";
      text := text + (prefix + (host + " " + key.name + " " + lib.base64(key)) + "\n");
      r := Accepted;
    }
  }
}
