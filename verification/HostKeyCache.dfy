/** The NETCONF transport's cache of known_hosts keys, and the mappings its sessions change. */
module HostKeyCache {
  import opened Wrappers
  import opened KnownHosts
  import JD = JunosDialect

  type Path = nat

  /** A host pattern, plain or hashed, and its key. */
  datatype Pinned = Pinned(pattern: string, key: Key)
  datatype Snapshot = Snapshot(entries: seq<Pinned>, revoked: set<string>)
  datatype Where = Where(path: Path, host: string, port: nat)

  /** A host's keys, by algorithm. */
  type Keys = map<string, Key>

  /** What a read of the file gives, the file being missing, readable or bad. */
  type Read = Result<Snapshot, ()>

  datatype Cache = Cache(snapshots: map<Path, Snapshot>, resolved: map<Where, map<string, Keys>>)

  function Bracketed(host: string, port: nat): string {
    "[" + host + "]:" + JD.Decimal(port)
  }

  /** The keys a snapshot has for a name: the first of each algorithm. */
  function Resolve(entries: seq<Pinned>, name: string, lib: Lib): Keys {
    if entries == [] then map[]
    else
      var before, last := Resolve(entries[..|entries| - 1], name, lib), entries[|entries| - 1];
      if Matches(last.pattern, name, lib) && last.key.name !in before then before[last.key.name := last.key] else before
  }

  function Both(snapshot: Snapshot, where: Where, lib: Lib): map<string, Keys> {
    map[where.host := Resolve(snapshot.entries, where.host, lib),
        Bracketed(where.host, where.port) := Resolve(snapshot.entries, Bracketed(where.host, where.port), lib)]
  }

  /** A lookup: the file is read only when it is not cached, and resolved only when that is not. */
  function KnownKeys(c: Cache, where: Where, read: Read, lib: Lib): (Cache, Result<map<string, Keys>, ()>) {
    if where.path !in c.snapshots && read.Err? then (c, Err(()))
    else
      var snapshots := if where.path in c.snapshots then c.snapshots else c.snapshots[where.path := read.value];
      var resolved := if where in c.resolved then c.resolved
                      else c.resolved[where := Both(snapshots[where.path], where, lib)];
      (Cache(snapshots, resolved), Ok(resolved[where]))
  }

  function Forget(c: Cache, path: Path): Cache {
    Cache(c.snapshots - {path}, map w | w in c.resolved && w.path != path :: c.resolved[w])
  }

  /** Whether a resolved mapping has any key. */
  predicate AnyKey(both: map<string, Keys>) {
    exists name :: name in both && both[name] != map[]
  }

  /** Whether an accepter that reads `before` appends the key: it is not revoked, and the host has none. */
  predicate Appends(where: Where, key: Key, before: Read, lib: Lib) {
    before.Ok? && key.bytes !in before.value.revoked && !AnyKey(Both(before.value, where, lib))
  }

  /** Accepting a key under the file's lock: the file is read anew, and read again once the key is appended. */
  function AcceptNew(c: Cache, where: Where, key: Key, before: Read, after: Read, lib: Lib): Cache {
    var (first, told) := KnownKeys(Forget(c, where.path), where, before, lib);
    if told.Err? || key.bytes in first.snapshots[where.path].revoked || AnyKey(told.value) then first
    else KnownKeys(Forget(first, where.path), where, after, lib).0
  }

  // ----- the cache agrees with the snapshots it holds

  ghost predicate Agrees(c: Cache, lib: Lib) {
    forall w :: w in c.resolved ==> w.path in c.snapshots && c.resolved[w] == Both(c.snapshots[w.path], w, lib)
  }

  datatype Move =
    | Look(where: Where, read: Read)
    | Drop(path: Path)
    | Accept(where: Where, key: Key, before: Read, after: Read)

  function Next(c: Cache, move: Move, lib: Lib): Cache {
    match move
    case Look(where, read) => KnownKeys(c, where, read, lib).0
    case Drop(path) => Forget(c, path)
    case Accept(where, key, before, after) => AcceptNew(c, where, key, before, after, lib)
  }

  function After(c: Cache, moves: seq<Move>, lib: Lib): Cache {
    if moves == [] then c else Next(After(c, moves[..|moves| - 1], lib), moves[|moves| - 1], lib)
  }

  lemma LookAgrees(c: Cache, where: Where, read: Read, lib: Lib)
    requires Agrees(c, lib)
    ensures var (after, told) := KnownKeys(c, where, read, lib);
            && Agrees(after, lib)
            && (told.Ok? ==>
                  where.path in after.snapshots && told.value == Both(after.snapshots[where.path], where, lib))
            && (told.Ok? && where.path !in c.snapshots ==> Ok(after.snapshots[where.path]) == read)
  {
  }

  lemma ForgetAgrees(c: Cache, path: Path, lib: Lib)
    requires Agrees(c, lib)
    ensures Agrees(Forget(c, path), lib) && path !in Forget(c, path).snapshots
  {
  }

  /** After an accept the cache agrees and holds the file exactly as it was last read under the lock: after the
      append when the key was appended, else before it. */
  lemma AcceptAgrees(c: Cache, where: Where, key: Key, before: Read, after: Read, lib: Lib)
    requires Agrees(c, lib)
    ensures var end := AcceptNew(c, where, key, before, after, lib);
            var last := if Appends(where, key, before, lib) then after else before;
            && Agrees(end, lib)
            && (where.path in end.snapshots <==> last.Ok?)
            && (last.Ok? ==> end.snapshots[where.path] == last.value)
            && (forall path :: path != where.path ==>
                  (path in end.snapshots <==> path in c.snapshots)
                  && (path in c.snapshots ==> end.snapshots[path] == c.snapshots[path]))
  {
    ForgetAgrees(c, where.path, lib);
    LookAgrees(Forget(c, where.path), where, before, lib);
    var (first, told) := KnownKeys(Forget(c, where.path), where, before, lib);
    ForgetAgrees(first, where.path, lib);
    LookAgrees(Forget(first, where.path), where, after, lib);
  }

  lemma {:induction false} RunAgrees(c: Cache, moves: seq<Move>, lib: Lib)
    requires Agrees(c, lib)
    ensures Agrees(After(c, moves, lib), lib)
  {
    if moves != [] {
      var shorter, last := moves[..|moves| - 1], moves[|moves| - 1];
      RunAgrees(c, shorter, lib);
      var before := After(c, shorter, lib);
      match last
      case Look(where, read) => LookAgrees(before, where, read, lib);
      case Drop(path) => ForgetAgrees(before, path, lib);
      case Accept(where, key, was, now) => AcceptAgrees(before, where, key, was, now, lib);
    }
  }

  /** The cache agrees: after any lookups, forgets and accepts, a lookup answers what resolving the held snapshot
      gives. */
  lemma CacheAgrees(moves: seq<Move>, where: Where, read: Read, lib: Lib)
    ensures var (after, told) := KnownKeys(After(Cache(map[], map[]), moves, lib), where, read, lib);
            told.Ok? ==> where.path in after.snapshots && told.value == Both(after.snapshots[where.path], where, lib)
  {
    RunAgrees(Cache(map[], map[]), moves, lib);
    LookAgrees(After(Cache(map[], map[]), moves, lib), where, read, lib);
  }

  lemma HeadsLonger(entries: seq<Pinned>, n: nat, name: string, algorithm: string, i: int, lib: Lib)
    requires n <= |entries| && Heads(entries[..n], name, algorithm, i, lib)
    ensures Heads(entries, name, algorithm, i, lib) && entries[i] == entries[..n][i]
  {
    assert forall j :: 0 <= j < n ==> entries[j] == entries[..n][j];
  }

  ghost predicate FirstIs(entries: seq<Pinned>, name: string, algorithm: string, key: Key, lib: Lib) {
    exists i :: Heads(entries, name, algorithm, i, lib) && key == entries[i].key
  }

  ghost predicate NoHit(entries: seq<Pinned>, name: string, algorithm: string, lib: Lib) {
    forall i :: 0 <= i < |entries| ==> !Hits(entries[i], name, algorithm, lib)
  }

  /** Resolving keeps, for each algorithm, exactly the first matching key. */
  lemma {:induction false} ResolveIsFirst(entries: seq<Pinned>, name: string, algorithm: string, lib: Lib)
    ensures var keys := Resolve(entries, name, lib);
            if algorithm in keys then FirstIs(entries, name, algorithm, keys[algorithm], lib)
            else NoHit(entries, name, algorithm, lib)
  {
    if entries != [] {
      var n := |entries| - 1;
      ResolveIsFirst(entries[..n], name, algorithm, lib);
      var before := Resolve(entries[..n], name, lib);
      if algorithm in before {
        var i :| Heads(entries[..n], name, algorithm, i, lib) && before[algorithm] == entries[..n][i].key;
        HeadsLonger(entries, n, name, algorithm, i, lib);
      } else {
        assert forall i :: 0 <= i < n ==> entries[i] == entries[..n][i];
        if Hits(entries[n], name, algorithm, lib) {
          assert Heads(entries, name, algorithm, n, lib);
        }
      }
    }
  }

  predicate Hits(entry: Pinned, name: string, algorithm: string, lib: Lib) {
    entry.key.name == algorithm && Matches(entry.pattern, name, lib)
  }

  predicate Heads(entries: seq<Pinned>, name: string, algorithm: string, i: int, lib: Lib) {
    0 <= i < |entries| && Hits(entries[i], name, algorithm, lib)
    && forall j :: 0 <= j < i ==> !Hits(entries[j], name, algorithm, lib)
  }

  // ----- the mappings as objects

  /** A dictionary of keys that whoever holds it may change. */
  class KeyTable {
    var keys: Keys

    constructor (keys: Keys)
      ensures this.keys == keys
    {
      this.keys := keys;
    }
  }

  ghost function Values(tables: map<string, KeyTable>): map<string, Keys>
    reads tables.Values
  {
    map name | name in tables :: tables[name].keys
  }

  ghost function Told(tables: Result<map<string, KeyTable>, ()>): Result<map<string, Keys>, ()>
    reads if tables.Ok? then tables.value.Values else {}
  {
    if tables.Ok? then Ok(Values(tables.value)) else Err(())
  }

  /** The dictionaries a table of mappings holds. */
  ghost function TablesOf(resolved: map<Where, map<string, KeyTable>>): set<KeyTable> {
    set w, name | w in resolved && name in resolved[w] :: resolved[w][name]
  }

  lemma HeldThere(resolved: map<Where, map<string, KeyTable>>, where: Where)
    requires where in resolved
    ensures resolved[where].Values <= TablesOf(resolved)
  {
    forall t | t in resolved[where].Values ensures t in TablesOf(resolved) {
      var name :| name in resolved[where] && resolved[where][name] == t;
    }
  }

  lemma TablesWith(resolved: map<Where, map<string, KeyTable>>, where: Where, tables: map<string, KeyTable>)
    requires where !in resolved
    ensures TablesOf(resolved[where := tables]) == TablesOf(resolved) + tables.Values
  {
    var next := resolved[where := tables];
    HeldThere(next, where);
    forall t | t in TablesOf(resolved) ensures t in TablesOf(next) {
      var w, name :| w in resolved && name in resolved[w] && resolved[w][name] == t;
      assert next[w][name] == t;
    }
    forall t | t in TablesOf(next) ensures t in TablesOf(resolved) + tables.Values {
      var w, name :| w in next && name in next[w] && next[w][name] == t;
      if w != where {
        assert resolved[w][name] == t;
      }
    }
  }

  class SharedCache {
    const lib: Lib
    var snapshots: map<Path, Snapshot>
    var resolved: map<Where, map<string, KeyTable>>

    ghost function Tables(): set<KeyTable>
      reads this
    {
      TablesOf(resolved)
    }

    ghost function View(): Cache
      reads this, Tables()
    {
      Cache(snapshots, map w | w in resolved :: Values(resolved[w]))
    }

    constructor (lib: Lib)
      ensures this.lib == lib && View() == Cache(map[], map[]) && Tables() == {}
    {
      this.lib, snapshots, resolved := lib, map[], map[];
    }

    method Resolved(entries: seq<Pinned>, name: string) returns (keys: Keys)
      ensures keys == Resolve(entries, name, lib)
    {
      keys := map[];
      for i := 0 to |entries|
        invariant keys == Resolve(entries[..i], name, lib)
      {
        assert entries[..i + 1][..i] == entries[..i];
        var entry := entries[i];
        if Matches(entry.pattern, name, lib) && entry.key.name !in keys {
          keys := keys[entry.key.name := entry.key];
        }
      }
      assert entries[..|entries|] == entries;
    }

    /** Both mappings of a snapshot, as new dictionaries. */
    method Dictionaries(snapshot: Snapshot, where: Where) returns (tables: map<string, KeyTable>)
      ensures fresh(tables.Values) && Values(tables) == Both(snapshot, where, lib)
    {
      var bracketed := Bracketed(where.host, where.port);
      var plain := Resolved(snapshot.entries, where.host);
      var ported := Resolved(snapshot.entries, bracketed);
      var first := new KeyTable(plain);
      var second := new KeyTable(ported);
      tables := map[where.host := first, bracketed := second];
    }

    method Add(where: Where, tables: map<string, KeyTable>)
      requires where !in resolved
      modifies this`resolved
      ensures resolved == old(resolved)[where := tables] && Tables() == old(Tables()) + tables.Values
      ensures View() == old(View()).(resolved := old(View()).resolved[where := Values(tables)])
    {
      TablesWith(resolved, where, tables);
      resolved := resolved[where := tables];
    }

    /** The path's snapshot, read if it is not cached. */
    method Load(path: Path, read: Read) returns (ok: bool)
      modifies this`snapshots
      ensures ok == (path in old(snapshots) || read.Ok?)
      ensures View() == old(View()).(snapshots :=
                if path !in old(snapshots) && read.Ok? then old(snapshots)[path := read.value] else old(snapshots))
    {
      if path !in snapshots {
        if read.Err? {
          return false;
        }
        snapshots := snapshots[path := read.value];
      }
      ok := true;
    }

    /** The mappings for a cached path, resolved if they are not. */
    method Settle(where: Where) returns (tables: map<string, KeyTable>)
      requires where.path in snapshots
      modifies this`resolved
      ensures fresh(Tables() - old(Tables())) && old(Tables()) <= Tables()
      ensures where in resolved && tables == resolved[where]
      ensures View() == old(View()).(resolved :=
                if where in old(resolved) then old(View()).resolved
                else old(View()).resolved[where := Both(snapshots[where.path], where, lib)])
    {
      if where !in resolved {
        var dictionaries := Dictionaries(snapshots[where.path], where);
        Add(where, dictionaries);
      }
      tables := resolved[where];
    }

    method Lookup(where: Where, read: Read) returns (told: Result<map<string, KeyTable>, ()>)
      modifies this
      ensures fresh(Tables() - old(Tables())) && old(Tables()) <= Tables()
      ensures told.Ok? ==> told.value.Values <= Tables()
      ensures View() == KnownKeys(old(View()), where, read, lib).0
      ensures Told(told) == KnownKeys(old(View()), where, read, lib).1
    {
      var ok := Load(where.path, read);
      if !ok {
        return Err(());
      }
      var tables := Settle(where);
      HeldThere(resolved, where);
      assert Values(tables) == View().resolved[where];
      told := Ok(tables);
    }

    /** What the file resolves to now, whatever was cached of it. */
    method Reread(where: Where, read: Read) returns (told: Result<map<string, KeyTable>, ()>)
      modifies this
      ensures fresh(Tables() - old(Tables()))
      ensures told.Ok? ==> where.path in snapshots
      ensures View() == KnownKeys(Forget(old(View()), where.path), where, read, lib).0
      ensures Told(told) == KnownKeys(Forget(old(View()), where.path), where, read, lib).1
    {
      ForgetPath(where.path);
      told := Lookup(where, read);
    }

    method AnyHeld(tables: map<string, KeyTable>) returns (any: bool)
      ensures any == AnyKey(Values(tables))
    {
      any := exists name :: name in tables && tables[name].keys != map[];
      if any {
        var name :| name in tables && tables[name].keys != map[];
        assert name in Values(tables) && Values(tables)[name] != map[];
      } else {
        forall name | name in Values(tables) ensures Values(tables)[name] == map[] {
          assert name in tables;
        }
      }
    }

    /** Whether the file as just read leaves the key to be appended. */
    method Unknown(where: Where, key: Key, told: Result<map<string, KeyTable>, ()>) returns (appends: bool)
      requires told.Ok? ==> where.path in snapshots
      ensures appends == (told.Ok? && key.bytes !in View().snapshots[where.path].revoked && !AnyKey(Told(told).value))
    {
      if told.Err? || key.bytes in snapshots[where.path].revoked {
        return false;
      }
      var known := AnyHeld(told.value);
      appends := !known;
    }

    /** Accepting a key; `before` and `after` are what the reads under the lock give. */
    method AcceptKey(where: Where, key: Key, before: Read, after: Read)
      modifies this
      ensures fresh(Tables() - old(Tables()))
      ensures View() == AcceptNew(old(View()), where, key, before, after, lib)
    {
      var told := Reread(where, before);
      var appends := Unknown(where, key, told);
      if appends {
        var again := Reread(where, after);
      }
    }

    method ForgetPath(path: Path)
      modifies this
      ensures Tables() <= old(Tables()) && View() == Forget(old(View()), path)
    {
      snapshots := snapshots - {path};
      resolved := map w | w in resolved && w.path != path :: resolved[w];
    }
  }

  // ----- a session's own mappings

  /** Where the last "]:" of a name is. */
  function LastClose(name: string, n: nat): Option<nat>
    requires n <= |name|
    ensures LastClose(name, n).Some? ==> LastClose(name, n).value + 2 <= n && name[LastClose(name, n).value] == ']'
  {
    if n < 2 then None
    else if name[n - 2] == ']' && name[n - 1] == ':' then Some(n - 2)
    else LastClose(name, n - 1)
  }

  /** The host a lookup name is for. */
  function HostOf(name: string): string {
    if Starts(name, '[') && LastClose(name, |name|).Some? then name[1..LastClose(name, |name|).value] else name
  }

  lemma {:induction false} LastCloseAt(name: string, n: nat, k: nat)
    requires k + 2 <= n <= |name| && name[k] == ']' && name[k + 1] == ':'
    requires forall i :: k + 2 <= i < |name| ==> name[i] != ':'
    ensures LastClose(name, n) == Some(k)
  {
    if n > k + 2 {
      LastCloseAt(name, n - 1, k);
    }
  }

  /** A host is found again in its name with a port. */
  lemma HostRoundTrip(host: string, port: nat)
    ensures HostOf(Bracketed(host, port)) == host
  {
    var name, digits := Bracketed(host, port), JD.Decimal(port);
    JD.DecimalPlain(port);
    var k := |host| + 1;
    assert name == ("[" + host) + ("]:" + digits);
    assert forall i :: k + 2 <= i < |name| ==> name[i] == digits[i - k - 2];
    LastCloseAt(name, |name|, k);
    assert name[1..k] == host;
  }

  /** A session's lookup: its own copies of what the cache resolves, kept from then on; an empty mapping is none. */
  function SessionLookup(c: Cache, own: map<string, Keys>, path: Path, port: nat, name: string, read: Read, lib: Lib)
    : (Cache, map<string, Keys>, Result<Option<Keys>, ()>)
  {
    if name in own then (c, own, Ok(Given(own, name)))
    else
      var (after, told) := KnownKeys(c, Where(path, HostOf(name), port), read, lib);
      if told.Err? then (after, own, Err(())) else (after, own + told.value, Ok(Given(own + told.value, name)))
  }

  function Given(own: map<string, Keys>, name: string): Option<Keys> {
    if name in own && own[name] != map[] then Some(own[name]) else None
  }

  method Copy(tables: map<string, KeyTable>) returns (copies: map<string, KeyTable>)
    ensures fresh(copies.Values) && Values(copies) == old(Values(tables))
    ensures forall a, b :: a in copies && b in copies && a != b ==> copies[a] != copies[b]
  {
    copies := map[];
    var names := tables.Keys;
    while names != {}
      invariant names <= tables.Keys && copies.Keys == tables.Keys - names
      invariant forall name :: name in copies ==> fresh(copies[name]) && copies[name].keys == tables[name].keys
      invariant forall a, b :: a in copies && b in copies && a != b ==> copies[a] != copies[b]
    {
      var name :| name in names;
      var copied := new KeyTable(tables[name].keys);
      copies := copies[name := copied];
      names := names - {name};
    }
  }

  class SessionKeys {
    const path: Path
    const port: nat
    var keys: map<string, KeyTable>

    ghost function View(): map<string, Keys>
      reads this, keys.Values
    {
      Values(keys)
    }

    constructor (path: Path, port: nat)
      ensures this.path == path && this.port == port && keys == map[]
    {
      this.path, this.port, keys := path, port, map[];
    }

    /** Apart from the shared cache: neither holds a dictionary of the other. */
    ghost predicate Apart(cache: SharedCache)
      reads this, cache
    {
      keys.Values !! cache.Tables()
    }

    /** No two names share a dictionary. */
    ghost predicate OneEach()
      reads this
    {
      forall a, b :: a in keys && b in keys && a != b ==> keys[a] != keys[b]
    }

    /** Copies of the given mappings, in place of any of the same names. */
    method Keep(tables: map<string, KeyTable>)
      modifies this`keys
      ensures fresh(keys.Values - old(keys.Values)) && View() == old(View()) + old(Values(tables))
      ensures old(OneEach()) ==> OneEach()
    {
      var copies := Copy(tables);
      Together(keys, copies);
      if OneEach() {
        OneEachTogether(keys, copies);
      }
      keys := keys + copies;
    }

    /** Its own copies of what the cache resolves for a name. */
    method Learn(cache: SharedCache, name: string, read: Read) returns (ok: bool)
      requires Apart(cache)
      modifies this`keys, cache
      ensures Apart(cache) && fresh(keys.Values - old(keys.Values)) && fresh(cache.Tables() - old(cache.Tables()))
      ensures old(OneEach()) ==> OneEach()
      ensures var (after, told) := KnownKeys(old(cache.View()), Where(path, HostOf(name), port), read, cache.lib);
              && cache.View() == after && ok == told.Ok?
              && View() == if told.Ok? then old(View()) + told.value else old(View())
    {
      var told := cache.Lookup(Where(path, HostOf(name), port), read);
      if told.Err? {
        return false;
      }
      Keep(told.value);
      ok := true;
    }

    method Lookup(cache: SharedCache, name: string, read: Read) returns (found: Result<Option<KeyTable>, ()>)
      requires Apart(cache)
      modifies this`keys, cache
      ensures Apart(cache) && fresh(keys.Values - old(keys.Values)) && fresh(cache.Tables() - old(cache.Tables()))
      ensures old(OneEach()) ==> OneEach()
      ensures found.Ok? && found.value.Some? ==> found.value.value in keys.Values
      ensures (cache.View(), View(), Answer(found))
           == SessionLookup(old(cache.View()), old(View()), path, port, name, read, cache.lib)
    {
      if name !in keys {
        var ok := Learn(cache, name, read);
        if !ok {
          return Err(());
        }
      }
      if name in keys && keys[name].keys != map[] {
        assert keys[name] in keys.Values;
        return Ok(Some(keys[name]));
      }
      found := Ok(None);
    }
  }

  lemma OneEachTogether(a: map<string, KeyTable>, b: map<string, KeyTable>)
    requires forall m, n :: m in a && n in a && m != n ==> a[m] != a[n]
    requires forall m, n :: m in b && n in b && m != n ==> b[m] != b[n]
    requires a.Values !! b.Values
    ensures forall m, n :: m in a + b && n in a + b && m != n ==> (a + b)[m] != (a + b)[n]
  {
    assert forall n :: n in a ==> a[n] in a.Values;
    assert forall n :: n in b ==> b[n] in b.Values;
  }

  lemma Together(a: map<string, KeyTable>, b: map<string, KeyTable>)
    ensures (a + b).Values <= a.Values + b.Values
    ensures Values(a + b) == Values(a) + Values(b)
  {
    forall t | t in (a + b).Values ensures t in a.Values + b.Values {
      var name :| name in a + b && (a + b)[name] == t;
      assert if name in b then b[name] in b.Values else a[name] in a.Values;
    }
  }

  ghost function Answer(found: Result<Option<KeyTable>, ()>): Result<Option<Keys>, ()>
    reads if found.Ok? && found.value.Some? then {found.value.value} else {}
  {
    match found
    case Err(_) => Err(())
    case Ok(None) => Ok(None)
    case Ok(Some(table)) => Ok(Some(table.keys))
  }
}
