/** Any number of sessions on one cache of host keys, each changing its own mappings. */
module HostKeySessions {
  import opened Wrappers
  import opened KnownHosts
  import opened HostKeyCache

  /** The file and the port a session looks names up with. */
  datatype Id = Id(path: Path, port: nat)

  datatype World = World(cache: Cache, own: seq<map<string, Keys>>)

  /** A session's lookup, a change of one of its mappings by the NETCONF library, and what befalls the cache. */
  datatype Act =
    | Find(session: nat, name: string, read: Read)
    | Change(session: nat, name: string, keys: Keys)
    | Drop(path: Path)
    | Accept(where: Where, key: Key, before: Read, after: Read)

  /** What an act does: a change reaches the one mapping of the one session and nothing else. */
  function Do(w: World, act: Act, ids: seq<Id>, lib: Lib): World
    requires |w.own| == |ids|
  {
    match act
    case Find(i, name, read) =>
      if i >= |ids| then w
      else
        var (cache, own, _) := SessionLookup(w.cache, w.own[i], ids[i].path, ids[i].port, name, read, lib);
        World(cache, w.own[i := own])
    case Change(i, name, keys) =>
      if i < |ids| && name in w.own[i] then w.(own := w.own[i := w.own[i][name := keys]]) else w
    case Drop(path) => w.(cache := Forget(w.cache, path))
    case Accept(where, key, before, after) => w.(cache := AcceptNew(w.cache, where, key, before, after, lib))
  }

  function After(w: World, acts: seq<Act>, ids: seq<Id>, lib: Lib): (r: World)
    requires |w.own| == |ids|
    ensures |r.own| == |ids|
  {
    if acts == [] then w else Do(After(w, acts[..|acts| - 1], ids, lib), acts[|acts| - 1], ids, lib)
  }

  /** Whatever the sessions do, the cache agrees with its snapshots; and what a session has changes only by its own
      acts. */
  lemma {:induction false} CacheKeptApart(w: World, acts: seq<Act>, ids: seq<Id>, i: nat, lib: Lib)
    requires |w.own| == |ids| && Agrees(w.cache, lib) && i < |ids|
    ensures var end := After(w, acts, ids, lib);
            && Agrees(end.cache, lib)
            && ((forall k :: 0 <= k < |acts| && (acts[k].Find? || acts[k].Change?) ==> acts[k].session != i) ==>
                  end.own[i] == w.own[i])
  {
    if acts != [] {
      var before, last := After(w, acts[..|acts| - 1], ids, lib), acts[|acts| - 1];
      CacheKeptApart(w, acts[..|acts| - 1], ids, i, lib);
      match last
      case Find(s, name, read) =>
        if s < |ids| {
          LookAgrees(before.cache, Where(ids[s].path, HostOf(name), ids[s].port), read, lib);
        }
      case Drop(path) => ForgetAgrees(before.cache, path, lib);
      case Accept(where, key, was, now) => AcceptAgrees(before.cache, where, key, was, now, lib);
      case _ =>
    }
  }

  /** A change is not seen in the cache: with or without it the cache is the same. */
  lemma {:induction false} ChangesUnseen(w: World, v: World, acts: seq<Act>, ids: seq<Id>, lib: Lib)
    requires |w.own| == |v.own| == |ids| && w.cache == v.cache
    requires forall i :: 0 <= i < |ids| ==> w.own[i].Keys == v.own[i].Keys
    ensures After(w, acts, ids, lib).cache == After(v, acts, ids, lib).cache
    ensures forall i :: 0 <= i < |ids| ==> After(w, acts, ids, lib).own[i].Keys == After(v, acts, ids, lib).own[i].Keys
  {
    if acts != [] {
      ChangesUnseen(w, v, acts[..|acts| - 1], ids, lib);
    }
  }

  // ----- the same on the objects

  /** The dictionaries the sessions hold. */
  ghost function Held(sessions: seq<SessionKeys>): set<KeyTable>
    reads sessions
  {
    set s, t | s in sessions && t in s.keys.Values :: t
  }

  /** No session shares a dictionary with the cache or with another, nor uses one for two names. */
  ghost predicate Separate(cache: SharedCache, sessions: seq<SessionKeys>)
    reads cache, sessions
  {
    && (forall i :: 0 <= i < |sessions| ==> sessions[i].Apart(cache) && sessions[i].OneEach())
    && forall i, j :: 0 <= i < j < |sessions| ==>
         sessions[i] != sessions[j] && sessions[i].keys.Values !! sessions[j].keys.Values
  }

  ghost predicate Shows(cache: SharedCache, sessions: seq<SessionKeys>, w: World)
    reads cache, cache.Tables(), sessions, Held(sessions)
  {
    && cache.View() == w.cache && |w.own| == |sessions|
    && forall i :: 0 <= i < |sessions| ==> sessions[i].View() == w.own[i]
  }

  ghost predicate Known(sessions: seq<SessionKeys>, ids: seq<Id>) {
    |ids| == |sessions| && forall i :: 0 <= i < |ids| ==> ids[i] == Id(sessions[i].path, sessions[i].port)
  }

  method FindName(cache: SharedCache, sessions: seq<SessionKeys>, i: nat, name: string, read: Read,
                  ghost w: World, ghost ids: seq<Id>)
    requires i < |sessions| && Separate(cache, sessions) && Shows(cache, sessions, w) && Known(sessions, ids)
    modifies cache, sessions[i]
    ensures Separate(cache, sessions) && Shows(cache, sessions, Do(w, Find(i, name, read), ids, cache.lib))
    ensures fresh(sessions[i].keys.Values - old(sessions[i].keys.Values))
    ensures forall j :: 0 <= j < |sessions| && j != i ==> sessions[j].keys == old(sessions[j].keys)
  {
    var session := sessions[i];
    var found := session.Lookup(cache, name, read);
    forall j | 0 <= j < |sessions| && j != i
      ensures sessions[j].keys == old(sessions[j].keys) && sessions[j].View() == old(sessions[j].View())
    {
      assert sessions[j] != session;
    }
  }

  /** What the NETCONF library does to a mapping a lookup gave it. */
  method ChangeMapping(cache: SharedCache, sessions: seq<SessionKeys>, i: nat, name: string, keys: Keys,
                       ghost w: World, ghost ids: seq<Id>)
    requires i < |sessions| && Separate(cache, sessions) && Shows(cache, sessions, w) && Known(sessions, ids)
    requires name in sessions[i].keys
    modifies sessions[i].keys[name]
    ensures Shows(cache, sessions, Do(w, Change(i, name, keys), ids, cache.lib))
  {
    var table := sessions[i].keys[name];
    assert table in sessions[i].keys.Values;
    table.keys := keys;
    forall j | 0 <= j < |sessions| && j != i ensures sessions[j].View() == old(sessions[j].View()) {
      assert table !in sessions[j].keys.Values;
    }
    assert sessions[i].View() == old(sessions[i].View())[name := keys];
  }

  method DropPath(cache: SharedCache, sessions: seq<SessionKeys>, path: Path, ghost w: World, ghost ids: seq<Id>)
    requires Separate(cache, sessions) && Shows(cache, sessions, w) && Known(sessions, ids)
    modifies cache
    ensures Separate(cache, sessions) && Shows(cache, sessions, Do(w, Act.Drop(path), ids, cache.lib))
  {
    cache.ForgetPath(path);
  }

  method AcceptNewKey(cache: SharedCache, sessions: seq<SessionKeys>, where: Where, key: Key, before: Read, after: Read,
                      ghost w: World, ghost ids: seq<Id>)
    requires Separate(cache, sessions) && Shows(cache, sessions, w) && Known(sessions, ids)
    modifies cache
    ensures Separate(cache, sessions)
    ensures Shows(cache, sessions, Do(w, Act.Accept(where, key, before, after), ids, cache.lib))
  {
    cache.AcceptKey(where, key, before, after);
  }

  method Perform(cache: SharedCache, sessions: seq<SessionKeys>, act: Act, ghost w: World, ghost ids: seq<Id>)
    requires Separate(cache, sessions) && Shows(cache, sessions, w) && Known(sessions, ids)
    modifies cache, sessions, Held(sessions)
    ensures Separate(cache, sessions) && Shows(cache, sessions, Do(w, act, ids, cache.lib))
    ensures forall i :: 0 <= i < |sessions| ==> fresh(sessions[i].keys.Values - old(sessions[i].keys.Values))
  {
    match act {
      case Find(i, name, read) =>
        if i < |sessions| {
          FindName(cache, sessions, i, name, read, w, ids);
        }
      case Change(i, name, keys) =>
        if i < |sessions| && name in sessions[i].keys {
          assert sessions[i].keys[name] in sessions[i].keys.Values;
          ChangeMapping(cache, sessions, i, name, keys, w, ids);
        }
      case Drop(path) =>
        DropPath(cache, sessions, path, w, ids);
      case Accept(where, key, before, after) =>
        AcceptNewKey(cache, sessions, where, key, before, after, w, ids);
    }
  }

  /** Any sequence of acts on one cache and any number of sessions, on the objects as on the values. */
  method Serve(cache: SharedCache, sessions: seq<SessionKeys>, acts: seq<Act>, ghost w: World, ghost ids: seq<Id>)
    requires Separate(cache, sessions) && Shows(cache, sessions, w) && Known(sessions, ids)
    modifies cache, sessions, Held(sessions)
    ensures Separate(cache, sessions) && Shows(cache, sessions, After(w, acts, ids, cache.lib))
  {
    for n := 0 to |acts|
      invariant Separate(cache, sessions) && Shows(cache, sessions, After(w, acts[..n], ids, cache.lib))
      invariant forall i :: 0 <= i < |sessions| ==> fresh(sessions[i].keys.Values - old(Held(sessions)))
    {
      assert acts[..n + 1][..n] == acts[..n];
      Perform(cache, sessions, acts[n], After(w, acts[..n], ids, cache.lib), ids);
    }
    assert acts[..|acts|] == acts;
  }
}
