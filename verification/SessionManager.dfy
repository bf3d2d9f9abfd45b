/** The session manager as the object the scheduler holds; each method is one stretch of its coroutines between two
    awaits. */
module SessionManager {
  import opened Budget
  import opened Wrappers
  import SP = SessionPool

  class Entry {
    const id: SP.EntryId
    var session: Option<SP.SessionId>
    var inUse: bool
    var idleSince: int

    constructor (id: SP.EntryId)
      ensures this.id == id && Value() == SP.Entry(None, true, 0)
    {
      this.id := id;
      session, inUse, idleSince := None, true, 0;
    }

    function Value(): SP.Entry
      reads this
    {
      SP.Entry(session, inUse, idleSince)
    }
  }

  class Manager {
    const pooling: bool
    var entries: map<SP.Key, Entry>
    var made: nat
    var running: seq<SP.SessionId>
    ghost var all: map<SP.EntryId, Entry>
    ghost var given: seq<SP.SessionId>

    ghost predicate Valid()
      reads this, all.Values
    {
      && (forall e :: e in all ==> all[e].id == e && e < made)
      && (forall k :: k in entries ==> entries[k].id in all && all[entries[k].id] == entries[k])
    }

    ghost function View(): (p: SP.Pool)
      requires Valid()
      reads this, all.Values
      ensures SP.WellFormed(p)
    {
      SP.Pool(map k | k in entries :: entries[k].id, map e | e in all :: all[e].Value(), given, running)
    }

    ghost predicate Known(entry: Entry)
      reads this
    {
      entry.id in all && all[entry.id] == entry
    }

    constructor (pooling: bool)
      ensures Valid() && View() == SP.Pool(map[], map[], [], [])
    {
      this.pooling := pooling;
      entries, made, running, all, given := map[], 0, [], map[], [];
    }

    /** Whether an idle session waits under the key, so the next borrow is no login. */
    method Pooled(key: SP.Key) returns (r: bool)
      requires Valid()
      ensures r <==> SP.Idle(View(), key)
    {
      r := key in entries && !entries[key].inUse && entries[key].session.Some?;
    }

    /** acquire, once the key is free. */
    method Claim(key: SP.Key) returns (entry: Entry)
      requires Valid() && (key in entries ==> !entries[key].inUse)
      modifies this`entries, this`made, this`all, all.Values
      ensures Valid() && Known(entry) && made == old(made) + 1
      ensures (View(), entry.id) == SP.Claim(old(View()), key, old(made))
    {
      if key in entries {
        entry := entries[key];
        ghost var was := View();
        Take(entry);
        made := made + 1;
        assert View() == SP.Claim(was, key, old(made)).0;
      } else {
        ghost var was := View();
        entry := Make(key);
        assert View() == SP.Claim(was, key, old(made)).0;
      }
    }

    method Take(entry: Entry)
      requires Valid() && Known(entry)
      modifies entry`inUse
      ensures Valid()
      ensures View() == old(View()).(heap := old(View()).heap[entry.id := old(View()).heap[entry.id].(inUse := true)])
    {
      entry.inUse := true;
    }

    method Make(key: SP.Key) returns (entry: Entry)
      requires Valid() && key !in entries
      modifies this`entries, this`made, this`all
      ensures Valid() && Known(entry) && entry.id == old(made) && made == old(made) + 1
      ensures View() == old(View()).(index := old(View()).index[key := entry.id],
                                     heap := old(View()).heap[entry.id := SP.Entry(None, true, 0)])
    {
      entry := new Entry(made);
      Adopt(entry);
      Register(key, entry);
    }

    ghost method Adopt(entry: Entry)
      requires Valid() && entry.id == made
      modifies this`all
      ensures all == old(all)[made := entry]
      ensures forall e :: e in all ==> all[e].id == e && e < made + 1
      ensures forall k :: k in entries ==> entries[k].id in all && all[entries[k].id] == entries[k]
    {
      all := all[made := entry];
    }

    /** The entry just adopted, under its key. */
    method Register(key: SP.Key, entry: Entry)
      requires entry.id == made && made in all && all[made] == entry
      requires forall e :: e in all ==> all[e].id == e && e < made + 1
      requires forall k :: k in entries ==> entries[k].id in all && all[entries[k].id] == entries[k]
      modifies this`entries, this`made
      ensures Valid() && Known(entry) && made == old(made) + 1 && entries == old(entries)[key := entry]
    {
      entries := entries[key := entry];
      made := made + 1;
    }

    /** The session goes to a helper thread that closes or discards it. */
    method Start(session: SP.SessionId)
      requires Valid()
      modifies this`running, this`given
      ensures Valid() && View() == SP.Give(old(View()), session)
    {
      given := given + [session];
      running := running + [session];
    }

    method Drop(key: SP.Key)
      requires Valid()
      modifies this`entries
      ensures Valid() && View() == SP.Drop(old(View()), key) && entries == old(entries) - {key}
    {
      entries := entries - {key};
    }

    method Unvouched(entry: Entry)
      requires Valid() && Known(entry) && entry.session.Some?
      modifies this`running, this`given, entry`session
      ensures Valid() && View() == SP.Unvouched(old(View()), entry.id)
    {
      Start(entry.session.value);
      entry.session := None;
    }

    method Opened(entry: Entry, session: SP.SessionId)
      requires Valid() && Known(entry)
      modifies entry`session
      ensures Valid() && View() == SP.Opened(old(View()), entry.id, session)
    {
      entry.session := Some(session);
    }

    /** release up to its first await: the entry whose session is to be cleaned, or null when the borrow has ended
        here. */
    method Release(key: SP.Key, discard: bool) returns (entry: Entry?)
      requires Valid()
      modifies this`entries, this`running, this`given
      ensures Valid() && all == old(all)
      ensures var p := old(View());
              if key !in p.index || p.heap[p.index[key]].session.None? then
                entry == null && View() == SP.Drop(p, key)
              else if discard || !pooling then entry == null && View() == SP.End(p, key, p.index[key])
              else View() == p && entry != null && Known(entry) && entry.id == p.index[key]
    {
      entry := null;
      if key !in entries || entries[key].session.None? {
        Drop(key);
      } else if discard || !pooling {
        var session := entries[key].session.value;
        Drop(key);
        Start(session);
      } else {
        entry := entries[key];
      }
    }

    /** release after its cleanup. */
    method Cleaned(key: SP.Key, entry: Entry, ok: bool, now: int)
      requires Valid() && Known(entry) && entry.session.Some?
      modifies this`entries, this`running, this`given, entry`inUse, entry`idleSince
      ensures Valid()
      ensures View() == if ok then SP.Kept(old(View()), entry.id, now) else SP.End(old(View()), key, entry.id)
    {
      if ok {
        entry.inUse, entry.idleSince := false, now;
      } else {
        Drop(key);
        Start(entry.session.value);
      }
    }

    /** The least recently used idle key among `keys`. */
    method Oldest(keys: set<SP.Key>) returns (key: SP.Key)
      requires Valid() && keys != {} && forall k :: k in keys ==> k in entries
      ensures key in keys && forall k :: k in keys && k != key ==> SP.Before(View(), key, k)
    {
      key :| key in keys;
      var rest := keys - {key};
      while rest != {}
        invariant key in keys && rest <= keys - {key}
        invariant forall k :: k in keys - rest && k != key ==> SP.Before(View(), key, k)
        decreases rest
      {
        var k :| k in rest;
        var x, y := entries[k].idleSince, entries[key].idleSince;
        if x < y || (x == y && k < key) {
          key := k;
        }
        assert forall j :: j in keys - (rest - {k}) ==> j == k || j in keys - rest;
        rest := rest - {k};
      }
    }

    /** The idle keys sorted by the time they became idle, ties by key. */
    method IdleOrder() returns (order: seq<SP.Key>)
      requires Valid()
      ensures SP.IsIdleOrder(View(), order)
    {
      var idle := set k | k in entries && !entries[k].inUse && entries[k].session.Some?;
      assert idle == SP.IdleKeys(View());
      order := Sort(idle);
    }

    method Sort(keys: set<SP.Key>) returns (order: seq<SP.Key>)
      requires Valid() && keys <= View().index.Keys
      ensures forall k :: k in order <==> k in keys
      ensures SP.Ascending(View(), order)
    {
      order := [];
      var rest := keys;
      while rest != {}
        invariant rest <= keys && (forall k :: k in order <==> k in keys && k !in rest)
        invariant SP.Ascending(View(), order)
        invariant forall i, k :: 0 <= i < |order| && k in rest ==>
          order[i] in View().index && SP.Before(View(), order[i], k)
        decreases rest
      {
        var key := Oldest(rest);
        order := order + [key];
        rest := rest - {key};
      }
    }

    method EvictOne(key: SP.Key)
      requires Valid() && SP.Idle(View(), key)
      modifies this`entries, this`running, this`given
      ensures Valid() && View() == SP.End(old(View()), key, old(View()).index[key])
    {
      var session := entries[key].session.value;
      Drop(key);
      Start(session);
    }

    method KeptFds() returns (fds: nat)
      requires Valid()
      ensures fds == SP.KeptFds(View())
    {
      var idle := set k | k in entries && !entries[k].inUse && entries[k].session.Some?;
      assert idle == SP.IdleKeys(View());
      fds := (|idle| + |running|) * FDS_PER_SESSION;
    }

    /** room up to its join: under a limit, idle sessions are closed while it is short of it. */
    method Room(fds: int, limit: Option<int>) returns (order: seq<SP.Key>)
      requires Valid()
      modifies this`entries, this`running, this`given
      ensures Valid() && SP.IsIdleOrder(old(View()), order)
      ensures View() == if limit.None? then old(View()) else SP.MakeRoom(old(View()), order, fds, limit.value)
    {
      order := IdleOrder();
      if limit.None? {
        return;
      }
      var kept := KeptFds();
      ghost var was := View();
      var short := fds - (limit.value - FDS_BASE - kept);
      assert short == SP.Shortfall(was, fds, limit.value);
      EvictWhile(was, order, short);
      assert View() == SP.MakeRoom(was, order, fds, limit.value);
    }

    /** room after its join: how many of the descriptors there is room for. */
    method Grant(fds: int, limit: Option<int>) returns (granted: int)
      requires Valid()
      ensures granted == if limit.None? then fds else SP.Granted(View(), fds, limit.value)
    {
      if limit.None? {
        return fds;
      }
      var kept := KeptFds();
      var free := limit.value - FDS_BASE - kept;
      var wanted := if fds < free then fds else free;
      granted := if wanted < 0 then 0 else wanted;
    }

    /** Exactly the first n idle keys of what was are gone. */
    ghost predicate Evicting(was: SP.Pool, idle: seq<SP.Key>, n: nat)
      reads this, all.Values
    {
      && Valid() && SP.IsIdleOrder(was, idle) && n <= |idle| && SP.AllIdle(was, idle[..n])
      && View() == SP.Evict(was, idle[..n])
    }

    method EvictWhile(ghost was: SP.Pool, idle: seq<SP.Key>, needed: int)
      requires Valid() && View() == was && SP.IsIdleOrder(was, idle)
      modifies this`entries, this`running, this`given
      ensures Evicting(was, idle, SP.EvictCount(|idle|, needed))
    {
      var short := needed;
      SP.EvictedNone(was, idle);
      ghost var total := SP.EvictCount(|idle|, needed);
      var n := 0;
      while n < |idle| && short > 0
        invariant n <= |idle| && Evicting(was, idle, n)
        invariant total == n + SP.EvictCount(|idle| - n, short)
        decreases |idle| - n
      {
        EvictNext(was, idle, n);
        short := short - FDS_PER_SESSION;
        n := n + 1;
      }
    }

    method EvictNext(ghost was: SP.Pool, idle: seq<SP.Key>, n: nat)
      requires n < |idle| && Evicting(was, idle, n)
      modifies this`entries, this`running, this`given
      ensures Evicting(was, idle, n + 1)
    {
      SP.EvictedOneMore(was, idle, n);
      EvictOne(idle[n]);
    }

    /** The keys of `order` have been shut, the others not yet. */
    ghost predicate Closing(was: SP.Pool, order: seq<SP.Key>)
      reads this, all.Values
    {
      && Valid() && SP.WellFormed(was) && SP.KeysOnce(was, order) && View() == SP.ShutAll(was, order)
    }

    /** Every key shut, one after another, in the order told. */
    method CloseAll() returns (order: seq<SP.Key>)
      requires Valid()
      modifies this`entries, this`running, this`given
      ensures Closing(old(View()), order) && entries == map[] && all == old(all)
    {
      order := [];
      ghost var was := View();
      while entries != map[]
        invariant Closing(was, order) && all == old(all)
        decreases entries.Keys
      {
        var key :| key in entries;
        ShutNext(was, order, key);
        order := order + [key];
      }
    }

    method ShutNext(ghost was: SP.Pool, ghost order: seq<SP.Key>, key: SP.Key)
      requires Closing(was, order) && key in entries
      modifies this`entries, this`running, this`given
      ensures Closing(was, order + [key]) && entries == old(entries) - {key}
    {
      assert key in View().index;
      SP.ShutAllNext(was, order, key);
      ShutOne(key);
    }

    method ShutOne(key: SP.Key)
      requires Valid() && key in entries
      modifies this`entries, this`running, this`given
      ensures Valid() && entries == old(entries) - {key} && View() == SP.Shut(old(View()), key)
    {
      var session := entries[key].session;
      Drop(key);
      if session.Some? {
        Start(session.value);
      }
    }
  }
}
