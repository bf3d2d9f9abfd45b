/** The session manager's bookkeeping: what each uninterrupted stretch of its coroutines does to it. */
module SessionPool {
  import opened Budget
  import opened Wrappers

  /** A session key's place in the order of keys; an entry's and a session's identity. */
  type Key = nat
  type EntryId = nat
  type SessionId = nat

  datatype Entry = Entry(session: Option<SessionId>, inUse: bool, idleSince: int)

  /** `index` is the dictionary of entries; `heap` holds every entry ever made, as borrowers may still refer to it;
      `given` is every session handed to a close or discard, and `running` those whose thread has not ended. */
  datatype Pool = Pool(index: map<Key, EntryId>, heap: map<EntryId, Entry>, given: seq<SessionId>,
      running: seq<SessionId>)

  ghost predicate WellFormed(p: Pool) {
    forall k :: k in p.index ==> p.index[k] in p.heap
  }

  predicate Idle(p: Pool, key: Key)
    requires WellFormed(p)
  {
    key in p.index && !p.heap[p.index[key]].inUse && p.heap[p.index[key]].session.Some?
  }

  function Give(p: Pool, session: SessionId): Pool {
    p.(given := p.given + [session], running := p.running + [session])
  }

  function Drop(p: Pool, key: Key): Pool {
    p.(index := p.index - {key})
  }

  /** The start of acquire once the key is free: its entry, made if need be, is in use. */
  function Claim(p: Pool, key: Key, made: EntryId): (r: (Pool, EntryId))
    requires WellFormed(p) && made !in p.heap
  {
    if key in p.index then
      var e := p.index[key];
      (p.(heap := p.heap[e := p.heap[e].(inUse := true)]), e)
    else (p.(index := p.index[key := made], heap := p.heap[made := Entry(None, true, 0)]), made)
  }

  /** A kept session the reuse check does not vouch for goes to a discard. */
  function Unvouched(p: Pool, e: EntryId): Pool
    requires e in p.heap && p.heap[e].session.Some?
  {
    Give(p, p.heap[e].session.value).(heap := p.heap[e := p.heap[e].(session := None)])
  }

  function Opened(p: Pool, e: EntryId, session: SessionId): Pool
    requires e in p.heap
  {
    p.(heap := p.heap[e := p.heap[e].(session := Some(session))])
  }

  /** The entry is dropped and the session in `e` given to a close or a discard. */
  function End(p: Pool, key: Key, e: EntryId): Pool
    requires e in p.heap && p.heap[e].session.Some?
  {
    Give(Drop(p, key), p.heap[e].session.value)
  }

  function Kept(p: Pool, e: EntryId, now: int): Pool
    requires e in p.heap
  {
    p.(heap := p.heap[e := p.heap[e].(inUse := false, idleSince := now)])
  }

  /** close_all for one key: its session, if any, is closed, or discarded when in use. */
  function Shut(p: Pool, key: Key): Pool
    requires WellFormed(p) && key in p.index
  {
    var e := p.index[key];
    if p.heap[e].session.Some? then End(p, key, e) else Drop(p, key)
  }

  ghost predicate KeysOnce(p: Pool, order: seq<Key>) {
    && (forall i :: 0 <= i < |order| ==> order[i] in p.index)
    && forall i, j :: 0 <= i < j < |order| ==> order[i] != order[j]
  }

  /** close_all: every key shut, in the order given. */
  ghost function ShutAll(p: Pool, order: seq<Key>): (r: Pool)
    requires WellFormed(p) && KeysOnce(p, order)
    ensures WellFormed(r) && r.heap == p.heap
    ensures forall k :: k in r.index <==> k in p.index && k !in order
    ensures forall k :: k in r.index ==> r.index[k] == p.index[k]
    decreases |order|
  {
    if order == [] then p
    else
      var last := |order| - 1;
      assert forall i :: 0 <= i < last ==> order[i] == order[..last][i];
      Shut(ShutAll(p, order[..last]), order[last])
  }

  lemma ShutAllNext(p: Pool, order: seq<Key>, key: Key)
    requires WellFormed(p) && KeysOnce(p, order) && key in p.index && key !in order
    ensures KeysOnce(p, order + [key]) && ShutAll(p, order + [key]) == Shut(ShutAll(p, order), key)
  {
    assert (order + [key])[..|order|] == order;
  }

  // ----- the descriptor budget

  function IdleKeys(p: Pool): (keys: set<Key>)
    requires WellFormed(p)
    ensures forall k :: k in keys <==> Idle(p, k)
  {
    set k | k in p.index && Idle(p, k)
  }

  function KeptFds(p: Pool): nat
    requires WellFormed(p)
  {
    (|IdleKeys(p)| + |p.running|) * FDS_PER_SESSION
  }

  predicate Before(p: Pool, a: Key, b: Key)
    requires WellFormed(p) && a in p.index && b in p.index
  {
    var x, y := p.heap[p.index[a]].idleSince, p.heap[p.index[b]].idleSince;
    x < y || (x == y && a < b)
  }

  ghost predicate Ascending(p: Pool, order: seq<Key>) {
    && WellFormed(p) && (forall i :: 0 <= i < |order| ==> order[i] in p.index)
    && forall i, j :: 0 <= i < j < |order| ==> Before(p, order[i], order[j])
  }

  /** The idle keys, least recently used first, ties by key. */
  ghost predicate IsIdleOrder(p: Pool, order: seq<Key>) {
    Ascending(p, order) && forall k :: k in order <==> k in p.index && Idle(p, k)
  }

  ghost predicate AllIdle(p: Pool, order: seq<Key>) {
    WellFormed(p) && forall i :: 0 <= i < |order| ==> order[i] in p.index && Idle(p, order[i])
  }

  function SessionOf(p: Pool, key: Key): SessionId
    requires WellFormed(p) && Idle(p, key)
  {
    p.heap[p.index[key]].session.value
  }

  function Sessions(p: Pool, order: seq<Key>): seq<SessionId>
    requires AllIdle(p, order)
  {
    seq(|order|, i requires 0 <= i < |order| => SessionOf(p, order[i]))
  }

  /** The idle sessions of `order` closed and their entries gone, nothing else touched. */
  function Evict(p: Pool, order: seq<Key>): (r: Pool)
    requires AllIdle(p, order)
    ensures WellFormed(r)
  {
    Pool(map k | k in p.index && k !in order :: p.index[k], p.heap,
         p.given + Sessions(p, order), p.running + Sessions(p, order))
  }

  lemma EvictedNone(p: Pool, order: seq<Key>)
    requires WellFormed(p)
    ensures AllIdle(p, order[..0]) && Evict(p, order[..0]) == p
  {
    assert Sessions(p, order[..0]) == [] && p.given + [] == p.given && p.running + [] == p.running;
    assert (map k | k in p.index && k !in order[..0] :: p.index[k]) == p.index;
  }

  lemma EvictedOneMore(p: Pool, order: seq<Key>, n: nat)
    requires IsIdleOrder(p, order) && n < |order| && AllIdle(p, order[..n])
    ensures AllIdle(p, order[..n + 1]) && Idle(Evict(p, order[..n]), order[n])
    ensures order[n] in Evict(p, order[..n]).index && p.index[order[n]] == Evict(p, order[..n]).index[order[n]]
    ensures Evict(p, order[..n + 1]) == End(Evict(p, order[..n]), order[n], p.index[order[n]])
  {
    var key := order[n];
    forall i | 0 <= i < n ensures order[i] != key {
      assert Before(p, order[i], key);
    }
    assert order[..n + 1] == order[..n] + [key];
    EvictedPlus(p, order[..n], key);
  }

  lemma EvictedPlus(p: Pool, order: seq<Key>, key: Key)
    requires AllIdle(p, order) && key in p.index && Idle(p, key) && key !in order
    ensures AllIdle(p, order + [key])
    ensures Evict(p, order + [key]) == End(Evict(p, order), key, p.index[key])
  {
    var all := Sessions(p, order + [key]);
    assert all == Sessions(p, order) + [SessionOf(p, key)];
    assert p.given + all == p.given + Sessions(p, order) + [SessionOf(p, key)];
    assert p.running + all == p.running + Sessions(p, order) + [SessionOf(p, key)];
    assert Evict(p, order + [key]).index == Evict(p, order).index - {key};
  }

  /** How many of `count` idle sessions have to go for `short` descriptors. */
  function EvictCount(count: nat, short: int): (n: nat)
    ensures n <= count
  {
    if count == 0 || short <= 0 then 0 else 1 + EvictCount(count - 1, short - FDS_PER_SESSION)
  }

  /** Closing n sessions covers a shortfall. */
  predicate Covers(n: nat, short: int) {
    short <= n * FDS_PER_SESSION
  }

  /** It is the shortest prefix that covers the shortfall, or all of them when none does. */
  lemma {:induction false} EvictCountShortest(count: nat, short: int)
    ensures var n := EvictCount(count, short);
            && (n == count || Covers(n, short))
            && forall fewer :: 0 <= fewer < n ==> !Covers(fewer, short)
  {
    if count > 0 && short > 0 {
      EvictCountShortest(count - 1, short - FDS_PER_SESSION);
      var n := EvictCount(count, short);
      forall fewer | 0 <= fewer < n ensures !Covers(fewer, short) {
        if fewer > 0 {
          assert !Covers(fewer - 1, short - FDS_PER_SESSION);
        }
      }
    }
  }

  function Shortfall(p: Pool, fds: int, limit: int): int
    requires WellFormed(p)
  {
    fds - (limit - FDS_BASE - KeptFds(p))
  }

  /** room's evictions under a known limit. */
  function MakeRoom(p: Pool, order: seq<Key>, fds: int, limit: int): (r: Pool)
    requires IsIdleOrder(p, order)
    ensures WellFormed(r)
  {
    var n := EvictCount(|order|, Shortfall(p, fds, limit));
    Evict(p, order[..n])
  }

  function Granted(p: Pool, fds: int, limit: int): int
    requires WellFormed(p)
  {
    var free := limit - FDS_BASE - KeptFds(p);
    var wanted := if fds < free then fds else free;
    if wanted < 0 then 0 else wanted
  }

  lemma {:induction false} OrderIsSet(p: Pool, order: seq<Key>, n: nat)
    requires IsIdleOrder(p, order) && n <= |order|
    ensures |set i | 0 <= i < n :: order[i]| == n
  {
    if n > 0 {
      OrderIsSet(p, order, n - 1);
      forall i | 0 <= i < n - 1 ensures order[i] != order[n - 1] {
        assert Before(p, order[i], order[n - 1]);
      }
      assert (set i | 0 <= i < n :: order[i]) == (set i | 0 <= i < n - 1 :: order[i]) + {order[n - 1]};
    }
  }

  lemma RoomLeaves(p: Pool, order: seq<Key>, fds: int, limit: int)
    requires IsIdleOrder(p, order)
    ensures var n := EvictCount(|order|, Shortfall(p, fds, limit));
            var q := MakeRoom(p, order, fds, limit);
            && q.heap == p.heap && q.given == p.given + Sessions(p, order[..n])
            && (forall k :: k in q.index <==> k in p.index && k !in order[..n])
            && (forall k :: k in q.index ==> q.index[k] == p.index[k])
            && |IdleKeys(p)| == |order| && |IdleKeys(q)| == |order| - n
  {
    var n := EvictCount(|order|, Shortfall(p, fds, limit));
    var q := MakeRoom(p, order, fds, limit);
    OrderIsSet(p, order, |order|);
    OrderIsSet(p, order, n);
    var gone := set i | 0 <= i < n :: order[i];
    assert IdleKeys(p) == set i | 0 <= i < |order| :: order[i];
    assert gone <= IdleKeys(p);
    assert IdleKeys(q) == IdleKeys(p) - gone;
  }

  /** room closes the shortest least recently used run of idle sessions that covers the shortfall, touches no
      session in use, and once those closes have ended grants the whole request if the limit can hold it at all; it
      never grants past the limit. */
  lemma RoomMakesRoom(p: Pool, order: seq<Key>, fds: nat, limit: int)
    requires IsIdleOrder(p, order)
    ensures var n := EvictCount(|order|, Shortfall(p, fds, limit));
            var q := MakeRoom(p, order, fds, limit);
            && (n == |order| || Covers(n, Shortfall(p, fds, limit)))
            && (forall fewer :: 0 <= fewer < n ==> !Covers(fewer, Shortfall(p, fds, limit)))
            && q.given == p.given + Sessions(p, order[..n])
            && (forall k :: k in p.index && p.heap[p.index[k]].inUse ==>
                  k in q.index && q.index[k] == p.index[k] && q.heap[q.index[k]] == p.heap[p.index[k]])
            && (fds <= limit - FDS_BASE ==> Granted(q.(running := []), fds, limit) == fds)
            && (Granted(q, fds, limit) > 0 ==> Granted(q, fds, limit) + KeptFds(q) + FDS_BASE <= limit)
  {
    RoomLeaves(p, order, fds, limit);
    EvictCountShortest(|order|, Shortfall(p, fds, limit));
    var q := MakeRoom(p, order, fds, limit);
    assert IdleKeys(q.(running := [])) == IdleKeys(q);
  }
}
