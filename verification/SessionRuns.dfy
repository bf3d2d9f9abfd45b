/** Borrowers, evictions and closes interleaved at the awaits of the session manager's coroutines. */
module SessionRuns {
  import opened Wrappers
  import opened SessionPool

  type Task = nat

  /** Where a borrower's coroutine is suspended; a task in acquire or cleanup still has the entry it looked up. */
  datatype Phase =
    | Away
    | Checking(key: Key, entry: EntryId)
    | Making(key: Key, entry: EntryId)
    | Opening(key: Key, entry: EntryId)
    | Holding(key: Key, session: SessionId)
    | Cleaning(key: Key, entry: EntryId)

  /** `logins` counts the sessions opened, `cut` the keys whose borrower was cancelled inside the manager. */
  datatype World = World(
    pool: Pool, tasks: map<Task, Phase>, logins: nat, made: nat, clean: set<SessionId>, cut: set<Key>, pooling: bool)

  datatype Step =
    | Claim(t: Task, key: Key)
    | Vouch(t: Task, alive: bool, refused: bool)
    | Room(t: Task)
    | Open(t: Task, ok: bool)
    | Cancel(t: Task)
    | Release(t: Task, discard: bool)
    | Loose(t: Task, key: Key, discard: bool)
    | Clean(t: Task, ok: bool, now: int)
    | Trim(order: seq<Key>, fds: int, limit: int)
    | ThreadEnds(place: nat)
    | Shut(key: Key)

  function PhaseOf(w: World, t: Task): Phase {
    if t in w.tasks then w.tasks[t] else Away
  }

  function Move(w: World, t: Task, phase: Phase): World {
    w.(tasks := w.tasks[t := phase])
  }

  /** release of a key, whatever the caller holds: the entry is looked up anew. */
  ghost function GiveBack(w: World, t: Task, key: Key, discard: bool): World
    requires WellFormed(w.pool)
  {
    var freed := w.(cut := w.cut - {key});
    if key !in w.pool.index || Has(w.pool, key).None? then Move(freed.(pool := Drop(w.pool, key)), t, Away)
    else if discard || !w.pooling then Move(freed.(pool := End(w.pool, key, w.pool.index[key])), t, Away)
    else Move(freed, t, Cleaning(key, w.pool.index[key]))
  }

  ghost predicate Enabled(w: World, step: Step) {
    && WellFormed(w.pool)
    && match step
       case Claim(t, key) =>
         && PhaseOf(w, t).Away? && w.made !in w.pool.heap
         && (key in w.pool.index ==> !w.pool.heap[w.pool.index[key]].inUse)
       case Vouch(t, _, _) =>
         && PhaseOf(w, t).Checking? && PhaseOf(w, t).entry in w.pool.heap
         && w.pool.heap[PhaseOf(w, t).entry].session.Some?
       case Room(t) => PhaseOf(w, t).Making?
       case Open(t, _) => PhaseOf(w, t).Opening? && PhaseOf(w, t).entry in w.pool.heap
       case Cancel(t) => PhaseOf(w, t).Checking? || PhaseOf(w, t).Making? || PhaseOf(w, t).Cleaning?
       case Release(t, _) => PhaseOf(w, t).Holding?
       case Loose(t, _, _) => PhaseOf(w, t).Away?
       case Clean(t, _, _) =>
         && PhaseOf(w, t).Cleaning? && PhaseOf(w, t).entry in w.pool.heap
         && w.pool.heap[PhaseOf(w, t).entry].session.Some?
       case Trim(order, _, _) => IsIdleOrder(w.pool, order)
       case ThreadEnds(place) => place < |w.pool.running|
       case Shut(key) => key in w.pool.index
  }

  /** The step as the code takes it: release and drop look the key up anew, the rest use the entry in hand. */
  ghost function Next(w: World, step: Step): World
    requires Enabled(w, step)
  {
    match step
    case Claim(t, key) =>
      var (pool, e) := SessionPool.Claim(w.pool, key, w.made);
      Move(w.(pool := pool, made := w.made + 1), t,
           if pool.heap[e].session.Some? then Checking(key, e) else Making(key, e))
    case Vouch(t, alive, refused) =>
      var Checking(key, e) := PhaseOf(w, t);
      var session := w.pool.heap[e].session.value;
      if alive then Move(w.(clean := w.clean - {session}), t, Holding(key, session))
      else
        var pool := Unvouched(w.pool, e);
        if refused then Move(w.(pool := Drop(pool, key)), t, Away)
        else Move(w.(pool := pool), t, Making(key, e))
    case Room(t) => Move(w, t, Opening(PhaseOf(w, t).key, PhaseOf(w, t).entry))
    case Open(t, ok) =>
      var Opening(key, e) := PhaseOf(w, t);
      if ok then Move(w.(pool := Opened(w.pool, e, w.logins), logins := w.logins + 1), t, Holding(key, w.logins))
      else Move(w.(pool := Drop(w.pool, key)), t, Away)
    case Cancel(t) => Move(w.(cut := w.cut + {PhaseOf(w, t).key}), t, Away)
    case Release(t, discard) => GiveBack(w, t, PhaseOf(w, t).key, discard)
    case Loose(t, key, discard) => GiveBack(w, t, key, discard)
    case Clean(t, ok, now) =>
      var Cleaning(key, e) := PhaseOf(w, t);
      if ok then
        Move(w.(pool := Kept(w.pool, e, now), clean := w.clean + {w.pool.heap[e].session.value}), t, Away)
      else Move(w.(pool := End(w.pool, key, e)), t, Away)
    case Trim(order, fds, limit) => w.(pool := MakeRoom(w.pool, order, fds, limit))
    case ThreadEnds(place) => w.(pool := w.pool.(running := w.pool.running[..place] + w.pool.running[place + 1..]))
    case Shut(key) => w.(pool := SessionPool.Shut(w.pool, key), cut := w.cut - {key})
  }

  /** The task is inside the manager for the key, or holds its session. */
  predicate Borrows(w: World, t: Task, key: Key) {
    !PhaseOf(w, t).Away? && PhaseOf(w, t).key == key
  }

  ghost predicate Unborrowed(w: World, key: Key) {
    forall t :: !Borrows(w, t, key)
  }

  /** Who closes a key at the end of a run, or releases one without holding its session, does so while nobody
      borrows it; and a release of an idle session that is not held discards it. */
  ghost predicate Disciplined(w: World, step: Step)
    requires WellFormed(w.pool)
  {
    match step
    case Shut(key) => Unborrowed(w, key)
    case Loose(_, key, discard) => Unborrowed(w, key) && (discard || !w.pooling || !Idle(w.pool, key))
    case _ => true
  }

  ghost predicate Runs(w: World, steps: seq<Step>)
    decreases steps
  {
    steps != [] ==> Enabled(w, steps[0]) && Runs(Next(w, steps[0]), steps[1..])
  }

  ghost predicate AllDisciplined(w: World, steps: seq<Step>)
    requires Runs(w, steps)
    decreases steps
  {
    steps != [] ==> Disciplined(w, steps[0]) && AllDisciplined(Next(w, steps[0]), steps[1..])
  }

  ghost function After(w: World, steps: seq<Step>): World
    requires Runs(w, steps)
    decreases steps
  {
    if steps == [] then w else After(Next(w, steps[0]), steps[1..])
  }

  function Fresh(pooling: bool): World {
    World(Pool(map[], map[], [], []), map[], 0, 0, {}, {}, pooling)
  }

  // ----- the invariant

  /** A task inside the manager owns its key's entry, and the entry's session is as its phase says. */
  ghost predicate Owns(w: World, t: Task) {
    var phase := PhaseOf(w, t);
    !phase.Away? ==>
      && phase.key in w.pool.index
      && var e := w.pool.index[phase.key];
         && e in w.pool.heap && w.pool.heap[e].inUse
         && match phase
            case Checking(_, entry) => entry == e && w.pool.heap[e].session.Some?
            case Making(_, entry) => entry == e && w.pool.heap[e].session.None?
            case Opening(_, entry) => entry == e && w.pool.heap[e].session.None?
            case Holding(_, session) => w.pool.heap[e].session == Some(session)
            case Cleaning(_, entry) => entry == e && w.pool.heap[e].session.Some?
  }

  ghost predicate Shaped(w: World) {
    && WellFormed(w.pool)
    && (forall e :: e in w.pool.heap ==> e < w.made)
    && (forall a, b :: a in w.pool.index && b in w.pool.index && w.pool.index[a] == w.pool.index[b] ==> a == b)
  }

  ghost predicate Owned(w: World) {
    && (forall t :: t in w.tasks ==> Owns(w, t))
    && forall t, u :: t in w.tasks && u in w.tasks && t != u && !w.tasks[t].Away? && !w.tasks[u].Away? ==>
         w.tasks[t].key != w.tasks[u].key
  }

  ghost predicate IdleIsClean(w: World)
    requires Shaped(w)
  {
    forall k :: k in w.pool.index && !w.pool.heap[w.pool.index[k]].inUse ==>
      var session := w.pool.heap[w.pool.index[k]].session; session.Some? && session.value in w.clean
  }

  /** The session a key's entry has, if any. */
  function Has(p: Pool, key: Key): Option<SessionId>
    requires WellFormed(p) && key in p.index
  {
    p.heap[p.index[key]].session
  }

  /** Every session ever opened is in exactly one place: one entry of the dictionary, or the list of sessions given
      to a close or discard, once. */
  ghost predicate Conserved(w: World)
    requires Shaped(w)
  {
    var p := w.pool;
    && (forall k :: k in p.index && Has(p, k).Some? ==> Has(p, k).value < w.logins && Has(p, k).value !in p.given)
    && (forall a, b :: a in p.index && b in p.index && a != b && Has(p, a).Some? ==> Has(p, a) != Has(p, b))
    && (forall i :: 0 <= i < |p.given| ==> p.given[i] < w.logins)
    && (forall i, j :: 0 <= i < j < |p.given| ==> p.given[i] != p.given[j])
    && (forall n :: 0 <= n < w.logins && n !in p.given ==> exists k :: k in p.index && Has(p, k) == Some(n))
  }

  /** An entry in use has a borrower, or its key was cut; and a cut key has an entry in use that nobody borrows. */
  ghost predicate Accounted(w: World)
    requires Shaped(w)
  {
    && (forall k :: InUse(w.pool, k) ==> k in w.cut || exists t :: Borrows(w, t, k))
    && (forall k :: k in w.cut ==> InUse(w.pool, k) && Unborrowed(w, k))
  }

  predicate InUse(p: Pool, key: Key)
    requires WellFormed(p)
  {
    key in p.index && p.heap[p.index[key]].inUse
  }

  ghost predicate Placed(w: World) {
    Shaped(w) && Owned(w) && IdleIsClean(w) && Conserved(w)
  }

  ghost predicate Good(w: World) {
    Placed(w) && Accounted(w)
  }

  // ----- how the places change

  /** Taking key's session out of the dictionary and giving it away keeps every session in one place. */
  lemma EndConserves(w: World, key: Key, after: World)
    requires Shaped(w) && Conserved(w) && key in w.pool.index && Has(w.pool, key).Some?
    requires after.pool == End(w.pool, key, w.pool.index[key]) && after.logins == w.logins && after.made == w.made
    ensures Shaped(after) && Conserved(after)
  {
    var p, q := w.pool, after.pool;
    var n := Has(p, key).value;
    forall m | 0 <= m < after.logins && m !in q.given
      ensures exists k :: k in q.index && Has(q, k) == Some(m)
    {
      assert m !in p.given && m != n by { assert q.given == p.given + [n]; assert q.given[|p.given|] == n; }
      var k :| k in p.index && Has(p, k) == Some(m);
      assert k in q.index && Has(q, k) == Some(m);
    }
  }

  lemma DropEmptyConserves(w: World, key: Key, after: World)
    requires Shaped(w) && Conserved(w)
    requires key in w.pool.index ==> Has(w.pool, key).None?
    requires after.pool == Drop(w.pool, key) && after.logins == w.logins && after.made == w.made
    ensures Shaped(after) && Conserved(after)
  {
    forall m | 0 <= m < after.logins && m !in after.pool.given
      ensures exists k :: k in after.pool.index && Has(after.pool, k) == Some(m)
    {
      var k :| k in w.pool.index && Has(w.pool, k) == Some(m);
      assert k in after.pool.index && Has(after.pool, k) == Some(m);
    }
  }

  lemma UnvouchedConserves(w: World, key: Key, after: World)
    requires Shaped(w) && Conserved(w) && key in w.pool.index && Has(w.pool, key).Some?
    requires after.pool == Unvouched(w.pool, w.pool.index[key]) && after.logins == w.logins && after.made == w.made
    ensures Shaped(after) && Conserved(after)
  {
    var p, q, n := w.pool, after.pool, Has(w.pool, key).value;
    forall m | 0 <= m < after.logins && m !in q.given
      ensures exists k :: k in q.index && Has(q, k) == Some(m)
    {
      assert m !in p.given && m != n by { assert q.given[|p.given|] == n; }
      var k :| k in p.index && Has(p, k) == Some(m);
      assert k in q.index && Has(q, k) == Some(m);
    }
  }

  lemma OpenedConserves(w: World, key: Key, after: World)
    requires Shaped(w) && Conserved(w) && key in w.pool.index && Has(w.pool, key).None?
    requires after.pool == Opened(w.pool, w.pool.index[key], w.logins)
    requires after.logins == w.logins + 1 && after.made == w.made
    ensures Shaped(after) && Conserved(after)
  {
    var p, q := w.pool, after.pool;
    forall m | 0 <= m < after.logins && m !in q.given
      ensures exists k :: k in q.index && Has(q, k) == Some(m)
    {
      if m == w.logins {
        assert Has(q, key) == Some(m);
      } else {
        var k :| k in p.index && Has(p, k) == Some(m);
        assert k in q.index && Has(q, k) == Some(m);
      }
    }
  }

  lemma EvictConserves(w: World, order: seq<Key>, after: World)
    requires Shaped(w) && Conserved(w) && AllIdle(w.pool, order)
    requires forall i, j :: 0 <= i < j < |order| ==> order[i] != order[j]
    requires after.pool == Evict(w.pool, order) && after.logins == w.logins && after.made == w.made
    ensures Shaped(after) && Conserved(after)
  {
    var p, q, out := w.pool, after.pool, Sessions(w.pool, order);
    forall i | 0 <= i < |order| ensures out[i] == Has(p, order[i]).value {}
    forall i, j | 0 <= i < j < |q.given| ensures q.given[i] != q.given[j] {
      if j >= |p.given| {
        assert q.given[j] == out[j - |p.given|] == Has(p, order[j - |p.given|]).value;
        if i >= |p.given| {
          assert q.given[i] == out[i - |p.given|] == Has(p, order[i - |p.given|]).value;
        }
      }
    }
    forall k | k in q.index && Has(q, k).Some? ensures Has(q, k).value !in q.given {
      forall i | 0 <= i < |out| ensures out[i] != Has(q, k).value {
        assert Has(p, order[i]) != Has(p, k);
      }
    }
    forall m | 0 <= m < after.logins && m !in q.given
      ensures exists k :: k in q.index && Has(q, k) == Some(m)
    {
      var k :| k in p.index && Has(p, k) == Some(m);
      forall i | 0 <= i < |order| ensures order[i] != k {
        assert q.given[|p.given| + i] == out[i];
      }
      assert k in q.index && Has(q, k) == Some(m);
    }
  }

  lemma SamePlacesConserve(w: World, after: World)
    requires Shaped(w) && Conserved(w) && Shaped(after)
    requires after.pool.given == w.pool.given && after.logins == w.logins
    requires w.pool.index.Keys <= after.pool.index.Keys
    requires forall k :: k in after.pool.index ==>
      Has(after.pool, k) == if k in w.pool.index then Has(w.pool, k) else None
    ensures Conserved(after)
  {
    forall m | 0 <= m < after.logins && m !in after.pool.given
      ensures exists k :: k in after.pool.index && Has(after.pool, k) == Some(m)
    {
      var k :| k in w.pool.index && Has(w.pool, k) == Some(m);
      assert Has(after.pool, k) == Some(m);
    }
  }

  // ----- each step keeps every session in its place

  lemma StepPlaces(w: World, step: Step)
    requires Good(w) && Enabled(w, step) && Disciplined(w, step)
    ensures Placed(Next(w, step))
  {
    match step
    case Claim(t, key) => ClaimPlaces(w, t, key);
    case Vouch(t, alive, refused) => VouchPlaces(w, t, alive, refused);
    case Room(t) => PhaseOnlyPlaces(w, t, step);
    case Open(t, ok) => OpenPlaces(w, t, ok);
    case Cancel(t) => PhaseOnlyPlaces(w, t, step);
    case Release(t, discard) => ReleasePlaces(w, t, discard);
    case Loose(t, key, discard) => LoosePlaces(w, t, key, discard);
    case Clean(t, ok, now) => CleanPlaces(w, t, ok, now);
    case Trim(order, fds, limit) => TrimPlaces(w, order, fds, limit);
    case ThreadEnds(place) => SamePlacesConserve(w, Next(w, step));
    case Shut(key) => ShutPlaces(w, key);
  }

  lemma PhaseOnlyPlaces(w: World, t: Task, step: Step)
    requires Placed(w) && Enabled(w, step) && (step == Room(t) || step == Cancel(t))
    ensures Placed(Next(w, step))
  {
    assert Owns(w, t);
    SamePlacesConserve(w, Next(w, step));
    OthersStillOwn(w, t, Next(w, step));
  }

  lemma ShutPlaces(w: World, key: Key)
    requires Placed(w) && Enabled(w, Shut(key)) && Unborrowed(w, key)
    ensures Placed(Next(w, Shut(key)))
  {
    var after := Next(w, Shut(key));
    if Has(w.pool, key).Some? {
      EndConserves(w, key, after);
    } else {
      DropEmptyConserves(w, key, after);
    }
    OwnersApart(w, key, after);
  }

  /** Nobody borrows the key, whose entry is gone, so its going disturbs no owner. */
  lemma OwnersApart(w: World, key: Key, after: World)
    requires Placed(w) && Unborrowed(w, key)
    requires forall t :: PhaseOf(after, t) == PhaseOf(w, t)
    requires after.pool.index == w.pool.index - {key} && after.pool.heap == w.pool.heap
    ensures Owned(after)
  {
    forall t | t in after.tasks ensures Owns(after, t) {
      if !PhaseOf(after, t).Away? {
        assert !Borrows(w, t, key) && Owns(w, t);
      }
    }
  }

  lemma LoosePlaces(w: World, t: Task, key: Key, discard: bool)
    requires Placed(w) && Enabled(w, Loose(t, key, discard)) && Disciplined(w, Loose(t, key, discard))
    ensures Placed(Next(w, Loose(t, key, discard)))
  {
    var after := Next(w, Loose(t, key, discard));
    if key !in w.pool.index || Has(w.pool, key).None? {
      DropEmptyConserves(w, key, after);
      OwnersApart(w, key, after);
    } else if discard || !w.pooling {
      EndConserves(w, key, after);
      OwnersApart(w, key, after);
    } else {
      SamePlacesConserve(w, after);
      OwnerComes(w, t, key, after);
    }
  }

  /** A task that was away now owns a key nobody borrowed. */
  lemma OwnerComes(w: World, t: Task, key: Key, after: World)
    requires Owned(w) && Unborrowed(w, key) && PhaseOf(w, t).Away? && after.pool == w.pool
    requires after.tasks == w.tasks[t := PhaseOf(after, t)] && !PhaseOf(after, t).Away?
    requires PhaseOf(after, t).key == key && Owns(after, t)
    ensures Owned(after)
  {
    forall u | u in after.tasks ensures Owns(after, u) {
      if u != t { assert Owns(w, u); }
    }
    forall u | u in w.tasks && u != t ensures w.tasks[u].Away? || w.tasks[u].key != key {
      assert !Borrows(w, u, key);
    }
  }

  lemma ClaimPlaces(w: World, t: Task, key: Key)
    requires Placed(w) && Enabled(w, Claim(t, key))
    ensures Placed(Next(w, Claim(t, key)))
  {
    var after := Next(w, Claim(t, key));
    assert Shaped(after);
    SamePlacesConserve(w, after);
    forall u | u in after.tasks ensures Owns(after, u) {
      if u != t { assert Owns(w, u); }
    }
  }

  lemma AlivePlaces(w: World, t: Task, refused: bool)
    requires Placed(w) && Enabled(w, Vouch(t, true, refused))
    ensures Placed(Next(w, Vouch(t, true, refused)))
  {
    var after := Next(w, Vouch(t, true, refused));
    assert Owns(w, t);
    SamePlacesConserve(w, after);
    assert IdleIsClean(after);
    OthersStillOwn(w, t, after);
  }

  lemma VouchPlaces(w: World, t: Task, alive: bool, refused: bool)
    requires Placed(w) && Enabled(w, Vouch(t, alive, refused))
    ensures Placed(Next(w, Vouch(t, alive, refused)))
  {
    if alive {
      AlivePlaces(w, t, refused);
    } else {
      var after := Next(w, Vouch(t, false, refused));
      var key := PhaseOf(w, t).key;
      assert Owns(w, t);
      var mid := w.(pool := Unvouched(w.pool, w.pool.index[key]));
      UnvouchedConserves(w, key, mid);
      if refused {
        DropEmptyConserves(mid, key, after);
      }
      OthersStillOwn(w, t, after);
    }
  }

  /** A step of t that touches only its own key and entry leaves the other owners as they were. */
  lemma OthersStillOwn(w: World, t: Task, after: World)
    requires Placed(w) && Shaped(after) && !PhaseOf(w, t).Away? && t in w.tasks
    requires after.tasks == w.tasks[t := PhaseOf(after, t)]
    requires PhaseOf(after, t).Away? || PhaseOf(after, t).key == PhaseOf(w, t).key
    requires Owns(after, t)
    requires forall k :: k != w.tasks[t].key && k in w.pool.index ==>
      && k in after.pool.index && after.pool.index[k] == w.pool.index[k]
      && after.pool.heap[w.pool.index[k]] == w.pool.heap[w.pool.index[k]]
    ensures Owned(after)
  {
    forall u | u in after.tasks ensures Owns(after, u) {
      if u != t { assert Owns(w, u); }
    }
  }

  lemma OpenPlaces(w: World, t: Task, ok: bool)
    requires Placed(w) && Enabled(w, Open(t, ok))
    ensures Placed(Next(w, Open(t, ok)))
  {
    var after := Next(w, Open(t, ok));
    assert Owns(w, t);
    if ok {
      OpenedConserves(w, PhaseOf(w, t).key, after);
    } else {
      DropEmptyConserves(w, PhaseOf(w, t).key, after);
    }
    OthersStillOwn(w, t, after);
  }

  lemma ReleasePlaces(w: World, t: Task, discard: bool)
    requires Placed(w) && Enabled(w, Release(t, discard))
    ensures Placed(Next(w, Release(t, discard)))
  {
    var after := Next(w, Release(t, discard));
    assert Owns(w, t);
    if discard || !w.pooling {
      EndConserves(w, PhaseOf(w, t).key, after);
    } else {
      SamePlacesConserve(w, after);
    }
    OthersStillOwn(w, t, after);
  }

  lemma CleanPlaces(w: World, t: Task, ok: bool, now: int)
    requires Placed(w) && Enabled(w, Clean(t, ok, now))
    ensures Placed(Next(w, Clean(t, ok, now)))
  {
    var after := Next(w, Clean(t, ok, now));
    assert Owns(w, t);
    if ok {
      SamePlacesConserve(w, after);
    } else {
      EndConserves(w, PhaseOf(w, t).key, after);
    }
    OthersStillOwn(w, t, after);
  }

  lemma TrimPlaces(w: World, order: seq<Key>, fds: int, limit: int)
    requires Placed(w) && Enabled(w, Trim(order, fds, limit))
    ensures Placed(Next(w, Trim(order, fds, limit)))
  {
    var after := Next(w, Trim(order, fds, limit));
    var n := EvictCount(|order|, Shortfall(w.pool, fds, limit));
    EvictConserves(w, order[..n], after);
    forall u | u in after.tasks ensures Owns(after, u) {
      assert Owns(w, u);
    }
  }

  // ----- and every entry in use accounted for

  /** Nobody moved, and the entries in use and the cut keys are the same. */
  lemma SameBorrowers(w: World, after: World)
    requires Shaped(w) && Accounted(w) && Shaped(after) && after.tasks == w.tasks && after.cut == w.cut
    requires forall k :: InUse(after.pool, k) <==> InUse(w.pool, k)
    ensures Accounted(after)
  {
    forall k | InUse(after.pool, k) && k !in after.cut ensures exists t :: Borrows(after, t, k) {
      var t :| Borrows(w, t, k);
      assert Borrows(after, t, k);
    }
    forall k, t | k in after.cut ensures !Borrows(after, t, k) {
      assert Unborrowed(w, k) && !Borrows(w, t, k);
    }
  }

  /** One task's step changes only its own key: for every other key the entry in use, the cut and the borrowers
      stay. */
  lemma OneBorrower(w: World, t: Task, key: Key, after: World)
    requires Shaped(w) && Accounted(w) && Shaped(after)
    requires after.tasks == w.tasks[t := PhaseOf(after, t)]
    requires PhaseOf(w, t).Away? || PhaseOf(w, t).key == key
    requires PhaseOf(after, t).Away? || PhaseOf(after, t).key == key
    requires forall k :: k != key ==> (InUse(after.pool, k) <==> InUse(w.pool, k)) && (k in after.cut <==> k in w.cut)
    requires forall u :: u != t ==> !Borrows(w, u, key)
    requires if PhaseOf(after, t).Away? then key in after.cut <==> InUse(after.pool, key) else key !in after.cut
    ensures Accounted(after)
  {
    forall k | InUse(after.pool, k) && k !in after.cut ensures exists u :: Borrows(after, u, k) {
      if k == key {
        assert Borrows(after, t, key);
      } else {
        var u :| Borrows(w, u, k);
        assert Borrows(after, u, k);
      }
    }
    forall k, u | k in after.cut ensures !Borrows(after, u, k) {
      if k != key {
        assert Unborrowed(w, k) && !Borrows(w, u, k);
      } else if u != t {
        assert !Borrows(w, u, key);
      }
    }
  }

  /** A borrower is its key's only one, and the key is not cut. */
  lemma Alone(w: World, t: Task)
    requires Good(w) && !PhaseOf(w, t).Away?
    ensures PhaseOf(w, t).key !in w.cut && forall u :: u != t ==> !Borrows(w, u, PhaseOf(w, t).key)
  {
    assert Borrows(w, t, PhaseOf(w, t).key);
  }

  lemma BorrowerAccounts(w: World, step: Step)
    requires Good(w) && Enabled(w, step) && Shaped(Next(w, step))
    requires step.Room? || step.Cancel? || step.Release? || step.Clean?
    ensures Accounted(Next(w, step))
  {
    var t := step.t;
    assert Owns(w, t);
    Alone(w, t);
    OneBorrower(w, t, PhaseOf(w, t).key, Next(w, step));
  }

  lemma VouchAccounts(w: World, t: Task, alive: bool, refused: bool)
    requires Good(w) && Enabled(w, Vouch(t, alive, refused)) && Shaped(Next(w, Vouch(t, alive, refused)))
    ensures Accounted(Next(w, Vouch(t, alive, refused)))
  {
    assert Owns(w, t);
    Alone(w, t);
    OneBorrower(w, t, PhaseOf(w, t).key, Next(w, Vouch(t, alive, refused)));
  }

  lemma OpenAccounts(w: World, t: Task, ok: bool)
    requires Good(w) && Enabled(w, Open(t, ok)) && Shaped(Next(w, Open(t, ok)))
    ensures Accounted(Next(w, Open(t, ok)))
  {
    assert Owns(w, t);
    Alone(w, t);
    OneBorrower(w, t, PhaseOf(w, t).key, Next(w, Open(t, ok)));
  }

  lemma ClaimAccounts(w: World, t: Task, key: Key)
    requires Good(w) && Enabled(w, Claim(t, key)) && Shaped(Next(w, Claim(t, key)))
    ensures Accounted(Next(w, Claim(t, key)))
  {
    forall u ensures !Borrows(w, u, key) {
      if u in w.tasks { assert Owns(w, u); }
    }
    assert key !in w.cut;
    OneBorrower(w, t, key, Next(w, Claim(t, key)));
  }

  lemma LooseAccounts(w: World, t: Task, key: Key, discard: bool)
    requires Good(w) && Enabled(w, Loose(t, key, discard)) && Disciplined(w, Loose(t, key, discard))
    requires Shaped(Next(w, Loose(t, key, discard)))
    ensures Accounted(Next(w, Loose(t, key, discard)))
  {
    assert forall u :: !Borrows(w, u, key);
    OneBorrower(w, t, key, Next(w, Loose(t, key, discard)));
  }

  lemma ShutAccounts(w: World, key: Key)
    requires Good(w) && Enabled(w, Shut(key)) && Unborrowed(w, key) && Shaped(Next(w, Shut(key)))
    ensures Accounted(Next(w, Shut(key)))
  {
    var after := Next(w, Shut(key));
    forall k | InUse(after.pool, k) && k !in after.cut ensures exists t :: Borrows(after, t, k) {
      var t :| Borrows(w, t, k);
      assert Borrows(after, t, k);
    }
    forall k, t | k in after.cut ensures !Borrows(after, t, k) {
      assert Unborrowed(w, k) && !Borrows(w, t, k);
    }
  }

  lemma StepKeeps(w: World, step: Step)
    requires Good(w) && Enabled(w, step) && Disciplined(w, step)
    ensures Good(Next(w, step))
  {
    StepPlaces(w, step);
    match step
    case Claim(t, key) => ClaimAccounts(w, t, key);
    case Vouch(t, alive, refused) => VouchAccounts(w, t, alive, refused);
    case Open(t, ok) => OpenAccounts(w, t, ok);
    case Loose(t, key, discard) => LooseAccounts(w, t, key, discard);
    case Trim(order, fds, limit) => SameBorrowers(w, Next(w, step));
    case ThreadEnds(place) => SameBorrowers(w, Next(w, step));
    case Shut(key) => ShutAccounts(w, key);
    case _ => BorrowerAccounts(w, step);
  }

  /** Closing a key is safe exactly when nobody borrows it. */
  lemma ShutIff(w: World, key: Key)
    requires Good(w) && Enabled(w, Shut(key))
    ensures Good(Next(w, Shut(key))) <==> Unborrowed(w, key)
  {
    if Unborrowed(w, key) {
      StepKeeps(w, Shut(key));
    } else {
      var t :| Borrows(w, t, key);
      assert t in Next(w, Shut(key)).tasks && !Owns(Next(w, Shut(key)), t);
    }
  }

  // ----- over every run

  lemma {:induction false} EveryRunConserves(w: World, steps: seq<Step>)
    requires Good(w) && Runs(w, steps) && AllDisciplined(w, steps)
    ensures Good(After(w, steps))
    decreases steps
  {
    if steps != [] {
      StepKeeps(w, steps[0]);
      EveryRunConserves(Next(w, steps[0]), steps[1..]);
    }
  }

  ghost predicate GivenOnce(w: World, n: SessionId) {
    exists i :: 0 <= i < |w.pool.given| && GivenAt(w, n, i)
  }

  ghost predicate GivenAt(w: World, n: SessionId, i: nat)
    requires i < |w.pool.given|
  {
    w.pool.given[i] == n && forall j :: 0 <= j < |w.pool.given| && j != i ==> w.pool.given[j] != n
  }

  /** The session is at the key and nowhere else: no other key has it, and no close was given it. */
  ghost predicate OnlyAt(w: World, n: SessionId, key: Key)
    requires WellFormed(w.pool)
  {
    && key in w.pool.index && Has(w.pool, key) == Some(n) && n !in w.pool.given
    && forall k :: k in w.pool.index && Has(w.pool, k) == Some(n) ==> k == key
  }

  /** The session is at the key alone, and there idle and clean, or borrowed by exactly one owner, or left behind by
      a borrower that was cancelled. */
  ghost predicate StandsAt(w: World, n: SessionId, key: Key)
    requires WellFormed(w.pool)
  {
    && OnlyAt(w, n, key)
    && if !InUse(w.pool, key) then n in w.clean && Unborrowed(w, key)
       else if key in w.cut then Unborrowed(w, key)
       else OneBorrows(w, key)
  }

  /** Session conservation: in every interleaving of disciplined borrowers, evictions, thread ends and closes, each
      session that was opened is in exactly one place. It was given to one close and is at no key, or it is at one
      key: idle, borrowed by one owner, or left behind by a cancelled one. */
  lemma EverySessionPlaced(pooling: bool, steps: seq<Step>, n: SessionId)
    requires Runs(Fresh(pooling), steps) && AllDisciplined(Fresh(pooling), steps)
    requires n < After(Fresh(pooling), steps).logins
    ensures var w := After(Fresh(pooling), steps);
            && WellFormed(w.pool)
            && if n in w.pool.given then
                 GivenOnce(w, n) && forall k :: k in w.pool.index ==> Has(w.pool, k) != Some(n)
               else exists key :: StandsAt(w, n, key)
  {
    var w := After(Fresh(pooling), steps);
    EveryRunConserves(Fresh(pooling), steps);
    if n in w.pool.given {
      var i :| 0 <= i < |w.pool.given| && w.pool.given[i] == n;
      assert GivenAt(w, n, i);
    } else {
      var key :| key in w.pool.index && Has(w.pool, key) == Some(n);
      BorrowedByOne(w, key);
      assert StandsAt(w, n, key);
    }
  }

  ghost predicate OneBorrows(w: World, key: Key) {
    exists t :: Borrows(w, t, key) && forall u :: Borrows(w, u, key) ==> u == t
  }

  lemma BorrowedByOne(w: World, key: Key)
    requires Good(w) && key in w.pool.index
    ensures if InUse(w.pool, key) && key !in w.cut then OneBorrows(w, key) else Unborrowed(w, key)
  {
    if InUse(w.pool, key) && key !in w.cut {
      var t :| Borrows(w, t, key);
      Alone(w, t);
    } else if !InUse(w.pool, key) {
      forall t ensures !Borrows(w, t, key) {
        if t in w.tasks { assert Owns(w, t); }
      }
    }
  }

  /** Somewhere in the run a borrower of the key is cancelled. */
  ghost predicate CancelledIn(w: World, steps: seq<Step>, key: Key)
    requires Runs(w, steps)
    decreases steps
  {
    steps != []
    && ((steps[0].Cancel? && PhaseOf(w, steps[0].t).key == key) || CancelledIn(Next(w, steps[0]), steps[1..], key))
  }

  /** Only a cancelled borrower of a key leaves its entry behind. */
  lemma {:induction false} CutByCancel(w: World, steps: seq<Step>, key: Key)
    requires Runs(w, steps) && key in After(w, steps).cut && key !in w.cut
    ensures CancelledIn(w, steps, key)
    decreases steps
  {
    if !(steps[0].Cancel? && PhaseOf(w, steps[0].t).key == key) {
      CutByCancel(Next(w, steps[0]), steps[1..], key);
    }
  }

  /** The same, told of the borrowers: no two tasks ever hold the same session, and a held session is neither idle
      nor closed. */
  lemma HeldByOne(pooling: bool, steps: seq<Step>, t: Task, u: Task)
    requires Runs(Fresh(pooling), steps) && AllDisciplined(Fresh(pooling), steps)
    requires PhaseOf(After(Fresh(pooling), steps), t).Holding?
    ensures var w := After(Fresh(pooling), steps);
            var session := PhaseOf(w, t).session;
            && WellFormed(w.pool) && session < w.logins && session !in w.pool.given
            && (forall k :: k in w.pool.index && Has(w.pool, k) == Some(session) ==> w.pool.heap[w.pool.index[k]].inUse)
            && (t != u && PhaseOf(w, u).Holding? ==> PhaseOf(w, u).session != session)
  {
    var w := After(Fresh(pooling), steps);
    EveryRunConserves(Fresh(pooling), steps);
    assert Owns(w, t) && Owns(w, u);
    assert Has(w.pool, PhaseOf(w, t).key) == Some(PhaseOf(w, t).session);
  }

  function Shuts(order: seq<Key>): seq<Step> {
    seq(|order|, i requires 0 <= i < |order| => Shut(order[i]))
  }

  lemma {:induction false} RunsOneMore(w: World, steps: seq<Step>, step: Step)
    requires Runs(w, steps) && Enabled(After(w, steps), step)
    ensures Runs(w, steps + [step]) && After(w, steps + [step]) == Next(After(w, steps), step)
    ensures AllDisciplined(w, steps) && Disciplined(After(w, steps), step) ==> AllDisciplined(w, steps + [step])
    decreases steps
  {
    if steps == [] {
      assert [step][1..] == [];
    } else {
      RunsOneMore(Next(w, steps[0]), steps[1..], step);
      assert (steps + [step])[1..] == steps[1..] + [step];
    }
  }

  /** Shutting the keys in order is a disciplined run from w, and does what close_all does. */
  ghost predicate ShutsRun(w: World, order: seq<Key>) {
    && Runs(w, Shuts(order)) && AllDisciplined(w, Shuts(order))
    && WellFormed(w.pool) && KeysOnce(w.pool, order)
    && var after := After(w, Shuts(order)); after.pool == ShutAll(w.pool, order) && after.tasks == w.tasks
  }

  lemma ShutsNext(w: World, order: seq<Key>, key: Key)
    requires ShutsRun(w, order) && key in w.pool.index && key !in order && forall t :: PhaseOf(w, t).Away?
    ensures ShutsRun(w, order + [key])
  {
    var after := After(w, Shuts(order));
    assert key in after.pool.index;
    assert Enabled(after, Shut(key));
    assert forall t :: PhaseOf(after, t) == PhaseOf(w, t);
    assert Disciplined(after, Shut(key));
    RunsOneMore(w, Shuts(order), Shut(key));
    ShutAllNext(w.pool, order, key);
    assert Shuts(order + [key]) == Shuts(order) + [Shut(key)];
  }

  /** close_all with no borrower about is a disciplined run: each kept session goes to exactly one close. */
  lemma {:induction false} CloseAllRuns(w: World, order: seq<Key>)
    requires WellFormed(w.pool) && KeysOnce(w.pool, order) && forall t :: PhaseOf(w, t).Away?
    ensures ShutsRun(w, order)
    decreases |order|
  {
    if order != [] {
      var n := |order| - 1;
      var fewer := order[..n];
      assert forall i :: 0 <= i < n ==> fewer[i] == order[i];
      CloseAllRuns(w, fewer);
      ShutsNext(w, fewer, order[n]);
      assert order == fewer + [order[n]];
    }
  }

  /** A close under a borrower breaks it: a close_all while a borrower is still opening leaves the session it then
      opens in no place at all. */
  lemma CloseAllDuringOpenLoses()
    ensures var steps := [Claim(0, 0), Room(0), Shut(0), Open(0, true)];
            && Runs(Fresh(true), steps)
            && var w := After(Fresh(true), steps);
               w.logins == 1 && 0 !in w.pool.given && forall k :: k in w.pool.index ==> Has(w.pool, k) != Some(0)
  {
    var w0 := Fresh(true);
    var w1 := Next(w0, Claim(0, 0));
    var w2 := Next(w1, Room(0));
    var w3 := Next(w2, Shut(0));
    var w4 := Next(w3, Open(0, true));
    var steps := [Claim(0, 0), Room(0), Shut(0), Open(0, true)];
    assert steps[1..] == [Room(0), Shut(0), Open(0, true)];
    assert steps[1..][1..] == [Shut(0), Open(0, true)];
    assert steps[1..][1..][1..] == [Open(0, true)];
    assert After(w3, [Open(0, true)]) == w4;
    assert After(w2, [Shut(0), Open(0, true)]) == w4;
  }
}
