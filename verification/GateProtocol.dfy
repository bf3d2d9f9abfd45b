/** The safety gate's bookkeeping: reservations, the login window, and cooldowns merged with a shared file. */
module GateProtocol {

  type Key = string
  type Time = real
  const WINDOW: Time := 60.0

  type Cooldowns = map<Key, Time>

  /** What the safety file holds; Broken is anything the reader rejects. */
  datatype File = Missing | Stored(cooldowns: Cooldowns) | Broken

  /** The file, and whether a broken one has been set aside beside it. */
  datatype Disk = Disk(main: File, quarantined: bool)

  /** How one locked file access goes: done, failed before anything changed, or failed after the new file was in
      place. */
  datatype Access = Works | Fails | FailsLate

  datatype Gate = Gate(
    limit: nat, cooldown: nat, persistent: bool,
    active: set<Key>, attempts: map<Key, seq<Time>>, cooldowns: Cooldowns, failed: bool, closed: bool)

  datatype Answer = Admitted | Refused(why: Why) | Unusable
  datatype Why = CoolingDown | Busy | RateLimited

  predicate Usable(g: Gate) {
    !g.closed && !g.failed
  }

  function Later(a: Time, b: Time): Time { if a < b then b else a }

  /** The expiry two cooldown tables give a key together. */
  function Joined(a: Cooldowns, b: Cooldowns, key: Key): Time
    requires key in a || key in b
  {
    if key !in a then b[key] else if key !in b then a[key] else Later(a[key], b[key])
  }

  /** Both tables, the later expiry for each key, what has expired by now pruned. */
  function Merge(stored: Cooldowns, own: Cooldowns, now: Time): Cooldowns {
    map key | key in stored.Keys + own.Keys && Joined(stored, own, key) > now :: Joined(stored, own, key)
  }

  function Sync(g: Gate, d: Disk, now: Time, access: Access, persist: bool): (Gate, Disk, bool) {
    if !Usable(g) then (g, d, false)
    else if !g.persistent then (g.(cooldowns := Merge(map[], g.cooldowns, now)), d, true)
    else if access.Fails? || d.quarantined then (g.(failed := true), d, false)
    else if d.main.Broken? then (g.(failed := true), Disk(Missing, true), false)
    else
      var merged := Merge(if d.main.Stored? then d.main.cooldowns else map[], g.cooldowns, now);
      var written := if persist then d.(main := Stored(merged)) else d;
      if persist && access.FailsLate? then (g.(failed := true), written, false)
      else (g.(cooldowns := merged), written, true)
  }

  predicate Cooling(g: Gate, key: Key, now: Time) {
    key in g.cooldowns && g.cooldowns[key] > now
  }

  /** A login a window or more ago. */
  predicate Stale(time: Time, now: Time) {
    now - time >= WINDOW
  }

  ghost predicate Sorted(times: seq<Time>) {
    forall i, j :: 0 <= i < j < |times| ==> times[i] <= times[j]
  }

  /** The entries still inside the window. */
  function Recent(times: seq<Time>, now: Time): seq<Time> {
    if times == [] then []
    else
      var rest := Recent(times[..|times| - 1], now);
      if Stale(times[|times| - 1], now) then rest else rest + [times[|times| - 1]]
  }

  function Attempts(g: Gate, key: Key): seq<Time> {
    if key in g.attempts then g.attempts[key] else []
  }

  function CountLogin(g: Gate, key: Key, now: Time): (Gate, Answer) {
    if !Usable(g) then (g, Unusable)
    else
      var recent := Recent(Attempts(g, key), now);
      if |recent| >= g.limit then (g.(attempts := g.attempts[key := recent]), Refused(RateLimited))
      else (g.(attempts := g.attempts[key := recent + [now]]), Admitted)
  }

  /** check_device once its merge is done; `wall` is the clock cooldowns are told by, `now` the login window's. */
  function Decide(g: Gate, key: Key, login: bool, wall: Time, now: Time): (Gate, Answer) {
    if Cooling(g, key, wall) then (g, Refused(CoolingDown))
    else if key in g.active then (g, Refused(Busy))
    else if login then
      var (counted, answer) := CountLogin(g, key, now);
      (if answer.Admitted? then counted.(active := counted.active + {key}) else counted, answer)
    else (g.(active := g.active + {key}), Admitted)
  }

  function CheckDevice(g: Gate, d: Disk, key: Key, login: bool, merged: Time, wall: Time, now: Time, access: Access)
    : (Gate, Disk, Answer)
  {
    var (synced, disk, ok) := Sync(g, d, merged, access, false);
    if !ok then (synced, disk, Unusable)
    else
      var (decided, answer) := Decide(synced, key, login, wall, now);
      (decided, disk, answer)
  }

  /** set_cooldown: its expiry is told at `set`, its merge happens at `merged`. */
  function SetCooldown(g: Gate, d: Disk, key: Key, set_: Time, merged: Time, access: Access): (Gate, Disk, bool) {
    if !Usable(g) then (g, d, false)
    else
      var expires := set_ + g.cooldown as real;
      var cooled := g.(active := g.active - {key},
                       cooldowns := g.cooldowns[key := if key in g.cooldowns then Later(expires,
                           g.cooldowns[key]) else expires]);
      Sync(cooled, d, merged, access, true)
  }

  function ReleaseDevice(g: Gate, key: Key): Gate {
    g.(active := g.active - {key})
  }

  function Close(g: Gate, d: Disk, now: Time, access: Access): (Gate, Disk, bool) {
    if g.closed then (g, d, true)
    else
      var (synced, disk, ok) := Sync(g, d, now, access, true);
      (synced.(closed := true, active := {}, attempts := map[]), disk, ok)
  }

  // ----- the merge

  /** A merge never lowers an expiry that has not passed, and never keeps one that has. */
  lemma MergeKeeps(stored: Cooldowns, own: Cooldowns, now: Time)
    ensures var merged := Merge(stored, own, now);
            && (forall key :: key in stored && stored[key] > now ==> key in merged && merged[key] >= stored[key])
            && (forall key :: key in own && own[key] > now ==> key in merged && merged[key] >= own[key])
            && (forall key :: key in merged ==>
                  merged[key] > now
                  && ((key in stored && merged[key] == stored[key]) || (key in own && merged[key] == own[key])))
  {
  }

  // ----- the sliding window

  lemma StaleBefore(times: seq<Time>, now: Time, i: nat, j: nat)
    requires Sorted(times) && i <= j < |times| && Stale(times[j], now)
    ensures Stale(times[i], now)
  {
    assert times[i] <= times[j];
  }

  lemma {:induction false} RecentFacts(times: seq<Time>, now: Time)
    requires Sorted(times)
    ensures var recent := Recent(times, now);
            && |recent| <= |times| && recent == times[|times| - |recent|..]
            && (forall i :: 0 <= i < |times| - |recent| ==> Stale(times[i], now))
            && (forall i :: 0 <= i < |recent| ==> !Stale(recent[i], now))
  {
    if times != [] {
      var shorter, last := times[..|times| - 1], |times| - 1;
      RecentFacts(shorter, now);
      var rest := Recent(shorter, now);
      if Stale(times[last], now) {
        forall i | 0 <= i < |times| ensures Stale(times[i], now) {
          StaleBefore(times, now, i, last);
        }
      } else {
        assert times[|times| - |rest| - 1..] == rest + [times[last]];
      }
    }
  }

  datatype Login = Login(key: Key, now: Time)

  /** Successive count_login calls on one gate, from admissions and reopenings alike. */
  function AfterLogins(g: Gate, calls: seq<Login>): Gate {
    if calls == [] then g
    else CountLogin(AfterLogins(g, calls[..|calls| - 1]), calls[|calls| - 1].key, calls[|calls| - 1].now).0
  }

  /** The times at which the calls counted a login to the key. */
  function Counted(g: Gate, calls: seq<Login>, key: Key): seq<Time> {
    if calls == [] then []
    else
      var before, last := calls[..|calls| - 1], calls[|calls| - 1];
      if last.key == key && CountLogin(AfterLogins(g, before), last.key, last.now).1.Admitted?
      then Counted(g, before, key) + [last.now]
      else Counted(g, before, key)
  }

  function Calls(calls: seq<Login>, key: Key): nat {
    if calls == [] then 0
    else Calls(calls[..|calls| - 1], key) + if calls[|calls| - 1].key == key then 1 else 0
  }

  ghost predicate Monotone(calls: seq<Login>) {
    forall i, j :: 0 <= i < j < |calls| ==> calls[i].now <= calls[j].now
  }

  ghost predicate FreshGate(g: Gate) {
    Usable(g) && g.attempts == map[]
  }

  /** `kept` is the tail of the sorted times `all`, none later than `now`, and the rest are a window old. */
  ghost predicate Tail(all: seq<Time>, kept: seq<Time>, now: Time) {
    && |kept| <= |all| && kept == all[|all| - |kept|..]
    && Sorted(all) && (forall i :: 0 <= i < |all| ==> all[i] <= now)
    && (forall i :: 0 <= i < |all| - |kept| ==> Stale(all[i], now))
  }

  /** What is pruned from the window has left it for good: the kept attempts are the tail of all counted ones, and
      the rest are a window old. */
  lemma {:induction false} KeptAreTheTail(g: Gate, calls: seq<Login>, key: Key, now: Time)
    requires FreshGate(g) && Monotone(calls) && (calls != [] ==> calls[|calls| - 1].now <= now)
    ensures var after := AfterLogins(g, calls);
            && after == g.(attempts := after.attempts)
            && Tail(Counted(g, calls, key), Attempts(after, key), now)
            && |Counted(g, calls, key)| <= Calls(calls, key)
  {
    if calls != [] {
      var before, last := calls[..|calls| - 1], calls[|calls| - 1];
      KeptAreTheTail(g, before, key, last.now);
      CountStep(AfterLogins(g, before), last, key, Counted(g, before, key));
      TailLater(Counted(g, calls, key), Attempts(AfterLogins(g, calls), key), last.now, now);
    }
  }

  lemma CountStep(g: Gate, call: Login, key: Key, past: seq<Time>)
    requires Usable(g) && Tail(past, Attempts(g, key), call.now)
    ensures var (after, answer) := CountLogin(g, call.key, call.now);
            && after == g.(attempts := after.attempts)
            && Tail(if call.key == key && answer.Admitted? then past + [call.now] else past,
                    Attempts(after, key), call.now)
  {
    CountedNext(past, Attempts(g, key), call.now);
  }

  lemma TailLater(all: seq<Time>, kept: seq<Time>, then_: Time, now: Time)
    requires Tail(all, kept, then_) && then_ <= now
    ensures Tail(all, kept, now)
  {
    forall i | 0 <= i < |all| - |kept| ensures Stale(all[i], now) {
      assert Stale(all[i], then_);
    }
  }

  /** One more login at `now`: the recent part of the kept attempts is still the tail of all, and everything before
      it is a window old. */
  lemma CountedNext(past: seq<Time>, kept: seq<Time>, now: Time)
    requires Tail(past, kept, now)
    ensures Tail(past, Recent(kept, now), now) && Tail(past + [now], Recent(kept, now) + [now], now)
  {
    RecentFacts(kept, now);
    var recent := Recent(kept, now);
    forall i | 0 <= i < |past| - |recent| ensures Stale(past[i], now) {
      if i >= |past| - |kept| {
        assert past[i] == kept[i - (|past| - |kept|)];
      }
    }
    assert recent == past[|past| - |recent|..];
  }

  /** With fewer than `limit` recent ones at its tail, the time `limit` before the end is a window old. */
  lemma OldestIsStale(past: seq<Time>, recent: seq<Time>, now: Time, limit: nat, i: nat)
    requires Tail(past, recent, now) && |recent| < limit && i + limit == |past|
    ensures i < |past| && Stale(past[i], now)
  {
  }

  /** A login counted when a window's worth is behind it: the one `limit` back is a window old. */
  lemma NextIsStale(g: Gate, past: seq<Time>, last: Login, i: nat)
    requires Tail(past, Attempts(g, last.key), last.now) && i + g.limit == |past|
    requires CountLogin(g, last.key, last.now).1.Admitted?
    ensures i < |past| && Stale(past[i], last.now)
  {
    var recent := Recent(Attempts(g, last.key), last.now);
    CountedNext(past, Attempts(g, last.key), last.now);
    OldestIsStale(past, recent, last.now, g.limit, i);
  }

  /** The sliding window: over any monotone sequence of calls, any `limit` + 1 counted logins to one device span at
      least a window, so no window holds more than `limit`. */
  lemma {:induction false} WindowHolds(g: Gate, calls: seq<Login>, key: Key, i: nat)
    requires FreshGate(g) && Monotone(calls) && i + g.limit < |Counted(g, calls, key)|
    ensures Stale(Counted(g, calls, key)[i], Counted(g, calls, key)[i + g.limit])
  {
    var before, last := calls[..|calls| - 1], calls[|calls| - 1];
    var past := Counted(g, before, key);
    if i + g.limit < |past| {
      WindowHolds(g, before, key, i);
    } else {
      KeptAreTheTail(g, before, key, last.now);
      NextIsStale(AfterLogins(g, before), past, last, i);
    }
  }

  /** A device asked for no more logins than the limit is never refused one by the rate limit. */
  lemma EnoughAllowance(g: Gate, calls: seq<Login>, key: Key, n: nat)
    requires FreshGate(g) && Monotone(calls) && n < |calls| && calls[n].key == key
    requires Calls(calls[..n], key) < g.limit
    ensures CountLogin(AfterLogins(g, calls[..n]), key, calls[n].now).1.Admitted?
  {
    KeptAreTheTail(g, calls[..n], key, calls[n].now);
    RecentFacts(Attempts(AfterLogins(g, calls[..n]), key), calls[n].now);
  }

  /** A refused admission reserves nothing and leaves every device's count of recent logins as it was. */
  lemma RefusalKeepsCount(g: Gate, key: Key, login: bool, wall: Time, now: Time, other: Key)
    requires forall k :: k in g.attempts ==> Sorted(g.attempts[k])
    ensures var (after, answer) := Decide(g, key, login, wall, now);
            !answer.Admitted? ==>
              after.active == g.active && Recent(Attempts(after, other), now) == Recent(Attempts(g, other), now)
  {
    RecentFacts(Attempts(g, other), now);
    RecentAgain(Attempts(g, other), now);
  }

  lemma RecentAgain(times: seq<Time>, now: Time)
    requires Sorted(times)
    ensures Recent(Recent(times, now), now) == Recent(times, now)
  {
    RecentFacts(times, now);
    var recent := Recent(times, now);
    RecentFacts(recent, now);
    assert recent[|recent| - |Recent(recent, now)|..] == Recent(recent, now);
  }
}
