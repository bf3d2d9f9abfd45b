/** Any number of safety gates, each its own process, on one safety file. */
module GateRuns {
  import opened GateProtocol

  type GateId = nat

  /** A check_device whose merge is done and whose decision is not: its gate's lock is held, and `since` tells when
      it merged. */
  datatype Check = Check(key: Key, login: bool, since: nat)

  /** `now` is the wall clock all processes share; `steps` numbers the locked accesses. */
  datatype World = World(disk: Disk, gates: map<GateId, Gate>, checks: map<GateId, Check>, now: Time, steps: nat)

  datatype Step =
    | Start(g: GateId, limit: nat, cooldown: nat, access: Access)
    | Begin(g: GateId, key: Key, login: bool, access: Access)
    | Decision(g: GateId, mono: Time)
    | Cool(g: GateId, key: Key, set_: Time, access: Access)
    | Count(g: GateId, key: Key, mono: Time)
    | Free(g: GateId, key: Key)
    | Holds(g: GateId, access: Access)
    | Finish(g: GateId, access: Access)
    | Damage
    | Pass(now: Time)

  predicate Enabled(w: World, step: Step) {
    match step
    case Start(g, _, _, _) => g !in w.gates
    case Decision(g, _) => g in w.gates && g in w.checks
    case Cool(g, _, set_, _) => g in w.gates && g !in w.checks && set_ <= w.now
    case Pass(now) => now >= w.now
    case Damage => true
    case _ => step.g in w.gates && step.g !in w.checks
  }

  function Put(w: World, g: GateId, gate: Gate, disk: Disk): World {
    w.(gates := w.gates[g := gate], disk := disk, steps := w.steps + 1)
  }

  /** One gate's locked access, or the part of a call that needs no file. */
  function Next(w: World, step: Step): World
    requires Enabled(w, step)
  {
    match step
    case Start(g, limit, cooldown, access) =>
      var (gate, disk, _) := Sync(Gate(limit, cooldown, true, {}, map[], map[], false, false), w.disk, w.now,
          access, true);
      Put(w, g, gate, disk)
    case Begin(g, key, login, access) =>
      var (gate, disk, ok) := Sync(w.gates[g], w.disk, w.now, access, false);
      Put(w, g, gate, disk).(checks := if ok then w.checks[g := Check(key, login, w.steps)] else w.checks)
    case Decision(g, mono) =>
      Put(w, g, Decide(w.gates[g], w.checks[g].key, w.checks[g].login, w.now, mono).0,
          w.disk).(checks := w.checks - {g})
    case Cool(g, key, set_, access) =>
      var (gate, disk, _) := GateProtocol.SetCooldown(w.gates[g], w.disk, key, set_, w.now, access);
      Put(w, g, gate, disk)
    case Count(g, key, mono) => Put(w, g, CountLogin(w.gates[g], key, mono).0, w.disk)
    case Free(g, key) => Put(w, g, ReleaseDevice(w.gates[g], key), w.disk)
    case Holds(g, access) =>
      var (gate, disk, _) := Sync(w.gates[g], w.disk, w.now, access, false);
      Put(w, g, gate, disk)
    case Finish(g, access) =>
      var (gate, disk, _) := GateProtocol.Close(w.gates[g], w.disk, w.now, access);
      Put(w, g, gate, disk)
    case Damage => w.(disk := w.disk.(main := Broken))
    case Pass(now) => w.(now := now)
  }

  predicate Runs(w: World, steps: seq<Step>)
    decreases steps
  {
    steps != [] ==> Enabled(w, steps[0]) && Runs(Next(w, steps[0]), steps[1..])
  }

  function After(w: World, steps: seq<Step>): World
    requires Runs(w, steps)
    decreases steps
  {
    if steps == [] then w else After(Next(w, steps[0]), steps[1..])
  }

  /** Every gate here shares the file. */
  predicate Shared(w: World) {
    forall g :: g in w.gates ==> w.gates[g].persistent
  }

  /** The file still says the key cools until `until`, or no gate can read it any more. */
  predicate Protects(disk: Disk, key: Key, until: Time) {
    || disk.quarantined || disk.main.Broken?
    || (disk.main.Stored? && key in disk.main.cooldowns && disk.main.cooldowns[key] >= until)
  }

  predicate Remembers(g: Gate, key: Key, until: Time) {
    key in g.cooldowns && g.cooldowns[key] >= until
  }

  /** Until the expiry: the file protects the key, and so does every gate whose check merged at `since` or later. */
  predicate Guarded(w: World, key: Key, until: Time, since: nat) {
    && since <= w.steps
    && (w.now < until ==>
          && Protects(w.disk, key, until)
          && forall g :: g in w.checks && w.checks[g].since >= since ==>
               g in w.gates && Remembers(w.gates[g], key, until))
  }

  /** A locked access never lowers an expiry that has not passed, and after a good one the gate knows it too. */
  lemma SyncProtects(g: Gate, d: Disk, now: Time, access: Access, persist: bool, key: Key, until: Time)
    requires g.persistent && now < until && Protects(d, key, until)
    ensures var (gate, disk, ok) := Sync(g, d, now, access, persist);
            && Protects(disk, key, until) && (ok ==> Remembers(gate, key, until)) && gate.persistent
  {
    MergeKeeps(if d.main.Stored? then d.main.cooldowns else map[], g.cooldowns, now);
  }

  lemma StepGuards(w: World, step: Step, key: Key, until: Time, since: nat)
    requires Shared(w) && Enabled(w, step) && Guarded(w, key, until, since)
    ensures Shared(Next(w, step)) && Guarded(Next(w, step), key, until, since)
  {
    if w.now < until {
      match step
      case Start(g, limit, cooldown, access) =>
        SyncProtects(Gate(limit, cooldown, true, {}, map[], map[], false, false), w.disk, w.now, access, true, key,
            until);
      case Begin(g, k, login, access) => SyncProtects(w.gates[g], w.disk, w.now, access, false, key, until);
      case Cool(g, k, set_, access) => CoolProtects(w.gates[g], w.disk, k, set_, w.now, access, key, until);
      case Holds(g, access) => SyncProtects(w.gates[g], w.disk, w.now, access, false, key, until);
      case Finish(g, access) => SyncProtects(w.gates[g], w.disk, w.now, access, true, key, until);
      case _ =>
    }
  }

  lemma CoolProtects(g: Gate, d: Disk, k: Key, set_: Time, now: Time, access: Access, key: Key, until: Time)
    requires g.persistent && now < until && Protects(d, key, until)
    ensures var (gate, disk, _) := GateProtocol.SetCooldown(g, d, k, set_, now, access);
            Protects(disk, key, until) && gate.persistent
  {
    if Usable(g) {
      var expires := set_ + g.cooldown as real;
      var cooled := g.(active := g.active - {k},
                       cooldowns := g.cooldowns[k := if k in g.cooldowns then Later(expires, g.cooldowns[k])
                           else expires]);
      SyncProtects(cooled, d, now, access, true, key, until);
    }
  }

  lemma {:induction false} RunGuards(w: World, steps: seq<Step>, key: Key, until: Time, since: nat)
    requires Shared(w) && Runs(w, steps) && Guarded(w, key, until, since)
    ensures Shared(After(w, steps)) && Guarded(After(w, steps), key, until, since)
    decreases steps
  {
    if steps != [] {
      StepGuards(w, steps[0], key, until, since);
      RunGuards(Next(w, steps[0]), steps[1..], key, until, since);
    }
  }

  /** The file as it was found, and no gate yet. */
  function Found(disk: Disk, now: Time): World {
    World(disk, map[], map[], now, 0)
  }

  /** Every check is a gate's, and merged before now. */
  predicate Dated(w: World) {
    forall g :: g in w.checks ==> g in w.gates && w.checks[g].since < w.steps
  }

  predicate Numbered(w: World) {
    Shared(w) && Dated(w)
  }

  lemma {:induction false} RunNumbers(w: World, steps: seq<Step>)
    requires Numbered(w) && Runs(w, steps)
    ensures Numbered(After(w, steps))
    decreases steps
  {
    if steps != [] {
      RunNumbers(Next(w, steps[0]), steps[1..]);
    }
  }

  /** Cooldowns are never lost: once set_cooldown has returned, in every interleaving of any number of gates on the
      file, no check of that key whose merge comes later is admitted before the expiry. */
  lemma CooldownHolds(disk: Disk, now: Time, before: seq<Step>, g: GateId, key: Key, set_: Time, access: Access,
                      later: seq<Step>, asker: GateId, mono: Time)
    requires Runs(Found(disk, now), before)
    requires var w := After(Found(disk, now), before);
             && Enabled(w, Cool(g, key, set_, access))
             && GateProtocol.SetCooldown(w.gates[g], w.disk, key, set_, w.now, access).2
             && Runs(Next(w, Cool(g, key, set_, access)), later)
    requires var w := After(Found(disk, now), before);
             var end := After(Next(w, Cool(g, key, set_, access)), later);
             && asker in end.gates && asker in end.checks && end.checks[asker].key == key
             && end.checks[asker].since > w.steps && end.now < set_ + w.gates[g].cooldown as real
    ensures var w := After(Found(disk, now), before);
            var end := After(Next(w, Cool(g, key, set_, access)), later);
            Decide(end.gates[asker], key, end.checks[asker].login, end.now, mono).1 == Refused(CoolingDown)
  {
    RunNumbers(Found(disk, now), before);
    var w := After(Found(disk, now), before);
    var until := set_ + w.gates[g].cooldown as real;
    var cooled := Next(w, Cool(g, key, set_, access));
    if w.now < until {
      CoolingStored(w.gates[g], w.disk, key, set_, w.now, access);
    }
    RunGuards(cooled, later, key, until, w.steps + 1);
  }

  lemma CoolingStored(g: Gate, d: Disk, key: Key, set_: Time, now: Time, access: Access)
    requires g.persistent && now < set_ + g.cooldown as real
    requires GateProtocol.SetCooldown(g, d, key, set_, now, access).2
    ensures Protects(GateProtocol.SetCooldown(g, d, key, set_, now, access).1, key, set_ + g.cooldown as real)
  {
    var expires := set_ + g.cooldown as real;
    var own := g.cooldowns[key := if key in g.cooldowns then Later(expires, g.cooldowns[key]) else expires];
    MergeKeeps(if d.main.Stored? then d.main.cooldowns else map[], own, now);
  }

  /** A check pending since before `from` is still as it was, and so is its gate, which takes no step until it
      decides. */
  lemma {:induction false} PendingWaits(w: World, steps: seq<Step>, asker: GateId, from: nat)
    requires Dated(w) && Runs(w, steps) && from <= w.steps
    requires var end := After(w, steps); asker in end.checks && end.checks[asker].since < from
    ensures var end := After(w, steps);
            && asker in w.checks && asker in w.gates && asker in end.gates
            && end.checks[asker] == w.checks[asker] && end.gates[asker] == w.gates[asker]
    decreases steps
  {
    if steps != [] {
      PendingWaits(Next(w, steps[0]), steps[1..], asker, from);
    }
  }

  /** Exactly what set_cooldown keeps out, until the expiry: a pending check of the key is refused when it merged
      after the cooldown was written; one that merged before is decided as if the cooldown had never been written,
      so it is admitted exactly when its gate would have admitted it then. */
  lemma CooldownDecides(disk: Disk, now: Time, before: seq<Step>, g: GateId, key: Key, set_: Time, access: Access,
                        later: seq<Step>, asker: GateId, mono: Time)
    requires Runs(Found(disk, now), before)
    requires var w := After(Found(disk, now), before);
             && Enabled(w, Cool(g, key, set_, access))
             && GateProtocol.SetCooldown(w.gates[g], w.disk, key, set_, w.now, access).2
             && Runs(Next(w, Cool(g, key, set_, access)), later)
    requires var w := After(Found(disk, now), before);
             var end := After(Next(w, Cool(g, key, set_, access)), later);
             && asker in end.checks && end.checks[asker].key == key
             && end.now < set_ + w.gates[g].cooldown as real
    ensures var w := After(Found(disk, now), before);
            var end := After(Next(w, Cool(g, key, set_, access)), later);
            && asker in end.gates
            && var decided := Decide(end.gates[asker], key, end.checks[asker].login, end.now, mono);
               if end.checks[asker].since > w.steps then decided.1 == Refused(CoolingDown)
               else asker in w.checks && asker in w.gates && w.checks[asker] == end.checks[asker]
                    && decided == Decide(w.gates[asker], key, w.checks[asker].login, end.now, mono)
  {
    var w := After(Found(disk, now), before);
    var cooled := Next(w, Cool(g, key, set_, access));
    RunNumbers(Found(disk, now), before);
    RunNumbers(cooled, later);
    var end := After(cooled, later);
    if end.checks[asker].since > w.steps {
      CooldownHolds(disk, now, before, g, key, set_, access, later, asker, mono);
    } else {
      PendingWaits(cooled, later, asker, w.steps + 1);
      assert asker != g;
    }
  }

  /** Both halves are met: a check that merged before the write, still pending after set_cooldown has returned, may
      be admitted. */
  lemma OverlappingCheckAdmits()
    ensures var gate := Gate(6, 300, true, {}, map[], map[], false, false);
            var w := World(Disk(Stored(map[]), false), map[0 := gate, 1 := gate], map[], 0.0, 0);
            var steps := [Begin(1, "r1|830", true, Works), Cool(0, "r1|830", 0.0, Works)];
            && Shared(w) && Runs(w, steps)
            && GateProtocol.SetCooldown(gate, Next(w, steps[0]).disk, "r1|830", 0.0, 0.0, Works).2
            && var end := After(w, steps);
               && 1 in end.checks && 1 in end.gates && end.now < 300.0
               && Decide(end.gates[1], "r1|830", true, end.now, 0.0).1 == Admitted
  {
    var gate := Gate(6, 300, true, {}, map[], map[], false, false);
    var w := World(Disk(Stored(map[]), false), map[0 := gate, 1 := gate], map[], 0.0, 0);
    var first, second := Begin(1, "r1|830", true, Works), Cool(0, "r1|830", 0.0, Works);
    assert Merge(map[], map[], 0.0) == map[];
    var mid := Next(w, first);
    assert [first, second][1..] == [second];
    assert mid.gates[1] == gate && mid.gates[0] == gate && mid.disk == w.disk;
    var end := Next(mid, second);
    assert After(mid, [second]) == end;
    assert end.gates[1] == gate;
    assert Recent([], 0.0) == [];
  }

  // ----- reservations

  /** What gives a gate's reservation of a key up. */
  predicate Frees(step: Step, g: GateId, key: Key) {
    (step.Free? || step.Cool? || step.Finish?) && step.g == g && (step.Finish? || step.key == key)
  }

  /** A device admitted by a gate is not admitted by it again until it is released or cooled down, whatever else any
      gate does. */
  lemma {:induction false} ReservedUntilFreed(w: World, steps: seq<Step>, g: GateId, key: Key)
    requires Runs(w, steps) && g in w.gates && key in w.gates[g].active
    requires forall i :: 0 <= i < |steps| ==> !Frees(steps[i], g, key)
    ensures var end := After(w, steps);
            && g in end.gates && key in end.gates[g].active
            && forall login, mono :: !Decide(end.gates[g], key, login, end.now, mono).1.Admitted?
    decreases steps
  {
    if steps != [] {
      ReservedUntilFreed(Next(w, steps[0]), steps[1..], g, key);
    }
  }
}
