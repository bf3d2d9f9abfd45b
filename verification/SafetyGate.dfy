/** One process's safety gate object, and the safety file it shares with the others. */
module SafetyGate {
  import opened GateProtocol
  import GP = GateProtocol

  /** The safety file and its lock, held for one access at a time. */
  class SafetyFile {
    var disk: Disk

    constructor (disk: Disk)
      ensures this.disk == disk
    {
      this.disk := disk;
    }
  }

  class SafetyGate {
    const limit: nat
    const cooldown: nat
    const file: SafetyFile?
    var active: set<Key>
    var attempts: map<Key, seq<Time>>
    var cooldowns: Cooldowns
    var failed: bool
    var closed: bool

    ghost function View(): Gate
      reads this
    {
      Gate(limit, cooldown, file != null, active, attempts, cooldowns, failed, closed)
    }

    ghost function Disk(): GP.Disk
      reads this, file
    {
      if file == null then GP.Disk(Missing, false) else file.disk
    }

    /** A gate starts by merging and rewriting the file it will share; one whose file cannot be used says so at
        once. */
    constructor (limit: nat, cooldown: nat, file: SafetyFile?, now: Time, access: Access)
      modifies file
      ensures this.file == file && (failed || FreshGate(View()))
      ensures (View(), Disk(), !failed)
           == Sync(Gate(limit, cooldown, file != null, {}, map[], map[], false, false),
                   old(if file == null then GP.Disk(Missing, false) else file.disk), now, access, true)
    {
      this.limit, this.cooldown, this.file := limit, cooldown, file;
      active, attempts, cooldowns, failed, closed := {}, map[], map[], false, false;
      new;
      var ok := Merged(now, access, true);
    }

    /** The locked read, merge, prune and, when asked, rewrite. */
    method Merged(now: Time, access: Access, persist: bool) returns (ok: bool)
      modifies this`cooldowns, this`failed, file
      ensures (View(), Disk(), ok) == Sync(old(View()), old(Disk()), now, access, persist)
    {
      if closed || failed {
        return false;
      }
      if file == null {
        cooldowns := Merge(map[], cooldowns, now);
        return true;
      }
      if access.Fails? || file.disk.quarantined {
        failed := true;
        return false;
      }
      if file.disk.main.Broken? {
        file.disk := GP.Disk(Missing, true);
        failed := true;
        return false;
      }
      var merged := Merge(if file.disk.main.Stored? then file.disk.main.cooldowns else map[], cooldowns, now);
      if persist {
        file.disk := file.disk.(main := Stored(merged));
        if access.FailsLate? {
          failed := true;
          return false;
        }
      }
      cooldowns := merged;
      ok := true;
    }

    method CountLogin(key: Key, now: Time) returns (answer: Answer)
      modifies this`attempts
      ensures (View(), answer) == GP.CountLogin(old(View()), key, now)
    {
      if closed || failed {
        return Unusable;
      }
      var recent := Recent(if key in attempts then attempts[key] else [], now);
      if |recent| >= limit {
        attempts := attempts[key := recent];
        return Refused(RateLimited);
      }
      attempts := attempts[key := recent + [now]];
      answer := Admitted;
    }

    method CheckDevice(key: Key, login: bool, merged: Time, wall: Time, now: Time,
        access: Access) returns (answer: Answer)
      modifies this`cooldowns, this`failed, this`attempts, this`active, file
      ensures (View(), Disk(), answer) == GP.CheckDevice(old(View()), old(Disk()), key, login, merged, wall, now,
          access)
    {
      var ok := Merged(merged, access, false);
      if !ok {
        return Unusable;
      }
      if key in cooldowns && cooldowns[key] > wall {
        return Refused(CoolingDown);
      }
      if key in active {
        return Refused(Busy);
      }
      if login {
        answer := CountLogin(key, now);
        if !answer.Admitted? {
          return;
        }
      }
      active := active + {key};
      answer := Admitted;
    }

    method SetCooldown(key: Key, set_: Time, merged: Time, access: Access) returns (ok: bool)
      modifies this`cooldowns, this`failed, this`active, file
      ensures (View(), Disk(), ok) == GP.SetCooldown(old(View()), old(Disk()), key, set_, merged, access)
    {
      if closed || failed {
        return false;
      }
      active := active - {key};
      var expires := set_ + cooldown as real;
      cooldowns := cooldowns[key := if key in cooldowns then Later(expires, cooldowns[key]) else expires];
      ok := Merged(merged, access, true);
    }

    method ReleaseDevice(key: Key)
      modifies this`active
      ensures View() == GP.ReleaseDevice(old(View()), key)
    {
      active := active - {key};
    }

    method Close(now: Time, access: Access) returns (ok: bool)
      modifies this, file
      ensures (View(), Disk(), ok) == GP.Close(old(View()), old(Disk()), now, access)
    {
      if closed {
        return true;
      }
      ok := Merged(now, access, true);
      closed, active, attempts := true, {}, map[];
    }
  }
}
