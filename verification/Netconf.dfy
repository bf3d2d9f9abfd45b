/** The NETCONF session object and the communicator's calls on it. */
module Netconf {
  import opened Faults
  import opened NetconfProtocol
  import JunosDialect
  import NP = NetconfProtocol

  /** PyEZ's device and the transport under it; `script` is what the device will answer. */
  class Transport {
    const script: Script
    var connected: bool
    var open: bool
    var dev: Device
    var log: seq<Entry>
    var asked: nat

    constructor (dev: Device, script: Script)
      ensures this.script == script && connected && open && this.dev == dev && log == [] && asked == 0
    {
      this.script := script;
      connected, open, this.dev, log, asked := true, true, dev, [], 0;
    }
  }

  class NetconfSession {
    const device: Transport
    var locked: bool
    var dirty: bool
    var committing: bool
    var doubtful: bool

    ghost function View(): Session
      reads this, device
    {
      Session(locked, dirty, committing, doubtful, device.connected, device.open, device.dev, device.log, device.asked)
    }

    constructor (device: Transport)
      ensures this.device == device
      ensures View() == Session(false, false, false, false, device.connected, device.open, device.dev, device.log,
          device.asked)
    {
      this.device := device;
      locked, dirty, committing, doubtful := false, false, false, false;
    }

    method Call(rpc: Rpc) returns (answer: Answer)
      modifies device
      ensures (View(), answer) == NP.Call(old(View()), rpc, device.script)
    {
      answer := device.script(device.asked);
      device.asked := device.asked + 1;
      if !device.open {
        device.connected := false;
        return Gone(false);
      }
      var heard := Receive(device.dev, rpc, answer);
      device.dev, answer := heard.0, heard.1;
      device.log := device.log + [Sent(rpc, answer)];
      if answer.Gone? {
        device.open, device.connected := false, false;
      }
    }

    method Discard()
      modifies this`doubtful, this`locked, this`dirty, device`connected, device`open
      ensures View() == NP.Discard(old(View()))
    {
      doubtful, locked, dirty := true, false, false;
      device.connected, device.open := false, false;
    }

    method Lock() returns (outcome: Outcome)
      modifies this`doubtful, this`locked, this`dirty, device
      ensures (View(), outcome) == NP.TakeLock(old(View()), device.script)
    {
      if locked {
        return Done(false);
      }
      var answer := Call(Rpc.Lock);
      if answer.Fine? {
        locked := true;
        return Done(false);
      }
      outcome := Failed(Fault(answer));
      if outcome.kind != REFUSED || !device.connected {
        Discard();
      }
    }

    method Load(lines: seq<string>) returns (outcome: Outcome)
      modifies this`doubtful, this`locked, this`dirty, device
      ensures (View(), outcome) == NP.Load(old(View()), lines, device.script)
    {
      if JunosDialect.CheckEdit(lines).Some? {
        return Failed(LOCAL);
      }
      outcome := Lock();
      if outcome.Failed? {
        return;
      }
      dirty := true;
      var answer := Call(LoadConfig(JunosDialect.Meaningful(lines)));
      outcome := if answer.Fine? then Done(false) else Failed(Fault(answer));
    }

    method Diff() returns (outcome: Outcome)
      modifies this`doubtful, this`locked, this`dirty, device
      ensures (View(), outcome) == NP.Diff(old(View()), device.script)
    {
      outcome := Lock();
      if outcome.Failed? {
        return;
      }
      var answer := Call(Compare);
      if !answer.Fine? {
        return Failed(Fault(answer));
      }
      if !answer.flag {
        return Done(false);
      }
      var verdict := Call(CommitCheck);
      outcome := if verdict.Fine? then Done(true) else Failed(Fault(verdict));
    }

    method History() returns (outcome: Outcome)
      modifies device
      ensures (View(), outcome) == NP.History(old(View()), device.script)
    {
      var answer := Call(GetCommits);
      outcome := if answer.Fine? then Done(answer.flag) else Failed(Fault(answer));
    }

    method CommitBegin() returns (outcome: Outcome)
      modifies this, device
      ensures (View(), outcome) == NP.CommitBegin(old(View()), device.script)
    {
      outcome := Lock();
      if outcome.Failed? {
        return;
      }
      committing := true;
      if device.open {
        device.log := device.log + [CommitSent];
      }
    }

    method CommitEnd(answer: Answer) returns (outcome: Outcome)
      modifies this, device
      ensures (View(), outcome) == NP.CommitEnd(old(View()), answer)
    {
      var heard := Receive(device.dev, SendCommit, answer);
      device.dev := heard.0;
      device.log := device.log + [CommitAnswered(heard.1)];
      match heard.1 {
        case Fine(_) => dirty := false; outcome := Done(false);
        case RpcError => outcome := Failed(COMMIT_FAILED);
        case _ => Discard(); outcome := Failed(OUTCOME_UNKNOWN);
      }
      committing := false;
    }

    method ConfirmBegin() returns (outcome: Outcome)
      modifies this, device
      ensures (View(), outcome) == NP.ConfirmBegin(old(View()), device.script)
    {
      outcome := Lock();
      if outcome.Failed? {
        return;
      }
      outcome := History();
      if outcome.Failed? {
        return;
      }
      if !outcome.flag {
        return Failed(REFUSED);
      }
      outcome := CommitBegin();
    }

    method Undo() returns (outcome: Outcome)
      modifies device
      ensures (View(), outcome) == NP.Undo(old(View()), device.script)
    {
      if !locked {
        return Done(false);
      }
      if dirty {
        var answer := Call(Rollback);
        if !answer.Fine? {
          return Failed(Fault(answer));
        }
      }
      var last := Call(Unlock);
      outcome := if last.Fine? then Done(false) else Failed(Fault(last));
    }

    method Release() returns (outcome: Outcome)
      modifies this`doubtful, this`locked, this`dirty, device
      ensures (View(), outcome) == NP.Release(old(View()), device.script)
    {
      if committing || doubtful {
        Discard();
        return Failed(SESSION_LOST);
      }
      outcome := Undo();
      if outcome.Failed? {
        Discard();
      }
      locked, dirty := false, false;
    }

    method Close() returns (outcome: Outcome)
      modifies this`doubtful, this`locked, this`dirty, device
      ensures (View(), outcome) == NP.Close(old(View()), device.script)
    {
      if committing || doubtful {
        Discard();
        return Done(false);
      }
      outcome := Release();
      if outcome.Failed? {
        return;
      }
      var answer := Call(CloseSession);
      if answer.Fine? {
        device.connected, device.open := false, false;
      } else {
        Discard();
        outcome := Failed(Fault(answer));
      }
    }

    method Reuse(probe: bool) returns (vouched: bool)
      modifies this`doubtful, device
      ensures (View(), vouched) == NP.Reuse(old(View()), probe, device.script)
    {
      if doubtful || committing || !device.connected {
        return false;
      }
      if !probe {
        return true;
      }
      var answer := Call(GetUptime);
      vouched := answer.Fine? || answer.RpcError?;
      if !vouched {
        doubtful := true;
      }
    }
  }
}
