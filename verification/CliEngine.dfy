/** The CLI engine as the object the transports hold: its flags, its channel and the calls on them. */
module CliEngine {
  import opened Wrappers
  import opened Faults
  import opened Text
  import opened JunosDialect
  import opened CliProtocol

  /** The interactive channel with the device behind it; `script` is what the device will answer. */
  class Channel {
    const script: Script
    var dev: Device
    var typed: seq<string>
    var closed: bool

    constructor (dev: Device, script: Script)
      ensures this.dev == dev && typed == [] && !closed && this.script == script
    {
      this.script := script;
      this.dev := dev;
      typed := [];
      closed := false;
    }

    /** One line written and its reply read: nothing answers, or a prompt closes it. */
    method Transact(keys: string) returns (reply: Reply)
      modifies this`dev, this`typed
      ensures (dev, reply) == Receive(old(dev), keys, script(|old(typed)|))
      ensures typed == old(typed) + [keys]
    {
      reply := script(|typed|);
      typed := typed + [keys];
      var read := Receive(dev, keys, reply);
      dev, reply := read.0, read.1;
    }
  }

  class Engine {
    const channel: Channel
    const dialect: Commands
    var ready: bool
    var configured: bool
    var dirty: bool
    var commitSent: bool

    ghost function View(): Session
      reads this, channel
    {
      Session(dialect, ready, channel.closed, configured, dirty, commitSent, channel.dev, channel.typed)
    }

    /** A session after a successful login. */
    constructor (channel: Channel, dialect: Commands)
      requires !channel.closed
      ensures this.channel == channel && this.dialect == dialect
      ensures View() == Session(dialect, true, false, false, false, false, channel.dev, channel.typed)
    {
      this.channel, this.dialect := channel, dialect;
      ready, configured, dirty, commitSent := true, false, false, false;
    }

    method Exchange(command: string) returns (reply: Reply)
      modifies channel`dev, channel`typed
      ensures (View(), reply) == CliProtocol.Exchange(old(View()), command, channel.script)
    {
      reply := channel.Transact(EncodeLine(command));
    }

    method Command(command: string) returns (reply: Reply, outcome: Outcome)
      modifies this`ready, channel`dev, channel`typed
      ensures (View(), reply, outcome) == CliProtocol.Command(old(View()), command, channel.script)
    {
      if Strip(command) == "" || !Plain(command) {
        return Refused, Failed(LOCAL, 0);
      }
      if !ready {
        return Refused, Failed(SESSION_LOST, 0);
      }
      reply := Exchange(Strip(command));
      match reply {
        case Accepted(_, _) => outcome := Done(false);
        case Refused => outcome := Failed(REFUSED, 0);
        case Silent(_) => ready := false; outcome := Failed(TIMEOUT, 0);
        case Lost(_) => ready := false; outcome := Failed(SESSION_LOST, 0);
      }
    }

    method Probe() returns (alive: bool)
      modifies this`ready, channel`dev, channel`typed
      ensures (View(), alive) == CliProtocol.Probe(old(View()), channel.script)
    {
      if !ready {
        return false;
      }
      var reply := Exchange("");
      alive := reply.Accepted?;
      ready := alive;
    }

    method Discard()
      modifies this`ready, channel`closed
      ensures View() == CliProtocol.Discard(old(View()))
    {
      ready := false;
      channel.closed := true;
    }

    method Release() returns (outcome: Outcome)
      modifies this`ready, this`configured, this`dirty, channel
      ensures (View(), outcome) == CliProtocol.Release(old(View()), channel.script)
    {
      if !ready || commitSent {
        Discard();
        return Failed(SESSION_LOST, 0);
      }
      outcome := Cleanup();
      if outcome.Failed? {
        Discard();
      }
    }

    method Cleanup() returns (outcome: Outcome)
      modifies this`ready, this`configured, this`dirty, channel`dev, channel`typed
      ensures (View(), outcome) == CliProtocol.Cleanup(old(View()), channel.script)
    {
      if !configured {
        return Done(false);
      }
      if dirty {
        outcome := TypeAll(dialect.discards);
        if outcome.Failed? {
          return;
        }
        dirty := false;
      }
      var reply;
      reply, outcome := Command(dialect.exit);
      if outcome.Done? {
        configured := false;
      }
    }

    method TypeAll(commands: seq<string>) returns (outcome: Outcome)
      modifies this`ready, channel`dev, channel`typed
      ensures (View(), outcome) == CliProtocol.TypeAll(old(View()), commands, channel.script)
    {
      ghost var was := View();
      for n := 0 to |commands|
        invariant CliProtocol.TypeAll(View(), commands[n..], channel.script)
               == CliProtocol.TypeAll(was, commands, channel.script)
      {
        assert commands[n..][0] == commands[n] && commands[n..][1..] == commands[n + 1..];
        var _, typed := Command(commands[n]);
        if typed.Failed? {
          return typed;
        }
      }
      outcome := Done(false);
    }

    method Close() returns (outcome: Outcome)
      modifies this`ready, this`configured, this`dirty, channel
      ensures (View(), outcome) == CliProtocol.Close(old(View()), channel.script)
    {
      outcome := Done(false);
      if ready && !commitSent {
        outcome := Release();
      }
      Discard();
    }

    method Enter() returns (outcome: Outcome)
      modifies this`ready, this`configured, channel`dev, channel`typed
      ensures (View(), outcome) == CliProtocol.Enter(old(View()), channel.script)
    {
      if configured {
        return Done(false);
      }
      var reply;
      reply, outcome := Command(dialect.enter);
      if outcome.Done? {
        configured := true;
      }
    }

    method Load(lines: seq<string>) returns (outcome: Outcome)
      modifies this`ready, this`configured, this`dirty, channel`dev, channel`typed
      ensures (View(), outcome) == CliProtocol.Load(old(View()), lines, channel.script)
    {
      if CheckEdit(lines).Some? {
        return Failed(LOCAL, 0);
      }
      outcome := Enter();
      if outcome.Failed? {
        return;
      }
      ghost var entered := View();
      for n := 0 to |lines|
        invariant TypeLines(View(), lines, n, channel.script) == TypeLines(entered, lines, 0, channel.script)
      {
        var line := Strip(lines[n]);
        if line == "" || IsComment(line) {
          continue;
        }
        dirty := true;
        var _, typed := Command(line);
        if typed.Failed? {
          return Failed(typed.kind, n + 1);
        }
      }
      outcome := Done(false);
    }

    method Diff() returns (outcome: Outcome)
      modifies this`ready, this`configured, channel`dev, channel`typed
      ensures (View(), outcome) == CliProtocol.Diff(old(View()), channel.script)
    {
      outcome := Enter();
      if outcome.Failed? {
        return;
      }
      var reply;
      reply, outcome := Command(dialect.diff);
      if reply.Accepted? {
        outcome := Done(Strip(reply.text) != "");
      }
    }

    method History() returns (outcome: Outcome)
      modifies this`ready, channel`dev, channel`typed
      ensures (View(), outcome) == CliProtocol.History(old(View()), channel.script)
    {
      var reply;
      reply, outcome := Command(if configured then dialect.configHistory else dialect.history);
      if reply.Accepted? {
        outcome := Done(reply.pending);
      }
    }

    method Commit(minutes: Option<int>, comment: Option<string>) returns (outcome: Outcome)
      modifies this`ready, this`configured, this`dirty, this`commitSent, channel`dev, channel`typed
      ensures (View(), outcome) == CliProtocol.Commit(old(View()), minutes, comment, channel.script)
    {
      var line := BuildCommit(minutes, comment);
      if line.Err? {
        return Failed(line.error, 0);
      }
      outcome := Enter();
      if outcome.Failed? {
        return;
      }
      if !ready {
        return Failed(SESSION_LOST, 0);
      }
      // From here on even a write cut short may have committed, so only a refusal takes the mark back.
      commitSent := true;
      var reply;
      reply, outcome := Command(line.value);
      if outcome.Done? {
        dirty, commitSent := false, false;
      } else if outcome.kind == REFUSED {
        commitSent := false;
        outcome := Failed(COMMIT_FAILED, 0);
      } else {
        ready := false;
        outcome := Failed(OUTCOME_UNKNOWN, 0);
      }
    }

    method Confirm() returns (outcome: Outcome)
      modifies this`ready, this`configured, this`dirty, this`commitSent, channel`dev, channel`typed
      ensures (View(), outcome) == CliProtocol.Confirm(old(View()), channel.script)
    {
      outcome := Enter();
      if outcome.Failed? {
        return;
      }
      outcome := History();
      if outcome.Failed? {
        return;
      }
      if !outcome.flag {
        return Failed(REFUSED, 0);
      }
      outcome := Commit(None, None);
    }
  }
}
