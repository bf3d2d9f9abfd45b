/** What each call on a CLI edit session does to the engine's flags, to the keys typed and to the device behind the
    channel. */
module CliProtocol {
  import opened Wrappers
  import opened Faults
  import opened Text
  import opened JunosDialect

  /** The device as one session sees it: the exclusive lock is held exactly in configuration mode; `orders` are the
      commits it carried out for this session. */
  datatype Device = Device(committed: seq<string>, candidate: seq<string>, inConfig: bool, orders: seq<CommitOrder>)

  /** What comes back for one typed line; a silence or a loss may hide a command that ran. */
  datatype Reply = Accepted(text: string, pending: bool) | Refused | Silent(ran: bool) | Lost(ran: bool)

  /** The replies of one session in order: the n-th line typed meets the n-th. */
  type Script = nat -> Reply

  datatype Session = Session(
    dialect: Commands, ready: bool, closed: bool, configured: bool, dirty: bool, commitSent: bool, dev: Device,
        typed: seq<string>)

  /** A call's result: `flag` is the diff's "changed" or the history's "pending"; `line` is the 1-based payload line
      a load fault names, else 0. */
  datatype Outcome = Done(flag: bool) | Failed(kind: Kind, line: nat)

  // ----- the device

  /** What the device can carry out now. Entering needs an unmodified candidate. */
  predicate CanRun(dev: Device, what: Meaning) {
    match what
    case EnterExclusive => !dev.inConfig && dev.candidate == dev.committed
    case LeaveConfig => dev.inConfig
    case Rollback => dev.inConfig
    case TakeCommit(order) => dev.inConfig && order.Some?
    case Edit(_) => dev.inConfig
    case Other => true
  }

  function Run(dev: Device, what: Meaning): Device
    requires CanRun(dev, what)
  {
    match what
    case EnterExclusive => dev.(inConfig := true)
    case LeaveConfig => dev.(inConfig := false)
    case Rollback => dev.(candidate := dev.committed)
    case TakeCommit(order) => dev.(committed := dev.candidate, orders := dev.orders + [order.value])
    case Edit(line) => dev.(candidate := dev.candidate + [line])
    case Other => dev
  }

  /** The device reads the keys and may run the line; an acceptance it cannot give is a refusal, and a refusal ran
      nothing. */
  function Receive(dev: Device, keys: string, reply: Reply): (Device, Reply) {
    var line := EditorReads(keys);
    var able := line.Some? && CanRun(dev, Interpret(line.value));
    match reply
    case Accepted(_, _) => if able then (Run(dev, Interpret(line.value)), reply) else (dev, Refused)
    case Refused => (dev, Refused)
    case Silent(ran) => (if ran && able then Run(dev, Interpret(line.value)) else dev, reply)
    case Lost(ran) => (if ran && able then Run(dev, Interpret(line.value)) else dev, reply)
  }

  // ----- the engine

  function Exchange(s: Session, command: string, script: Script): (Session, Reply) {
    var keys := EncodeLine(command);
    var (dev, reply) := Receive(s.dev, keys, script(|s.typed|));
    (s.(dev := dev, typed := s.typed + [keys]), reply)
  }

  function Command(s: Session, command: string, script: Script): (Session, Reply, Outcome) {
    if Strip(command) == "" || !Plain(command) then (s, Refused, Failed(LOCAL, 0))
    else if !s.ready then (s, Refused, Failed(SESSION_LOST, 0))
    else
      var (after, reply) := Exchange(s, Strip(command), script);
      match reply
      case Accepted(_, _) => (after, reply, Done(false))
      case Refused => (after, reply, Failed(REFUSED, 0))
      case Silent(_) => (after.(ready := false), reply, Failed(TIMEOUT, 0))
      case Lost(_) => (after.(ready := false), reply, Failed(SESSION_LOST, 0))
  }

  function Probe(s: Session, script: Script): (Session, bool) {
    if !s.ready then (s, false)
    else
      var (after, reply) := Exchange(s, "", script);
      (after.(ready := reply.Accepted?), reply.Accepted?)
  }

  function Discard(s: Session): Session {
    s.(ready := false, closed := true)
  }

  function TypeAll(s: Session, commands: seq<string>, script: Script): (Session, Outcome)
    decreases commands
  {
    if commands == [] then (s, Done(false))
    else
      var (after, _, outcome) := Command(s, commands[0], script);
      if outcome.Failed? then (after, outcome) else TypeAll(after, commands[1..], script)
  }

  /** Roll back what was loaded, leave configuration mode. */
  function Cleanup(s: Session, script: Script): (Session, Outcome) {
    if !s.configured then (s, Done(false))
    else
      var (rolled, outcome) := if s.dirty then TypeAll(s, s.dialect.discards, script) else (s, Done(false));
      if outcome.Failed? then (rolled, outcome)
      else
        var (left, _, exited) := Command(rolled.(dirty := false), s.dialect.exit, script);
        if exited.Failed? then (left, exited) else (left.(configured := false), Done(false))
  }

  function Release(s: Session, script: Script): (Session, Outcome) {
    if !s.ready || s.commitSent then (Discard(s), Failed(SESSION_LOST, 0))
    else
      var (after, outcome) := Cleanup(s, script);
      if outcome.Failed? then (Discard(after), outcome) else (after, outcome)
  }

  function Close(s: Session, script: Script): (Session, Outcome) {
    if s.ready && !s.commitSent then
      var (after, outcome) := Release(s, script);
      (Discard(after), outcome)
    else (Discard(s), Done(false))
  }

  function Enter(s: Session, script: Script): (Session, Outcome) {
    if s.configured then (s, Done(false))
    else
      var (after, _, outcome) := Command(s, s.dialect.enter, script);
      (if outcome.Done? then after.(configured := true) else after, outcome)
  }

  function TypeLines(s: Session, lines: seq<string>, n: nat, script: Script): (Session, Outcome)
    requires n <= |lines|
    decreases |lines| - n
  {
    if n == |lines| then (s, Done(false))
    else
      var line := Strip(lines[n]);
      if line == "" || IsComment(line) then TypeLines(s, lines, n + 1, script)
      else
        var (after, _, outcome) := Command(s.(dirty := true), line, script);
        if outcome.Failed? then (after, Failed(outcome.kind, n + 1)) else TypeLines(after, lines, n + 1, script)
  }

  function Load(s: Session, lines: seq<string>, script: Script): (Session, Outcome) {
    if CheckEdit(lines).Some? then (s, Failed(LOCAL, 0))
    else
      var (entered, outcome) := Enter(s, script);
      if outcome.Failed? then (entered, outcome) else TypeLines(entered, lines, 0, script)
  }

  function Diff(s: Session, script: Script): (Session, Outcome) {
    var (entered, outcome) := Enter(s, script);
    if outcome.Failed? then (entered, outcome)
    else
      var (after, reply, shown) := Command(entered, s.dialect.diff, script);
      (after, if reply.Accepted? then Done(Strip(reply.text) != "") else shown)
  }

  function History(s: Session, script: Script): (Session, Outcome) {
    var (after, reply, outcome) := Command(s, if s.configured then s.dialect.configHistory
        else s.dialect.history, script);
    (after, if reply.Accepted? then Done(reply.pending) else outcome)
  }

  /** The commit command once configuration mode is held: sent is marked first, and only an answer unmarks it. */
  function SendCommit(s: Session, line: string, script: Script): (Session, Outcome) {
    var (after, _, outcome) := Command(s.(commitSent := true), line, script);
    if outcome.Done? then (after.(dirty := false, commitSent := false), outcome)
    else if outcome.kind == REFUSED then (after.(commitSent := false), Failed(COMMIT_FAILED, 0))
    else (after.(ready := false), Failed(OUTCOME_UNKNOWN, 0))
  }

  function Commit(s: Session, minutes: Option<int>, comment: Option<string>, script: Script): (Session, Outcome) {
    match BuildCommit(minutes, comment)
    case Err(kind) => (s, Failed(kind, 0))
    case Ok(line) =>
      var (entered, outcome) := Enter(s, script);
      if outcome.Failed? then (entered, outcome)
      else if !entered.ready then (entered, Failed(SESSION_LOST, 0))
      else SendCommit(entered, line, script)
  }

  function Confirm(s: Session, script: Script): (Session, Outcome) {
    var (entered, outcome) := Enter(s, script);
    if outcome.Failed? then (entered, outcome)
    else
      var (read, history) := History(entered, script);
      if history.Failed? then (read, history)
      else if !history.flag then (read, Failed(REFUSED, 0))
      else Commit(read, None, None, script)
  }
}
