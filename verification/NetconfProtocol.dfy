/** What each call on a NETCONF session does to its flags, to the requests delivered and to the device. */
module NetconfProtocol {
  import opened Faults
  import JunosDialect

  datatype Rpc = Lock | Unlock | LoadConfig(lines: seq<string>) | Rollback | Compare | CommitCheck | SendCommit
      | GetCommits | GetUptime | CloseSession

  /** What comes back: the reply (`flag` is a nonblank diff or a pending commit), an rpc-error, or nothing while the
      request may have run; `Gone` also ends the transport. */
  datatype Answer = Fine(flag: bool) | RpcError | TimedOut(ran: bool) | Gone(ran: bool)

  type Script = nat -> Answer

  /** The device of RFC 6241: `mine` is this session holding the candidate's lock (section 7.5). */
  datatype Device = Device(committed: seq<string>, candidate: seq<string>, mine: bool)

  /** One request delivered and its answer; a commit's answer arrives as an entry of its own. */
  datatype Entry = Sent(rpc: Rpc, answer: Answer) | CommitSent | CommitAnswered(answer: Answer)

  /** `open` is the transport; a request on a closed one is not delivered. */
  datatype Session = Session(
    locked: bool, dirty: bool, committing: bool, doubtful: bool, connected: bool, open: bool,
    dev: Device, log: seq<Entry>, asked: nat)

  datatype Outcome = Done(flag: bool) | Failed(kind: Kind)

  /** Section 7.5 lets a lock fail when the candidate has been modified; the rest needs the lock here. */
  predicate CanRun(dev: Device, rpc: Rpc) {
    match rpc
    case Lock => !dev.mine && dev.candidate == dev.committed
    case Unlock => dev.mine
    case LoadConfig(_) => dev.mine
    case Rollback => dev.mine
    case SendCommit => dev.mine
    case _ => true
  }

  function Run(dev: Device, rpc: Rpc): Device
    requires CanRun(dev, rpc)
  {
    match rpc
    case Lock => dev.(mine := true)
    case Unlock => dev.(mine := false)
    case LoadConfig(lines) => dev.(candidate := dev.candidate + lines)
    case Rollback => dev.(candidate := dev.committed)
    case SendCommit => dev.(committed := dev.candidate)
    case _ => dev
  }

  function Receive(dev: Device, rpc: Rpc, answer: Answer): (Device, Answer) {
    match answer
    case Fine(_) => if CanRun(dev, rpc) then (Run(dev, rpc), answer) else (dev, RpcError)
    case RpcError => (dev, RpcError)
    case TimedOut(ran) => (if ran && CanRun(dev, rpc) then Run(dev, rpc) else dev, answer)
    case Gone(ran) => (if ran && CanRun(dev, rpc) then Run(dev, rpc) else dev, answer)
  }

  function Fault(answer: Answer): Kind
    requires !answer.Fine?
  {
    match answer case RpcError => REFUSED case TimedOut(_) => TIMEOUT case Gone(_) => SESSION_LOST
  }

  function Call(s: Session, rpc: Rpc, script: Script): (Session, Answer) {
    var asked := s.(asked := s.asked + 1);
    if !s.open then (asked.(connected := false), Gone(false))
    else
      var (dev, answer) := Receive(s.dev, rpc, script(s.asked));
      (asked.(dev := dev, log := s.log + [Sent(rpc, answer)],
              open := !answer.Gone?, connected := s.connected && !answer.Gone?), answer)
  }

  function Discard(s: Session): Session {
    s.(doubtful := true, locked := false, dirty := false, connected := false, open := false)
  }

  function TakeLock(s: Session, script: Script): (Session, Outcome) {
    if s.locked then (s, Done(false))
    else
      var (after, answer) := Call(s, Lock, script);
      if answer.Fine? then (after.(locked := true), Done(false))
      else (if Fault(answer) != REFUSED || !after.connected then Discard(after) else after, Failed(Fault(answer)))
  }

  function Load(s: Session, lines: seq<string>, script: Script): (Session, Outcome) {
    if JunosDialect.CheckEdit(lines).Some? then (s, Failed(LOCAL))
    else
      var (held, outcome) := TakeLock(s, script);
      if outcome.Failed? then (held, outcome)
      else
        var (after, answer) := Call(held.(dirty := true), LoadConfig(JunosDialect.Meaningful(lines)), script);
        (after, if answer.Fine? then Done(false) else Failed(Fault(answer)))
  }

  function Diff(s: Session, script: Script): (Session, Outcome) {
    var (held, outcome) := TakeLock(s, script);
    if outcome.Failed? then (held, outcome)
    else
      var (compared, answer) := Call(held, Compare, script);
      if !answer.Fine? then (compared, Failed(Fault(answer)))
      else if !answer.flag then (compared, Done(false))
      else
        var (checked, verdict) := Call(compared, CommitCheck, script);
        (checked, if verdict.Fine? then Done(true) else Failed(Fault(verdict)))
  }

  function History(s: Session, script: Script): (Session, Outcome) {
    var (after, answer) := Call(s, GetCommits, script);
    (after, if answer.Fine? then Done(answer.flag) else Failed(Fault(answer)))
  }

  /** commit up to the wait for its answer: the lock, the mark, the request on the wire. */
  function CommitBegin(s: Session, script: Script): (Session, Outcome) {
    var (held, outcome) := TakeLock(s, script);
    if outcome.Failed? then (held, outcome)
    else (held.(committing := true, log := if held.open then held.log + [CommitSent] else held.log), Done(false))
  }

  /** commit after its answer, which reaches it even when another thread has discarded the session meanwhile. */
  function CommitEnd(s: Session, answer: Answer): (Session, Outcome)
  {
    var (dev, heard) := Receive(s.dev, SendCommit, answer);
    var told := s.(dev := dev, log := s.log + [CommitAnswered(heard)]);
    match heard
    case Fine(_) => (told.(committing := false, dirty := false), Done(false))
    case RpcError => (told.(committing := false), Failed(COMMIT_FAILED))
    case _ => (Discard(told).(committing := false), Failed(OUTCOME_UNKNOWN))
  }

  /** confirm up to its commit, which is an ordinary one once a pending commit has been seen under the lock. */
  function ConfirmBegin(s: Session, script: Script): (Session, Outcome) {
    var (held, outcome) := TakeLock(s, script);
    if outcome.Failed? then (held, outcome)
    else
      var (read, pending) := History(held, script);
      if pending.Failed? then (read, pending)
      else if !pending.flag then (read, Failed(REFUSED))
      else CommitBegin(read, script)
  }

  function Undo(s: Session, script: Script): (Session, Outcome) {
    if !s.locked then (s, Done(false))
    else
      var (rolled, answer) := if s.dirty then Call(s, Rollback, script) else (s, Fine(false));
      if !answer.Fine? then (rolled, Failed(Fault(answer)))
      else
        var (freed, last) := Call(rolled, Unlock, script);
        (freed, if last.Fine? then Done(false) else Failed(Fault(last)))
  }

  function Release(s: Session, script: Script): (Session, Outcome) {
    if s.committing || s.doubtful then (Discard(s), Failed(SESSION_LOST))
    else
      var (after, outcome) := Undo(s, script);
      (if outcome.Failed? then Discard(after) else after.(locked := false, dirty := false), outcome)
  }

  function Close(s: Session, script: Script): (Session, Outcome) {
    if s.committing || s.doubtful then (Discard(s), Done(false))
    else
      var (clean, outcome) := Release(s, script);
      if outcome.Failed? then (clean, outcome)
      else
        var (after, answer) := Call(clean, CloseSession, script);
        if answer.Fine? then (after.(connected := false, open := false), Done(false))
        else (Discard(after), Failed(Fault(answer)))
  }

  /** The reuse check; `probe` when the session has been idle long enough to be asked. */
  function Reuse(s: Session, probe: bool, script: Script): (Session, bool) {
    if s.doubtful || s.committing || !s.connected then (s, false)
    else if !probe then (s, true)
    else
      var (after, answer) := Call(s, GetUptime, script);
      if answer.Fine? || answer.RpcError? then (after, true) else (after.(doubtful := true), false)
  }
}
