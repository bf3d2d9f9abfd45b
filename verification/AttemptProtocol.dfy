/** The retry policy, the edit lifecycle and the attempts at one target. */
module AttemptProtocol {
  import opened Wrappers
  import opened Faults

  const OPEN := "open"

  /** An operation's result: what a diff or a history told, or the fault and whether the device was reached. */
  datatype Outcome = Good(data: Data) | Bad(kind: Kind, reached: bool)
  datatype Data = NoData | Changed(changed: bool) | Status(pending: bool)
  datatype Op = Op(name: string, outcome: Outcome)

  datatype Action = RETRY | FAIL | SKIP
  datatype Verdict = Verdict(action: Action, coolDown: bool)

  /** The default policy for one fault on attempt `attempt` of the operation. */
  function Decide(kind: Kind, reached: bool, read: bool, editing: bool, operation: string, attempt: nat,
      retries: nat): Verdict {
    var left := attempt <= retries;
    if operation == OPEN && kind in {TIMEOUT, SESSION_LOST} then
      var unanswered := kind == TIMEOUT && !reached;
      Verdict(if (unanswered || kind == SESSION_LOST) && left then RETRY else FAIL, false)
    else if kind in {UNREACHABLE, AUTH, HOST_KEY, UNSUPPORTED, LOCAL} then Verdict(FAIL, false)
    else if kind == OUTCOME_UNKNOWN then Verdict(FAIL, true)
    else if kind in {TIMEOUT, SESSION_LOST} then
      if read && left then Verdict(RETRY, false) else Verdict(FAIL, editing && reached)
    else Verdict(FAIL, editing && reached)
  }

  /** What a run does on its session. */
  datatype Mode =
    | Edit(hasCandidate: bool, lines: seq<string>, apply: bool)
    | Confirming
    | CommitStatus
    | Config
    | Show(command: string, read: bool)

  predicate Reads(mode: Mode) {
    mode.CommitStatus? || mode.Config? || (mode.Show? && mode.read)
  }

  /** The calls a target's communicator gets. */
  datatype Call = Open | Load(lines: seq<string>) | Diff | Commit | Confirm | History | GetConfig | Run(command: string)

  /** What the gate says of a login that replaces a kept session. */
  datatype Leave = Allowed | Denied | NoGate

  /** What the gate and the session manager say at the start of an attempt: whether a kept session waited when the
      gate was asked, whether it was evicted before it could be borrowed, whether it was vouched for, and what the
      gate says of the login in its place. */
  datatype Admission = GateBroken | Held | Let(pooled: bool, evicted: bool, vouched: bool, leave: Leave)

  /** The n-th communicator call meets the n-th answer, the n-th attempt the n-th admission. */
  datatype Env = Env(answers: nat -> Outcome, gate: nat -> Admission)

  /** What has happened to the target so far: its calls, the logins asked of the gate, its attempts, those the gate
      let through and those that got past open; for each session given back, whether it was discarded; for each
      reservation given up, whether the device was cooled down. */
  datatype Trace = Trace(
    calls: seq<Call>, logins: nat, attempts: nat, admitted: nat, worked: nat, backs: seq<bool>, settles: seq<bool>)

  const START := Trace([], 0, 0, 0, 0, [], [])

  function Ask(t: Trace, call: Call, env: Env): (Trace, Outcome) {
    (t.(calls := t.calls + [call]), env.answers(|t.calls|))
  }

  // ----- the edit lifecycle

  /** Line by line from line n, stopping at the first fault; the lines before it are applied. */
  function LoadFrom(t: Trace, lines: seq<string>, n: nat, env: Env): (Trace, seq<Op>)
    requires n <= |lines|
    decreases |lines| - n
  {
    if n == |lines| then (t, [])
    else
      var (after, outcome) := Ask(t, Load([lines[n]]), env);
      if outcome.Bad? then (after, [Op(lines[n], outcome)])
      else
        var (end, rest) := LoadFrom(after, lines, n + 1, env);
        (end, [Op(lines[n], outcome)] + rest)
  }

  function LoadOps(t: Trace, hasCandidate: bool, lines: seq<string>, env: Env): (Trace, seq<Op>) {
    if hasCandidate then
      var (after, outcome) := Ask(t, Load(lines), env);
      (after, [Op("load", outcome)])
    else LoadFrom(t, lines, 0, env)
  }

  predicate Failed(ops: seq<Op>) {
    ops != [] && ops[|ops| - 1].outcome.Bad?
  }

  function EditOps(t: Trace, mode: Mode, env: Env): (Trace, seq<Op>)
    requires mode.Edit?
  {
    var (loaded, ops) := LoadOps(t, mode.hasCandidate, mode.lines, env);
    if Failed(ops) then (loaded, ops)
    else
      var (compared, told) := Ask(loaded, Diff, env);
      var both := ops + [Op("diff", told)];
      if told.Bad? || !mode.apply || told.data == Changed(false) then (compared, both)
      else
        var (sent, answer) := Ask(compared, Commit, env);
        (sent, both + [Op("commit", answer)])
  }

  function ModeOps(t: Trace, mode: Mode, env: Env): (Trace, seq<Op>) {
    match mode
    case Edit(_, _, _) => EditOps(t, mode, env)
    case Confirming =>
      var (read, told) := Ask(t, History, env);
      var history := Op("commit_history", told);
      if told.Bad? then (read, [history])
      else if told.data != Status(true) then (read, [history, Op("confirm", Bad(REFUSED, true))])
      else
        var (sent, answer) := Ask(read, Confirm, env);
        (sent, [history, Op("confirm", answer)])
    case CommitStatus => var (read, told) := Ask(t, History, env); (read, [Op("commit_history", told)])
    case Config => var (read, told) := Ask(t, GetConfig, env); (read, [Op("config", told)])
    case Show(command, _) => var (read, told) := Ask(t, Run(command), env); (read, [Op(command, told)])
  }

  // ----- one attempt

  function FirstFault(ops: seq<Op>): Option<Op> {
    if ops == [] then None else if ops[0].outcome.Bad? then Some(ops[0]) else FirstFault(ops[1..])
  }

  function Judge(op: Op, mode: Mode, attempt: nat, retries: nat): Verdict
    requires op.outcome.Bad?
  {
    Decide(op.outcome.kind, op.outcome.reached, Reads(mode), mode.Edit?, op.name, attempt, retries)
  }

  datatype Tried = Tried(ops: seq<Op>, verdict: Option<Verdict>)

  predicate AnyDiscarding(ops: seq<Op>) {
    exists i :: 0 <= i < |ops| && ops[i].outcome.Bad? && Discarding(ops[i].outcome.kind)
  }

  /** The reservation given up, with a cooldown when the verdict says so. */
  function Settle(t: Trace, verdict: Option<Verdict>): Trace {
    t.(settles := t.settles + [verdict.Some? && verdict.value.coolDown])
  }

  /** After the operations: the session is given back, the first fault judged, the reservation settled. */
  function Conclude(t: Trace, ops: seq<Op>, mode: Mode, retries: nat): (Trace, Tried) {
    var fault := FirstFault(ops);
    FirstFaultIsBad(ops);
    var verdict := if fault.None? then None else Some(Judge(fault.value, mode, t.attempts, retries));
    (Settle(t.(backs := t.backs + [AnyDiscarding(ops)]), verdict), Tried(ops, verdict))
  }

  /** The mode's operations on the session in hand. */
  function Work(t: Trace, mode: Mode, retries: nat, env: Env): (Trace, Tried) {
    var (after, ops) := ModeOps(t.(worked := t.worked + 1), mode, env);
    Conclude(after, ops, mode, retries)
  }

  lemma {:induction false} FirstFaultIsBad(ops: seq<Op>)
    ensures FirstFault(ops).Some? ==> FirstFault(ops).value.outcome.Bad? && FirstFault(ops).value in ops
    ensures FirstFault(ops).None? ==> forall i :: 0 <= i < |ops| ==> ops[i].outcome.Good?
  {
    if ops != [] && ops[0].outcome.Good? {
      FirstFaultIsBad(ops[1..]);
      assert forall i :: 0 < i < |ops| ==> ops[i] == ops[1..][i - 1];
    }
  }

  function Ended(reached: bool, action: Action): Tried {
    Tried([Op(OPEN, Bad(LOCAL, reached))], Some(Verdict(action, false)))
  }

  /** An attempt up to its session: the gate, then the manager, then the open. Some result when it ends there. An
      eviction between the gate and the manager makes the open one the gate did not count. */
  function Dial(was: Trace, mode: Mode, retries: nat, env: Env): (Trace, Option<Tried>) {
    var t := was.(attempts := was.attempts + 1);
    match env.gate(was.attempts)
    case GateBroken => (t, Some(Ended(false, FAIL)))
    case Held => (t, Some(Ended(false, SKIP)))
    case Let(pooled, evicted, vouched, leave) =>
      var let := t.(admitted := t.admitted + 1, logins := t.logins + if pooled then 0 else 1);
      if !pooled || evicted then Connect(let, mode, retries, env)
      else if vouched then (let, None)
      else
        var asked := let.(logins := let.logins + 1);
        match leave
        case NoGate => (Settle(asked, None), Some(Ended(true, FAIL)))
        case Denied => (Settle(asked, None), Some(Ended(false, SKIP)))
        case Allowed => Connect(asked, mode, retries, env)
  }

  function Connect(t: Trace, mode: Mode, retries: nat, env: Env): (Trace, Option<Tried>) {
    var (dialled, answer) := Ask(t, Open, env);
    if answer.Good? then (dialled, None)
    else
      var verdict := Some(Judge(Op(OPEN, answer), mode, t.attempts, retries));
      (Settle(dialled, verdict), Some(Tried([Op(OPEN, answer)], verdict)))
  }

  function Attempt(was: Trace, mode: Mode, retries: nat, env: Env): (Trace, Tried) {
    var (t, ended) := Dial(was, mode, retries, env);
    if ended.Some? then (t, ended.value) else Work(t, mode, retries, env)
  }

  predicate Again(tried: Tried) {
    tried.verdict.Some? && tried.verdict.value.action == RETRY
  }

  /** A retry is only ever decided while retries are left. */
  lemma RetryIsBounded(t: Trace, mode: Mode, retries: nat, env: Env)
    ensures var (after, tried) := Attempt(t, mode, retries, env);
            after.attempts == t.attempts + 1 && (Again(tried) ==> after.attempts <= retries)
  {
    WorkIsBounded(Dial(t, mode, retries, env).0, mode, retries, env);
  }

  lemma WorkIsBounded(t: Trace, mode: Mode, retries: nat, env: Env)
    ensures var (after, tried) := Work(t, mode, retries, env);
            after.attempts == t.attempts && (Again(tried) ==> t.attempts <= retries)
  {
    KeepsAttempts(t.(worked := t.worked + 1), mode, env);
  }

  lemma {:induction false} LoadKeepsAttempts(t: Trace, lines: seq<string>, n: nat, env: Env)
    requires n <= |lines|
    ensures var after := LoadFrom(t, lines, n, env).0;
            after == t.(calls := after.calls) && t.calls <= after.calls
    decreases |lines| - n
  {
    if n < |lines| {
      LoadKeepsAttempts(Ask(t, Load([lines[n]]), env).0, lines, n + 1, env);
    }
  }

  lemma KeepsAttempts(t: Trace, mode: Mode, env: Env)
    ensures var after := ModeOps(t, mode, env).0;
            after == t.(calls := after.calls) && t.calls <= after.calls
  {
    if mode.Edit? {
      LoadKeepsAttempts(t, mode.lines, 0, env);
    }
  }

  /** The attempts at one target from the next one on. */
  function RunTarget(t: Trace, mode: Mode, retries: nat, env: Env): (Trace, Tried)
    requires t.attempts <= retries
    decreases retries - t.attempts
  {
    var (after, tried) := Attempt(t, mode, retries, env);
    RetryIsBounded(t, mode, retries, env);
    if Again(tried) then RunTarget(after, mode, retries, env) else (after, tried)
  }
}
