/** One run's targets as tasks, and the interrupt that stops them. */
module Interrupt {
  import opened Wrappers
  import opened Faults
  import AP = AttemptProtocol

  datatype Status = OkDone | Failed | Skipped

  /** The run's settings a target's task depends on. */
  datatype Settings = Settings(editing: bool, read: bool, retries: nat, workers: nat)

  /** The first fault of an attempt: its operation, its kind, whether it reached the device, and whether that was
      the only operation. */
  datatype Fault = Fault(name: string, kind: Kind, reached: bool, alone: bool)

  /** How an attempt whose session is being given back will end: judged on its first fault, or by the exception that
      ended it. */
  datatype Ending = Judged(fault: Option<Fault>) | Raised(status: Status)

  /** Where a task is suspended. */
  datatype Phase =
    | Queued
    | Connecting
    | Working
    | Committing
    | Releasing(ending: Ending)
    | Pausing(fault: Fault)
    | Done(status: Status)

  /** A task: the attempt it is on, whether it has a worker, whether its commit was sent, whether it has been
      cancelled and not yet resumed. */
  datatype Task = Task(phase: Phase, attempt: nat, begun: bool, pastCommit: bool, cancelled: bool)

  datatype Mark = Begun | Attempted | Committed | CutShort | Ended(status: Status)

  /** What the gate says of an attempt: it may dial, or the attempt ends there. */
  datatype Gate = Admitted | Refused(skip: bool)

  /** What resumes a task. */
  datatype Act =
    | Begin(gate: Gate)
    | Connected
    | NotConnected(kind: Kind, reached: bool)
    | LoginRefused
    | Commit
    | Worked(fault: Option<Fault>)
    | Answered(answer: Option<(Kind, bool)>)
    | Crashed
    | Released
    | Resumed(gate: Gate)
    | Cut

  function Judge(fault: Fault, attempt: nat, s: Settings): AP.Verdict {
    AP.Decide(fault.kind, fault.reached, s.read, s.editing, fault.name, attempt, s.retries)
  }

  /** An open that reached nothing, which an interrupt turns into a target skipped. */
  predicate NeverReached(fault: Fault) {
    fault.alone && fault.name == AP.OPEN && !fault.reached
  }

  function Result(fault: Option<Fault>, stopping: bool): Status {
    match fault
    case None => OkDone
    case Some(f) => if stopping && NeverReached(f) then Skipped else Failed
  }

  function End(t: Task, status: Status): (Task, seq<Mark>) {
    (t.(phase := Done(status), cancelled := false), [Ended(status)])
  }

  /** An attempt has ended: another one only if the policy says so and no interrupt came. */
  function Next(t: Task, fault: Option<Fault>, stopping: bool, s: Settings): (Task, seq<Mark>) {
    if fault.Some? && Judge(fault.value, t.attempt, s).action == AP.RETRY && !stopping
    then (t.(phase := Pausing(fault.value)), [])
    else End(t, Result(fault, stopping))
  }

  /** The attempt's login under the gate. */
  function Dial(t: Task, gate: Gate): (Task, seq<Mark>) {
    match gate
    case Admitted => (t.(phase := Connecting, attempt := t.attempt + 1), [Attempted])
    case Refused(skip) => End(t, if skip then Skipped else Failed)
  }

  /** The cancelled task resumes, at the await where it is suspended. */
  function Deliver(t: Task, stopping: bool, s: Settings): (Task, seq<Mark>) {
    match t.phase
    case Queued => (End(t, Skipped).0, [CutShort, Ended(Skipped)])
    case Connecting => (End(t, Skipped).0, [CutShort, Ended(Skipped)])
    case Pausing(fault) =>
      var status := Result(Some(fault), stopping);
      (End(t, status).0, [CutShort, Ended(status)])
    case Releasing(_) => (End(t, Skipped).0, [CutShort, Ended(Skipped)])
    case _ => (t.(phase := Releasing(Raised(Skipped)), cancelled := false), [CutShort])
  }

  /** One turn of a task; a turn that is not possible changes nothing. A cancelled task can only be cut short. */
  function Turn(t: Task, act: Act, stopping: bool, free: nat, s: Settings): (Task, seq<Mark>) {
    if t.cancelled then if act.Cut? && !t.phase.Done? then Deliver(t, stopping, s) else (t, [])
    else
      match (t.phase, act)
      case (Queued, Begin(gate)) =>
        if free == 0 then (t, [])
        else
          var (after, marks) := Dial(t.(begun := true), gate);
          (after, [Begun] + marks)
      case (Connecting, Connected) => (t.(phase := Working), [])
      case (Connecting, NotConnected(kind, reached)) => Next(t, Some(Fault(AP.OPEN, kind, reached, true)), stopping, s)
      case (Connecting, LoginRefused) => End(t, Skipped)
      case (Connecting, Crashed) => End(t, Failed)
      case (Working, Commit) => if s.editing then (t.(phase := Committing, pastCommit := true), [Committed])
          else (t, [])
      case (Working, Worked(fault)) => (t.(phase := Releasing(Judged(fault))), [])
      case (Committing, Answered(answer)) =>
        var fault := if answer.None? then None else Some(Fault("commit", answer.value.0, answer.value.1, false));
        (t.(phase := Releasing(Judged(fault))), [])
      case (Working, Crashed) => (t.(phase := Releasing(Raised(Failed))), [])
      case (Committing, Crashed) => (t.(phase := Releasing(Raised(Failed))), [])
      case (Releasing(Judged(fault)), Released) => Next(t, fault, stopping, s)
      case (Releasing(Raised(status)), Released) => End(t, status)
      case (Pausing(_), Resumed(gate)) => Dial(t, gate)
      case _ => (t, [])
  }

  // ----- the run

  datatype Event = Of(target: nat, mark: Mark) | Interrupted

  /** Before its tasks are made a run may be probing its targets; an edit interrupted then is refused as a whole. */
  datatype Stage = Probing(cancelled: bool) | Launched | Abandoned

  /** The run: how many targets it has, its tasks in target order once they are made, whether an interrupt has come,
      the free workers, and what has happened. */
  datatype World = World(
    stage: Stage, targets: nat, tasks: seq<Task>, stopping: bool, interrupts: nat, free: nat, log: seq<Event>)

  datatype Move = Launch | Act(target: nat, act: Act) | Interrupt

  function Marked(target: nat, marks: seq<Mark>): seq<Event> {
    seq(|marks|, k requires 0 <= k < |marks| => Of(target, marks[k]))
  }

  predicate InFlight(t: Task) {
    t.begun && !t.phase.Done?
  }

  /** The workers left when a task goes from one state to another. */
  function FreeAfter(free: nat, was: Task, now: Task): nat {
    if !InFlight(was) && InFlight(now) then if free > 0 then free - 1 else 0
    else if InFlight(was) && !InFlight(now) then free + 1
    else free
  }

  /** The first interrupt cancels what has not begun and what is in flight and not past its commit. */
  function CutTask(t: Task): Task {
    if !t.phase.Done? && (!t.begun || !t.pastCommit) then t.(cancelled := true) else t
  }

  function OnInterrupt(w: World): World {
    var told := w.(interrupts := w.interrupts + 1, log := w.log + [Interrupted]);
    if w.interrupts > 0 then told
    else told.(stopping := true, stage := if w.stage.Probing? then Probing(true)
        else w.stage, tasks := seq(|w.tasks|, i requires 0 <= i < |w.tasks| => CutTask(w.tasks[i])))
  }

  function Skips(n: nat): seq<Event> {
    if n == 0 then [] else Skips(n - 1) + [Of(n - 1, Ended(Skipped))]
  }

  const NEW := Task(Queued, 0, false, false, false)
  const SKIPPED := Task(Done(Skipped), 0, false, false, false)

  /** The probe is over, or there was none: the tasks are made, or, after an interrupt, every target is skipped at
      once. */
  function OnLaunch(w: World, s: Settings): World {
    if !w.stage.Probing? then w
    else if !w.stopping then w.(stage := Launched, tasks := seq(w.targets, _ => NEW))
    else if s.editing then w.(stage := Abandoned)
    else w.(stage := Launched, tasks := seq(w.targets, _ => SKIPPED), log := w.log + Skips(w.targets))
  }

  function Step(w: World, move: Move, s: Settings): World {
    match move
    case Launch => OnLaunch(w, s)
    case Interrupt => OnInterrupt(w)
    case Act(i, act) =>
      if i >= |w.tasks| then w
      else
        var (after, marks) := Turn(w.tasks[i], act, w.stopping, w.free, s);
        w.(tasks := w.tasks[i := after], free := FreeAfter(w.free, w.tasks[i], after), log := w.log + Marked(i, marks))
  }

  function After(w: World, moves: seq<Move>, s: Settings): World {
    if moves == [] then w else Step(After(w, moves[..|moves| - 1], s), moves[|moves| - 1], s)
  }

  function Start(n: nat, s: Settings): World {
    World(Probing(false), n, [], false, 0, s.workers, [])
  }

  // ----- the interrupt and the results as the scheduler makes them

  class Run {
    const settings: Settings
    const targets: nat
    var stage: Stage
    var tasks: seq<Task>
    var stopping: bool
    var interrupts: nat
    var free: nat
    ghost var log: seq<Event>

    ghost function View(): World
      reads this
    {
      World(stage, targets, tasks, stopping, interrupts, free, log)
    }

    constructor (n: nat, settings: Settings)
      ensures this.settings == settings && View() == Start(n, settings)
    {
      this.settings, targets, stage, tasks := settings, n, Probing(false), [];
      stopping, interrupts, free, log := false, 0, settings.workers, [];
    }

    method AfterProbe()
      modifies this
      ensures View() == OnLaunch(old(View()), settings)
    {
      if !stage.Probing? {
        return;
      }
      if stopping && settings.editing {
        stage := Abandoned;
        return;
      }
      stage := Launched;
      if stopping {
        tasks := seq(targets, _ => SKIPPED);
        log := log + Skips(targets);
      } else {
        tasks := seq(targets, _ => NEW);
      }
    }

    method OnSignal()
      modifies this
      ensures View() == OnInterrupt(old(View()))
    {
      interrupts := interrupts + 1;
      log := log + [Interrupted];
      if interrupts > 1 {
        return;
      }
      stopping := true;
      if stage.Probing? {
        stage := Probing(true);
      }
      for i := 0 to |tasks|
        invariant |tasks| == |old(tasks)| && stopping && interrupts == old(interrupts) + 1
        invariant free == old(free) && log == old(log) + [Interrupted]
        invariant stage == if old(stage).Probing? then Probing(true) else old(stage)
        invariant forall k :: 0 <= k < |tasks| ==> tasks[k] == if k < i then CutTask(old(tasks)[k]) else old(tasks)[k]
      {
        var inFlight := tasks[i].begun && !tasks[i].phase.Done?;
        if (!tasks[i].begun && !tasks[i].phase.Done?) || (inFlight && !tasks[i].pastCommit) {
          tasks := tasks[i := tasks[i].(cancelled := true)];
        }
      }
    }
  }

  function Tally(results: seq<Status>, status: Status): nat {
    if results == [] then 0
    else Tally(results[..|results| - 1], status) + if results[|results| - 1] == status then 1 else 0
  }

  predicate AllDone(tasks: seq<Task>) {
    forall i :: 0 <= i < |tasks| ==> tasks[i].phase.Done?
  }

  /** The results in target order, one for each target, and how many there are of each status. */
  method Gather(tasks: seq<Task>) returns (results: seq<Status>, ok: nat, failed: nat, skipped: nat)
    requires AllDone(tasks)
    ensures |results| == |tasks| && forall i :: 0 <= i < |tasks| ==> tasks[i].phase == Done(results[i])
    ensures ok == Tally(results, OkDone) && failed == Tally(results, Failed) && skipped == Tally(results, Skipped)
    ensures ok + failed + skipped == |tasks|
  {
    results, ok, failed, skipped := [], 0, 0, 0;
    for i := 0 to |tasks|
      invariant |results| == i && forall k :: 0 <= k < i ==> tasks[k].phase == Done(results[k])
      invariant ok == Tally(results, OkDone) && failed == Tally(results, Failed) && skipped == Tally(results, Skipped)
      invariant ok + failed + skipped == i
    {
      var status := tasks[i].phase.status;
      assert (results + [status])[..i] == results;
      results := results + [status];
      match status {
        case OkDone => ok := ok + 1;
        case Failed => failed := failed + 1;
        case Skipped => skipped := skipped + 1;
      }
    }
  }

  // ----- what each task keeps

  /** An edit is never a read. */
  predicate Sensible(s: Settings) {
    !(s.editing && s.read)
  }

  ghost predicate CommitEnding(ending: Ending) {
    match ending
    case Judged(fault) => fault.Some? ==> fault.value.name == "commit"
    case Raised(status) => status == Failed
  }

  /** A task past its commit is not cancelled, will not try again and is not skipped; once an interrupt came, every
      other one is cancelled, cut short or over. */
  ghost predicate Sane(t: Task, stopping: bool) {
    && (t.pastCommit ==>
          && !t.cancelled
          && (|| t.phase.Committing?
              || (t.phase.Done? && t.phase.status != Skipped)
              || (t.phase.Releasing? && CommitEnding(t.phase.ending))))
    && (t.phase.Committing? ==> t.pastCommit)
    && (t.phase.Queued? ==> !t.begun)
    && (!t.phase.Queued? && !t.phase.Done? ==> t.begun)
    && (t.cancelled ==> stopping && !t.phase.Done?)
    && (stopping && !t.phase.Done? && !t.pastCommit ==> t.cancelled || t.phase == Releasing(Raised(Skipped)))
  }

  lemma CommitIsNotRetried(fault: Fault, attempt: nat, s: Settings)
    requires Sensible(s) && s.editing && fault.name == "commit"
    ensures Judge(fault, attempt, s).action != AP.RETRY
  {
  }

  lemma TurnSane(t: Task, act: Act, stopping: bool, free: nat, s: Settings)
    requires Sensible(s) && Sane(t, stopping) && (t.pastCommit ==> s.editing)
    ensures var after := Turn(t, act, stopping, free, s).0;
            Sane(after, stopping) && (after.pastCommit ==> s.editing)
  {
  }

  /** After an interrupt no turn begins a target, an attempt or a commit. */
  lemma TurnQuiet(t: Task, act: Act, free: nat, s: Settings)
    requires Sensible(s) && Sane(t, true) && (t.pastCommit ==> s.editing)
    ensures forall m :: m in Turn(t, act, true, free, s).1 ==> m.CutShort? || m.Ended?
  {
  }
}
