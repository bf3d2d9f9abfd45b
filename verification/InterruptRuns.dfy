/** What holds in every interleaving of a run's targets with interrupts. */
module InterruptRuns {
  import opened Wrappers
  import opened Interrupt

  // ----- counting events

  function Count(log: seq<Event>, e: Event): nat {
    if log == [] then 0 else Count(log[..|log| - 1], e) + if log[|log| - 1] == e then 1 else 0
  }

  function Times(marks: seq<Mark>, mark: Mark): nat {
    if marks == [] then 0 else Times(marks[..|marks| - 1], mark) + if marks[|marks| - 1] == mark then 1 else 0
  }

  lemma {:induction false} CountMarked(log: seq<Event>, i: nat, marks: seq<Mark>, j: nat, mark: Mark)
    ensures Count(log + Marked(i, marks), Of(j, mark)) == Count(log, Of(j, mark)) + if i
        == j then Times(marks, mark) else 0
  {
    if marks == [] {
      assert log + Marked(i, marks) == log;
    } else {
      var n := |marks| - 1;
      CountMarked(log, i, marks[..n], j, mark);
      assert (log + Marked(i, marks))[..|log| + n] == log + Marked(i, marks[..n]);
    }
  }

  lemma CountInterrupted(log: seq<Event>, j: nat, mark: Mark)
    ensures Count(log + [Interrupted], Of(j, mark)) == Count(log, Of(j, mark))
  {
    assert (log + [Interrupted])[..|log|] == log;
  }

  lemma {:induction false} Counted(log: seq<Event>, e: Event)
    ensures Count(log, e) > 0 <==> e in log
  {
    if log != [] {
      Counted(log[..|log| - 1], e);
      assert log == log[..|log| - 1] + [log[|log| - 1]];
    }
  }

  // ----- what the log says of a task

  /** A target cut short is not reported as ok. */
  predicate GaveUp(t: Task) {
    (t.phase.Done? && t.phase.status != OkDone) || t.phase == Releasing(Raised(Skipped))
  }

  /** One commit if it is past it, and then no cut; one end when it is over, with its status. */
  ghost predicate Told(log: seq<Event>, i: nat, t: Task) {
    && Count(log, Of(i, Committed)) == (if t.pastCommit then 1 else 0)
    && (t.pastCommit ==> Count(log, Of(i, CutShort)) == 0)
    && (Count(log, Of(i, CutShort)) > 0 ==> GaveUp(t))
    && (forall status :: Count(log, Of(i, Ended(status))) == if t.phase == Done(status) then 1 else 0)
  }

  /** What a turn's marks change of that. */
  ghost predicate Marks(was: Task, now: Task, marks: seq<Mark>) {
    && Times(marks, Committed) == (if now.pastCommit && !was.pastCommit then 1 else 0) && (was.pastCommit
        ==> now.pastCommit)
    && (Times(marks, CutShort) > 0 ==> !now.pastCommit && GaveUp(now))
    && (was.phase.Done? ==> now.phase == was.phase)
    && (forall status :: Times(marks, Ended(status)) == if now.phase == Done(status) && !was.phase.Done? then 1 else 0)
    && ((was.phase.Done? || was.phase == Releasing(Raised(Skipped))) ==>
          now.pastCommit == was.pastCommit && (GaveUp(was) ==> GaveUp(now)))
  }

  lemma OneMark(a: Mark, m: Mark)
    ensures Times([a], m) == if a == m then 1 else 0
  {
    assert [a][..0] == [];
  }

  lemma TwoMarks(a: Mark, b: Mark, m: Mark)
    ensures Times([a, b], m) == (if a == m then 1 else 0) + if b == m then 1 else 0
  {
    OneMark(a, m);
    assert [a, b][..1] == [a];
  }

  ghost predicate Single(t: (Task, seq<Mark>), was: Task) {
    || t == (was, [])
    || (t.1 == [] && t.0.pastCommit == was.pastCommit && !t.0.phase.Done? && !was.phase.Done?
        && was.phase != Releasing(Raised(Skipped)))
    || (t.1 == [Attempted] && t.0.pastCommit == was.pastCommit && !t.0.phase.Done? && was.phase.Pausing?)
    || (t.1 == [Committed] && t.0.pastCommit && !was.pastCommit && !t.0.phase.Done? && was.phase.Working?)
    || (t.1 == [CutShort] && !t.0.pastCommit && !was.pastCommit && t.0.phase == Releasing(Raised(Skipped))
        && !was.phase.Done?)
    || (t.0.phase.Done? && t.1 == [Ended(t.0.phase.status)] && t.0.pastCommit == was.pastCommit && !was.phase.Done?
        && (GaveUp(was) ==> GaveUp(t.0)))
  }

  ghost predicate Double(t: (Task, seq<Mark>), was: Task) {
    || (t.1 == [Begun, Attempted] && t.0.pastCommit == was.pastCommit && !t.0.phase.Done? && was.phase.Queued?)
    || (t.0.phase.Done? && t.1 == [Begun, Ended(t.0.phase.status)] && t.0.pastCommit == was.pastCommit
        && was.phase.Queued?)
    || (t.0.phase.Done? && t.1 == [CutShort, Ended(t.0.phase.status)] && !t.0.pastCommit && !was.pastCommit
        && !was.phase.Done? && GaveUp(t.0))
  }

  /** Every turn is one of a few. */
  lemma TurnShapes(t: Task, act: Act, stopping: bool, free: nat, s: Settings)
    requires Sensible(s) && Sane(t, stopping)
    ensures var after := Turn(t, act, stopping, free, s); Single(after, t) || Double(after, t)
  {
  }

  lemma SingleMarks(t: (Task, seq<Mark>), was: Task)
    requires Single(t, was)
    ensures Marks(was, t.0, t.1)
  {
    if t.1 != [] {
      forall m ensures Times(t.1, m) == if t.1[0] == m then 1 else 0 {
        OneMark(t.1[0], m);
      }
    }
  }

  lemma DoubleMarks(t: (Task, seq<Mark>), was: Task)
    requires Double(t, was)
    ensures Marks(was, t.0, t.1)
  {
    forall m ensures Times(t.1, m) == (if t.1[0] == m then 1 else 0) + if t.1[1] == m then 1 else 0 {
      TwoMarks(t.1[0], t.1[1], m);
    }
  }

  lemma TurnMarks(t: Task, act: Act, stopping: bool, free: nat, s: Settings)
    requires Sensible(s) && Sane(t, stopping)
    ensures var (after, marks) := Turn(t, act, stopping, free, s); Marks(t, after, marks)
  {
    TurnShapes(t, act, stopping, free, s);
    var after := Turn(t, act, stopping, free, s);
    if Single(after, t) {
      SingleMarks(after, t);
    } else {
      DoubleMarks(after, t);
    }
  }

  lemma ToldByMarks(log: seq<Event>, i: nat, was: Task, now: Task, marks: seq<Mark>)
    requires Told(log, i, was) && Marks(was, now, marks)
    ensures Told(log + Marked(i, marks), i, now)
  {
    CountMarked(log, i, marks, i, Committed);
    CountMarked(log, i, marks, i, CutShort);
    forall status ensures Count(log + Marked(i, marks), Of(i, Ended(status))) == if now.phase
        == Done(status) then 1 else 0 {
      CountMarked(log, i, marks, i, Ended(status));
    }
  }

  lemma ToldStill(log: seq<Event>, i: nat, marks: seq<Mark>, j: nat, t: Task)
    requires Told(log, j, t) && i != j
    ensures Told(log + Marked(i, marks), j, t)
  {
    CountMarked(log, i, marks, j, Committed);
    CountMarked(log, i, marks, j, CutShort);
    forall status ensures Count(log + Marked(i, marks), Of(j, Ended(status))) == Count(log, Of(j, Ended(status))) {
      CountMarked(log, i, marks, j, Ended(status));
    }
  }

  lemma ToldInterrupted(log: seq<Event>, j: nat, t: Task)
    requires Told(log, j, t)
    ensures Told(log + [Interrupted], j, CutTask(t)) && Told(log + [Interrupted], j, t)
  {
    CountInterrupted(log, j, Committed);
    CountInterrupted(log, j, CutShort);
    forall status ensures Count(log + [Interrupted], Of(j, Ended(status))) == Count(log, Of(j, Ended(status))) {
      CountInterrupted(log, j, Ended(status));
    }
  }

  // ----- workers

  function Flying(tasks: seq<Task>): nat {
    if tasks == [] then 0 else Flying(tasks[..|tasks| - 1]) + if InFlight(tasks[|tasks| - 1]) then 1 else 0
  }

  lemma {:induction false} FlyingWith(tasks: seq<Task>, i: nat, t: Task)
    requires i < |tasks|
    ensures Flying(tasks[i := t]) + (if InFlight(tasks[i]) then 1 else 0)
        == Flying(tasks) + if InFlight(t) then 1 else 0
  {
    var n := |tasks| - 1;
    if i == n {
      assert tasks[i := t][..n] == tasks[..n];
    } else {
      FlyingWith(tasks[..n], i, t);
      assert tasks[i := t][..n] == tasks[..n][i := t];
    }
  }

  lemma {:induction false} FlyingAlike(a: seq<Task>, b: seq<Task>)
    requires |a| == |b| && forall i :: 0 <= i < |a| ==> InFlight(a[i]) == InFlight(b[i])
    ensures Flying(a) == Flying(b)
  {
    if a != [] {
      FlyingAlike(a[..|a| - 1], b[..|b| - 1]);
    }
  }

  lemma TurnFlies(t: Task, act: Act, stopping: bool, free: nat, s: Settings)
    requires Sane(t, stopping)
    ensures var after := Turn(t, act, stopping, free, s).0; !InFlight(t) && InFlight(after) ==> free > 0
  {
  }

  // ----- the run

  /** Nothing begins once an interrupt has come: no target, no attempt, no commit. */
  ghost predicate Quiet(log: seq<Event>) {
    forall a, b :: 0 <= a < b < |log| && log[a].Interrupted? && log[b].Of? ==>
      log[b].mark.CutShort? || log[b].mark.Ended?
  }

  ghost predicate AllSane(w: World, s: Settings) {
    forall i :: 0 <= i < |w.tasks| ==> Sane(w.tasks[i], w.stopping) && (w.tasks[i].pastCommit ==> s.editing)
  }

  /** A target's task, or the one it would have. */
  function TaskAt(w: World, i: nat): Task {
    if i < |w.tasks| then w.tasks[i] else NEW
  }

  ghost predicate AllTold(w: World) {
    forall i :: 0 <= i < w.targets ==> Told(w.log, i, TaskAt(w, i))
  }

  ghost predicate Stopped(w: World) {
    && w.stopping == (w.interrupts > 0) && (Interrupted in w.log ==> w.stopping)
    && |w.tasks| == if w.stage.Launched? then w.targets else 0
  }

  lemma StepSane(w: World, move: Move, s: Settings)
    requires Sensible(s) && AllSane(w, s) && Stopped(w)
    ensures AllSane(Step(w, move, s), s) && Stopped(Step(w, move, s)) && Step(w, move, s).targets == w.targets
  {
    match move
    case Launch => SkipsEnd(w.targets);
    case Act(i, act) =>
      if i < |w.tasks| {
        TurnSane(w.tasks[i], act, w.stopping, w.free, s);
      }
    case Interrupt =>
  }

  lemma {:induction false} SkipsEnd(n: nat)
    ensures forall e :: e in Skips(n) ==> e.Of? && e.mark == Ended(Skipped)
  {
    if n > 0 {
      SkipsEnd(n - 1);
    }
  }

  lemma StepQuiet(w: World, move: Move, s: Settings)
    requires Sensible(s) && AllSane(w, s) && Stopped(w) && Quiet(w.log)
    ensures Quiet(Step(w, move, s).log)
  {
    match move
    case Launch => SkipsEnd(w.targets);
    case Act(i, act) =>
      if i < |w.tasks| && w.stopping {
        TurnQuiet(w.tasks[i], act, w.free, s);
      }
    case Interrupt =>
  }

  lemma {:induction false} CountSkips(log: seq<Event>, n: nat, j: nat, mark: Mark)
    ensures Count(log + Skips(n), Of(j, mark)) == Count(log, Of(j, mark)) + if j < n && mark
        == Ended(Skipped) then 1 else 0
  {
    if n == 0 {
      assert log + Skips(0) == log;
    } else {
      CountSkips(log, n - 1, j, mark);
      assert log + Skips(n) == log + Skips(n - 1) + [Of(n - 1, Ended(Skipped))];
      assert (log + Skips(n))[..|log + Skips(n)| - 1] == log + Skips(n - 1);
    }
  }

  /** A target that had no task, and is now skipped without one. */
  lemma ToldSkipped(log: seq<Event>, n: nat, j: nat)
    requires Told(log, j, NEW) && j < n
    ensures Told(log + Skips(n), j, SKIPPED)
  {
    CountSkips(log, n, j, Committed);
    CountSkips(log, n, j, CutShort);
    forall status ensures Count(log + Skips(n), Of(j, Ended(status))) == if status == Skipped then 1 else 0 {
      CountSkips(log, n, j, Ended(status));
    }
  }

  lemma StepTold(w: World, move: Move, s: Settings)
    requires Sensible(s) && AllSane(w, s) && AllTold(w) && Stopped(w)
    ensures AllTold(Step(w, move, s))
  {
    var after := Step(w, move, s);
    forall j | 0 <= j < after.targets ensures Told(after.log, j, TaskAt(after, j)) {
      assert Told(w.log, j, TaskAt(w, j));
      match move
      case Launch =>
        if w.stage.Probing? && w.stopping && !s.editing {
          ToldSkipped(w.log, w.targets, j);
        }
      case Interrupt => ToldInterrupted(w.log, j, TaskAt(w, j));
      case Act(i, act) =>
        if i < |w.tasks| {
          var (now, marks) := Turn(w.tasks[i], act, w.stopping, w.free, s);
          if j == i {
            TurnMarks(w.tasks[i], act, w.stopping, w.free, s);
            ToldByMarks(w.log, i, w.tasks[i], now, marks);
          } else {
            ToldStill(w.log, i, marks, j, w.tasks[j]);
          }
        }
    }
  }

  lemma StepWorkers(w: World, move: Move, s: Settings)
    requires AllSane(w, s) && Stopped(w) && Flying(w.tasks) + w.free == s.workers
    ensures Flying(Step(w, move, s).tasks) + Step(w, move, s).free == s.workers
  {
    match move
    case Launch =>
      if w.stage.Probing? {
        NoneFlying(w.tasks);
        NoneFlying(Step(w, move, s).tasks);
      }
    case Interrupt => FlyingAlike(w.tasks, Step(w, move, s).tasks);
    case Act(i, act) =>
      if i < |w.tasks| {
        TurnFlies(w.tasks[i], act, w.stopping, w.free, s);
        FlyingWith(w.tasks, i, Turn(w.tasks[i], act, w.stopping, w.free, s).0);
      }
  }

  lemma {:induction false} RunKeeps(n: nat, moves: seq<Move>, s: Settings)
    requires Sensible(s)
    ensures var w := After(Start(n, s), moves, s);
            w.targets == n && AllSane(w, s) && Stopped(w) && Quiet(w.log)
  {
    if moves != [] {
      var w, last := After(Start(n, s), moves[..|moves| - 1], s), moves[|moves| - 1];
      RunKeeps(n, moves[..|moves| - 1], s);
      StepSane(w, last, s);
      StepQuiet(w, last, s);
    }
  }

  lemma {:induction false} RunTold(n: nat, moves: seq<Move>, s: Settings)
    requires Sensible(s)
    ensures AllTold(After(Start(n, s), moves, s))
  {
    if moves != [] {
      var w, last := After(Start(n, s), moves[..|moves| - 1], s), moves[|moves| - 1];
      RunTold(n, moves[..|moves| - 1], s);
      RunKeeps(n, moves[..|moves| - 1], s);
      StepTold(w, last, s);
    }
  }

  /** Interrupt safety: in every interleaving of the targets' steps with interrupts, the probe included, no target,
      attempt or commit begins after the first interrupt. */
  lemma NothingBeginsAfterInterrupt(n: nat, moves: seq<Move>, s: Settings)
    requires Sensible(s)
    ensures Quiet(After(Start(n, s), moves, s).log)
  {
    RunKeeps(n, moves, s);
  }

  /** A target past its commit is never cancelled: it commits at most once, and one that did is never cut short. */
  lemma CommittedIsNeverCut(n: nat, moves: seq<Move>, s: Settings, i: nat)
    requires Sensible(s) && i < n
    ensures var log := After(Start(n, s), moves, s).log;
            Count(log, Of(i, Committed)) <= 1 && (Of(i, Committed) in log ==> Of(i, CutShort) !in log)
  {
    var w := After(Start(n, s), moves, s);
    RunKeeps(n, moves, s);
    RunTold(n, moves, s);
    assert Told(w.log, i, TaskAt(w, i));
    Counted(w.log, Of(i, Committed));
    Counted(w.log, Of(i, CutShort));
  }

  /** What the report says of them: a target that sent its commit is never reported skipped, one that was cut short
      never ok. */
  lemma ReportedAsTheyEnded(n: nat, moves: seq<Move>, s: Settings, i: nat)
    requires Sensible(s) && i < n
    ensures var log := After(Start(n, s), moves, s).log;
            && (Of(i, Committed) in log ==> Of(i, Ended(Skipped)) !in log)
            && (Of(i, CutShort) in log ==> Of(i, Ended(OkDone)) !in log)
  {
    var w := After(Start(n, s), moves, s);
    RunKeeps(n, moves, s);
    RunTold(n, moves, s);
    assert Told(w.log, i, TaskAt(w, i));
    Counted(w.log, Of(i, Committed));
    Counted(w.log, Of(i, CutShort));
    Counted(w.log, Of(i, Ended(Skipped)));
    Counted(w.log, Of(i, Ended(OkDone)));
  }

  /** A target ends once, with the status its task has. */
  lemma EndsOnce(n: nat, moves: seq<Move>, s: Settings, i: nat, status: Status)
    requires Sensible(s) && i < n
    ensures var w := After(Start(n, s), moves, s);
            Count(w.log, Of(i, Ended(status))) == if TaskAt(w, i).phase == Done(status) then 1 else 0
  {
    RunKeeps(n, moves, s);
    RunTold(n, moves, s);
  }

  /** No more targets are in flight than there are workers, and every worker is given back. */
  lemma {:induction false} WorkersConserved(n: nat, moves: seq<Move>, s: Settings)
    requires Sensible(s)
    ensures var w := After(Start(n, s), moves, s); Flying(w.tasks) + w.free == s.workers
  {
    if moves != [] {
      WorkersConserved(n, moves[..|moves| - 1], s);
      RunKeeps(n, moves[..|moves| - 1], s);
      StepWorkers(After(Start(n, s), moves[..|moves| - 1], s), moves[|moves| - 1], s);
    }
  }

  lemma {:induction false} NoneFlying(tasks: seq<Task>)
    requires forall i :: 0 <= i < |tasks| ==> !InFlight(tasks[i])
    ensures Flying(tasks) == 0
  {
    if tasks != [] {
      NoneFlying(tasks[..|tasks| - 1]);
    }
  }
}
