/** What every sequence of calls on a NETCONF session keeps, a close or discard during a commit included. */
module NetconfRuns {
  import opened Faults
  import opened NetconfProtocol

  /** The borrower's calls, the manager's, and other users of the device. */
  datatype Event =
    | Load(lines: seq<string>) | Diff | History | CommitBegin | ConfirmBegin | CommitEnd(answer: Answer)
    | Release | Close | Discard | Reuse(probe: bool)
    | Others(committed: seq<string>, candidate: seq<string>)

  /** While a commit is in flight its thread makes no other call; only another thread's release, close or discard
      can come between. */
  predicate Possible(s: Session, event: Event) {
    match event
    case CommitEnd(_) => s.committing
    case Release => true
    case Close => true
    case Discard => true
    case Others(_, _) => true
    case _ => !s.committing
  }

  function Step(s: Session, event: Event, script: Script): Session {
    if !Possible(s, event) then s
    else match event
      case Load(lines) => NetconfProtocol.Load(s, lines, script).0
      case Diff => NetconfProtocol.Diff(s, script).0
      case History => NetconfProtocol.History(s, script).0
      case CommitBegin => NetconfProtocol.CommitBegin(s, script).0
      case ConfirmBegin => NetconfProtocol.ConfirmBegin(s, script).0
      case CommitEnd(answer) => NetconfProtocol.CommitEnd(s, answer).0
      case Release => NetconfProtocol.Release(s, script).0
      case Close => NetconfProtocol.Close(s, script).0
      case Discard => NetconfProtocol.Discard(s)
      case Reuse(probe) => NetconfProtocol.Reuse(s, probe, script).0
      case Others(committed, candidate) =>
        if s.dev.mine then s else s.(dev := s.dev.(committed := committed, candidate := candidate))
  }

  function RunAll(s: Session, events: seq<Event>, script: Script): Session
    decreases events
  {
    if events == [] then s else RunAll(Step(s, events[0], script), events[1..], script)
  }

  function Opened(committed: seq<string>, candidate: seq<string>): Session {
    Session(false, false, false, false, true, true, Device(committed, candidate, false), [], 0)
  }

  // ----- ownership, told from the delivered requests alone

  /** The lock was granted and has not been asked back. */
  predicate Held(log: seq<Entry>) {
    log != [] &&
    var last, before := log[|log| - 1], log[..|log| - 1];
    match last
    case Sent(Lock, Fine(_)) => true
    case Sent(Unlock, _) => false
    case _ => Held(before)
  }

  /** A load was sent under the present lock and no commit has been acknowledged since. */
  predicate Loaded(log: seq<Entry>) {
    log != [] &&
    var last, before := log[|log| - 1], log[..|log| - 1];
    match last
    case Sent(Lock, Fine(_)) => false
    case Sent(Unlock, _) => false
    case Sent(LoadConfig(_), _) => Held(before)
    case CommitAnswered(Fine(_)) => false
    case _ => Loaded(before)
  }

  /** The lines of the acknowledged loads the candidate still owes to a commit. */
  function Owed(log: seq<Entry>): seq<string> {
    if log == [] then []
    else
      var last, before := log[|log| - 1], log[..|log| - 1];
      match last
      case Sent(Lock, Fine(_)) => []
      case Sent(Rollback, Fine(_)) => []
      case CommitAnswered(Fine(_)) => []
      case Sent(LoadConfig(lines), Fine(_)) => Owed(before) + lines
      case _ => Owed(before)
  }

  /** No load since then went unanswered. */
  predicate Answered(log: seq<Entry>) {
    log == [] ||
    var last, before := log[|log| - 1], log[..|log| - 1];
    match last
    case Sent(Lock, Fine(_)) => true
    case Sent(Rollback, Fine(_)) => true
    case CommitAnswered(Fine(_)) => true
    case Sent(LoadConfig(_), answer) => (answer.Fine? || answer.RpcError?) && Answered(before)
    case _ => Answered(before)
  }

  predicate Cleanup(entry: Entry) {
    entry.Sent? && (entry.rpc == Unlock || entry.rpc == Rollback)
  }

  /** Every unlock delivered was for a lock this session held, every rollback for a load still uncommitted under it.
      */
  predicate Owned(log: seq<Entry>) {
    log != [] ==>
      var last, before := log[|log| - 1], log[..|log| - 1];
      && Owned(before)
      && (last.Sent? && last.rpc == Unlock ==> Held(before))
      && (last.Sent? && last.rpc == Rollback ==> Held(before) && Loaded(before))
  }

  /** While the transport is up and the session not doubtful, the flags are what the delivered requests say, and the
      device agrees. */
  ghost predicate Truthful(s: Session) {
    && Owned(s.log)
    && (s.open && !s.doubtful ==>
          && s.locked == Held(s.log) && s.locked == s.dev.mine
          && (s.dirty ==> s.locked && Loaded(s.log))
          && (s.locked && !s.dirty ==> s.dev.candidate == s.dev.committed)
          && (s.locked && Answered(s.log) ==> s.dev.candidate == s.dev.committed + Owed(s.log)))
  }

  lemma LogGrows(log: seq<Entry>, entry: Entry)
    ensures (log + [entry])[..|log + [entry]| - 1] == log && (log + [entry])[|log + [entry]| - 1] == entry
  {
  }

  /** A request that is no cleanup, lock or load changes what the log says of neither. */
  lemma Asked(s: Session, rpc: Rpc, script: Script)
    requires Truthful(s) && rpc in {Compare, CommitCheck, GetCommits, GetUptime, CloseSession}
    ensures var (after, answer) := Call(s, rpc, script);
            && Truthful(after) && after.dev == s.dev && (answer.Fine? ==> after.open && s.open)
            && after == s.(open := after.open, connected := after.connected, log := after.log, asked := s.asked + 1)
  {
    LogGrows(s.log, Sent(rpc, Call(s, rpc, script).1));
  }

  lemma TakeLockKeeps(s: Session, script: Script)
    requires Truthful(s)
    ensures var (after, outcome) := TakeLock(s, script);
            && Truthful(after) && (outcome.Done? ==> after.locked) && after.committing == s.committing
            && after.dev.committed == s.dev.committed && (s.doubtful ==> after.doubtful)
            && (!s.open ==> !after.open && after.log == s.log)
  {
    if !s.locked && s.open {
      LockAsked(s, script);
    }
  }

  lemma LockAsked(s: Session, script: Script)
    requires Truthful(s) && !s.locked && s.open
    ensures var (after, answer) := Call(s, Lock, script);
            && Owned(after.log) && after.dev.committed == s.dev.committed
            && (answer.Fine? ==> after.open && Truthful(after.(locked := true)))
            && (answer.RpcError? ==> Truthful(after))
            && after == s.(open := after.open, connected := after.connected, log := after.log, asked := s.asked + 1,
                dev := after.dev)
  {
    LogGrows(s.log, Sent(Lock, Call(s, Lock, script).1));
  }

  lemma LoadAsked(s: Session, lines: seq<string>, script: Script)
    requires Truthful(s) && s.locked
    ensures Truthful(Call(s.(dirty := true), LoadConfig(lines), script).0)
  {
    LogGrows(s.log, Sent(LoadConfig(lines), Call(s.(dirty := true), LoadConfig(lines), script).1));
    assert s.dev.committed + Owed(s.log) + lines == s.dev.committed + (Owed(s.log) + lines);
  }

  lemma LoadKeeps(s: Session, lines: seq<string>, script: Script)
    requires Truthful(s)
    ensures Truthful(NetconfProtocol.Load(s, lines, script).0)
  {
    TakeLockKeeps(s, script);
    var (held, outcome) := TakeLock(s, script);
    if outcome.Done? {
      LoadAsked(held, JunosDialect.Meaningful(lines), script);
    }
  }

  lemma ComparedKeeps(held: Session, script: Script)
    requires Truthful(held)
    ensures Truthful(Call(held, Compare, script).0)
    ensures Truthful(Call(Call(held, Compare, script).0, CommitCheck, script).0)
  {
    Asked(held, Compare, script);
    Asked(Call(held, Compare, script).0, CommitCheck, script);
  }

  lemma DiffKeeps(s: Session, script: Script)
    requires Truthful(s)
    ensures Truthful(NetconfProtocol.Diff(s, script).0)
  {
    TakeLockKeeps(s, script);
    var (held, outcome) := TakeLock(s, script);
    if outcome.Done? {
      ComparedKeeps(held, script);
    }
  }

  lemma CommitBeginKeeps(s: Session, script: Script)
    requires Truthful(s)
    ensures Truthful(NetconfProtocol.CommitBegin(s, script).0)
  {
    TakeLockKeeps(s, script);
    LogGrows(TakeLock(s, script).0.log, CommitSent);
  }

  lemma ConfirmBeginKeeps(s: Session, script: Script)
    requires Truthful(s)
    ensures Truthful(NetconfProtocol.ConfirmBegin(s, script).0)
  {
    TakeLockKeeps(s, script);
    var held := TakeLock(s, script).0;
    Asked(held, GetCommits, script);
    CommitBeginKeeps(NetconfProtocol.History(held, script).0, script);
  }

  lemma CommitEndKeeps(s: Session, answer: Answer)
    requires Truthful(s)
    ensures Truthful(NetconfProtocol.CommitEnd(s, answer).0)
  {
    var heard := Receive(s.dev, SendCommit, answer).1;
    LogGrows(s.log, CommitAnswered(heard));
    match heard
    case Fine(_) =>
    case RpcError =>
    case TimedOut(_) =>
    case Gone(_) =>
  }

  /** The cleanup sends a rollback only for what it loaded and an unlock only for its own lock, and success means
      both took. */
  lemma UndoKeeps(s: Session, script: Script)
    requires Truthful(s) && !s.doubtful
    ensures var (after, outcome) := Undo(s, script);
            && Owned(after.log) && after.dev.committed == s.dev.committed
            && (outcome.Done? && s.locked ==>
                  s.open && !Held(after.log) && !after.dev.mine && after.dev.candidate == after.dev.committed)
            && (!s.locked ==> after == s)
            && after.doubtful == s.doubtful && after.committing == s.committing
  {
    if s.locked {
      var (rolled, answer) := if s.dirty then Call(s, Rollback, script) else (s, Fine(false));
      if s.dirty {
        RollbackKeeps(s, script);
      }
      if answer.Fine? {
        UnlockKeeps(rolled, script);
      }
    }
  }

  lemma RollbackKeeps(s: Session, script: Script)
    requires Truthful(s) && !s.doubtful && s.locked && s.dirty
    ensures var (after, answer) := Call(s, Rollback, script);
            && Owned(after.log) && after.dev.committed == s.dev.committed
            && after.doubtful == s.doubtful && after.committing == s.committing
            && (answer.Fine? ==>
                  && s.open && after.open && Held(after.log)
                  && after.dev.mine && after.dev.candidate == after.dev.committed)
  {
    LogGrows(s.log, Sent(Rollback, Call(s, Rollback, script).1));
  }

  lemma UnlockKeeps(s: Session, script: Script)
    requires Owned(s.log) && (s.open ==> Held(s.log) && s.dev.mine)
    ensures var (after, answer) := Call(s, Unlock, script);
            && Owned(after.log) && after.dev.committed == s.dev.committed && after.dev.candidate == s.dev.candidate
            && after.doubtful == s.doubtful && after.committing == s.committing
            && (answer.Fine? ==> s.open && !Held(after.log) && !after.dev.mine)
  {
    LogGrows(s.log, Sent(Unlock, Call(s, Unlock, script).1));
  }

  lemma ReleaseKeeps(s: Session, script: Script)
    requires Truthful(s)
    ensures Truthful(NetconfProtocol.Release(s, script).0)
  {
    if !s.committing && !s.doubtful {
      UndoKeeps(s, script);
    }
  }

  lemma CloseKeeps(s: Session, script: Script)
    requires Truthful(s)
    ensures Truthful(NetconfProtocol.Close(s, script).0)
  {
    ReleaseKeeps(s, script);
    Asked(NetconfProtocol.Release(s, script).0, CloseSession, script);
  }

  lemma StepKeeps(s: Session, event: Event, script: Script)
    requires Truthful(s)
    ensures Truthful(Step(s, event, script))
  {
    match event
    case Load(lines) => LoadKeeps(s, lines, script);
    case Diff => DiffKeeps(s, script);
    case History => Asked(s, GetCommits, script);
    case CommitBegin => CommitBeginKeeps(s, script);
    case ConfirmBegin => ConfirmBeginKeeps(s, script);
    case CommitEnd(answer) => CommitEndKeeps(s, answer);
    case Release => ReleaseKeeps(s, script);
    case Close => CloseKeeps(s, script);
    case Discard =>
    case Reuse(probe) => Asked(s, GetUptime, script);
    case Others(committed, candidate) =>
  }

  lemma {:induction false} RunKeeps(s: Session, events: seq<Event>, script: Script)
    requires Truthful(s)
    ensures Truthful(RunAll(s, events, script))
    decreases events
  {
    if events != [] {
      StepKeeps(s, events[0], script);
      RunKeeps(Step(s, events[0], script), events[1..], script);
    }
  }

  // ----- the main results

  /** Cleanup is owned: over every run, closes and discards during a commit included, each unlock delivered was for
      a lock this session held and each rollback for an uncommitted load under it. */
  lemma CleanupIsOwned(committed: seq<string>, candidate: seq<string>, events: seq<Event>, script: Script, n: nat)
    requires var log := RunAll(Opened(committed, candidate), events, script).log; n < |log| && Cleanup(log[n])
    ensures var log := RunAll(Opened(committed, candidate), events, script).log;
            Held(log[..n]) && (log[n].rpc == Rollback ==> Loaded(log[..n]))
  {
    RunKeeps(Opened(committed, candidate), events, script);
    OwnedAt(RunAll(Opened(committed, candidate), events, script).log, n);
  }

  lemma {:induction false} OwnedAt(log: seq<Entry>, n: nat)
    requires Owned(log) && n < |log|
    ensures var before := log[..n];
            && (log[n].Sent? && log[n].rpc == Unlock ==> Held(before))
            && (log[n].Sent? && log[n].rpc == Rollback ==> Held(before) && Loaded(before))
  {
    if n < |log| - 1 {
      OwnedAt(log[..|log| - 1], n);
      assert log[..|log| - 1][..n] == log[..n];
    }
  }

  /** A release that succeeds, after any run, leaves the session unlocked and clean, and the device without this
      session's lock or candidate; a release never commits. */
  lemma ReleasedIsClean(committed: seq<string>, candidate: seq<string>, events: seq<Event>, script: Script)
    ensures var s := RunAll(Opened(committed, candidate), events, script);
            var (after, outcome) := NetconfProtocol.Release(s, script);
            && after.dev.committed == s.dev.committed
            && !after.locked && !after.dirty
            && (outcome.Done? ==> !after.committing && !after.doubtful && (s.open ==> !after.dev.mine))
            && (outcome.Done? && s.locked ==> !after.dev.mine && after.dev.candidate == after.dev.committed)
            && (outcome.Done? && !s.locked ==> after.dev == s.dev && after.log == s.log)
            && (outcome.Failed? ==> after.doubtful && !after.open)
  {
    var s := RunAll(Opened(committed, candidate), events, script);
    RunKeeps(Opened(committed, candidate), events, script);
    if !s.committing && !s.doubtful {
      UndoKeeps(s, script);
    }
  }

  /** The entries a run adds to the log. */
  ghost predicate AddsNoCleanup(before: seq<Entry>, after: seq<Entry>) {
    before <= after && forall n :: |before| <= n < |after| ==> !Cleanup(after[n])
  }

  ghost predicate AddsNoRequest(before: seq<Entry>, after: seq<Entry>) {
    before <= after && forall n :: |before| <= n < |after| ==> after[n].CommitAnswered?
  }

  /** What a call on a doubtful session may do. */
  ghost predicate StaysDoubtful(s: Session, after: Session) {
    && after.doubtful && AddsNoCleanup(s.log, after.log)
    && (!s.open ==> !after.open && AddsNoRequest(s.log, after.log))
  }

  lemma DoubtfulCall(s: Session, rpc: Rpc, script: Script)
    requires s.doubtful && rpc != Unlock && rpc != Rollback
    ensures StaysDoubtful(s, Call(s, rpc, script).0)
  {
  }

  lemma DoubtfulLock(s: Session, script: Script)
    requires s.doubtful
    ensures StaysDoubtful(s, TakeLock(s, script).0)
  {
    DoubtfulCall(s, Lock, script);
  }

  lemma DoubtfulCommit(s: Session, script: Script)
    requires s.doubtful
    ensures StaysDoubtful(s, NetconfProtocol.CommitBegin(s, script).0)
  {
    DoubtfulLock(s, script);
  }

  lemma DoubtfulLoad(s: Session, lines: seq<string>, script: Script)
    requires s.doubtful
    ensures StaysDoubtful(s, NetconfProtocol.Load(s, lines, script).0)
  {
    DoubtfulLock(s, script);
    DoubtfulCall(TakeLock(s, script).0.(dirty := true), LoadConfig(JunosDialect.Meaningful(lines)), script);
  }

  lemma DoubtfulDiff(s: Session, script: Script)
    requires s.doubtful
    ensures StaysDoubtful(s, NetconfProtocol.Diff(s, script).0)
  {
    var held := TakeLock(s, script).0;
    DoubtfulLock(s, script);
    DoubtfulCall(held, Compare, script);
    DoubtfulCall(Call(held, Compare, script).0, CommitCheck, script);
  }

  lemma DoubtfulConfirm(s: Session, script: Script)
    requires s.doubtful
    ensures StaysDoubtful(s, NetconfProtocol.ConfirmBegin(s, script).0)
  {
    var held := TakeLock(s, script).0;
    DoubtfulLock(s, script);
    DoubtfulCall(held, GetCommits, script);
    DoubtfulCommit(NetconfProtocol.History(held, script).0, script);
  }

  lemma DoubtfulStep(s: Session, event: Event, script: Script)
    requires s.doubtful
    ensures StaysDoubtful(s, Step(s, event, script))
  {
    match event
    case Load(lines) => DoubtfulLoad(s, lines, script);
    case Diff => DoubtfulDiff(s, script);
    case History => DoubtfulCall(s, GetCommits, script);
    case CommitBegin => DoubtfulCommit(s, script);
    case ConfirmBegin => DoubtfulConfirm(s, script);
    case Reuse(_) => DoubtfulCall(s, GetUptime, script);
    case _ =>
  }

  /** Once doubtful, a session never again delivers a rollback or an unlock; once discarded it delivers nothing at
      all. A commit whose outcome is unknown is such a session. */
  lemma {:induction false} DoubtfulIsFinal(s: Session, events: seq<Event>, script: Script)
    requires s.doubtful
    ensures var end := RunAll(s, events, script);
            StaysDoubtful(s, end)
    decreases events
  {
    if events != [] {
      var next := Step(s, events[0], script);
      DoubtfulStep(s, events[0], script);
      DoubtfulIsFinal(next, events[1..], script);
    }
  }

  lemma UnknownCommitIsFinal(s: Session, answer: Answer, later: seq<Event>, script: Script)
    requires s.committing && NetconfProtocol.CommitEnd(s, answer).1 == Failed(OUTCOME_UNKNOWN)
    ensures var sent := NetconfProtocol.CommitEnd(s, answer).0;
            AddsNoRequest(sent.log, RunAll(sent, later, script).log)
  {
    DoubtfulIsFinal(NetconfProtocol.CommitEnd(s, answer).0, later, script);
  }

  /** A close or discard that lands while the commit is in flight sends no cleanup, and whatever the commit then
      answers, none follows. */
  lemma CloseDuringCommit(s: Session, answer: Answer, later: seq<Event>, script: Script)
    requires s.committing
    ensures var cut := Step(s, Close, script);
            var told := Step(cut, CommitEnd(answer), script);
            && cut.log == s.log && cut.doubtful && !cut.open
            && AddsNoRequest(s.log, RunAll(told, later, script).log)
  {
    var cut := Step(s, Close, script);
    DoubtfulIsFinal(cut, [CommitEnd(answer)] + later, script);
    assert ([CommitEnd(answer)] + later)[1..] == later;
  }

  /** A commit acknowledged on a session nobody cut short, after any run, changes the device by exactly the lines
      whose loads were acknowledged since the lock or the last commit, provided none went unanswered. */
  lemma CommitIsExact(committed: seq<string>, candidate: seq<string>, events: seq<Event>, answer: Answer,
      script: Script)
    requires var s := RunAll(Opened(committed, candidate), events, script);
             s.committing && s.open && !s.doubtful && s.locked && Answered(s.log)
    ensures var s := RunAll(Opened(committed, candidate), events, script);
            var (after, outcome) := NetconfProtocol.CommitEnd(s, answer);
            && (outcome.Done? ==> after.dev.committed == s.dev.committed + Owed(s.log))
            && (outcome == Failed(COMMIT_FAILED) ==> after.dev == s.dev && after.dirty == s.dirty)
  {
    RunKeeps(Opened(committed, candidate), events, script);
  }
}
