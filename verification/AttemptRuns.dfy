/** What holds over all the attempts at one target. */
module AttemptRuns {
  import opened Wrappers
  import opened Faults
  import opened AttemptProtocol

  /** No operation of the mode is named as the open is. */
  predicate NamesApart(mode: Mode) {
    match mode
    case Edit(hasCandidate, lines, _) => hasCandidate || OPEN !in lines
    case Show(command, _) => command != OPEN
    case _ => true
  }

  ghost predicate OnlyOpens(calls: seq<Call>) {
    forall i :: 0 <= i < |calls| ==> calls[i] == Open
  }

  // ----- the policy

  /** What a retry means: retries are left, and either the open was dropped or unanswered, or the operation was a
      read cut short. A cooldown is only for what reached the device, or might have. */
  lemma DecideMeans(kind: Kind, reached: bool, read: bool, editing: bool, operation: string, attempt: nat, retries: nat)
    ensures var v := Decide(kind, reached, read, editing, operation, attempt, retries);
            && (v.action == RETRY <==>
                  && attempt <= retries
                  && if operation == OPEN && kind in {TIMEOUT, SESSION_LOST} then kind == SESSION_LOST || !reached
                     else read && kind in {TIMEOUT, SESSION_LOST})
            && (v.coolDown <==>
                  && v.action == FAIL && kind in {REFUSED, COMMIT_FAILED, OUTCOME_UNKNOWN, TIMEOUT, SESSION_LOST}
                  && !(operation == OPEN && kind in {TIMEOUT, SESSION_LOST})
                  && (kind == OUTCOME_UNKNOWN || (editing && reached)))
            && v.action != SKIP
  {
  }

  // ----- one attempt

  lemma {:induction false} LoadNames(t: Trace, lines: seq<string>, n: nat, env: Env)
    requires n <= |lines|
    ensures forall op :: op in LoadFrom(t, lines, n, env).1 ==> op.name in lines
    decreases |lines| - n
  {
    if n < |lines| {
      LoadNames(Ask(t, Load([lines[n]]), env).0, lines, n + 1, env);
    }
  }

  lemma OpsNamed(t: Trace, mode: Mode, env: Env)
    requires NamesApart(mode)
    ensures forall op :: op in ModeOps(t, mode, env).1 ==> op.name != OPEN
  {
    if mode.Edit? {
      LoadNames(t, mode.lines, 0, env);
      var (_, loads) := LoadOps(t, mode.hasCandidate, mode.lines, env);
      assert forall op :: op in loads ==> op.name != OPEN;
    }
  }

  lemma FaultNamed(t: Trace, mode: Mode, env: Env)
    requires NamesApart(mode)
    ensures var fault := FirstFault(ModeOps(t, mode, env).1);
            fault.Some? ==> fault.value.name != OPEN && fault.value.outcome.Bad?
  {
    OpsNamed(t, mode, env);
    FirstFaultIsBad(ModeOps(t, mode, env).1);
  }

  lemma OnlyReadsAgain(op: Op, mode: Mode, attempt: nat, retries: nat)
    requires op.outcome.Bad? && op.name != OPEN && !Reads(mode)
    ensures Judge(op, mode, attempt, retries).action != RETRY
  {
  }

  /** Once past open, only a read is tried again. */
  lemma WorkIsFinal(t: Trace, mode: Mode, retries: nat, env: Env)
    requires NamesApart(mode) && !Reads(mode)
    ensures !Again(Work(t, mode, retries, env).1)
  {
    var at := t.(worked := t.worked + 1);
    FaultNamed(at, mode, env);
    var fault := FirstFault(ModeOps(at, mode, env).1);
    if fault.Some? {
      OnlyReadsAgain(fault.value, mode, t.attempts, retries);
    }
  }

  lemma WorkCounts(t: Trace, mode: Mode, retries: nat, env: Env)
    ensures var (after, tried) := Work(t, mode, retries, env);
            && after == t.(worked := t.worked + 1, calls := after.calls, backs := after.backs, settles := after.settles)
            && t.calls <= after.calls
            && (NamesApart(mode) && !Reads(mode) ==> !Again(tried))
  {
    KeepsAttempts(t.(worked := t.worked + 1), mode, env);
    if NamesApart(mode) && !Reads(mode) {
      WorkIsFinal(t, mode, retries, env);
    }
  }

  lemma DialCounts(t: Trace, mode: Mode, retries: nat, env: Env)
    ensures var after := Dial(t, mode, retries, env).0;
            && after.attempts == t.attempts + 1 && t.logins <= after.logins <= t.logins + 1 && after.worked == t.worked
            && (after.calls == t.calls || after.calls == t.calls + [Open])
  {
  }

  lemma AttemptCounts(t: Trace, mode: Mode, retries: nat, env: Env)
    ensures var (after, tried) := Attempt(t, mode, retries, env);
            && after.attempts == t.attempts + 1 && t.logins <= after.logins <= t.logins + 1
            && t.worked <= after.worked <= t.worked + 1 && t.calls <= after.calls
            && (after.worked == t.worked ==> after.calls == t.calls || after.calls == t.calls + [Open])
            && (after.worked > t.worked && NamesApart(mode) && !Reads(mode) ==> !Again(tried))
  {
    DialCounts(t, mode, retries, env);
    WorkCounts(Dial(t, mode, retries, env).0, mode, retries, env);
  }

  // ----- all attempts

  /** The loop ends within retries + 1 attempts, and asks the gate for at most one login each. */
  lemma {:induction false} AttemptsBounded(t: Trace, mode: Mode, retries: nat, env: Env)
    requires t.attempts <= retries && t.logins <= t.attempts
    ensures var (end, tried) := RunTarget(t, mode, retries, env);
            end.attempts <= retries + 1 && end.logins <= end.attempts && !Again(tried)
    decreases retries - t.attempts
  {
    AttemptCounts(t, mode, retries, env);
    RetryIsBounded(t, mode, retries, env);
    var (after, tried) := Attempt(t, mode, retries, env);
    if Again(tried) {
      AttemptsBounded(after, mode, retries, env);
    }
  }

  /** Before the last attempt there was nothing but opens. */
  lemma {:induction false} OpensBeforeLast(t: Trace, mode: Mode, retries: nat, env: Env) returns (last: Trace)
    requires t.attempts <= retries && NamesApart(mode) && !Reads(mode)
    requires t.worked == 0 && OnlyOpens(t.calls) && |t.calls| <= t.attempts
    ensures RunTarget(t, mode, retries, env) == Attempt(last, mode, retries, env)
    ensures last.worked == 0 && OnlyOpens(last.calls) && |last.calls| <= last.attempts <= retries
    decreases retries - t.attempts
  {
    AttemptCounts(t, mode, retries, env);
    RetryIsBounded(t, mode, retries, env);
    var (after, tried) := Attempt(t, mode, retries, env);
    if Again(tried) {
      last := OpensBeforeLast(after, mode, retries, env);
    } else {
      last := t;
    }
  }

  /** At most one attempt gets past open, however the device and the gate behave. */
  lemma OneAttemptWorks(mode: Mode, retries: nat, env: Env)
    requires NamesApart(mode) && !Reads(mode)
    ensures RunTarget(START, mode, retries, env).0.worked <= 1
  {
    var last := OpensBeforeLast(START, mode, retries, env);
    AttemptCounts(last, mode, retries, env);
  }

  // ----- the commit

  /** The loads that come right before call i: the whole payload, every answer good. */
  ghost predicate LoadedBefore(calls: seq<Call>, i: nat, mode: Mode, env: Env)
    requires i <= |calls| && mode.Edit?
  {
    if mode.hasCandidate then i >= 1 && calls[i - 1] == Load(mode.lines) && env.answers(i - 1).Good?
    else
      && i >= |mode.lines|
      && forall n :: 0 <= n < |mode.lines| ==>
           calls[i - |mode.lines| + n] == Load([mode.lines[n]]) && env.answers(i - |mode.lines| + n).Good?
  }

  /** A commit at i is the last call, asked for, and right after a diff that did not say unchanged, itself right
      after the whole load. */
  ghost predicate Earned(calls: seq<Call>, i: nat, mode: Mode, env: Env)
    requires i < |calls| && mode.Edit?
  {
    && i == |calls| - 1 && mode.apply && i >= 1
    && calls[i - 1] == Diff && env.answers(i - 1).Good? && env.answers(i - 1).data != Changed(false)
    && LoadedBefore(calls, i - 1, mode, env)
  }

  lemma {:induction false} LoadFromShape(t: Trace, lines: seq<string>, n: nat, env: Env)
    requires n <= |lines|
    ensures var (after, ops) := LoadFrom(t, lines, n, env);
            && t.calls <= after.calls && |after.calls| == |t.calls| + |ops| <= |t.calls| + |lines| - n
            && (forall k :: |t.calls| <= k < |after.calls| ==> after.calls[k] == Load([lines[n + k - |t.calls|]]))
            && (!Failed(ops) ==>
                  && |ops| == |lines| - n
                  && forall k :: |t.calls| <= k < |after.calls| ==> env.answers(k).Good?)
    decreases |lines| - n
  {
    if n < |lines| {
      var (asked, outcome) := Ask(t, Load([lines[n]]), env);
      LoadFromShape(asked, lines, n + 1, env);
      var (after, ops) := LoadFrom(t, lines, n, env);
      if outcome.Good? {
        var (end, rest) := LoadFrom(asked, lines, n + 1, env);
        assert Failed(rest) ==> Failed(ops);
      }
    }
  }

  lemma LoadedBeforeLonger(calls: seq<Call>, longer: seq<Call>, i: nat, mode: Mode, env: Env)
    requires mode.Edit? && i <= |calls| && calls <= longer && LoadedBefore(calls, i, mode, env)
    ensures LoadedBefore(longer, i, mode, env)
  {
  }

  lemma LoadShape(t: Trace, mode: Mode, env: Env)
    requires mode.Edit?
    ensures var (after, ops) := LoadOps(t, mode.hasCandidate, mode.lines, env);
            && t.calls <= after.calls
            && (forall i :: |t.calls| <= i < |after.calls| ==> after.calls[i].Load?)
            && (!Failed(ops) ==> LoadedBefore(after.calls, |after.calls|, mode, env))
  {
    if !mode.hasCandidate {
      LoadFromShape(t, mode.lines, 0, env);
    }
  }

  lemma EditShape(t: Trace, mode: Mode, env: Env)
    requires mode.Edit?
    ensures var after := EditOps(t, mode, env).0;
            && t.calls <= after.calls
            && forall i :: |t.calls| <= i < |after.calls| ==>
                 after.calls[i] != Open && (after.calls[i] == Commit ==> Earned(after.calls, i, mode, env))
  {
    LoadShape(t, mode, env);
    var (loaded, ops) := LoadOps(t, mode.hasCandidate, mode.lines, env);
    if !Failed(ops) {
      LoadedBeforeLonger(loaded.calls, loaded.calls + [Diff, Commit], |loaded.calls|, mode, env);
      assert loaded.calls + [Diff] + [Commit] == loaded.calls + [Diff, Commit];
    }
  }

  ghost predicate AllGood(ops: seq<Op>) {
    forall i :: 0 <= i < |ops| ==> ops[i].outcome.Good?
  }

  lemma {:induction false} LoadsGood(t: Trace, lines: seq<string>, n: nat, env: Env)
    requires n <= |lines|
    ensures var ops := LoadFrom(t, lines, n, env).1; !Failed(ops) ==> AllGood(ops)
    decreases |lines| - n
  {
    if n < |lines| {
      var (asked, outcome) := Ask(t, Load([lines[n]]), env);
      LoadsGood(asked, lines, n + 1, env);
      if outcome.Good? {
        var rest := LoadFrom(asked, lines, n + 1, env).1;
        assert Failed(rest) ==> Failed([Op(lines[n], outcome)] + rest);
      }
    }
  }

  lemma {:induction false} FirstFaultLast(ops: seq<Op>, last: Op)
    requires AllGood(ops)
    ensures FirstFault(ops + [last]) == if last.outcome.Bad? then Some(last) else None
  {
    if ops == [] {
      assert (ops + [last])[1..] == [];
      assert FirstFault([]) == None;
    } else {
      FirstFaultLast(ops[1..], last);
      assert (ops + [last])[1..] == ops[1..] + [last];
    }
  }

  predicate Commits(calls: seq<Call>, from: nat) {
    exists i :: from <= i < |calls| && calls[i] == Commit
  }

  /** Only a whole lifecycle sends the commit, and then everything before it went well. */
  lemma CommitOps(t: Trace, mode: Mode, env: Env)
    requires mode.Edit? && Commits(EditOps(t, mode, env).0.calls, |t.calls|)
    ensures var ops := EditOps(t, mode, env).1;
            ops != [] && AllGood(ops[..|ops| - 1]) && ops[|ops| - 1].name == "commit"
  {
    LoadShape(t, mode, env);
    if !mode.hasCandidate {
      LoadsGood(t, mode.lines, 0, env);
    }
    var (loaded, ops) := LoadOps(t, mode.hasCandidate, mode.lines, env);
    var (compared, told) := Ask(loaded, Diff, env);
    var answer := Ask(compared, Commit, env).1;
    assert AllGood(ops) && told.Good?;
    var all := ops + [Op("diff", told)] + [Op("commit", answer)];
    assert all[..|all| - 1] == ops + [Op("diff", told)];
  }

  lemma CommitFault(t: Trace, mode: Mode, env: Env)
    requires mode.Edit? && Commits(EditOps(t, mode, env).0.calls, |t.calls|)
    ensures var fault := FirstFault(EditOps(t, mode, env).1);
            fault.Some? ==> fault.value.name == "commit" && fault.value.outcome.Bad?
  {
    CommitOps(t, mode, env);
    var ops := EditOps(t, mode, env).1;
    FirstFaultLast(ops[..|ops| - 1], ops[|ops| - 1]);
    assert ops[..|ops| - 1] + [ops[|ops| - 1]] == ops;
  }

  lemma CommitIsNotRetried(op: Op, mode: Mode, attempt: nat, retries: nat)
    requires mode.Edit? && op.name == "commit" && op.outcome.Bad?
    ensures Judge(op, mode, attempt, retries).action != RETRY
  {
  }

  /** Once the commit was sent there is no other attempt, whatever the payload's lines are called. */
  lemma CommitEndsAttempts(t: Trace, mode: Mode, retries: nat, env: Env)
    requires mode.Edit? && Commits(Work(t, mode, retries, env).0.calls, |t.calls|)
    ensures !Again(Work(t, mode, retries, env).1)
  {
    var at := t.(worked := t.worked + 1);
    CommitFault(at, mode, env);
    var fault := FirstFault(EditOps(at, mode, env).1);
    if fault.Some? {
      CommitIsNotRetried(fault.value, mode, t.attempts, retries);
    }
  }

  ghost predicate AllEarned(calls: seq<Call>, mode: Mode, env: Env)
    requires mode.Edit?
  {
    forall i :: 0 <= i < |calls| && calls[i] == Commit ==> Earned(calls, i, mode, env)
  }

  lemma WorkShape(t: Trace, mode: Mode, retries: nat, env: Env)
    requires mode.Edit? && Commit !in t.calls
    ensures var (after, tried) := Work(t, mode, retries, env);
            && AllEarned(after.calls, mode, env)
            && (Commit in after.calls ==> !Again(tried))
  {
    EditShape(t.(worked := t.worked + 1), mode, env);
    var after := Work(t, mode, retries, env).0;
    if Commit in after.calls {
      var i :| 0 <= i < |after.calls| && after.calls[i] == Commit;
      assert i >= |t.calls|;
      CommitEndsAttempts(t, mode, retries, env);
    }
  }

  lemma AttemptShape(t: Trace, mode: Mode, retries: nat, env: Env)
    requires mode.Edit? && Commit !in t.calls
    ensures var (after, tried) := Attempt(t, mode, retries, env);
            && AllEarned(after.calls, mode, env)
            && (Commit in after.calls ==> !Again(tried))
  {
    WorkShape(Dial(t, mode, retries, env).0, mode, retries, env);
  }

  lemma {:induction false} RunShape(t: Trace, mode: Mode, retries: nat, env: Env)
    requires mode.Edit? && Commit !in t.calls && t.attempts <= retries
    ensures AllEarned(RunTarget(t, mode, retries, env).0.calls, mode, env)
    decreases retries - t.attempts
  {
    AttemptShape(t, mode, retries, env);
    RetryIsBounded(t, mode, retries, env);
    var (after, tried) := Attempt(t, mode, retries, env);
    if Again(tried) {
      RunShape(after, mode, retries, env);
    } else {
      assert RunTarget(t, mode, retries, env) == (after, tried);
    }
  }

  /** One commit per edit: over all attempts at an edit target, whatever its lines are called and whatever the gate
      and the device answer, at most one commit is sent, as the very last call, only with apply set, after the whole
      payload loaded and a diff that did not report it unchanged. */
  lemma OneCommitPerEdit(mode: Mode, retries: nat, env: Env, i: nat)
    requires mode.Edit?
    requires var calls := RunTarget(START, mode, retries, env).0.calls; i < |calls| && calls[i] == Commit
    ensures var end := RunTarget(START, mode, retries, env).0;
            Earned(end.calls, i, mode, env) && end.attempts <= retries + 1
  {
    RunShape(START, mode, retries, env);
    AttemptsBounded(START, mode, retries, env);
  }

  // ----- where a name clashes with the open's

  /** No session kept: the attempt logs in. */
  const FRESH_LOGIN := Let(false, false, false, Allowed)

  /** Every answer good but the k-th, a lost session on the reached device; no session kept. */
  function LostAt(k: nat): Env {
    Env(n => if n == k then Bad(SESSION_LOST, true) else Good(NoData), _ => FRESH_LOGIN)
  }

  lemma {:induction false} LoadUntil(t: Trace, lines: seq<string>, n: nat, first: nat)
    requires n <= first < |lines| && lines[first] == OPEN
    ensures var env := LostAt(|t.calls| + first - n);
            var (after, ops) := LoadFrom(t, lines, n, env);
            && FirstFault(ops) == Some(Op(OPEN, Bad(SESSION_LOST, true)))
            && |after.calls| > |t.calls| + first - n && after == t.(calls := after.calls)
            && Failed(ops)
    decreases first - n
  {
    if n < first {
      var env := LostAt(|t.calls| + first - n);
      var asked := Ask(t, Load([lines[n]]), env).0;
      LoadUntil(asked, lines, n + 1, first);
      var (end, rest) := LoadFrom(asked, lines, n + 1, env);
      var (after, ops) := LoadFrom(t, lines, n, env);
      assert ops[1..] == rest;
    }
  }

  /** The state after the first attempt's open. */
  const CONNECTED := Trace([Open], 1, 1, 1, 0, [], [])

  lemma FirstConnects(mode: Mode, retries: nat, k: nat)
    requires k >= 1
    ensures Dial(START, mode, retries, LostAt(k)) == (CONNECTED, None)
  {
    assert [] + [Open] == [Open];
  }

  /** An operation named as the open is, lost on the way, makes the policy try again. */
  lemma FirstAgain(mode: Mode, retries: nat, k: nat)
    requires k >= 1 && retries >= 1
    requires FirstFault(ModeOps(CONNECTED.(worked := 1), mode, LostAt(k)).1) == Some(Op(OPEN, Bad(SESSION_LOST, true)))
    requires |ModeOps(CONNECTED.(worked := 1), mode, LostAt(k)).0.calls| > k
    ensures RunTarget(START, mode, retries, LostAt(k)).0.worked >= 2
  {
    var env := LostAt(k);
    FirstConnects(mode, retries, k);
    KeepsAttempts(CONNECTED.(worked := 1), mode, env);
    var (after, tried) := Work(CONNECTED, mode, retries, env);
    assert Attempt(START, mode, retries, env) == (after, tried);
    assert Again(tried) && after.worked == 1 && after.attempts == 1;
    SecondWorks(after, mode, retries, env);
  }

  /** The policy knows the open by its name alone, so without a candidate a payload line spelled "open" whose
      session is lost is taken for a failed open: the payload is loaded a second time. */
  lemma ClashReplays(lines: seq<string>, apply: bool, retries: nat, first: nat)
    requires first < |lines| && lines[first] == OPEN && retries >= 1
    ensures RunTarget(START, Edit(false, lines, apply), retries, LostAt(first + 1)).0.worked >= 2
  {
    var mode := Edit(false, lines, apply);
    LoadUntil(CONNECTED.(worked := 1), lines, 0, first);
    FirstAgain(mode, retries, first + 1);
  }

  /** So is a command spelled "open" that is no read. */
  lemma ShowReplays(retries: nat)
    requires retries >= 1
    ensures RunTarget(START, Show(OPEN, false), retries, LostAt(1)).0.worked >= 2
  {
    ShowLost();
    FirstAgain(Show(OPEN, false), retries, 1);
  }

  lemma ShowLost()
    ensures var (after, ops) := ModeOps(CONNECTED.(worked := 1), Show(OPEN, false), LostAt(1));
            |after.calls| > 1 && FirstFault(ops) == Some(Op(OPEN, Bad(SESSION_LOST, true)))
  {
  }

  /** After the lost call every open succeeds, so the next attempt works. */
  lemma SecondWorks(t: Trace, mode: Mode, retries: nat, env: Env)
    requires t.attempts <= retries && env.gate(t.attempts) == FRESH_LOGIN && env.answers(|t.calls|).Good?
    ensures RunTarget(t, mode, retries, env).0.worked > t.worked
  {
    AttemptCounts(t, mode, retries, env);
    RetryIsBounded(t, mode, retries, env);
    var (after, tried) := Attempt(t, mode, retries, env);
    WorkCounts(Dial(t, mode, retries, env).0, mode, retries, env);
    if Again(tried) {
      WorkedGrows(after, mode, retries, env);
    }
  }

  lemma {:induction false} WorkedGrows(t: Trace, mode: Mode, retries: nat, env: Env)
    requires t.attempts <= retries
    ensures RunTarget(t, mode, retries, env).0.worked >= t.worked
    decreases retries - t.attempts
  {
    AttemptCounts(t, mode, retries, env);
    RetryIsBounded(t, mode, retries, env);
    var (after, tried) := Attempt(t, mode, retries, env);
    if Again(tried) {
      WorkedGrows(after, mode, retries, env);
    }
  }

  /** Exactly when a run that is not a read works at most once whatever is answered: none of its operations is named
      as the open is, or there are no retries. */
  lemma WorksOnceIff(mode: Mode, retries: nat)
    requires !Reads(mode)
    ensures (forall env: Env :: RunTarget(START, mode, retries, env).0.worked <= 1)
       <==> NamesApart(mode) || retries == 0
  {
    if NamesApart(mode) {
      forall env: Env ensures RunTarget(START, mode, retries, env).0.worked <= 1 {
        OneAttemptWorks(mode, retries, env);
      }
    } else if retries == 0 {
      forall env: Env ensures RunTarget(START, mode, retries, env).0.worked <= 1 {
        AttemptCounts(START, mode, retries, env);
        RetryIsBounded(START, mode, retries, env);
      }
    } else if mode.Edit? {
      var first :| 0 <= first < |mode.lines| && mode.lines[first] == OPEN;
      ClashReplays(mode.lines, mode.apply, retries, first);
    } else {
      ShowReplays(retries);
    }
  }

  // ----- what is given back

  /** A cooldown is only ever in the verdict told. */
  ghost predicate Settled(t: Trace, after: Trace, tried: Tried) {
    && after.settles == t.settles + [tried.verdict.Some? && tried.verdict.value.coolDown]
    && (Again(tried) ==> !after.settles[|t.settles|])
  }

  lemma DialSettles(t: Trace, mode: Mode, retries: nat, env: Env)
    ensures var (after, ended) := Dial(t, mode, retries, env);
            && after.worked == t.worked && after.backs == t.backs && t.admitted <= after.admitted <= t.admitted + 1
            && (after.admitted == t.admitted ==> ended.Some? && !Again(ended.value) && after.settles == t.settles)
            && (after.admitted > t.admitted ==>
                  if ended.Some? then Settled(t, after, ended.value) else after.settles == t.settles)
  {
  }

  lemma ConcludeSettles(t: Trace, ops: seq<Op>, mode: Mode, retries: nat)
    ensures var (after, tried) := Conclude(t, ops, mode, retries);
            && tried.ops == ops && after.worked == t.worked && after.admitted == t.admitted
            && after.backs == t.backs + [AnyDiscarding(ops)] && Settled(t, after, tried)
  {
    FirstFaultIsBad(ops);
  }

  lemma WorkSettles(t: Trace, mode: Mode, retries: nat, env: Env)
    ensures var (after, tried) := Work(t, mode, retries, env);
            && after.worked == t.worked + 1 && after.admitted == t.admitted
            && after.backs == t.backs + [AnyDiscarding(tried.ops)] && Settled(t, after, tried)
  {
    KeepsAttempts(t.(worked := t.worked + 1), mode, env);
    var (after, ops) := ModeOps(t.(worked := t.worked + 1), mode, env);
    ConcludeSettles(after, ops, mode, retries);
  }

  /** What one attempt gives up: its reservation, if it has one, cooled down as its verdict says; its session, if it
      got one, discarded exactly when an operation left it in doubt. */
  lemma AttemptSettles(t: Trace, mode: Mode, retries: nat, env: Env)
    ensures var (after, tried) := Attempt(t, mode, retries, env);
            && t.admitted <= after.admitted <= t.admitted + 1 && t.worked <= after.worked <= t.worked + 1
            && (if after.admitted > t.admitted then Settled(t, after, tried)
                else after.settles == t.settles && !Again(tried))
            && after.backs == t.backs + if after.worked > t.worked then [AnyDiscarding(tried.ops)] else []
  {
    DialSettles(t, mode, retries, env);
    var (dialled, ended) := Dial(t, mode, retries, env);
    if ended.None? {
      WorkSettles(dialled, mode, retries, env);
    }
  }

  /** Each reservation is given up exactly once and each borrowed session given back exactly once; only the last
      attempt can cool the device down. */
  lemma {:induction false} AllSettled(t: Trace, mode: Mode, retries: nat, env: Env)
    requires t.attempts <= retries
    requires |t.settles| == t.admitted && |t.backs| == t.worked && forall i :: 0 <= i < |t.settles| ==> !t.settles[i]
    ensures var end := RunTarget(t, mode, retries, env).0;
            && |end.settles| == end.admitted && |end.backs| == end.worked
            && forall i :: 0 <= i < |end.settles| - 1 ==> !end.settles[i]
    decreases retries - t.attempts
  {
    AttemptSettles(t, mode, retries, env);
    RetryIsBounded(t, mode, retries, env);
    var (after, tried) := Attempt(t, mode, retries, env);
    if Again(tried) {
      AllSettled(after, mode, retries, env);
    } else {
      assert RunTarget(t, mode, retries, env) == (after, tried);
    }
  }
}
