/** What every run of calls on one pooled CLI session keeps, from borrow to borrow. */
module CliRuns {
  import opened Wrappers
  import opened Faults
  import opened Text
  import opened JunosDialect
  import opened CliProtocol

  datatype Call =
    | Load(lines: seq<string>) | Diff | Commit(minutes: Option<int>, comment: Option<string>) | Confirm
    | History | Probe | Release | Close | Discard

  /** A call on the session, or other users' changes to the device. */
  datatype Event = Do(call: Call) | Others(committed: seq<string>, candidate: seq<string>)

  /** A session beside the lines its callers have been told were accepted and not yet committed or given up. */
  datatype State = State(session: Session, ledger: seq<string>)

  function Step(s: Session, call: Call, script: Script): (Session, Outcome) {
    match call
    case Load(lines) => CliProtocol.Load(s, lines, script)
    case Diff => CliProtocol.Diff(s, script)
    case Commit(minutes, comment) => CliProtocol.Commit(s, minutes, comment, script)
    case Confirm => CliProtocol.Confirm(s, script)
    case History => CliProtocol.History(s, script)
    case Probe => var (after, alive) := CliProtocol.Probe(s, script); (after, Done(alive))
    case Release => CliProtocol.Release(s, script)
    case Close => CliProtocol.Close(s, script)
    case Discard => (CliProtocol.Discard(s), Done(false))
  }

  /** The payload lines an answer to a load says the device took. */
  function Acknowledged(lines: seq<string>, outcome: Outcome): seq<string> {
    match outcome
    case Done(_) => Meaningful(lines)
    case Failed(_, line) => if 0 < line <= |lines| then Meaningful(lines[..line - 1]) else []
  }

  function Account(ledger: seq<string>, call: Call, outcome: Outcome): seq<string> {
    match call
    case Load(lines) => ledger + Acknowledged(lines, outcome)
    case Commit(_, _) => if outcome.Done? then [] else ledger
    case Confirm => if outcome.Done? then [] else ledger
    case Release => if outcome.Done? then [] else ledger
    case _ => ledger
  }

  /** Others change the device only while this session does not hold the exclusive lock. */
  function Interfere(s: Session, committed: seq<string>, candidate: seq<string>): Session {
    if s.dev.inConfig then s else s.(dev := s.dev.(committed := committed, candidate := candidate))
  }

  function Apply(st: State, event: Event, script: Script): State {
    match event
    case Do(call) =>
      var (after, outcome) := Step(st.session, call, script);
      State(after, Account(st.ledger, call, outcome))
    case Others(committed, candidate) => st.(session := Interfere(st.session, committed, candidate))
  }

  function RunAll(st: State, events: seq<Event>, script: Script): State
    decreases events
  {
    if events == [] then st else RunAll(Apply(st, events[0], script), events[1..], script)
  }

  function LoggedIn(committed: seq<string>, candidate: seq<string>): State {
    State(Session(JUNOS, true, false, false, false, false, Device(committed, candidate, false, []), []), [])
  }

  /** While the engine is in step with the device, its flags tell the truth about lock, mode and candidate. */
  ghost predicate InStep(st: State) {
    var s := st.session;
    && Understood(s.dialect)
    && (s.ready ==>
      && !s.closed && !s.commitSent && s.dev.inConfig == s.configured
      && (s.configured ==> s.dev.candidate == s.dev.committed + st.ledger)
      && (!s.configured ==> !s.dirty)
      && (!s.dirty ==> st.ledger == []))
  }

  // ----- one typed line

  /** The device reads the keys of a plain line as that line; only an acceptance, a silence or a loss can have run
      it. */
  lemma Heard(dev: Device, text: string, reply: Reply)
    requires Plain(text)
    ensures var (after, answer) := Receive(dev, EncodeLine(text), reply);
            var what := Interpret(text);
            && (answer.Accepted? ==> CanRun(dev, what) && after == Run(dev, what))
            && (answer.Refused? ==> after == dev)
            && (after == dev || (CanRun(dev, what) && after == Run(dev, what)))
  {
    EditorUndoesEncode(text);
  }

  /** The device reads a typed line as what was typed, and the outcome tells what it did unless the session is lost.
      */
  lemma Typed(s: Session, text: string, script: Script)
    requires text != "" && Plain(text) && Trimmed(text)
    ensures var (after, reply, outcome) := CliProtocol.Command(s, text, script);
            var what := Interpret(text);
            && (!s.ready ==> after == s && outcome == Failed(SESSION_LOST, 0))
            && (s.ready ==> after.typed == s.typed + [EncodeLine(text)])
            && (outcome.Done? <==> s.ready && reply.Accepted?)
            && (outcome.Done? ==> CanRun(s.dev, what) && after == s.(dev := Run(s.dev, what), typed := after.typed))
            && (outcome.Failed? && outcome.kind == REFUSED ==> s.ready && after == s.(typed := after.typed))
            && (outcome.Failed? && outcome.kind != REFUSED ==>
                  && outcome.kind in {TIMEOUT, SESSION_LOST}
                  && (after.dev == s.dev || (s.ready && CanRun(s.dev, what) && after.dev == Run(s.dev, what)))
                  && after == s.(ready := false, typed := after.typed, dev := after.dev))
  {
    StripTrimmed(text);
    Heard(s.dev, text, script(|s.typed|));
  }

  // ----- a load

  lemma {:induction false} MeaningfulLines(lines: seq<string>)
    ensures forall line :: line in Meaningful(lines) ==> line != "" && Trimmed(line)
  {
    if lines != [] {
      MeaningfulLines(lines[..|lines| - 1]);
      StripFacts(lines[|lines| - 1]);
    }
  }

  lemma MeaningfulPrefix(lines: seq<string>, n: nat)
    requires n < |lines|
    ensures var line := Strip(lines[n]);
            Meaningful(lines[..n + 1]) == Meaningful(lines[..n]) + (if line == "" || IsComment(line) then []
                else [line])
  {
    assert lines[..n + 1][..n] == lines[..n];
  }

  lemma TypedEdit(s: Session, line: string, script: Script)
    requires s.ready && s.dev.inConfig && Typable(line) && HasVerb(line)
    ensures var (after, _, outcome) := CliProtocol.Command(s, line, script);
            && (outcome.Done? ==> after.dev.candidate == s.dev.candidate + [line] && after.ready)
            && (outcome.Failed? && after.ready ==> after.dev.candidate == s.dev.candidate)
            && after == s.(ready := after.ready, typed := after.typed, dev := s.dev.(candidate := after.dev.candidate))
  {
    VerbMeansEdit(line);
    Typed(s, line, script);
  }

  /** Typing the rest of a payload adds exactly the acknowledged lines to the candidate. */
  lemma {:induction false} TypeLinesLoads(s: Session, lines: seq<string>, n: nat, base: seq<string>, script: Script)
    requires n <= |lines| && s.ready && s.dev.inConfig
    requires forall i :: 0 <= i < |lines| ==> Editable(lines[i])
    requires s.dev.candidate == base + Meaningful(lines[..n])
    requires !s.dirty ==> Meaningful(lines[..n]) == []
    ensures var (after, outcome) := TypeLines(s, lines, n, script);
            && after == s.(ready := after.ready, dirty := after.dirty, typed := after.typed,
                           dev := s.dev.(candidate := after.dev.candidate))
            && (after.ready ==> after.dev.candidate == base + Acknowledged(lines, outcome))
            && (after.ready && !after.dirty ==> !s.dirty && Acknowledged(lines, outcome) == [])
    decreases |lines| - n
  {
    if n == |lines| {
      assert lines[..n] == lines;
    } else {
      MeaningfulPrefix(lines, n);
      var line := Strip(lines[n]);
      StripFacts(lines[n]);
      if line == "" || IsComment(line) {
        TypeLinesLoads(s, lines, n + 1, base, script);
      } else {
        TypedEdit(s.(dirty := true), line, script);
        var (after, _, outcome) := CliProtocol.Command(s.(dirty := true), line, script);
        if outcome.Done? {
          assert after.dev.candidate == base + Meaningful(lines[..n + 1]);
          TypeLinesLoads(after, lines, n + 1, base, script);
        }
      }
    }
  }

  lemma EnterTakesLock(s: Session, ledger: seq<string>, script: Script)
    requires InStep(State(s, ledger))
    ensures var (after, outcome) := CliProtocol.Enter(s, script);
            && InStep(State(after, ledger))
            && after.dev.committed == s.dev.committed && after.dev.orders == s.dev.orders
            && (outcome.Done? ==> after.configured && (s.configured || s.ready) && after.ready == s.ready)
            && (outcome.Failed? ==>
                  outcome.line == 0 && outcome.kind != OUTCOME_UNKNOWN && after.configured == s.configured)
            && (s.configured ==> after == s)
            && after.commitSent == s.commitSent
  {
    Typed(s, s.dialect.enter, script);
  }

  lemma LoadInStep(s: Session, ledger: seq<string>, lines: seq<string>, script: Script)
    requires InStep(State(s, ledger))
    ensures var (after, outcome) := CliProtocol.Load(s, lines, script);
            && InStep(State(after, ledger + Acknowledged(lines, outcome)))
            && after.dev.committed == s.dev.committed && after.dev.orders == s.dev.orders
  {
    assert ledger + [] == ledger;
    if CheckEdit(lines).None? {
      var (entered, outcome) := CliProtocol.Enter(s, script);
      EnterTakesLock(s, ledger, script);
      if outcome.Done? {
        TypeLinesInStep(entered, ledger, lines, script);
      }
    }
  }

  lemma TypeLinesInStep(s: Session, ledger: seq<string>, lines: seq<string>, script: Script)
    requires InStep(State(s, ledger)) && s.configured && CheckEdit(lines).None?
    ensures var (after, outcome) := TypeLines(s, lines, 0, script);
            && InStep(State(after, ledger + Acknowledged(lines, outcome)))
            && after.dev.committed == s.dev.committed && after.dev.orders == s.dev.orders
  {
    var (after, outcome) := TypeLines(s, lines, 0, script);
    var acknowledged := Acknowledged(lines, outcome);
    if s.ready {
      CheckEditAccepts(lines);
      TypeLinesLoads(s, lines, 0, s.dev.candidate, script);
      LoadedInStep(s, ledger, acknowledged, after);
    } else {
      UnreadyTypesNothing(s, lines, 0, script);
    }
  }

  lemma LoadedInStep(s: Session, ledger: seq<string>, acknowledged: seq<string>, after: Session)
    requires InStep(State(s, ledger)) && s.configured && s.ready
    requires after == s.(ready := after.ready, dirty := after.dirty, typed := after.typed,
                         dev := s.dev.(candidate := after.dev.candidate))
    requires after.ready ==> after.dev.candidate == s.dev.candidate + acknowledged
    requires after.ready && !after.dirty ==> !s.dirty && acknowledged == []
    ensures InStep(State(after, ledger + acknowledged))
  {
    assert s.dev.committed + ledger + acknowledged == s.dev.committed + (ledger + acknowledged);
  }

  lemma {:induction false} UnreadyTypesNothing(s: Session, lines: seq<string>, n: nat, script: Script)
    requires n <= |lines| && !s.ready
    ensures var (after, _) := TypeLines(s, lines, n, script);
            !after.ready && after == s.(dirty := after.dirty)
    decreases |lines| - n
  {
    if n < |lines| {
      UnreadyTypesNothing(s, lines, n + 1, script);
    }
  }

  // ----- the other calls

  lemma HistoryInStep(s: Session, ledger: seq<string>, script: Script)
    requires InStep(State(s, ledger))
    ensures var (after, outcome) := CliProtocol.History(s, script);
            && InStep(State(after, ledger)) && after.dev == s.dev
            && after == s.(ready := after.ready, typed := after.typed)
            && (outcome.Done? ==> after.ready && s.ready)
            && (outcome.Failed? ==> outcome.kind != OUTCOME_UNKNOWN)
  {
    Typed(s, if s.configured then s.dialect.configHistory else s.dialect.history, script);
  }

  /** What a commit-like call, given `order`, may have done to a session that owes `ledger`. */
  ghost predicate Committed(s: Session, ledger: seq<string>, order: CommitOrder, after: Session, outcome: Outcome) {
    var kept := after.dev.committed == s.dev.committed && after.dev.orders == s.dev.orders;
    var moved := after.dev.committed == s.dev.committed + ledger && after.dev.orders == s.dev.orders + [order];
    && InStep(State(after, if outcome.Done? then [] else ledger))
    && (outcome.Done? ==> moved && after.ready && after.configured)
    && (outcome.Failed? && outcome.kind == OUTCOME_UNKNOWN ==> !after.ready && (kept || moved))
    && (outcome.Failed? && outcome.kind != OUTCOME_UNKNOWN ==> kept)
  }

  lemma SendCommitMoves(s: Session, ledger: seq<string>, line: string, order: CommitOrder, script: Script)
    requires InStep(State(s, ledger)) && s.ready && s.configured
    requires Typable(line) && "commit" <= line && ReadCommit(line) == Some(order)
    ensures var (after, outcome) := SendCommit(s, line, script);
            Committed(s, ledger, order, after, outcome)
  {
    CommitMeansCommit(line);
    Typed(s.(commitSent := true), line, script);
  }

  /** A commit whose answer arrived moved exactly the ledger into the committed configuration, as the one order it
      was given. */
  lemma CommitInStep(s: Session, ledger: seq<string>, minutes: Option<int>, comment: Option<string>, script: Script)
    requires InStep(State(s, ledger))
    ensures var (after, outcome) := CliProtocol.Commit(s, minutes, comment, script);
            Committed(s, ledger, CommitOrder(minutes, comment), after, outcome)
  {
    if BuildCommit(minutes, comment).Ok? {
      EnterTakesLock(s, ledger, script);
      var (entered, outcome) := CliProtocol.Enter(s, script);
      if outcome.Done? && entered.ready {
        var line := CommitLine(minutes, comment);
        CommitLineTypable(minutes, comment);
        EditorUndoesEncode(line);
        CommitRoundTrip(minutes, comment);
        SendCommitMoves(entered, ledger, line, CommitOrder(minutes, comment), script);
      }
    }
  }

  lemma CommitMeansCommit(line: string)
    requires "commit" <= line
    ensures Interpret(line) == TakeCommit(ReadCommit(line))
  {
    assert line[0] == "commit"[0] && line[2] == "commit"[2];
  }

  lemma ConfirmInStep(s: Session, ledger: seq<string>, script: Script)
    requires InStep(State(s, ledger))
    ensures var (after, outcome) := CliProtocol.Confirm(s, script);
            Committed(s, ledger, CommitOrder(None, None), after, outcome)
  {
    EnterTakesLock(s, ledger, script);
    var (entered, outcome) := CliProtocol.Enter(s, script);
    if outcome.Done? {
      HistoryInStep(entered, ledger, script);
      var (read, history) := CliProtocol.History(entered, script);
      if history.Done? {
        CommitInStep(read, ledger, None, None, script);
      }
    }
  }

  lemma {:induction false} RollsBack(s: Session, discards: seq<string>, script: Script)
    requires s.dev.inConfig && s.ready
    requires forall i :: 0 <= i < |discards| ==> Typable(discards[i]) && Interpret(discards[i]) == Rollback
    ensures var (after, outcome) := TypeAll(s, discards, script);
            && after == s.(ready := after.ready, typed := after.typed, dev := s.dev.(candidate := after.dev.candidate))
            && (outcome.Done? ==> after.ready)
            && (outcome.Done? && (discards != [] || s.dev.candidate == s.dev.committed) ==>
                  after.dev.candidate == after.dev.committed)
    decreases discards
  {
    if discards != [] {
      Typed(s, discards[0], script);
      var (after, _, outcome) := CliProtocol.Command(s, discards[0], script);
      if outcome.Done? {
        RollsBack(after, discards[1..], script);
      }
    }
  }

  /** The cleanup of a borrow: what was loaded is rolled back, the lock is given up, and nothing is committed. */
  lemma CleanupCleans(s: Session, ledger: seq<string>, script: Script)
    requires InStep(State(s, ledger)) && s.ready
    ensures var (after, outcome) := Cleanup(s, script);
            && after.dev.committed == s.dev.committed && after.dev.orders == s.dev.orders
            && after.closed == s.closed && after.commitSent == s.commitSent && after.dialect == s.dialect
            && (outcome.Done? ==> after.ready && !after.configured && !after.dirty && !after.dev.inConfig)
            && (outcome.Done? && s.configured ==> after.dev.candidate == after.dev.committed)
            && (!s.configured ==> after == s)
  {
    if s.configured {
      var (rolled, outcome) := if s.dirty then TypeAll(s, s.dialect.discards, script) else (s, Done(false));
      if s.dirty {
        RollsBack(s, s.dialect.discards, script);
      }
      if outcome.Done? {
        assert rolled.dev.candidate == rolled.dev.committed;
        Typed(rolled.(dirty := false), s.dialect.exit, script);
      }
    }
  }

  lemma DiffInStep(s: Session, ledger: seq<string>, script: Script)
    requires InStep(State(s, ledger))
    ensures var (after, outcome) := CliProtocol.Diff(s, script);
            && InStep(State(after, ledger))
            && after.dev.committed == s.dev.committed && after.dev.orders == s.dev.orders
  {
    EnterTakesLock(s, ledger, script);
    Typed(CliProtocol.Enter(s, script).0, s.dialect.diff, script);
  }

  lemma ProbeInStep(s: Session, ledger: seq<string>, script: Script)
    requires InStep(State(s, ledger))
    ensures var after := CliProtocol.Probe(s, script).0;
            InStep(State(after, ledger)) && after.dev == s.dev
  {
    EditorUndoesEncode("");
  }

  // ----- the main results

  /** Every call keeps the engine in step with the device, and only a commit or a confirm can change the committed
      configuration or add an order. */
  lemma CallKeepsStep(st: State, call: Call, script: Script)
    requires InStep(st)
    ensures InStep(Apply(st, Do(call), script))
    ensures !call.Commit? && !call.Confirm? ==>
              var dev := Apply(st, Do(call), script).session.dev;
              dev.committed == st.session.dev.committed && dev.orders == st.session.dev.orders
  {
    var s := st.session;
    match call
    case Load(lines) => LoadInStep(s, st.ledger, lines, script);
    case Diff => DiffInStep(s, st.ledger, script);
    case Commit(minutes, comment) => CommitInStep(s, st.ledger, minutes, comment, script);
    case Confirm => ConfirmInStep(s, st.ledger, script);
    case History => HistoryInStep(s, st.ledger, script);
    case Probe => ProbeInStep(s, st.ledger, script);
    case Release => if s.ready { CleanupCleans(s, st.ledger, script); }
    case Close => if s.ready { CleanupCleans(s, st.ledger, script); }
    case Discard =>
  }

  lemma {:induction false} RunKeepsStep(st: State, events: seq<Event>, script: Script)
    requires InStep(st)
    ensures InStep(RunAll(st, events, script))
    decreases events
  {
    if events != [] {
      if events[0].Do? {
        CallKeepsStep(st, events[0].call, script);
      }
      RunKeepsStep(Apply(st, events[0], script), events[1..], script);
    }
  }

  /** Borrow isolation: after any run, a session whose release succeeded is out of configuration mode with no lock,
      nothing dirty and nothing owed; its own candidate is gone, and the release committed nothing. */
  lemma ReleasedIsClean(committed: seq<string>, candidate: seq<string>, events: seq<Event>, script: Script)
    ensures var st := RunAll(LoggedIn(committed, candidate), events, script);
            var (after, outcome) := Step(st.session, Release, script);
            && after.dev.committed == st.session.dev.committed
            && (outcome.Done? ==>
                  && after.ready && !after.closed && !after.configured && !after.dirty && !after.commitSent
                      && !after.dev.inConfig
                  && Apply(st, Do(Release), script).ledger == []
                  && (st.session.dev.inConfig ==> after.dev.candidate == after.dev.committed)
                  && (!st.session.dev.inConfig ==> after.dev == st.session.dev && after.typed == st.session.typed))
            && (outcome.Failed? ==> !after.ready && after.closed)
  {
    var st := RunAll(LoggedIn(committed, candidate), events, script);
    JunosUnderstood();
    RunKeepsStep(LoggedIn(committed, candidate), events, script);
    if st.session.ready {
      CleanupCleans(st.session, st.ledger, script);
    }
  }

  /** A commit that succeeds, after any run, changes the device by exactly the lines acknowledged in this borrow
      since the last commit, and hands over exactly the timer and comment it was called with. */
  lemma CommitIsExact(committed: seq<string>, candidate: seq<string>, events: seq<Event>,
                      minutes: Option<int>, comment: Option<string>, script: Script)
    ensures var st := RunAll(LoggedIn(committed, candidate), events, script);
            var (after, outcome) := Step(st.session, Commit(minutes, comment), script);
            outcome.Done? ==>
              && after.dev.committed == st.session.dev.committed + st.ledger
              && after.dev.candidate == after.dev.committed
              && after.dev.orders == st.session.dev.orders + [CommitOrder(minutes, comment)]
  {
    var st := RunAll(LoggedIn(committed, candidate), events, script);
    JunosUnderstood();
    RunKeepsStep(LoggedIn(committed, candidate), events, script);
    CommitInStep(st.session, st.ledger, minutes, comment, script);
  }

  /** An engine that is not ready stays so and types nothing, whatever is called on it. */
  lemma {:induction false} UnreadyIsFinal(st: State, events: seq<Event>, script: Script)
    requires !st.session.ready
    ensures var end := RunAll(st, events, script).session;
            !end.ready && end.typed == st.session.typed && end.dev.orders == st.session.dev.orders
            && end.dev.inConfig == st.session.dev.inConfig
            && (st.session.dev.inConfig ==> end.dev == st.session.dev)
    decreases events
  {
    if events != [] {
      var next := Apply(st, events[0], script);
      if events[0].Do? {
        UnreadyCall(st.session, events[0].call, script);
      }
      UnreadyIsFinal(next, events[1..], script);
    }
  }

  lemma UnreadyCall(s: Session, call: Call, script: Script)
    requires !s.ready
    ensures var after := Step(s, call, script).0;
            !after.ready && after.typed == s.typed && after.dev == s.dev
  {
    match call {
      case Load(lines) =>
        var (entered, outcome) := CliProtocol.Enter(s, script);
        UnreadyTypesNothing(entered, lines, 0, script);
      case _ =>
    }
  }

  /** A commit whose outcome is unknown is the last thing typed: after it no call rolls back, replays or leaves, and
      at most that one order was carried out. */
  lemma UnknownCommitIsFinal(committed: seq<string>, candidate: seq<string>, before: seq<Event>,
                             minutes: Option<int>, comment: Option<string>, later: seq<Event>, script: Script)
    requires var st := RunAll(LoggedIn(committed, candidate), before, script);
             Step(st.session, Commit(minutes, comment), script).1 == Failed(OUTCOME_UNKNOWN, 0)
    ensures var st := RunAll(LoggedIn(committed, candidate), before, script);
            var sent := Apply(st, Do(Commit(minutes, comment)), script);
            var end := RunAll(sent, later, script).session;
            && !end.ready && end.typed == sent.session.typed
            && (end.dev.orders == st.session.dev.orders
                || end.dev.orders == st.session.dev.orders + [CommitOrder(minutes, comment)])
  {
    var st := RunAll(LoggedIn(committed, candidate), before, script);
    JunosUnderstood();
    RunKeepsStep(LoggedIn(committed, candidate), before, script);
    CommitInStep(st.session, st.ledger, minutes, comment, script);
    UnreadyIsFinal(Apply(st, Do(Commit(minutes, comment)), script), later, script);
  }

  // ----- orders over a whole run

  function ReportedBy(st: State, event: Event, script: Script): seq<CommitOrder> {
    if event.Do? && Step(st.session, event.call, script).1.Done? then
      match event.call
      case Commit(minutes, comment) => [CommitOrder(minutes, comment)]
      case Confirm => [CommitOrder(None, None)]
      case _ => []
    else []
  }

  /** The orders of the commits and confirms in a run that reported success, in order. */
  function Reported(st: State, events: seq<Event>, script: Script): seq<CommitOrder>
    decreases events
  {
    if events == [] then []
    else ReportedBy(st, events[0], script) + Reported(Apply(st, events[0], script), events[1..], script)
  }

  /** The device's orders are the ones told of, or one more and then the session is over. */
  ghost predicate Carried(session: Session, told: seq<CommitOrder>) {
    || session.dev.orders == told
    || (!session.ready && told <= session.dev.orders && |session.dev.orders| == |told| + 1)
  }

  lemma EventCarries(st: State, event: Event, script: Script)
    requires InStep(st)
    ensures var next := Apply(st, event, script);
            InStep(next) && Carried(next.session, st.session.dev.orders + ReportedBy(st, event, script))
  {
    assert st.session.dev.orders + [] == st.session.dev.orders;
    if event.Do? {
      CallKeepsStep(st, event.call, script);
      match event.call {
        case Commit(minutes, comment) => CommitInStep(st.session, st.ledger, minutes, comment, script);
        case Confirm => ConfirmInStep(st.session, st.ledger, script);
        case _ =>
      }
    }
  }

  /** Over every run the device carries out exactly the reported commits, in order and once each, and beyond them at
      most one more, after which the engine is unready. */
  lemma {:induction false} OrdersCarriedOut(st: State, events: seq<Event>, script: Script)
    requires InStep(st)
    ensures Carried(RunAll(st, events, script).session, st.session.dev.orders + Reported(st, events, script))
    decreases events
  {
    if events == [] {
      assert st.session.dev.orders + [] == st.session.dev.orders;
    } else {
      var next := Apply(st, events[0], script);
      var orders, now, rest := st.session.dev.orders, ReportedBy(st, events[0], script), Reported(next, events[1..],
          script);
      EventCarries(st, events[0], script);
      var end := RunAll(next, events[1..], script).session;
      if next.session.dev.orders == orders + now {
        OrdersCarriedOut(next, events[1..], script);
      } else {
        UnreadyReportsNothing(next, events[1..], script);
        UnreadyIsFinal(next, events[1..], script);
      }
      CarriedOn(orders, now, rest, next.session, end);
    }
  }

  lemma CarriedOn(orders: seq<CommitOrder>, now: seq<CommitOrder>, rest: seq<CommitOrder>, mid: Session, end: Session)
    requires Carried(mid, orders + now)
    requires mid.dev.orders == orders + now ==> Carried(end, mid.dev.orders + rest)
    requires mid.dev.orders != orders + now ==> rest == [] && !end.ready && end.dev.orders == mid.dev.orders
    ensures Carried(end, orders + (now + rest))
  {
    assert orders + now + rest == orders + (now + rest);
    assert orders + now + [] == orders + now;
  }

  lemma {:induction false} UnreadyReportsNothing(st: State, events: seq<Event>, script: Script)
    requires !st.session.ready
    ensures Reported(st, events, script) == []
    decreases events
  {
    if events != [] {
      if events[0].Do? {
        UnreadyCall(st.session, events[0].call, script);
      }
      UnreadyReportsNothing(Apply(st, events[0], script), events[1..], script);
    }
  }
}
