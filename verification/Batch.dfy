/** A batch of commands on one borrowed session: a timed-out command's session is replaced, a lost one ends the
    batch, and what is held at the end is given back. */
module Batch {
  import opened Wrappers
  import opened Faults

  /** What becomes of a command: an answer, a fault, or an interrupt while it runs. */
  datatype Answer = Answered | Faulted(kind: Kind) | Cut

  /** What becomes of a fresh open: the interrupt comes before the old session is torn down or after it, the gate
      cannot be used, the gate or the open refuses, or there is a session. */
  datatype Reopening = CutEarly | CutLate | GateBroken | NotReopened(kind: Kind) | Reopened

  /** The commands of the batch, and what answers each of them and the open after it. */
  datatype Env = Env(commands: nat, answer: nat -> Answer, reopening: nat -> Reopening)

  /** Sessions are numbered in the order they were opened. */
  datatype Event = Sent(command: nat, session: nat) | LoginAsked | Dialled(session: nat)
      | Ended(session: nat, discard: bool)

  /** An operation's name is its command, none for an open; its fault, if any. */
  datatype Op = Op(command: Option<nat>, fault: Option<Kind>)

  /** How the commands ended: by themselves, by an interrupt, or by an error that is no fault of an operation. */
  datatype Ending = Ran | Interrupted | Crashed

  datatype State = State(log: seq<Event>, ops: seq<Op>, hand: Option<nat>, freshAt: nat, sessions: nat, ending: Ending)

  const START := State([Dialled(0)], [], Some(0), 0, 1, Ran)

  /** The timed-out session is torn down and the gate asked before a new one is opened. */
  function Fresh(s: State, n: nat, env: Env): (State, bool)
    requires s.hand.Some?
  {
    if env.reopening(n).CutEarly? then (s.(ending := Interrupted), false)
    else
      var torn := s.(log := s.log + [Ended(s.hand.value, true), LoginAsked], hand := None);
      match env.reopening(n)
      case NotReopened(kind) => (torn.(ops := s.ops + [Op(None, Some(kind))]), false)
      case Reopened =>
        (torn.(log := torn.log + [Dialled(s.sessions)], hand := Some(s.sessions), sessions := s.sessions + 1,
               freshAt := |s.ops|), true)
      case GateBroken => (torn.(ending := Crashed), false)
      case _ => (torn.(ending := Interrupted), false)
  }

  /** Command n, and whether the batch goes on. */
  function Send(s: State, n: nat, env: Env): (State, bool)
    requires s.hand.Some?
  {
    var sent := s.(log := s.log + [Sent(n, s.hand.value)]);
    match env.answer(n)
    case Cut => (sent.(ending := Interrupted), false)
    case Answered => (sent.(ops := s.ops + [Op(Some(n), None)]), true)
    case Faulted(kind) =>
      var told := sent.(ops := s.ops + [Op(Some(n), Some(kind))]);
      if kind == SESSION_LOST then (told, false)
      else if kind == TIMEOUT && n < env.commands - 1 then Fresh(told, n, env)
      else (told, true)
  }

  /** The commands from n on. */
  function Operations(s: State, n: nat, env: Env): State
    requires s.hand.Some? && n <= env.commands
    decreases env.commands - n
  {
    if n == env.commands then s
    else
      var (after, on) := Send(s, n, env);
      if on then Operations(after, n + 1, env) else after
  }

  predicate AnyDiscarding(ops: seq<Op>) {
    exists i :: 0 <= i < |ops| && ops[i].fault.Some? && Discarding(ops[i].fault.value)
  }

  /** The session in hand is given back; with none in hand the manager only frees the key. */
  function GiveBack(s: State): State
    requires s.freshAt <= |s.ops|
  {
    match s.hand
    case None => s
    case Some(session) =>
      s.(log := s.log + [Ended(session, s.ending.Interrupted? || AnyDiscarding(s.ops[s.freshAt..]))], hand := None)
  }

  lemma {:induction false} FreshAtInside(s: State, n: nat, env: Env)
    requires s.hand.Some? && n <= env.commands && s.freshAt <= |s.ops|
    ensures var end := Operations(s, n, env); end.freshAt <= |end.ops|
    decreases env.commands - n
  {
    if n < env.commands && Send(s, n, env).1 {
      FreshAtInside(Send(s, n, env).0, n + 1, env);
    }
  }

  function Whole(env: Env): State {
    FreshAtInside(START, 0, env);
    GiveBack(Operations(START, 0, env))
  }

  // ----- the loop as the scheduler runs it

  class Attempt {
    const env: Env
    var log: seq<Event>
    var ops: seq<Op>
    var hand: Option<nat>
    var freshAt: nat
    var sessions: nat
    var ending: Ending

    ghost function View(): State
      reads this
    {
      State(log, ops, hand, freshAt, sessions, ending)
    }

    constructor (env: Env)
      ensures this.env == env && View() == START
    {
      this.env := env;
      log, ops, hand, freshAt, sessions, ending := [Dialled(0)], [], Some(0), 0, 1, Ran;
    }

    method Replace(n: nat) returns (on: bool)
      requires hand.Some?
      modifies this
      ensures (View(), on) == Fresh(old(View()), n, env)
    {
      var reopening := env.reopening(n);
      if reopening.CutEarly? {
        ending := Interrupted;
        return false;
      }
      log := log + [Ended(hand.value, true), LoginAsked];
      hand := None;
      match reopening {
        case NotReopened(kind) =>
          ops := ops + [Op(None, Some(kind))];
          return false;
        case Reopened =>
          log := log + [Dialled(sessions)];
          hand := Some(sessions);
          sessions := sessions + 1;
          freshAt := |ops|;
          return true;
        case GateBroken =>
          ending := Crashed;
          return false;
        case CutLate =>
          ending := Interrupted;
          return false;
        case CutEarly =>
          assert false;
      }
    }

    method Run()
      requires hand.Some?
      modifies this
      ensures View() == Operations(old(View()), 0, env)
    {
      for n := 0 to env.commands
        invariant hand.Some?
        invariant Operations(View(), n, env) == Operations(old(View()), 0, env)
      {
        log := log + [Sent(n, hand.value)];
        var answer := env.answer(n);
        if answer.Cut? {
          ending := Interrupted;
          return;
        }
        ops := ops + [Op(Some(n), if answer.Faulted? then Some(answer.kind) else None)];
        if answer.Answered? {
          continue;
        }
        if answer.kind == SESSION_LOST {
          return;
        }
        if answer.kind == TIMEOUT && n < env.commands - 1 {
          var on := Replace(n);
          if !on {
            return;
          }
        }
      }
    }

    method Finish()
      requires freshAt <= |ops|
      modifies this`log, this`hand
      ensures View() == GiveBack(old(View()))
    {
      if hand.Some? {
        var stale :=
          || ending.Interrupted?
          || exists i :: freshAt <= i < |ops| && ops[i].fault.Some? && Discarding(ops[i].fault.value);
        SameStale(ops, freshAt);
        log := log + [Ended(hand.value, stale)];
        hand := None;
      }
    }
  }

  lemma SameStale(ops: seq<Op>, at: nat)
    requires at <= |ops|
    ensures AnyDiscarding(ops[at..])
        <==> exists i :: at <= i < |ops| && ops[i].fault.Some? && Discarding(ops[i].fault.value)
  {
    var rest := ops[at..];
    if i :| at <= i < |ops| && ops[i].fault.Some? && Discarding(ops[i].fault.value) {
      assert rest[i - at] == ops[i];
    }
  }

  method Batched(env: Env) returns (log: seq<Event>, ops: Option<seq<Op>>)
    ensures var end := Whole(env); log == end.log && ops == if end.ending.Ran? then Some(end.ops) else None
  {
    var attempt := new Attempt(env);
    attempt.Run();
    FreshAtInside(START, 0, env);
    attempt.Finish();
    log, ops := attempt.log, if attempt.ending.Ran? then Some(attempt.ops) else None;
  }

  // ----- what a batch does, told without running it

  predicate TimedOut(n: nat, env: Env) {
    env.answer(n) == Faulted(TIMEOUT)
  }

  /** Whether anything follows command n, another one being there. */
  predicate GoesOn(n: nat, env: Env) {
    match env.answer(n)
    case Cut => false
    case Answered => true
    case Faulted(kind) => kind != SESSION_LOST && (kind == TIMEOUT ==> env.reopening(n).Reopened?)
  }

  /** Whether command n leaves its session in doubt. */
  predicate Doubts(n: nat, env: Env) {
    env.answer(n).Cut? || (env.answer(n).Faulted? && Discarding(env.answer(n).kind))
  }

  /** The session command n is sent on: one more for each timeout before it. */
  function On(n: nat, env: Env): nat {
    if n == 0 then 0 else On(n - 1, env) + if TimedOut(n - 1, env) then 1 else 0
  }

  function Planned(k: nat, env: Env): seq<Event> {
    if k == 0 then [] else Planned(k - 1, env) + [Sent(k - 1, On(k - 1, env))]
  }

  /** The sends of a log, in order. */
  function Sends(log: seq<Event>): seq<Event> {
    if log == [] then []
    else Sends(log[..|log| - 1]) + if log[|log| - 1].Sent? then [log[|log| - 1]] else []
  }

  /** The ends of a log, in order. */
  function Ends(log: seq<Event>): seq<Event> {
    if log == [] then []
    else Ends(log[..|log| - 1]) + if log[|log| - 1].Ended? then [log[|log| - 1]] else []
  }

  function Asks(log: seq<Event>): nat {
    if log == [] then 0 else Asks(log[..|log| - 1]) + if log[|log| - 1].LoginAsked? then 1 else 0
  }

  lemma Logged(log: seq<Event>, e: Event)
    ensures Sends(log + [e]) == Sends(log) + if e.Sent? then [e] else []
    ensures Ends(log + [e]) == Ends(log) + if e.Ended? then [e] else []
    ensures Asks(log + [e]) == Asks(log) + if e.LoginAsked? then 1 else 0
  {
    assert (log + [e])[..|log|] == log;
  }

  /** The replaced sessions, each torn down. */
  function Torn(k: nat): seq<Event> {
    if k == 0 then [] else Torn(k - 1) + [Ended(k - 1, true)]
  }

  function OpOf(n: nat, env: Env): Op {
    Op(Some(n), if env.answer(n).Faulted? then Some(env.answer(n).kind) else None)
  }

  /** What the log tells before command n, when all before it let the batch go on. */
  ghost predicate LogBefore(s: State, n: nat, env: Env) {
    && s.hand == Some(On(n, env)) && s.sessions == On(n, env) + 1 && s.ending.Ran?
    && Sends(s.log) == Planned(n, env) && Ends(s.log) == Torn(On(n, env)) && Asks(s.log) == On(n, env)
  }

  /** What the operations tell then: those on the session in hand are the ones from freshAt on. */
  ghost predicate OpsBefore(s: State, n: nat, env: Env) {
    && |s.ops| == n && s.freshAt <= n
    && (forall i :: 0 <= i < n ==> GoesOn(i, env) && s.ops[i] == OpOf(i, env))
    && (forall i :: 0 <= i < n ==> On(i, env) <= On(n, env) && (On(i, env) == On(n, env) <==> i >= s.freshAt))
  }

  lemma LoggedTorn(log: seq<Event>, session: nat)
    ensures var torn := log + [Ended(session, true), LoginAsked];
            Sends(torn) == Sends(log) && Ends(torn) == Ends(log) + [Ended(session, true)] && Asks(torn) == Asks(log) + 1
  {
    Logged(log, Ended(session, true));
    Logged(log + [Ended(session, true)], LoginAsked);
    assert log + [Ended(session, true)] + [LoginAsked] == log + [Ended(session, true), LoginAsked];
  }

  lemma StepLog(s: State, n: nat, env: Env)
    requires n < env.commands - 1 && LogBefore(s, n, env) && Send(s, n, env).1
    ensures LogBefore(Send(s, n, env).0, n + 1, env)
  {
    var sent := s.log + [Sent(n, On(n, env))];
    Logged(s.log, Sent(n, On(n, env)));
    if TimedOut(n, env) {
      LoggedTorn(sent, On(n, env));
      Logged(sent + [Ended(On(n, env), true), LoginAsked], Dialled(s.sessions));
    }
  }

  lemma StepOps(s: State, n: nat, env: Env)
    requires n < env.commands - 1 && s.hand.Some? && OpsBefore(s, n, env) && Send(s, n, env).1
    ensures OpsBefore(Send(s, n, env).0, n + 1, env)
  {
  }

  /** Some command run on the session left it in doubt. */
  ghost predicate Doubted(session: nat, k: nat, env: Env) {
    exists n :: 0 <= n < k && On(n, env) == session && Doubts(n, env)
  }

  /** Command n is the last one sent. */
  predicate Last(n: nat, env: Env) {
    n == env.commands - 1 || (n < env.commands - 1 && !GoesOn(n, env))
  }

  /** Whether the session of the last command is torn down before it would be given back. */
  predicate TornLast(n: nat, env: Env) {
    TimedOut(n, env) && n < env.commands - 1 && !env.reopening(n).CutEarly?
  }

  lemma LastStep(s: State, n: nat, env: Env)
    requires Last(n, env) && s.hand.Some?
    ensures var after := Send(s, n, env).0; Operations(s, n, env) == after && after.sessions == s.sessions
    ensures var after := Send(s, n, env).0; after.hand == if TornLast(n, env) then None else s.hand
    ensures Send(s, n, env).0.log
         == s.log + [Sent(n, s.hand.value)] + if TornLast(n, env) then [Ended(s.hand.value, true), LoginAsked] else []
  {
    var (after, on) := Send(s, n, env);
    if n == env.commands - 1 {
      if on {
        assert Operations(after, n + 1, env) == after;
      }
    }
  }

  lemma LastStale(s: State, n: nat, env: Env)
    requires Last(n, env) && s.hand.Some? && s.ending.Ran? && OpsBefore(s, n, env) && !TornLast(n, env)
    ensures var after := Send(s, n, env).0;
            after.freshAt == s.freshAt <= |after.ops|
            && (after.ending.Interrupted? || AnyDiscarding(after.ops[s.freshAt..]) <==> Doubted(On(n, env), n + 1, env))
  {
    var after := Send(s, n, env).0;
    SameStale(after.ops, s.freshAt);
    if Doubts(n, env) {
      assert Doubted(On(n, env), n + 1, env);
      if !env.answer(n).Cut? {
        assert after.ops[n] == OpOf(n, env);
      }
    } else {
      assert after.ops == s.ops + [OpOf(n, env)];
      if i :| s.freshAt <= i < |after.ops| && after.ops[i].fault.Some? && Discarding(after.ops[i].fault.value) {
        assert after.ops[i] == OpOf(i, env);
        assert Doubts(i, env);
      }
      if i :| 0 <= i < n + 1 && On(i, env) == On(n, env) && Doubts(i, env) {
        assert after.ops[i] == OpOf(i, env);
      }
    }
  }

  lemma {:induction false} ReplacedWasDoubted(session: nat, n: nat, k: nat, env: Env)
    requires session < On(n, env) && n <= k
    ensures Doubted(session, k, env)
  {
    if TimedOut(n - 1, env) && On(n - 1, env) == session {
      assert Doubts(n - 1, env);
    } else {
      ReplacedWasDoubted(session, n - 1, k, env);
    }
  }

  lemma {:induction false} TornAt(k: nat, session: nat)
    ensures |Torn(k)| == k && (session < k ==> Torn(k)[session] == Ended(session, true))
  {
    if k > 0 {
      TornAt(k - 1, session);
    }
  }

  lemma {:induction false} PlannedLength(k: nat, env: Env)
    ensures |Planned(k, env)| == k
  {
    if k > 0 {
      PlannedLength(k - 1, env);
    }
  }

  /** One end for each session, with discard exactly when one of the k commands sent left it in doubt. */
  ghost predicate Closed(ends: seq<Event>, sessions: nat, k: nat, env: Env) {
    && |ends| == sessions
    && forall session :: 0 <= session < sessions ==> ends[session] == Ended(session, Doubted(session, k, env))
  }

  /** What is true of a batch whose last command is n: the sends, the ends and the logins asked. */
  ghost predicate Told(end: State, n: nat, env: Env) {
    && Last(n, env) && (forall i :: 0 <= i < n ==> GoesOn(i, env))
    && Sends(end.log) == Planned(n + 1, env)
    && end.hand.None? && end.sessions == On(n, env) + 1
    && Closed(Ends(end.log), end.sessions, n + 1, env)
    && Asks(end.log) == On(n, env) + if TornLast(n, env) then 1 else 0
  }

  /** The last command just sent, and its session torn down if it is to be. */
  ghost predicate LastSent(after: State, sent: seq<Event>, n: nat, env: Env) {
    && after.hand == (if TornLast(n, env) then None else Some(On(n, env))) && after.sessions == On(n, env) + 1
    && after.log == sent + (if TornLast(n, env) then [Ended(On(n, env), true), LoginAsked] else [])
    && Sends(sent) == Planned(n + 1, env) && Ends(sent) == Torn(On(n, env)) && Asks(sent) == On(n, env)
  }

  lemma GivenBack(after: State, sent: seq<Event>, n: nat, env: Env)
    requires LastSent(after, sent, n, env) && after.freshAt <= |after.ops|
    requires !TornLast(n, env) ==>
               ((after.ending.Interrupted? || AnyDiscarding(after.ops[after.freshAt..]))
                <==> Doubted(On(n, env), n + 1, env))
    ensures var end := GiveBack(after);
            && Sends(end.log) == Planned(n + 1, env)
            && end.hand.None? && end.sessions == On(n, env) + 1
            && Ends(end.log) == Torn(On(n, env)) + [Ended(On(n, env), Doubted(On(n, env), n + 1, env))]
            && Asks(end.log) == On(n, env) + if TornLast(n, env) then 1 else 0
  {
    if TornLast(n, env) {
      assert Doubts(n, env);
      LoggedTorn(sent, On(n, env));
    } else {
      assert after.log == sent;
      Logged(sent, Ended(On(n, env), Doubted(On(n, env), n + 1, env)));
    }
  }

  lemma EndTold(s: State, n: nat, env: Env)
    requires Last(n, env) && LogBefore(s, n, env) && OpsBefore(s, n, env)
    ensures var after := Operations(s, n, env);
            after.freshAt <= |after.ops| && Told(GiveBack(after), n, env)
  {
    LastStep(s, n, env);
    FreshAtInside(s, n, env);
    var sent := s.log + [Sent(n, On(n, env))];
    Logged(s.log, Sent(n, On(n, env)));
    if !TornLast(n, env) {
      LastStale(s, n, env);
    }
    GivenBack(Operations(s, n, env), sent, n, env);
    EndsTold(n, env);
  }

  /** The sessions torn down so far and the last one are one per session, each with its doubt. */
  lemma EndsTold(n: nat, env: Env)
    ensures var last := On(n, env);
            Closed(Torn(last) + [Ended(last, Doubted(last, n + 1, env))], last + 1, n + 1, env)
  {
    var last := On(n, env);
    TornAt(last, 0);
    forall session | 0 <= session < last
      ensures Torn(last)[session] == Ended(session, Doubted(session, n + 1, env))
    {
      TornAt(last, session);
      ReplacedWasDoubted(session, n, n + 1, env);
    }
  }

  lemma {:induction false} RunTold(s: State, n: nat, env: Env) returns (last: nat)
    requires n < env.commands && LogBefore(s, n, env) && OpsBefore(s, n, env)
    ensures var after := Operations(s, n, env);
            after.freshAt <= |after.ops| && Told(GiveBack(after), last, env)
    decreases env.commands - n
  {
    if Last(n, env) {
      EndTold(s, n, env);
      last := n;
    } else {
      StepLog(s, n, env);
      StepOps(s, n, env);
      last := RunTold(Send(s, n, env).0, n + 1, env);
    }
  }

  lemma StartLogged()
    ensures Sends(START.log) == [] && Ends(START.log) == [] && Asks(START.log) == 0
  {
    Logged([], Dialled(0));
    assert [] + [Dialled(0)] == START.log;
  }

  lemma StartBefore(env: Env)
    ensures LogBefore(START, 0, env) && OpsBefore(START, 0, env)
  {
    StartLogged();
  }

  lemma NothingSent(env: Env)
    requires env.commands == 0
    ensures Sends(Whole(env).log) == [] && Ends(Whole(env).log) == [Ended(0, false)] && Asks(Whole(env).log) == 0
    ensures Whole(env).hand.None? && Whole(env).sessions == 1
  {
    StartLogged();
    Logged(START.log, Ended(0, false));
  }

  /** Batch session replacement: commands are sent in order, each once, each on the session the timeouts before it
      leave; the batch stops after a lost session, an interrupt or a reopen that gives no session, and only then;
      each session ends once, with discard exactly when a command run on it left it in doubt; and the gate is asked
      once for each reopen. */
  ghost predicate Faithful(end: State, env: Env) {
    var k := |Sends(end.log)|;
    && k <= env.commands && Sends(end.log) == Planned(k, env)
    && (forall i :: 0 <= i < k - 1 ==> GoesOn(i, env))
    && (k < env.commands ==> k > 0 && !GoesOn(k - 1, env))
    && end.hand.None? && Closed(Ends(end.log), end.sessions, k, env)
    && Asks(end.log) == if k > 0 then On(k - 1, env) + (if TornLast(k - 1, env) then 1 else 0) else 0
  }

  lemma ToldFaithful(end: State, n: nat, env: Env)
    requires n < env.commands && Told(end, n, env)
    ensures Faithful(end, env)
  {
    PlannedLength(n + 1, env);
  }

  lemma BatchMeans(env: Env)
    ensures Faithful(Whole(env), env)
  {
    if env.commands == 0 {
      NothingSent(env);
    } else {
      StartBefore(env);
      var last := RunTold(START, 0, env);
      ToldFaithful(Whole(env), last, env);
    }
  }

  /** No command is sent on a session that has ended. */
  ghost predicate Orderly(log: seq<Event>) {
    forall i, j :: 0 <= i < j < |log| && log[i].Ended? && log[j].Sent? ==> log[i].session != log[j].session
  }

  /** Only sessions opened before the one in hand have ended, and no later one is opened yet. */
  ghost predicate InHand(s: State) {
    && s.hand.Some? && s.hand.value == s.sessions - 1 && Orderly(s.log)
    && forall i :: 0 <= i < |s.log| && s.log[i].Ended? ==> s.log[i].session < s.hand.value
  }

  lemma SendOrderly(s: State, n: nat, env: Env)
    requires InHand(s)
    ensures var (after, on) := Send(s, n, env); Orderly(after.log) && (on ==> InHand(after))
  {
  }

  lemma {:induction false} OperationsOrderly(s: State, n: nat, env: Env)
    requires InHand(s) && n <= env.commands
    ensures Orderly(Operations(s, n, env).log)
    decreases env.commands - n
  {
    if n < env.commands {
      SendOrderly(s, n, env);
      if Send(s, n, env).1 {
        OperationsOrderly(Send(s, n, env).0, n + 1, env);
      }
    }
  }

  /** A session that timed out, was lost or was given back is never used again. */
  lemma NothingAfterEnd(env: Env)
    ensures Orderly(Whole(env).log)
  {
    FreshAtInside(START, 0, env);
    OperationsOrderly(START, 0, env);
  }
}
