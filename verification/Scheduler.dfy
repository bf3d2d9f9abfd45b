/** The attempts at one target as the scheduler makes them, call by call. */
module Scheduler {
  import opened Wrappers
  import opened Faults
  import opened AttemptProtocol
  import AP = AttemptProtocol

  class TargetRun {
    const mode: Mode
    const retries: nat
    const env: Env
    var calls: seq<Call>
    var logins: nat
    var attempts: nat
    var admitted: nat
    var worked: nat
    var backs: seq<bool>
    var settles: seq<bool>

    ghost function View(): Trace
      reads this
    {
      Trace(calls, logins, attempts, admitted, worked, backs, settles)
    }

    constructor (mode: Mode, retries: nat, env: Env)
      ensures this.mode == mode && this.retries == retries && this.env == env && View() == START
    {
      this.mode, this.retries, this.env := mode, retries, env;
      calls, logins, attempts, admitted, worked, backs, settles := [], 0, 0, 0, 0, [], [];
    }

    method Ask(call: Call) returns (outcome: Outcome)
      modifies this`calls
      ensures (View(), outcome) == AP.Ask(old(View()), call, env)
    {
      outcome := env.answers(|calls|);
      calls := calls + [call];
    }

    /** LOAD: the candidate in one call, or a call for each line up to the first fault. */
    method Load(hasCandidate: bool, lines: seq<string>) returns (ops: seq<Op>)
      modifies this`calls
      ensures (View(), ops) == LoadOps(old(View()), hasCandidate, lines, env)
    {
      ops := [];
      if hasCandidate {
        var outcome := Ask(Call.Load(lines));
        return [Op("load", outcome)];
      }
      ghost var whole := LoadFrom(View(), lines, 0, env);
      assert [] + whole.1 == whole.1;
      for n := 0 to |lines|
        invariant LoadFrom(View(), lines, n, env).0 == whole.0
        invariant ops + LoadFrom(View(), lines, n, env).1 == whole.1
      {
        ghost var rest := LoadFrom(View(), lines, n, env).1;
        var outcome := Ask(Call.Load([lines[n]]));
        assert ops + rest == ops + [Op(lines[n], outcome)] + rest[1..];
        ops := ops + [Op(lines[n], outcome)];
        if outcome.Bad? {
          assert ops + [] == ops;
          return;
        }
      }
      assert ops + [] == ops;
    }

    /** LOAD, DIFF and, when applying a change, COMMIT. */
    method Lifecycle() returns (ops: seq<Op>)
      requires mode.Edit?
      modifies this`calls
      ensures (View(), ops) == EditOps(old(View()), mode, env)
    {
      ops := Load(mode.hasCandidate, mode.lines);
      if Failed(ops) {
        return;
      }
      var told := Ask(Diff);
      ops := ops + [Op("diff", told)];
      if told.Bad? || !mode.apply || told.data == Changed(false) {
        return;
      }
      var answer := Ask(Commit);
      ops := ops + [Op("commit", answer)];
    }

    method Operations() returns (ops: seq<Op>)
      modifies this`calls
      ensures (View(), ops) == ModeOps(old(View()), mode, env)
    {
      match mode {
        case Edit(_, _, _) => ops := Lifecycle();
        case Confirming =>
          var told := Ask(History);
          ops := [Op("commit_history", told)];
          if told.Bad? {
            return;
          }
          if told.data != Status(true) {
            return [Op("commit_history", told), Op("confirm", Bad(REFUSED, true))];
          }
          var answer := Ask(Confirm);
          ops := [Op("commit_history", told), Op("confirm", answer)];
        case CommitStatus =>
          var told := Ask(History);
          ops := [Op("commit_history", told)];
        case Config =>
          var told := Ask(GetConfig);
          ops := [Op("config", told)];
        case Show(command, _) =>
          var told := Ask(Run(command));
          ops := [Op(command, told)];
      }
    }

    method Settle(verdict: Option<Verdict>)
      modifies this`settles
      ensures View() == AP.Settle(old(View()), verdict)
    {
      settles := settles + [verdict.Some? && verdict.value.coolDown];
    }

    method Dial() returns (ended: Option<Tried>)
      modifies this`calls, this`logins, this`attempts, this`admitted, this`settles
      ensures (View(), ended) == AP.Dial(old(View()), mode, retries, env)
    {
      var admission := env.gate(attempts);
      attempts := attempts + 1;
      match admission {
        case GateBroken => return Some(Ended(false, FAIL));
        case Held => return Some(Ended(false, SKIP));
        case Let(pooled, evicted, vouched, leave) =>
          admitted := admitted + 1;
          if !pooled {
            logins := logins + 1;
          }
          if pooled && !evicted {
            if vouched {
              return None;
            }
            logins := logins + 1;
            if !leave.Allowed? {
              Settle(None);
              return Some(if leave.NoGate? then Ended(true, FAIL) else Ended(false, SKIP));
            }
          }
      }
      ended := Connect();
    }

    method Connect() returns (ended: Option<Tried>)
      modifies this`calls, this`settles
      ensures (View(), ended) == AP.Connect(old(View()), mode, retries, env)
    {
      var answer := Ask(Open);
      if answer.Good? {
        return None;
      }
      var op := Op(OPEN, answer);
      var verdict := Some(Judge(op, mode, attempts, retries));
      Settle(verdict);
      ended := Some(Tried([op], verdict));
    }

    method Attempt() returns (tried: Tried)
      modifies this
      ensures (View(), tried) == AP.Attempt(old(View()), mode, retries, env)
    {
      var ended := Dial();
      if ended.Some? {
        return ended.value;
      }
      tried := Perform();
    }

    /** The operations on the session, and what is given up after them. */
    method Perform() returns (tried: Tried)
      modifies this
      ensures (View(), tried) == Work(old(View()), mode, retries, env)
    {
      worked := worked + 1;
      var ops := Operations();
      tried := Conclude(ops);
    }

    method Conclude(ops: seq<Op>) returns (tried: Tried)
      modifies this`backs, this`settles
      ensures (View(), tried) == AP.Conclude(old(View()), ops, mode, retries)
    {
      backs := backs + [AnyDiscarding(ops)];
      var fault := FirstFault(ops);
      FirstFaultIsBad(ops);
      var verdict := if fault.None? then None else Some(Judge(fault.value, mode, attempts, retries));
      Settle(verdict);
      tried := Tried(ops, verdict);
    }

    /** Attempts while the policy says retry. */
    method Target() returns (tried: Tried)
      requires attempts <= retries
      modifies this
      ensures (View(), tried) == RunTarget(old(View()), mode, retries, env)
    {
      RetryIsBounded(View(), mode, retries, env);
      tried := Attempt();
      while Again(tried)
        invariant Again(tried) ==> attempts <= retries
        invariant RunTarget(old(View()), mode, retries, env)
               == if Again(tried) then RunTarget(View(), mode, retries, env) else (View(), tried)
        decreases retries + 1 - attempts
      {
        RetryIsBounded(View(), mode, retries, env);
        tried := Attempt();
      }
    }
  }
}
