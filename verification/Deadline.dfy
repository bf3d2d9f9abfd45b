/** Deadline guards: a timer thread that aborts the transport against the worker that finishes in time. */
module Deadline {
  import opened Wrappers

  type Time = real

  /** The two implementations: the SSH guard has an active flag and aborts after it lets go of the lock; the NETCONF
      opening puts its deadline out of reach and closes the transport under the lock. */
  datatype Flavour = Ssh | Netconf

  /** A guard; no deadline stands for one infinitely late. */
  datatype Guard = Guard(flavour: Flavour, deadline: Option<Time>, expired: bool, active: bool)

  predicate Late(g: Guard, now: Time) {
    g.deadline.Some? && now >= g.deadline.value
  }

  /** What a timer does once it has the lock, and whether it aborts. */
  function Expire(g: Guard, deadline: Time): (Guard, bool) {
    if (g.flavour.Netconf? || g.active) && g.deadline == Some(deadline) then (g.(expired := true), true) else (g, false)
  }

  /** Whether the work was finished in time. */
  function Finish(g: Guard, now: Time): (Guard, bool) {
    match g.flavour
    case Ssh => if Late(g, now) || g.expired then (g, false) else (g.(active := false), true)
    case Netconf =>
      var expired := g.expired || Late(g, now);
      (g.(expired := expired, deadline := None), !expired)
  }

  /** The banner ends the first phase and begins the next, unless it came too late: past the deadline for SSH, past
      its expiry for NETCONF. */
  function Banner(g: Guard, now: Time, setup: Time): (Guard, bool) {
    if (g.flavour.Ssh? && Late(g, now)) || (g.flavour.Netconf? && g.expired) then (g, false)
    else (g.(deadline := Some(now + setup)), true)
  }

  function Stop(g: Guard): Guard {
    g.(active := false)
  }

  // ----- the guard as an object

  class DeadlineGuard {
    const flavour: Flavour
    var deadline: Option<Time>
    var expired: bool
    var active: bool

    ghost function View(): Guard
      reads this
    {
      Guard(flavour, deadline, expired, active)
    }

    constructor (flavour: Flavour, deadline: Time)
      ensures View() == Guard(flavour, Some(deadline), false, true)
    {
      this.flavour, this.deadline, expired, active := flavour, Some(deadline), false, true;
    }

    method OnTimer(due: Time) returns (aborts: bool)
      modifies this`expired
      ensures (View(), aborts) == Expire(old(View()), due)
    {
      if (flavour.Ssh? && !active) || deadline != Some(due) {
        return false;
      }
      expired := true;
      aborts := true;
    }

    method Finished(now: Time) returns (inTime: bool)
      modifies this
      ensures (View(), inTime) == Finish(old(View()), now)
    {
      var late := deadline.Some? && now >= deadline.value;
      if flavour.Netconf? {
        expired := expired || late;
        deadline := None;
        return !expired;
      }
      if late || expired {
        return false;
      }
      active := false;
      inTime := true;
    }

    method ReceivedBanner(now: Time, setup: Time) returns (inTime: bool)
      modifies this`deadline
      ensures (View(), inTime) == Banner(old(View()), now, setup)
    {
      if if flavour.Ssh? then deadline.Some? && now >= deadline.value else expired {
        return false;
      }
      deadline := Some(now + setup);
      inTime := true;
    }

    method Stopped()
      modifies this`active
      ensures View() == Stop(old(View()))
    {
      active := false;
    }
  }

  // ----- timers and worker interleaved

  /** A timer thread: it waits, then it wants the lock, then it is done or cancelled. Cancelling one that rang has
      no effect. */
  datatype Phase = Waiting | Ringing | Done
  datatype Timer = Timer(due: Time, deadline: Time, phase: Phase)

  /** The guard, its timers in the order they were armed, the aborts begun and made, and whether a finish succeeded.
      */
  datatype World = World(now: Time, guard: Guard, timers: seq<Timer>, aborting: nat, aborts: nat, finished: bool)

  datatype Move =
    | Tick(later: Time)
    | Ring(timer: nat)
    | OnTimer(timer: nat)
    | Abort
    | ReceivedBanner(setup: Time, armed: Time)
    | Finished
    | Stopped

  function Cancel(timers: seq<Timer>): seq<Timer> {
    var last := |timers| - 1;
    if timers != [] && timers[last].phase.Waiting? then timers[last := timers[last].(phase := Done)] else timers
  }

  /** A timer armed at `now`: it rings no earlier than its deadline. */
  function Armed(now: Time, deadline: Time): Timer {
    Timer(now + (if deadline > now then deadline - now else 0.0), deadline, Waiting)
  }

  /** One move; one that is not possible changes nothing. A NETCONF transport reads no banner after its open
      succeeded. */
  function Next(w: World, move: Move): World {
    match move
    case Tick(later) => if later >= w.now then w.(now := later) else w
    case Ring(i) =>
      if i < |w.timers| && w.timers[i].phase.Waiting? && w.now >= w.timers[i].due
      then w.(timers := w.timers[i := w.timers[i].(phase := Ringing)]) else w
    case OnTimer(i) =>
      if i < |w.timers| && w.timers[i].phase.Ringing? then
        var (guard, aborts) := Expire(w.guard, w.timers[i].deadline);
        w.(guard := guard, timers := w.timers[i := w.timers[i].(phase := Done)],
           aborting := w.aborting + if aborts then 1 else 0)
      else w
    case Abort => if w.aborting > 0 then w.(aborting := w.aborting - 1, aborts := w.aborts + 1) else w
    case ReceivedBanner(setup, armed) =>
      if armed < w.now || (w.guard.flavour.Netconf? && w.finished) then w
      else
        var (guard, inTime) := Banner(w.guard, w.now, setup);
        if inTime then w.(now := armed, guard := guard, timers := Cancel(w.timers) + [Armed(armed,
            w.now + setup)]) else w
    case Finished =>
      var (guard, inTime) := Finish(w.guard, w.now);
      w.(guard := guard, finished := w.finished || inTime,
         timers := if w.guard.flavour.Netconf? then Cancel(w.timers) else w.timers)
    case Stopped => if w.guard.flavour.Ssh? then w.(guard := Stop(w.guard), timers := Cancel(w.timers)) else w
  }

  /** The guard as it is made: armed for the connect phase. */
  function Start(flavour: Flavour, now: Time, connect: Time): World {
    World(now, Guard(flavour, Some(now + connect), false, true), [Armed(now, now + connect)], 0, 0, false)
  }

  function After(w: World, moves: seq<Move>): World {
    if moves == [] then w else Next(After(w, moves[..|moves| - 1]), moves[|moves| - 1])
  }

  /** A timer never rings before the deadline it was armed for. */
  ghost predicate OnSchedule(w: World) {
    forall i :: 0 <= i < |w.timers| ==>
      w.timers[i].due >= w.timers[i].deadline && (w.timers[i].phase.Ringing? ==> w.now >= w.timers[i].deadline)
  }

  /** An abort is only begun by an expiry, an expiry only at the deadline of the phase it ends, and never beside a
      successful finish. */
  ghost predicate Sound(w: World) {
    && (w.aborting + w.aborts > 0 ==> w.guard.expired)
    && (w.guard.expired && w.guard.deadline.Some? ==> Late(w.guard, w.now))
    && (w.guard.deadline.None? ==> w.guard.flavour.Netconf? && (w.finished || w.guard.expired))
    && (w.finished ==> !w.guard.expired && if w.guard.flavour.Ssh? then !w.guard.active else w.guard.deadline.None?)
  }

  lemma StepOnSchedule(w: World, move: Move)
    requires OnSchedule(w)
    ensures OnSchedule(Next(w, move))
  {
  }

  lemma StepSound(w: World, move: Move)
    requires OnSchedule(w) && Sound(w)
    ensures Sound(Next(w, move))
  {
  }

  lemma {:induction false} RunSound(flavour: Flavour, now: Time, connect: Time, moves: seq<Move>)
    ensures var w := After(Start(flavour, now, connect), moves); OnSchedule(w) && Sound(w) && w.guard.flavour == flavour
  {
    if moves != [] {
      var shorter := moves[..|moves| - 1];
      RunSound(flavour, now, connect, shorter);
      var w := After(Start(flavour, now, connect), shorter);
      StepOnSchedule(w, moves[|moves| - 1]);
      StepSound(w, moves[|moves| - 1]);
    }
  }

  lemma {:induction false} StaysFinished(w: World, moves: seq<Move>)
    requires w.finished
    ensures After(w, moves).finished
  {
    if moves != [] {
      StaysFinished(w, moves[..|moves| - 1]);
    }
  }

  lemma AfterLast(w: World, moves: seq<Move>, last: Move)
    ensures After(w, moves + [last]) == Next(After(w, moves), last)
  {
    assert (moves + [last])[..|moves|] == moves;
  }

  lemma {:induction false} AfterBoth(w: World, before: seq<Move>, moves: seq<Move>)
    ensures After(w, before + moves) == After(After(w, before), moves)
  {
    if moves == [] {
      assert before + moves == before;
    } else {
      var earlier, last := moves[..|moves| - 1], moves[|moves| - 1];
      AfterBoth(w, before, earlier);
      AfterLast(w, before + earlier, last);
      AfterLast(After(w, before), earlier, last);
      assert moves == earlier + [last] && before + moves == before + earlier + [last];
    }
  }

  /** A guard whose finish succeeds never calls its abort, before or after, however timers and worker interleave. */
  lemma FinishedNeverAborts(flavour: Flavour, now: Time, connect: Time, before: seq<Move>, after: seq<Move>)
    requires After(Start(flavour, now, connect), before).finished
    ensures var end := After(Start(flavour, now, connect), before + after); end.aborts == 0 && end.aborting == 0
  {
    var w := Start(flavour, now, connect);
    AfterBoth(w, before, after);
    StaysFinished(After(w, before), after);
    RunSound(flavour, now, connect, before + after);
  }

  /** A finish succeeds exactly when it comes before the deadline of the phase it ends: nothing expires a phase
      early, and no expiry is overlooked. */
  lemma FinishIffInTime(flavour: Flavour, now: Time, connect: Time, moves: seq<Move>)
    requires !After(Start(flavour, now, connect), moves).finished
    ensures var w := After(Start(flavour, now, connect), moves);
            Next(w, Finished).finished <==> w.guard.deadline.Some? && !Late(w.guard, w.now)
  {
    RunSound(flavour, now, connect, moves);
  }

  /** A timer that expires the guard was armed for the very deadline the guard has, and that deadline has passed:
      one left over from an earlier phase never expires a later phase early. */
  lemma StaleTimerIsHarmless(flavour: Flavour, now: Time, connect: Time, moves: seq<Move>, timer: nat)
    ensures var w := After(Start(flavour, now, connect), moves); var after := Next(w, OnTimer(timer));
            (after.guard.expired && !w.guard.expired) || after.aborting > w.aborting ==>
              timer < |w.timers| && w.guard.deadline == Some(w.timers[timer].deadline) && Late(w.guard, w.now)
  {
    RunSound(flavour, now, connect, moves);
  }
}
