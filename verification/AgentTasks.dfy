/** One agent task, the turns sent for it, and every handler that a turn's end can
    start: the rows as the database holds them, and each database statement as one
    atomic step, so that handlers, callers and the clock interleave freely. */
module AgentTasks {
  import opened Basics

  /** The most follow-up turns that one task is given. */
  const MAX_NUDGES := 2

  type Json = string

  datatype Status = Queued | Running | Done | Failed | Cancelled

  /** Why a task ended without a result (the `error` column, wording aside). */
  datatype Cause =
    | NoError
    | TurnNotRun          // its first turn was refused
    | TimedOut            // past its deadline
    | CallerCancelled
    | TurnCancelled       // someone stopped its turn
    | EndedWithoutResult  // its last follow-up turn ended too
    | NudgeFailed         // sending the next turn raised
    | FollowUpNotRun      // a follow-up turn was refused or had already ended

  datatype Task = Task(
    status: Status,
    result: Option<Json>,
    error: Cause,
    nudges: nat,
    turn: nat,
    deadline: Time,
    finishedAt: Option<Time>)

  predicate Open(t: Task) {
    t.status == Queued || t.status == Running
  }

  /** A turn: queued, held by a runner, ended (done, failed, lost, missed), or
      cancelled. */
  datatype TurnStatus = Waiting | Executing | Ended | Stopped

  predicate Over(t: TurnStatus) {
    t == Ended || t == Stopped
  }

  /** What `enqueue_turn` does for a key nobody holds yet: a queued turn, a turn the
      admission rules refuse on the spot, or an exception. */
  datatype Intake = Accepted | Refused | Raises

  /** A turn-end handler between two of its database statements. `ended` is the turn
      it was started for. */
  datatype Phase =
    | Start(ended: nat, stopped: bool)               // about to read the task
    | Check(ended: nat, stopped: bool, snap: Task)   // holds a copy, about to expire it
    | Enqueue(ended: nat, n: nat)                    // about to send follow-up n
    | Move(ended: nat, n: nat, turn: nat, dead: bool) // about to point the task at it
    | Fail(ended: nat, cause: Cause)                 // about to fail the task
    | Finished

  datatype State = State(
    task: Task,
    turns: seq<TurnStatus>,
    keys: map<nat, nat>,     // idempotency key: 0 for the first turn, n for nudge n
    handlers: seq<Phase>,
    clock: Time)

  datatype Action =
    | Advance(ticks: nat)
    | TurnStarts(t: nat)
    | TurnEnds(t: nat, stopped: bool)
    | Submit(result: Json)
    | Cancel
    | Expire
    | MarkRunning
    | Signal(t: nat)                                   // turn t's end is announced (again)
    | Handle(h: nat, livesOn: bool, intake: Intake)    // handler h's next statement

  // ---- single statements ----

  /** `_end`: ends a task that is still open, and leaves any other as it is. */
  function End(t: Task, status: Status, error: Cause, result: Option<Json>, now: Time): Task {
    if !Open(t) then t
    else t.(status := status, error := error, finishedAt := Some(now),
            result := if status == Done then result else t.result)
  }

  /** `enqueue_turn`, under nudge key `n`: the turn that holds the key, or a new one. */
  function EnqueueTurn(turns: seq<TurnStatus>, keys: map<nat, nat>, n: nat, intake: Intake)
    : (r: (seq<TurnStatus>, map<nat, nat>, nat))
    requires intake != Raises
  {
    if n in keys then (turns, keys, keys[n])
    else (turns + [if intake == Refused then Stopped else Waiting], keys[n := |turns|], |turns|)
  }

  /** The branch a handler takes once its copy of the task has survived `expire`. */
  function Decide(ended: nat, stopped: bool, snap: Task, livesOn: bool): Phase {
    if stopped then Fail(ended, TurnCancelled)
    else if livesOn then Finished
    else if snap.nudges >= MAX_NUDGES then Fail(ended, EndedWithoutResult)
    else Enqueue(ended, snap.nudges + 1)
  }

  predicate Known(s: State, t: nat) {
    t < |s.turns|
  }

  function HandlerStep(s: State, h: nat, livesOn: bool, intake: Intake): State
    requires h < |s.handlers|
  {
    match s.handlers[h]
    case Start(ended, stopped) =>
      if s.task.turn == ended && Open(s.task)
      then s.(handlers := s.handlers[h := Check(ended, stopped, s.task)])
      else s.(handlers := s.handlers[h := Finished])
    case Check(ended, stopped, snap) =>
      if snap.deadline > s.clock
      then s.(handlers := s.handlers[h := Decide(ended, stopped, snap, livesOn)])
      else if Open(s.task)
      then s.(task := End(s.task, Failed, TimedOut, None, s.clock),
              handlers := s.handlers[h := Finished])
      else s.(handlers := s.handlers[h := Decide(ended, stopped, s.task, livesOn)])
    case Enqueue(ended, n) =>
      if intake == Raises
      then s.(handlers := s.handlers[h := Fail(ended, NudgeFailed)])
      else
        var (turns, keys, t) := EnqueueTurn(s.turns, s.keys, n, intake);
        var dead := t < |turns| && Over(turns[t]);
        s.(turns := turns, keys := keys, handlers := s.handlers[h := Move(ended, n, t, dead)])
    case Move(ended, n, t, dead) =>
      if Open(s.task) && s.task.turn == ended
      then s.(task := s.task.(nudges := n, turn := t),
              handlers := s.handlers[h := if dead then Fail(ended, FollowUpNotRun) else Finished])
      else s.(handlers := s.handlers[h := Finished])
    case Fail(ended, cause) =>
      s.(task := End(s.task, Failed, cause, None, s.clock), handlers := s.handlers[h := Finished])
    case Finished => s
  }

  /** One atomic step. A step that does not apply changes nothing. */
  function Step(s: State, a: Action, accepts: Json -> bool): State {
    match a
    case Advance(ticks) => s.(clock := s.clock + ticks)
    case TurnStarts(t) =>
      if Known(s, t) && s.turns[t] == Waiting then s.(turns := s.turns[t := Executing]) else s
    case TurnEnds(t, stopped) =>
      if Known(s, t) && !Over(s.turns[t])
      then s.(turns := s.turns[t := if stopped then Stopped else Ended]) else s
    case Submit(result) =>
      if accepts(result) then s.(task := End(s.task, Done, NoError, Some(result), s.clock)) else s
    case Cancel => s.(task := End(s.task, Cancelled, CallerCancelled, None, s.clock))
    case Expire =>
      if s.task.deadline <= s.clock
      then s.(task := End(s.task, Failed, TimedOut, None, s.clock)) else s
    case MarkRunning =>
      if s.task.status == Queued then s.(task := s.task.(status := Running)) else s
    case Signal(t) =>
      if Known(s, t) && Over(s.turns[t])
      then s.(handlers := s.handlers + [Start(t, s.turns[t] == Stopped)]) else s
    case Handle(h, livesOn, intake) =>
      if h < |s.handlers| then HandlerStep(s, h, livesOn, intake) else s
  }

  /** `create`, one transaction: the task and its first turn; a refused turn fails
      the task at once. */
  function Created(now: Time, timeout: nat, refused: bool): State {
    var turn := if refused then Stopped else Waiting;
    var task := Task(Queued, None, NoError, 0, 0, now + timeout, None);
    State(
      if refused then task.(status := Failed, error := TurnNotRun, finishedAt := Some(now)) else task,
      [turn], map[0 := 0], [], now)
  }

  function Run(s: State, actions: seq<Action>, accepts: Json -> bool): State
    decreases |actions|
  {
    if actions == [] then s else Run(Step(s, actions[0], accepts), actions[1..], accepts)
  }

  // ---- what every interleaving keeps ----

  /** The row on its own: finished exactly when ended, and done exactly when it
      holds a result, which then satisfies the schema. */
  ghost predicate RowOk(t: Task, accepts: Json -> bool) {
    && (Open(t) <==> t.finishedAt.None?)
    && (t.status == Done <==> t.result.Some?)
    && (t.result.Some? ==> accepts(t.result.value))
    && (t.status == Failed ==> t.error != NoError)
  }

  /** The turns: one per key, numbered by it; the task points at the newest or the
      one before; every turn before the current one ended, not cancelled. */
  ghost predicate TurnsOk(s: State) {
    && s.task.nudges <= MAX_NUDGES
    && s.task.turn == s.task.nudges
    && s.task.nudges < |s.turns| <= s.task.nudges + 2
    && |s.turns| <= MAX_NUDGES + 1
    && (forall n: nat :: n in s.keys <==> n < |s.turns|)
    && (forall n: nat :: n in s.keys ==> s.keys[n] == n)
    && (forall n: nat :: n < s.task.nudges ==> s.turns[n] == Ended)
  }

  /** A handler that has decided to send follow-up `n` after turn `ended`. */
  ghost predicate NudgeOk(s: State, ended: nat, n: nat) {
    && ended < |s.turns| && s.turns[ended] == Ended
    && 1 <= n <= MAX_NUDGES
    && n <= s.task.nudges + 1
    && (Open(s.task) ==> ended == n - 1)
  }

  ghost predicate HandlerOk(s: State, p: Phase) {
    match p
    case Start(ended, stopped) =>
      ended < |s.turns| && Over(s.turns[ended]) && (stopped <==> s.turns[ended] == Stopped)
    case Check(ended, stopped, snap) =>
      && ended < |s.turns| && Over(s.turns[ended]) && (stopped <==> s.turns[ended] == Stopped)
      && snap.nudges == ended && snap.nudges <= s.task.nudges && snap.deadline == s.task.deadline
    case Enqueue(ended, n) => NudgeOk(s, ended, n)
    case Move(ended, n, t, dead) => NudgeOk(s, ended, n) && n < |s.turns| && t == n
    case Fail(ended, cause) =>
      && cause in {TurnCancelled, EndedWithoutResult, NudgeFailed, FollowUpNotRun}
      && (cause == TurnCancelled ==> ended < |s.turns| && s.turns[ended] == Stopped && (Open(s.task) ==> ended == s.task.turn))
      && (cause == EndedWithoutResult ==> Open(s.task) ==> ended == s.task.turn == MAX_NUDGES)
    case Finished => true
  }

  ghost predicate Inv(s: State, accepts: Json -> bool) {
    && RowOk(s.task, accepts)
    && TurnsOk(s)
    && (forall h :: 0 <= h < |s.handlers| ==> HandlerOk(s, s.handlers[h]))
  }

  lemma CreatedInv(now: Time, timeout: nat, refused: bool, accepts: Json -> bool)
    ensures Inv(Created(now, timeout, refused), accepts)
  {
  }

  /** How one step may change what handlers rely on. */
  ghost predicate Forward(s: State, r: State) {
    && s.task.nudges <= r.task.nudges
    && s.task.deadline == r.task.deadline
    && |s.turns| <= |r.turns|
    && (forall t :: 0 <= t < |s.turns| && Over(s.turns[t]) ==> r.turns[t] == s.turns[t])
    && (Open(r.task) ==> Open(s.task))
    && (!Open(s.task) ==> r.task == s.task)
  }

  lemma HandlerStaysOk(s: State, r: State, p: Phase, accepts: Json -> bool)
    requires Inv(s, accepts) && TurnsOk(r) && Forward(s, r) && HandlerOk(s, p)
    ensures HandlerOk(r, p)
  {
  }

  lemma EnqueueKeeps(s: State, r: State, ended: nat, n: nat, t: nat, intake: Intake, accepts: Json -> bool)
    requires Inv(s, accepts) && NudgeOk(s, ended, n) && intake != Raises
    requires r.task == s.task && (r.turns, r.keys, t) == EnqueueTurn(s.turns, s.keys, n, intake)
    ensures t == n && n < |r.turns| && TurnsOk(r) && Forward(s, r) && NudgeOk(r, ended, n)
  {
  }

  lemma MoveKeeps(s: State, r: State, ended: nat, n: nat, accepts: Json -> bool)
    requires Inv(s, accepts) && NudgeOk(s, ended, n) && n < |s.turns|
    requires Open(s.task) && s.task.turn == ended
    requires r.task == s.task.(nudges := n, turn := n) && r.turns == s.turns && r.keys == s.keys
    ensures RowOk(r.task, accepts) && TurnsOk(r) && Forward(s, r)
  {
  }

  lemma FailKeeps(s: State, r: State, cause: Cause, accepts: Json -> bool)
    requires Inv(s, accepts) && cause != NoError
    requires r.task == End(s.task, Failed, cause, None, s.clock) && r.turns == s.turns && r.keys == s.keys
    ensures RowOk(r.task, accepts) && TurnsOk(r) && Forward(s, r)
  {
  }

  lemma HandlerStepKeepsRows(s: State, h: nat, livesOn: bool, intake: Intake, accepts: Json -> bool)
    requires Inv(s, accepts) && h < |s.handlers|
    ensures var r := HandlerStep(s, h, livesOn, intake);
            RowOk(r.task, accepts) && TurnsOk(r) && Forward(s, r)
  {
    assert HandlerOk(s, s.handlers[h]);
    var r := HandlerStep(s, h, livesOn, intake);
    match s.handlers[h]
    case Check(_, _, snap) =>
      if snap.deadline <= s.clock {
        FailKeeps(s, r, TimedOut, accepts);
      }
    case Enqueue(ended, n) =>
      if intake != Raises {
        EnqueueKeeps(s, r, ended, n, r.handlers[h].turn, intake, accepts);
      }
    case Move(ended, n, t, dead) =>
      if Open(s.task) && s.task.turn == ended {
        MoveKeeps(s, r, ended, n, accepts);
      }
    case Fail(_, cause) =>
      FailKeeps(s, r, cause, accepts);
    case _ =>
  }

  lemma DecideOk(s: State, r: State, ended: nat, stopped: bool, snap: Task, livesOn: bool, accepts: Json -> bool)
    requires Inv(s, accepts) && ended < |s.turns| && Over(s.turns[ended])
    requires stopped <==> s.turns[ended] == Stopped
    requires (snap == s.task && !Open(s.task)) || (snap.nudges == ended <= s.task.nudges)
    requires r.task == s.task && r.turns == s.turns
    ensures HandlerOk(r, Decide(ended, stopped, snap, livesOn))
  {
  }

  lemma OnlyItsPhase(s: State, h: nat, livesOn: bool, intake: Intake)
    requires h < |s.handlers|
    ensures var r := HandlerStep(s, h, livesOn, intake);
            r.handlers == s.handlers[h := r.handlers[h]]
  {
  }

  lemma NextPhaseOk(s: State, h: nat, livesOn: bool, intake: Intake, accepts: Json -> bool)
    requires Inv(s, accepts) && h < |s.handlers|
    ensures var r := HandlerStep(s, h, livesOn, intake);
            HandlerOk(r, r.handlers[h])
  {
    var r := HandlerStep(s, h, livesOn, intake);
    assert HandlerOk(s, s.handlers[h]);
    match s.handlers[h]
    case Check(ended, stopped, snap) =>
      if snap.deadline > s.clock {
        DecideOk(s, r, ended, stopped, snap, livesOn, accepts);
      } else if !Open(s.task) {
        DecideOk(s, r, ended, stopped, s.task, livesOn, accepts);
      }
    case Enqueue(ended, n) =>
      if intake != Raises {
        EnqueueKeeps(s, r, ended, n, r.handlers[h].turn, intake, accepts);
      }
    case _ =>
  }

  lemma HandlersStayOk(s: State, r: State, accepts: Json -> bool)
    requires Inv(s, accepts) && TurnsOk(r) && Forward(s, r)
    requires forall i :: 0 <= i < |r.handlers| && !(i < |s.handlers| && r.handlers[i] == s.handlers[i]) ==>
                           HandlerOk(r, r.handlers[i])
    ensures forall i :: 0 <= i < |r.handlers| ==> HandlerOk(r, r.handlers[i])
  {
    forall i | 0 <= i < |r.handlers| ensures HandlerOk(r, r.handlers[i]) {
      if i < |s.handlers| && r.handlers[i] == s.handlers[i] {
        HandlerStaysOk(s, r, s.handlers[i], accepts);
      }
    }
  }

  /** The statements of the task's own rows: everything but the handlers'. */
  lemma RowStepKeeps(s: State, a: Action, accepts: Json -> bool)
    requires Inv(s, accepts) && !a.Handle?
    ensures var r := Step(s, a, accepts);
            RowOk(r.task, accepts) && TurnsOk(r) && Forward(s, r)
  {
  }

  lemma StepKeeps(s: State, a: Action, accepts: Json -> bool)
    requires Inv(s, accepts)
    ensures Inv(Step(s, a, accepts), accepts)
    ensures Forward(s, Step(s, a, accepts))
  {
    if a.Handle? {
      if a.h < |s.handlers| {
        HandlerStepKeepsRows(s, a.h, a.livesOn, a.intake, accepts);
        OnlyItsPhase(s, a.h, a.livesOn, a.intake);
        NextPhaseOk(s, a.h, a.livesOn, a.intake, accepts);
      }
    } else {
      RowStepKeeps(s, a, accepts);
    }
    HandlersStayOk(s, Step(s, a, accepts), accepts);
  }

  lemma {:induction false} RunKeeps(s: State, actions: seq<Action>, accepts: Json -> bool)
    requires Inv(s, accepts)
    ensures Inv(Run(s, actions, accepts), accepts)
    ensures Forward(s, Run(s, actions, accepts))
    decreases |actions|
  {
    if actions != [] {
      StepKeeps(s, actions[0], accepts);
      RunKeeps(Step(s, actions[0], accepts), actions[1..], accepts);
    }
  }

  // ---- theorems over whole runs ----

  /** Under every interleaving, a task never has more than MAX_NUDGES + 1 turns: one
      per key, each made once, and its nudge count is the key of its current turn. */
  lemma AtMostThreeTurns(now: Time, timeout: nat, refused: bool, actions: seq<Action>, accepts: Json -> bool)
    ensures var s := Run(Created(now, timeout, refused), actions, accepts);
            && |s.turns| <= MAX_NUDGES + 1
            && (forall n: nat :: n in s.keys <==> n < |s.turns|)
            && (forall n: nat :: n in s.keys ==> s.keys[n] == n)
            && s.task.nudges in s.keys && s.task.turn == s.keys[s.task.nudges]
            && (forall n: nat :: n < s.task.nudges ==> s.turns[n] == Ended)
  {
    CreatedInv(now, timeout, refused, accepts);
    RunKeeps(Created(now, timeout, refused), actions, accepts);
  }

  /** A task is done only with a result its schema accepts, holds a result only when
      done, and is finished exactly when it has ended; and whatever it was when it
      ended (its first accepted result included) it stays for ever. */
  lemma EndedForGood(now: Time, timeout: nat, refused: bool, actions: seq<Action>, later: seq<Action>, accepts: Json -> bool)
    ensures var s := Run(Created(now, timeout, refused), actions, accepts);
            && RowOk(s.task, accepts)
            && (!Open(s.task) ==> Run(s, later, accepts).task == s.task)
  {
    CreatedInv(now, timeout, refused, accepts);
    RunKeeps(Created(now, timeout, refused), actions, accepts);
    RunKeeps(Run(Created(now, timeout, refused), actions, accepts), later, accepts);
  }

  /** The turn pointer only moves on: a turn it has left is never its turn again. */
  lemma TurnNeverRepeats(s: State, actions: seq<Action>, later: seq<Action>, accepts: Json -> bool)
    requires Inv(s, accepts)
    ensures var r := Run(s, actions, accepts);
            s.task.turn != r.task.turn ==> Run(r, later, accepts).task.turn != s.task.turn
  {
    RunKeeps(s, actions, accepts);
    RunKeeps(Run(s, actions, accepts), later, accepts);
  }

  // ---- one handler with nothing in between ----

  /** The next `k` statements of handler `h`. */
  function Drive(s: State, h: nat, livesOn: bool, intake: Intake, k: nat): (r: State)
    requires h < |s.handlers|
    decreases k
  {
    if k == 0 then s
    else
      var r := HandlerStep(s, h, livesOn, intake);
      assert |r.handlers| == |s.handlers|;
      Drive(r, h, livesOn, intake, k - 1)
  }

  /** `on_turn_ended(t)` run from start to end with no other step between. */
  function OnTurnEndedAlone(s: State, t: nat, livesOn: bool, intake: Intake): State
    requires Known(s, t)
  {
    var started := s.(handlers := s.handlers + [Start(t, s.turns[t] == Stopped)]);
    Drive(started, |s.handlers|, livesOn, intake, 5)
  }

  lemma AloneIsFiveSteps(s: State, t: nat, livesOn: bool, intake: Intake)
    requires Known(s, t)
    ensures var h := |s.handlers|;
            var s0 := s.(handlers := s.handlers + [Start(t, s.turns[t] == Stopped)]);
            var s1 := HandlerStep(s0, h, livesOn, intake);
            && |s1.handlers| == h + 1
            && var s2 := HandlerStep(s1, h, livesOn, intake);
            && |s2.handlers| == h + 1
            && var s3 := HandlerStep(s2, h, livesOn, intake);
            && |s3.handlers| == h + 1
            && var s4 := HandlerStep(s3, h, livesOn, intake);
            && |s4.handlers| == h + 1
            && OnTurnEndedAlone(s, t, livesOn, intake) == HandlerStep(s4, h, livesOn, intake)
  {
  }

  lemma DriveThree(s: State, h: nat, livesOn: bool, intake: Intake)
    requires h < |s.handlers|
    ensures var s1 := HandlerStep(s, h, livesOn, intake);
            && |s1.handlers| == |s.handlers|
            && var s2 := HandlerStep(s1, h, livesOn, intake);
            && |s2.handlers| == |s.handlers|
            && Drive(s, h, livesOn, intake, 3) == HandlerStep(s2, h, livesOn, intake)
  {
  }

  /** The handler's read and decision, alone. */
  function Decided(s: State, t: nat, livesOn: bool): (r: State)
    requires Known(s, t)
    ensures |r.handlers| == 1
  {
    var s1 := HandlerStep(s.(handlers := [Start(t, s.turns[t] == Stopped)]), 0, livesOn, Accepted);
    HandlerStep(s1, 0, livesOn, Accepted)
  }

  /** ...and then three more statements at most. */
  lemma AloneThenThree(s: State, t: nat, livesOn: bool, intake: Intake)
    requires Known(s, t) && s.handlers == []
    ensures OnTurnEndedAlone(s, t, livesOn, intake) == Drive(Decided(s, t, livesOn), 0, livesOn, intake, 3)
  {
    var s0 := s.(handlers := [Start(t, s.turns[t] == Stopped)]);
    assert s.handlers + [Start(t, s.turns[t] == Stopped)] == s0.handlers;
    var s1 := HandlerStep(s0, 0, livesOn, intake);
    assert s1 == HandlerStep(s0, 0, livesOn, Accepted);
    assert Drive(s0, 0, livesOn, intake, 5) == Drive(s1, 0, livesOn, intake, 4);
  }

  lemma OtherTurnIsIgnored(s: State, t: nat, livesOn: bool, intake: Intake)
    requires Known(s, t) && t != s.task.turn
    ensures var r := OnTurnEndedAlone(s, t, livesOn, intake);
            r.task == s.task && r.turns == s.turns
  {
    AloneIsFiveSteps(s, t, livesOn, intake);
  }

  lemma EndedTaskIsLeft(s: State, t: nat, livesOn: bool, intake: Intake, accepts: Json -> bool)
    requires Inv(s, accepts) && Known(s, t) && Over(s.turns[t])
    requires !Open(s.task) || (t == s.task.turn && s.task.deadline <= s.clock)
    ensures var r := OnTurnEndedAlone(s, t, livesOn, intake);
            !Open(r.task) && r.task.nudges == s.task.nudges
  {
    AloneIsFiveSteps(s, t, livesOn, intake);
  }

  lemma CurrentTurnIsFollowedUp(s: State, t: nat, livesOn: bool, intake: Intake, accepts: Json -> bool)
    requires Inv(s, accepts) && Known(s, t) && Over(s.turns[t]) && t == s.task.turn
    ensures var r := OnTurnEndedAlone(s, t, livesOn, intake);
            && (!livesOn ==> !Open(r.task) || (r.task.turn < |r.turns| && !Over(r.turns[r.task.turn])))
            && r.task.nudges <= s.task.nudges + 1
  {
    if !Open(s.task) || s.task.deadline <= s.clock {
      EndedTaskIsLeft(s, t, livesOn, intake, accepts);
    } else {
      AloneIsFiveSteps(s, t, livesOn, intake);
    }
  }

  /** A handler that is not interrupted follows its turn up: unless the session
      lives on, the task has ended or has a turn that is not over. For any turn but
      the task's current one it does nothing. */
  lemma FollowedUp(s: State, t: nat, livesOn: bool, intake: Intake, accepts: Json -> bool)
    requires Inv(s, accepts) && Known(s, t) && Over(s.turns[t])
    ensures var r := OnTurnEndedAlone(s, t, livesOn, intake);
            && (t != s.task.turn ==> r.task == s.task && r.turns == s.turns)
            && (t == s.task.turn && !livesOn ==>
                  !Open(r.task) || (r.task.turn < |r.turns| && !Over(r.turns[r.task.turn])))
            && r.task.nudges <= s.task.nudges + 1
  {
    if t == s.task.turn {
      CurrentTurnIsFollowedUp(s, t, livesOn, intake, accepts);
    } else {
      OtherTurnIsIgnored(s, t, livesOn, intake);
    }
  }

  // ---- what an uninterrupted handler answers, case by case ----

  /** The task as failed now, for this reason. */
  function FailedNow(t: Task, cause: Cause, now: Time): Task {
    t.(status := Failed, error := cause, finishedAt := Some(now))
  }

  /** Every case of an uninterrupted handler for a turn that is over. */
  lemma HandlerAnswers(s: State, t: nat, livesOn: bool, intake: Intake)
    requires Known(s, t) && Over(s.turns[t])
    ensures var r := OnTurnEndedAlone(s, t, livesOn, intake);
            && r.handlers == s.handlers + [Finished] && r.clock == s.clock
            && var n := s.task.nudges + 1;
            if t != s.task.turn || !Open(s.task) then
              r.task == s.task && r.turns == s.turns && r.keys == s.keys
            else if s.clock >= s.task.deadline then
              r.task == FailedNow(s.task, TimedOut, s.clock) && r.turns == s.turns && r.keys == s.keys
            else if s.turns[t] == Stopped then
              r.task == FailedNow(s.task, TurnCancelled, s.clock) && r.turns == s.turns && r.keys == s.keys
            else if livesOn then
              r.task == s.task && r.turns == s.turns && r.keys == s.keys
            else if s.task.nudges >= 2 then
              r.task == FailedNow(s.task, EndedWithoutResult, s.clock) && r.turns == s.turns && r.keys == s.keys
            else if intake == Raises then
              r.task == FailedNow(s.task, NudgeFailed, s.clock) && r.turns == s.turns && r.keys == s.keys
            else
              var moved := s.task.(nudges := n, turn := if n in s.keys then s.keys[n] else |s.turns|);
              && r.keys == (if n in s.keys then s.keys else s.keys[n := |s.turns|])
              && r.turns == (if n in s.keys then s.turns else s.turns + [if intake == Refused then Stopped else Waiting])
              && r.task == if moved.turn < |r.turns| && r.turns[moved.turn] in {Ended, Stopped}
                           then FailedNow(moved, FollowUpNotRun, s.clock) else moved
  {
    AloneIsFiveSteps(s, t, livesOn, intake);
  }

  // ---- the service, statement by statement on the rows it updates ----

  class TaskStore {
    var task: Task
    var turns: seq<TurnStatus>
    var keys: map<nat, nat>
    var clock: Time
    const accepts: Json -> bool

    ghost function Rows(): State
      reads this
    {
      State(task, turns, keys, [], clock)
    }

    constructor Create(now: Time, timeout: nat, refused: bool, accepts: Json -> bool)
      ensures Rows() == Created(now, timeout, refused) && this.accepts == accepts
      ensures Inv(Rows(), accepts)
    {
      this.accepts := accepts;
      clock := now;
      turns := [if refused then Stopped else Waiting];
      keys := map[0 := 0];
      task := Task(if refused then Failed else Queued, None, if refused then TurnNotRun else NoError,
                   0, 0, now + timeout, if refused then Some(now) else None);
    }

    /** `_end`, reporting whether this call is the one that ended the task. */
    method EndTask(status: Status, error: Cause, result: Option<Json>) returns (moved: bool)
      modifies this`task
      ensures moved <==> old(Open(task))
      ensures task == End(old(task), status, error, result, clock)
    {
      moved := Open(task);
      if moved {
        task := task.(status := status, finishedAt := Some(clock), error := error);
        if status == Done {
          task := task.(result := result);
        }
      }
    }

    /** Takes the task's turn off the queue if it is still on it. */
    method DropQueuedTurn()
      modifies this`turns
      ensures task.turn < |old(turns)| && old(turns)[task.turn] == Waiting
              ==> turns == old(turns)[task.turn := Stopped]
      ensures !(task.turn < |old(turns)| && old(turns)[task.turn] == Waiting) ==> turns == old(turns)
    {
      if task.turn < |turns| && turns[task.turn] == Waiting {
        turns := turns[task.turn := Stopped];
      }
    }

    /** Accept a valid result. False lists errors and leaves the task as it was. */
    method SubmitResult(result: Json) returns (valid: bool)
      modifies this`task
      ensures valid <==> accepts(result)
      ensures Rows() == Step(old(Rows()), Submit(result), accepts)
    {
      valid := accepts(result);
      if valid {
        var _ := EndTask(Done, NoError, Some(result));
      }
    }

    method CancelTask()
      requires Inv(Rows(), accepts)
      modifies this`task, this`turns
      ensures var cancelled := Step(old(Rows()), Cancel, accepts);
              Rows() == if old(Open(task)) && old(turns)[old(task.turn)] == Waiting
                        then Step(cancelled, TurnEnds(old(task.turn), true), accepts) else cancelled
    {
      var moved := EndTask(Cancelled, CallerCancelled, None);
      if moved {
        DropQueuedTurn();
      }
    }

    /** `expire`: an open task is timed out once its deadline is reached. */
    method ExpireTask() returns (expired: bool)
      requires Inv(Rows(), accepts)
      modifies this`task, this`turns
      ensures expired <==> old(Open(task)) && task.deadline <= clock
      ensures var failed := Step(old(Rows()), Expire, accepts);
              Rows() == if expired && old(turns)[old(task.turn)] == Waiting
                        then Step(failed, TurnEnds(old(task.turn), true), accepts) else failed
    {
      if !Open(task) || task.deadline > clock {
        return false;
      }
      expired := EndTask(Failed, TimedOut, None);
      if expired {
        DropQueuedTurn();
      }
    }

    method MarkTaskRunning()
      modifies this`task
      ensures Rows() == Step(old(Rows()), MarkRunning, accepts)
    {
      if task.status == Queued {
        task := task.(status := Running);
      }
    }

    /** `enqueue_turn` under a nudge key; None when it raises. */
    method SendNudge(n: nat, intake: Intake) returns (t: Option<nat>)
      modifies this`turns, this`keys
      ensures t.None? <==> intake == Raises
      ensures intake == Raises ==> turns == old(turns) && keys == old(keys)
      ensures intake != Raises ==> (turns, keys, t.value) == EnqueueTurn(old(turns), old(keys), n, intake)
    {
      if intake == Raises {
        return None;
      }
      if n in keys {
        return Some(keys[n]);
      }
      t := Some(|turns|);
      keys := keys[n := |turns|];
      turns := turns + [if intake == Refused then Stopped else Waiting];
    }

    /** `_nudge`: send the next follow-up turn and point the task at it. */
    method Nudge(ended: nat, n: nat, intake: Intake, ghost livesOn: bool)
      modifies this`task, this`turns, this`keys
      ensures Rows() == Drive(old(Rows()).(handlers := [Enqueue(ended, n)]), 0, livesOn, intake, 3).(handlers := [])
    {
      DriveThree(Rows().(handlers := [Enqueue(ended, n)]), 0, livesOn, intake);
      var sent := SendNudge(n, intake);
      if sent.None? {
        var _ := EndTask(Failed, NudgeFailed, None);
        return;
      }
      var turn := sent.value;
      var dead := turn < |turns| && Over(turns[turn]);
      if Open(task) && task.turn == ended {
        task := task.(nudges := n, turn := turn);
        if dead {
          var _ := EndTask(Failed, FollowUpNotRun, None);
        }
      }
    }

    /** The first half of `on_turn_ended`: read the task, expire it, decide. */
    method ReadAndDecide(ended: nat, livesOn: bool) returns (next: Phase)
      requires Inv(Rows(), accepts) && ended < |turns| && Over(turns[ended])
      modifies this`task, this`turns
      ensures Rows().(handlers := [next]) == Decided(old(Rows()), ended, livesOn)
      ensures next.Finished? || next.Fail? || next.Enqueue?
    {
      if task.turn != ended || !Open(task) {
        return Finished;
      }
      var expired := ExpireTask();
      if expired {
        return Finished;
      }
      next := Decide(ended, turns[ended] == Stopped, task, livesOn);
    }

    /** `on_turn_ended`, with nothing else running meanwhile: the same rows that the
        handler's own statements leave. */
    method OnTurnEnded(ended: nat, livesOn: bool, intake: Intake)
      requires Inv(Rows(), accepts) && ended < |turns| && Over(turns[ended])
      modifies this`task, this`turns, this`keys
      ensures Rows() == OnTurnEndedAlone(old(Rows()), ended, livesOn, intake).(handlers := [])
    {
      AloneThenThree(Rows(), ended, livesOn, intake);
      var next := ReadAndDecide(ended, livesOn);
      DriveThree(Rows().(handlers := [next]), 0, livesOn, intake);
      match next
      case Fail(_, cause) => var _ := EndTask(Failed, cause, None);
      case Enqueue(_, n) => Nudge(ended, n, intake, livesOn);
      case Finished =>
    }
  }

  // ---- the tick over every task ----

  /** How many tasks one tick takes on. */
  const PER_TICK := 500

  predicate Overdue(t: Task, now: Time) {
    Open(t) && t.deadline <= now
  }

  /** A task with the status of the turn it points at. */
  datatype Row = Row(task: Task, turn: TurnStatus)

  function CountOverdue(rows: seq<Row>, now: Time): nat {
    if rows == [] then 0
    else CountOverdue(rows[..|rows| - 1], now) + (if Overdue(rows[|rows| - 1].task, now) then 1 else 0)
  }

  /** Failed for its deadline, its turn dropped if nobody had started it. */
  function TimedOutRow(row: Row, now: Time): Row {
    Row(End(row.task, Failed, TimedOut, None, now), if row.turn == Waiting then Stopped else row.turn)
  }

  /** What one tick leaves of a table: the first overdue tasks, up to the limit, timed out. */
  function Ticked(rows: seq<Row>, now: Time): (r: seq<Row>)
    ensures |r| == |rows|
  {
    seq(|rows|, i requires 0 <= i < |rows| =>
      if Overdue(rows[i].task, now) && CountOverdue(rows[..i], now) < PER_TICK then TimedOutRow(rows[i], now) else rows[i])
  }

  class TaskTable {
    var rows: seq<Row>

    constructor (rows: seq<Row>)
      ensures this.rows == rows
    {
      this.rows := rows;
    }

    /** `expire_overdue`: fail the first 500 open tasks past their deadline, and drop their
        turns that are still queued. */
    method ExpireOverdue(now: Time) returns (n: nat)
      modifies this
      ensures rows == Ticked(old(rows), now)
      ensures n == if CountOverdue(old(rows), now) < 500 then CountOverdue(old(rows), now) else 500
    {
      n := 0;
      for k := 0 to |rows|
        invariant |rows| == |old(rows)|
        invariant n == if CountOverdue(old(rows)[..k], now) < PER_TICK then CountOverdue(old(rows)[..k], now) else PER_TICK
        invariant forall i :: k <= i < |rows| ==> rows[i] == old(rows)[i]
        invariant forall i :: 0 <= i < k ==>
                    rows[i] == if Overdue(old(rows)[i].task, now) && CountOverdue(old(rows)[..i], now) < PER_TICK
                               then TimedOutRow(old(rows)[i], now) else old(rows)[i]
      {
        assert old(rows)[..k + 1][..k] == old(rows)[..k];
        if Overdue(rows[k].task, now) && n < PER_TICK {
          var turn := if rows[k].turn == Waiting then Stopped else rows[k].turn;
          rows := rows[k := Row(End(rows[k].task, Failed, TimedOut, None, now), turn)];
          n := n + 1;
        }
      }
      assert old(rows)[..|rows|] == old(rows);
      assert rows == Ticked(old(rows), now);
    }
  }

  /** The tick takes a task for overdue exactly when the protocol's expiry would end it, and
      leaves it as that does. */
  lemma TickIsExpiry(s: State, row: Row, accepts: Json -> bool)
    requires row.task == s.task && (row.task.finishedAt.None? <==> Open(row.task))
    ensures Overdue(row.task, s.clock) <==> s.task.finishedAt == None && s.task.deadline <= s.clock
    ensures Overdue(row.task, s.clock) <==> Step(s, Expire, accepts).task != s.task
    ensures Overdue(row.task, s.clock) ==> TimedOutRow(row, s.clock).task == Step(s, Expire, accepts).task
  {
  }

  lemma {:induction false} TickedCount(rows: seq<Row>, k: nat, now: Time)
    requires k <= |rows|
    ensures CountOverdue(Ticked(rows, now)[..k], now) ==
            if CountOverdue(rows[..k], now) < PER_TICK then 0 else CountOverdue(rows[..k], now) - PER_TICK
  {
    if k > 0 {
      TickedCount(rows, k - 1, now);
      assert rows[..k][..k - 1] == rows[..k - 1];
      assert Ticked(rows, now)[..k][..k - 1] == Ticked(rows, now)[..k - 1];
    } else {
      assert rows[..0] == [] && Ticked(rows, now)[..0] == [];
    }
  }

  /** A tick takes 500 off the backlog, or all of it: with as many ticks as it has
      five-hundreds no overdue task is left open. */
  lemma TickShrinksBacklog(rows: seq<Row>, now: Time)
    ensures CountOverdue(Ticked(rows, now), now) ==
            if CountOverdue(rows, now) < 500 then 0 else CountOverdue(rows, now) - 500
  {
    TickedCount(rows, |rows|, now);
    assert rows[..|rows|] == rows && Ticked(rows, now)[..|rows|] == Ticked(rows, now);
  }
}
