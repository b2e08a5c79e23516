/** What handlers of one agent task do to it over whole runs: those left behind, those
    whose turn's end nobody hears, and those that send a turn for a task that has ended. */
module TaskRuns {
  import opened Basics
  import opened AgentTasks

  lemma {:induction false} ClockGrows(s: State, actions: seq<Action>, accepts: Json -> bool)
    ensures s.clock <= Run(s, actions, accepts).clock
    decreases |actions|
  {
    if actions != [] {
      ClockGrows(Step(s, actions[0], accepts), actions[1..], accepts);
    }
  }

  /** One action more at the end of a run. */
  lemma {:induction false} Then(s: State, actions: seq<Action>, a: Action, accepts: Json -> bool) returns (longer: seq<Action>)
    ensures longer == actions + [a]
    ensures Run(s, longer, accepts) == Step(Run(s, actions, accepts), a, accepts)
    decreases |actions|
  {
    longer := actions + [a];
    if actions == [] {
      assert longer[1..] == [];
    } else {
      var tail := Then(Step(s, actions[0], accepts), actions[1..], a, accepts);
      assert longer[1..] == tail;
    }
  }

  // ---- handlers left behind ----

  /** Handler `h` is done, or was started for a turn that the task has left, or the task has
      ended. */
  ghost predicate Stale(s: State, h: nat) {
    h < |s.handlers| && (s.handlers[h].Finished? || s.handlers[h].ended < s.task.turn || !Open(s.task))
  }

  /** Some statement of `h` in these actions changes the task. */
  ghost predicate Touches(s: State, h: nat, actions: seq<Action>, accepts: Json -> bool)
    decreases |actions|
  {
    actions != []
    && ((actions[0].Handle? && actions[0].h == h && Step(s, actions[0], accepts).task != s.task)
        || Touches(Step(s, actions[0], accepts), h, actions[1..], accepts))
  }

  /** No step of `h` in these actions has its enqueue raise. */
  predicate NeverRaises(h: nat, actions: seq<Action>) {
    forall i :: 0 <= i < |actions| && actions[i].Handle? && actions[i].h == h ==> actions[i].intake != Raises
  }

  /** The actions end before the task's deadline. */
  ghost predicate InTime(s: State, actions: seq<Action>, accepts: Json -> bool) {
    Run(s, actions, accepts).clock < s.task.deadline
  }

  /** Continuations in which `h`'s enqueue raises, or which reach the deadline, count only
      if asked for. */
  ghost predicate Allowed(s: State, h: nat, actions: seq<Action>, raises: bool, late: bool, accepts: Json -> bool) {
    (raises || NeverRaises(h, actions)) && (late || InTime(s, actions, accepts))
  }

  /** The phases from which a left-behind handler cannot reach the task. */
  predicate Harmless(p: Phase, raises: bool, late: bool) {
    match p
    case Start(_, _) => true
    case Check(_, _, _) => !raises && !late
    case Enqueue(_, _) => !raises
    case Move(_, _, _, _) => true
    case Fail(_, _) => false
    case Finished => true
  }

  /** Exactly which steps of a handler change a task that has moved on from the turn
      it was started for: the deadline, which is the task's own, and the two failures
      whose update is guarded on the task being open but not on its turn. */
  lemma HandlerReach(s: State, h: nat, livesOn: bool, intake: Intake, accepts: Json -> bool)
    requires Inv(s, accepts) && h < |s.handlers| && !s.handlers[h].Finished?
    requires s.handlers[h].ended != s.task.turn
    ensures HandlerStep(s, h, livesOn, intake).task != s.task <==>
            && Open(s.task)
            && ((s.handlers[h].Check? && s.task.deadline <= s.clock)
                || (s.handlers[h].Fail? && s.handlers[h].cause in {NudgeFailed, FollowUpNotRun}))
  {
  }

  lemma StaleStays(s: State, h: nat, a: Action, accepts: Json -> bool)
    requires Inv(s, accepts) && Stale(s, h)
    ensures Stale(Step(s, a, accepts), h)
  {
    StepKeeps(s, a, accepts);
    assert HandlerOk(s, s.handlers[h]);
  }

  lemma HarmlessStep(s: State, h: nat, a: Action, raises: bool, late: bool, accepts: Json -> bool)
    requires Inv(s, accepts) && Stale(s, h) && Open(s.task) && Harmless(s.handlers[h], raises, late)
    requires a.Handle? && a.h == h && !raises ==> a.intake != Raises
    requires late || s.clock < s.task.deadline
    ensures Harmless(Step(s, a, accepts).handlers[h], raises, late)
    ensures a.Handle? && a.h == h ==> Step(s, a, accepts).task == s.task
  {
    assert HandlerOk(s, s.handlers[h]);
    if a.Handle? && a.h == h && !s.handlers[h].Finished? {
      HandlerReach(s, h, a.livesOn, a.intake, accepts);
    }
  }

  lemma {:induction false} HarmlessNeverTouches(s: State, h: nat, actions: seq<Action>, raises: bool, late: bool, accepts: Json -> bool)
    requires Inv(s, accepts) && Stale(s, h) && Allowed(s, h, actions, raises, late, accepts)
    requires !Open(s.task) || Harmless(s.handlers[h], raises, late)
    ensures !Touches(s, h, actions, accepts)
    decreases |actions|
  {
    if actions != [] {
      var a, next := actions[0], Step(s, actions[0], accepts);
      StepKeeps(s, a, accepts);
      StaleStays(s, h, a, accepts);
      ClockGrows(s, actions, accepts);
      if Open(s.task) {
        HarmlessStep(s, h, a, raises, late, accepts);
      }
      HarmlessNeverTouches(next, h, actions[1..], raises, late, accepts);
    }
  }

  lemma OneMoreAction(s: State, h: nat, a: Action, rest: seq<Action>, raises: bool, late: bool, accepts: Json -> bool)
    requires Inv(s, accepts) && Allowed(Step(s, a, accepts), h, rest, raises, late, accepts)
    requires a.Handle? && a.h == h && !raises ==> a.intake != Raises
    ensures Allowed(s, h, [a] + rest, raises, late, accepts)
    ensures Touches(Step(s, a, accepts), h, rest, accepts) ==> Touches(s, h, [a] + rest, accepts)
    ensures a.Handle? && a.h == h && Step(s, a, accepts).task != s.task ==> Touches(s, h, [a] + rest, accepts)
  {
    StepKeeps(s, a, accepts);
    assert ([a] + rest)[1..] == rest;
    assert Run(s, [a] + rest, accepts) == Run(Step(s, a, accepts), rest, accepts);
  }

  /** The next statement of `h`, or the wait, that brings a harmful handler closer. */
  function Harming(s: State, h: nat, late: bool): Action
    requires h < |s.handlers|
  {
    match s.handlers[h]
    case Check(_, _, snap) =>
      if late && snap.deadline > s.clock then Advance(snap.deadline - s.clock) else Handle(h, false, Accepted)
    case _ => Handle(h, false, Raises)
  }

  function StatementsLeft(s: State, h: nat): nat
    requires h < |s.handlers|
  {
    match s.handlers[h]
    case Check(_, _, snap) => if snap.deadline > s.clock then 2 else 0
    case Enqueue(_, _) => 1
    case _ => 0
  }

  /** A continuation in which a handler that is not harmless changes the task. */
  lemma {:induction false} HarmfulTouches(s: State, h: nat, raises: bool, late: bool, accepts: Json -> bool)
    returns (actions: seq<Action>)
    requires Inv(s, accepts) && Stale(s, h) && Open(s.task) && !Harmless(s.handlers[h], raises, late)
    requires late || s.clock < s.task.deadline
    ensures Allowed(s, h, actions, raises, late, accepts) && Touches(s, h, actions, accepts)
    decreases StatementsLeft(s, h)
  {
    assert HandlerOk(s, s.handlers[h]);
    var a := if s.handlers[h].Fail? then Handle(h, false, Accepted) else Harming(s, h, late);
    var next := Step(s, a, accepts);
    StepKeeps(s, a, accepts);
    var rest: seq<Action> := [];
    if next.task == s.task {
      StaleStays(s, h, a, accepts);
      rest := HarmfulTouches(next, h, raises, late, accepts);
    }
    OneMoreAction(s, h, a, rest, raises, late, accepts);
    actions := [a] + rest;
  }

  /** Exactly when a left-behind handler leaves the task alone, however the run goes on:
      once the task has ended; or when it is about to read the task or to point it at a
      turn, or is done; or when it is about to send, if its enqueue does not raise; or when
      it is about to expire its copy, if its enqueue does not raise and the deadline is not
      reached. About to fail the task it does so, and then its enqueue raised or the turn
      it had pointed the task at was already over. */
  lemma StaleHandlerIsInert(s: State, h: nat, raises: bool, late: bool, accepts: Json -> bool)
    requires Inv(s, accepts) && Stale(s, h)
    ensures (forall actions :: Allowed(s, h, actions, raises, late, accepts) ==> !Touches(s, h, actions, accepts))
            <==> !Open(s.task) || Harmless(s.handlers[h], raises, late) || (!late && s.clock >= s.task.deadline)
    ensures Open(s.task) && s.handlers[h].Fail? ==> s.handlers[h].cause in {NudgeFailed, FollowUpNotRun}
  {
    assert HandlerOk(s, s.handlers[h]);
    if !Open(s.task) || Harmless(s.handlers[h], raises, late) {
      forall actions | Allowed(s, h, actions, raises, late, accepts) ensures !Touches(s, h, actions, accepts) {
        HarmlessNeverTouches(s, h, actions, raises, late, accepts);
      }
    } else if late || s.clock < s.task.deadline {
      var actions := HarmfulTouches(s, h, raises, late, accepts);
    } else {
      forall actions ensures !InTime(s, actions, accepts) {
        ClockGrows(s, actions, accepts);
      }
    }
  }

  // ---- ends that are heard, and ends that are not ----

  /** Handler `h` was started for turn `t` no earlier than the task came to it, and has
      statements left, or has seen the task end or move on to a newer turn. */
  ghost predicate Heard(s: State, h: nat, t: nat) {
    && h < |s.handlers|
    && (Open(s.task) ==> s.task.turn >= t)
    && match s.handlers[h]
       case Finished => !Open(s.task) || s.task.turn > t
       case p => p.ended == t
  }

  lemma HeardOwnStep(s: State, h: nat, t: nat, intake: Intake, accepts: Json -> bool)
    requires Inv(s, accepts) && Heard(s, h, t)
    ensures Heard(HandlerStep(s, h, false, intake), h, t)
  {
    HandlerStepKeepsRows(s, h, false, intake, accepts);
    assert HandlerOk(s, s.handlers[h]);
  }

  lemma HeardStep(s: State, h: nat, t: nat, a: Action, accepts: Json -> bool)
    requires Inv(s, accepts) && Heard(s, h, t)
    requires a.Handle? && a.h == h ==> !a.livesOn
    ensures Heard(Step(s, a, accepts), h, t)
  {
    if a.Handle? && a.h == h {
      HeardOwnStep(s, h, t, a.intake, accepts);
    } else {
      StepKeeps(s, a, accepts);
      assert Step(s, a, accepts).handlers[h] == s.handlers[h];
    }
  }

  /** A turn's end that found its turn current is followed up, whatever interleaves:
      once that handler is done, the task has ended or is on a newer turn. */
  lemma {:induction false} HeardEndIsFollowedUp(s: State, h: nat, t: nat, actions: seq<Action>, accepts: Json -> bool)
    requires Inv(s, accepts) && Heard(s, h, t)
    requires forall i :: 0 <= i < |actions| && actions[i].Handle? && actions[i].h == h ==> !actions[i].livesOn
    ensures Heard(Run(s, actions, accepts), h, t)
    decreases |actions|
  {
    if actions != [] {
      HeardStep(s, h, t, actions[0], accepts);
      StepKeeps(s, actions[0], accepts);
      HeardEndIsFollowedUp(Step(s, actions[0], accepts), h, t, actions[1..], accepts);
    }
  }

  /** The caller neither cancels nor submits a result that is accepted, no enqueue raises
      and no ended turn's session lives on. */
  predicate Calm(a: Action, accepts: Json -> bool) {
    && !a.Cancel?
    && (a.Submit? ==> !accepts(a.result))
    && (a.Handle? ==> !a.livesOn && a.intake != Raises)
  }

  /** The task is open on `t`, and no handler is about to do anything on account of it. */
  ghost predicate Unheard(s: State, t: nat) {
    && Open(s.task) && s.task.turn == t
    && forall h :: 0 <= h < |s.handlers| ==>
         s.handlers[h].Finished? || (s.handlers[h].ended != t && !s.handlers[h].Fail?)
  }

  lemma UnheardStep(s: State, t: nat, a: Action, accepts: Json -> bool)
    requires Inv(s, accepts) && Unheard(s, t) && Calm(a, accepts) && a != Signal(t)
    requires s.clock < s.task.deadline
    ensures Unheard(Step(s, a, accepts), t)
  {
    if a.Handle? && a.h < |s.handlers| {
      assert HandlerOk(s, s.handlers[a.h]);
    }
  }

  lemma {:induction false} UnheardStays(s: State, t: nat, actions: seq<Action>, accepts: Json -> bool)
    requires Inv(s, accepts) && Unheard(s, t) && InTime(s, actions, accepts)
    requires forall i :: 0 <= i < |actions| ==> Calm(actions[i], accepts) && actions[i] != Signal(t)
    ensures Unheard(Run(s, actions, accepts), t)
    decreases |actions|
  {
    if actions != [] {
      ClockGrows(s, actions, accepts);
      UnheardStep(s, t, actions[0], accepts);
      StepKeeps(s, actions[0], accepts);
      UnheardStays(Step(s, actions[0], accepts), t, actions[1..], accepts);
    }
  }

  ghost predicate MovedOn(s: State, t: nat) {
    !Open(s.task) || s.task.turn > t
  }

  ghost predicate AllDone(s: State) {
    forall h :: 0 <= h < |s.handlers| ==> s.handlers[h].Finished?
  }

  lemma MovedOnStays(s: State, t: nat, actions: seq<Action>, accepts: Json -> bool)
    requires Inv(s, accepts) && MovedOn(s, t)
    ensures MovedOn(Run(s, actions, accepts), t)
  {
    RunKeeps(s, actions, accepts);
  }

  lemma SignalStarts(s: State, t: nat, accepts: Json -> bool)
    requires Inv(s, accepts) && Open(s.task) && s.task.turn == t && Over(s.turns[t])
    ensures Inv(Step(s, Signal(t), accepts), accepts) && Heard(Step(s, Signal(t), accepts), |s.handlers|, t)
  {
    StepKeeps(s, Signal(t), accepts);
  }

  /** A signal that comes when the task is on its turn is heard. */
  lemma {:induction false} SignalIsHeard(s: State, t: nat, i: nat, actions: seq<Action>, accepts: Json -> bool)
    requires Inv(s, accepts) && Open(s.task) && s.task.turn == t && Over(s.turns[t])
    requires forall k :: 0 <= k < |actions| ==> Calm(actions[k], accepts)
    requires i < |actions| && actions[i] == Signal(t) && AllDone(Run(s, actions, accepts))
    ensures MovedOn(Run(s, actions, accepts), t)
    decreases |actions|
  {
    var next, rest := Step(s, actions[0], accepts), actions[1..];
    StepKeeps(s, actions[0], accepts);
    if i == 0 {
      SignalStarts(s, t, accepts);
      HeardEndIsFollowedUp(next, |s.handlers|, t, rest, accepts);
    } else if MovedOn(next, t) {
      MovedOnStays(next, t, rest, accepts);
    } else {
      assert rest[i - 1] == Signal(t);
      SignalIsHeard(next, t, i - 1, rest, accepts);
    }
  }

  /** The end of the task's current turn is followed up, in a calm run within the deadline
      that leaves no handler unfinished, if and only if somebody heard it: a handler started
      for it is still at work, or one is about to fail the task, or it is announced from
      now on. What was announced before the task came to the turn does not count. */
  lemma FollowedUpIffHeard(s: State, t: nat, actions: seq<Action>, accepts: Json -> bool)
    requires Inv(s, accepts) && Open(s.task) && s.task.turn == t && Over(s.turns[t])
    requires InTime(s, actions, accepts) && AllDone(Run(s, actions, accepts))
    requires forall i :: 0 <= i < |actions| ==> Calm(actions[i], accepts)
    ensures MovedOn(Run(s, actions, accepts), t) <==> !Unheard(s, t) || Signal(t) in actions
  {
    RunKeeps(s, actions, accepts);
    if Signal(t) in actions {
      var i :| 0 <= i < |actions| && actions[i] == Signal(t);
      SignalIsHeard(s, t, i, actions, accepts);
    } else if Unheard(s, t) {
      UnheardStays(s, t, actions, accepts);
    } else {
      var h :| 0 <= h < |s.handlers| && !s.handlers[h].Finished? && (s.handlers[h].ended == t || s.handlers[h].Fail?);
      if s.handlers[h].ended == t {
        HeardEndIsFollowedUp(s, h, t, actions, accepts);
      } else {
        FailIsFinal(s, h, actions, accepts);
      }
    }
  }

  // ---- sessions that live on ----

  /** The handler has not decided to send a turn. */
  predicate NotSending(p: Phase) {
    !p.Enqueue? && !p.Move?
  }

  /** Every statement of handler `h` finds the ended turn's session living on. */
  predicate LivesOn(actions: seq<Action>, h: nat) {
    forall i :: 0 <= i < |actions| && actions[i].Handle? && actions[i].h == h ==> actions[i].livesOn
  }

  lemma StaysNotSending(s: State, h: nat, a: Action, accepts: Json -> bool)
    requires h < |s.handlers| && NotSending(s.handlers[h])
    requires a.Handle? && a.h == h ==> a.livesOn
    ensures h < |Step(s, a, accepts).handlers| && NotSending(Step(s, a, accepts).handlers[h])
  {
  }

  /** A handler whose turn's session lives on never comes to send a turn, whatever else
      happens: no statement of its own ever adds one. */
  lemma {:induction false} LivingOnNeverSends(s: State, h: nat, actions: seq<Action>, accepts: Json -> bool)
    requires h < |s.handlers| && NotSending(s.handlers[h]) && LivesOn(actions, h)
    ensures var r := Run(s, actions, accepts);
            && h < |r.handlers| && NotSending(r.handlers[h])
            && forall livesOn, intake :: HandlerStep(r, h, livesOn, intake).turns == r.turns
                                         && HandlerStep(r, h, livesOn, intake).keys == r.keys
    decreases |actions|
  {
    if actions != [] {
      StaysNotSending(s, h, actions[0], accepts);
      LivingOnNeverSends(Step(s, actions[0], accepts), h, actions[1..], accepts);
    }
  }

  /** And while every session lives on no follow-up is ever sent. */
  lemma {:induction false} LivingSessionsSendNothing(s: State, actions: seq<Action>, accepts: Json -> bool)
    requires forall h :: 0 <= h < |s.handlers| ==> NotSending(s.handlers[h])
    requires forall i :: 0 <= i < |actions| && actions[i].Handle? ==> actions[i].livesOn
    ensures |Run(s, actions, accepts).turns| == |s.turns| && Run(s, actions, accepts).keys == s.keys
    ensures Run(s, actions, accepts).task.turn == s.task.turn
    decreases |actions|
  {
    if actions != [] {
      var r := Step(s, actions[0], accepts);
      forall h | 0 <= h < |r.handlers| ensures NotSending(r.handlers[h]) {
        if h < |s.handlers| {
          StaysNotSending(s, h, actions[0], accepts);
        }
      }
      LivingSessionsSendNothing(r, actions[1..], accepts);
    }
  }

  /** The handler is about to fail the task, or is done with the task ended. */
  ghost predicate Failing(s: State, h: nat) {
    h < |s.handlers| && (s.handlers[h].Fail? || (s.handlers[h].Finished? && !Open(s.task)))
  }

  lemma FailStep(s: State, h: nat, a: Action, accepts: Json -> bool)
    requires Failing(s, h) && (Open(Step(s, a, accepts).task) ==> Open(s.task))
    ensures Failing(Step(s, a, accepts), h)
  {
  }

  /** A handler about to fail the task leaves it ended. */
  lemma {:induction false} FailIsFinal(s: State, h: nat, actions: seq<Action>, accepts: Json -> bool)
    requires Inv(s, accepts) && Failing(s, h)
    ensures Failing(Run(s, actions, accepts), h)
    decreases |actions|
  {
    if actions != [] {
      StepKeeps(s, actions[0], accepts);
      FailStep(s, h, actions[0], accepts);
      FailIsFinal(Step(s, actions[0], accepts), h, actions[1..], accepts);
    }
  }

  // ---- turns sent for a task that has ended ----

  /** The handler will, or may once the deadline has passed, send a turn under a key that
      nobody holds. */
  predicate MaySend(p: Phase, n: nat) {
    match p
    case Check(_, stopped, _) => !stopped
    case Enqueue(_, m) => m == n
    case _ => false
  }

  ghost predicate SendLeft(s: State) {
    && |s.turns| == s.task.nudges + 1 <= MAX_NUDGES
    && exists h :: 0 <= h < |s.handlers| && MaySend(s.handlers[h], s.task.nudges + 1)
  }

  /** Exactly which statement sends a turn for a task that has ended: a handler's enqueue,
      under a key nobody holds, that does not raise. */
  lemma SendsForEnded(s: State, a: Action, accepts: Json -> bool)
    requires Inv(s, accepts) && !Open(s.task)
    ensures |Step(s, a, accepts).turns| > |s.turns| <==>
              && a.Handle? && a.h < |s.handlers| && s.handlers[a.h].Enqueue?
              && s.handlers[a.h].n !in s.keys && a.intake != Raises
    ensures |Step(s, a, accepts).turns| > |s.turns| ==> SendLeft(s)
  {
    if a.Handle? && a.h < |s.handlers| {
      assert HandlerOk(s, s.handlers[a.h]);
    }
  }

  lemma SenderBefore(s: State, a: Action, h: nat, accepts: Json -> bool)
    requires Inv(s, accepts) && !Open(s.task) && h < |Step(s, a, accepts).handlers|
    requires MaySend(Step(s, a, accepts).handlers[h], s.task.nudges + 1)
    ensures h < |s.handlers| && MaySend(s.handlers[h], s.task.nudges + 1)
  {
    if a.Handle? && a.h < |s.handlers| {
      assert HandlerOk(s, s.handlers[a.h]);
    }
  }

  lemma NoNewSender(s: State, a: Action, accepts: Json -> bool)
    requires Inv(s, accepts) && !Open(s.task) && SendLeft(Step(s, a, accepts))
    ensures SendLeft(s)
  {
    StepKeeps(s, a, accepts);
    var r := Step(s, a, accepts);
    var h :| 0 <= h < |r.handlers| && MaySend(r.handlers[h], r.task.nudges + 1);
    SenderBefore(s, a, h, accepts);
  }

  /** Once a task has ended, at most one more turn is ever sent for it, and the task never
      points at it. */
  lemma AtMostOneTurnAfterTheEnd(s: State, actions: seq<Action>, accepts: Json -> bool)
    requires Inv(s, accepts) && !Open(s.task)
    ensures var r := Run(s, actions, accepts);
            && |s.turns| <= |r.turns| <= |s.turns| + 1
            && r.task.turn == s.task.turn < |s.turns|
  {
    RunKeeps(s, actions, accepts);
  }

  lemma {:induction false} NoSendLeft(s: State, actions: seq<Action>, accepts: Json -> bool)
    requires Inv(s, accepts) && !Open(s.task) && !SendLeft(s)
    ensures |Run(s, actions, accepts).turns| == |s.turns|
    decreases |actions|
  {
    if actions != [] {
      SendsForEnded(s, actions[0], accepts);
      StepKeeps(s, actions[0], accepts);
      if SendLeft(Step(s, actions[0], accepts)) {
        NoNewSender(s, actions[0], accepts);
      }
      NoSendLeft(Step(s, actions[0], accepts), actions[1..], accepts);
    }
  }

  lemma SendStillHappens(s: State, accepts: Json -> bool) returns (actions: seq<Action>)
    requires Inv(s, accepts) && !Open(s.task) && SendLeft(s)
    ensures |Run(s, actions, accepts).turns| > |s.turns|
  {
    var h :| 0 <= h < |s.handlers| && MaySend(s.handlers[h], s.task.nudges + 1);
    assert HandlerOk(s, s.handlers[h]);
    var send := Handle(h, false, Accepted);
    if s.handlers[h].Enqueue? {
      actions := Then(s, [], send, accepts);
    } else {
      var deadline := s.handlers[h].snap.deadline;
      actions := Then(s, [], Advance(if deadline > s.clock then deadline - s.clock else 0), accepts);
      actions := Then(s, actions, send, accepts);
      actions := Then(s, actions, send, accepts);
    }
  }

  /** A turn may still be sent for an ended task if and only if none beyond its current one
      has been, follow-ups are left, and a handler holds a copy of the task or is about to
      send the next one. */
  lemma EndedTaskMayGetATurn(s: State, accepts: Json -> bool)
    requires Inv(s, accepts) && !Open(s.task)
    ensures (exists actions :: |Run(s, actions, accepts).turns| > |s.turns|) <==> SendLeft(s)
  {
    if SendLeft(s) {
      var actions := SendStillHappens(s, accepts);
    } else {
      forall actions ensures |Run(s, actions, accepts).turns| == |s.turns| {
        NoSendLeft(s, actions, accepts);
      }
    }
  }

  // ---- what interleaving can do that one handler alone cannot ----

  /** Two announcements of the first turn's end. */
  lemma BothAnnounced(accepts: Json -> bool) returns (run: seq<Action>)
    ensures Run(Created(0, 900, false), run, accepts) ==
            State(Created(0, 900, false).task, [Ended], map[0 := 0], [Start(0, false), Start(0, false)], 0)
    ensures forall i :: 0 <= i < |run| && run[i].Handle? ==> run[i].intake == Accepted
  {
    var s := Created(0, 900, false);
    run := Then(s, [], TurnEnds(0, false), accepts);
    run := Then(s, run, Signal(0), accepts);
    run := Then(s, run, Signal(0), accepts);
  }

  /** Both handlers having decided to send follow-up 1. */
  lemma BothDecided(accepts: Json -> bool) returns (run: seq<Action>)
    ensures Run(Created(0, 900, false), run, accepts) ==
            State(Created(0, 900, false).task, [Ended], map[0 := 0], [Enqueue(0, 1), Enqueue(0, 1)], 0)
    ensures forall i :: 0 <= i < |run| && run[i].Handle? ==> run[i].intake == Accepted
  {
    var s := Created(0, 900, false);
    run := BothAnnounced(accepts);
    run := Then(s, run, Handle(0, false, Accepted), accepts);
    run := Then(s, run, Handle(1, false, Accepted), accepts);
    run := Then(s, run, Handle(0, false, Accepted), accepts);
    run := Then(s, run, Handle(1, false, Accepted), accepts);
  }

  /** The faster of the two has moved the task on to follow-up 1. */
  lemma FasterMovedOn(accepts: Json -> bool) returns (run: seq<Action>)
    ensures Run(Created(0, 900, false), run, accepts) ==
            State(Task(Queued, None, NoError, 1, 1, 900, None), [Ended, Waiting], map[0 := 0, 1 := 1],
                  [Finished, Enqueue(0, 1)], 0)
  {
    var s := Created(0, 900, false);
    run := BothDecided(accepts);
    run := Then(s, run, Handle(0, false, Accepted), accepts);
    run := Then(s, run, Handle(0, false, Accepted), accepts);
  }

  /** A late handler whose enqueue raises fails a task whose follow-up turn, sent by
      a faster handler, nobody has even started. */
  lemma LateRaiseFailsTask(accepts: Json -> bool) returns (run: seq<Action>)
    ensures var r := Run(Created(0, 900, false), run, accepts);
            r.task.status == Failed && r.task.error == NudgeFailed && r.task.turn == 1 && r.turns == [Ended, Waiting]
  {
    var s := Created(0, 900, false);
    run := FasterMovedOn(accepts);
    run := Then(s, run, Handle(1, false, Raises), accepts);
    run := Then(s, run, Handle(1, false, Raises), accepts);
  }

  /** The same, up to where the faster handler's turn has ended before it points at it. */
  lemma FollowUpOver(accepts: Json -> bool) returns (run: seq<Action>)
    ensures Run(Created(0, 900, false), run, accepts) ==
            State(Created(0, 900, false).task, [Ended, Ended], map[0 := 0, 1 := 1],
                  [Enqueue(0, 1), Move(0, 1, 1, false)], 0)
    ensures forall i :: 0 <= i < |run| && run[i].Handle? ==> run[i].intake == Accepted
  {
    var s := Created(0, 900, false);
    run := BothDecided(accepts);
    run := Then(s, run, Handle(1, false, Accepted), accepts);
    run := Then(s, run, TurnEnds(1, false), accepts);
  }

  /** The same, up to where the slower handler, its enqueue having returned the faster
      one's turn already over, points the task at it. */
  lemma DeadTurnPointedAt(accepts: Json -> bool) returns (run: seq<Action>)
    ensures Run(Created(0, 900, false), run, accepts) ==
            State(Task(Queued, None, NoError, 1, 1, 900, None), [Ended, Ended], map[0 := 0, 1 := 1],
                  [Fail(0, FollowUpNotRun), Move(0, 1, 1, false)], 0)
    ensures forall i :: 0 <= i < |run| && run[i].Handle? ==> run[i].intake == Accepted
  {
    var s := Created(0, 900, false);
    run := FollowUpOver(accepts);
    run := Then(s, run, Handle(0, false, Accepted), accepts);
    run := Then(s, run, Handle(0, false, Accepted), accepts);
  }

  /** The end of that turn announced late: its handler has decided to send follow-up 2. */
  lemma DeadTurnHeard(accepts: Json -> bool) returns (run: seq<Action>)
    ensures Run(Created(0, 900, false), run, accepts) ==
            State(Task(Queued, None, NoError, 1, 1, 900, None), [Ended, Ended], map[0 := 0, 1 := 1],
                  [Fail(0, FollowUpNotRun), Move(0, 1, 1, false), Enqueue(1, 2)], 0)
    ensures forall i :: 0 <= i < |run| && run[i].Handle? ==> run[i].intake == Accepted
  {
    var s := Created(0, 900, false);
    run := DeadTurnPointedAt(accepts);
    run := Then(s, run, Signal(1), accepts);
    run := Then(s, run, Handle(2, false, Accepted), accepts);
    run := Then(s, run, Handle(2, false, Accepted), accepts);
  }

  /** Follow-up 2 sent. */
  lemma TurnTwoSent(accepts: Json -> bool) returns (run: seq<Action>)
    ensures Run(Created(0, 900, false), run, accepts) ==
            State(Task(Queued, None, NoError, 1, 1, 900, None), [Ended, Ended, Waiting], map[0 := 0, 1 := 1, 2 := 2],
                  [Fail(0, FollowUpNotRun), Move(0, 1, 1, false), Move(1, 2, 2, false)], 0)
    ensures forall i :: 0 <= i < |run| && run[i].Handle? ==> run[i].intake == Accepted
  {
    run := DeadTurnHeard(accepts);
    run := Then(Created(0, 900, false), run, Handle(2, false, Accepted), accepts);
  }

  /** And the task pointed at it. */
  lemma MovedOnToTurnTwo(accepts: Json -> bool) returns (run: seq<Action>)
    ensures Run(Created(0, 900, false), run, accepts) ==
            State(Task(Queued, None, NoError, 2, 2, 900, None), [Ended, Ended, Waiting], map[0 := 0, 1 := 1, 2 := 2],
                  [Fail(0, FollowUpNotRun), Move(0, 1, 1, false), Finished], 0)
    ensures forall i :: 0 <= i < |run| && run[i].Handle? ==> run[i].intake == Accepted
  {
    run := TurnTwoSent(accepts);
    run := Then(Created(0, 900, false), run, Handle(2, false, Accepted), accepts);
  }

  /** A handler that pointed the task at a turn already over fails it after another handler
      has moved it on to a follow-up turn that nobody has started; no enqueue raises. */
  lemma DeadTurnFailsNewerTurn(accepts: Json -> bool) returns (run: seq<Action>)
    ensures var r := Run(Created(0, 900, false), run, accepts);
            r.task.status == Failed && r.task.error == FollowUpNotRun && r.task.turn == 2 && r.turns == [Ended, Ended, Waiting]
    ensures forall i :: 0 <= i < |run| && run[i].Handle? ==> run[i].intake == Accepted
  {
    run := MovedOnToTurnTwo(accepts);
    run := Then(Created(0, 900, false), run, Handle(0, false, Accepted), accepts);
  }

  /** One announcement of the first turn's end; the handler has read the task. */
  lemma TaskRead(accepts: Json -> bool) returns (run: seq<Action>)
    ensures var task := Created(0, 900, false).task;
            Run(Created(0, 900, false), run, accepts) ==
            State(task, [Ended], map[0 := 0], [Check(0, false, task)], 0)
    ensures Signal(0) in run
  {
    var s := Created(0, 900, false);
    run := Then(s, [], TurnEnds(0, false), accepts);
    run := Then(s, run, Signal(0), accepts);
    run := Then(s, run, Handle(0, false, Accepted), accepts);
    assert run[1] == Signal(0);
  }

  /** The same handler, having decided to send follow-up 1. */
  lemma AboutToSend(accepts: Json -> bool) returns (run: seq<Action>)
    ensures Run(Created(0, 900, false), run, accepts) ==
            State(Created(0, 900, false).task, [Ended], map[0 := 0], [Enqueue(0, 1)], 0)
    ensures Signal(0) in run
  {
    var before := TaskRead(accepts);
    run := Then(Created(0, 900, false), before, Handle(0, false, Accepted), accepts);
    assert run[..|before|] == before;
  }

  /** The same handler, having sent follow-up 1 and about to point the task at it. */
  lemma SentNotYetPointed(accepts: Json -> bool) returns (run: seq<Action>)
    ensures Run(Created(0, 900, false), run, accepts) ==
            State(Created(0, 900, false).task, [Ended, Waiting], map[0 := 0, 1 := 1],
                  [Move(0, 1, 1, false)], 0)
    ensures Signal(0) in run
  {
    var before := AboutToSend(accepts);
    run := Then(Created(0, 900, false), before, Handle(0, false, Accepted), accepts);
    assert run[..|before|] == before;
  }

  /** Follow-up 1 has ended before the task points at it. */
  lemma EndedBeforePointed(accepts: Json -> bool) returns (run: seq<Action>)
    ensures Run(Created(0, 900, false), run, accepts) ==
            State(Created(0, 900, false).task, [Ended, Ended], map[0 := 0, 1 := 1],
                  [Move(0, 1, 1, false)], 0)
    ensures Signal(0) in run
  {
    var before := SentNotYetPointed(accepts);
    run := Then(Created(0, 900, false), before, TurnEnds(1, false), accepts);
    assert run[..|before|] == before;
  }

  /** And its end is announced, still before. */
  lemma EndAnnouncedEarly(accepts: Json -> bool) returns (run: seq<Action>)
    ensures Run(Created(0, 900, false), run, accepts) ==
            State(Created(0, 900, false).task, [Ended, Ended], map[0 := 0, 1 := 1],
                  [Move(0, 1, 1, false), Start(1, false)], 0)
    ensures Signal(0) in run && Signal(1) in run
  {
    var before := EndedBeforePointed(accepts);
    run := Then(Created(0, 900, false), before, Signal(1), accepts);
    assert run[|before|] == Signal(1);
    assert run[..|before|] == before;
  }

  /** A follow-up turn that ends before the pointer reaches it: its own handler finds
      the task on another turn and stops, then the pointer moves to it. Every ended
      turn has been announced and every handler is done, yet the task is open on a
      turn that is over; only its deadline ends it. */
  lemma EndHeardTooEarly(accepts: Json -> bool) returns (run: seq<Action>)
    ensures var r := Run(Created(0, 900, false), run, accepts);
            && Open(r.task) && r.task.turn == 1 && r.turns == [Ended, Ended]
            && r.handlers == [Finished, Finished] && r.clock < r.task.deadline
    ensures Signal(0) in run && Signal(1) in run
  {
    var s := Created(0, 900, false);
    var before := EndAnnouncedEarly(accepts);
    run := Then(s, before, Handle(1, false, Accepted), accepts);
    run := Then(s, run, Handle(0, false, Accepted), accepts);
    assert run[..|before|] == before;
  }

  /** A handler that loses the race to expire the task decides on the ended row it
      reads back, and still sends a follow-up turn for it. */
  lemma TurnForAnEndedTask(accepts: Json -> bool) returns (run: seq<Action>)
    ensures var r := Run(Created(0, 900, false), run, accepts);
            r.task.status == Cancelled && r.task.turn == 0 && r.turns == [Ended, Waiting]
  {
    var s := Created(0, 900, false);
    run := TaskRead(accepts);
    run := Then(s, run, Advance(900), accepts);
    run := Then(s, run, Cancel, accepts);
    run := Then(s, run, Handle(0, false, Accepted), accepts);
    run := Then(s, run, Handle(0, false, Accepted), accepts);
  }
}
