/** Whole runs of the desk: turns coming in, being claimed and rechecked, and any number of
    processes sweeping on the shared clock. */
module DeskRuns {
  import opened Basics
  import opened AdmissionRules
  import opened AdmissionGates
  import opened AdmissionDesk
  import opened DeskFates

  /** The turns, and when each process last looked. */
  datatype State = State(rows: seq<Row>, last: map<nat, Time>)

  datatype Action =
    | NewTurn(turn: Turn, workspace: string, agent: Option<string>, stands: string)
    | Claim(claimed: nat, kind: string, mode: string)
    | RecheckOne(rechecked: nat, stands: string)
    | SweepTick(process: nat, reach: Standing)

  datatype Event = Event(at: Time, action: Action)

  function Step(rules: seq<Rule>, s: State, e: Event): State {
    match e.action
    case NewTurn(turn, workspace, agent, stands) =>
      s.(rows := s.rows + [Admitted(rules, turn, workspace, agent, e.at, stands)])
    case Claim(i, kind, mode) =>
      if i < |s.rows| && s.rows[i].fate == Queued then s.(rows := s.rows[i := Claimed(rules, s.rows[i], kind, mode)]) else s
    case RecheckOne(i, stands) =>
      if i < |s.rows| then s.(rows := s.rows[i := Rechecked(rules, s.rows[i], stands, e.at)]) else s
    case SweepTick(process, reach) =>
      if Due(s.last, Tick(e.at, process)) then
        State(LookedThrough(rules, s.rows, reach, e.at, LookEnds(rules, s.rows, reach, e.at, 0)), s.last[process := e.at])
      else s
  }

  /** From an empty desk on. */
  function Run(rules: seq<Rule>, events: seq<Event>): State {
    if events == [] then State([], map[]) else Step(rules, Run(rules, events[..|events| - 1]), events[|events| - 1])
  }

  function Ticks(events: seq<Event>): seq<Tick> {
    if events == [] then []
    else
      var e := events[|events| - 1];
      Ticks(events[..|events| - 1]) + (if e.action.SweepTick? then [Tick(e.at, e.action.process)] else [])
  }

  ghost predicate Chronological(events: seq<Event>) {
    forall i, j :: 0 <= i < j < |events| ==> events[i].at <= events[j].at
  }

  lemma OneMoreTick(ticks: seq<Tick>, t: Tick)
    ensures LastLooks(ticks + [t]) == if Due(LastLooks(ticks), t) then LastLooks(ticks)[t.process := t.time] else LastLooks(ticks)
  {
    assert (ticks + [t])[..|ticks|] == ticks;
  }

  lemma {:induction false} LastIsLastLooks(rules: seq<Rule>, events: seq<Event>)
    ensures Run(rules, events).last == LastLooks(Ticks(events))
  {
    if events != [] {
      var before, e := events[..|events| - 1], events[|events| - 1];
      LastIsLastLooks(rules, before);
      if e.action.SweepTick? {
        OneMoreTick(Ticks(before), Tick(e.at, e.action.process));
      } else {
        assert Ticks(before) + [] == Ticks(before);
      }
    }
  }

  /** The event behind a tick. */
  lemma {:induction false} TickEvent(events: seq<Event>, j: nat) returns (e: nat)
    requires j < |Ticks(events)|
    ensures e < |events| && events[e].action.SweepTick?
    ensures Ticks(events)[j] == Tick(events[e].at, events[e].action.process)
    ensures Ticks(events[..e]) == Ticks(events)[..j]
  {
    var k := |events| - 1;
    var before := Ticks(events[..k]);
    if j < |before| {
      e := TickEvent(events[..k], j);
      assert events[..k][..e] == events[..e];
      assert Ticks(events)[..j] == before[..j];
    } else {
      e := k;
      assert Ticks(events)[..j] == before;
    }
  }

  lemma {:induction false} TicksHaveEvents(events: seq<Event>, t: Tick)
    requires t in Ticks(events)
    ensures exists e :: 0 <= e < |events| && events[e].at == t.time
  {
    var k := |events| - 1;
    if t in Ticks(events[..k]) {
      TicksHaveEvents(events[..k], t);
      var e :| 0 <= e < k && events[..k][e].at == t.time;
      assert events[e].at == t.time;
    } else {
      assert events[k].at == t.time;
    }
  }

  lemma {:induction false} TicksInOrder(events: seq<Event>)
    requires Chronological(events)
    ensures InOrder(Ticks(events))
  {
    if events != [] {
      var k := |events| - 1;
      TicksInOrder(events[..k]);
      var before := Ticks(events[..k]);
      forall i | 0 <= i < |before| ensures before[i].time <= events[k].at {
        TicksHaveEvents(events[..k], before[i]);
      }
    }
  }

  // ---- what runs keep of a turn ----

  /** The same turn, later: only its fate can have changed, and only from queued. */
  predicate Later(before: Row, after: Row) {
    after == before.(fate := after.fate) && (before.fate != Queued ==> after == before)
  }

  lemma StepLater(rules: seq<Rule>, s: State, e: Event, i: nat)
    requires i < |s.rows|
    ensures |s.rows| <= |Step(rules, s, e).rows| && Later(s.rows[i], Step(rules, s, e).rows[i])
  {
  }

  lemma NewRowIsDated(rules: seq<Rule>, s: State, e: Event, i: nat)
    requires |s.rows| <= i < |Step(rules, s, e).rows|
    ensures Step(rules, s, e).rows[i].created == e.at
  {
  }

  lemma RunEnds(rules: seq<Rule>, events: seq<Event>, before: seq<Event>, s: State)
    requires events != [] && before == events[..|events| - 1] && s == Run(rules, before)
    ensures Run(rules, events) == Step(rules, s, events[|events| - 1])
    ensures forall m :: 0 <= m < |events| ==> before[..m] == events[..m]
  {
  }

  lemma {:induction false} RunLater(rules: seq<Rule>, events: seq<Event>, m: nat, i: nat)
    requires m <= |events| && i < |Run(rules, events[..m]).rows|
    ensures i < |Run(rules, events).rows| && Later(Run(rules, events[..m]).rows[i], Run(rules, events).rows[i])
    decreases |events|
  {
    if m < |events| {
      var before, e := events[..|events| - 1], events[|events| - 1];
      var s := Run(rules, before);
      RunEnds(rules, events, before, s);
      RunLater(rules, before, m, i);
      StepLater(rules, s, e, i);
    } else {
      assert events[..m] == events;
    }
  }

  /** A turn is there by the first event after its creation. */
  lemma {:induction false} TurnIsThere(rules: seq<Rule>, events: seq<Event>, m: nat, i: nat)
    requires Chronological(events) && m < |events| && i < |Run(rules, events).rows|
    requires Run(rules, events).rows[i].created < events[m].at
    ensures i < |Run(rules, events[..m]).rows|
    decreases |events|
  {
    var before, e := events[..|events| - 1], events[|events| - 1];
    var s := Run(rules, before);
    RunEnds(rules, events, before, s);
    if i >= |s.rows| {
      NewRowIsDated(rules, s, e, i);
    } else if m < |before| {
      StepLater(rules, s, e, i);
      assert Chronological(before) && before[m] == events[m];
      TurnIsThere(rules, before, m, i);
    }
  }

  /** No claim of this turn is among the events. */
  predicate Unclaimed(events: seq<Event>, i: nat) {
    forall e :: 0 <= e < |events| && events[e].action.Claim? ==> events[e].action.claimed != i
  }

  lemma {:induction false} UnclaimedIsNotTaken(rules: seq<Rule>, events: seq<Event>, i: nat)
    requires Unclaimed(events, i) && i < |Run(rules, events).rows|
    ensures Run(rules, events).rows[i].fate != Taken
  {
    var k := |events| - 1;
    if events != [] && i < |Run(rules, events[..k]).rows| {
      UnclaimedIsNotTaken(rules, events[..k], i);
    }
  }

  // ---- why a turn is where it is ----

  /** A rule of the turn's workspace and agent that fits it and rejects, under this key. */
  ghost predicate RejectedRightly(rules: seq<Rule>, row: Row, pk: nat) {
    row.agent.Some?
    && exists r :: r in rules && Applies(r, row.workspace, row.agent.value) && r.action == Reject
                   && FitsTurn(r, row.turn) && r.pk == pk
  }

  /** The event is a claim of the turn that no rule refuses. */
  ghost predicate ClaimedFreely(rules: seq<Rule>, row: Row, i: nat, e: Event) {
    && e.action.Claim? && e.action.claimed == i
    && (row.agent.Some? ==>
          var c := Case(row.turn, row.workspace, row.agent.value, "", 0);
          forall d :: d in rules ==> !ClaimRefusedBy(rules, c, e.action.kind, e.action.mode, d))
  }

  lemma AdmittedRightly(rules: seq<Rule>, turn: Turn, workspace: string, agent: Option<string>, now: Time, stands: string)
    ensures var row := Admitted(rules, turn, workspace, agent, now, stands);
            row.fate == Queued || (row.fate.Rejected? && RejectedRightly(rules, row, row.fate.pk))
  {
    if agent.Some? {
      IntakeRefuses(rules, Case(turn, workspace, agent.value, stands, 0), now);
    }
  }

  lemma ClaimedRightly(rules: seq<Rule>, row: Row, i: nat, e: Event)
    requires row.fate == Queued && e.action.Claim? && e.action.claimed == i
    ensures var after := Claimed(rules, row, e.action.kind, e.action.mode);
            || (after.fate.Rejected? && RejectedRightly(rules, after, after.fate.pk))
            || (after.fate == Taken && ClaimedFreely(rules, after, i, e))
  {
    if row.agent.Some? {
      ClaimRefuses(rules, row, Case(row.turn, row.workspace, row.agent.value, "", 0), e.action.kind, e.action.mode);
    }
  }

  lemma RecheckedRightly(rules: seq<Rule>, row: Row, stands: string, now: Time)
    ensures var after := Rechecked(rules, row, stands, now);
            after == row || (after.fate.Rejected? && RejectedRightly(rules, after, after.fate.pk))
  {
    if row.fate == Queued && row.agent.Some? {
      RecheckRefuses(rules, row, Case(row.turn, row.workspace, row.agent.value, stands, now - row.created), now);
    }
  }

  lemma StepFate(rules: seq<Rule>, s: State, e: Event, i: nat)
    requires i < |Step(rules, s, e).rows|
    ensures var after := Step(rules, s, e).rows[i];
            || (i < |s.rows| && after == s.rows[i])
            || after.fate == Queued
            || (after.fate.Rejected? && RejectedRightly(rules, after, after.fate.pk))
            || (after.fate == Taken && ClaimedFreely(rules, after, i, e))
  {
    match e.action
    case NewTurn(turn, workspace, agent, stands) => AdmittedRightly(rules, turn, workspace, agent, e.at, stands);
    case Claim(j, _, _) =>
      if j < |s.rows| && s.rows[j].fate == Queued {
        ClaimedRightly(rules, s.rows[j], j, e);
      }
    case RecheckOne(j, stands) =>
      if j < |s.rows| {
        RecheckedRightly(rules, s.rows[j], stands, e.at);
      }
    case SweepTick(_, reach) =>
      RecheckedRightly(rules, s.rows[i], Told(reach, i), e.at);
  }

  /** Over whole runs: a turn was rejected by a rule of its workspace and agent that rejects and
      fits it; and it was taken by a claim of it that no rule refuses. */
  lemma {:induction false} FatesAreEarned(rules: seq<Rule>, events: seq<Event>, i: nat)
    requires i < |Run(rules, events).rows|
    ensures var row := Run(rules, events).rows[i];
            && (row.fate.Rejected? ==> RejectedRightly(rules, row, row.fate.pk))
            && (row.fate == Taken ==> exists k :: 0 <= k < |events| && ClaimedFreely(rules, row, i, events[k]))
  {
    var before, e := events[..|events| - 1], events[|events| - 1];
    var s := Run(rules, before);
    RunEnds(rules, events, before, s);
    StepFate(rules, s, e, i);
    if i < |s.rows| && Run(rules, events).rows[i] == s.rows[i] {
      FatesAreEarned(rules, before, i);
      if s.rows[i].fate == Taken {
        var k :| 0 <= k < |before| && ClaimedFreely(rules, s.rows[i], i, before[k]);
        assert events[k] == before[k];
      }
    } else {
      assert Run(rules, events).rows[i].fate == Taken ==> ClaimedFreely(rules, Run(rules, events).rows[i], i, events[|events| - 1]);
    }
  }

  /** A claim of a queued turn decides it: taken, if no rule refuses the claim. */
  lemma ClaimDecides(rules: seq<Rule>, s: State, e: Event, i: nat)
    requires e.action.Claim? && e.action.claimed == i && i < |s.rows| && s.rows[i].fate == Queued
    ensures var after := Step(rules, s, e).rows[i];
            after.fate != Queued && (ClaimedFreely(rules, after, i, e) ==> after.fate == Taken)
  {
    if s.rows[i].agent.Some? {
      var row := s.rows[i];
      ClaimRefuses(rules, row, Case(row.turn, row.workspace, row.agent.value, "", 0), e.action.kind, e.action.mode);
    }
  }

  /** A recheck of a queued turn leaves it queued, or rejected by a rule that refuses it where it
      stands. */
  lemma RecheckDecides(rules: seq<Rule>, s: State, e: Event, i: nat, c: Case)
    requires e.action.RecheckOne? && e.action.rechecked == i && i < |s.rows| && c.reach == e.action.stands
    requires s.rows[i] == Row(c.turn, c.workspace, Some(c.agent), e.at - c.waited, Queued)
    ensures Step(rules, s, e).rows[i].fate == Queued <==>
              !AnyAboutReach(rules, c) || forall d :: d in rules ==> !RefusedBy(rules, c, d)
  {
    RecheckRefuses(rules, s.rows[i], c, e.at);
  }

  // ---- the six-minute bound ----

  /** The rule strands the turn at every moment from the end of its wait on. */
  ghost predicate StrandedFrom(rules: seq<Rule>, row: Row, r: Rule, due: Time) {
    due == row.created + r.waitHours * HOUR && forall now :: now >= due ==> Stranded(rules, row, r, now)
  }

  /** The events give the sweep a tick a minute around the deadline. */
  ghost predicate TickingAround(events: seq<Event>, from: Time) {
    var ticks := Ticks(events);
    && EveryMinute(ticks) && ticks != []
    && ticks[0].time <= from + SWEEP_EVERY <= ticks[|ticks| - 1].time
  }

  /** The tick is one at which its process looks. */
  predicate Looks(s: State, e: Event) {
    e.action.SweepTick? && Due(s.last, Tick(e.at, e.action.process))
  }

  /** The look finds the turn offline and gets as far as it. */
  predicate Finds(rules: seq<Rule>, s: State, e: Event, i: nat)
    requires e.action.SweepTick?
  {
    e.action.reach(i) == Some(OFFLINE) && i < LookEnds(rules, s.rows, e.action.reach, e.at, 0)
  }

  predicate InSixMinutes(e: Event, from: Time) {
    from < e.at <= from + 6 * MINUTE
  }

  /** Every look in the six minutes finds the turn offline and gets as far as it. */
  ghost predicate FoundOffline(rules: seq<Rule>, events: seq<Event>, i: nat, from: Time) {
    forall m :: 0 <= m < |events| && InSixMinutes(events[m], from) && Looks(Run(rules, events[..m]), events[m]) ==>
      Finds(rules, Run(rules, events[..m]), events[m], i)
  }

  /** A look that finds a stranded turn and gets to it leaves it decided. */
  lemma LookDecides(rules: seq<Rule>, s: State, e: Event, i: nat, row: Row, r: Rule)
    requires i < |s.rows| && row == s.rows[i].(fate := Queued)
    requires Looks(s, e) && Finds(rules, s, e, i) && Stranded(rules, row, r, e.at)
    ensures i < |Step(rules, s, e).rows| && Step(rules, s, e).rows[i].fate != Queued
  {
    if s.rows[i].fate == Queued {
      assert s.rows[i] == row;
      WholeLookRejectsStranded(rules, s.rows, e.action.reach, e.at, i, r);
    } else {
      StepLater(rules, s, e, i);
    }
  }

  lemma RowBefore(rules: seq<Rule>, events: seq<Event>, i: nat, m: nat, s: State, after: State)
    requires Chronological(events) && m < |events| && s == Run(rules, events[..m]) && after == Run(rules, events)
    requires i < |after.rows| && after.rows[i].created < events[m].at
    ensures i < |s.rows| && after.rows[i].(fate := Queued) == s.rows[i].(fate := Queued)
  {
    TurnIsThere(rules, events, m, i);
    RunLater(rules, events, m, i);
  }

  lemma StrandedAt(rules: seq<Rule>, row: Row, r: Rule, due: Time, now: Time)
    requires StrandedFrom(rules, row, r, due) && now >= due
    ensures row.created <= due && Stranded(rules, row, r, now)
  {
  }

  /** The look that decides it: the event of a tick at which its process looks. */
  lemma DecidingLook(rules: seq<Rule>, events: seq<Event>, r: Rule, due: Time, from: Time, row: Row) returns (m: nat)
    requires Chronological(events) && TickingAround(events, from)
    requires StrandedFrom(rules, row, r, due) && from >= due
    ensures m < |events| && InSixMinutes(events[m], from) && Looks(Run(rules, events[..m]), events[m])
  {
    TicksInOrder(events);
    var j := RejectedInTime(rules, row, r, Ticks(events), from, {});
    m := TickEvent(events, j);
    LastIsLastLooks(rules, events[..m]);
  }

  /** Once decided, decided for good. */
  lemma DecidedFromThen(rules: seq<Rule>, events: seq<Event>, m: nat, i: nat, s: State)
    requires m < |events| && s == Run(rules, events[..m])
    requires i < |Step(rules, s, events[m]).rows| && Step(rules, s, events[m]).rows[i].fate != Queued
    ensures forall n :: m < n <= |events| ==>
              i < |Run(rules, events[..n]).rows| && Run(rules, events[..n]).rows[i].fate != Queued
  {
    assert events[..m + 1][..m] == events[..m];
    forall n | m < n <= |events|
      ensures i < |Run(rules, events[..n]).rows| && Run(rules, events[..n]).rows[i].fate != Queued
    {
      assert events[..n][..m + 1] == events[..m + 1];
      RunLater(rules, events[..n], m + 1, i);
    }
  }

  /** Over whole runs of intakes, claims, rechecks and sweeps of any number of processes: a
      turn that an enabled offline rule strands from the end of its wait on is decided within
      six minutes of any later moment in which every look finds it offline and gets to it;
      and then it is rejected, unless a runner claimed it. */
  lemma StrandedTurnIsDecided(rules: seq<Rule>, events: seq<Event>, i: nat, r: Rule, due: Time, from: Time) returns (m: nat)
    requires Chronological(events) && i < |Run(rules, events).rows|
    requires TickingAround(events, from) && FoundOffline(rules, events, i, from)
    requires StrandedFrom(rules, Run(rules, events).rows[i].(fate := Queued), r, due) && from >= due
    ensures m < |events| && from < events[m].at <= from + 6 * MINUTE
    ensures forall n :: m < n <= |events| ==>
              i < |Run(rules, events[..n]).rows| && Run(rules, events[..n]).rows[i].fate != Queued
    ensures Unclaimed(events, i) ==> Run(rules, events).rows[i].fate.Rejected?
  {
    var row := Run(rules, events).rows[i].(fate := Queued);
    m := DecidingLook(rules, events, r, due, from, row);
    var s, e := Run(rules, events[..m]), events[m];
    assert Finds(rules, s, e, i);
    StrandedAt(rules, row, r, due, e.at);
    RowBefore(rules, events, i, m, s, Run(rules, events));
    LookDecides(rules, s, e, i, row, r);
    DecidedFromThen(rules, events, m, i, s);
    assert events[..|events|] == events;
    if Unclaimed(events, i) {
      UnclaimedIsNotTaken(rules, events, i);
    }
  }
}
