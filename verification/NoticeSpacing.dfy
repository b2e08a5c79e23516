/** At most one sender notice per thread per day: exactly when it holds. */
module NoticeSpacing {
  import opened Basics
  import opened Notices

  /** Notices that silence each other: same agent and thread, different turns. */
  predicate Rivals(a: Notice, b: Notice) {
    a.agent == b.agent && a.thread == b.thread && a.turn != b.turn && Counted(a) && Counted(b)
  }

  /** Any two of them were created more than a day apart. */
  ghost predicate Spaced(rows: seq<Notice>) {
    forall i, j :: 0 <= i < j < |rows| && Rivals(rows[i], rows[j]) ==>
      rows[j].createdAt - rows[i].createdAt > SENDER_WINDOW
  }

  /** A delivery that has settled on a counted status and not yet recorded its notice. */
  ghost predicate InFlight(s: State, d: int) {
    0 <= d < |s.deliveries| && !s.deliveries[d].recorded && CountedStatus(s.deliveries[d].status)
  }

  /** Two turns' deliveries that will be stored under one thread of one agent. */
  predicate Clash(v: Delivery, w: Delivery) {
    v.agent == w.agent && Stored(v.thread) == Stored(w.thread) && v.turn != w.turn
  }

  /** Recording the notice now would come within a day of none of another turn's. */
  ghost predicate Clear(v: Delivery, rows: seq<Notice>, clock: Time) {
    !Silenced(rows, v.turn, v.agent, Stored(v.thread), clock)
  }

  /** Rows spaced, each delivery in flight clear of them and of each other. */
  ghost predicate Calm(s: State) {
    && Spaced(s.rows)
    && (forall d :: InFlight(s, d) ==> Clear(s.deliveries[d], s.rows, s.clock))
    && (forall d, e :: InFlight(s, d) && InFlight(s, e) ==> !Clash(s.deliveries[d], s.deliveries[e]))
  }

  ghost predicate Dated(s: State) {
    forall i :: 0 <= i < |s.rows| ==> s.rows[i].createdAt <= s.clock
  }

  function SettledOn(s: State, a: Action): Status
    requires a.Check?
  {
    Settle(s.rows, a.turn, a.agent, a.thread, a.replyable, a.noticesOn, a.channel, s.clock)
  }

  /** No other turn's delivery is in flight for the thread that the check is about. */
  ghost predicate OthersLanded(s: State, a: Action)
    requires a.Check?
  {
    forall d :: InFlight(s, d) ==>
      var v := s.deliveries[d];
      v.agent == a.agent && Stored(v.thread) == Stored(a.thread) ==> v.turn == a.turn
  }

  /** A delivery that settles on a counted status meets no other turn's in flight on its
      thread, and its thread is silent under the id it will be stored by as well. */
  ghost predicate Alone(s: State, a: Action) {
    a.Check? && CountedStatus(SettledOn(s, a)) ==>
      && !Silenced(s.rows, a.turn, a.agent, Stored(a.thread), s.clock)
      && OthersLanded(s, a)
  }

  ghost predicate Orderly(s: State, actions: seq<Action>)
    decreases |actions|
  {
    actions == [] || (Alone(s, actions[0]) && Orderly(Step(s, actions[0]), actions[1..]))
  }

  // ---- what each step does ----

  lemma DatedStep(s: State, a: Action)
    requires Dated(s)
    ensures Dated(Step(s, a))
  {
  }

  /** Rows whose status changed, and not into one that counts anew; time may have passed. */
  lemma FewerCounted(s: State, r: State)
    requires Calm(s) && r.deliveries == s.deliveries && r.clock >= s.clock && |r.rows| == |s.rows|
    requires forall i :: 0 <= i < |s.rows| ==>
      && r.rows[i].turn == s.rows[i].turn && r.rows[i].agent == s.rows[i].agent
      && r.rows[i].thread == s.rows[i].thread && r.rows[i].createdAt == s.rows[i].createdAt
      && (Counted(r.rows[i]) ==> Counted(s.rows[i]))
    ensures Calm(r)
  {
    forall i, j | 0 <= i < j < |r.rows| && Rivals(r.rows[i], r.rows[j])
      ensures r.rows[j].createdAt - r.rows[i].createdAt > SENDER_WINDOW
    {
      assert Rivals(s.rows[i], s.rows[j]);
    }
    forall d | InFlight(r, d) ensures Clear(r.deliveries[d], r.rows, r.clock) {
      assert InFlight(s, d) && Clear(s.deliveries[d], s.rows, s.clock);
    }
    forall d, e | InFlight(r, d) && InFlight(r, e) ensures !Clash(r.deliveries[d], r.deliveries[e]) {
      assert InFlight(s, d) && InFlight(s, e);
    }
  }

  /** A check keeps the calm exactly when it is alone. */
  lemma CheckCalm(s: State, a: Action)
    requires Calm(s) && a.Check?
    ensures Calm(Step(s, a)) <==> Alone(s, a)
  {
    var r := Step(s, a);
    var n := |s.deliveries|;
    var v := r.deliveries[n];
    forall d | InFlight(r, d) && d != n ensures InFlight(s, d) && r.deliveries[d] == s.deliveries[d] {
    }
    if Alone(s, a) {
      forall d, e | InFlight(r, d) && InFlight(r, e) ensures !Clash(r.deliveries[d], r.deliveries[e]) {
        assert d != n ==> InFlight(s, d);
        assert e != n ==> InFlight(s, e);
      }
    }
    if Calm(r) && CountedStatus(v.status) {
      assert InFlight(r, n) && Clear(v, r.rows, r.clock);
      forall d | InFlight(s, d) ensures !Clash(s.deliveries[d], v) {
        assert InFlight(r, d) && r.deliveries[d] == s.deliveries[d];
      }
    }
  }

  lemma RecordCalm(s: State, d: nat)
    requires Calm(s) && Dated(s) && d < |s.deliveries| && !s.deliveries[d].recorded
    ensures Calm(Step(s, Record(d)))
  {
    var r := Step(s, Record(d));
    var v, n := s.deliveries[d], r.rows[|s.rows|];
    forall i, j | 0 <= i < j < |r.rows| && Rivals(r.rows[i], r.rows[j])
      ensures r.rows[j].createdAt - r.rows[i].createdAt > SENDER_WINDOW
    {
      if j < |s.rows| {
        assert Rivals(s.rows[i], s.rows[j]);
      } else {
        assert InFlight(s, d) && Clear(v, s.rows, s.clock);
      }
    }
    forall e | InFlight(r, e) ensures Clear(r.deliveries[e], r.rows, r.clock) {
      assert e != d && InFlight(s, e) && r.deliveries[e] == s.deliveries[e];
      assert Clear(s.deliveries[e], s.rows, s.clock);
      assert InFlight(s, d) ==> !Clash(v, s.deliveries[e]);
    }
    forall e, f | InFlight(r, e) && InFlight(r, f) ensures !Clash(r.deliveries[e], r.deliveries[f]) {
      assert InFlight(s, e) && InFlight(s, f);
    }
  }

  lemma StepCalm(s: State, a: Action)
    requires Calm(s) && Dated(s) && Alone(s, a)
    ensures Calm(Step(s, a)) && Dated(Step(s, a))
  {
    DatedStep(s, a);
    match a
    case Check(_, _, _, _, _, _) => CheckCalm(s, a);
    case Record(d) =>
      if d < |s.deliveries| && !s.deliveries[d].recorded {
        RecordCalm(s, d);
      }
    case _ => FewerCounted(s, Step(s, a));
  }

  lemma {:induction false} CalmRun(s: State, actions: seq<Action>)
    requires Calm(s) && Dated(s) && Orderly(s, actions)
    ensures Calm(Run(s, actions)) && Dated(Run(s, actions))
    decreases |actions|
  {
    if actions != [] {
      StepCalm(s, actions[0]);
      CalmRun(Step(s, actions[0]), actions[1..]);
    }
  }

  // ---- exactly when the spacing holds ----

  /** Spaced in every continuation in which deliveries check alone. */
  ghost predicate StaysSpaced(s: State) {
    forall actions :: Orderly(s, actions) ==> Spaced(Run(s, actions).rows)
  }

  lemma RunOne(s: State, a: Action)
    ensures Run(s, [a]) == Step(s, a)
    ensures !a.Check? ==> Orderly(s, [a])
  {
    assert Run(Step(s, a), [a][1..]) == Step(s, a);
  }

  lemma RunTwo(s: State, a: Action, b: Action)
    ensures Run(s, [a, b]) == Step(Step(s, a), b)
    ensures !a.Check? && !b.Check? ==> Orderly(s, [a, b])
  {
    RunOne(Step(s, a), b);
    assert [a, b][1..] == [b];
  }

  /** Two turns' deliveries that have both settled on a counted status for one thread break
      the spacing as they are recorded. */
  lemma OverlapBreaksSpacing(s: State, d: nat, e: nat)
    requires InFlight(s, d) && InFlight(s, e) && Clash(s.deliveries[d], s.deliveries[e])
    ensures !Spaced(Step(Step(s, Record(d)), Record(e)).rows)
  {
    var once := Step(s, Record(d));
    assert InFlight(once, e) && once.deliveries[e] == s.deliveries[e];
    var r := Step(once, Record(e));
    var k := |s.rows|;
    assert r.rows[k] == once.rows[k] && Rivals(r.rows[k], r.rows[k + 1]);
  }

  lemma UnclearBreaksSpacing(s: State, d: nat)
    requires InFlight(s, d) && !Clear(s.deliveries[d], s.rows, s.clock)
    ensures !Spaced(Step(s, Record(d)).rows)
  {
    var v := s.deliveries[d];
    var i :| 0 <= i < |s.rows| && s.rows[i].agent == v.agent && s.rows[i].thread == Stored(v.thread)
             && Counted(s.rows[i]) && s.rows[i].createdAt >= s.clock - SENDER_WINDOW && s.rows[i].turn != v.turn;
    var rows := Step(s, Record(d)).rows;
    assert rows[i] == s.rows[i] && Rivals(rows[i], rows[|s.rows|]);
  }

  /** Notice spacing, exactly: any two notices on one agent and thread, from different turns
      and sent, held or pending, stay more than 24 hours apart in every continuation in which
      deliveries check alone, whatever claims, reports and expiries come between, if and only
      if they are so now and the deliveries in flight are clear of them and of each other. */
  lemma SpacingHolds(s: State)
    requires Dated(s)
    ensures StaysSpaced(s) <==> Calm(s)
  {
    if Calm(s) {
      forall actions | Orderly(s, actions) ensures Spaced(Run(s, actions).rows) {
        CalmRun(s, actions);
      }
    } else if !Spaced(s.rows) {
      RunOne(s, Advance(0));
    } else if d :| InFlight(s, d) && !Clear(s.deliveries[d], s.rows, s.clock) {
      UnclearBreaksSpacing(s, d);
      RunOne(s, Record(d));
    } else {
      var d, e :| InFlight(s, d) && InFlight(s, e) && Clash(s.deliveries[d], s.deliveries[e]);
      OverlapBreaksSpacing(s, d, e);
      RunTwo(s, Record(d), Record(e));
    }
  }

  /** And a check that is not alone always ends it: the calm before it is lost, and with it
      the spacing in some continuation that checks nothing more. */
  lemma CrowdedCheckBreaksSpacing(s: State, a: Action)
    requires Dated(s) && Calm(s) && a.Check?
    ensures Alone(s, a) <==> StaysSpaced(Step(s, a))
  {
    CheckCalm(s, a);
    DatedStep(s, a);
    SpacingHolds(Step(s, a));
  }

  lemma SpacingFromTheStart(actions: seq<Action>)
    requires Orderly(EMPTY, actions)
    ensures Spaced(Run(EMPTY, actions).rows)
  {
    CalmRun(EMPTY, actions);
  }

  /** For thread ids that fit the column, a delivery's own look at the thread already finds
      what is stored under it, so only overlap can crowd a check. */
  lemma ShortThreadsOnlyOverlap(s: State, a: Action)
    requires a.Check? && |a.thread| <= THREAD_MAX
    ensures Alone(s, a) <==>
            (CountedStatus(SettledOn(s, a)) ==> OthersLanded(s, a))
  {
  }

  // ---- long thread ids ----

  lemma {:induction false} StoredThreadsAreShort(s: State, actions: seq<Action>)
    requires forall i :: 0 <= i < |s.rows| ==> |s.rows[i].thread| <= THREAD_MAX
    ensures forall i :: 0 <= i < |Run(s, actions).rows| ==> |Run(s, actions).rows[i].thread| <= THREAD_MAX
    decreases |actions|
  {
    if actions != [] {
      StoredThreadsAreShort(Step(s, actions[0]), actions[1..]);
    }
  }

  /** A thread id longer than the stored one is never silenced, in any reachable state,
      however recently it was answered. */
  lemma LongThreadIsNeverSilenced(actions: seq<Action>, turn: nat, agent: string, thread: string, now: Time)
    requires |thread| > THREAD_MAX
    ensures !Silenced(Run(EMPTY, actions).rows, turn, agent, thread, now)
  {
    StoredThreadsAreShort(EMPTY, actions);
  }

  /** So two turns on such a thread are both answered at once, one after the other, with no
      overlap at all. */
  lemma LongThreadBreaksSpacing(thread: string)
    requires |thread| > THREAD_MAX
    ensures var first, second := Check(1, "a", thread, true, true, Gmail("m")), Check(2, "a", thread, true, true, Gmail("m"));
            var s := Run(EMPTY, [first, Record(0)]);
            && (forall d :: !InFlight(s, d))
            && !Spaced(Run(s, [second, Record(1)]).rows)
  {
    var first, second := Check(1, "a", thread, true, true, Gmail("m")), Check(2, "a", thread, true, true, Gmail("m"));
    RunTwo(EMPTY, first, Record(0));
    var s := Run(EMPTY, [first, Record(0)]);
    RunTwo(s, second, Record(1));
    var checked := Step(s, second);
    assert SettledOn(s, second) == Pending;
    var r := Step(checked, Record(1));
    assert Rivals(r.rows[0], r.rows[1]);
  }
}
