/** Turns as the admission rules see them: refused at intake, at a claim or by the
    throttled sweep, and the count each rule keeps of its refusals. */
module AdmissionDesk {
  import opened Basics
  import opened AdmissionRules
  import opened AdmissionGates

  /** How often the sweep actually looks, per process. */
  const SWEEP_EVERY: int := 5 * MINUTE
  /** The interval of the background clock that drives the sweep. */
  const TICK_EVERY: int := MINUTE

  datatype Fate = Queued | Taken | Rejected(pk: nat)

  /** A turn; one without an agent (a project's) is never evaluated. */
  datatype Row = Row(turn: Turn, workspace: string, agent: Option<string>, created: Time, fate: Fate)

  /** `_rules(agent)`: the enabled rules of its workspace that apply to it. */
  function Scoped(rules: seq<Rule>, workspace: string, agent: string): seq<Rule> {
    if rules == [] then []
    else
      (if rules[0].enabled && rules[0].workspace == workspace
          && (rules[0].agent == None || rules[0].agent == Some(agent)) then [rules[0]] else [])
      + Scoped(rules[1..], workspace, agent)
  }

  /** A new turn's row, refused in the transaction that creates it if a rule says so. */
  function Admitted(rules: seq<Rule>, turn: Turn, workspace: string, agent: Option<string>, now: Time, reach: string): Row {
    var row := Row(turn, workspace, agent, now, Queued);
    if agent == None then row
    else
      match AtEnqueue(turn, Scoped(rules, workspace, agent.value), reach, 0)
      case None => row
      case Some(rule) => row.(fate := Rejected(rule.pk))
  }

  /** A queued row after a claim: taken, or refused by a rule. */
  function Claimed(rules: seq<Rule>, row: Row, kind: string, mode: string): Row {
    if row.agent == None then row.(fate := Taken)
    else
      match AtClaim(row.turn, Scoped(rules, row.workspace, row.agent.value), kind, mode)
      case None => row.(fate := Taken)
      case Some(rule) => row.(fate := Rejected(rule.pk))
  }

  /** `recheck`, where the row stands at `reach` at time `now`. */
  function Recheck(rules: seq<Rule>, row: Row, reach: string, now: Time): Option<Rule> {
    if row.fate != Queued || row.agent == None then None
    else AtRecheck(row.turn, Scoped(rules, row.workspace, row.agent.value), reach, now - row.created)
  }

  function Rechecked(rules: seq<Rule>, row: Row, reach: string, now: Time): Row {
    var r := Recheck(rules, row, reach, now);
    if r.Some? then row.(fate := Rejected(r.value.pk)) else row
  }

  predicate Offline(r: Rule) {
    r.enabled && r.action == Reject && r.reach == OFFLINE
  }

  /** The waits of the enabled offline rules, in every workspace. */
  function Waits(rules: seq<Rule>): seq<nat> {
    if rules == [] then []
    else (if Offline(rules[0]) then [rules[0].waitHours] else []) + Waits(rules[1..])
  }

  function Min(s: seq<nat>): (m: nat)
    requires s != []
    ensures m in s && forall x :: x in s ==> m <= x
  {
    if |s| == 1 then s[0]
    else
      var m := Min(s[1..]);
      assert s == [s[0]] + s[1..];
      if s[0] <= m then s[0] else m
  }

  /** Old enough for some enabled offline rule's wait. */
  predicate OldEnough(rules: seq<Rule>, row: Row, now: Time) {
    Waits(rules) != [] && row.created <= now - Min(Waits(rules)) * HOUR
  }

  /** What one look of the sweep makes of a row. */
  function Swept(rules: seq<Rule>, row: Row, reach: string, now: Time): Row {
    if row.fate == Queued && OldEnough(rules, row, now) then Rechecked(rules, row, reach, now) else row
  }

  lemma {:induction false} ScopedHas(rules: seq<Rule>, workspace: string, agent: string)
    ensures forall r :: r in Scoped(rules, workspace, agent) <==>
              r in rules && r.enabled && r.workspace == workspace && (r.agent == None || r.agent == Some(agent))
  {
    if rules != [] {
      assert rules == [rules[0]] + rules[1..];
      ScopedHas(rules[1..], workspace, agent);
    }
  }

  lemma InScope(rules: seq<Rule>, workspace: string, agent: string, r: Rule)
    requires r in Scoped(rules, workspace, agent)
    ensures r in rules && r.enabled
  {
  }

  lemma {:induction false} WaitsHas(rules: seq<Rule>)
    ensures forall r :: r in rules && Offline(r) ==> r.waitHours in Waits(rules)
  {
    if rules != [] {
      assert rules == [rules[0]] + rules[1..];
      WaitsHas(rules[1..]);
    }
  }

  /** A matching offline rule's wait is over. */
  lemma WaitIsOver(r: Rule, known: Facts)
    requires r.reach == OFFLINE && Reach in known.vals && Match(r, known) == Some(true)
    ensures known.waited >= r.waitHours * HOUR
  {
    assert Verdict(r, known, Reach) == Some(true);
  }

  lemma OldEnoughFor(rules: seq<Rule>, row: Row, r: Rule, now: Time)
    requires r in rules && Offline(r) && now - row.created >= r.waitHours * HOUR
    ensures OldEnough(rules, row, now)
  {
    WaitsHas(rules);
    assert Min(Waits(rules)) * HOUR <= r.waitHours * HOUR;
  }

  lemma DecidedAfterWait(scoped: seq<Rule>, known: Facts, r: Rule)
    requires Decide(scoped, known) == Some(r) && Reach in known.vals
    ensures r in scoped && r.action == Reject
    ensures r.reach == OFFLINE ==> known.waited >= r.waitHours * HOUR
  {
    DecideMeaning(scoped, known);
    if r.reach == OFFLINE {
      WaitIsOver(r, known);
    }
  }

  /** A recheck's refusal comes from an enabled reject rule, and an offline one has
      been waited for. */
  lemma RecheckMeaning(rules: seq<Rule>, row: Row, reach: string, now: Time, r: Rule)
    requires Recheck(rules, row, reach, now) == Some(r)
    ensures r in rules && r.enabled && r.action == Reject
    ensures r.reach == OFFLINE ==> now - row.created >= r.waitHours * HOUR
  {
    RecheckAsks(rules, row, reach, now, r);
    InScope(rules, row.workspace, row.agent.value, r);
  }

  lemma RecheckAsks(rules: seq<Rule>, row: Row, reach: string, now: Time, r: Rule)
    requires Recheck(rules, row, reach, now) == Some(r)
    ensures row.agent.Some? && r in Scoped(rules, row.workspace, row.agent.value) && r.action == Reject
    ensures r.reach == OFFLINE ==> now - row.created >= r.waitHours * HOUR
  {
    var scoped := Scoped(rules, row.workspace, row.agent.value);
    var known := ReachFacts(row.turn, reach, now - row.created);
    assert Decide(scoped, known) == Some(r);
    DecidedAfterWait(scoped, known, r);
  }

  /** The age filter hides no refusal the sweep is for: at any instant, a queued turn
      that rechecking every turn would refuse under an offline rule is old enough. */
  lemma PrefilterHidesNothing(rules: seq<Rule>, row: Row, reach: string, now: Time, r: Rule)
    requires Recheck(rules, row, reach, now) == Some(r) && r.reach == OFFLINE
    ensures OldEnough(rules, row, now)
    ensures Swept(rules, row, reach, now) == row.(fate := Rejected(r.pk))
  {
    RecheckMeaning(rules, row, reach, now, r);
    OldEnoughFor(rules, row, r, now);
  }

  /** An enabled offline rule that refuses the row, its wait over, with no allow rule
      that could cover it. */
  ghost predicate Stranded(rules: seq<Rule>, row: Row, r: Rule, now: Time) {
    && row.fate == Queued && row.agent.Some?
    && var scoped := Scoped(rules, row.workspace, row.agent.value);
    && r in scoped && Offline(r)
    && Match(r, ReachFacts(row.turn, OFFLINE, now - row.created)) == Some(true)
    && !MayBeAllowed(scoped, ReachFacts(row.turn, OFFLINE, now - row.created))
  }

  lemma StrandedIsRefused(scoped: seq<Rule>, t: Turn, waited: int, r: Rule)
    requires r in scoped && r.action == Reject && r.reach != ""
    requires Match(r, ReachFacts(t, OFFLINE, waited)) == Some(true)
    requires !MayBeAllowed(scoped, ReachFacts(t, OFFLINE, waited))
    ensures AtRecheck(t, scoped, OFFLINE, waited).Some?
    ensures r.reach == OFFLINE ==> waited >= r.waitHours * HOUR
  {
    DecideMeaning(scoped, ReachFacts(t, OFFLINE, waited));
    if r.reach == OFFLINE {
      WaitIsOver(r, ReachFacts(t, OFFLINE, waited));
    }
  }

  lemma StrandedIsRechecked(rules: seq<Rule>, row: Row, r: Rule, now: Time)
    requires Stranded(rules, row, r, now)
    ensures Recheck(rules, row, OFFLINE, now).Some?
    ensures r in rules && Offline(r) && now - row.created >= r.waitHours * HOUR
  {
    StrandedIsRefused(Scoped(rules, row.workspace, row.agent.value), row.turn, now - row.created, r);
    InScope(rules, row.workspace, row.agent.value, r);
  }

  /** A look of the sweep refuses every stranded row it finds offline. */
  lemma SweepRejectsStranded(rules: seq<Rule>, row: Row, r: Rule, now: Time)
    requires Stranded(rules, row, r, now)
    ensures Swept(rules, row, OFFLINE, now).fate.Rejected?
  {
    StrandedIsRechecked(rules, row, r, now);
    OldEnoughFor(rules, row, r, now);
  }

  // ---- ticks, throttled in each process ----

  datatype Tick = Tick(time: Time, process: nat)

  /** When each process last looked, after these ticks. */
  function LastLooks(ticks: seq<Tick>): map<nat, Time> {
    if ticks == [] then map[]
    else
      var k := |ticks| - 1;
      var last := LastLooks(ticks[..k]);
      if Due(last, ticks[k]) then last[ticks[k].process := ticks[k].time] else last
  }

  predicate Due(last: map<nat, Time>, t: Tick) {
    t.process !in last || t.time - last[t.process] >= SWEEP_EVERY
  }

  /** Tick `k` is one at which its process looks. */
  predicate Looks(ticks: seq<Tick>, k: nat)
    requires k < |ticks|
  {
    Due(LastLooks(ticks[..k]), ticks[k])
  }

  lemma {:induction false} LastLookIsALook(ticks: seq<Tick>, p: nat) returns (j: nat)
    requires p in LastLooks(ticks)
    ensures j < |ticks| && Looks(ticks, j) && ticks[j].time == LastLooks(ticks)[p]
  {
    var k := |ticks| - 1;
    var last := LastLooks(ticks[..k]);
    if Due(last, ticks[k]) && ticks[k].process == p {
      j := k;
    } else {
      j := LastLookIsALook(ticks[..k], p);
      assert ticks[..k][..j] == ticks[..j];
    }
  }

  /** At any tick, some process looked less than SWEEP_EVERY ago or looks now. */
  lemma LookedRecently(ticks: seq<Tick>, k: nat) returns (j: nat)
    requires k < |ticks|
    ensures j <= k && Looks(ticks, j) && ticks[k].time - ticks[j].time < SWEEP_EVERY
  {
    if Looks(ticks, k) {
      j := k;
    } else {
      j := LastLookIsALook(ticks[..k], ticks[k].process);
      assert ticks[..k][..j] == ticks[..j];
    }
  }

  ghost predicate InOrder(ticks: seq<Tick>) {
    forall i, j :: 0 <= i < j < |ticks| ==> ticks[i].time <= ticks[j].time
  }

  ghost predicate EveryMinute(ticks: seq<Tick>) {
    forall i :: 0 <= i < |ticks| - 1 ==> ticks[i + 1].time - ticks[i].time <= TICK_EVERY
  }

  /** The first tick at or after `x` comes within a minute of it. */
  lemma {:induction false} TickSoon(ticks: seq<Tick>, x: Time) returns (k: nat)
    requires ticks != [] && EveryMinute(ticks)
    requires ticks[0].time <= x <= ticks[|ticks| - 1].time
    ensures k < |ticks| && x <= ticks[k].time <= x + TICK_EVERY
  {
    k := 0;
    while ticks[k].time < x
      invariant k < |ticks|
      invariant forall i :: 0 <= i < k ==> ticks[i].time < x
      invariant ticks[k].time <= x + TICK_EVERY
      decreases |ticks| - k
    {
      if k == |ticks| - 1 {
        assert false;
      }
      assert ticks[k + 1].time - ticks[k].time <= TICK_EVERY;
      k := k + 1;
    }
  }

  /** A turn that stays queued, offline and with no allow rule that could cover it is
      refused within six minutes of any moment from the end of its rule's wait on, however
      many processes share the clock, unless a look in those minutes is cut short (`cut`)
      before it comes to the turn. */
  lemma RejectedInTime(rules: seq<Rule>, row: Row, r: Rule, ticks: seq<Tick>, from: Time, cut: set<nat>) returns (j: nat)
    requires InOrder(ticks) && EveryMinute(ticks) && ticks != []
    requires from >= row.created + r.waitHours * HOUR
    requires ticks[0].time <= from + SWEEP_EVERY <= ticks[|ticks| - 1].time
    requires forall k :: k in cut && k < |ticks| ==> !(from <= ticks[k].time <= from + 6 * MINUTE)
    requires forall now :: now >= row.created + r.waitHours * HOUR ==> Stranded(rules, row, r, now)
    ensures j < |ticks| && Looks(ticks, j) && j !in cut
    ensures from < ticks[j].time <= from + 6 * MINUTE
    ensures Swept(rules, row, OFFLINE, ticks[j].time).fate.Rejected?
  {
    var k := TickSoon(ticks, from + SWEEP_EVERY);
    j := LookedRecently(ticks, k);
    assert ticks[j].time <= ticks[k].time;
    SweepRejectsStranded(rules, row, r, ticks[j].time);
  }

  // ---- a whole look ----

  /** Where a row stands, or nothing if asking fails. */
  type Standing = nat -> Option<string>

  /** A look asks where the row stands only if some rule wants to know. */
  predicate Asks(rules: seq<Rule>, row: Row) {
    row.fate == Queued && row.agent.Some? && AnyReach(Scoped(rules, row.workspace, row.agent.value))
  }

  predicate Fails(rules: seq<Rule>, row: Row, told: Option<string>, now: Time) {
    OldEnough(rules, row, now) && Asks(rules, row) && told == None
  }

  function Told(reach: Standing, i: nat): string {
    match reach(i)
    case None => ""
    case Some(where) => where
  }

  /** How far a look gets, from row `i` on: to the first row it cannot place. */
  function LookEnds(rules: seq<Rule>, rows: seq<Row>, reach: Standing, now: Time, i: nat): (n: nat)
    requires i <= |rows|
    ensures i <= n <= |rows|
    decreases |rows| - i
  {
    if i == |rows| || Fails(rules, rows[i], reach(i), now) then i else LookEnds(rules, rows, reach, now, i + 1)
  }

  /** The rows after a look that got through the first `n`. */
  function LookedThrough(rules: seq<Rule>, rows: seq<Row>, reach: Standing, now: Time, n: nat): (r: seq<Row>)
    requires n <= |rows|
    ensures |r| == |rows|
  {
    seq(|rows|, i requires 0 <= i < |rows| => if i < n then Swept(rules, rows[i], Told(reach, i), now) else rows[i])
  }

  /** How many rows are refused in `after` that were queued before. */
  function NewlyRejected(before: seq<Row>, after: seq<Row>): nat
    requires |before| == |after|
  {
    if before == [] then 0
    else
      var k := |before| - 1;
      NewlyRejected(before[..k], after[..k]) + (if before[k].fate == Queued && after[k].fate.Rejected? then 1 else 0)
  }

  lemma {:induction false} NoneRejected(rows: seq<Row>)
    ensures NewlyRejected(rows, rows) == 0
  {
    if rows != [] {
      NoneRejected(rows[..|rows| - 1]);
    }
  }

  lemma {:induction false} OneMoreRejected(before: seq<Row>, after: seq<Row>, k: nat, row: Row)
    requires |before| == |after| && k < |after| && after[k] == before[k]
    ensures NewlyRejected(before, after[k := row])
            == NewlyRejected(before, after) + (if before[k].fate == Queued && row.fate.Rejected? then 1 else 0)
  {
    var n := |before| - 1;
    if k < n {
      OneMoreRejected(before[..n], after[..n], k, row);
      assert after[k := row][..n] == after[..n][k := row];
    } else {
      assert after[k := row][..n] == after[..n];
    }
  }

  lemma LookStep(rules: seq<Rule>, was: seq<Row>, rows: seq<Row>, reach: Standing, now: Time, k: nat)
    requires k < |was| && rows == LookedThrough(rules, was, reach, now, k)
    ensures LookedThrough(rules, was, reach, now, k + 1) == rows[k := Swept(rules, was[k], Told(reach, k), now)]
    ensures NewlyRejected(was, LookedThrough(rules, was, reach, now, k + 1))
            == NewlyRejected(was, rows) + (if Swept(rules, was[k], Told(reach, k), now) != was[k] then 1 else 0)
  {
    var row := Swept(rules, was[k], Told(reach, k), now);
    OneMoreRejected(was, rows, k, row);
    assert LookedThrough(rules, was, reach, now, k + 1) == rows[k := row];
  }

  // ---- the rows and counters themselves ----

  function CountRejected(rows: seq<Row>, pk: nat): nat {
    if rows == [] then 0
    else CountRejected(rows[..|rows| - 1], pk) + (if rows[|rows| - 1].fate == Rejected(pk) then 1 else 0)
  }

  lemma {:induction false} CountAfterReject(rows: seq<Row>, i: nat, pk: nat, q: nat)
    requires i < |rows| && rows[i].fate == Queued
    ensures CountRejected(rows[i := rows[i].(fate := Rejected(pk))], q)
            == CountRejected(rows, q) + (if q == pk then 1 else 0)
  {
    var next := rows[i := rows[i].(fate := Rejected(pk))];
    var k := |rows| - 1;
    if i < k {
      CountAfterReject(rows[..k], i, pk, q);
      assert next[..k] == rows[..k][i := rows[i].(fate := Rejected(pk))];
    } else {
      assert next[..k] == rows[..k];
    }
  }

  lemma {:induction false} CountAfterTake(rows: seq<Row>, i: nat, q: nat)
    requires i < |rows| && rows[i].fate == Queued
    ensures CountRejected(rows[i := rows[i].(fate := Taken)], q) == CountRejected(rows, q)
  {
    var next := rows[i := rows[i].(fate := Taken)];
    var k := |rows| - 1;
    if i < k {
      CountAfterTake(rows[..k], i, q);
      assert next[..k] == rows[..k][i := rows[i].(fate := Taken)];
    } else {
      assert next[..k] == rows[..k];
    }
  }

  class Desk {
    var rules: seq<Rule>
    var rows: seq<Row>
    var fired: map<nat, nat>
    var lastSweep: Option<Time>

    /** Every refused turn was counted once, by the rule that refused it. */
    ghost predicate Valid()
      reads this
    {
      forall pk: nat :: (if pk in fired then fired[pk] else 0) == CountRejected(rows, pk)
    }

    constructor (rules: seq<Rule>)
      ensures Valid() && this.rules == rules && rows == [] && lastSweep == None
    {
      this.rules := rules;
      rows := [];
      fired := map[];
      lastSweep := None;
    }

    /** `reject`: a turn still queued is closed and its rule's count goes up; any other
        turn keeps its fate. */
    method RejectTurn(i: nat, pk: nat) returns (ok: bool)
      requires Valid() && i < |rows|
      modifies this`rows, this`fired
      ensures Valid()
      ensures ok <==> old(rows)[i].fate == Queued
      ensures rows == if ok then old(rows)[i := old(rows)[i].(fate := Rejected(pk))] else old(rows)
    {
      ok := rows[i].fate == Queued;
      if ok {
        forall q: nat { CountAfterReject(rows, i, pk, q); }
        fired := fired[pk := (if pk in fired then fired[pk] else 0) + 1];
        rows := rows[i := rows[i].(fate := Rejected(pk))];
      }
    }

    /** A new turn, refused in the transaction that creates it if a rule says so. */
    method Intake(turn: Turn, workspace: string, agent: Option<string>, now: Time, reach: string) returns (ok: bool)
      requires Valid()
      modifies this`rows, this`fired
      ensures Valid()
      ensures rows == old(rows) + [Admitted(rules, turn, workspace, agent, now, reach)]
      ensures ok <==> Admitted(rules, turn, workspace, agent, now, reach).fate == Queued
    {
      var i := |rows|;
      assert (rows + [Row(turn, workspace, agent, now, Queued)])[..i] == rows;
      rows := rows + [Row(turn, workspace, agent, now, Queued)];
      ok := true;
      if agent.Some? {
        var rule := AtEnqueue(turn, Scoped(rules, workspace, agent.value), reach, 0);
        if rule.Some? {
          var rejected := RejectTurn(i, rule.value.pk);
          ok := !rejected;
        }
      }
    }

    /** A runner's claim of a queued turn: refused by a rule, or taken. */
    method ClaimTurn(i: nat, kind: string, mode: string) returns (taken: bool)
      requires Valid() && i < |rows| && rows[i].fate == Queued
      modifies this`rows, this`fired
      ensures Valid()
      ensures rows == old(rows)[i := Claimed(rules, old(rows)[i], kind, mode)]
      ensures taken <==> rows[i].fate == Taken
    {
      var row := rows[i];
      if row.agent.Some? {
        var rule := AtClaim(row.turn, Scoped(rules, row.workspace, row.agent.value), kind, mode);
        if rule.Some? {
          var rejected := RejectTurn(i, rule.value.pk);
          return !rejected;
        }
      }
      forall q: nat { CountAfterTake(rows, i, q); }
      rows := rows[i := row.(fate := Taken)];
      return true;
    }

    /** `recheck` of one row. */
    method RecheckTurn(i: nat, reach: string, now: Time) returns (rejected: bool)
      requires Valid() && i < |rows|
      modifies this`rows, this`fired
      ensures Valid()
      ensures rows == old(rows)[i := Rechecked(rules, old(rows)[i], reach, now)]
      ensures rejected <==> Recheck(rules, old(rows)[i], reach, now).Some?
    {
      var rule := Recheck(rules, rows[i], reach, now);
      rejected := false;
      if rule.Some? {
        rejected := RejectTurn(i, rule.value.pk);
      }
    }

    /** One turn of the sweep's loop: the row rechecked if it is queued and old enough. */
    method SweepRow(k: nat, reach: string, now: Time) returns (n: nat)
      requires Valid() && k < |rows| && Waits(rules) != []
      modifies this`rows, this`fired
      ensures Valid()
      ensures rows == old(rows)[k := Swept(rules, old(rows)[k], reach, now)]
      ensures n == if Swept(rules, old(rows)[k], reach, now) != old(rows)[k] then 1 else 0
    {
      if rows[k].fate == Queued && rows[k].created <= now - Min(Waits(rules)) * HOUR {
        var rejected := RecheckTurn(k, reach, now);
        return if rejected then 1 else 0;
      }
      assert rows[k := rows[k]] == rows;
      return 0;
    }

    /** The look itself: row by row, to the first that it cannot place. */
    method Look(now: Time, reach: Standing) returns (n: nat)
      requires Valid() && Waits(rules) != []
      modifies this`rows, this`fired
      ensures Valid()
      ensures rows == LookedThrough(rules, old(rows), reach, now, LookEnds(rules, old(rows), reach, now, 0))
      ensures n == NewlyRejected(old(rows), rows)
    {
      n := 0;
      ghost var was := rows;
      NoneRejected(was);
      assert LookedThrough(rules, was, reach, now, 0) == was;
      for k := 0 to |rows|
        invariant Valid() && k <= |was| && rows == LookedThrough(rules, was, reach, now, k)
        invariant LookEnds(rules, was, reach, now, 0) == LookEnds(rules, was, reach, now, k)
        invariant n == NewlyRejected(was, rows)
      {
        assert rows[k] == was[k];
        if Fails(rules, rows[k], reach(k), now) {
          return;
        }
        LookStep(rules, was, rows, reach, now, k);
        var m := SweepRow(k, Told(reach, k), now);
        n := n + m;
      }
    }

    /** `sweep_unrunnable`: throttled, or a look; the number of turns it refuses. */
    method Sweep(now: Time, reach: Standing) returns (n: nat)
      requires Valid()
      modifies this`rows, this`fired, this`lastSweep
      ensures Valid()
      ensures var throttled := old(lastSweep).Some? && now - old(lastSweep).value < SWEEP_EVERY;
              && lastSweep == (if throttled then old(lastSweep) else Some(now))
              && rows == (if throttled then old(rows)
                          else LookedThrough(rules, old(rows), reach, now, LookEnds(rules, old(rows), reach, now, 0)))
      ensures |rows| == |old(rows)| && n == NewlyRejected(old(rows), rows)
    {
      NoneRejected(rows);
      if lastSweep.Some? && now - lastSweep.value < SWEEP_EVERY {
        return 0;
      }
      lastSweep := Some(now);
      if Waits(rules) == [] {
        assert LookedThrough(rules, rows, reach, now, LookEnds(rules, rows, reach, now, 0)) == rows;
        return 0;
      }
      n := Look(now, reach);
    }
  }

  /** A look that can place every row rejects every stranded one. */
  lemma WholeLookRejectsStranded(rules: seq<Rule>, rows: seq<Row>, reach: Standing, now: Time, i: nat, r: Rule)
    requires i < LookEnds(rules, rows, reach, now, 0) && reach(i) == Some(OFFLINE) && Stranded(rules, rows[i], r, now)
    ensures LookedThrough(rules, rows, reach, now, LookEnds(rules, rows, reach, now, 0))[i].fate.Rejected?
  {
    SweepRejectsStranded(rules, rows[i], r, now);
  }
}
