/** Sender notices: recorded at most once a day per thread, leased to runners, reported,
    and given up on after a day. Every database statement is one step; deliveries,
    expiry passes, claims and reports of any number of processes interleave. */
module Notices {
  import opened Basics

  /** The time a claim is good for; after it any runner may claim the notice. */
  const LEASE: int := 15 * MINUTE
  /** The age at which an unsent notice is abandoned. */
  const EXPIRES: int := 24 * HOUR
  /** The time for which a notice on a thread keeps others off it. */
  const SENDER_WINDOW: int := 24 * HOUR
  /** The length of the stored thread id. */
  const THREAD_MAX := 64

  datatype Status = Sent | Held | Skipped | Failed | Pending

  datatype Notice = Notice(
    turn: nat, agent: string, thread: string,
    status: Status, createdAt: Time, mailbox: string,
    claimedBy: Option<nat>, claimedAt: Option<Time>)

  /** How a notice on this turn would be sent, the text aside. */
  datatype Channel = Hosted(accepted: bool) | Gmail(mailbox: string)

  /** A delivery between its look at the thread and its insert. */
  datatype Delivery = Delivery(turn: nat, agent: string, thread: string, status: Status,
                               mailbox: string, checkedAt: Time, recorded: bool)

  /** An expiry pass (its own, or the one a runner's claim starts with): the rows it
      read as overdue and has still to write. */
  datatype Pass = Pass(now: Time, todo: set<nat>, runner: Option<nat>, done: bool)

  datatype Lease = Lease(notice: nat, runner: nat, at: Time)

  datatype State = State(
    rows: seq<Notice>, deliveries: seq<Delivery>, passes: seq<Pass>,
    leases: seq<Lease>,     // every lease ever given, in order
    clock: Time)

  datatype Action =
    | Advance(ticks: nat)
    | Check(turn: nat, agent: string, thread: string, replyable: bool, noticesOn: bool, channel: Channel)
    | Record(d: nat)
    | StartPass(claimer: Option<nat>)
    | WriteOne(p: nat, i: nat)
    | GiveLeases(p: nat, eligible: set<nat>)
    | Report(reporter: nat, i: nat, outcome: Status)

  // ---- the decisions ----

  predicate CountedStatus(status: Status) {
    status == Sent || status == Held || status == Pending
  }

  predicate Counted(n: Notice) {
    CountedStatus(n.status)
  }

  /** `recent.exists()`: another turn's notice silences this thread. */
  predicate Silenced(rows: seq<Notice>, turn: nat, agent: string, thread: string, now: Time) {
    exists i :: 0 <= i < |rows|
      && rows[i].agent == agent && rows[i].thread == thread && Counted(rows[i])
      && rows[i].createdAt >= now - SENDER_WINDOW && rows[i].turn != turn
  }

  /** The status `_sender_notice` settles on. */
  function Settle(rows: seq<Notice>, turn: nat, agent: string, thread: string,
                  replyable: bool, noticesOn: bool, channel: Channel, now: Time): Status {
    if !replyable then Skipped
    else if Silenced(rows, turn, agent, thread, now) then Skipped
    else if !noticesOn then Held
    else match channel
      case Hosted(accepted) => if accepted then Sent else Failed
      case Gmail(_) => Pending
  }

  function MailboxOf(channel: Channel, status: Status): string {
    if channel.Gmail? && status == Pending then channel.mailbox else ""
  }

  function Stored(thread: string): string {
    if |thread| <= THREAD_MAX then thread else thread[..THREAD_MAX]
  }

  predicate Overdue(n: Notice, now: Time) {
    n.status == Pending && n.createdAt < now - EXPIRES
  }

  predicate Leasable(n: Notice, now: Time) {
    n.status == Pending && (n.claimedAt.None? || n.claimedAt.value < now - LEASE)
  }

  /** What a report may say; only a failure leaves the notice to be tried again. */
  predicate Outcome(s: Status) {
    s == Sent || s == Skipped || s == Failed
  }

  function Reported(n: Notice, runner: nat, outcome: Status): Notice {
    if n.status == Pending && n.claimedBy == Some(runner) && outcome != Failed
    then n.(status := outcome) else n
  }

  /** Another turn's notice silences a thread for 24 hours if it was sent, held back or left
      pending; what was skipped or has failed does not count. */
  lemma SilencedExactly(rows: seq<Notice>, turn: nat, agent: string, thread: string, now: Time)
    ensures Silenced(rows, turn, agent, thread, now) <==>
              exists n :: n in rows && n.agent == agent && n.thread == thread && n.turn != turn
                          && n.status in {Sent, Held, Pending} && now - n.createdAt <= 24 * HOUR
  {
    if n :| n in rows && n.agent == agent && n.thread == thread && n.turn != turn
            && n.status in {Sent, Held, Pending} && now - n.createdAt <= 24 * HOUR {
      var i :| 0 <= i < |rows| && rows[i] == n;
      assert Counted(rows[i]);
    }
    if Silenced(rows, turn, agent, thread, now) {
      var i :| 0 <= i < |rows| && rows[i].agent == agent && rows[i].thread == thread && Counted(rows[i])
        && rows[i].createdAt >= now - SENDER_WINDOW && rows[i].turn != turn;
      assert rows[i] in rows;
    }
  }

  // ---- the steps ----

  /** Lease to `runner` at `now` the rows from `i` on that are eligible and free. */
  function Leased(rows: seq<Notice>, eligible: set<nat>, runner: nat, now: Time): (r: seq<Notice>)
    ensures |r| == |rows|
  {
    seq(|rows|, i requires 0 <= i < |rows| =>
      if i in eligible && Leasable(rows[i], now)
      then rows[i].(claimedBy := Some(runner), claimedAt := Some(now)) else rows[i])
  }

  function LeasesGiven(rows: seq<Notice>, eligible: set<nat>, runner: nat, now: Time): seq<Lease> {
    if rows == [] then []
    else
      var k := |rows| - 1;
      LeasesGiven(rows[..k], eligible, runner, now)
      + (if k in eligible && Leasable(rows[k], now) then [Lease(k, runner, now)] else [])
  }

  function OverdueRows(rows: seq<Notice>, now: Time): set<nat> {
    set i: nat | i < |rows| && Overdue(rows[i], now)
  }

  function Step(s: State, a: Action): State {
    match a
    case Advance(ticks) => s.(clock := s.clock + ticks)
    case Check(turn, agent, thread, replyable, noticesOn, channel) =>
      var status := Settle(s.rows, turn, agent, thread, replyable, noticesOn, channel, s.clock);
      s.(deliveries := s.deliveries +
           [Delivery(turn, agent, thread, status, MailboxOf(channel, status), s.clock, false)])
    case Record(d) =>
      if d < |s.deliveries| && !s.deliveries[d].recorded then
        var v := s.deliveries[d];
        s.(rows := s.rows + [Notice(v.turn, v.agent, Stored(v.thread), v.status, s.clock, v.mailbox, None, None)],
           deliveries := s.deliveries[d := v.(recorded := true)])
      else s
    case StartPass(runner) =>
      s.(passes := s.passes +
           [Pass(s.clock, OverdueRows(s.rows, s.clock), runner, false)])
    case WriteOne(p, i) =>
      if p < |s.passes| && i in s.passes[p].todo && i < |s.rows| then
        s.(rows := s.rows[i := s.rows[i].(status := Failed)],
           passes := s.passes[p := s.passes[p].(todo := s.passes[p].todo - {i})])
      else s
    case GiveLeases(p, eligible) =>
      if p < |s.passes| && s.passes[p].todo == {} && s.passes[p].runner.Some? && !s.passes[p].done then
        var v := s.passes[p];
        s.(rows := Leased(s.rows, eligible, v.runner.value, v.now),
           leases := s.leases + LeasesGiven(s.rows, eligible, v.runner.value, v.now),
           passes := s.passes[p := v.(done := true)])
      else s
    case Report(runner, i, outcome) =>
      if i < |s.rows| && Outcome(outcome)
      then s.(rows := s.rows[i := Reported(s.rows[i], runner, outcome)]) else s
  }

  const EMPTY := State([], [], [], [], 0)

  function Run(s: State, actions: seq<Action>): State
    decreases |actions|
  {
    if actions == [] then s else Run(Step(s, actions[0]), actions[1..])
  }

  // ---- leases ----

  /** When notice `i` was leased, in order. */
  function Stamps(leases: seq<Lease>, i: nat): seq<Time> {
    if leases == [] then []
    else
      var k := |leases| - 1;
      Stamps(leases[..k], i) + (if leases[k].notice == i then [leases[k].at] else [])
  }

  ghost predicate Spread(stamps: seq<Time>) {
    forall k :: 0 <= k < |stamps| - 1 ==> stamps[k + 1] - stamps[k] > LEASE
  }

  /** The runner the last lease of `i` went to. */
  function Holder(leases: seq<Lease>, i: nat): Option<nat> {
    if leases == [] then None
    else
      var k := |leases| - 1;
      if leases[k].notice == i then Some(leases[k].runner) else Holder(leases[..k], i)
  }

  /** A row and what the log says of its leases. */
  ghost predicate RowOk(n: Notice, stamps: seq<Time>, holder: Option<nat>, clock: Time) {
    && n.createdAt <= clock
    && Spread(stamps)
    && (forall k :: 0 <= k < |stamps| ==> stamps[k] <= n.createdAt + EXPIRES)
    && (n.claimedAt.None? <==> stamps == [])
    && (n.claimedAt.Some? ==> n.claimedAt.value == stamps[|stamps| - 1])
    && n.claimedBy == holder
  }

  ghost predicate RowsOk(rows: seq<Notice>, leases: seq<Lease>, clock: Time) {
    && (forall i :: 0 <= i < |rows| ==> RowOk(rows[i], Stamps(leases, i), Holder(leases, i), clock))
    && (forall i: nat :: i >= |rows| ==> Stamps(leases, i) == [] && Holder(leases, i) == None)
  }

  /** A pass still holds every pending row that was overdue when it began. */
  ghost predicate PassOk(p: Pass, rows: seq<Notice>, clock: Time) {
    && p.now <= clock
    && (forall i :: i in p.todo ==> i < |rows| && rows[i].createdAt < p.now - EXPIRES)
    && (forall i: nat :: i < |rows| && Overdue(rows[i], p.now) ==> i in p.todo)
  }

  ghost predicate Inv(s: State) {
    && RowsOk(s.rows, s.leases, s.clock)
    && (forall p :: 0 <= p < |s.passes| ==> PassOk(s.passes[p], s.rows, s.clock))
  }

  lemma StampsSnoc(leases: seq<Lease>, l: Lease, i: nat)
    ensures Stamps(leases + [l], i) == Stamps(leases, i) + (if l.notice == i then [l.at] else [])
    ensures Holder(leases + [l], i) == (if l.notice == i then Some(l.runner) else Holder(leases, i))
  {
    assert (leases + [l])[..|leases|] == leases;
  }

  /** A claim gives out leases once: a second time nothing happens. */
  lemma LeasesOnce(s: State, p: nat, eligible: set<nat>, again: set<nat>)
    ensures Step(Step(s, GiveLeases(p, eligible)), GiveLeases(p, again)) == Step(s, GiveLeases(p, eligible))
  {
  }

  lemma {:induction false} StampsAppend(a: seq<Lease>, b: seq<Lease>, i: nat)
    ensures Stamps(a + b, i) == Stamps(a, i) + Stamps(b, i)
    ensures Holder(a + b, i) == if Holder(b, i).Some? then Holder(b, i) else Holder(a, i)
  {
    if b == [] {
      assert a + b == a;
    } else {
      var front, l := b[..|b| - 1], b[|b| - 1];
      assert b == front + [l] && a + b == (a + front) + [l];
      StampsAppend(a, front, i);
      StampsSnoc(a + front, l, i);
      StampsSnoc(front, l, i);
    }
  }

  lemma {:induction false} StampsGiven(rows: seq<Notice>, eligible: set<nat>, runner: nat, now: Time, i: nat)
    ensures var given := i < |rows| && i in eligible && Leasable(rows[i], now);
            && Stamps(LeasesGiven(rows, eligible, runner, now), i) == (if given then [now] else [])
            && Holder(LeasesGiven(rows, eligible, runner, now), i) == (if given then Some(runner) else None)
  {
    if rows != [] {
      var k := |rows| - 1;
      var before := LeasesGiven(rows[..k], eligible, runner, now);
      StampsGiven(rows[..k], eligible, runner, now, i);
      if k in eligible && Leasable(rows[k], now) {
        StampsSnoc(before, Lease(k, runner, now), i);
      } else {
        assert before + [] == before;
      }
    }
  }

  lemma LeaseKeepsRow(n: Notice, stamps: seq<Time>, holder: Option<nat>, runner: nat, now: Time, clock: Time)
    requires RowOk(n, stamps, holder, clock) && Leasable(n, now) && !Overdue(n, now)
    ensures RowOk(n.(claimedBy := Some(runner), claimedAt := Some(now)), stamps + [now], Some(runner), clock)
  {
  }

  lemma GiveLeasesKeeps(rows: seq<Notice>, leases: seq<Lease>, clock: Time, eligible: set<nat>, runner: nat, now: Time)
    requires RowsOk(rows, leases, clock)
    requires forall i: nat :: i < |rows| ==> !Overdue(rows[i], now)
    ensures RowsOk(Leased(rows, eligible, runner, now), leases + LeasesGiven(rows, eligible, runner, now), clock)
  {
    var given := LeasesGiven(rows, eligible, runner, now);
    var after := Leased(rows, eligible, runner, now);
    forall i: nat | i >= |rows| ensures Stamps(leases + given, i) == [] && Holder(leases + given, i) == None {
      StampsAppend(leases, given, i);
      StampsGiven(rows, eligible, runner, now, i);
    }
    forall i | 0 <= i < |rows| ensures RowOk(after[i], Stamps(leases + given, i), Holder(leases + given, i), clock) {
      StampsAppend(leases, given, i);
      StampsGiven(rows, eligible, runner, now, i);
      var stamps, holder := Stamps(leases, i), Holder(leases, i);
      assert RowOk(rows[i], stamps, holder, clock);
      if i in eligible && Leasable(rows[i], now) {
        LeaseKeepsRow(rows[i], stamps, holder, runner, now, clock);
      } else {
        assert stamps + [] == stamps;
      }
    }
  }

  /** A row changed in its status alone, and not back to pending. */
  lemma StatusKeeps(s: State, i: nat, status: Status, p: Pass)
    requires Inv(s) && i < |s.rows| && (status == Pending ==> s.rows[i].status == Pending)
    requires PassOk(p, s.rows, s.clock)
    ensures var rows := s.rows[i := s.rows[i].(status := status)];
            RowsOk(rows, s.leases, s.clock) && PassOk(p, rows, s.clock)
  {
    var rows := s.rows[i := s.rows[i].(status := status)];
    forall j | 0 <= j < |rows| ensures RowOk(rows[j], Stamps(s.leases, j), Holder(s.leases, j), s.clock) {
      assert RowOk(s.rows[j], Stamps(s.leases, j), Holder(s.leases, j), s.clock);
    }
    forall j: nat | j < |rows| && Overdue(rows[j], p.now) ensures j in p.todo {
      assert Overdue(s.rows[j], p.now);
    }
  }

  lemma RecordKeeps(s: State, n: Notice)
    requires Inv(s) && n.createdAt == s.clock && n.claimedAt == None && n.claimedBy == None
    ensures RowsOk(s.rows + [n], s.leases, s.clock)
    ensures forall p :: 0 <= p < |s.passes| ==> PassOk(s.passes[p], s.rows + [n], s.clock)
  {
    var rows := s.rows + [n];
    forall j | 0 <= j < |rows| ensures RowOk(rows[j], Stamps(s.leases, j), Holder(s.leases, j), s.clock) {
      if j < |s.rows| {
        assert RowOk(s.rows[j], Stamps(s.leases, j), Holder(s.leases, j), s.clock);
      }
    }
    forall p | 0 <= p < |s.passes| ensures PassOk(s.passes[p], rows, s.clock) {
      assert PassOk(s.passes[p], s.rows, s.clock);
    }
  }

  lemma PassesKeep(passes: seq<Pass>, rows: seq<Notice>, after: seq<Notice>, clock: Time)
    requires forall p :: 0 <= p < |passes| ==> PassOk(passes[p], rows, clock)
    requires |after| == |rows|
    requires forall i :: 0 <= i < |rows| ==>
      after[i].createdAt == rows[i].createdAt && (after[i].status == Pending ==> rows[i].status == Pending)
    ensures forall p :: 0 <= p < |passes| ==> PassOk(passes[p], after, clock)
  {
    forall p | 0 <= p < |passes| ensures PassOk(passes[p], after, clock) {
      assert PassOk(passes[p], rows, clock);
      forall i: nat | i < |after| && Overdue(after[i], passes[p].now) ensures i in passes[p].todo {
        assert Overdue(rows[i], passes[p].now);
      }
    }
  }

  lemma WriteOneKeeps(s: State, p: nat, i: nat)
    requires Inv(s) && p < |s.passes| && i in s.passes[p].todo && i < |s.rows|
    ensures Inv(Step(s, WriteOne(p, i)))
  {
    var v := s.passes[p];
    var r := Step(s, WriteOne(p, i));
    assert PassOk(v, s.rows, s.clock);
    StatusKeeps(s, i, Failed, v);
    PassesKeep(s.passes, s.rows, r.rows, s.clock);
    assert PassOk(v.(todo := v.todo - {i}), r.rows, s.clock);
  }

  lemma GiveKeeps(s: State, p: nat, eligible: set<nat>)
    requires Inv(s)
    ensures Inv(Step(s, GiveLeases(p, eligible)))
  {
    var r := Step(s, GiveLeases(p, eligible));
    if r != s {
      var v := s.passes[p];
      assert PassOk(v, s.rows, s.clock);
      GiveLeasesKeeps(s.rows, s.leases, s.clock, eligible, v.runner.value, v.now);
      PassesKeep(s.passes, s.rows, r.rows, s.clock);
      assert PassOk(v.(done := true), r.rows, s.clock);
    }
  }

  lemma ReportKeeps(s: State, reporter: nat, i: nat, outcome: Status)
    requires Inv(s) && i < |s.rows| && Outcome(outcome)
    ensures Inv(Step(s, Report(reporter, i, outcome)))
  {
    var r := Step(s, Report(reporter, i, outcome));
    StatusKeeps(s, i, r.rows[i].status, Pass(s.clock, OverdueRows(s.rows, s.clock), None, false));
    assert r.rows == s.rows[i := s.rows[i].(status := r.rows[i].status)];
    PassesKeep(s.passes, s.rows, r.rows, s.clock);
  }

  lemma ClockKeeps(s: State, ticks: nat)
    requires Inv(s)
    ensures Inv(s.(clock := s.clock + ticks))
  {
    forall i | 0 <= i < |s.rows| ensures RowOk(s.rows[i], Stamps(s.leases, i), Holder(s.leases, i), s.clock + ticks) {
      assert RowOk(s.rows[i], Stamps(s.leases, i), Holder(s.leases, i), s.clock);
    }
    forall p | 0 <= p < |s.passes| ensures PassOk(s.passes[p], s.rows, s.clock + ticks) {
      assert PassOk(s.passes[p], s.rows, s.clock);
    }
  }

  lemma StepKeeps(s: State, a: Action)
    requires Inv(s)
    ensures Inv(Step(s, a))
  {
    match a
    case Advance(ticks) => ClockKeeps(s, ticks);
    case Check(_, _, _, _, _, _) =>
    case Record(d) =>
      if d < |s.deliveries| && !s.deliveries[d].recorded {
        var v := s.deliveries[d];
        RecordKeeps(s, Notice(v.turn, v.agent, Stored(v.thread), v.status, s.clock, v.mailbox, None, None));
      }
    case StartPass(claimer) =>
    case WriteOne(p, i) =>
      if p < |s.passes| && i in s.passes[p].todo && i < |s.rows| {
        WriteOneKeeps(s, p, i);
      }
    case GiveLeases(p, eligible) => GiveKeeps(s, p, eligible);
    case Report(reporter, i, outcome) =>
      if i < |s.rows| && Outcome(outcome) {
        ReportKeeps(s, reporter, i, outcome);
      }
  }

  lemma {:induction false} RunKeeps(s: State, actions: seq<Action>)
    requires Inv(s)
    ensures Inv(Run(s, actions))
    decreases |actions|
  {
    if actions != [] {
      StepKeeps(s, actions[0]);
      RunKeeps(Step(s, actions[0]), actions[1..]);
    }
  }
}
