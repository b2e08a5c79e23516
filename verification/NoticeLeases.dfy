/** How often a notice can be leased, whose report counts, and when a reported
    status is final: over every run of the notice protocol. */
module NoticeLeases {
  import opened Basics
  import opened Notices

  lemma {:induction false} SpreadGrows(stamps: seq<Time>, k: nat, l: nat)
    requires Spread(stamps) && k <= l < |stamps|
    ensures stamps[l] >= stamps[k] + (l - k) * (LEASE + 1)
    decreases l
  {
    if k < l {
      SpreadGrows(stamps, k, l - 1);
      assert stamps[l - 1 + 1] - stamps[l - 1] > LEASE;
    }
  }

  /** The leases of a notice over every run, whoever takes them: two successive ones are
      more than 15 minutes apart, and together they fit between the first and the moment the
      notice expires, however far the clock of the first claim ran behind. */
  lemma LeaseBound(actions: seq<Action>, i: nat, k: nat)
    requires var s := Run(EMPTY, actions);
             i < |s.rows| && k < |Stamps(s.leases, i)|
    ensures var s := Run(EMPTY, actions);
            var stamps := Stamps(s.leases, i);
            Spread(stamps) && (|stamps| - 1 - k) * (LEASE + 1) <= s.rows[i].createdAt + EXPIRES - stamps[k]
  {
    RunKeeps(EMPTY, actions);
    var s := Run(EMPTY, actions);
    var stamps := Stamps(s.leases, i);
    assert RowOk(s.rows[i], stamps, Holder(s.leases, i), s.clock);
    SpreadGrows(stamps, k, |stamps| - 1);
  }

  lemma FewerThan(n: nat, most: nat, lag: int)
    requires n * (LEASE + 1) <= EXPIRES + lag && EXPIRES + lag < (most + 1) * (LEASE + 1)
    ensures n <= most
  {
  }

  /** From the first lease stamped at or after the notice's creation on there are at most
      24 h / 15 min = 96. */
  lemma AtMost96Leases(actions: seq<Action>, i: nat, k: nat)
    requires var s := Run(EMPTY, actions);
             i < |s.rows| && k < |Stamps(s.leases, i)| && Stamps(s.leases, i)[k] >= s.rows[i].createdAt
    ensures var stamps := Stamps(Run(EMPTY, actions).leases, i);
            Spread(stamps) && |stamps| - k <= 96
  {
    LeaseBound(actions, i, k);
    var stamps := Stamps(Run(EMPTY, actions).leases, i);
    FewerThan(|stamps| - 1 - k, 95, 0);
  }

  /** A claim reads the clock before it takes its rows, so its stamp can precede the
      notice. If the first claim's does by no more than a lease, there are at most 97. */
  lemma AtMost97Leases(actions: seq<Action>, i: nat)
    requires var s := Run(EMPTY, actions);
             i < |s.rows| && Stamps(s.leases, i) != []
             && Stamps(s.leases, i)[0] >= s.rows[i].createdAt - LEASE
    ensures |Stamps(Run(EMPTY, actions).leases, i)| <= 97
  {
    LeaseBound(actions, i, 0);
    FewerThan(|Stamps(Run(EMPTY, actions).leases, i)| - 1, 96, LEASE);
  }

  /** Only a report by the runner that took the last lease changes a row, and only a
      pending one. */
  lemma OnlyTheHolderReports(actions: seq<Action>, reporter: nat, i: nat, outcome: Status)
    requires var s := Run(EMPTY, actions);
             i < |s.rows| && Step(s, Report(reporter, i, outcome)) != s
    ensures var s := Run(EMPTY, actions);
            && s.rows[i].status == Pending && outcome in {Sent, Skipped}
            && Holder(s.leases, i) == Some(reporter)
            && Step(s, Report(reporter, i, outcome)).rows == s.rows[i := s.rows[i].(status := outcome)]
  {
    RunKeeps(EMPTY, actions);
    var s := Run(EMPTY, actions);
    assert RowOk(s.rows[i], Stamps(s.leases, i), Holder(s.leases, i), s.clock);
    assert s.rows[i := s.rows[i]] == s.rows;
  }

  // ---- finality ----

  /** No expiry pass has read row `i` as overdue and not yet written it. */
  ghost predicate Unread(s: State, i: nat) {
    forall p :: 0 <= p < |s.passes| ==> i !in s.passes[p].todo
  }

  lemma SettledStep(s: State, i: nat, a: Action)
    requires i < |s.rows| && s.rows[i].status != Pending && Unread(s, i)
    ensures var r := Step(s, a);
            i < |r.rows| && r.rows[i].status == s.rows[i].status && Unread(r, i)
  {
  }

  /** A settled status that no pass is about to overwrite never changes again. */
  lemma {:induction false} SettledStays(s: State, i: nat, actions: seq<Action>)
    requires i < |s.rows| && s.rows[i].status != Pending && Unread(s, i)
    ensures i < |Run(s, actions).rows| && Run(s, actions).rows[i].status == s.rows[i].status
    decreases |actions|
  {
    if actions != [] {
      SettledStep(s, i, actions[0]);
      SettledStays(Step(s, actions[0]), i, actions[1..]);
    }
  }

  /** Whether the row keeps this status, whatever happens next. */
  ghost predicate Stands(s: State, i: nat, status: Status) {
    forall actions :: i < |Run(s, actions).rows| && Run(s, actions).rows[i].status == status
  }

  lemma {:induction false} FailedStays(s: State, i: nat, actions: seq<Action>)
    requires i < |s.rows| && s.rows[i].status == Failed
    ensures i < |Run(s, actions).rows| && Run(s, actions).rows[i].status == Failed
    decreases |actions|
  {
    if actions != [] {
      FailedStays(Step(s, actions[0]), i, actions[1..]);
    }
  }

  lemma LateWriteFails(s: State, p: nat, i: nat)
    requires p < |s.passes| && i in s.passes[p].todo && i < |s.rows|
    ensures i < |Run(s, [WriteOne(p, i)]).rows| && Run(s, [WriteOne(p, i)]).rows[i].status == Failed
  {
    var late := [WriteOne(p, i)];
    assert late[1..] == [];
    assert Run(s, late) == Run(Step(s, late[0]), late[1..]);
  }

  /** A settled row keeps its status in every continuation if and only if no pass is about to
      overwrite it, or it has failed already. */
  lemma SettledExactly(s: State, i: nat)
    requires i < |s.rows| && s.rows[i].status != Pending
    ensures Stands(s, i, s.rows[i].status) <==> Unread(s, i) || s.rows[i].status == Failed
  {
    if Unread(s, i) {
      forall actions ensures i < |Run(s, actions).rows| && Run(s, actions).rows[i].status == s.rows[i].status {
        SettledStays(s, i, actions);
      }
    } else if s.rows[i].status == Failed {
      forall actions ensures i < |Run(s, actions).rows| && Run(s, actions).rows[i].status == s.rows[i].status {
        FailedStays(s, i, actions);
      }
    } else {
      var p :| 0 <= p < |s.passes| && i in s.passes[p].todo;
      LateWriteFails(s, p, i);
    }
  }

  /** The holder's report of `sent` or `skipped` stands for ever exactly when no
      expiry pass has already read the row: a pass writes `failed` without looking
      at the status again. */
  lemma ReportStandsIffUnread(s: State, reporter: nat, i: nat, outcome: Status)
    requires i < |s.rows| && s.rows[i].status == Pending && s.rows[i].claimedBy == Some(reporter)
    requires outcome == Sent || outcome == Skipped
    ensures Stands(Step(s, Report(reporter, i, outcome)), i, outcome) <==> Unread(s, i)
  {
    SettledExactly(Step(s, Report(reporter, i, outcome)), i);
  }

  /** A report made within a day of the notice always stands... */
  lemma ReportInTimeStands(s: State, reporter: nat, i: nat, outcome: Status)
    requires Inv(s) && i < |s.rows| && s.rows[i].status == Pending && s.rows[i].claimedBy == Some(reporter)
    requires outcome == Sent || outcome == Skipped
    requires s.clock <= s.rows[i].createdAt + EXPIRES
    ensures Stands(Step(s, Report(reporter, i, outcome)), i, outcome)
  {
    forall p | 0 <= p < |s.passes| ensures i !in s.passes[p].todo {
      assert PassOk(s.passes[p], s.rows, s.clock);
    }
    ReportStandsIffUnread(s, reporter, i, outcome);
  }

  /** ...and one made later can always be lost to an expiry pass already under way. */
  lemma LateReportCanBeLost(s: State, reporter: nat, i: nat, outcome: Status)
    requires i < |s.rows| && s.rows[i].status == Pending && s.rows[i].claimedBy == Some(reporter)
    requires outcome == Sent || outcome == Skipped
    requires s.clock > s.rows[i].createdAt + EXPIRES
    ensures !Stands(Step(Step(s, StartPass(None)), Report(reporter, i, outcome)), i, outcome)
  {
    var read := Step(s, StartPass(None));
    assert Overdue(s.rows[i], s.clock) && i in read.passes[|s.passes|].todo;
    ReportStandsIffUnread(read, reporter, i, outcome);
  }

  // ---- the bound is reached ----

  /** One notice, recorded `lag` after the first claim read the clock, after `k` claims, each
      a lease and a moment after the one before. */
  ghost predicate After(s: State, lag: nat, k: nat) {
    && |s.rows| == 1 && s.rows[0].status == Pending && s.rows[0].createdAt == lag
    && s.clock == k * (LEASE + 1)
    && (forall p :: 0 <= p < |s.passes| ==> s.passes[p].todo == {})
    && |Stamps(s.leases, 0)| == k && k > 0 && Stamps(s.leases, 0)[0] == 0
    && s.rows[0].claimedAt == Some((k - 1) * (LEASE + 1))
  }

  /** The notice just recorded, an expiry pass with nothing to do having read the clock at 0
      for a claim. */
  function RecordedLate(lag: nat): State {
    State([Notice(1, "a", "t", Pending, lag, "m", None, None)], [Delivery(1, "a", "t", Pending, "m", lag, true)],
          [Pass(0, {}, Some(7), false)], [], lag)
  }

  lemma RecordLate(lag: nat) returns (actions: seq<Action>)
    ensures Run(EMPTY, actions) == RecordedLate(lag)
  {
    var check := Check(1, "a", "t", true, true, Gmail("m"));
    var first := [StartPass(Some(7)), Advance(lag), check];
    RunThree(EMPTY, StartPass(Some(7)), Advance(lag), check);
    RunAppend(EMPTY, first, [Record(0)]);
    actions := first + [Record(0)];
    var s := State([], [Delivery(1, "a", "t", Pending, "m", lag, false)], [Pass(0, {}, Some(7), false)], [], lag);
    assert OverdueRows([], 0) == {};
    assert Run(EMPTY, first) == s;
    assert [Record(0)][1..] == [];
    assert Run(s, [Record(0)]) == Run(Step(s, Record(0)), []);
  }

  lemma ClaimLate(lag: nat)
    requires lag <= LEASE
    ensures After(Step(Step(RecordedLate(lag), GiveLeases(0, {0})), Advance(LEASE + 1 - lag)), lag, 1)
  {
    var s := RecordedLate(lag);
    var given := LeasesGiven(s.rows, {0}, 7, 0);
    StampsGiven(s.rows, {0}, 7, 0, 0);
    var claimed := Step(s, GiveLeases(0, {0}));
    assert claimed.leases == given by {
      assert [] + given == given;
    }
    assert Stamps(claimed.leases, 0) == [0];
    assert claimed.rows == [s.rows[0].(claimedBy := Some(7), claimedAt := Some(0))];
  }

  lemma FirstClaim(lag: nat) returns (actions: seq<Action>)
    requires lag <= LEASE
    ensures After(Run(EMPTY, actions), lag, 1)
  {
    var before := RecordLate(lag);
    ClaimLate(lag);
    var claim, wait := GiveLeases(0, {0}), Advance(LEASE + 1 - lag);
    RunThree(RecordedLate(lag), Advance(0), claim, wait);
    assert Step(RecordedLate(lag), Advance(0)) == RecordedLate(lag);
    RunAppend(EMPTY, before, [Advance(0), claim, wait]);
    actions := before + [Advance(0), claim, wait];
  }

  lemma OneMoreClaim(s: State, lag: nat, k: nat)
    requires After(s, lag, k) && k * (LEASE + 1) <= EXPIRES + lag
    ensures var claimed := Step(Step(s, StartPass(Some(7))), GiveLeases(|s.passes|, {0}));
            After(Step(claimed, Advance(LEASE + 1)), lag, k + 1)
  {
    var read := Step(s, StartPass(Some(7)));
    assert !Overdue(s.rows[0], s.clock) && read.passes[|s.passes|].todo == {};
    StampsAppend(s.leases, LeasesGiven(s.rows, {0}, 7, s.clock), 0);
    StampsGiven(s.rows, {0}, 7, s.clock, 0);
    assert (k - 1) * (LEASE + 1) == s.clock - (LEASE + 1);
  }

  lemma {:induction false} RunAppend(s: State, a: seq<Action>, b: seq<Action>)
    ensures Run(s, a + b) == Run(Run(s, a), b)
    decreases |a|
  {
    if a == [] {
      assert a + b == b;
    } else {
      RunAppend(Step(s, a[0]), a[1..], b);
      assert (a + b)[1..] == a[1..] + b;
    }
  }

  lemma RunThree(s: State, a: Action, b: Action, c: Action)
    ensures Run(s, [a, b, c]) == Step(Step(Step(s, a), b), c)
  {
    assert [a, b, c][1..] == [b, c] && [b, c][1..] == [c] && [c][1..] == [];
    assert Run(Step(s, a), [b, c]) == Run(Step(Step(s, a), b), [c]);
    assert Run(Step(Step(s, a), b), [c]) == Run(Step(Step(Step(s, a), b), c), []);
  }

  /** As many leases do happen as fit the bound, for every lag of the first claim up to a
      lease. */
  lemma {:induction false} LeasesReachTheBound(lag: nat, k: nat) returns (actions: seq<Action>)
    requires lag <= LEASE && k > 0 && (k - 1) * (LEASE + 1) <= EXPIRES + lag
    ensures After(Run(EMPTY, actions), lag, k)
  {
    if k == 1 {
      actions := FirstClaim(lag);
    } else {
      assert (k - 2) * (LEASE + 1) <= (k - 1) * (LEASE + 1);
      var before := LeasesReachTheBound(lag, k - 1);
      var s := Run(EMPTY, before);
      OneMoreClaim(s, lag, k - 1);
      var more := [StartPass(Some(7)), GiveLeases(|s.passes|, {0}), Advance(LEASE + 1)];
      RunThree(s, more[0], more[1], more[2]);
      actions := before + more;
      RunAppend(EMPTY, before, more);
    }
  }

  /** 96 leases with no lag. */
  lemma LeasesReach96() returns (actions: seq<Action>)
    ensures var s := Run(EMPTY, actions);
            |s.rows| == 1 && |Stamps(s.leases, 0)| == 96 && Stamps(s.leases, 0)[0] == s.rows[0].createdAt
  {
    actions := LeasesReachTheBound(0, 96);
  }

  /** The first claim's clock ran behind the notice's creation by at most `lag`. */
  ghost predicate LagsAtMost(s: State, i: nat, lag: int) {
    i < |s.rows| && Stamps(s.leases, i) != [] && s.rows[i].createdAt - Stamps(s.leases, i)[0] <= lag
  }

  /** At most 96 leases of a notice in every run in which that lag is at most `lag`, if and
      only if `lag` is less than 96 microseconds. */
  lemma AtMost96Exactly(lag: int)
    ensures (forall actions, i: nat :: LagsAtMost(Run(EMPTY, actions), i, lag) ==>
                                         |Stamps(Run(EMPTY, actions).leases, i)| <= 96)
            <==> lag < 96
  {
    if lag < 96 {
      forall actions, i: nat | LagsAtMost(Run(EMPTY, actions), i, lag)
        ensures |Stamps(Run(EMPTY, actions).leases, i)| <= 96
      {
        LeaseBound(actions, i, 0);
        FewerThan(|Stamps(Run(EMPTY, actions).leases, i)| - 1, 95, lag);
      }
    } else {
      var actions := LeasesReachTheBound(96, 97);
      assert LagsAtMost(Run(EMPTY, actions), 0, lag);
    }
  }

  /** 97 with a lag of 200 microseconds. */
  lemma LeasesReach97() returns (actions: seq<Action>)
    ensures var s := Run(EMPTY, actions);
            |s.rows| == 1 && |Stamps(s.leases, 0)| == 97 && Stamps(s.leases, 0)[0] == s.rows[0].createdAt - 200
  {
    actions := LeasesReachTheBound(200, 97);
  }
}
