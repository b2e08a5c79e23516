/** What becomes of a turn at intake, at a recheck and at a claim, condition by condition. */
module DeskFates {
  import opened Basics
  import opened AdmissionRules
  import opened AdmissionGates
  import opened AdmissionDesk

  /** The rule is on, of this workspace, and about this agent or every agent. */
  predicate Applies(r: Rule, workspace: string, agent: string) {
    r.enabled && r.workspace == workspace && (r.agent == None || r.agent == Some(agent))
  }

  /** The rule fits a turn that stands at `reach` and has waited so long, on what is known
      before a claim. */
  predicate FitsWaiting(r: Rule, t: Turn, reach: string, waited: int) {
    FitsTurn(r, t) && Is(r.reach, reach) && (r.reach == "offline" ==> waited >= r.waitHours * HOUR)
  }

  /** The rule fits a turn that a runner of this kind claims in this mode. */
  predicate FitsClaim(r: Rule, t: Turn, kind: string, mode: string) {
    FitsTurn(r, t) && Is(r.reach, "live") && Is(r.runnerKind, kind) && Is(r.turnMode, mode)
  }

  /** The rule says more than the other, or as much and is the older. */
  predicate Ahead(d: Rule, r: Rule) {
    Says(d) > Says(r) || (Says(d) == Says(r) && d.pk <= r.pk)
  }

  /** A turn of this agent, and where it stands. */
  datatype Case = Case(turn: Turn, workspace: string, agent: string, reach: string, waited: int)

  predicate MayAllow(rules: seq<Rule>, c: Case, a: Rule) {
    a in rules && Applies(a, c.workspace, c.agent) && a.action == Allow && FitsWaiting(a, c.turn, c.reach, c.waited)
  }

  predicate Rejects(rules: seq<Rule>, c: Case, r: Rule) {
    && r in rules && Applies(r, c.workspace, c.agent) && r.action == Reject && FitsWaiting(r, c.turn, c.reach, c.waited)
    && r.runnerKind == "" && r.turnMode == ""
  }

  /** Who refuses a turn before a claim: no applying allow rule fits it on what is known, and
      of the applying reject rules that fit it and name neither kind nor mode one says the
      most. */
  ghost predicate RefusedBy(rules: seq<Rule>, c: Case, d: Rule) {
    && Rejects(rules, c, d)
    && (forall a :: a in rules ==> !MayAllow(rules, c, a))
    && (forall r :: Rejects(rules, c, r) ==> Ahead(d, r))
  }

  predicate AllowsClaim(rules: seq<Rule>, c: Case, kind: string, mode: string, a: Rule) {
    a in rules && Applies(a, c.workspace, c.agent) && a.action == Allow && FitsClaim(a, c.turn, kind, mode)
  }

  predicate RejectsClaim(rules: seq<Rule>, c: Case, kind: string, mode: string, r: Rule) {
    r in rules && Applies(r, c.workspace, c.agent) && r.action == Reject && FitsClaim(r, c.turn, kind, mode)
  }

  /** Who refuses a claim, likewise; where the turn stood before makes no difference. */
  ghost predicate ClaimRefusedBy(rules: seq<Rule>, c: Case, kind: string, mode: string, d: Rule) {
    && RejectsClaim(rules, c, kind, mode, d)
    && (forall a :: a in rules ==> !AllowsClaim(rules, c, kind, mode, a))
    && (forall r :: RejectsClaim(rules, c, kind, mode, r) ==> Ahead(d, r))
  }

  lemma EnqueueMatch(r: Rule, t: Turn, rules: seq<Rule>, reach: string, waited: int)
    requires r in rules
    ensures Match(r, EnqueueFacts(t, rules, reach, waited)) == Match(r, ReachFacts(t, reach, waited))
  {
    ReachMatch(r, t, reach, waited);
    IntakeMatch(r, t);
  }

  lemma WaitingMatch(rules: seq<Rule>, c: Case, scoped: seq<Rule>, known: Facts, r: Rule)
    requires scoped == Scoped(rules, c.workspace, c.agent)
    requires r in scoped ==> Match(r, known) == Match(r, ReachFacts(c.turn, c.reach, c.waited))
    ensures Rejects(rules, c, r) <==> r in scoped && r.action == Reject && Match(r, known) == Some(true)
    ensures MayAllow(rules, c, r) <==> r in scoped && r.action == Allow && Match(r, known) != Some(false)
  {
    ScopedHas(rules, c.workspace, c.agent);
    ReachMatch(r, c.turn, c.reach, c.waited);
  }

  lemma DecidedBefore(rules: seq<Rule>, c: Case, scoped: seq<Rule>, known: Facts)
    requires scoped == Scoped(rules, c.workspace, c.agent)
    requires forall r :: r in scoped ==> Match(r, known) == Match(r, ReachFacts(c.turn, c.reach, c.waited))
    ensures Decide(scoped, known).Some? ==> RefusedBy(rules, c, Decide(scoped, known).value)
    ensures Decide(scoped, known).None? ==> forall d :: d in rules ==> !RefusedBy(rules, c, d)
  {
    DecideMeaning(scoped, known);
    forall r ensures Rejects(rules, c, r) <==> r in scoped && r.action == Reject && Match(r, known) == Some(true) {
      WaitingMatch(rules, c, scoped, known, r);
    }
    forall a ensures MayAllow(rules, c, a) <==> a in scoped && a.action == Allow && Match(a, known) != Some(false) {
      WaitingMatch(rules, c, scoped, known, a);
    }
  }

  /** A new turn of an agent is refused exactly when some rule refuses it, and by that rule. */
  lemma IntakeRefuses(rules: seq<Rule>, c: Case, now: Time)
    requires c.waited == 0
    ensures var row := Admitted(rules, c.turn, c.workspace, Some(c.agent), now, c.reach);
            && row.(fate := Queued) == Row(c.turn, c.workspace, Some(c.agent), now, Queued)
            && (row.fate == Queued || row.fate.Rejected?)
            && (row.fate == Queued <==> forall d :: d in rules ==> !RefusedBy(rules, c, d))
            && (row.fate != Queued ==> exists d :: RefusedBy(rules, c, d) && row.fate == Rejected(d.pk))
  {
    var scoped := Scoped(rules, c.workspace, c.agent);
    var known := EnqueueFacts(c.turn, scoped, c.reach, 0);
    forall r | r in scoped ensures Match(r, known) == Match(r, ReachFacts(c.turn, c.reach, 0)) {
      EnqueueMatch(r, c.turn, scoped, c.reach, 0);
    }
    DecidedBefore(rules, c, scoped, known);
  }

  /** Some applying rule is about where turns stand. */
  ghost predicate AnyAboutReach(rules: seq<Rule>, c: Case) {
    exists r :: r in rules && Applies(r, c.workspace, c.agent) && r.reach != ""
  }

  /** A queued turn is refused by a recheck exactly when some applying rule is about where it
      stands and a rule refuses it as it now stands; else it is left as it is. */
  lemma RecheckRefuses(rules: seq<Rule>, row: Row, c: Case, now: Time)
    requires row == Row(c.turn, c.workspace, Some(c.agent), now - c.waited, Queued)
    ensures var after := Rechecked(rules, row, c.reach, now);
            && after.(fate := Queued) == row
            && (after.fate == Queued || after.fate.Rejected?)
            && (after.fate == Queued <==> !AnyAboutReach(rules, c) || forall d :: d in rules ==> !RefusedBy(rules, c, d))
            && (after.fate != Queued ==> exists d :: RefusedBy(rules, c, d) && after.fate == Rejected(d.pk))
  {
    var scoped := Scoped(rules, c.workspace, c.agent);
    AboutReach(rules, c, scoped);
    DecidedBefore(rules, c, scoped, ReachFacts(c.turn, c.reach, c.waited));
    RecheckedIs(rules, row, c, now, scoped, ReachFacts(c.turn, c.reach, c.waited));
  }

  lemma AboutReach(rules: seq<Rule>, c: Case, scoped: seq<Rule>)
    requires scoped == Scoped(rules, c.workspace, c.agent)
    ensures AnyReach(scoped) <==> AnyAboutReach(rules, c)
  {
    ScopedHas(rules, c.workspace, c.agent);
  }

  lemma RecheckedIs(rules: seq<Rule>, row: Row, c: Case, now: Time, scoped: seq<Rule>, known: Facts)
    requires row == Row(c.turn, c.workspace, Some(c.agent), now - c.waited, Queued)
    requires scoped == Scoped(rules, c.workspace, c.agent) && known == ReachFacts(c.turn, c.reach, c.waited)
    ensures var d := Decide(scoped, known);
            Rechecked(rules, row, c.reach, now) ==
            if AnyReach(scoped) && d.Some? then row.(fate := Rejected(d.value.pk)) else row
  {
    RecheckIs(rules, row, c.reach, now, c.agent, c.waited, scoped);
  }

  lemma RecheckIs(rules: seq<Rule>, row: Row, reach: string, now: Time, agent: string, waited: int, scoped: seq<Rule>)
    requires row.fate == Queued && row.agent == Some(agent) && waited == now - row.created
    requires scoped == Scoped(rules, row.workspace, agent)
    ensures Recheck(rules, row, reach, now) == AtRecheck(row.turn, scoped, reach, waited)
  {
  }

  /** What a look of the sweep makes of a queued turn: a recheck, once it is as old as some
      enabled reject rule about offline runners, of whatever workspace, waits; before that, and
      for any other turn, nothing. */
  lemma SweptExactly(rules: seq<Rule>, row: Row, reach: string, now: Time)
    ensures Swept(rules, row, reach, now) ==
            if row.fate == Queued && exists r :: r in rules && WaitedOut(r, row.created, now)
            then Rechecked(rules, row, reach, now) else row
  {
    OldEnoughMeans(rules, row, now);
  }

  predicate WaitedOut(r: Rule, created: Time, now: Time) {
    r.enabled && r.action == Reject && r.reach == "offline" && created + r.waitHours * HOUR <= now
  }

  lemma {:induction false} WaitsAre(rules: seq<Rule>, w: nat)
    ensures w in Waits(rules) <==>
              exists r :: r in rules && r.enabled && r.action == Reject && r.reach == "offline" && r.waitHours == w
  {
    if rules != [] {
      assert rules == [rules[0]] + rules[1..];
      WaitsAre(rules[1..], w);
    }
  }

  lemma OldEnoughMeans(rules: seq<Rule>, row: Row, now: Time)
    ensures OldEnough(rules, row, now) <==> exists r :: r in rules && WaitedOut(r, row.created, now)
  {
    var waits := Waits(rules);
    if waits != [] {
      WaitsAre(rules, Min(waits));
      if r :| r in rules && r.enabled && r.action == Reject && r.reach == "offline" && r.waitHours == Min(waits) {
        assert OldEnough(rules, row, now) ==> WaitedOut(r, row.created, now);
      }
    }
    if r :| r in rules && WaitedOut(r, row.created, now) {
      WaitsAre(rules, r.waitHours);
      assert Min(waits) <= r.waitHours;
    }
  }

  /** A look stops at a turn that is queued and old enough for the sweep, whose standing some
      applying rule wants to know, and whose standing cannot be told. */
  ghost predicate StopsAt(rules: seq<Rule>, row: Row, told: Option<string>, now: Time) {
    && row.fate == Queued && row.agent.Some? && told == None
    && (exists r :: r in rules && WaitedOut(r, row.created, now))
    && (exists r :: r in rules && Applies(r, row.workspace, row.agent.value) && r.reach != "")
  }

  lemma StopsMeans(rules: seq<Rule>, row: Row, told: Option<string>, now: Time)
    ensures Fails(rules, row, told, now) <==> StopsAt(rules, row, told, now)
  {
    OldEnoughMeans(rules, row, now);
    if row.agent.Some? {
      ScopedHas(rules, row.workspace, row.agent.value);
    }
  }

  /** A look gets as far as the first such turn, or through all of them. */
  lemma {:induction false} LookEndsExactly(rules: seq<Rule>, rows: seq<Row>, reach: Standing, now: Time, i: nat)
    requires i <= |rows|
    ensures var n := LookEnds(rules, rows, reach, now, i);
            && (n < |rows| ==> StopsAt(rules, rows[n], reach(n), now))
            && forall k :: i <= k < n ==> !StopsAt(rules, rows[k], reach(k), now)
    decreases |rows| - i
  {
    if i < |rows| {
      StopsMeans(rules, rows[i], reach(i), now);
      if !Fails(rules, rows[i], reach(i), now) {
        LookEndsExactly(rules, rows, reach, now, i + 1);
      }
    }
  }

  lemma ClaimingMatch(rules: seq<Rule>, c: Case, scoped: seq<Rule>, kind: string, mode: string, r: Rule)
    requires scoped == Scoped(rules, c.workspace, c.agent)
    ensures RejectsClaim(rules, c, kind, mode, r) <==>
              r in scoped && r.action == Reject && Match(r, ClaimFacts(c.turn, kind, mode)) == Some(true)
    ensures AllowsClaim(rules, c, kind, mode, r) <==>
              r in scoped && r.action == Allow && Match(r, ClaimFacts(c.turn, kind, mode)) != Some(false)
  {
    ScopedHas(rules, c.workspace, c.agent);
    WholeMatch(r, c.turn, kind, mode);
  }

  lemma DecidedAtClaim(rules: seq<Rule>, c: Case, scoped: seq<Rule>, kind: string, mode: string)
    requires scoped == Scoped(rules, c.workspace, c.agent)
    ensures AtClaim(c.turn, scoped, kind, mode).Some? ==> ClaimRefusedBy(rules, c, kind, mode, AtClaim(c.turn, scoped, kind, mode).value)
    ensures AtClaim(c.turn, scoped, kind, mode).None? ==> forall d :: d in rules ==> !ClaimRefusedBy(rules, c, kind, mode, d)
  {
    var known := ClaimFacts(c.turn, kind, mode);
    DecideMeaning(scoped, known);
    forall r ensures RejectsClaim(rules, c, kind, mode, r) <==> r in scoped && r.action == Reject && Match(r, known) == Some(true) {
      ClaimingMatch(rules, c, scoped, kind, mode, r);
    }
    forall a ensures AllowsClaim(rules, c, kind, mode, a) <==> a in scoped && a.action == Allow && Match(a, known) != Some(false) {
      ClaimingMatch(rules, c, scoped, kind, mode, a);
    }
  }

  /** A claim is refused exactly when some rule refuses it, and by that rule; otherwise the
      turn is taken. */
  lemma ClaimRefuses(rules: seq<Rule>, row: Row, c: Case, kind: string, mode: string)
    requires row == Row(c.turn, c.workspace, Some(c.agent), row.created, row.fate)
    ensures var after := Claimed(rules, row, kind, mode);
            && after == row.(fate := after.fate)
            && (after.fate == Taken || after.fate.Rejected?)
            && (after.fate == Taken <==> forall d :: d in rules ==> !ClaimRefusedBy(rules, c, kind, mode, d))
            && (after.fate != Taken ==> exists d :: ClaimRefusedBy(rules, c, kind, mode, d) && after.fate == Rejected(d.pk))
  {
    DecidedAtClaim(rules, c, Scoped(rules, c.workspace, c.agent), kind, mode);
  }

  lemma Classified(rules: seq<Rule>, c: Case, scoped: seq<Rule>, d: Rule)
    requires ReachIsAChoice(rules) && scoped == Scoped(rules, c.workspace, c.agent)
    requires RefusedBy(rules, c, d) && d.reach == "" && c.waited == 0
    ensures ReachIsAChoice(scoped) && RefusesEarly(d, c.turn, scoped, c.reach, 0)
  {
    ScopedHas(rules, c.workspace, c.agent);
    EnqueueMatch(d, c.turn, scoped, c.reach, 0);
    ReachMatch(d, c.turn, c.reach, 0);
  }

  /** A turn that intake refuses by a rule without `reach` would have been refused at every
      claim too. */
  lemma RefusedIntakeIsSound(rules: seq<Rule>, c: Case, now: Time, d: Rule, kind: string, mode: string)
    requires ReachIsAChoice(rules) && c.waited == 0
    requires RefusedBy(rules, c, d) && d.reach == ""
    ensures Admitted(rules, c.turn, c.workspace, Some(c.agent), now, c.reach).fate.Rejected?
    ensures Claimed(rules, Row(c.turn, c.workspace, Some(c.agent), now, Queued), kind, mode).fate.Rejected?
  {
    var scoped := Scoped(rules, c.workspace, c.agent);
    IntakeRefuses(rules, c, now);
    Classified(rules, c, scoped, d);
    assert AtEnqueue(c.turn, scoped, c.reach, 0).Some?;
    EarlyRejectIsSound(c.turn, scoped, c.reach, 0, d, kind, mode);
  }

  lemma ClaimsOfARow(rules: seq<Rule>, row: Row, agent: string, scoped: seq<Rule>, kinds: set<string>, modes: set<string>)
    requires row.agent == Some(agent) && scoped == Scoped(rules, row.workspace, agent)
    ensures EveryClaimRejects(row.turn, scoped, kinds, modes) <==>
              forall kind, mode :: kind in kinds && mode in modes ==> Claimed(rules, row, kind, mode).fate.Rejected?
  {
    forall kind, mode
      ensures AtClaim(row.turn, scoped, kind, mode).Some? <==> Claimed(rules, row, kind, mode).fate.Rejected?
    {
    }
  }

  /** Every claim of a turn, of whatever kind and mode of a vocabulary, is refused if and only
      if, as seen at its intake, no allow rule may cover it and the reject rules that may match
      cover every kind and mode between them. */
  lemma EveryClaimOfARow(rules: seq<Rule>, row: Row, agent: string, scoped: seq<Rule>, reach: string, waited: int,
                         kinds: set<string>, modes: set<string>)
    requires row.agent == Some(agent) && scoped == Scoped(rules, row.workspace, agent)
    requires AllClean(scoped) && Within(scoped, kinds, modes) && kinds != {} && modes != {}
    ensures (forall kind, mode :: kind in kinds && mode in modes ==> Claimed(rules, row, kind, mode).fate.Rejected?) <==>
              && !MayBeAllowed(scoped, EnqueueFacts(row.turn, scoped, reach, waited))
              && Covered(row.turn, scoped, reach, waited, kinds, modes)
  {
    ClaimsOfARow(rules, row, agent, scoped, kinds, modes);
    EveryClaimRejectsExactly(row.turn, scoped, reach, waited, kinds, modes);
  }
}
