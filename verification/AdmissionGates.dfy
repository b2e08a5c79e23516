/** The two moments a rule may refuse a turn: at enqueue, with the runner and the
    turn mode unknown, and at the claim, with everything known. */
module AdmissionGates {
  import opened Basics
  import opened AdmissionRules

  datatype Turn = Turn(origin: string, initiatorKind: string, capability: string)

  function PrincipalOf(kind: string): string {
    if kind == "user" then "member"
    else if kind == "contact" then "contact"
    else if kind == "agent" then "agent"
    else "system"
  }

  /** `facts(turn)`: what is known of the turn before any runner claims it. */
  function IntakeFacts(t: Turn): Facts {
    Facts(map[Origin := t.origin,
              Principal := PrincipalOf(t.initiatorKind),
              Sender := "",
              Access := if t.capability != "" then "confined" else "full",
              Capability := t.capability], 0)
  }

  /** The same, with its standing towards its runners added. */
  function ReachFacts(t: Turn, reach: string, waited: int): Facts {
    Facts(IntakeFacts(t).vals[Reach := reach], waited)
  }

  /** `facts(turn, runner, mode)`: a claiming runner is the answer to `reach`. */
  function ClaimFacts(t: Turn, kind: string, mode: string): Facts {
    Facts(IntakeFacts(t).vals[TurnMode := mode][RunnerKind := kind][Reach := LIVE], 0)
  }

  // ---- what matching comes to, condition by condition ----

  /** The rule's conditions on what is known of a turn from the start. */
  predicate FitsTurn(r: Rule, t: Turn) {
    && (r.origin == "" || r.origin == t.origin)
    && (r.principal == ""
        || (r.principal == "member" && t.initiatorKind == "user")
        || (r.principal == "contact" && t.initiatorKind == "contact")
        || (r.principal == "agent" && t.initiatorKind == "agent")
        || (r.principal == "system" && t.initiatorKind !in {"user", "contact", "agent"}))
    && r.sender == ""
    && (r.access == "" || (r.access == "full" && t.capability == "") || (r.access == "confined" && t.capability != ""))
    && (r.capability == "" || r.capability == t.capability
        || (r.capability in {"ask", "read"} && t.capability in {"ask", "read"}))
  }

  lemma KnownFromTheStart(r: Rule, t: Turn, known: Facts)
    requires forall f :: f in {Origin, Principal, Sender, Access, Capability} ==>
               f in known.vals && known.vals[f] == IntakeFacts(t).vals[f]
    ensures FitsTurn(r, t) <==>
              forall f :: f in {Origin, Principal, Sender, Access, Capability} ==> Verdict(r, known, f) == Some(true)
  {
    assert FitsTurn(r, t) ==> Verdict(r, known, Capability) == Some(true);
    if forall f :: f in {Origin, Principal, Sender, Access, Capability} ==> Verdict(r, known, f) == Some(true) {
      assert Verdict(r, known, Origin) == Verdict(r, known, Principal) == Verdict(r, known, Sender)
             == Verdict(r, known, Access) == Verdict(r, known, Capability) == Some(true);
    }
  }

  /** A verdict on each field gives the match. */
  lemma MatchOfVerdicts(r: Rule, known: Facts, start: bool, reach: Option<bool>, kind: Option<bool>, mode: Option<bool>)
    requires start <==> forall f :: f in {Origin, Principal, Sender, Access, Capability} ==> Verdict(r, known, f) == Some(true)
    requires forall f :: f in {Origin, Principal, Sender, Access, Capability} ==> f in known.vals
    requires reach == Verdict(r, known, Reach) && kind == Verdict(r, known, RunnerKind) && mode == Verdict(r, known, TurnMode)
    ensures Match(r, known) ==
            if !start || reach == Some(false) || kind == Some(false) || mode == Some(false) then Some(false)
            else if reach == None || kind == None || mode == None then None else Some(true)
  {
    forall f | Verdict(r, known, f) != Some(true)
      ensures !start || f == Reach || f == RunnerKind || f == TurnMode
    {
      EveryField(f);
    }
    if !start {
      var f :| f in {Origin, Principal, Sender, Access, Capability} && Verdict(r, known, f) != Some(true);
      assert Verdict(r, known, f) == Some(false);
    }
  }

  predicate Is(want: string, have: string) {
    want == "" || want == have
  }

  /** At enqueue, where no rule needs the routing. */
  lemma IntakeMatch(r: Rule, t: Turn)
    ensures Match(r, IntakeFacts(t)) ==
            if !FitsTurn(r, t) then Some(false)
            else if r.reach != "" || r.runnerKind != "" || r.turnMode != "" then None else Some(true)
  {
    var known := IntakeFacts(t);
    KnownFromTheStart(r, t, known);
    MatchOfVerdicts(r, known, FitsTurn(r, t), Verdict(r, known, Reach), Verdict(r, known, RunnerKind), Verdict(r, known, TurnMode));
  }

  /** Where the turn's standing towards its runners is known; a rule about offline runners
      waits its hours. */
  lemma ReachMatch(r: Rule, t: Turn, reach: string, waited: int)
    ensures Match(r, ReachFacts(t, reach, waited)) ==
            if !FitsTurn(r, t) || !Is(r.reach, reach) || (r.reach == "offline" && waited < r.waitHours * 3_600_000_000) then Some(false)
            else if r.runnerKind != "" || r.turnMode != "" then None else Some(true)
  {
    var known := ReachFacts(t, reach, waited);
    KnownFromTheStart(r, t, known);
    MatchOfVerdicts(r, known, FitsTurn(r, t), Verdict(r, known, Reach), Verdict(r, known, RunnerKind), Verdict(r, known, TurnMode));
  }

  /** At a claim everything is known. */
  lemma WholeMatch(r: Rule, t: Turn, kind: string, mode: string)
    ensures Match(r, ClaimFacts(t, kind, mode)) ==
            Some(FitsTurn(r, t) && Is(r.reach, "live") && Is(r.runnerKind, kind) && Is(r.turnMode, mode))
  {
    var known := ClaimFacts(t, kind, mode);
    KnownFromTheStart(r, t, known);
    MatchOfVerdicts(r, known, FitsTurn(r, t), Verdict(r, known, Reach), Verdict(r, known, RunnerKind), Verdict(r, known, TurnMode));
  }

  predicate AnyReach(rules: seq<Rule>) {
    exists r :: r in rules && r.reach != ""
  }

  /** What `at_enqueue` knows: the routing is asked only when some rule needs it. */
  function EnqueueFacts(t: Turn, rules: seq<Rule>, reach: string, waited: int): Facts {
    if AnyReach(rules) then ReachFacts(t, reach, waited) else IntakeFacts(t)
  }

  function AtEnqueue(t: Turn, rules: seq<Rule>, reach: string, waited: int): Option<Rule> {
    Decide(rules, EnqueueFacts(t, rules, reach, waited))
  }

  function AtClaim(t: Turn, rules: seq<Rule>, kind: string, mode: string): Option<Rule> {
    Decide(rules, ClaimFacts(t, kind, mode))
  }

  /** `recheck`: only rules about reach can have changed their answer. */
  function AtRecheck(t: Turn, rules: seq<Rule>, reach: string, waited: int): Option<Rule> {
    if AnyReach(rules) then Decide(rules, ReachFacts(t, reach, waited)) else None
  }

  /** `clean` allows `reach` the two stored choices and no others. */
  ghost predicate ReachIsAChoice(rules: seq<Rule>) {
    forall r :: r in rules ==> r.reach == "" || r.reach == "paused" || r.reach == "offline"
  }

  ghost predicate AllClean(rules: seq<Rule>) {
    forall r :: r in rules ==> Clean(r)
  }

  /** `r` refuses the turn at enqueue without asking where its runners are. */
  ghost predicate RefusesEarly(r: Rule, t: Turn, rules: seq<Rule>, reach: string, waited: int) {
    r in rules && r.action == Reject && r.reach == ""
    && Match(r, EnqueueFacts(t, rules, reach, waited)) == Some(true)
  }

  lemma EarlyFactsHold(r: Rule, t: Turn, rules: seq<Rule>, reach: string, waited: int, kind: string, mode: string)
    requires r.reach == "" || r.reach == PAUSED || r.reach == OFFLINE
    ensures Match(r, EnqueueFacts(t, rules, reach, waited)) == Some(false) ==> Match(r, ClaimFacts(t, kind, mode)) == Some(false)
    ensures r.reach == "" && Match(r, EnqueueFacts(t, rules, reach, waited)) == Some(true)
            ==> Match(r, ClaimFacts(t, kind, mode)) == Some(true)
  {
    var early, late := EnqueueFacts(t, rules, reach, waited), ClaimFacts(t, kind, mode);
    if Match(r, early) == Some(false) {
      var f :| Verdict(r, early, f) == Some(false);
      if f == Reach {
        assert Verdict(r, late, Reach) == Some(false);
      } else {
        assert Verdict(r, late, f) == Some(false);
      }
    } else if Match(r, early) == Some(true) && r.reach == "" {
      forall f ensures Verdict(r, late, f) == Some(true) {
        assert Verdict(r, early, f) == Some(true);
      }
    }
  }

  /** Rejecting early is sound: if a rule that says nothing about reach refuses the
      turn at enqueue, then whatever runner claimed it in whatever mode, the claim
      would refuse it too, by that rule or one ahead of it. */
  lemma EarlyRejectIsSound(t: Turn, rules: seq<Rule>, reach: string, waited: int, early: Rule, kind: string, mode: string)
    requires ReachIsAChoice(rules)
    requires AtEnqueue(t, rules, reach, waited).Some? && RefusesEarly(early, t, rules, reach, waited)
    ensures AtClaim(t, rules, kind, mode).Some?
    ensures var late := AtClaim(t, rules, kind, mode).value;
            Says(late) > Says(early) || (Says(late) == Says(early) && late.pk <= early.pk)
  {
    var known, late := EnqueueFacts(t, rules, reach, waited), ClaimFacts(t, kind, mode);
    DecideMeaning(rules, known);
    DecideMeaning(rules, late);
    forall r | r in rules && r.action == Allow ensures Match(r, late) == Some(false) {
      EarlyFactsHold(r, t, rules, reach, waited, kind, mode);
      assert Match(r, known) == Some(false);
    }
    EarlyFactsHold(early, t, rules, reach, waited, kind, mode);
  }

  // ---- and how far it is complete: what every claim would refuse ----

  /** The rule is open to this runner kind and this mode. */
  predicate Fits(r: Rule, kind: string, mode: string) {
    (r.runnerKind == "" || r.runnerKind == kind) && (r.turnMode == "" || r.turnMode == mode)
  }

  /** Seen from enqueue, the rule may still match the turn when it is claimed. */
  predicate Hopeful(r: Rule, t: Turn, rules: seq<Rule>, reach: string, waited: int) {
    r.reach == "" && Match(r, EnqueueFacts(t, rules, reach, waited)) != Some(false)
  }

  lemma ClaimMatch(r: Rule, t: Turn, rules: seq<Rule>, reach: string, waited: int, kind: string, mode: string)
    requires r.reach == "" || r.reach == PAUSED || r.reach == OFFLINE
    ensures Match(r, ClaimFacts(t, kind, mode)) == Some(Hopeful(r, t, rules, reach, waited) && Fits(r, kind, mode))
  {
    var early, late := EnqueueFacts(t, rules, reach, waited), ClaimFacts(t, kind, mode);
    if Hopeful(r, t, rules, reach, waited) && Fits(r, kind, mode) {
      forall f ensures Verdict(r, late, f) == Some(true) {
        assert Verdict(r, early, f) != Some(false);
      }
    } else if r.reach != "" {
      assert Verdict(r, late, Reach) == Some(false);
    } else if !Fits(r, kind, mode) {
      assert Verdict(r, late, RunnerKind) == Some(false) || Verdict(r, late, TurnMode) == Some(false);
    } else {
      EarlyFactsHold(r, t, rules, reach, waited, kind, mode);
    }
  }

  /** Every rule names only kinds and modes of this vocabulary. */
  ghost predicate Within(rules: seq<Rule>, kinds: set<string>, modes: set<string>) {
    forall r :: r in rules ==> (r.runnerKind == "" || r.runnerKind in kinds) && (r.turnMode == "" || r.turnMode in modes)
  }

  ghost predicate Covering(r: Rule, t: Turn, rules: seq<Rule>, reach: string, waited: int) {
    r in rules && r.action == Reject && Hopeful(r, t, rules, reach, waited)
  }

  /** For every kind and mode some reject rule that may match is open to it. */
  ghost predicate Covered(t: Turn, rules: seq<Rule>, reach: string, waited: int, kinds: set<string>, modes: set<string>) {
    forall kind, mode :: kind in kinds && mode in modes ==>
      exists r :: Covering(r, t, rules, reach, waited) && Fits(r, kind, mode)
  }

  ghost predicate EveryClaimRejects(t: Turn, rules: seq<Rule>, kinds: set<string>, modes: set<string>) {
    forall kind, mode :: kind in kinds && mode in modes ==> AtClaim(t, rules, kind, mode).Some?
  }

  lemma ClaimRejects(t: Turn, rules: seq<Rule>, reach: string, waited: int, kind: string, mode: string)
    requires ReachIsAChoice(rules)
    ensures AtClaim(t, rules, kind, mode).Some? <==>
              && (forall r :: r in rules && r.action == Allow ==> !(Hopeful(r, t, rules, reach, waited) && Fits(r, kind, mode)))
              && (exists r :: Covering(r, t, rules, reach, waited) && Fits(r, kind, mode))
  {
    var late := ClaimFacts(t, kind, mode);
    DecideMeaning(rules, late);
    forall r | r in rules
      ensures Match(r, late) == Some(Hopeful(r, t, rules, reach, waited) && Fits(r, kind, mode))
    {
      ClaimMatch(r, t, rules, reach, waited, kind, mode);
    }
  }

  /** An allow rule that may cover the turn lets some claim through. */
  lemma AllowLetsOneIn(t: Turn, rules: seq<Rule>, reach: string, waited: int, kinds: set<string>, modes: set<string>)
    requires AllClean(rules) && Within(rules, kinds, modes) && kinds != {} && modes != {}
    requires MayBeAllowed(rules, EnqueueFacts(t, rules, reach, waited))
    ensures !EveryClaimRejects(t, rules, kinds, modes)
  {
    var a :| a in rules && a.action == Allow && Match(a, EnqueueFacts(t, rules, reach, waited)) != Some(false);
    var k :| k in kinds;
    var m :| m in modes;
    var kind, mode := if a.runnerKind == "" then k else a.runnerKind, if a.turnMode == "" then m else a.turnMode;
    assert kind in kinds && mode in modes && Hopeful(a, t, rules, reach, waited) && Fits(a, kind, mode);
    ClaimRejects(t, rules, reach, waited, kind, mode);
  }

  /** Over any vocabulary of runner kinds and modes: every claim rejects the turn if and only
      if, as seen from enqueue, no allow rule may cover it and the reject rules that may match
      cover every kind and mode between them. */
  lemma EveryClaimRejectsExactly(t: Turn, rules: seq<Rule>, reach: string, waited: int, kinds: set<string>, modes: set<string>)
    requires AllClean(rules) && Within(rules, kinds, modes) && kinds != {} && modes != {}
    ensures EveryClaimRejects(t, rules, kinds, modes) <==>
              !MayBeAllowed(rules, EnqueueFacts(t, rules, reach, waited)) && Covered(t, rules, reach, waited, kinds, modes)
  {
    if MayBeAllowed(rules, EnqueueFacts(t, rules, reach, waited)) {
      AllowLetsOneIn(t, rules, reach, waited, kinds, modes);
    } else {
      forall kind, mode | kind in kinds && mode in modes
        ensures AtClaim(t, rules, kind, mode).Some? <==> exists r :: Covering(r, t, rules, reach, waited) && Fits(r, kind, mode)
      {
        ClaimRejects(t, rules, reach, waited, kind, mode);
      }
    }
  }

  /** The turn is rejected early by a rule without `reach` if and only if, besides, one of
      those reject rules names neither kind nor mode: the rest of what every claim rejects is
      left to the claims. */
  lemma EarlyRejectWithin(t: Turn, rules: seq<Rule>, reach: string, waited: int, kinds: set<string>, modes: set<string>)
    requires AllClean(rules) && Within(rules, kinds, modes) && kinds != {} && modes != {}
    ensures (exists r :: RefusesEarly(r, t, rules, reach, waited)) && AtEnqueue(t, rules, reach, waited).Some?
            <==> && EveryClaimRejects(t, rules, kinds, modes)
                 && exists r :: Covering(r, t, rules, reach, waited) && r.runnerKind == "" && r.turnMode == ""
  {
    var known := EnqueueFacts(t, rules, reach, waited);
    DecideMeaning(rules, known);
    EveryClaimRejectsExactly(t, rules, reach, waited, kinds, modes);
    forall r | r in rules && r.action == Reject
      ensures RefusesEarly(r, t, rules, reach, waited) <==>
                Covering(r, t, rules, reach, waited) && r.runnerKind == "" && r.turnMode == ""
    {
      NamesNeither(r, t, rules, reach, waited);
    }
    if r :| RefusesEarly(r, t, rules, reach, waited) && AtEnqueue(t, rules, reach, waited).Some? {
      forall kind, mode | kind in kinds && mode in modes ensures AtClaim(t, rules, kind, mode).Some? {
        EarlyRejectIsSound(t, rules, reach, waited, r, kind, mode);
      }
      assert Covering(r, t, rules, reach, waited);
    }
    if r :| EveryClaimRejects(t, rules, kinds, modes) && Covering(r, t, rules, reach, waited) && r.runnerKind == "" && r.turnMode == "" {
      assert RefusesEarly(r, t, rules, reach, waited);
    }
  }

  lemma NamesNeither(r: Rule, t: Turn, rules: seq<Rule>, reach: string, waited: int)
    requires r.reach == "" || r.reach == PAUSED || r.reach == OFFLINE
    ensures r.reach == "" && Match(r, EnqueueFacts(t, rules, reach, waited)) == Some(true) <==>
            Hopeful(r, t, rules, reach, waited) && r.runnerKind == "" && r.turnMode == ""
  {
    var known := EnqueueFacts(t, rules, reach, waited);
    if r.reach == "" && Match(r, known) == Some(true) {
      assert Verdict(r, known, RunnerKind) == Some(true) && Verdict(r, known, TurnMode) == Some(true);
    }
    if Hopeful(r, t, rules, reach, waited) && r.runnerKind == "" && r.turnMode == "" {
      forall f ensures Verdict(r, known, f) == Some(true) {
        assert Verdict(r, known, f) != Some(false);
      }
    }
  }

  lemma UndecidedRules(t: Turn, rules: seq<Rule>, reach: string, waited: int)
    requires forall r :: r in rules ==> r.action == Reject && r.reach == "" && Match(r, IntakeFacts(t)) == None
    ensures EnqueueFacts(t, rules, reach, waited) == IntakeFacts(t)
    ensures AtEnqueue(t, rules, reach, waited) == None && !MayBeAllowed(rules, IntakeFacts(t))
    ensures forall r :: r in rules ==> Covering(r, t, rules, reach, waited)
  {
    assert !AnyReach(rules);
    DecideMeaning(rules, IntakeFacts(t));
  }

  /** So an early rejection is not all that is certain: reject rules that each name a runner
      kind, and every kind between them, reject every claim, and enqueue lets the turn in. */
  lemma RulesPerKindAreNotSeenEarly(t: Turn, rules: seq<Rule>, reach: string, waited: int, kinds: set<string>, modes: set<string>)
    requires kinds != {} && modes != {} && "" !in kinds
    requires forall r :: r in rules ==> Clean(r) && r.action == Reject && r.runnerKind in kinds && r.turnMode == ""
    requires forall r :: r in rules ==> Match(r, IntakeFacts(t)) != Some(false) && r.reach == ""
    requires forall kind :: kind in kinds ==> exists r :: r in rules && r.runnerKind == kind
    ensures EveryClaimRejects(t, rules, kinds, modes) && AtEnqueue(t, rules, reach, waited) == None
  {
    forall r | r in rules ensures Match(r, IntakeFacts(t)) == None {
      assert Verdict(r, IntakeFacts(t), RunnerKind) == None;
    }
    UndecidedRules(t, rules, reach, waited);
    forall kind, mode | kind in kinds && mode in modes
      ensures exists r :: Covering(r, t, rules, reach, waited) && Fits(r, kind, mode)
    {
      var r :| r in rules && r.runnerKind == kind;
      assert Covering(r, t, rules, reach, waited) && Fits(r, kind, mode);
    }
    EveryClaimRejectsExactly(t, rules, reach, waited, kinds, modes);
  }

  /** The kinds of runner that claim turns, and the modes. */
  const KINDS: set<string> := {"emdash", "cloud", "remote"}
  const MODES: set<string> := {"manual", "auto"}

  function KindRule(pk: nat, kind: string): Rule {
    PLAIN.(pk := pk, runnerKind := kind)
  }

  /** Over the kinds the service has, three such rules. */
  lemma ThreeKindRules(t: Turn, reach: string, waited: int) returns (rules: seq<Rule>)
    ensures rules == [KindRule(1, "emdash"), KindRule(2, "cloud"), KindRule(3, "remote")]
    ensures EveryClaimRejects(t, rules, KINDS, MODES) && AtEnqueue(t, rules, reach, waited) == None
  {
    rules := [KindRule(1, "emdash"), KindRule(2, "cloud"), KindRule(3, "remote")];
    assert rules[0] in rules && rules[1] in rules && rules[2] in rules;
    forall r | r in rules ensures Match(r, IntakeFacts(t)) != Some(false) {
      assert forall f :: Verdict(r, IntakeFacts(t), f) != Some(false);
    }
    forall kind | kind in KINDS ensures exists r :: r in rules && r.runnerKind == kind {
      var i := if kind == "emdash" then 0 else if kind == "cloud" then 1 else 2;
      assert rules[i].runnerKind == kind;
    }
    RulesPerKindAreNotSeenEarly(t, rules, reach, waited, KINDS, MODES);
  }

  // ---- the case of an unbounded vocabulary ----

  function Longest(rules: seq<Rule>): nat {
    if rules == [] then 0
    else
      var rest := Longest(rules[1..]);
      var a := if |rules[0].turnMode| > rest then |rules[0].turnMode| else rest;
      if |rules[0].runnerKind| > a then |rules[0].runnerKind| else a
  }

  lemma {:induction false} LongestBounds(rules: seq<Rule>)
    ensures forall r :: r in rules ==> |r.turnMode| <= Longest(rules) && |r.runnerKind| <= Longest(rules)
  {
    if rules != [] {
      LongestBounds(rules[1..]);
      assert rules == [rules[0]] + rules[1..];
    }
  }

  /** A value that no rule names as a turn mode or a runner kind. */
  function Unnamed(rules: seq<Rule>): string {
    seq(Longest(rules) + 1, _ => '-')
  }

  /** A turn that an allow rule may cover at enqueue is let through by some claim. */
  lemma AllowedSomewhere(t: Turn, rules: seq<Rule>, reach: string, waited: int) returns (kind: string, mode: string)
    requires AllClean(rules) && MayBeAllowed(rules, EnqueueFacts(t, rules, reach, waited))
    ensures AtClaim(t, rules, kind, mode) == None
  {
    var a :| a in rules && a.action == Allow && Match(a, EnqueueFacts(t, rules, reach, waited)) != Some(false);
    kind, mode := a.runnerKind, a.turnMode;
    AllowIsGranted(a, t, rules, reach, waited);
    DecideMeaning(rules, ClaimFacts(t, kind, mode));
  }

  /** If claims could come from runners of any kind and in any mode whatever, named by a rule
      or not, an early refusal by a rule that says nothing about reach would be exactly what
      every claim answers. */
  lemma EarlyRejectIsExact(t: Turn, rules: seq<Rule>, reach: string, waited: int)
    requires AllClean(rules)
    ensures AtEnqueue(t, rules, reach, waited).Some? && (exists r :: RefusesEarly(r, t, rules, reach, waited))
            <==> forall kind, mode :: AtClaim(t, rules, kind, mode).Some?
  {
    var known := EnqueueFacts(t, rules, reach, waited);
    DecideMeaning(rules, known);
    if AtEnqueue(t, rules, reach, waited).Some? && exists r :: RefusesEarly(r, t, rules, reach, waited) {
      var early :| RefusesEarly(early, t, rules, reach, waited);
      forall kind, mode ensures AtClaim(t, rules, kind, mode).Some? {
        EarlyRejectIsSound(t, rules, reach, waited, early, kind, mode);
      }
    }
    if forall kind, mode :: AtClaim(t, rules, kind, mode).Some? {
      if MayBeAllowed(rules, known) {
        var kind, mode := AllowedSomewhere(t, rules, reach, waited);
        assert false;
      }
      var x := Unnamed(rules);
      LongestBounds(rules);
      DecideMeaning(rules, ClaimFacts(t, x, x));
      var c := AtClaim(t, rules, x, x).value;
      RefusedEverywhere(c, t, rules, reach, waited, x);
      assert RefusesEarly(c, t, rules, reach, waited);
    }
  }

  lemma AllowIsGranted(a: Rule, t: Turn, rules: seq<Rule>, reach: string, waited: int)
    requires a.reach == "" && Match(a, EnqueueFacts(t, rules, reach, waited)) != Some(false)
    ensures Match(a, ClaimFacts(t, a.runnerKind, a.turnMode)) == Some(true)
  {
    var known := EnqueueFacts(t, rules, reach, waited);
    forall f ensures Verdict(a, ClaimFacts(t, a.runnerKind, a.turnMode), f) == Some(true) {
      assert Verdict(a, known, f) != Some(false);
    }
  }

  lemma RefusedEverywhere(c: Rule, t: Turn, rules: seq<Rule>, reach: string, waited: int, x: string)
    requires c.reach == "" || c.reach == PAUSED || c.reach == OFFLINE
    requires Match(c, ClaimFacts(t, x, x)) == Some(true) && c.turnMode != x && c.runnerKind != x
    ensures c.reach == "" && Match(c, EnqueueFacts(t, rules, reach, waited)) == Some(true)
  {
    var late := ClaimFacts(t, x, x);
    assert Verdict(c, late, Reach) == Some(true) && Verdict(c, late, TurnMode) == Some(true)
           && Verdict(c, late, RunnerKind) == Some(true);
    forall f ensures Verdict(c, EnqueueFacts(t, rules, reach, waited), f) == Some(true) {
      assert Verdict(c, late, f) == Some(true);
    }
  }

  const PLAIN := Rule(0, "w", None, true, "", "", "", "", "", "", "", "", 0, Reject)

  const MAIL := Turn("email", "contact", "")
  const NO_MAIL := PLAIN.(pk := 1, origin := "email")
  const PAUSED_MAIL := PLAIN.(pk := 2, origin := "email", reach := PAUSED, action := Allow)

  lemma PausedMailAtEnqueue(rules: seq<Rule>)
    requires PAUSED_MAIL in rules
    ensures AtEnqueue(MAIL, rules, PAUSED, 0) == None
  {
    var known := EnqueueFacts(MAIL, rules, PAUSED, 0);
    assert AnyReach(rules);
    forall f ensures Verdict(PAUSED_MAIL, known, f) == Some(true) {
    }
    DecideMeaning(rules, known);
  }

  lemma PausedMailAtClaim(rules: seq<Rule>, kind: string, mode: string)
    requires NO_MAIL in rules && forall r :: r in rules && r.action == Allow ==> r == PAUSED_MAIL
    ensures AtClaim(MAIL, rules, kind, mode).Some?
  {
    var late := ClaimFacts(MAIL, kind, mode);
    assert Verdict(PAUSED_MAIL, late, Reach) == Some(false);
    forall f ensures Verdict(NO_MAIL, late, f) == Some(true) {
    }
    DecideMeaning(rules, late);
  }

  /** Exactness needs `clean` to keep `reach` off allow rules: an allow rule about
      paused runners would hide an early rejection that every claim then makes. */
  lemma ReachOnAllowHidesRejection()
    ensures AtEnqueue(MAIL, [NO_MAIL, PAUSED_MAIL], PAUSED, 0) == None
    ensures forall kind, mode :: AtClaim(MAIL, [NO_MAIL, PAUSED_MAIL], kind, mode).Some?
  {
    var rules := [NO_MAIL, PAUSED_MAIL];
    assert rules[0] in rules && rules[1] in rules;
    PausedMailAtEnqueue(rules);
    forall kind, mode ensures AtClaim(MAIL, rules, kind, mode).Some? {
      PausedMailAtClaim(rules, kind, mode);
    }
  }

  lemma RefusalRuleNeverMatches(r: Rule, known: Facts)
    requires IsRefusal(r)
    requires Sender in known.vals && known.vals[Sender] == ""
    requires Access in known.vals && known.vals[Access] != NONE
    ensures Match(r, known) == Some(false)
  {
    if r.sender == BLOCKED {
      assert Verdict(r, known, Sender) == Some(false);
    } else {
      assert Verdict(r, known, Access) == Some(false);
    }
  }

  /** A rule that describes built-in refusals never decides a turn, whenever rules are
      asked. */
  lemma RefusalRulesNeverDecide(t: Turn, rules: seq<Rule>, reach: string, waited: int, kind: string, mode: string, known: Facts)
    requires known in {EnqueueFacts(t, rules, reach, waited), ReachFacts(t, reach, waited), ClaimFacts(t, kind, mode)}
    ensures Decide(rules, known).Some? ==>
              Decide(rules, known).value.sender != "blocked" && Decide(rules, known).value.access != "none"
  {
    DecideMeaning(rules, known);
    if Decide(rules, known).Some? && IsRefusal(Decide(rules, known).value) {
      RefusalRuleNeverMatches(Decide(rules, known).value, known);
    }
  }
}
