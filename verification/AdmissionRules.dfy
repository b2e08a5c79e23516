/** Admission rules: matching a rule against facts that are only partly known, and
    choosing the rule that refuses a turn. */
module AdmissionRules {
  import opened Basics
  import opened Ordering

  const PAUSED := "paused"
  const OFFLINE := "offline"
  const LIVE := "live"
  const BLOCKED := "blocked"
  const NONE := "none"

  /** Read mode goes by either of two names. */
  predicate IsReadMode(name: string) {
    name == "ask" || name == "read"
  }

  datatype Field = Origin | Principal | Sender | Access | Capability | TurnMode | RunnerKind | Reach

  const CONDITIONS: seq<Field> :=
    [Origin, Principal, Sender, Access, Capability, TurnMode, RunnerKind, Reach]

  datatype Act = Reject | Allow | Auto

  /** A workspace's rule; a blank condition means any, no agent means every agent. */
  datatype Rule = Rule(
    pk: nat,
    workspace: string, agent: Option<string>, enabled: bool,
    origin: string, principal: string, sender: string, access: string,
    capability: string, turnMode: string, runnerKind: string, reach: string,
    waitHours: nat,
    action: Act)

  function Want(r: Rule, f: Field): string {
    match f
    case Origin => r.origin
    case Principal => r.principal
    case Sender => r.sender
    case Access => r.access
    case Capability => r.capability
    case TurnMode => r.turnMode
    case RunnerKind => r.runnerKind
    case Reach => r.reach
  }

  predicate IsRefusal(r: Rule) {
    r.sender == BLOCKED || r.access == NONE
  }

  function One(b: bool): nat {
    if b then 1 else 0
  }

  function Specificity(r: Rule): nat {
    One(r.origin != "") + One(r.principal != "") + One(r.sender != "") + One(r.access != "")
    + One(r.capability != "") + One(r.turnMode != "") + One(r.runnerKind != "") + One(r.reach != "")
    + One(r.agent.Some?)
  }

  /** `clean`, and the choices `reach` is limited to. */
  predicate Clean(r: Rule) {
    && !(IsRefusal(r) && r.action == Allow)
    && !(IsRefusal(r) && (r.turnMode != "" || r.runnerKind != ""))
    && !(r.reach != "" && (r.turnMode != "" || r.runnerKind != ""))
    && !(r.action == Auto && (IsRefusal(r) || r.reach != ""))
    && !(r.reach != "" && r.action == Allow)
    && Specificity(r) > 0
    && (r.reach == "" || r.reach == PAUSED || r.reach == OFFLINE)
  }

  /** What is known of a turn: a field that is absent is not known yet. `waited`
      belongs to `Reach`, and is 0 where nobody asked. */
  datatype Facts = Facts(vals: map<Field, string>, waited: int)

  /** Whether a known value meets the rule's condition on that field. */
  predicate Meets(r: Rule, f: Field, have: string, waited: int) {
    || Want(r, f) == ""
    || (&& (have == Want(r, f) || (f == Capability && IsReadMode(have) && IsReadMode(Want(r, f))))
        && !(f == Reach && r.reach == OFFLINE && waited < r.waitHours * HOUR))
  }

  /** One condition: met, not met, or not known yet. */
  function Verdict(r: Rule, known: Facts, f: Field): Option<bool> {
    if Want(r, f) == "" then Some(true)
    else if f !in known.vals then None
    else Some(Meets(r, f, known.vals[f], known.waited))
  }

  /** The rule as a whole: false once one condition fails, open while one is undetermined. */
  function Match(r: Rule, known: Facts): Option<bool> {
    if exists f :: Verdict(r, known, f) == Some(false) then Some(false)
    else if exists f :: Verdict(r, known, f) == None then None
    else Some(true)
  }

  /** `match`'s loop, over the conditions in whatever order they are listed. */
  method ScanConditions(r: Rule, known: Facts, order: seq<Field>) returns (result: Option<bool>)
    requires forall f :: f in order
    ensures result == Match(r, known)
  {
    var unknown := false;
    for i := 0 to |order|
      invariant forall j :: 0 <= j < i ==> Verdict(r, known, order[j]) != Some(false)
      invariant unknown <==> exists j :: 0 <= j < i && Verdict(r, known, order[j]) == None
    {
      var want := Want(r, order[i]);
      if want == "" {
        continue;
      }
      if order[i] !in known.vals {
        unknown := true;
      } else {
        var have := known.vals[order[i]];
        if have != want && !(order[i] == Capability && IsReadMode(have) && IsReadMode(want)) {
          assert Verdict(r, known, order[i]) == Some(false);
          return Some(false);
        } else if order[i] == Reach && want == OFFLINE && known.waited < r.waitHours * HOUR {
          assert Verdict(r, known, order[i]) == Some(false);
          return Some(false);
        }
      }
    }
    forall f ensures Verdict(r, known, f) != Some(false) && (!unknown ==> Verdict(r, known, f) != None) {
      assert f in order;
    }
    result := if unknown then None else Some(true);
  }

  method MatchRule(r: Rule, known: Facts) returns (result: Option<bool>)
    ensures result == Match(r, known)
  {
    forall f ensures f in CONDITIONS {
      EveryField(f);
    }
    result := ScanConditions(r, known, CONDITIONS);
  }

  // ---- matching is Kleene conjunction over what may still be learned ----

  ghost predicate Complete(full: Facts) {
    forall f: Field :: f in full.vals
  }

  /** `full` is one way everything may turn out, given what is known now. */
  ghost predicate Completes(full: Facts, known: Facts) {
    && Complete(full)
    && (forall f :: f in known.vals ==> full.vals[f] == known.vals[f])
    && (Reach in known.vals ==> full.waited == known.waited)
  }

  ghost predicate Satisfies(r: Rule, full: Facts)
    requires Complete(full)
  {
    forall f :: Meets(r, f, full.vals[f], full.waited)
  }

  /** Fill in every unknown field the way the rule wants it. */
  function Granting(r: Rule, known: Facts): Facts {
    Facts(map f: Field | true :: if f in known.vals then known.vals[f] else Want(r, f),
          if Reach in known.vals then known.waited else r.waitHours * HOUR)
  }

  /** Fill in every unknown field with a value no rule names. */
  function Blank(known: Facts): Facts {
    Facts(map f: Field | true :: if f in known.vals then known.vals[f] else "", known.waited)
  }

  /** `match` answers True exactly when the rule fits however the unknown facts turn
      out, False exactly when it fits however none of them, and None otherwise. */
  lemma MatchIsKleene(r: Rule, known: Facts)
    ensures Match(r, known) == Some(true) <==> forall full :: Completes(full, known) ==> Satisfies(r, full)
    ensures Match(r, known) == Some(false) <==> forall full :: Completes(full, known) ==> !Satisfies(r, full)
  {
    var blank, granting := Blank(known), Granting(r, known);
    assert Completes(blank, known) && Completes(granting, known);
    if Match(r, known) == Some(true) {
      forall full | Completes(full, known) ensures Satisfies(r, full) {
        forall f ensures Meets(r, f, full.vals[f], full.waited) {
          assert Verdict(r, known, f) == Some(true);
        }
      }
    } else if Match(r, known) == Some(false) {
      var f :| Verdict(r, known, f) == Some(false);
      forall full | Completes(full, known) ensures !Satisfies(r, full) {
        assert !Meets(r, f, full.vals[f], full.waited);
      }
    } else {
      var f :| Verdict(r, known, f) == None;
      assert !Meets(r, f, blank.vals[f], blank.waited);
      forall g ensures Meets(r, g, granting.vals[g], granting.waited) {
        assert Verdict(r, known, g) != Some(false);
      }
    }
  }

  /** Learning more never turns a definite answer round. */
  lemma MatchIsMonotone(r: Rule, known: Facts, more: Facts)
    requires forall f :: f in known.vals ==> f in more.vals && more.vals[f] == known.vals[f]
    requires Reach in known.vals ==> more.waited == known.waited
    ensures Match(r, known) != None ==> Match(r, more) == Match(r, known)
  {
    if Match(r, known) == Some(false) {
      var f :| Verdict(r, known, f) == Some(false);
      assert Verdict(r, more, f) == Some(false);
    } else if Match(r, known) == Some(true) {
      forall f ensures Verdict(r, more, f) == Some(true) {
        assert Verdict(r, known, f) == Some(true);
      }
    }
  }

  /** The two names of read mode are one, in the rule and in the turn. */
  lemma ReadModeNamesAreOne(r: Rule, known: Facts, a: string, b: string)
    requires IsReadMode(a) && IsReadMode(b)
    ensures Match(r.(capability := a), known) == Match(r.(capability := b), known)
    ensures Match(r, known.(vals := known.vals[Capability := a])) == Match(r, known.(vals := known.vals[Capability := b]))
  {
    var ra, rb := r.(capability := a), r.(capability := b);
    assert forall f :: Verdict(ra, known, f) == Verdict(rb, known, f);
    var ka, kb := known.(vals := known.vals[Capability := a]), known.(vals := known.vals[Capability := b]);
    assert forall f :: Verdict(r, ka, f) == Verdict(r, kb, f) || f == Capability;
    if r.capability != "" && !IsReadMode(r.capability) {
      assert Verdict(r, ka, Capability) == Some(false) && Verdict(r, kb, Capability) == Some(false);
    } else {
      assert Verdict(r, ka, Capability) == Verdict(r, kb, Capability);
    }
  }

  // ---- choosing the rule ----

  /** The sort key `(-specificity, pk)`. */
  predicate Stronger(a: Rule, b: Rule) {
    Specificity(a) > Specificity(b) || (Specificity(a) == Specificity(b) && a.pk <= b.pk)
  }

  function Rejecting(rules: seq<Rule>, known: Facts): seq<Rule> {
    if rules == [] then []
    else
      (if rules[0].action == Reject && Match(rules[0], known) == Some(true) then [rules[0]] else [])
      + Rejecting(rules[1..], known)
  }

  /** Some allow rule covers the turn, or might once more is known. */
  predicate MayBeAllowed(rules: seq<Rule>, known: Facts) {
    exists r :: r in rules && r.action == Allow && Match(r, known) != Some(false)
  }

  /** The same, rule by rule down the list. */
  predicate AnyAllows(rules: seq<Rule>, known: Facts) {
    rules != []
    && ((rules[0].action == Allow && Match(rules[0], known) != Some(false)) || AnyAllows(rules[1..], known))
  }

  lemma {:induction false} AnyAllowsMeans(rules: seq<Rule>, known: Facts)
    ensures AnyAllows(rules, known) <==> MayBeAllowed(rules, known)
  {
    if rules != [] {
      AnyAllowsMeans(rules[1..], known);
      assert rules == [rules[0]] + rules[1..];
    }
  }

  /** The first matching reject rule in order of strength, unless an allow rule stands in
      the way. */
  function Decide(rules: seq<Rule>, known: Facts): Option<Rule> {
    if AnyAllows(rules, known) then None
    else
      var rejects := Sort(Rejecting(rules, known), Stronger);
      if rejects == [] then None else Some(rejects[0])
  }

  lemma StrongerIsAnOrder()
    ensures Preorder(Stronger)
  {
  }

  lemma {:induction false} RejectingHas(rules: seq<Rule>, known: Facts)
    ensures forall r :: r in Rejecting(rules, known) <==>
              r in rules && r.action == Reject && Match(r, known) == Some(true)
  {
    if rules != [] {
      RejectingHas(rules[1..], known);
      assert rules == [rules[0]] + rules[1..];
    }
  }

  /** The conditions a rule sets. */
  function Conditions(r: Rule): set<Field> {
    set f: Field | Want(r, f) != ""
  }

  /** How much a rule says: each condition it sets, and its agent if it names one. */
  function Says(r: Rule): nat {
    |Conditions(r)| + (if r.agent == None then 0 else 1)
  }

  lemma EveryField(f: Field)
    ensures f in CONDITIONS
  {
    match f
    case Origin => assert CONDITIONS[0] == f;
    case Principal => assert CONDITIONS[1] == f;
    case Sender => assert CONDITIONS[2] == f;
    case Access => assert CONDITIONS[3] == f;
    case Capability => assert CONDITIONS[4] == f;
    case TurnMode => assert CONDITIONS[5] == f;
    case RunnerKind => assert CONDITIONS[6] == f;
    case Reach => assert CONDITIONS[7] == f;
  }

  /** The same, counted down a list of fields. */
  function SaidIn(r: Rule, fields: seq<Field>): nat {
    if fields == [] then 0 else One(Want(r, fields[0]) != "") + SaidIn(r, fields[1..])
  }

  function ConditionsIn(r: Rule, fields: seq<Field>): set<Field> {
    set f | f in fields && Want(r, f) != ""
  }

  lemma {:induction false} SaidInCounts(r: Rule, fields: seq<Field>)
    requires forall i, j :: 0 <= i < j < |fields| ==> fields[i] != fields[j]
    ensures SaidIn(r, fields) == |ConditionsIn(r, fields)|
  {
    if fields != [] {
      SaidInCounts(r, fields[1..]);
      ConditionsInCons(r, fields[0], fields[1..], fields);
    }
  }

  lemma ConditionsInCons(r: Rule, f: Field, rest: seq<Field>, fields: seq<Field>)
    requires fields == [f] + rest && f !in rest
    ensures |ConditionsIn(r, fields)| == |ConditionsIn(r, rest)| + One(Want(r, f) != "")
  {
    assert ConditionsIn(r, fields) == ConditionsIn(r, rest) + (if Want(r, f) != "" then {f} else {});
  }

  lemma SaidInTwo(r: Rule, a: Field, b: Field, rest: seq<Field>, fields: seq<Field>)
    requires fields == [a, b] + rest
    ensures SaidIn(r, fields) == One(Want(r, a) != "") + One(Want(r, b) != "") + SaidIn(r, rest)
  {
    assert fields[1..] == [b] + rest && fields[1..][1..] == rest;
  }

  lemma SpecificityIsSaid(r: Rule)
    ensures SaidIn(r, CONDITIONS) + One(r.agent.Some?) == Specificity(r)
  {
    var last := [RunnerKind, Reach];
    var later := [Capability, TurnMode] + last;
    var early := [Sender, Access] + later;
    assert CONDITIONS == [Origin, Principal] + early;
    SaidInTwo(r, Origin, Principal, early, CONDITIONS);
    SaidInTwo(r, Sender, Access, later, early);
    SaidInTwo(r, Capability, TurnMode, last, later);
    SaidInTwo(r, RunnerKind, Reach, [], last);
  }

  lemma SpecificityCounts(r: Rule)
    ensures Specificity(r) == Says(r)
  {
    SpecificityIsSaid(r);
    SaidInCounts(r, CONDITIONS);
    forall f ensures f in CONDITIONS {
      EveryField(f);
    }
    assert ConditionsIn(r, CONDITIONS) == Conditions(r);
  }

  /** What `decide` answers, without sorting: nobody if an allow rule may cover the
      turn or no reject rule matches; else the matching reject rule that says more
      than every other, oldest first. */
  lemma DecideMeaning(rules: seq<Rule>, known: Facts)
    ensures Decide(rules, known) == None <==>
              MayBeAllowed(rules, known)
              || !(exists r :: r in rules && r.action == Reject && Match(r, known) == Some(true))
    ensures Decide(rules, known).Some? ==>
              var d := Decide(rules, known).value;
              && d in rules && d.action == Reject && Match(d, known) == Some(true)
              && (forall r :: r in rules && r.action == Reject && Match(r, known) == Some(true) ==>
                    Says(d) > Says(r) || (Says(d) == Says(r) && d.pk <= r.pk))
  {
    var rejects := Rejecting(rules, known);
    var sorted := Sort(rejects, Stronger);
    AnyAllowsMeans(rules, known);
    RejectingHas(rules, known);
    SameElements(rejects, sorted);
    StrongerIsAnOrder();
    SortSorts(rejects, Stronger);
    if sorted != [] {
      assert sorted[0] in rejects;
      var d := sorted[0];
      forall r | r in rejects ensures Says(d) > Says(r) || (Says(d) == Says(r) && d.pk <= r.pk) {
        var k :| 0 <= k < |sorted| && sorted[k] == r;
        assert k == 0 || Stronger(d, sorted[k]);
        SpecificityCounts(d);
        SpecificityCounts(r);
      }
    }
  }

  ghost predicate DistinctKeys(rules: seq<Rule>) {
    forall a, b :: a in rules && b in rules && a.pk == b.pk ==> a == b
  }

  /** The same rules listed in any order refuse the turn by the same rule. */
  lemma DecideIgnoresOrder(rules: seq<Rule>, other: seq<Rule>, known: Facts)
    requires multiset(rules) == multiset(other) && DistinctKeys(rules)
    ensures Decide(rules, known) == Decide(other, known)
  {
    SameElements(rules, other);
    DecideMeaning(rules, known);
    DecideMeaning(other, known);
    assert MayBeAllowed(rules, known) <==> MayBeAllowed(other, known);
  }
}
