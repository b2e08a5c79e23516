/** The routing rows of one agent: the default list, the rules, and the writes that
    replace one part of them. */
module RoutingTable {
  import opened Basics
  import opened Lists

  /** Whose work a rule is about. The default list is under the empty source; an empty
      actor is anyone. */
  datatype Key = Key(source: string, actor: string)

  datatype Pick = Pick(runner: nat, enabled: bool)

  datatype Body = Body(picks: seq<Pick>, strict: bool, turnMode: string)

  datatype Rule = Rule(key: Key, body: Body)

  datatype Row = Row(key: Key, runner: nat, rank: nat, enabled: bool, strict: bool, turnMode: string)

  const SCHEDULER := "canopy_scheduler"
  const ROUTABLE: seq<string> := ["ace_web", "email", "canopy_scheduler", "canopy_web_chat", "slack", "api"]
  /** The routable sources with somebody behind each turn. */
  const ACTOR_SOURCES: seq<string> := ["ace_web", "email", "canopy_web_chat", "slack", "api"]

  const DEFAULT_LIST := Key("", "")

  // ---- rows and rules ----

  function HasKey(key: Key): Row -> bool {
    (r: Row) => r.key == key
  }

  /** The rows of one rule, in the order they were written. */
  function Of(rows: seq<Row>, key: Key): seq<Row> {
    Keep(rows, HasKey(key))
  }

  /** What a write stores for a rule: rank is the position sent, and what is said of the
      whole rule is repeated on every row. */
  function RowsOf(rule: Rule): (r: seq<Row>)
    ensures |r| == |rule.body.picks|
  {
    seq(|rule.body.picks|, i requires 0 <= i < |rule.body.picks| =>
      Row(rule.key, rule.body.picks[i].runner, i, rule.body.picks[i].enabled, rule.body.strict, rule.body.turnMode))
  }

  function PicksOf(rows: seq<Row>): (r: seq<Pick>)
    ensures |r| == |rows|
  {
    seq(|rows|, i requires 0 <= i < |rows| => Pick(rows[i].runner, rows[i].enabled))
  }

  /** The rule that rows of one key say, read off the first where they repeat themselves. */
  function BodyOf(rows: seq<Row>): Body {
    Body(PicksOf(rows), rows != [] && rows[0].strict, if rows == [] then "" else rows[0].turnMode)
  }

  function Runners(picks: seq<Pick>): (r: seq<nat>)
    ensures |r| == |picks|
  {
    seq(|picks|, i requires 0 <= i < |picks| => picks[i].runner)
  }

  /** Ranks are 0, 1, 2, … in order, no runner is there twice, and strictness and mode are
      the same throughout; the default list says nothing of either. */
  ghost predicate RuleOk(rows: seq<Row>, key: Key) {
    && (forall i :: 0 <= i < |rows| ==>
          && rows[i].key == key && rows[i].rank == i
          && rows[i].strict == rows[0].strict && rows[i].turnMode == rows[0].turnMode)
    && (forall i, j :: 0 <= i < j < |rows| ==> rows[i].runner != rows[j].runner)
    && (key.source == "" && rows != [] ==> key.actor == "" && !rows[0].strict && rows[0].turnMode == "")
  }

  ghost predicate Inv(rows: seq<Row>) {
    forall key :: RuleOk(Of(rows, key), key)
  }

  // ---- the writes ----

  datatype Scope = DefaultList | AllRules | OneRule(rule: Key) | Person(person: string)

  predicate Covers(scope: Scope, key: Key) {
    match scope
    case DefaultList => key.source == ""
    case AllRules => key.source != ""
    case OneRule(k) => key == k
    case Person(actor) => key.actor == actor && key.source != ""
  }

  function Outside(scope: Scope): Row -> bool {
    (r: Row) => !Covers(scope, r.key)
  }

  function Flat(rules: seq<Rule>): seq<Row> {
    if rules == [] then [] else Flat(rules[..|rules| - 1]) + RowsOf(rules[|rules| - 1])
  }

  /** Delete the rows in scope, then insert the rules sent. */
  function Replaced(rows: seq<Row>, scope: Scope, rules: seq<Rule>): seq<Row> {
    Keep(rows, Outside(scope)) + Flat(rules)
  }

  // ---- requests and refusals ----

  /** An actor as a request spells it, after parsing. */
  datatype ActorText = Anyone | NotAnAddress | Address(address: Email)
  type Email = s: string | s != "" witness "a@b"

  /** What the caller may do: the runners in service, those it may newly point an agent at,
      and whether it may set a rule to `auto`. */
  datatype Caller = Caller(live: set<nat>, addable: set<nat>, admin: bool)

  /** The request is malformed (422), or names a runner or a mode the caller may not set
      (403, or 422 for a runner it cannot see). */
  datatype Refusal = Malformed | NotAllowed

  datatype RuleIn = RuleIn(source: string, actor: ActorText, body: Body)

  datatype Request =
    | ReplaceRunners(ids: Option<seq<nat>>, picks: Option<seq<Pick>>)
    | ReplaceRules(rules: seq<RuleIn>)
    | SetRule(source: string, actor: ActorText, body: Body)
    | DeleteRule(source: string, actor: ActorText)
    | SetActorRoute(actor: ActorText, sources: Option<seq<string>>, body: Body)
    | DeleteActorRoute(actor: ActorText)

  datatype Change = Change(scope: Scope, rules: seq<Rule>)

  function AddressOf(actor: ActorText): string {
    if actor.Address? then actor.address else ""
  }

  predicate Repeats(picks: seq<Pick>) {
    !Distinct(Runners(picks))
  }

  /** `_runners_for_routing`: a runner the rule keeps must be in service, one it adds must
      be the caller's to add. */
  predicate RunnersAllowed(picks: seq<Pick>, already: seq<Row>, caller: Caller) {
    forall i :: 0 <= i < |picks| ==>
      var id := picks[i].runner;
      if exists r :: r in already && r.runner == id then id in caller.live else id in caller.addable
  }

  /** `_refuse_new_auto`: keeping `auto` is free, setting it is the admins'. */
  predicate ModeAllowed(body: Body, already: seq<Row>, caller: Caller) {
    body.turnMode == "auto" && BodyOf(already).turnMode != "auto" ==> caller.admin
  }

  predicate RuleAllowed(rows: seq<Row>, rule: Rule, caller: Caller) {
    ModeAllowed(rule.body, Of(rows, rule.key), caller) && RunnersAllowed(rule.body.picks, Of(rows, rule.key), caller)
  }

  function AllEnabled(ids: seq<nat>): (r: seq<Pick>)
    ensures |r| == |ids|
  {
    seq(|ids|, i requires 0 <= i < |ids| => Pick(ids[i], true))
  }

  function ReplaceRunnersChange(rows: seq<Row>, ids: Option<seq<nat>>, picks: Option<seq<Pick>>, caller: Caller): Result<Change, Refusal> {
    if ids.None? == picks.None? then Err(Malformed)
    else
      var sent := if picks.Some? then picks.value else AllEnabled(ids.value);
      if Repeats(sent) then Err(Malformed)
      else if !RunnersAllowed(sent, Of(rows, DEFAULT_LIST), caller) then Err(NotAllowed)
      else Ok(Change(DefaultList, [Rule(DEFAULT_LIST, Body(sent, false, ""))]))
  }

  function RulesSent(rules: seq<RuleIn>): (r: seq<Rule>)
    ensures |r| == |rules|
  {
    seq(|rules|, i requires 0 <= i < |rules| => Rule(Key(rules[i].source, AddressOf(rules[i].actor)), rules[i].body))
  }

  function KeysOf(rules: seq<Rule>): (r: seq<Key>)
    ensures |r| == |rules|
  {
    seq(|rules|, i requires 0 <= i < |rules| => rules[i].key)
  }

  function ReplaceRulesChange(rows: seq<Row>, rules: seq<RuleIn>, caller: Caller): Result<Change, Refusal> {
    var sent := RulesSent(rules);
    if exists i :: 0 <= i < |rules| && (rules[i].source !in ROUTABLE || rules[i].actor.NotAnAddress?) then Err(Malformed)
    else if exists i :: 0 <= i < |sent| && !ModeAllowed(sent[i].body, Of(rows, sent[i].key), caller) then Err(NotAllowed)
    else if !Distinct(KeysOf(sent)) then Err(Malformed)
    else if exists i :: 0 <= i < |sent| && (sent[i].body.picks == [] || Repeats(sent[i].body.picks)) then Err(Malformed)
    else if exists i :: 0 <= i < |sent| && !RunnersAllowed(sent[i].body.picks, Of(rows, sent[i].key), caller) then Err(NotAllowed)
    else Ok(Change(AllRules, sent))
  }

  /** `_rule_key_or_422`. */
  function RuleKey(source: string, actor: ActorText): Result<Key, Refusal> {
    if source !in ROUTABLE || actor.NotAnAddress? then Err(Malformed)
    else if actor.Address? && source == SCHEDULER then Err(Malformed)
    else Ok(Key(source, AddressOf(actor)))
  }

  function SetRuleChange(rows: seq<Row>, source: string, actor: ActorText, body: Body, caller: Caller): Result<Change, Refusal> {
    var key := RuleKey(source, actor);
    if key.Err? then Err(Malformed)
    else if body.picks == [] || Repeats(body.picks) then Err(Malformed)
    else if !RuleAllowed(rows, Rule(key.value, body), caller) then Err(NotAllowed)
    else Ok(Change(OneRule(key.value), [Rule(key.value, body)]))
  }

  function DeleteRuleChange(source: string, actor: ActorText): Result<Change, Refusal> {
    var key := RuleKey(source, actor);
    if key.Err? then Err(Malformed) else Ok(Change(OneRule(key.value), []))
  }

  /** `dict.fromkeys`: without repeats, in order of first appearance. */
  function Deduped(s: seq<string>): (r: seq<string>)
    ensures forall x :: x in r <==> x in s
    ensures Distinct(r)
  {
    if s == [] then []
    else
      var k := |s| - 1;
      assert s == s[..k] + [s[k]];
      var rest := Deduped(s[..k]);
      if s[k] in rest then rest else rest + [s[k]]
  }

  function SourcesSent(sources: Option<seq<string>>): seq<string> {
    Deduped(if sources.None? || sources.value == [] then ACTOR_SOURCES else sources.value)
  }

  function RouteRules(actor: string, sources: seq<string>, body: Body): (r: seq<Rule>)
    ensures |r| == |sources|
  {
    seq(|sources|, i requires 0 <= i < |sources| => Rule(Key(sources[i], actor), body))
  }

  function SetActorRouteChange(rows: seq<Row>, actor: ActorText, sources: Option<seq<string>>, body: Body, caller: Caller)
    : Result<Change, Refusal>
  {
    if !actor.Address? then Err(Malformed)
    else
      var named := SourcesSent(sources);
      if exists i :: 0 <= i < |named| && named[i] !in ACTOR_SOURCES then Err(Malformed)
      else if body.picks == [] || Repeats(body.picks) then Err(Malformed)
      else if exists i :: 0 <= i < |named| && !RuleAllowed(rows, Rule(Key(named[i], actor.address), body), caller)
      then Err(NotAllowed)
      else Ok(Change(Person(actor.address), RouteRules(actor.address, named, body)))
  }

  function DeleteActorRouteChange(actor: ActorText): Result<Change, Refusal> {
    if !actor.Address? then Err(Malformed) else Ok(Change(Person(actor.address), []))
  }

  function Decided(rows: seq<Row>, request: Request, caller: Caller): Result<Change, Refusal> {
    match request
    case ReplaceRunners(ids, picks) => ReplaceRunnersChange(rows, ids, picks, caller)
    case ReplaceRules(rules) => ReplaceRulesChange(rows, rules, caller)
    case SetRule(source, actor, body) => SetRuleChange(rows, source, actor, body, caller)
    case DeleteRule(source, actor) => DeleteRuleChange(source, actor)
    case SetActorRoute(actor, sources, body) => SetActorRouteChange(rows, actor, sources, body, caller)
    case DeleteActorRoute(actor) => DeleteActorRouteChange(actor)
  }

  function After(rows: seq<Row>, request: Request, caller: Caller): seq<Row> {
    match Decided(rows, request, caller)
    case Ok(change) => Replaced(rows, change.scope, change.rules)
    case Err(_) => rows
  }

  // ---- what a replacement does, rule by rule ----

  /** What a change puts under `key`. */
  function BodyIn(rules: seq<Rule>, key: Key): Option<Body> {
    if rules == [] then None
    else
      var last := rules[|rules| - 1];
      if last.key == key then Some(last.body) else BodyIn(rules[..|rules| - 1], key)
  }

  ghost predicate GoodRule(rule: Rule) {
    && Distinct(Runners(rule.body.picks))
    && (rule.key.source == "" ==> rule.key.actor == "" && !rule.body.strict && rule.body.turnMode == "")
  }

  /** The rules of a change are in its scope, one per key, and each is in order. */
  ghost predicate GoodChange(change: Change) {
    && Distinct(KeysOf(change.rules))
    && forall i :: 0 <= i < |change.rules| ==>
         Covers(change.scope, change.rules[i].key) && GoodRule(change.rules[i])
  }

  lemma OfRule(rule: Rule, key: Key)
    ensures Of(RowsOf(rule), key) == if rule.key == key then RowsOf(rule) else []
  {
    if rule.key == key {
      KeepAll(RowsOf(rule), HasKey(key));
    } else {
      KeepNone(RowsOf(rule), HasKey(key));
    }
  }

  lemma KeysOfPrefix(rules: seq<Rule>, k: nat)
    requires k < |rules| && Distinct(KeysOf(rules))
    ensures KeysOf(rules[..k + 1]) == KeysOf(rules[..k]) + [rules[k].key]
    ensures Distinct(KeysOf(rules[..k]))
  {
    assert KeysOf(rules[..k]) == KeysOf(rules)[..k];
  }

  lemma {:induction false} BodyInDistinct(rules: seq<Rule>, key: Key)
    requires Distinct(KeysOf(rules))
    ensures BodyIn(rules, key).None? <==> key !in KeysOf(rules)
    ensures forall i :: 0 <= i < |rules| && rules[i].key == key ==> BodyIn(rules, key) == Some(rules[i].body)
  {
    if rules != [] {
      var k := |rules| - 1;
      KeysOfPrefix(rules, k);
      assert rules[..k + 1] == rules;
      BodyInDistinct(rules[..k], key);
      forall i | 0 <= i < |rules| && rules[i].key == key ensures BodyIn(rules, key) == Some(rules[i].body) {
        assert KeysOf(rules)[i] == key;
        if i < k {
          assert rules[..k][i] == rules[i] && KeysOf(rules)[k] != key;
        }
      }
    }
  }

  lemma {:induction false} OfFlat(rules: seq<Rule>, key: Key)
    requires Distinct(KeysOf(rules))
    ensures Of(Flat(rules), key) ==
            match BodyIn(rules, key) case None => [] case Some(body) => RowsOf(Rule(key, body))
  {
    if rules != [] {
      var k := |rules| - 1;
      KeysOfPrefix(rules, k);
      assert rules[..k + 1] == rules;
      OfFlat(rules[..k], key);
      KeepAppend(Flat(rules[..k]), RowsOf(rules[k]), HasKey(key));
      OfRule(rules[k], key);
      BodyInDistinct(rules[..k], key);
      if rules[k].key == key {
        forall i | 0 <= i < k ensures KeysOf(rules[..k])[i] != key {
          assert KeysOf(rules)[i] != KeysOf(rules)[k];
        }
        assert BodyIn(rules[..k], key) == None;
      }
    }
  }

  /** After a change, a rule outside its scope has the very rows it had; one in scope has
      what the change says, or nothing. */
  lemma OfReplaced(rows: seq<Row>, change: Change, key: Key)
    requires GoodChange(change)
    ensures Of(Replaced(rows, change.scope, change.rules), key) ==
            if !Covers(change.scope, key) then Of(rows, key)
            else match BodyIn(change.rules, key) case None => [] case Some(body) => RowsOf(Rule(key, body))
  {
    var kept := Keep(rows, Outside(change.scope));
    KeepAppend(kept, Flat(change.rules), HasKey(key));
    OfFlat(change.rules, key);
    BodyInDistinct(change.rules, key);
    if Covers(change.scope, key) {
      forall row | row in kept ensures row.key != key {
        KeepMember(rows, Outside(change.scope), row);
      }
      KeepNone(kept, HasKey(key));
    } else {
      KeepTwice(rows, Outside(change.scope), HasKey(key), HasKey(key));
      forall i | 0 <= i < |change.rules| ensures KeysOf(change.rules)[i] != key {
        assert Covers(change.scope, change.rules[i].key);
      }
    }
  }

  lemma RowsOfGoodRule(rule: Rule)
    requires GoodRule(rule)
    ensures RuleOk(RowsOf(rule), rule.key)
    ensures rule.body.picks != [] ==> BodyOf(RowsOf(rule)) == rule.body
  {
    var rows := RowsOf(rule);
    assert PicksOf(rows) == rule.body.picks;
    forall i, j | 0 <= i < j < |rows| ensures rows[i].runner != rows[j].runner {
      assert Runners(rule.body.picks)[i] != Runners(rule.body.picks)[j];
    }
  }

  lemma ReplacedKeeps(rows: seq<Row>, change: Change)
    requires Inv(rows) && GoodChange(change)
    ensures Inv(Replaced(rows, change.scope, change.rules))
  {
    forall key ensures RuleOk(Of(Replaced(rows, change.scope, change.rules), key), key) {
      OfReplaced(rows, change, key);
      BodyInDistinct(change.rules, key);
      if Covers(change.scope, key) && BodyIn(change.rules, key).Some? {
        var i :| 0 <= i < |change.rules| && KeysOf(change.rules)[i] == key;
        RowsOfGoodRule(change.rules[i]);
      }
    }
  }

  // ---- every accepted request is a good change ----

  lemma RouteGood(rows: seq<Row>, actor: ActorText, sources: Option<seq<string>>, body: Body, caller: Caller)
    requires SetActorRouteChange(rows, actor, sources, body, caller).Ok?
    ensures GoodChange(SetActorRouteChange(rows, actor, sources, body, caller).value)
  {
    var named := SourcesSent(sources);
    var rules := RouteRules(actor.address, named, body);
    forall i, j | 0 <= i < j < |rules| ensures KeysOf(rules)[i] != KeysOf(rules)[j] {
      assert named[i] != named[j];
    }
    forall i | 0 <= i < |rules| ensures Covers(Person(actor.address), rules[i].key) && GoodRule(rules[i]) {
      assert named[i] in ACTOR_SOURCES;
    }
  }

  lemma RulesSentAreGood(rows: seq<Row>, rules: seq<RuleIn>, caller: Caller)
    requires ReplaceRulesChange(rows, rules, caller).Ok?
    ensures GoodChange(ReplaceRulesChange(rows, rules, caller).value)
  {
  }

  lemma DecidedIsGood(rows: seq<Row>, request: Request, caller: Caller)
    requires Decided(rows, request, caller).Ok?
    ensures GoodChange(Decided(rows, request, caller).value)
  {
    match request
    case ReplaceRules(rules) => RulesSentAreGood(rows, rules, caller);
    case SetActorRoute(actor, sources, body) => RouteGood(rows, actor, sources, body, caller);
    case _ =>
  }

  // ---- over whole histories ----

  datatype Call = Call(request: Request, caller: Caller)

  function Run(rows: seq<Row>, calls: seq<Call>): seq<Row>
    decreases |calls|
  {
    if calls == [] then rows else Run(After(rows, calls[0].request, calls[0].caller), calls[1..])
  }

  /** Whatever is sent, in whatever order and by whomever: every rule's ranks are 0, 1, 2,
      … without gaps, its runners are distinct, and it has one strictness and one mode. */
  lemma {:induction false} RunKeeps(rows: seq<Row>, calls: seq<Call>)
    requires Inv(rows)
    ensures Inv(Run(rows, calls))
    decreases |calls|
  {
    if calls != [] {
      var decided := Decided(rows, calls[0].request, calls[0].caller);
      if decided.Ok? {
        DecidedIsGood(rows, calls[0].request, calls[0].caller);
        ReplacedKeeps(rows, decided.value);
      }
      RunKeeps(After(rows, calls[0].request, calls[0].caller), calls[1..]);
    }
  }

  lemma EmptyTableIsOk()
    ensures Inv([])
  {
    forall key ensures RuleOk(Of([], key), key) {
      assert Of([], key) == [];
    }
  }

  /** What a request is about, read off the request alone. */
  function ScopeOf(request: Request): Scope {
    match request
    case ReplaceRunners(_, _) => DefaultList
    case ReplaceRules(_) => AllRules
    case SetRule(source, actor, _) => OneRule(Key(source, AddressOf(actor)))
    case DeleteRule(source, actor) => OneRule(Key(source, AddressOf(actor)))
    case SetActorRoute(actor, _, _) => Person(AddressOf(actor))
    case DeleteActorRoute(actor) => Person(AddressOf(actor))
  }

  lemma DecidedScope(rows: seq<Row>, request: Request, caller: Caller)
    requires Decided(rows, request, caller).Ok?
    ensures Decided(rows, request, caller).value.scope == ScopeOf(request)
  {
  }

  lemma OneUntouched(rows: seq<Row>, request: Request, caller: Caller, key: Key)
    requires !Covers(ScopeOf(request), key)
    ensures Of(After(rows, request, caller), key) == Of(rows, key)
  {
    var decided := Decided(rows, request, caller);
    if decided.Ok? {
      DecidedIsGood(rows, request, caller);
      DecidedScope(rows, request, caller);
      OfReplaced(rows, decided.value, key);
    }
  }

  /** What a request is about: the default list, every rule, one rule, or one person's rules. */
  predicate About(request: Request, key: Key) {
    match request
    case ReplaceRunners(_, _) => key.source == ""
    case ReplaceRules(_) => key.source != ""
    case SetRule(source, actor, _) => key == Key(source, if actor.Address? then actor.address else "")
    case DeleteRule(source, actor) => key == Key(source, if actor.Address? then actor.address else "")
    case SetActorRoute(actor, _, _) => key.source != "" && key.actor == if actor.Address? then actor.address else ""
    case DeleteActorRoute(actor) => key.source != "" && key.actor == if actor.Address? then actor.address else ""
  }

  /** No request touches a rule it is not about: default-list and rule writes never disturb
      each other, nor one person's or one source's writes another's. */
  lemma {:induction false} OthersUntouched(rows: seq<Row>, calls: seq<Call>, key: Key)
    requires forall k :: 0 <= k < |calls| ==> !About(calls[k].request, key)
    ensures Of(Run(rows, calls), key) == Of(rows, key)
    decreases |calls|
  {
    if calls != [] {
      OneUntouched(rows, calls[0].request, calls[0].caller, key);
      OthersUntouched(After(rows, calls[0].request, calls[0].caller), calls[1..], key);
    }
  }

  // ---- who may write what ----

  /** The runner is on the rule. */
  ghost predicate On(rows: seq<Row>, key: Key, runner: nat) {
    exists r :: r in rows && r.key == key && r.runner == runner
  }

  /** The rule is set to `auto`. */
  ghost predicate Automatic(rows: seq<Row>, key: Key) {
    exists r :: r in rows && r.key == key && r.turnMode == "auto"
  }

  lemma OfHas(rows: seq<Row>, key: Key, row: Row)
    ensures row in Of(rows, key) <==> row in rows && row.key == key
  {
    KeepMember(rows, HasKey(key), row);
  }

  /** What the caller may send for a rule: of the runners, those on it already that are
      in service and others it may add; and `auto` if the rule has it or the caller is an
      admin. */
  ghost predicate MaySend(rows: seq<Row>, key: Key, body: Body, caller: Caller) {
    && (forall i :: 0 <= i < |body.picks| ==>
          var runner := body.picks[i].runner;
          if On(rows, key, runner) then runner in caller.live else runner in caller.addable)
    && (body.turnMode == "auto" ==> Automatic(rows, key) || caller.admin)
  }

  lemma RunnersMaySend(rows: seq<Row>, key: Key, picks: seq<Pick>, caller: Caller)
    ensures RunnersAllowed(picks, Of(rows, key), caller) <==>
              forall i :: 0 <= i < |picks| ==>
                var runner := picks[i].runner;
                if On(rows, key, runner) then runner in caller.live else runner in caller.addable
  {
    forall i | 0 <= i < |picks|
      ensures (exists r :: r in Of(rows, key) && r.runner == picks[i].runner) <==> On(rows, key, picks[i].runner)
    {
      if r :| r in Of(rows, key) && r.runner == picks[i].runner {
        OfHas(rows, key, r);
      }
      if r :| r in rows && r.key == key && r.runner == picks[i].runner {
        OfHas(rows, key, r);
      }
    }
  }

  lemma ModeMaySend(rows: seq<Row>, key: Key, body: Body, caller: Caller)
    requires Inv(rows)
    ensures ModeAllowed(body, Of(rows, key), caller) <==> (body.turnMode == "auto" ==> Automatic(rows, key) || caller.admin)
  {
    var of := Of(rows, key);
    assert RuleOk(of, key);
    if of != [] {
      OfHas(rows, key, of[0]);
    }
    if r :| r in rows && r.key == key && r.turnMode == "auto" {
      OfHas(rows, key, r);
      var i :| 0 <= i < |of| && of[i] == r;
      assert of[i].turnMode == of[0].turnMode;
    }
  }

  lemma RuleMaySend(rows: seq<Row>, rule: Rule, caller: Caller)
    requires Inv(rows)
    ensures RuleAllowed(rows, rule, caller) <==> MaySend(rows, rule.key, rule.body, caller)
  {
    RunnersMaySend(rows, rule.key, rule.body.picks, caller);
    ModeMaySend(rows, rule.key, rule.body, caller);
  }

  // ---- what is accepted ----

  /** Some runners, none of them twice. */
  predicate SomeOnce(picks: seq<Pick>) {
    picks != [] && forall i, j :: 0 <= i < j < |picks| ==> picks[i].runner != picks[j].runner
  }

  const SOURCES: set<string> := {"ace_web", "email", "canopy_scheduler", "canopy_web_chat", "slack", "api"}

  lemma SourceIs(s: string)
    ensures s in ROUTABLE <==> s in SOURCES
    ensures s in ACTOR_SOURCES <==> s in SOURCES - {"canopy_scheduler"}
  {
    assert SOURCES == {ROUTABLE[0], ROUTABLE[1], ROUTABLE[2], ROUTABLE[3], ROUTABLE[4], ROUTABLE[5]};
    assert SOURCES - {"canopy_scheduler"} ==
           {ACTOR_SOURCES[0], ACTOR_SOURCES[1], ACTOR_SOURCES[2], ACTOR_SOURCES[3], ACTOR_SOURCES[4]};
  }

  /** A person's route that names no sources is about every source with a person behind it. */
  lemma UnnamedSources(source: string)
    ensures source in SourcesSent(None) <==> source in SourcesSent(Some([]))
    ensures source in SourcesSent(None) <==> source in SOURCES - {"canopy_scheduler"}
  {
    SourceIs(source);
  }

  /** A rule can be named: a routable source and an address or anyone, but nobody in
      particular behind the scheduler. */
  predicate Nameable(source: string, actor: ActorText) {
    && source in SOURCES
    && !actor.NotAnAddress? && !(actor.Address? && source == "canopy_scheduler")
  }

  ghost predicate WellFormed(request: Request) {
    match request
    case ReplaceRunners(ids, picks) =>
      || (ids.None? && picks.Some? && (picks.value == [] || SomeOnce(picks.value)))
      || (ids.Some? && picks.None? && forall i, j :: 0 <= i < j < |ids.value| ==> ids.value[i] != ids.value[j])
    case ReplaceRules(rules) =>
      && (forall i :: 0 <= i < |rules| ==>
            rules[i].source in SOURCES && !rules[i].actor.NotAnAddress? && SomeOnce(rules[i].body.picks))
      && (forall i, j :: 0 <= i < j < |rules| ==>
            rules[i].source != rules[j].source || AddressOf(rules[i].actor) != AddressOf(rules[j].actor))
    case SetRule(source, actor, body) => Nameable(source, actor) && SomeOnce(body.picks)
    case DeleteRule(source, actor) => Nameable(source, actor)
    case SetActorRoute(actor, sources, body) =>
      && actor.Address? && SomeOnce(body.picks)
      && (sources.Some? ==> forall i :: 0 <= i < |sources.value| ==> sources.value[i] in SOURCES - {"canopy_scheduler"})
    case DeleteActorRoute(actor) => actor.Address?
  }

  /** Every rule of the request is one the caller may send. */
  ghost predicate MaySendAll(rows: seq<Row>, request: Request, caller: Caller) {
    match request
    case ReplaceRunners(ids, picks) =>
      && (picks.Some? ==> MaySend(rows, DEFAULT_LIST, Body(picks.value, false, ""), caller))
      && (ids.Some? ==> MaySend(rows, DEFAULT_LIST, Body(AllEnabled(ids.value), false, ""), caller))
    case ReplaceRules(rules) =>
      forall i :: 0 <= i < |rules| ==>
        MaySend(rows, Key(rules[i].source, AddressOf(rules[i].actor)), rules[i].body, caller)
    case SetRule(source, actor, body) => MaySend(rows, Key(source, AddressOf(actor)), body, caller)
    case SetActorRoute(actor, sources, body) =>
      forall source :: source in SourcesSent(sources) ==> MaySend(rows, Key(source, AddressOf(actor)), body, caller)
    case _ => true
  }

  lemma RepeatsMeans(picks: seq<Pick>)
    ensures picks != [] && !Repeats(picks) <==> SomeOnce(picks)
    ensures Repeats(picks) <==> exists i, j :: 0 <= i < j < |picks| && picks[i].runner == picks[j].runner
  {
    if Distinct(Runners(picks)) {
      forall i, j | 0 <= i < j < |picks| ensures picks[i].runner != picks[j].runner {
        assert Runners(picks)[i] != Runners(picks)[j];
      }
    }
  }

  lemma RunnersAccepted(rows: seq<Row>, ids: Option<seq<nat>>, picks: Option<seq<Pick>>, caller: Caller)
    requires Inv(rows)
    ensures var r, request := ReplaceRunnersChange(rows, ids, picks, caller), ReplaceRunners(ids, picks);
            && (r.Ok? <==> WellFormed(request) && MaySendAll(rows, request, caller))
            && (r == Err(Malformed) ==> !WellFormed(request)) && (r == Err(NotAllowed) ==> !MaySendAll(rows, request, caller))
  {
    if ids.None? != picks.None? {
      var sent := if picks.Some? then picks.value else AllEnabled(ids.value);
      RepeatsMeans(sent);
      RunnersMaySend(rows, DEFAULT_LIST, sent, caller);
      assert ids.Some? ==> forall i :: 0 <= i < |sent| ==> sent[i].runner == ids.value[i];
    }
  }

  lemma RulesAccepted(rows: seq<Row>, rules: seq<RuleIn>, caller: Caller)
    requires Inv(rows)
    ensures var r, request := ReplaceRulesChange(rows, rules, caller), ReplaceRules(rules);
            && (r.Ok? <==> WellFormed(request) && MaySendAll(rows, request, caller))
            && (r == Err(Malformed) ==> !WellFormed(request)) && (r == Err(NotAllowed) ==> !MaySendAll(rows, request, caller))
  {
    var sent := RulesSent(rules);
    forall i | 0 <= i < |rules|
      ensures RuleAllowed(rows, sent[i], caller) <==> MaySend(rows, Key(rules[i].source, AddressOf(rules[i].actor)), rules[i].body, caller)
      ensures sent[i].body.picks != [] && !Repeats(sent[i].body.picks) <==> SomeOnce(rules[i].body.picks)
      ensures rules[i].source in ROUTABLE <==> rules[i].source in SOURCES
    {
      SourceIs(rules[i].source);
      RuleMaySend(rows, sent[i], caller);
      RepeatsMeans(sent[i].body.picks);
    }
    assert forall i :: 0 <= i < |rules| ==> KeysOf(sent)[i] == Key(rules[i].source, AddressOf(rules[i].actor));
  }

  lemma RuleAccepted(rows: seq<Row>, source: string, actor: ActorText, body: Body, caller: Caller)
    requires Inv(rows)
    ensures var r, request := SetRuleChange(rows, source, actor, body, caller), SetRule(source, actor, body);
            && (r.Ok? <==> WellFormed(request) && MaySendAll(rows, request, caller))
            && (r == Err(Malformed) ==> !WellFormed(request)) && (r == Err(NotAllowed) ==> !MaySendAll(rows, request, caller))
  {
    SourceIs(source);
    RepeatsMeans(body.picks);
    RuleMaySend(rows, Rule(Key(source, AddressOf(actor)), body), caller);
  }

  ghost predicate AllRoutable(sources: seq<string>) {
    forall i :: 0 <= i < |sources| ==> sources[i] in ACTOR_SOURCES
  }

  ghost predicate AllAllowed(rows: seq<Row>, person: string, sources: seq<string>, body: Body, caller: Caller) {
    forall i :: 0 <= i < |sources| ==> RuleAllowed(rows, Rule(Key(sources[i], person), body), caller)
  }

  lemma RouteDecision(rows: seq<Row>, actor: ActorText, sources: Option<seq<string>>, named: seq<string>, body: Body, caller: Caller)
    requires actor.Address? && named == SourcesSent(sources)
    ensures var r := SetActorRouteChange(rows, actor, sources, body, caller);
            && (r.Ok? <==> AllRoutable(named) && SomeOnce(body.picks) && AllAllowed(rows, actor.address, named, body, caller))
            && (r == Err(Malformed) ==> !(AllRoutable(named) && SomeOnce(body.picks)))
            && (r == Err(NotAllowed) ==> !AllAllowed(rows, actor.address, named, body, caller))
  {
    RepeatsMeans(body.picks);
  }

  lemma AllMaySend(rows: seq<Row>, person: string, sources: seq<string>, body: Body, caller: Caller)
    requires Inv(rows)
    ensures AllAllowed(rows, person, sources, body, caller) <==>
            forall source :: source in sources ==> MaySend(rows, Key(source, person), body, caller)
  {
    forall i | 0 <= i < |sources|
      ensures RuleAllowed(rows, Rule(Key(sources[i], person), body), caller) <==> MaySend(rows, Key(sources[i], person), body, caller)
    {
      RuleMaySend(rows, Rule(Key(sources[i], person), body), caller);
    }
  }

  lemma RouteAccepted(rows: seq<Row>, actor: ActorText, sources: Option<seq<string>>, body: Body, caller: Caller)
    requires Inv(rows)
    ensures var r, request := SetActorRouteChange(rows, actor, sources, body, caller), SetActorRoute(actor, sources, body);
            && (r.Ok? <==> WellFormed(request) && MaySendAll(rows, request, caller))
            && (r == Err(Malformed) ==> !WellFormed(request)) && (r == Err(NotAllowed) ==> !MaySendAll(rows, request, caller))
  {
    if actor.Address? {
      var named := SourcesSent(sources);
      RouteDecision(rows, actor, sources, named, body, caller);
      SourcesRoutable(sources, named);
      AllMaySend(rows, actor.address, named, body, caller);
    }
  }

  lemma SourcesRoutable(sources: Option<seq<string>>, named: seq<string>)
    requires named == SourcesSent(sources)
    ensures AllRoutable(named) <==>
            (sources.Some? ==> forall i :: 0 <= i < |sources.value| ==> sources.value[i] in SOURCES - {"canopy_scheduler"})
  {
    RoutableNamed(sources, named);
    if sources.Some? {
      forall i | 0 <= i < |sources.value|
        ensures sources.value[i] in ACTOR_SOURCES <==> sources.value[i] in SOURCES - {"canopy_scheduler"}
      {
        SourceIs(sources.value[i]);
      }
    }
  }

  lemma RoutableNamed(sources: Option<seq<string>>, named: seq<string>)
    requires named == SourcesSent(sources)
    ensures AllRoutable(named) <==>
            (sources.Some? ==> forall i :: 0 <= i < |sources.value| ==> sources.value[i] in ACTOR_SOURCES)
  {
    if sources.Some? && sources.value != [] {
      if AllRoutable(named) {
        forall i | 0 <= i < |sources.value| ensures sources.value[i] in ACTOR_SOURCES {
          assert sources.value[i] in named;
        }
      }
      if forall i :: 0 <= i < |sources.value| ==> sources.value[i] in ACTOR_SOURCES {
        forall i | 0 <= i < |named| ensures named[i] in ACTOR_SOURCES {
          assert named[i] in sources.value;
        }
      }
    } else {
      forall i | 0 <= i < |named| ensures named[i] in ACTOR_SOURCES {
        assert named[i] in named;
      }
    }
  }

  /** A request is accepted if and only if it is well formed and every rule in it is one the
      caller may send; a refusal names a reason that is true. */
  lemma AcceptedExactly(rows: seq<Row>, request: Request, caller: Caller)
    requires Inv(rows)
    ensures Decided(rows, request, caller).Ok? <==> WellFormed(request) && MaySendAll(rows, request, caller)
    ensures Decided(rows, request, caller) == Err(Malformed) ==> !WellFormed(request)
    ensures Decided(rows, request, caller) == Err(NotAllowed) ==> !MaySendAll(rows, request, caller)
  {
    match request
    case ReplaceRunners(ids, picks) => RunnersAccepted(rows, ids, picks, caller);
    case ReplaceRules(rules) => RulesAccepted(rows, rules, caller);
    case SetRule(source, actor, body) => RuleAccepted(rows, source, actor, body, caller);
    case SetActorRoute(actor, sources, body) => RouteAccepted(rows, actor, sources, body, caller);
    case DeleteRule(source, _) => SourceIs(source);
    case DeleteActorRoute(_) =>
  }

  /** Whatever is stored, the caller may send. */
  lemma AcceptedMaySend(rows: seq<Row>, request: Request, caller: Caller, i: nat)
    requires Inv(rows) && Decided(rows, request, caller).Ok? && i < |Decided(rows, request, caller).value.rules|
    ensures var rule := Decided(rows, request, caller).value.rules[i];
            MaySend(rows, rule.key, rule.body, caller)
  {
    AcceptedExactly(rows, request, caller);
    match request
    case ReplaceRunners(_, _) =>
    case ReplaceRules(_) =>
    case SetRule(_, _, _) =>
    case DeleteRule(_, _) =>
    case SetActorRoute(actor, sources, body) =>
      assert SourcesSent(sources)[i] in SourcesSent(sources);
    case DeleteActorRoute(_) =>
  }

  /** A default list sent as bare ids is stored in their order, every runner enabled. */
  lemma IdsAreStored(rows: seq<Row>, ids: seq<nat>, caller: Caller, i: nat)
    requires Decided(rows, ReplaceRunners(Some(ids), None), caller).Ok? && i < |ids|
    ensures var stored := Of(After(rows, ReplaceRunners(Some(ids), None), caller), Key("", ""));
            |stored| == |ids| && stored[i] == Row(Key("", ""), ids[i], i, true, false, "")
  {
    var request := ReplaceRunners(Some(ids), None);
    var change := Decided(rows, request, caller).value;
    DecidedIsGood(rows, request, caller);
    OfReplaced(rows, change, DEFAULT_LIST);
    assert BodyIn(change.rules, DEFAULT_LIST) == Some(change.rules[0].body);
  }

  /** The row that the `i`-th runner sent for a rule becomes. */
  function Stored(key: Key, body: Body, i: nat): Row
    requires i < |body.picks|
  {
    Row(key, body.picks[i].runner, i, body.picks[i].enabled, body.strict, body.turnMode)
  }

  /** A rule that is accepted is stored as sent, under the empty actor if it is about anyone. */
  lemma RuleIsStored(rows: seq<Row>, source: string, actor: ActorText, body: Body, caller: Caller, i: nat)
    requires Decided(rows, SetRule(source, actor, body), caller).Ok? && i < |body.picks|
    ensures var key := Key(source, match actor case Address(address) => address case _ => "");
            var stored := Of(After(rows, SetRule(source, actor, body), caller), key);
            |stored| == |body.picks| && stored[i] == Stored(key, body, i)
  {
    var change := Decided(rows, SetRule(source, actor, body), caller).value;
    DecidedIsGood(rows, SetRule(source, actor, body), caller);
    OfReplaced(rows, change, change.rules[0].key);
    assert BodyIn(change.rules, change.rules[0].key) == Some(body);
  }

  /** So is each rule of a wholesale write. */
  lemma RulesAreStored(rows: seq<Row>, rules: seq<RuleIn>, caller: Caller, k: nat, i: nat)
    requires Decided(rows, ReplaceRules(rules), caller).Ok? && k < |rules| && i < |rules[k].body.picks|
    ensures var key := Key(rules[k].source, match rules[k].actor case Address(address) => address case _ => "");
            var stored := Of(After(rows, ReplaceRules(rules), caller), key);
            |stored| == |rules[k].body.picks| && stored[i] == Stored(key, rules[k].body, i)
  {
    var change := Decided(rows, ReplaceRules(rules), caller).value;
    DecidedIsGood(rows, ReplaceRules(rules), caller);
    OfReplaced(rows, change, change.rules[k].key);
    BodyInDistinct(change.rules, change.rules[k].key);
  }

  lemma {:induction false} FlatHas(rules: seq<Rule>, row: Row) returns (i: nat, j: nat)
    requires row in Flat(rules)
    ensures i < |rules| && j < |rules[i].body.picks| && row == RowsOf(rules[i])[j]
  {
    var k := |rules| - 1;
    if row in RowsOf(rules[k]) {
      i := k;
      j :| 0 <= j < |rules[k].body.picks| && RowsOf(rules[k])[j] == row;
    } else {
      i, j := FlatHas(rules[..k], row);
    }
  }

  /** A row that a request added belongs to a rule the caller may send. */
  lemma NewRow(rows: seq<Row>, request: Request, caller: Caller, row: Row) returns (i: nat, j: nat)
    requires Inv(rows) && row in After(rows, request, caller) && row !in rows
    ensures Decided(rows, request, caller).Ok? && i < |Decided(rows, request, caller).value.rules|
    ensures var rule := Decided(rows, request, caller).value.rules[i];
            && j < |rule.body.picks| && row == RowsOf(rule)[j] && MaySend(rows, rule.key, rule.body, caller)
  {
    var change := Decided(rows, request, caller).value;
    KeepMember(rows, Outside(change.scope), row);
    i, j := FlatHas(change.rules, row);
    AcceptedMaySend(rows, request, caller, i);
  }

  /** Only a caller who may add a runner puts it on a rule it was not on; and only an admin
      sets a rule to `auto`. */
  lemma OneWriteAdds(rows: seq<Row>, request: Request, caller: Caller, key: Key, runner: nat)
    requires Inv(rows)
    ensures var after := After(rows, request, caller);
            && (On(after, key, runner) && !On(rows, key, runner) ==> runner in caller.addable)
            && (Automatic(after, key) && !Automatic(rows, key) ==> caller.admin)
  {
    var after := After(rows, request, caller);
    if r :| r in after && r.key == key && r.runner == runner && !On(rows, key, runner) {
      var _, _ := NewRow(rows, request, caller, r);
    }
    if r :| r in after && r.key == key && r.turnMode == "auto" && !Automatic(rows, key) {
      var _, _ := NewRow(rows, request, caller, r);
    }
  }

  lemma OneLater(rows: seq<Row>, calls: seq<Call>, k: nat)
    requires k < |calls|
    ensures Run(rows, calls[..k + 1]) == Run(After(rows, calls[0].request, calls[0].caller), calls[1..][..k])
  {
    assert calls[..k + 1][1..] == calls[1..][..k];
  }

  /** Over whole histories: a runner is on a rule only if it was from the start, or a caller
      who may add it put it there. */
  lemma {:induction false} RunnersWereAdded(rows: seq<Row>, calls: seq<Call>, key: Key, runner: nat)
    requires Inv(rows) && On(Run(rows, calls), key, runner)
    ensures On(rows, key, runner)
            || exists k :: 0 <= k < |calls| && runner in calls[k].caller.addable
                 && !On(Run(rows, calls[..k]), key, runner) && On(Run(rows, calls[..k + 1]), key, runner)
    decreases |calls|
  {
    if calls != [] && !On(rows, key, runner) {
      var next := After(rows, calls[0].request, calls[0].caller);
      OneMoreCall(rows, calls[0]);
      OneWriteAdds(rows, calls[0].request, calls[0].caller, key, runner);
      OneLater(rows, calls, 0);
      if On(next, key, runner) {
        assert Run(rows, calls[..0]) == rows && Run(rows, calls[..0 + 1]) == next;
      } else {
        RunnersWereAdded(next, calls[1..], key, runner);
        var k :| 0 <= k < |calls| - 1 && runner in calls[1..][k].caller.addable
          && !On(Run(next, calls[1..][..k]), key, runner) && On(Run(next, calls[1..][..k + 1]), key, runner);
        OneLater(rows, calls, k);
        OneLater(rows, calls, k + 1);
        assert calls[k + 1] == calls[1..][k];
      }
    }
  }

  /** And a rule is `auto` only if it was from the start, or an admin set it. */
  lemma {:induction false} AdminsSetAuto(rows: seq<Row>, calls: seq<Call>, key: Key)
    requires Inv(rows) && Automatic(Run(rows, calls), key)
    ensures Automatic(rows, key)
            || exists k :: 0 <= k < |calls| && calls[k].caller.admin
                 && !Automatic(Run(rows, calls[..k]), key) && Automatic(Run(rows, calls[..k + 1]), key)
    decreases |calls|
  {
    if calls != [] && !Automatic(rows, key) {
      var next := After(rows, calls[0].request, calls[0].caller);
      OneMoreCall(rows, calls[0]);
      OneWriteAdds(rows, calls[0].request, calls[0].caller, key, 0);
      OneLater(rows, calls, 0);
      if Automatic(next, key) {
        assert Run(rows, calls[..0]) == rows && Run(rows, calls[..0 + 1]) == next;
      } else {
        AdminsSetAuto(next, calls[1..], key);
        var k :| 0 <= k < |calls| - 1 && calls[1..][k].caller.admin
          && !Automatic(Run(next, calls[1..][..k]), key) && Automatic(Run(next, calls[1..][..k + 1]), key);
        OneLater(rows, calls, k);
        OneLater(rows, calls, k + 1);
        assert calls[k + 1] == calls[1..][k];
      }
    }
  }

  lemma OneMoreCall(rows: seq<Row>, call: Call)
    requires Inv(rows)
    ensures Inv(After(rows, call.request, call.caller))
  {
    if Decided(rows, call.request, call.caller).Ok? {
      DecidedIsGood(rows, call.request, call.caller);
      ReplacedKeeps(rows, Decided(rows, call.request, call.caller).value);
    }
  }

  lemma WholeRuleIsBack(was: seq<Row>, key: Key)
    requires RuleOk(was, key) && was != []
    ensures RowsOf(Rule(key, BodyOf(was))) == was
    ensures BodyOf(was).picks != [] && !Repeats(BodyOf(was).picks)
  {
  }

  lemma StandingRuleIsAllowed(rows: seq<Row>, key: Key, caller: Caller)
    requires Inv(rows) && Of(rows, key) != []
    requires forall r :: r in Of(rows, key) ==> r.runner in caller.live
    ensures RuleAllowed(rows, Rule(key, BodyOf(Of(rows, key))), caller)
  {
    var was := Of(rows, key);
    assert RuleOk(was, key);
    var picks := BodyOf(was).picks;
    forall i | 0 <= i < |picks| ensures exists r :: r in was && r.runner == picks[i].runner {
      assert was[i] in was;
    }
  }

  /** A rule that is on the table can be saved again as it is by anyone: keeping
      runners that are still in service, and a mode already set, takes no rights. */
  lemma SavingAgainTakesNoRights(rows: seq<Row>, source: string, actor: ActorText, caller: Caller)
    requires Inv(rows) && RuleKey(source, actor).Ok? && Of(rows, RuleKey(source, actor).value) != []
    requires forall r :: r in Of(rows, RuleKey(source, actor).value) ==> r.runner in caller.live
    ensures var key := RuleKey(source, actor).value;
            var request := SetRule(source, actor, BodyOf(Of(rows, key)));
            Decided(rows, request, caller).Ok? && Of(After(rows, request, caller), key) == Of(rows, key)
  {
    var key := RuleKey(source, actor).value;
    var was := Of(rows, key);
    var rule := Rule(key, BodyOf(was));
    assert RuleOk(was, key);
    WholeRuleIsBack(was, key);
    StandingRuleIsAllowed(rows, key, caller);
    DecidedIsGood(rows, SetRule(source, actor, rule.body), caller);
    OfReplaced(rows, Change(OneRule(key), [rule]), key);
    assert BodyIn([rule], key) == Some(rule.body);
  }

  // ---- the writes on the stored table ----

  class RoutingRows {
    var rows: seq<Row>

    constructor ()
      ensures rows == []
    {
      rows := [];
    }

    method DeleteInScope(scope: Scope)
      modifies this
      ensures rows == Keep(old(rows), Outside(scope))
    {
      var left: seq<Row> := [];
      for k := 0 to |rows|
        invariant rows == old(rows) && left == Keep(rows[..k], Outside(scope))
      {
        assert rows[..k + 1][..k] == rows[..k];
        if !Covers(scope, rows[k].key) {
          left := left + [rows[k]];
        }
      }
      assert rows[..|rows|] == rows;
      rows := left;
    }

    /** `bulk_create` over the rules and, within each, over its runners. */
    method InsertRules(rules: seq<Rule>)
      modifies this
      ensures rows == old(rows) + Flat(rules)
    {
      for k := 0 to |rules|
        invariant rows == old(rows) + Flat(rules[..k])
      {
        assert rules[..k + 1][..k] == rules[..k];
        InsertRule(rules[k]);
      }
      assert rules[..|rules|] == rules;
    }

    method InsertRule(rule: Rule)
      modifies this
      ensures rows == old(rows) + RowsOf(rule)
    {
      var picks := rule.body.picks;
      for rank := 0 to |picks|
        invariant rows == old(rows) + RowsOf(rule)[..rank]
      {
        rows := rows + [Row(rule.key, picks[rank].runner, rank, picks[rank].enabled, rule.body.strict, rule.body.turnMode)];
      }
    }

    /** One routing write: refused, and nothing changes; or its scope is replaced. */
    method Save(request: Request, caller: Caller) returns (r: Result<(), Refusal>)
      modifies this
      ensures rows == After(old(rows), request, caller)
      ensures r.Ok? <==> Decided(old(rows), request, caller).Ok?
      ensures r.Err? ==> rows == old(rows) && r.error == Decided(old(rows), request, caller).error
    {
      var decided := Decided(rows, request, caller);
      if decided.Err? {
        return Err(decided.error);
      }
      DeleteInScope(decided.value.scope);
      InsertRules(decided.value.rules);
      return Ok(());
    }
  }
}
