/** Forking a run at a step: what is carried over, and how forks of forks compose. */
module RunFork {
  import opened Basics
  import Ordering
  import opened RunSteps
  import opened Lists

  const OVERRIDDEN := "overridden"

  datatype Mode = KeepOverridesOnly | KeepAll

  datatype Decision = Decision(
    question: string, aiDefault: string, override: string, status: string,
    reasoning: string, evidence: string)

  /** One edit of a carried-over decision: an answer alone, or any of the fields. A missing
      and a null override are the same. */
  datatype Edit =
    | Answer(text: string)
    | Fields(override: Option<string>, status: Option<string>, reasoning: Option<string>, evidence: Option<string>)

  /** Edits by step key, then by question. */
  type Edits = map<string, map<string, Edit>>

  /** A seeded verdict is no fresh judgement but names the run its step was carried over from. */
  datatype Verdict = SeededFrom(run: nat) | Judged(rationale: string)

  datatype RunStep = RunStep(step: Step, verdicts: seq<Verdict>, decisions: seq<Decision>)

  /** A run; its id is its place in the table. */
  datatype AgentRun = AgentRun(
    agent: string, title: string, mode: string, currentStep: string,
    forkedFrom: Option<nat>, steps: seq<RunStep>)

  datatype Refusal = UnknownMode | NoRun | NoStep

  function ModeOf(name: string): Option<Mode> {
    if name == "keep-overrides-only" then Some(KeepOverridesOnly)
    else if name == "keep-all" then Some(KeepAll)
    else None
  }

  predicate ByStepOrdinal(a: RunStep, b: RunStep) {
    a.step.ordinal <= b.step.ordinal
  }

  function InOrder(steps: seq<RunStep>): (r: seq<RunStep>)
    ensures |r| == |steps| && multiset(r) == multiset(steps)
  {
    Ordering.Sort(steps, ByStepOrdinal)
  }

  function StepsOf(steps: seq<RunStep>): (r: seq<Step>)
    ensures |r| == |steps|
  {
    seq(|steps|, i requires 0 <= i < |steps| => steps[i].step)
  }

  function FindStep(steps: seq<RunStep>, key: string): Option<nat> {
    Find(StepsOf(steps), key)
  }

  // ---- decisions ----

  function WithFields(d: Decision, f: Edit): Decision
    requires f.Fields?
  {
    var answered :=
      if f.override.Some? then
        d.(override := f.override.value, status := if f.status.Some? then f.status.value else OVERRIDDEN)
      else if f.status.Some? then d.(status := f.status.value)
      else d;
    answered.(reasoning := if f.reasoning.Some? then f.reasoning.value else d.reasoning,
              evidence := if f.evidence.Some? then f.evidence.value else d.evidence)
  }

  /** `_apply_decision_edit`: an empty answer is no edit. */
  function Edited(d: Decision, edits: map<string, Edit>): Decision {
    if d.question !in edits then d
    else
      match edits[d.question]
      case Answer(text) => if text == "" then d else WithFields(d, Fields(Some(text), None, None, None))
      case Fields(_, _, _, _) => WithFields(d, edits[d.question])
  }

  predicate Survives(d: Decision, mode: Mode) {
    mode == KeepAll || d.status == OVERRIDDEN
  }

  function EditsFor(edits: Edits, key: string): map<string, Edit> {
    if key in edits then edits[key] else map[]
  }

  /** An edit, field by field: an answer, or an override among the fields, is the new override
      and marks the decision overridden unless a status is given; what is not given stays. */
  lemma EditedFields(d: Decision, edits: map<string, Edit>)
    ensures var e := Edited(d, edits);
            && e.question == d.question && e.aiDefault == d.aiDefault
            && (d.question !in edits || edits[d.question] == Answer("") ==> e == d)
            && (d.question in edits ==>
                  match edits[d.question]
                  case Answer(text) =>
                    text != "" ==> e == Decision(d.question, d.aiDefault, text, "overridden", d.reasoning, d.evidence)
                  case Fields(override, status, reasoning, evidence) =>
                    && e.override == (match override case None => d.override case Some(x) => x)
                    && e.status == (match status
                                    case Some(x) => x
                                    case None => if override == None then d.status else "overridden")
                    && e.reasoning == (match reasoning case None => d.reasoning case Some(x) => x)
                    && e.evidence == (match evidence case None => d.evidence case Some(x) => x))
  {
  }

  /** The decisions carried over: those that survive the mode, each with its edit. */
  function Carried(ds: seq<Decision>, mode: Mode, edits: map<string, Edit>): seq<Decision> {
    if ds == [] then []
    else
      var last := ds[|ds| - 1];
      Carried(ds[..|ds| - 1], mode, edits) + (if Survives(last, mode) then [Edited(last, edits)] else [])
  }

  // ---- the fork ----

  function ForkedStep(s: RunStep, at: int, mode: Mode, edits: Edits, from: nat): RunStep {
    var kept := s.step.ordinal < at;
    var step := Step(s.step.key, s.step.ordinal, s.step.title, if kept then Complete else Pending,
                     if kept then s.step.startedAt else None, if kept then s.step.completedAt else None, "");
    if kept then RunStep(step, [SeededFrom(from)], Carried(s.decisions, mode, EditsFor(edits, s.step.key)))
    else RunStep(step, [], [])
  }

  function ForkedSteps(steps: seq<RunStep>, at: int, mode: Mode, edits: Edits, from: nat): (r: seq<RunStep>)
    ensures |r| == |steps|
  {
    seq(|steps|, i requires 0 <= i < |steps| => ForkedStep(steps[i], at, mode, edits, from))
  }

  function ForkedRun(src: AgentRun, from: nat, atStep: string, at: int, mode: Mode, edits: Edits): AgentRun {
    AgentRun(src.agent, src.title, src.mode, atStep, Some(from), ForkedSteps(InOrder(src.steps), at, mode, edits, from))
  }

  /** `DbRunStore.fork`, the lookup of the run aside. */
  function Fork(src: AgentRun, from: nat, atStep: string, mode: Mode, edits: Edits): Result<AgentRun, Refusal> {
    match FindStep(InOrder(src.steps), atStep)
    case None => Err(NoStep)
    case Some(i) => Ok(ForkedRun(src, from, atStep, InOrder(src.steps)[i].step.ordinal, mode, edits))
  }

  class RunStore {
    var runs: seq<AgentRun>

    constructor ()
      ensures runs == []
    {
      runs := [];
    }

    /** `fork`: a new run at the end of the table, or a refusal that adds nothing. */
    method ForkAt(agent: string, runId: nat, atStep: string, modeName: string, edits: Edits)
      returns (r: Result<nat, Refusal>)
      modifies this
      ensures r == if ModeOf(modeName).None? then Err(UnknownMode)
                   else if !(runId < |old(runs)| && old(runs)[runId].agent == agent) then Err(NoRun)
                   else if FindStep(InOrder(old(runs)[runId].steps), atStep).None? then Err(NoStep)
                   else Ok(|old(runs)|)
      ensures r.Err? ==> runs == old(runs)
      ensures r.Ok? ==>
                var forked := Fork(old(runs)[runId], runId, atStep, ModeOf(modeName).value, edits);
                forked.Ok? && runs == old(runs) + [forked.value]
    {
      var mode := ModeOf(modeName);
      if mode.None? {
        return Err(UnknownMode);
      }
      if runId >= |runs| || runs[runId].agent != agent {
        return Err(NoRun);
      }
      var source := runs[runId];
      var sourceSteps := InOrder(source.steps);
      var found := FindStep(sourceSteps, atStep);
      if found.None? {
        return Err(NoStep);
      }
      var at := sourceSteps[found.value].step.ordinal;
      var newSteps: seq<RunStep> := [];
      for k := 0 to |sourceSteps|
        invariant runs == old(runs) && |newSteps| == k
        invariant forall i :: 0 <= i < k ==> newSteps[i] == ForkedStep(sourceSteps[i], at, mode.value, edits, runId)
      {
        var s := CopyStep(sourceSteps[k], at, mode.value, edits, runId);
        newSteps := newSteps + [s];
      }
      assert newSteps == ForkedSteps(sourceSteps, at, mode.value, edits, runId);
      runs := runs + [AgentRun(source.agent, source.title, source.mode, atStep, Some(runId), newSteps)];
      return Ok(|runs| - 1);
    }

    /** One turn of the copying loop. */
    static method CopyStep(s: RunStep, at: int, mode: Mode, edits: Edits, from: nat) returns (r: RunStep)
      ensures r == ForkedStep(s, at, mode, edits, from)
    {
      var kept := s.step.ordinal < at;
      var step := Step(s.step.key, s.step.ordinal, s.step.title, if kept then Complete else Pending,
                       if kept then s.step.startedAt else None, if kept then s.step.completedAt else None, "");
      if !kept {
        return RunStep(step, [], []);
      }
      var stepEdits := EditsFor(edits, s.step.key);
      var decisions: seq<Decision> := [];
      for k := 0 to |s.decisions|
        invariant decisions == Carried(s.decisions[..k], mode, stepEdits)
      {
        assert s.decisions[..k + 1][..k] == s.decisions[..k];
        var d := s.decisions[k];
        if mode == KeepOverridesOnly && d.status != OVERRIDDEN {
          continue;
        }
        decisions := decisions + [Edited(d, stepEdits)];
      }
      assert s.decisions[..|s.decisions|] == s.decisions;
      return RunStep(step, [SeededFrom(from)], decisions);
    }
  }

  // ---- what a fork is ----

  /** The step forked at is always left to do, so a fork never reads as complete. */
  lemma ForkIsNeverComplete(src: AgentRun, from: nat, atStep: string, mode: Mode, edits: Edits)
    requires Fork(src, from, atStep, mode, edits).Ok?
    ensures DeriveStatus(StepsOf(Fork(src, from, atStep, mode, edits).value.steps)) == InProgress
  {
    var ordered := InOrder(src.steps);
    var i := FindStep(ordered, atStep).value;
    var steps := StepsOf(Fork(src, from, atStep, mode, edits).value.steps);
    assert steps[i].status == Pending;
  }

  /** The mode named "keep-all" carries every decision over as it is; the mode named
      "keep-overrides-only" those whose status is "overridden", and no others; any other name
      is no mode. */
  lemma {:induction false} NamedModes(ds: seq<Decision>, name: string)
    ensures ModeOf(name).Some? <==> name == "keep-all" || name == "keep-overrides-only"
    ensures name == "keep-all" ==> Carried(ds, ModeOf(name).value, map[]) == ds
    ensures name == "keep-overrides-only" ==>
              Carried(ds, ModeOf(name).value, map[]) == Keep(ds, (d: Decision) => d.status == "overridden")
  {
    if ds != [] {
      NamedModes(ds[..|ds| - 1], name);
      assert ds == ds[..|ds| - 1] + [ds[|ds| - 1]];
    }
  }

  /** A fork takes the edits given for a step's key to that step, and none to any other; what
      lies from the fork point on carries nothing and no verdict, the rest one that names the run
      it came from. */
  lemma ForkedStepIs(s: RunStep, at: int, mode: Mode, edits: Edits, from: nat)
    ensures var f := ForkedStep(s, at, mode, edits, from);
            && f.step.key == s.step.key && f.step.ordinal == s.step.ordinal && f.step.title == s.step.title
            && (s.step.ordinal < at ==>
                  && f.decisions == Carried(s.decisions, mode, if s.step.key in edits then edits[s.step.key] else map[])
                  && f.verdicts == [SeededFrom(from)] && f.step.status == Complete
                  && f.step.startedAt == s.step.startedAt && f.step.completedAt == s.step.completedAt)
            && (s.step.ordinal >= at ==>
                  && f.decisions == [] && f.verdicts == [] && f.step.status == Pending
                  && f.step.startedAt == None && f.step.completedAt == None)
  {
  }

  lemma {:induction false} CarriedWithoutEdits(ds: seq<Decision>, mode: Mode, d: Decision)
    ensures d in Carried(ds, mode, map[]) <==> d in ds && Survives(d, mode)
  {
    if ds != [] {
      CarriedWithoutEdits(ds[..|ds| - 1], mode, d);
      assert ds == ds[..|ds| - 1] + [ds[|ds| - 1]];
    }
  }

  function Questions(ds: seq<Decision>): (r: seq<string>)
    ensures |r| == |ds|
  {
    seq(|ds|, i requires 0 <= i < |ds| => ds[i].question)
  }

  /** Edits change carried-over decisions but neither add, drop nor reorder any: a decision
      that the mode leaves behind cannot be edited back. */
  lemma {:induction false} EditsOnlyTouchSurvivors(ds: seq<Decision>, mode: Mode, edits: map<string, Edit>)
    ensures Questions(Carried(ds, mode, edits)) == Questions(Carried(ds, mode, map[]))
  {
    if ds != [] {
      EditsOnlyTouchSurvivors(ds[..|ds| - 1], mode, edits);
      var a, b := Carried(ds[..|ds| - 1], mode, edits), Carried(ds[..|ds| - 1], mode, map[]);
      var last := ds[|ds| - 1];
      if Survives(last, mode) {
        assert Carried(ds, mode, edits) == a + [Edited(last, edits)];
        assert Questions(a + [Edited(last, edits)]) == Questions(a) + [last.question];
        assert Questions(b + [last]) == Questions(b) + [last.question];
      } else {
        assert Carried(ds, mode, edits) == a && Carried(ds, mode, map[]) == b;
      }
    }
  }

  /** A decision comes out of an edit with another status only by being answered, when it
      is overridden unless the edit says otherwise, or by the edit naming the status. */
  lemma EditedStatus(d: Decision, edits: map<string, Edit>)
    requires Edited(d, edits).status != d.status
    ensures d.question in edits
    ensures var e := edits[d.question];
            && (e.Answer? ==> Edited(d, edits).status == OVERRIDDEN && Edited(d, edits).override == e.text)
            && (e.Fields? ==> e.status == Some(Edited(d, edits).status)
                              || (e.override.Some? && Edited(d, edits).status == OVERRIDDEN))
  {
  }

  /** What keep-overrides-only carries over is overridden, edited or not, except where an
      edit names another status. */
  lemma {:induction false} CarriedStatus(ds: seq<Decision>, edits: map<string, Edit>, d: Decision)
    requires d in Carried(ds, KeepOverridesOnly, edits) && d.status != OVERRIDDEN
    ensures d.question in edits && edits[d.question].Fields? && edits[d.question].status == Some(d.status)
  {
    var k := |ds| - 1;
    if d in Carried(ds[..k], KeepOverridesOnly, edits) {
      CarriedStatus(ds[..k], edits, d);
    } else {
      assert d == Edited(ds[k], edits) && d.question == ds[k].question;
      EditedStatus(ds[k], edits);
    }
  }

  // ---- forks of forks ----

  /** The mode that keeps what both keep. */
  function Both(m: Mode, n: Mode): Mode {
    if m == KeepAll then n else m
  }

  lemma {:induction false} CarriedTwice(ds: seq<Decision>, m: Mode, n: Mode)
    ensures Carried(Carried(ds, m, map[]), n, map[]) == Carried(ds, Both(m, n), map[])
  {
    if ds != [] {
      var last := ds[|ds| - 1];
      CarriedTwice(ds[..|ds| - 1], m, n);
      var once := Carried(ds[..|ds| - 1], m, map[]);
      if Survives(last, m) {
        assert Carried(ds, m, map[]) == once + [last];
        assert (once + [last])[..|once|] == once;
      } else {
        assert Carried(ds, m, map[]) == once;
      }
    }
  }

  /** Equal but for the run a seeded verdict names. */
  ghost predicate SameStep(a: RunStep, b: RunStep) {
    a.step == b.step && a.decisions == b.decisions && |a.verdicts| == |b.verdicts|
  }

  ghost predicate SameSteps(a: seq<RunStep>, b: seq<RunStep>) {
    |a| == |b| && forall i :: 0 <= i < |a| ==> SameStep(a[i], b[i])
  }

  /** A step of which a fork past it carries nothing over. */
  predicate Bare(s: RunStep, mode: Mode) {
    s.step.startedAt.None? && s.step.completedAt.None? && Carried(s.decisions, mode, map[]) == []
  }

  lemma StepForkedTwice(s: RunStep, k: int, j: int, m: Mode, n: Mode, a: nat, b: nat, c: nat)
    ensures SameStep(ForkedStep(ForkedStep(s, k, m, map[], a), j, n, map[], b), ForkedStep(s, j, Both(m, n), map[], c))
            <==> (k <= s.step.ordinal < j ==> Bare(s, Both(m, n)))
  {
    CarriedTwice(s.decisions, m, n);
  }

  lemma ForkedStepsStayInOrder(steps: seq<RunStep>, at: int, mode: Mode, edits: Edits, from: nat)
    ensures InOrder(ForkedSteps(InOrder(steps), at, mode, edits, from)) == ForkedSteps(InOrder(steps), at, mode, edits, from)
  {
    Ordering.SortSorts(steps, ByStepOrdinal);
    Ordering.SortOfSorted(ForkedSteps(InOrder(steps), at, mode, edits, from), ByStepOrdinal);
  }

  lemma StepsForkedTwice(steps: seq<RunStep>, k: int, j: int, m: Mode, n: Mode, a: nat, b: nat, c: nat)
    ensures SameSteps(ForkedSteps(ForkedSteps(steps, k, m, map[], a), j, n, map[], b), ForkedSteps(steps, j, Both(m, n), map[], c))
            <==> forall s :: s in steps && k <= s.step.ordinal < j ==> Bare(s, Both(m, n))
  {
    var twice := ForkedSteps(ForkedSteps(steps, k, m, map[], a), j, n, map[], b);
    var direct := ForkedSteps(steps, j, Both(m, n), map[], c);
    forall i | 0 <= i < |steps|
      ensures SameStep(twice[i], direct[i]) <==> (k <= steps[i].step.ordinal < j ==> Bare(steps[i], Both(m, n)))
    {
      StepForkedTwice(steps[i], k, j, m, n, a, b, c);
    }
    if SameSteps(twice, direct) {
      forall s | s in steps && k <= s.step.ordinal < j ensures Bare(s, Both(m, n)) {
        var i :| 0 <= i < |steps| && steps[i] == s;
        assert SameStep(twice[i], direct[i]);
      }
    }
  }

  /** Forking at `kStep` and that fork at `jStep` gives what forking the original straight
      at `jStep` in the more restrictive mode does, up to lineage, exactly when no step from
      `kStep` up to `jStep` had times or surviving decisions to carry over. */
  lemma ForksComposeExactly(src: AgentRun, kStep: string, jStep: string, m: Mode, n: Mode, a: nat, b: nat)
    requires Fork(src, a, kStep, m, map[]).Ok? && Fork(src, a, jStep, Both(m, n), map[]).Ok?
    ensures var first := Fork(src, a, kStep, m, map[]).value;
            var second := Fork(first, b, jStep, n, map[]);
            var direct := Fork(src, a, jStep, Both(m, n), map[]).value;
            var ordered := InOrder(src.steps);
            var k := ordered[FindStep(ordered, kStep).value].step.ordinal;
            var j := ordered[FindStep(ordered, jStep).value].step.ordinal;
            && second.Ok?
            && second.value.(forkedFrom := None, steps := []) == direct.(forkedFrom := None, steps := [])
            && (SameSteps(second.value.steps, direct.steps)
                <==> forall s :: s in ordered && k <= s.step.ordinal < j ==> Bare(s, Both(m, n)))
  {
    var ordered := InOrder(src.steps);
    var k := ordered[FindStep(ordered, kStep).value].step.ordinal;
    var j := ordered[FindStep(ordered, jStep).value].step.ordinal;
    var once := ForkedSteps(ordered, k, m, map[], a);
    ForkedStepsStayInOrder(src.steps, k, m, map[], a);
    FindForked(ordered, k, m, a, jStep);
    StepsForkedTwice(ordered, k, j, m, n, a, b, a);
  }

  lemma FindForked(steps: seq<RunStep>, at: int, mode: Mode, from: nat, key: string)
    ensures FindStep(ForkedSteps(steps, at, mode, map[], from), key) == FindStep(steps, key)
  {
    SameKeysFound(StepsOf(ForkedSteps(steps, at, mode, map[], from)), StepsOf(steps), key);
  }

  lemma SameKeysFound(a: seq<Step>, b: seq<Step>, key: string)
    requires |a| == |b| && forall i :: 0 <= i < |a| ==> a[i].key == b[i].key
    ensures Find(a, key) == Find(b, key)
  {
  }

  /** In particular forks compose when the second is taken no later than the first. */
  lemma ForksCompose(src: AgentRun, kStep: string, jStep: string, m: Mode, n: Mode, a: nat, b: nat)
    requires Fork(src, a, kStep, m, map[]).Ok? && Fork(src, a, jStep, Both(m, n), map[]).Ok?
    requires var ordered := InOrder(src.steps);
             ordered[FindStep(ordered, jStep).value].step.ordinal <= ordered[FindStep(ordered, kStep).value].step.ordinal
    ensures var second := Fork(Fork(src, a, kStep, m, map[]).value, b, jStep, n, map[]);
            second.Ok? && SameSteps(second.value.steps, Fork(src, a, jStep, Both(m, n), map[]).value.steps)
  {
    ForksComposeExactly(src, kStep, jStep, m, n, a, b);
  }
}
