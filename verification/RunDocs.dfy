/** Run documents: versioned writes of a run's state, the mirroring of its iteration onto
    step rows, and the end stamp. */
module RunDocs {
  import opened Basics
  import Decimal
  import Ordering
  import opened RunSteps

  const RUNNING := "running"
  const MAX_ITERATIONS := 1000

  type Iteration = n: nat | n <= MAX_ITERATIONS

  /** What a state document may hold under `iteration`: a whole number, a truth value, or
      anything else (nothing, text, a fraction, …). */
  datatype Entry = Number(n: int) | Flag(on: bool) | Other

  datatype StateDoc = Blank | Filled(iteration: Entry, body: string)

  datatype Doc = Doc(
    status: string, state: StateDoc, version: nat,
    holder: string, holderAt: Option<Time>, completedAt: Option<Time>,
    currentStep: string, steps: seq<Step>)

  datatype NewDoc = NewDoc(status: string, state: StateDoc, holder: string)

  datatype Write = Write(
    state: StateDoc, base: Option<int>, force: bool, status: Option<string>,
    currentStep: Option<string>, iteration: Option<Iteration>, holder: string)

  predicate Live(status: string) {
    status == "" || status == RUNNING
  }

  // ---- mirroring ----

  function Key(n: nat): string {
    "iter-" + Decimal.Print(n)
  }

  function NewStep(n: nat, now: Time): Step {
    Step(Key(n), n, "Iteration " + Decimal.Print(n), Pending, Some(now), None, "")
  }

  /** A row brought to the wanted status; its first completion is never forgotten. */
  function Brought(step: Step, want: StepStatus, now: Time): Step {
    if step.status == want then step
    else step.(status := want,
               completedAt := if want == Complete && step.completedAt.None? then Some(now) else step.completedAt)
  }

  function Want(n: nat, iteration: nat, live: bool): StepStatus {
    if n == iteration && live then Running else Complete
  }

  /** One turn of the mirroring loop: get or create the n-th row, then bring it along. */
  function MirrorOne(rows: seq<Step>, n: nat, iteration: nat, live: bool, now: Time): seq<Step> {
    match Find(rows, Key(n))
    case None => rows + [Brought(NewStep(n, now), Want(n, iteration, live), now)]
    case Some(i) => rows[i := Brought(rows[i], Want(n, iteration, live), now)]
  }

  function MirrorUpTo(rows: seq<Step>, count: nat, iteration: nat, live: bool, now: Time): seq<Step> {
    if count == 0 then rows
    else MirrorOne(MirrorUpTo(rows, count - 1, iteration, live, now), count - 1, iteration, live, now)
  }

  function Mirrored(rows: seq<Step>, iteration: nat, live: bool, now: Time): seq<Step> {
    MirrorUpTo(rows, iteration + 1, iteration, live, now)
  }

  /** `_state_iteration`: Python counts True as the whole number 1. */
  function StateIteration(state: StateDoc): Iteration {
    match state
    case Blank => 0
    case Filled(entry, _) =>
      match entry
      case Number(n) => if 0 <= n <= MAX_ITERATIONS then n else 0
      case Flag(on) => if on then 1 else 0
      case Other => 0
  }

  /** How that iteration prints in `current_step`. */
  function StepLabel(state: StateDoc): string {
    if state.Filled? && state.iteration == Flag(true) then "iter-True" else Key(StateIteration(state))
  }

  // ---- the writes ----

  function Stamped(completedAt: Option<Time>, status: string, now: Time): Option<Time> {
    if Live(status) then None else if completedAt.Some? then completedAt else Some(now)
  }

  function Created(req: NewDoc, now: Time): Doc {
    var status := if req.status == "" then RUNNING else req.status;
    Doc(status, req.state, if req.state.Blank? then 0 else 1,
        req.holder, if req.holder == "" then None else Some(now), Stamped(None, status, now),
        StepLabel(req.state), Mirrored([], StateIteration(req.state), Live(status), now))
  }

  predicate Accepts(version: nat, w: Write) {
    w.force || w.base.None? || w.base.value == version
  }

  function StatusAfter(status: string, w: Write): string {
    if w.status.Some? then w.status.value else status
  }

  function CurrentAfter(current: string, w: Write): string {
    if w.currentStep.Some? then w.currentStep.value
    else if w.iteration.Some? then Key(w.iteration.value)
    else current
  }

  /** The document after the write, when it is accepted. */
  function Written(d: Doc, w: Write, now: Time): Doc {
    var status := StatusAfter(d.status, w);
    Doc(status, w.state, d.version + 1,
        if w.holder != "" then w.holder else d.holder,
        if w.holder != "" then Some(now) else d.holderAt,
        Stamped(d.completedAt, status, now),
        CurrentAfter(d.currentStep, w),
        match w.iteration
        case None => d.steps
        case Some(i) => Mirrored(d.steps, i, Live(status), now))
  }

  function After(d: Doc, w: Write, now: Time): Doc {
    if Accepts(d.version, w) then Written(d, w, now) else d
  }

  /** A write and when it arrives. */
  datatype Arrival = Arrival(write: Write, at: Time)

  function Run(d: Doc, writes: seq<Arrival>): Doc
    decreases |writes|
  {
    if writes == [] then d else Run(After(d, writes[0].write, writes[0].at), writes[1..])
  }

  class RunDoc {
    var status: string
    var state: StateDoc
    var version: nat
    var holder: string
    var holderAt: Option<Time>
    var completedAt: Option<Time>
    var currentStep: string
    var steps: seq<Step>

    function Value(): Doc
      reads this
    {
      Doc(status, state, version, holder, holderAt, completedAt, currentStep, steps)
    }

    /** The insert of `create_run_doc`. */
    constructor (req: NewDoc, now: Time)
      ensures Value() == Created(req, now)
    {
      status := if req.status == "" then RUNNING else req.status;
      state := req.state;
      version := if req.state == Blank then 0 else 1;
      holder := req.holder;
      holderAt := if req.holder == "" then None else Some(now);
      completedAt := None;
      currentStep := "";
      steps := [];
      new;
      StampTerminal(now);
      MirrorIteration(Some(StateIteration(req.state)), now);
      currentStep := StepLabel(req.state);
    }

    method StampTerminal(now: Time)
      modifies this`completedAt
      ensures completedAt == Stamped(old(completedAt), status, now)
    {
      if !Live(status) {
        if completedAt.None? {
          completedAt := Some(now);
        }
      } else {
        completedAt := None;
      }
    }

    /** One turn of the loop over iterations: get or create the step, then bring it along. */
    method MirrorStep(n: nat, iteration: nat, live: bool, now: Time)
      modifies this`steps
      ensures steps == MirrorOne(old(steps), n, iteration, live, now)
    {
      var found := Find(steps, Key(n));
      var i := |steps|;
      match found {
        case Some(at) => i := at;
        case None => steps := steps + [NewStep(n, now)];
      }
      var want := if n == iteration && live then Running else Complete;
      var step := steps[i];
      if step.status != want {
        step := step.(status := want);
        if want == Complete && step.completedAt.None? {
          step := step.(completedAt := Some(now));
        }
        steps := steps[i := step];
      }
    }

    method MirrorIteration(iteration: Option<Iteration>, now: Time)
      modifies this`steps, this`currentStep
      ensures iteration.None? ==> steps == old(steps) && currentStep == old(currentStep)
      ensures iteration.Some? ==> steps == Mirrored(old(steps), iteration.value, Live(status), now)
                                  && currentStep == Key(iteration.value)
    {
      if iteration.None? {
        return;
      }
      var live := Live(status);
      for n := 0 to iteration.value + 1
        invariant steps == MirrorUpTo(old(steps), n, iteration.value, live, now)
        invariant currentStep == old(currentStep)
      {
        MirrorStep(n, iteration.value, live, now);
      }
      currentStep := Key(iteration.value);
    }

    /** An accepted write. */
    method Accept(w: Write, now: Time)
      modifies this
      ensures Value() == Written(old(Value()), w, now)
    {
      state := w.state;
      version := version + 1;
      if w.status.Some? {
        status := w.status.value;
      }
      if w.holder != "" {
        holder := w.holder;
        holderAt := Some(now);
      }
      StampTerminal(now);
      MirrorIteration(w.iteration, now);
      if w.currentStep.Some? {
        currentStep := w.currentStep.value;
      }
    }

    /** `put_run_doc_state`: the new version, or a 409 that changes nothing. */
    method PutState(w: Write, now: Time) returns (r: Result<nat, nat>)
      modifies this
      ensures Value() == After(old(Value()), w, now)
      ensures r == if Accepts(old(version), w) then Ok(old(version) + 1) else Err(409)
    {
      if !w.force && w.base.Some? && w.base.value != version {
        return Err(409);
      }
      Accept(w, now);
      return Ok(version);
    }
  }

  // ---- what the mirrored rows say ----

  lemma KeyIsInjective(m: nat, n: nat)
    requires Key(m) == Key(n)
    ensures m == n
  {
    assert Key(m)[5..] == Decimal.Print(m) && Key(n)[5..] == Decimal.Print(n);
    Decimal.PrintIsInjective(m, n);
  }

  /** The rows are those of iterations 0, 1, 2, … in that order. */
  ghost predicate Numbered(rows: seq<Step>) {
    forall i :: 0 <= i < |rows| ==> rows[i].key == Key(i) && rows[i].ordinal == i && rows[i].startedAt.Some?
  }

  lemma FindNumbered(rows: seq<Step>, n: nat)
    requires Numbered(rows)
    ensures Find(rows, Key(n)) == if n < |rows| then Some(n) else None
  {
    match Find(rows, Key(n))
    case Some(i) => KeyIsInjective(i, n);
    case None =>
  }

  function RowOr(rows: seq<Step>, n: nat, now: Time): Step {
    if n < |rows| then rows[n] else NewStep(n, now)
  }

  lemma MirrorOneAt(rows: seq<Step>, n: nat, iteration: nat, live: bool, now: Time)
    requires Numbered(rows) && n <= |rows|
    ensures var row := Brought(RowOr(rows, n, now), Want(n, iteration, live), now);
            MirrorOne(rows, n, iteration, live, now) == if n < |rows| then rows[n := row] else rows + [row]
    ensures Numbered(MirrorOne(rows, n, iteration, live, now))
  {
    FindNumbered(rows, n);
  }

  /** `r` is `rows` with the first `count` in place and brought along, the others as they were. */
  ghost predicate Reached(rows: seq<Step>, r: seq<Step>, count: nat, iteration: nat, live: bool, now: Time) {
    && Numbered(r)
    && |r| == (if count > |rows| then count else |rows|)
    && (forall i: nat :: i < count ==> r[i] == Brought(RowOr(rows, i, now), Want(i, iteration, live), now))
    && (forall i: nat :: count <= i < |rows| ==> r[i] == rows[i])
  }

  lemma ReachNext(rows: seq<Step>, r: seq<Step>, count: nat, iteration: nat, live: bool, now: Time)
    requires Reached(rows, r, count, iteration, live, now)
    ensures Reached(rows, MirrorOne(r, count, iteration, live, now), count + 1, iteration, live, now)
  {
    MirrorOneAt(r, count, iteration, live, now);
    assert RowOr(r, count, now) == RowOr(rows, count, now);
  }

  /** What mirroring does to numbered rows. */
  lemma {:induction false} MirrorUpToAt(rows: seq<Step>, count: nat, iteration: nat, live: bool, now: Time)
    requires Numbered(rows)
    ensures Reached(rows, MirrorUpTo(rows, count, iteration, live, now), count, iteration, live, now)
  {
    if count > 0 {
      MirrorUpToAt(rows, count - 1, iteration, live, now);
      ReachNext(rows, MirrorUpTo(rows, count - 1, iteration, live, now), count - 1, iteration, live, now);
    }
  }

  /** The rows show iteration `n`: one for each iteration up to it, the earlier ones
      complete, the last one running exactly while the run is live. */
  ghost predicate RowsShow(rows: seq<Step>, n: nat, live: bool) {
    && Numbered(rows)
    && |rows| == n + 1
    && (forall i: nat :: i < |rows| ==>
          rows[i].status == Want(i, n, live) && (rows[i].status == Complete ==> rows[i].completedAt.Some?))
  }

  ghost predicate Shows(d: Doc, n: nat) {
    RowsShow(d.steps, n, Live(d.status))
  }

  lemma ReachedShows(rows: seq<Step>, r: seq<Step>, n: nat, before: bool, iteration: nat, after: bool, now: Time)
    requires RowsShow(rows, n, before) && (iteration >= n || (!before && !after))
    requires Reached(rows, r, iteration + 1, iteration, after, now)
    ensures RowsShow(r, if iteration > n then iteration else n, after)
  {
    var top := if iteration > n then iteration else n;
    forall i: nat | i < |r|
      ensures r[i].status == Want(i, top, after) && (r[i].status == Complete ==> r[i].completedAt.Some?)
    {
      if i < |rows| {
        assert rows[i].status == Want(i, n, before);
      }
    }
  }

  lemma MirroredShows(rows: seq<Step>, n: nat, before: bool, iteration: nat, after: bool, now: Time)
    requires RowsShow(rows, n, before) && (iteration >= n || (!before && !after))
    ensures RowsShow(Mirrored(rows, iteration, after, now), if iteration > n then iteration else n, after)
  {
    MirrorUpToAt(rows, iteration + 1, iteration, after, now);
    ReachedShows(rows, Mirrored(rows, iteration, after, now), n, before, iteration, after, now);
  }

  lemma CreatedShows(req: NewDoc, now: Time)
    ensures Shows(Created(req, now), StateIteration(req.state))
  {
    MirrorUpToAt([], StateIteration(req.state) + 1, StateIteration(req.state), Live(Created(req, now).status), now);
  }

  /** The iteration a new document starts from: a whole number from 0 to 1000 as given, 1 for
      the truth value True, and 0 for anything else. It has the steps iter-0 up to that one, all
      complete but the last, which is running while the run is. */
  lemma NewDocumentSteps(req: NewDoc, now: Time)
    ensures var d := Created(req, now);
            var k := if req.state.Blank? then 0
                     else match req.state.iteration
                       case Number(n) => if 0 <= n <= 1000 then n else 0
                       case Flag(on) => if on then 1 else 0
                       case Other => 0;
            && |d.steps| == k + 1
            && d.currentStep == (if req.state.Filled? && req.state.iteration == Flag(true) then "iter-True"
                                 else "iter-" + Decimal.Print(k))
            && (forall i :: 0 <= i < |d.steps| ==>
                  && d.steps[i].key == "iter-" + Decimal.Print(i) && d.steps[i].ordinal == i
                  && d.steps[i].title == "Iteration " + Decimal.Print(i) && d.steps[i].startedAt == Some(now) && d.steps[i].error == ""
                  && d.steps[i].status == if i == k && req.status in {"", "running"} then Running else Complete)
  {
    var k: nat := StateIteration(req.state);
    var live := Live(Created(req, now).status);
    MirrorUpToAt([], k + 1, k, live, now);
    NewRows(Created(req, now).steps, k, live, now);
  }

  lemma NewRows(r: seq<Step>, k: nat, live: bool, now: Time)
    requires Reached([], r, k + 1, k, live, now)
    ensures |r| == k + 1
    ensures forall i: nat :: i < |r| ==>
              && r[i].key == Key(i) && r[i].ordinal == i && r[i].title == "Iteration " + Decimal.Print(i)
              && r[i].startedAt == Some(now) && r[i].error == "" && r[i].status == Want(i, k, live)
  {
  }

  /** A new document's current step is one of its steps, unless its state's iteration is
      the truth value True, which prints as a word. */
  lemma CurrentStepExists(req: NewDoc, now: Time)
    ensures var d := Created(req, now);
            Find(d.steps, d.currentStep).Some? <==> !(req.state.Filled? && req.state.iteration == Flag(true))
  {
    var d := Created(req, now);
    var n := StateIteration(req.state);
    CreatedShows(req, now);
    FindNumbered(d.steps, n);
    if req.state.Filled? && req.state.iteration == Flag(true) {
      forall i | 0 <= i < |d.steps| ensures d.steps[i].key != d.currentStep {
        assert d.steps[i].key == Key(i);
        assert d.currentStep[5] == 'T' && Decimal.IsDigit(Key(i)[5]);
      }
    }
  }

  /** The writes that leave the rows showing an iteration. */
  predicate Tells(d: Doc, n: nat, w: Write) {
    var before, after := Live(d.status), Live(StatusAfter(d.status, w));
    match w.iteration
    case None => before == after
    case Some(i) => i >= n || (!before && !after)
  }

  function ShownAfter(n: nat, w: Write): nat {
    if w.iteration.Some? && w.iteration.value > n then w.iteration.value else n
  }

  lemma TellingWriteShows(d: Doc, n: nat, w: Write, now: Time)
    requires Shows(d, n) && Tells(d, n, w)
    ensures Shows(Written(d, w, now), ShownAfter(n, w))
  {
    if w.iteration.Some? {
      MirroredShows(d.steps, n, Live(d.status), w.iteration.value, Live(StatusAfter(d.status, w)), now);
    }
  }

  lemma OtherWriteDoesNotShow(d: Doc, n: nat, w: Write, now: Time, m: nat)
    requires Shows(d, n) && Shows(Written(d, w, now), m)
    ensures Tells(d, n, w)
  {
    var after := Written(d, w, now);
    if w.iteration.Some? {
      MirrorUpToAt(d.steps, w.iteration.value + 1, w.iteration.value, Live(StatusAfter(d.status, w)), now);
      if w.iteration.value < n {
        assert m == n;
        assert after.steps[n] == d.steps[n];
        assert d.steps[n].status == Want(n, n, Live(d.status));
        assert after.steps[w.iteration.value].status == Want(w.iteration.value, n, Live(after.status));
      }
    } else {
      assert d.steps[n].status == Want(n, n, Live(d.status));
    }
  }

  /** An accepted write leaves the rows showing an iteration if and only if it moves on to
      the same or a later one, or touches an ended run without reviving it, or, naming no
      iteration, neither ends nor revives the run. */
  lemma ShowsExactly(d: Doc, n: nat, w: Write, now: Time)
    requires Shows(d, n)
    ensures (exists m: nat :: Shows(Written(d, w, now), m)) <==> Tells(d, n, w)
  {
    if Tells(d, n, w) {
      TellingWriteShows(d, n, w, now);
    }
    if m: nat :| Shows(Written(d, w, now), m) {
      OtherWriteDoesNotShow(d, n, w, now, m);
    }
  }

  /** Every write that is accepted names an iteration, and never one below an earlier
      accepted write's. */
  predicate Climbs(d: Doc, n: nat, writes: seq<Arrival>)
    decreases |writes|
  {
    writes == []
    || (var w := writes[0].write;
        if Accepts(d.version, w)
        then w.iteration.Some? && w.iteration.value >= n
             && Climbs(After(d, w, writes[0].at), w.iteration.value, writes[1..])
        else Climbs(d, n, writes[1..]))
  }

  /** The iteration of the last accepted write, or `n` if there is none. */
  function LastIteration(d: Doc, n: nat, writes: seq<Arrival>): nat
    decreases |writes|
  {
    if writes == [] then n
    else
      var w := writes[0].write;
      LastIteration(After(d, w, writes[0].at),
                    if Accepts(d.version, w) && w.iteration.Some? then w.iteration.value else n, writes[1..])
  }

  lemma {:induction false} ClimbingRunShows(d: Doc, n: nat, writes: seq<Arrival>)
    requires Shows(d, n) && Climbs(d, n, writes)
    ensures Shows(Run(d, writes), LastIteration(d, n, writes))
    decreases |writes|
  {
    if writes != [] {
      var w := writes[0].write;
      var next := After(d, w, writes[0].at);
      if Accepts(d.version, w) {
        TellingWriteShows(d, n, w, writes[0].at);
        ClimbingRunShows(next, w.iteration.value, writes[1..]);
      } else {
        ClimbingRunShows(next, n, writes[1..]);
      }
    }
  }

  /** Reads return the rows in the order of their iterations, and the status they derive
      is the stored one: complete exactly when the run is no longer live. */
  lemma DerivedAgrees(d: Doc, n: nat)
    requires Shows(d, n)
    ensures Listed(d.steps) == d.steps
    ensures DeriveStatus(Listed(d.steps)) == if Live(d.status) then InProgress else Done
  {
    NumberedIsListed(d.steps);
    ShownDerives(d.steps, n, Live(d.status));
  }

  lemma NumberedIsListed(rows: seq<Step>)
    requires Numbered(rows)
    ensures Listed(rows) == rows
  {
    Ordering.SortOfSorted(rows, ByOrdinal);
  }

  lemma ShownDerives(rows: seq<Step>, n: nat, live: bool)
    requires RowsShow(rows, n, live)
    ensures DeriveStatus(rows) == if live then InProgress else Done
  {
    assert rows[n].status == Want(n, n, live);
  }

  lemma AtMostOneRunning(d: Doc, n: nat, i: nat, j: nat)
    requires Shows(d, n) && i <= n && j <= n
    requires d.steps[i].status == Running && d.steps[j].status == Running
    ensures i == j == n && Live(d.status)
  {
  }

  /** From creation on, as long as the accepted writes climb, a run has exactly the steps
      iter-0 to iter-n, none but the last of them running, and derives as complete exactly
      when its stored status is terminal. */
  lemma DocumentRunsReadWell(req: NewDoc, now: Time, writes: seq<Arrival>)
    requires Climbs(Created(req, now), StateIteration(req.state), writes)
    ensures var d := Run(Created(req, now), writes);
            var n := LastIteration(Created(req, now), StateIteration(req.state), writes);
            && Shows(d, n)
            && (DeriveStatus(Listed(d.steps)) == Done <==> !Live(d.status))
            && (forall i :: 0 <= i < |d.steps| && d.steps[i].status == Running ==> i == n && Live(d.status))
  {
    CreatedShows(req, now);
    ClimbingRunShows(Created(req, now), StateIteration(req.state), writes);
    var d := Run(Created(req, now), writes);
    var n := LastIteration(Created(req, now), StateIteration(req.state), writes);
    DerivedAgrees(d, n);
    forall i: nat | i <= n && d.steps[i].status == Running ensures i == n && Live(d.status) {
      AtMostOneRunning(d, n, i, i);
    }
  }

  /** Ending a run without naming its iteration leaves its last step running, so that the
      derived status contradicts the stored one. */
  lemma SilentEndNeverReadsDone(d: Doc, n: nat, w: Write, now: Time)
    requires Shows(d, n) && Live(d.status)
    requires w.iteration == None && !Live(StatusAfter(d.status, w))
    ensures DeriveStatus(Listed(Written(d, w, now).steps)) == InProgress
    ensures !Live(Written(d, w, now).status)
  {
    DerivedAgrees(d, n);
  }

  // ---- rows are never lost, nor their first times ----

  /** `after` has the rows of `before`, with what is recorded of their start and first
      completion, and maybe more. */
  ghost predicate Extends(before: seq<Step>, after: seq<Step>) {
    && |before| <= |after|
    && forall i :: 0 <= i < |before| ==>
         && after[i].key == before[i].key && after[i].ordinal == before[i].ordinal
         && after[i].startedAt == before[i].startedAt
         && (before[i].completedAt.Some? ==> after[i].completedAt == before[i].completedAt)
  }

  lemma {:induction false} MirrorExtends(rows: seq<Step>, count: nat, iteration: nat, live: bool, now: Time)
    ensures Extends(rows, MirrorUpTo(rows, count, iteration, live, now))
  {
    if count > 0 {
      MirrorExtends(rows, count - 1, iteration, live, now);
    }
  }

  lemma {:induction false} RunExtends(d: Doc, writes: seq<Arrival>)
    ensures Extends(d.steps, Run(d, writes).steps)
    decreases |writes|
  {
    if writes != [] {
      var w, now := writes[0].write, writes[0].at;
      if w.iteration.Some? {
        MirrorExtends(d.steps, w.iteration.value + 1, w.iteration.value, Live(StatusAfter(d.status, w)), now);
      }
      RunExtends(After(d, w, now), writes[1..]);
    }
  }

  // ---- versions: no lost updates ----

  function AcceptedWrites(d: Doc, writes: seq<Arrival>): (r: seq<Arrival>)
    ensures forall a :: a in r ==> a in writes
    decreases |writes|
  {
    if writes == [] then []
    else
      var w := writes[0];
      assert writes == [w] + writes[1..];
      (if Accepts(d.version, w.write) then [w] else [])
      + AcceptedWrites(After(d, w.write, w.at), writes[1..])
  }

  /** Each accepted write is one version; without one nothing has changed; otherwise the
      state is the last accepted write's. */
  lemma {:induction false} VersionCounts(d: Doc, writes: seq<Arrival>)
    ensures var accepted, r := AcceptedWrites(d, writes), Run(d, writes);
            && r.version == d.version + |accepted|
            && (accepted == [] ==> r == d)
            && (accepted != [] ==> r.state == accepted[|accepted| - 1].write.state)
    decreases |writes|
  {
    if writes != [] {
      VersionCounts(After(d, writes[0].write, writes[0].at), writes[1..]);
    }
  }

  /** A writer that names the version it read replaces exactly the document it read,
      whatever others (forcing ones included) sent in between. */
  lemma OverwritesWhatItRead(read: Doc, between: seq<Arrival>, w: Write)
    requires w.base == Some(read.version) && !w.force
    ensures Accepts(Run(read, between).version, w) <==> Run(read, between) == read
  {
    VersionCounts(read, between);
  }

  predicate AllNameTheirBase(writes: seq<Arrival>) {
    forall k :: 0 <= k < |writes| ==> !writes[k].write.force && writes[k].write.base.Some?
  }

  /** Each of the writes is based on the version the one before it produced. */
  ghost predicate Chain(accepted: seq<Arrival>, from: int) {
    forall k :: 0 <= k < |accepted| ==> accepted[k].write.base == Some(from + k)
  }

  lemma ChainLink(first: Arrival, rest: seq<Arrival>, from: int)
    requires first.write.base == Some(from) && Chain(rest, from + 1)
    ensures Chain([first] + rest, from)
  {
  }

  /** When every writer names its base, the accepted writes form one chain. */
  lemma {:induction false} AcceptedWritesChain(d: Doc, writes: seq<Arrival>)
    requires AllNameTheirBase(writes)
    ensures Chain(AcceptedWrites(d, writes), d.version)
    decreases |writes|
  {
    if writes != [] {
      var w := writes[0];
      var next := After(d, w.write, w.at);
      AcceptedWritesChain(next, writes[1..]);
      if Accepts(d.version, w.write) {
        ChainLink(w, AcceptedWrites(next, writes[1..]), d.version);
      }
    }
  }

  lemma {:induction false} SomeBaseMatches(d: Doc, writes: seq<Arrival>)
    requires AllNameTheirBase(writes)
    ensures AcceptedWrites(d, writes) != [] <==>
            exists k :: 0 <= k < |writes| && writes[k].write.base == Some(d.version)
    decreases |writes|
  {
    if writes != [] {
      var w := writes[0];
      if !Accepts(d.version, w.write) {
        SomeBaseMatches(d, writes[1..]);
        forall k | 0 <= k < |writes| && writes[k].write.base == Some(d.version)
          ensures writes[1..][k - 1].write.base == Some(d.version) && k >= 1
        {
          assert k >= 1;
        }
      }
    }
  }

  function OnBase(accepted: seq<Arrival>, base: int): nat {
    if accepted == [] then 0
    else OnBase(accepted[..|accepted| - 1], base) + (if accepted[|accepted| - 1].write.base == Some(base) then 1 else 0)
  }

  lemma {:induction false} ChainCounts(accepted: seq<Arrival>, from: int, base: int)
    requires Chain(accepted, from)
    ensures OnBase(accepted, base) == if from <= base < from + |accepted| then 1 else 0
  {
    if accepted != [] {
      ChainCounts(accepted[..|accepted| - 1], from, base);
    }
  }

  /** Of any number of writers on the current version exactly one is accepted, and never
      two on any version. */
  lemma OneWinnerPerBase(d: Doc, writes: seq<Arrival>, base: int)
    requires AllNameTheirBase(writes)
    ensures OnBase(AcceptedWrites(d, writes), base) ==
            if d.version <= base < Run(d, writes).version then 1 else 0
    ensures OnBase(AcceptedWrites(d, writes), d.version) == 1 <==>
            exists k :: 0 <= k < |writes| && writes[k].write.base == Some(d.version)
  {
    VersionCounts(d, writes);
    AcceptedWritesChain(d, writes);
    ChainCounts(AcceptedWrites(d, writes), d.version, base);
    ChainCounts(AcceptedWrites(d, writes), d.version, d.version);
    SomeBaseMatches(d, writes);
  }

  // ---- the end stamp ----

  ghost predicate StampedRight(d: Doc) {
    d.completedAt.Some? <==> !Live(d.status)
  }

  lemma {:induction false} RunStampedRight(d: Doc, writes: seq<Arrival>)
    requires StampedRight(d)
    ensures StampedRight(Run(d, writes))
    decreases |writes|
  {
    if writes != [] {
      RunStampedRight(After(d, writes[0].write, writes[0].at), writes[1..]);
    }
  }

  /** From creation on, through any writes, the run has an end time exactly when its
      status is terminal. */
  lemma EndStampMatchesStatus(req: NewDoc, now: Time, writes: seq<Arrival>)
    ensures StampedRight(Run(Created(req, now), writes))
    ensures var d := Run(Created(req, now), writes);
            d.completedAt == None <==> d.status == "" || d.status == "running"
  {
    RunStampedRight(Created(req, now), writes);
  }

  /** An ended run keeps the time it first ended until an accepted write revives it. */
  lemma {:induction false} FirstEndTimeStays(d: Doc, writes: seq<Arrival>)
    requires StampedRight(d) && !Live(d.status)
    requires forall k :: 0 <= k < |writes| && Accepts(Run(d, writes[..k]).version, writes[k].write) ==>
                           writes[k].write.status.None? || !Live(writes[k].write.status.value)
    ensures Run(d, writes).completedAt == d.completedAt && !Live(Run(d, writes).status)
    decreases |writes|
  {
    if writes != [] {
      var w := writes[0];
      var next := After(d, w.write, w.at);
      assert Run(d, writes[..0]) == d;
      forall k | 0 <= k < |writes| - 1 && Accepts(Run(next, writes[1..][..k]).version, writes[1..][k].write)
        ensures writes[1..][k].write.status.None? || !Live(writes[1..][k].write.status.value)
      {
        assert writes[..k + 1][1..] == writes[1..][..k];
        assert Run(d, writes[..k + 1]) == Run(next, writes[1..][..k]);
      }
      FirstEndTimeStays(next, writes[1..]);
    }
  }
}
