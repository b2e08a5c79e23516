/** The step rows of a run, and the run status that the read model derives from them. */
module RunSteps {
  import opened Basics
  import Ordering

  datatype StepStatus = Pending | Running | Complete | Failed | Skipped

  /** Two rows of one run never share a key. */
  datatype Step = Step(
    key: string, ordinal: int, title: string, status: StepStatus,
    startedAt: Option<Time>, completedAt: Option<Time>, error: string)

  datatype RunStatus = NotStarted | InProgress | Done

  predicate Terminal(s: StepStatus) {
    s == Complete || s == Skipped
  }

  /** `derive_status`. */
  function DeriveStatus(steps: seq<Step>): RunStatus {
    if steps == [] then NotStarted
    else if forall i :: 0 <= i < |steps| ==> Terminal(steps[i].status) then Done
    else InProgress
  }

  /** A run is done once it has steps and every one is complete or skipped, and not started
      while it has none. */
  lemma DerivedExactly(steps: seq<Step>)
    ensures DeriveStatus(steps) == Done <==> steps != [] && forall s :: s in steps ==> s.status in {Complete, Skipped}
    ensures DeriveStatus(steps) == NotStarted <==> steps == []
  {
    if forall s :: s in steps ==> s.status in {Complete, Skipped} {
      assert forall i :: 0 <= i < |steps| ==> steps[i] in steps;
    }
  }

  predicate ByOrdinal(a: Step, b: Step) {
    a.ordinal <= b.ordinal
  }

  /** The rows as every read returns them: by ordinal, then in the order of creation. */
  function Listed(rows: seq<Step>): (r: seq<Step>)
    ensures multiset(r) == multiset(rows) && |r| == |rows|
  {
    Ordering.Sort(rows, ByOrdinal)
  }

  /** Rows that are in order by ordinal, rows of one ordinal in whatever order, are listed as
      they stand. */
  lemma ListedAsTheyStand(rows: seq<Step>)
    requires forall i, j :: 0 <= i < j < |rows| ==> rows[i].ordinal <= rows[j].ordinal
    ensures Listed(rows) == rows
  {
    Ordering.SortOfSorted(rows, ByOrdinal);
  }

  function Find(rows: seq<Step>, key: string): (r: Option<nat>)
    ensures r.Some? ==> r.value < |rows| && rows[r.value].key == key
                        && forall i :: 0 <= i < r.value ==> rows[i].key != key
    ensures r.None? ==> forall i :: 0 <= i < |rows| ==> rows[i].key != key
  {
    if rows == [] then None
    else if rows[0].key == key then Some(0)
    else
      match Find(rows[1..], key)
      case None => None
      case Some(i) => Some(i + 1)
  }
}
