/** An agent's scaffold pushed to a repository: inspecting it, the calls a push makes,
    being cut off between any two of them, and others pushing at the same time. */
module Scaffold {
  import opened Basics

  type Path = string

  const MANIFEST: Path := ".claude-plugin/plugin.json"
  const FIRST_FILE: Path := "README.md"
  /** What the hosting service's own starter boxes add. */
  const STARTER_FILES: set<Path> := {"README.md", "LICENSE", "LICENSE.md", ".gitignore"}

  datatype Blob = Blob(text: string, executable: bool)

  type Tree = map<Path, Blob>

  datatype Commit = Commit(parent: Option<nat>, tree: Tree)

  /** A repository as one token sees it; a commit's id is its place. */
  datatype Repo = Repo(visible: bool, commits: seq<Commit>, head: Option<nat>)

  /** What is to be pushed: the agent's slug, the template's paths, the files rendered, and
      how a manifest's text names its agent. */
  datatype Plan = Plan(slug: string, expected: set<Path>, files: Tree, nameIn: string -> Option<string>)

  datatype RepoState =
    | Missing
    | NameMismatch(name: string)
    | NotEmpty
    | Adopt
    | Ready
    | Update(lacking: set<Path>, base: nat)

  ghost predicate Valid(r: Repo) {
    && (forall i :: 0 <= i < |r.commits| && r.commits[i].parent.Some? ==> r.commits[i].parent.value < i)
    && (r.head.Some? ==> r.head.value < |r.commits|)
  }

  function TreeOf(r: Repo): Tree
    requires Valid(r)
  {
    if r.head.Some? then r.commits[r.head.value].tree else map[]
  }

  function NameOf(tree: Tree, plan: Plan): Option<string> {
    if MANIFEST in tree then plan.nameIn(tree[MANIFEST].text) else None
  }

  /** `inspect_repo`. */
  function Inspect(r: Repo, plan: Plan): RepoState
    requires Valid(r)
  {
    if !r.visible then Missing
    else if r.head.None? then Ready
    else
      var tree := TreeOf(r);
      var name := NameOf(tree, plan);
      if name.Some? && name.value != plan.slug then NameMismatch(name.value)
      else if !(name == Some(plan.slug) || tree.Keys <= STARTER_FILES) then NotEmpty
      else if plan.expected - tree.Keys == {} then Adopt
      else Update(plan.expected - tree.Keys, r.head.value)
  }

  // ---- the calls that write ----

  /** The first file goes in through the contents call: a commit whose parent is wherever the
      branch is now, refused if the path is taken. */
  function FirstPut(r: Repo, text: string): Option<Repo>
    requires Valid(r)
  {
    if FIRST_FILE in TreeOf(r) then None
    else Some(Repo(r.visible, r.commits + [Commit(r.head, TreeOf(r)[FIRST_FILE := Blob(text, false)])], Some(|r.commits|)))
  }

  /** A tree over the parent's and a commit of it: nothing moves yet. */
  function Committed(r: Repo, parent: nat, files: Tree): Repo
    requires parent < |r.commits|
  {
    r.(commits := r.commits + [Commit(Some(parent), r.commits[parent].tree + files)])
  }

  predicate Ancestor(commits: seq<Commit>, a: nat, c: nat)
    decreases c
  {
    a == c || (c < |commits| && commits[c].parent.Some? && commits[c].parent.value < c
               && Ancestor(commits, a, commits[c].parent.value))
  }

  /** The branch moves to a commit only if that is a fast-forward. */
  predicate CanMove(r: Repo, c: nat) {
    c < |r.commits| && (r.head.None? || Ancestor(r.commits, r.head.value, c))
  }

  function Chosen(files: Tree, paths: set<Path>): Tree {
    map p | p in paths && p in files :: files[p]
  }

  function Rest(files: Tree): Tree {
    files - {FIRST_FILE}
  }

  // ---- pushes at the same time ----

  datatype Phase = Inspected(state: RepoState) | FirstIn(first: nat) | Made(made: nat) | Finished | Stopped

  /** One push. `ready`: it found the repository empty; `ontoEmpty`: and so it still was
      when its first file went in. */
  datatype Pusher = Pusher(plan: Plan, phase: Phase, ready: bool, ontoEmpty: bool)

  datatype State = State(repo: Repo, pushers: seq<Pusher>)

  datatype Action =
    | OthersPush(tree: Tree)
    | Begin(plan: Plan)
    | Next(p: nat)
    | CutOff(p: nat)

  function Begun(r: Repo, plan: Plan): Pusher
    requires Valid(r)
  {
    Pusher(plan, Inspected(Inspect(r, plan)), Inspect(r, plan).Ready?, false)
  }

  /** The next call of a push. */
  function Advanced(r: Repo, v: Pusher): (Repo, Pusher)
    requires Valid(r)
  {
    match v.phase
    case Inspected(state) =>
      (match state
       case Ready =>
         if FIRST_FILE !in v.plan.files then (r, v.(phase := Stopped))
         else
           (match FirstPut(r, v.plan.files[FIRST_FILE].text)
            case None => (r, v.(phase := Stopped))
            case Some(after) => (after, v.(phase := FirstIn(|r.commits|), ontoEmpty := TreeOf(r) == map[])))
       case Update(lacking, base) =>
         if base < |r.commits| then
           (Committed(r, base, Chosen(v.plan.files, lacking)), v.(phase := Made(|r.commits|)))
         else (r, v.(phase := Stopped))
       case _ => (r, v.(phase := Stopped)))
    case FirstIn(first) =>
      if first < |r.commits| then (Committed(r, first, Rest(v.plan.files)), v.(phase := Made(|r.commits|)))
      else (r, v.(phase := Stopped))
    case Made(made) =>
      if CanMove(r, made) then (r.(head := Some(made)), v.(phase := Finished)) else (r, v.(phase := Stopped))
    case Finished => (r, v)
    case Stopped => (r, v)
  }

  function Step(s: State, a: Action): State
    requires Valid(s.repo)
  {
    match a
    case OthersPush(tree) =>
      s.(repo := Repo(s.repo.visible, s.repo.commits + [Commit(s.repo.head, tree)], Some(|s.repo.commits|)))
    case Begin(plan) => s.(pushers := s.pushers + [Begun(s.repo, plan)])
    case Next(p) =>
      if p < |s.pushers| then
        var (repo, v) := Advanced(s.repo, s.pushers[p]);
        State(repo, s.pushers[p := v])
      else s
    case CutOff(p) =>
      if p < |s.pushers| then s.(pushers := s.pushers[p := s.pushers[p].(phase := Stopped)]) else s
  }

  /** Nothing at an existing path has changed. */
  ghost predicate Kept(before: Tree, after: Tree) {
    forall path :: path in before ==> path in after && after[path] == before[path]
  }

  /** A commit that the branch has been at, or is at. */
  ghost predicate Behind(r: Repo, c: nat) {
    c < |r.commits| && r.head.Some? && Ancestor(r.commits, c, r.head.value)
  }

  /** The commit a push made is on top of one the branch has been at, and holds that one's
      files and those the push adds. */
  ghost predicate MadeOk(r: Repo, v: Pusher, made: nat) {
    && made < |r.commits|
    && r.commits[made].parent.Some? && r.commits[made].parent.value < made
    && var parent := r.commits[made].parent.value;
       && Behind(r, parent)
       && (if v.ready
           then r.commits[made].tree == r.commits[parent].tree + Rest(v.plan.files)
                && (v.ontoEmpty ==> r.commits[parent].tree.Keys == {FIRST_FILE})
           else exists lacking :: r.commits[made].tree == r.commits[parent].tree + Chosen(v.plan.files, lacking)
                                  && lacking !! r.commits[parent].tree.Keys)
  }

  ghost predicate PusherOk(r: Repo, v: Pusher) {
    match v.phase
    case Inspected(state) =>
      && (v.ready <==> state.Ready?)
      && (state.Update? ==> Behind(r, state.base) && state.lacking !! r.commits[state.base].tree.Keys)
    case FirstIn(first) =>
      && v.ready && Behind(r, first)
      && (v.ontoEmpty ==> r.commits[first].tree.Keys == {FIRST_FILE})
    case Made(made) => MadeOk(r, v, made)
    case Finished => true
    case Stopped => true
  }

  ghost predicate Inv(s: State) {
    && Valid(s.repo)
    && forall p :: 0 <= p < |s.pushers| ==> PusherOk(s.repo, s.pushers[p])
  }

  // ---- ancestry ----

  lemma {:induction false} AncestorStays(commits: seq<Commit>, more: seq<Commit>, a: nat, c: nat)
    requires c < |commits| && commits <= more
    ensures Ancestor(commits, a, c) <==> Ancestor(more, a, c)
    decreases c
  {
    if a != c && commits[c].parent.Some? && commits[c].parent.value < c {
      AncestorStays(commits, more, a, commits[c].parent.value);
    }
  }

  lemma {:induction false} AncestorTransitive(commits: seq<Commit>, a: nat, b: nat, c: nat)
    requires Ancestor(commits, a, b) && Ancestor(commits, b, c)
    ensures Ancestor(commits, a, c)
    decreases c
  {
    if b != c {
      AncestorTransitive(commits, a, b, commits[c].parent.value);
    }
  }

  lemma {:induction false} AncestorIsOlder(commits: seq<Commit>, a: nat, c: nat)
    requires Ancestor(commits, a, c)
    ensures a <= c
    decreases c
  {
    if a != c {
      AncestorIsOlder(commits, a, commits[c].parent.value);
    }
  }

  /** `after` has the commits of `before`, and a branch that has only moved forward. */
  ghost predicate Forward(before: Repo, after: Repo) {
    && before.commits <= after.commits
    && (before.head.Some? ==> after.head.Some? && Ancestor(after.commits, before.head.value, after.head.value))
  }

  lemma BehindStays(before: Repo, after: Repo, c: nat)
    requires Valid(before) && Forward(before, after) && Behind(before, c)
    ensures Behind(after, c)
  {
    AncestorStays(before.commits, after.commits, c, before.head.value);
    AncestorTransitive(after.commits, c, before.head.value, after.head.value);
  }

  lemma PusherStaysOk(before: Repo, after: Repo, v: Pusher)
    requires Valid(before) && Forward(before, after) && PusherOk(before, v)
    ensures PusherOk(after, v)
  {
    match v.phase
    case Inspected(state) =>
      if state.Update? {
        BehindStays(before, after, state.base);
      }
    case FirstIn(first) => BehindStays(before, after, first);
    case Made(made) => BehindStays(before, after, before.commits[made].parent.value);
    case Finished =>
    case Stopped =>
  }

  lemma OnTop(r: Repo, tree: Tree)
    requires Valid(r)
    ensures var after := Repo(r.visible, r.commits + [Commit(r.head, tree)], Some(|r.commits|));
            Valid(after) && Forward(r, after) && Behind(after, |r.commits|)
  {
  }

  lemma CommittedIsForward(r: Repo, parent: nat, files: Tree)
    requires Valid(r) && parent < |r.commits|
    ensures Valid(Committed(r, parent, files)) && Forward(r, Committed(r, parent, files))
  {
  }

  /** The branch can move to a commit on top of where it has been only if that is where it
      is, or the commit itself. */
  lemma MovesFromParent(r: Repo, made: nat)
    requires Valid(r) && CanMove(r, made)
    requires r.commits[made].parent.Some? && Behind(r, r.commits[made].parent.value)
    ensures r.head == r.commits[made].parent || r.head == Some(made)
    ensures Forward(r, r.(head := Some(made)))
  {
    var parent, head := r.commits[made].parent.value, r.head.value;
    if head != made {
      AncestorIsOlder(r.commits, head, parent);
      AncestorIsOlder(r.commits, parent, head);
    }
  }

  lemma BeginningOk(r: Repo, v: Pusher)
    requires Valid(r) && PusherOk(r, v) && v.phase.Inspected?
    ensures var (after, w) := Advanced(r, v);
            Valid(after) && Forward(r, after) && PusherOk(after, w)
  {
    match v.phase.state {
      case Ready =>
        if FIRST_FILE in v.plan.files {
          OnTop(r, TreeOf(r)[FIRST_FILE := Blob(v.plan.files[FIRST_FILE].text, false)]);
        }
      case Update(lacking, base) =>
        CommittedIsForward(r, base, Chosen(v.plan.files, lacking));
        BehindStays(r, Committed(r, base, Chosen(v.plan.files, lacking)), base);
      case _ =>
    }
  }

  lemma AdvancedOk(r: Repo, v: Pusher)
    requires Valid(r) && PusherOk(r, v)
    ensures var (after, w) := Advanced(r, v);
            Valid(after) && Forward(r, after) && PusherOk(after, w)
  {
    match v.phase {
      case Inspected(_) => BeginningOk(r, v);
      case FirstIn(first) =>
        CommittedIsForward(r, first, Rest(v.plan.files));
        BehindStays(r, Committed(r, first, Rest(v.plan.files)), first);
      case Made(made) =>
        if CanMove(r, made) {
          MovesFromParent(r, made);
        }
      case Finished =>
      case Stopped =>
    }
  }

  lemma StepKeeps(s: State, a: Action)
    requires Inv(s)
    ensures Inv(Step(s, a)) && Forward(s.repo, Step(s, a).repo)
  {
    var after := Step(s, a);
    match a {
      case OthersPush(tree) => OnTop(s.repo, tree);
      case Begin(plan) => BegunOk(s.repo, plan);
      case Next(p) =>
        if p < |s.pushers| {
          AdvancedOk(s.repo, s.pushers[p]);
        }
      case CutOff(p) =>
    }
    forall q | 0 <= q < |s.pushers| ensures PusherOk(after.repo, s.pushers[q]) {
      PusherStaysOk(s.repo, after.repo, s.pushers[q]);
    }
  }

  lemma BegunOk(r: Repo, plan: Plan)
    requires Valid(r)
    ensures PusherOk(r, Begun(r, plan))
  {
  }

  function Run(s: State, actions: seq<Action>): State
    requires Inv(s)
    ensures Inv(Run(s, actions))
    decreases |actions|
  {
    if actions == [] then s
    else
      StepKeeps(s, actions[0]);
      Run(Step(s, actions[0]), actions[1..])
  }

  // ---- nothing is overwritten, but for one race ----

  /** This push is about to move the branch to a commit that changes a file. */
  ghost predicate Overwrites(r: Repo, v: Pusher)
    requires Valid(r)
  {
    && v.ready && v.phase.Made? && CanMove(r, v.phase.made)
    && exists path :: path in TreeOf(r) && path in Rest(v.plan.files) && Rest(v.plan.files)[path] != TreeOf(r)[path]
  }

  /** Whoever else pushes at the same time, a call of a push leaves every existing file as
      it is, unless it ends a push that found the repository empty and now holds a
      different file under one of the template's paths. */
  lemma NextKeepsContent(s: State, p: nat)
    requires Inv(s) && p < |s.pushers|
    ensures Inv(Step(s, Next(p)))
    ensures Kept(TreeOf(s.repo), TreeOf(Step(s, Next(p)).repo)) <==> !Overwrites(s.repo, s.pushers[p])
  {
    StepKeeps(s, Next(p));
    var r, v := s.repo, s.pushers[p];
    assert PusherOk(r, v);
    if v.phase.Made? && CanMove(r, v.phase.made) {
      MovesFromParent(r, v.phase.made);
      MoveKeepsContent(r, v);
    }
  }

  lemma MoveKeepsContent(r: Repo, v: Pusher)
    requires Valid(r) && v.phase.Made? && MadeOk(r, v, v.phase.made) && CanMove(r, v.phase.made)
    requires r.head == r.commits[v.phase.made].parent || r.head == Some(v.phase.made)
    ensures Kept(TreeOf(r), r.commits[v.phase.made].tree) <==> !Overwrites(r, v)
  {
    var before, after := TreeOf(r), r.commits[v.phase.made].tree;
    if r.head == Some(v.phase.made) {
      assert before == after;
    } else if v.ready {
      assert after == before + Rest(v.plan.files);
      if Overwrites(r, v) {
        var path :| path in before && path in Rest(v.plan.files) && Rest(v.plan.files)[path] != before[path];
        assert after[path] != before[path];
      }
    }
  }

  /** A push into a repository that already held files never changes one of them. */
  lemma UpdateNeverOverwrites(s: State, p: nat)
    requires Inv(s) && p < |s.pushers| && !s.pushers[p].ready
    ensures Inv(Step(s, Next(p))) && Kept(TreeOf(s.repo), TreeOf(Step(s, Next(p)).repo))
  {
    NextKeepsContent(s, p);
  }

  /** Nor does a push whose first file went into a repository that was still empty. */
  lemma PushOntoEmptyNeverOverwrites(s: State, p: nat)
    requires Inv(s) && p < |s.pushers| && s.pushers[p].ontoEmpty
    ensures Inv(Step(s, Next(p))) && Kept(TreeOf(s.repo), TreeOf(Step(s, Next(p)).repo))
  {
    NextKeepsContent(s, p);
    var r, v := s.repo, s.pushers[p];
    assert PusherOk(r, v);
    if v.phase.Made? && CanMove(r, v.phase.made) && v.ready {
      MovesFromParent(r, v.phase.made);
      if r.head == Some(v.phase.made) {
        assert TreeOf(r) == r.commits[r.commits[v.phase.made].parent.value].tree + Rest(v.plan.files);
      } else {
        assert TreeOf(r).Keys == {FIRST_FILE};
      }
    }
  }

  lemma RunFirst(s: State, a: Action, rest: seq<Action>)
    requires Inv(s)
    ensures Inv(Step(s, a)) && Run(s, [a] + rest) == Run(Step(s, a), rest)
  {
    StepKeeps(s, a);
    assert ([a] + rest)[1..] == rest;
  }

  lemma RunFour(s: State, a: Action, b: Action, c: Action, d: Action)
    requires Inv(s)
    ensures Inv(Step(s, a)) && Inv(Step(Step(s, a), b)) && Inv(Step(Step(Step(s, a), b), c))
    ensures Run(s, [a, b, c, d]) == Step(Step(Step(Step(s, a), b), c), d)
  {
    RunFirst(s, a, [b, c, d]);
    RunFirst(Step(s, a), b, [c, d]);
    RunFirst(Step(Step(s, a), b), c, [d]);
    RunFirst(Step(Step(Step(s, a), b), c), d, []);
    assert [a] + [b, c, d] == [a, b, c, d];
  }

  /** A push that found the repository empty, about to move the branch, a file of others'
      having come in before its own first. */
  function Raced(plan: Plan, path: Path, theirs: Blob): State
    requires FIRST_FILE in plan.files
  {
    var there: Tree := map[path := theirs];
    var first := there[FIRST_FILE := Blob(plan.files[FIRST_FILE].text, false)];
    State(Repo(true, [Commit(None, there), Commit(Some(0), first), Commit(Some(1), first + Rest(plan.files))], Some(1)),
          [Pusher(plan, Made(2), true, false)])
  }

  lemma RaceFirstFile(plan: Plan, path: Path, theirs: Blob)
    requires FIRST_FILE in plan.files && path != FIRST_FILE
    ensures var r := Repo(true, [Commit(None, map[path := theirs])], Some(0));
            var (after, v) := Advanced(r, Pusher(plan, Inspected(Ready), true, false));
            && after == Repo(true, Raced(plan, path, theirs).repo.commits[..2], Some(1))
            && v == Pusher(plan, FirstIn(1), true, false)
  {
    var there: Tree := map[path := theirs];
    assert path in there;
    var r := Repo(true, [Commit(None, there)], Some(0));
    assert TreeOf(r) == there && FIRST_FILE !in there;
    assert Advanced(r, Pusher(plan, Inspected(Ready), true, false)).0.commits == Raced(plan, path, theirs).repo.commits[..2];
  }

  lemma RaceRest(plan: Plan, path: Path, theirs: Blob)
    requires FIRST_FILE in plan.files && path != FIRST_FILE
    ensures var r := Repo(true, Raced(plan, path, theirs).repo.commits[..2], Some(1));
            && Valid(r)
            && Advanced(r, Pusher(plan, FirstIn(1), true, false)) == (Raced(plan, path, theirs).repo, Raced(plan, path, theirs).pushers[0])
  {
    var r := Repo(true, Raced(plan, path, theirs).repo.commits[..2], Some(1));
    assert Committed(r, 1, Rest(plan.files)).commits == Raced(plan, path, theirs).repo.commits;
  }

  lemma RaceHappens(plan: Plan, path: Path, theirs: Blob)
    requires FIRST_FILE in plan.files && path != FIRST_FILE
    ensures Inv(State(Repo(true, [], None), []))
    ensures Run(State(Repo(true, [], None), []), [Begin(plan), OthersPush(map[path := theirs]), Next(0), Next(0)])
            == Raced(plan, path, theirs)
  {
    var s0 := State(Repo(true, [], None), []);
    var others := OthersPush(map[path := theirs]);
    RunFour(s0, Begin(plan), others, Next(0), Next(0));
    var s2 := Step(Step(s0, Begin(plan)), others);
    assert s2 == State(Repo(true, [Commit(None, map[path := theirs])], Some(0)), [Pusher(plan, Inspected(Ready), true, false)]);
    RaceFirstFile(plan, path, theirs);
    RaceRest(plan, path, theirs);
    assert Step(s2, Next(0)).pushers == [Pusher(plan, FirstIn(1), true, false)];
  }

  /** The remaining race: a file that others push, after the repository was found empty
      and before the first file goes in, is replaced by the template's. */
  lemma ReadyPushCanOverwrite(plan: Plan, path: Path, theirs: Blob)
    requires FIRST_FILE in plan.files && path in plan.files && path != FIRST_FILE && plan.files[path] != theirs
    ensures Inv(State(Repo(true, [], None), []))
    ensures var before := Run(State(Repo(true, [], None), []), [Begin(plan), OthersPush(map[path := theirs]), Next(0), Next(0)]);
            && path in TreeOf(before.repo) && TreeOf(before.repo)[path] == theirs
            && |before.pushers| == 1 && Overwrites(before.repo, before.pushers[0])
            && path in TreeOf(Step(before, Next(0)).repo) && TreeOf(Step(before, Next(0)).repo)[path] == plan.files[path]
  {
    RaceHappens(plan, path, theirs);
    assert path in Rest(plan.files) && CanMove(Raced(plan, path, theirs).repo, 2);
  }

  // ---- trying again until it is done ----

  /** A push that nothing disturbs, cut off after `calls` writes. */
  function Pushed(r: Repo, v: Pusher, calls: nat): Repo
    requires Valid(r) && PusherOk(r, v)
    ensures Valid(Pushed(r, v, calls))
    decreases calls
  {
    if calls == 0 then r
    else
      AdvancedOk(r, v);
      var (after, w) := Advanced(r, v);
      Pushed(after, w, calls - 1)
  }

  function Tried(r: Repo, plan: Plan, calls: nat): Repo
    requires Valid(r)
    ensures Valid(Tried(r, plan, calls))
  {
    BegunOk(r, plan);
    Pushed(r, Begun(r, plan), calls)
  }

  /** No write is left after three. */
  const ALL_CALLS := 3

  predicate Pushable(state: RepoState) {
    state.Ready? || state.Update? || state.Adopt?
  }

  /** A repository is pushed to, or adopted, exactly when it can be seen and it is empty, or
      its manifest names the agent, or nobody's manifest is there and it holds nothing but a
      hosting service's starter files. Foreign content and another agent's manifest are refused,
      and then no try changes anything. */
  lemma PushableExactly(r: Repo, plan: Plan, calls: nat)
    requires Valid(r)
    ensures var tree := TreeOf(r);
            var named := if ".claude-plugin/plugin.json" in tree
                         then plan.nameIn(tree[".claude-plugin/plugin.json"].text) else None;
            Pushable(Inspect(r, plan)) <==>
              r.visible && (r.head.None? || named == Some(plan.slug)
                            || (named == None && tree.Keys <= {"README.md", "LICENSE", "LICENSE.md", ".gitignore"}))
    ensures !Pushable(Inspect(r, plan)) ==> Tried(r, plan, calls) == r
    ensures Inspect(r, plan) == Missing <==> !r.visible
    ensures forall name :: Inspect(r, plan) == NameMismatch(name) <==>
              && r.visible && r.head.Some? && ".claude-plugin/plugin.json" in TreeOf(r)
              && plan.nameIn(TreeOf(r)[".claude-plugin/plugin.json"].text) == Some(name) && name != plan.slug
    ensures Inspect(r, plan) == Adopt ==> plan.expected <= TreeOf(r).Keys && Tried(r, plan, calls) == r
  {
    if !Inspect(r, plan).Ready? && !Inspect(r, plan).Update? {
      NothingToPush(r, plan, calls);
    }
    if Inspect(r, plan) == Adopt {
      NothingLacking(plan.expected, TreeOf(r).Keys);
    }
  }

  function Calls(n: nat): seq<Action> {
    if n == 0 then [] else [Next(0)] + Calls(n - 1)
  }

  lemma {:induction false} CallsPush(r: Repo, v: Pusher, calls: nat)
    requires Valid(r) && PusherOk(r, v) && Inv(State(r, [v]))
    ensures Run(State(r, [v]), Calls(calls)).repo == Pushed(r, v, calls)
    decreases calls
  {
    if calls > 0 {
      PushedOn(r, v, calls);
      var (r1, v1) := Advanced(r, v);
      StepKeeps(State(r, [v]), Next(0));
      assert Step(State(r, [v]), Next(0)) == State(r1, [v1]);
      assert Calls(calls)[1..] == Calls(calls - 1);
      CallsPush(r1, v1, calls - 1);
    }
  }

  /** A try is a run of the interleaved steps in which nothing comes between its calls. */
  lemma TryIsARun(r: Repo, plan: Plan, calls: nat)
    requires Valid(r) && Inv(State(r, []))
    ensures Run(State(r, []), [Begin(plan)] + Calls(calls)).repo == Tried(r, plan, calls)
  {
    BegunOk(r, plan);
    var actions := [Begin(plan)] + Calls(calls);
    assert actions[1..] == Calls(calls);
    StepKeeps(State(r, []), Begin(plan));
    assert Step(State(r, []), Begin(plan)) == State(r, [Begun(r, plan)]);
    CallsPush(r, Begun(r, plan), calls);
  }

  /** A push that was cut off writes nothing any more, whatever else happens to it. */
  lemma CutOffStops(s: State, p: nat)
    requires Inv(s)
    ensures var cut := Step(s, CutOff(p));
            Inv(cut) && cut.repo == s.repo && Step(cut, Next(p)).repo == s.repo
  {
    StepKeeps(s, CutOff(p));
  }

  /** A call that leaves the repository as it was ends its push. */
  lemma RefusedCallEnds(r: Repo, v: Pusher)
    requires Valid(r) && PusherOk(r, v)
    ensures var (after, w) := Advanced(r, v);
            after == r ==> w.phase.Stopped? || w.phase.Finished?
  {
  }

  /** The factory renders every template path, among them the first file and a manifest
      that names the agent. */
  ghost predicate WellMade(plan: Plan) {
    && plan.expected <= plan.files.Keys
    && FIRST_FILE in plan.files
    && MANIFEST in plan.expected
    && plan.nameIn(plan.files[MANIFEST].text) == Some(plan.slug)
  }

  /** Plans for the same agent; what is rendered (names, addresses) may differ. */
  ghost predicate SameAgent(a: Plan, b: Plan) {
    a.slug == b.slug && a.expected == b.expected && a.nameIn == b.nameIn
  }

  lemma {:induction false} NothingLeft(r: Repo, v: Pusher, calls: nat)
    requires Valid(r) && PusherOk(r, v) && (v.phase.Finished? || v.phase.Stopped?)
    ensures Pushed(r, v, calls) == r
    decreases calls
  {
    if calls > 0 {
      NothingLeft(r, v, calls - 1);
    }
  }

  lemma NothingToPush(r: Repo, plan: Plan, calls: nat)
    requires Valid(r) && !Inspect(r, plan).Ready? && !Inspect(r, plan).Update?
    ensures Tried(r, plan, calls) == r
  {
    BegunOk(r, plan);
    if calls > 0 {
      NothingLeft(r, Begun(r, plan).(phase := Stopped), calls - 1);
    }
  }

  lemma PushedOn(r: Repo, v: Pusher, calls: nat)
    requires Valid(r) && PusherOk(r, v) && calls > 0
    ensures var (after, w) := Advanced(r, v);
            Valid(after) && PusherOk(after, w) && Pushed(r, v, calls) == Pushed(after, w, calls - 1)
  {
    AdvancedOk(r, v);
  }

  /** A push that has its commit and may move the branch to it. */
  lemma TriedMove(r: Repo, v: Pusher, calls: nat)
    requires Valid(r) && PusherOk(r, v) && v.phase.Made? && CanMove(r, v.phase.made)
    ensures Pushed(r, v, calls) == if calls == 0 then r else r.(head := Some(v.phase.made))
  {
    if calls > 0 {
      PushedOn(r, v, calls);
      var (r1, v1) := Advanced(r, v);
      NothingLeft(r1, v1, calls - 1);
    }
  }

  /** The repository after an update that got so far. */
  lemma TriedUpdate(r: Repo, plan: Plan, calls: nat)
    requires Valid(r) && Inspect(r, plan).Update?
    ensures var committed := Committed(r, r.head.value, Chosen(plan.files, plan.expected - TreeOf(r).Keys));
            Tried(r, plan, calls) ==
            if calls == 0 then r else if calls == 1 then committed else committed.(head := Some(|r.commits|))
  {
    BegunOk(r, plan);
    var v := Begun(r, plan);
    if calls >= 1 {
      PushedOn(r, v, calls);
      var (r1, v1) := Advanced(r, v);
      assert CanMove(r1, v1.phase.made);
      TriedMove(r1, v1, calls - 1);
    }
  }

  /** A push whose first file is the branch. */
  lemma TriedRest(r: Repo, v: Pusher, calls: nat)
    requires Valid(r) && PusherOk(r, v) && v.phase.FirstIn? && r.head == Some(v.phase.first)
    ensures var committed := Committed(r, v.phase.first, Rest(v.plan.files));
            Pushed(r, v, calls) ==
            if calls == 0 then r else if calls == 1 then committed else committed.(head := Some(|r.commits|))
  {
    if calls >= 1 {
      PushedOn(r, v, calls);
      var (r1, v1) := Advanced(r, v);
      assert CanMove(r1, v1.phase.made);
      TriedMove(r1, v1, calls - 1);
    }
  }

  function FirstTree(plan: Plan): Tree
    requires FIRST_FILE in plan.files
  {
    map[FIRST_FILE := Blob(plan.files[FIRST_FILE].text, false)]
  }

  /** The repository after a first push that got so far. */
  lemma TriedReady(r: Repo, plan: Plan, calls: nat)
    requires Valid(r) && Inspect(r, plan).Ready? && FIRST_FILE in plan.files
    ensures var n := |r.commits|;
            var put := Repo(r.visible, r.commits + [Commit(None, FirstTree(plan))], Some(n));
            var committed := Committed(put, n, Rest(plan.files));
            Tried(r, plan, calls) ==
            if calls == 0 then r
            else if calls == 1 then put
            else if calls == 2 then committed
            else committed.(head := Some(n + 1))
  {
    BegunOk(r, plan);
    var v := Begun(r, plan);
    if calls >= 1 {
      PushedOn(r, v, calls);
      assert TreeOf(r)[FIRST_FILE := Blob(plan.files[FIRST_FILE].text, false)] == FirstTree(plan);
      var (r1, v1) := Advanced(r, v);
      TriedRest(r1, v1, calls - 1);
    }
  }

  /** Wherever a try is cut off, the repository can still be pushed to, or is done; and
      what was in it is as it was. */
  lemma TryStaysPushable(r: Repo, plan: Plan, calls: nat, again: Plan)
    requires Valid(r) && Pushable(Inspect(r, plan)) && WellMade(plan) && SameAgent(plan, again)
    ensures Pushable(Inspect(Tried(r, plan, calls), again))
    ensures Kept(TreeOf(r), TreeOf(Tried(r, plan, calls)))
  {
    var state := Inspect(r, plan);
    if state.Update? {
      TriedUpdate(r, plan, calls);
    } else if state.Ready? && calls > 0 {
      TriedReady(r, plan, calls);
    } else if state.Adopt? {
      NothingToPush(r, plan, calls);
    }
  }

  /** A try that is not cut off finishes: the repository is the agent's, with every
      template path. */
  lemma FullTryAdopts(r: Repo, plan: Plan, again: Plan)
    requires Valid(r) && Pushable(Inspect(r, plan)) && WellMade(plan) && SameAgent(plan, again)
    ensures Inspect(Tried(r, plan, ALL_CALLS), again) == Adopt
    ensures plan.expected <= TreeOf(Tried(r, plan, ALL_CALLS)).Keys
  {
    var state := Inspect(r, plan);
    if state.Update? {
      TriedUpdate(r, plan, ALL_CALLS);
    } else if state.Ready? {
      TriedReady(r, plan, ALL_CALLS);
    } else {
      NothingToPush(r, plan, ALL_CALLS);
      NothingLacking(plan.expected, TreeOf(r).Keys);
    }
  }

  lemma NothingLacking(wanted: set<Path>, there: set<Path>)
    requires wanted - there == {}
    ensures wanted <= there
  {
    forall p | p in wanted ensures p in there {
      assert p !in wanted - there;
    }
  }

  datatype Try = Try(plan: Plan, calls: nat)

  function AllTried(r: Repo, tries: seq<Try>): Repo
    requires Valid(r)
    ensures Valid(AllTried(r, tries))
    decreases |tries|
  {
    if tries == [] then r else AllTried(Tried(r, tries[0].plan, tries[0].calls), tries[1..])
  }

  /** However many tries are cut off, and wherever, one that is not completes the scaffold,
      and nothing the repository held before, or got from an earlier try, has changed. */
  lemma {:induction false} RetriesConverge(r: Repo, tries: seq<Try>, last: Plan)
    requires Valid(r) && Pushable(Inspect(r, last)) && WellMade(last)
    requires forall k :: 0 <= k < |tries| ==> WellMade(tries[k].plan) && SameAgent(tries[k].plan, last)
    ensures var before := AllTried(r, tries);
            var after := Tried(before, last, ALL_CALLS);
            && Inspect(after, last) == Adopt && last.expected <= TreeOf(after).Keys
            && Kept(TreeOf(r), TreeOf(before)) && Kept(TreeOf(before), TreeOf(after))
    decreases |tries|
  {
    if tries == [] {
      FullTryAdopts(r, last, last);
      TryStaysPushable(r, last, ALL_CALLS, last);
    } else {
      var next := Tried(r, tries[0].plan, tries[0].calls);
      SameAgentSees(r, tries[0].plan, last);
      TryStaysPushable(r, tries[0].plan, tries[0].calls, last);
      RetriesConverge(next, tries[1..], last);
    }
  }

  lemma SameAgentSees(r: Repo, a: Plan, b: Plan)
    requires Valid(r) && SameAgent(a, b)
    ensures Inspect(r, a) == Inspect(r, b)
  {
  }

  // ---- the push as one routine ----

  class Hosted {
    var visible: bool
    var commits: seq<Commit>
    var head: Option<nat>

    function Value(): Repo
      reads this
    {
      Repo(visible, commits, head)
    }

    constructor (r: Repo)
      requires Valid(r)
      ensures Value() == r
    {
      visible, commits, head := r.visible, r.commits, r.head;
    }

    /** `_commit` up to the commit itself. */
    method AddCommit(parent: nat, files: Tree) returns (made: nat)
      requires parent < |commits|
      modifies this`commits
      ensures Value() == Committed(old(Value()), parent, files) && made == |old(commits)|
    {
      made := |commits|;
      commits := commits + [Commit(Some(parent), commits[parent].tree + files)];
    }

    /** One commit of what is missing. */
    method PushUpdate(plan: Plan, lacking: set<Path>, base: nat, calls: nat) returns (r: Result<nat, nat>)
      requires Valid(Value()) && Inspect(Value(), plan) == Update(lacking, base)
      modifies this
      ensures Value() == Tried(old(Value()), plan, calls)
      ensures r == if calls >= 2 then Ok(|Chosen(plan.files, lacking)|) else Err(409)
    {
      TriedUpdate(Value(), plan, calls);
      if calls == 0 {
        return Err(409);
      }
      var todo := Chosen(plan.files, lacking);
      var made := AddCommit(base, todo);
      if calls == 1 {
        return Err(409);
      }
      head := Some(made);
      return Ok(|todo|);
    }

    /** The first file, and a commit of the rest. */
    method PushFirst(plan: Plan, calls: nat) returns (r: Result<nat, nat>)
      requires Valid(Value()) && Inspect(Value(), plan).Ready? && FIRST_FILE in plan.files
      modifies this
      ensures Value() == Tried(old(Value()), plan, calls)
      ensures r == if calls >= 3 then Ok(|plan.files|) else Err(409)
    {
      TriedReady(Value(), plan, calls);
      if calls == 0 {
        return Err(409);
      }
      var first := |commits|;
      commits, head := commits + [Commit(None, FirstTree(plan))], Some(first);
      if calls == 1 {
        return Err(409);
      }
      var made := AddCommit(first, Rest(plan.files));
      if calls == 2 {
        return Err(409);
      }
      head := Some(made);
      return Ok(|plan.files|);
    }

    /** Inspect, then push what there is to push; `calls` writes get through. The number
        of files this adds, or 409 when there is nothing to push into, the push is refused
        or it is cut off. */
    method Scaffold(plan: Plan, calls: nat) returns (r: Result<nat, nat>)
      requires Valid(Value())
      modifies this
      ensures Valid(Value()) && Value() == Tried(old(Value()), plan, calls)
      ensures WellMade(plan) ==>
                (r.Ok? <==> match Inspect(old(Value()), plan)
                            case Adopt => true
                            case Ready => calls >= 3
                            case Update(_, _) => calls >= 2
                            case _ => false)
      ensures WellMade(plan) && r.Ok? ==> r.value == |TreeOf(Value()).Keys - TreeOf(old(Value())).Keys|
    {
      var state := Inspect(Value(), plan);
      ghost var was := Value();
      match state {
        case Update(lacking, base) =>
          r := PushUpdate(plan, lacking, base, calls);
          UpdateAdds(was, plan, calls);
        case Ready =>
          if FIRST_FILE !in plan.files {
            NothingWithoutFirstFile(was, plan, calls);
            return Err(500);
          }
          r := PushFirst(plan, calls);
          FirstAdds(was, plan, calls);
        case Adopt =>
          NothingToPush(was, plan, calls);
          assert TreeOf(was).Keys - TreeOf(was).Keys == {};
          return Ok(0);
        case _ =>
          NothingToPush(was, plan, calls);
          return Err(409);
      }
    }
  }

  lemma UpdateAdds(r: Repo, plan: Plan, calls: nat)
    requires Valid(r) && Inspect(r, plan).Update?
    ensures calls >= 2 ==>
              |TreeOf(Tried(r, plan, calls)).Keys - TreeOf(r).Keys| == |Chosen(plan.files, Inspect(r, plan).lacking)|
  {
    TriedUpdate(r, plan, calls);
    var todo := Chosen(plan.files, Inspect(r, plan).lacking);
    assert (TreeOf(r) + todo).Keys - TreeOf(r).Keys == todo.Keys;
  }

  lemma FirstAdds(r: Repo, plan: Plan, calls: nat)
    requires Valid(r) && Inspect(r, plan).Ready? && FIRST_FILE in plan.files
    ensures calls >= 3 ==> |TreeOf(Tried(r, plan, calls)).Keys - TreeOf(r).Keys| == |plan.files|
  {
    TriedReady(r, plan, calls);
    FirstTreeKeys(plan);
    assert TreeOf(r) == map[];
    assert plan.files.Keys - {} == plan.files.Keys;
  }

  lemma FirstTreeKeys(plan: Plan)
    requires FIRST_FILE in plan.files
    ensures (FirstTree(plan) + Rest(plan.files)).Keys == plan.files.Keys
  {
  }

  lemma NothingWithoutFirstFile(r: Repo, plan: Plan, calls: nat)
    requires Valid(r) && Inspect(r, plan).Ready? && FIRST_FILE !in plan.files
    ensures Tried(r, plan, calls) == r
  {
    BegunOk(r, plan);
    if calls > 0 {
      NothingLeft(r, Begun(r, plan).(phase := Stopped), calls - 1);
    }
  }
}
