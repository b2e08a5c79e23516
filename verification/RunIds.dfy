/** Run ids of the form `<subject>-<day>-NNN`: minting the next one, and any number of
    requests minting at once against the table's unique constraint. */
module RunIds {
  import opened Basics
  import opened Decimal
  import opened Lists

  const ATTEMPTS := 5
  const WIDTH := 3

  function Prefix(subject: string, day: string): string {
    (if subject == "" then "run" else subject) + "-" + day + "-"
  }

  /** `id` was minted (or could have been) under `prefix`. */
  predicate MintedUnder(id: string, prefix: string) {
    prefix <= id && IsDecimal(id[|prefix|..])
  }

  function NumberOf(id: string, prefix: string): nat
    requires MintedUnder(id, prefix)
  {
    Parse(id[|prefix|..])
  }

  function MaxNumber(ids: seq<string>, prefix: string, floor: nat): nat {
    if ids == [] then floor
    else
      var rest := MaxNumber(ids[1..], prefix, floor);
      if MintedUnder(ids[0], prefix) && NumberOf(ids[0], prefix) > rest then NumberOf(ids[0], prefix) else rest
  }

  function NextNumber(ids: seq<string>, prefix: string, minSeq: nat): nat
    requires minSeq >= 1
  {
    MaxNumber(ids, prefix, minSeq - 1) + 1
  }

  /** `next_ext_id`: the prefix and the next number, printed with at least three digits. */
  function NextId(ids: seq<string>, subject: string, day: string, minSeq: nat): string
    requires minSeq >= 1
  {
    Prefix(subject, day) + Padded(NextNumber(ids, Prefix(subject, day), minSeq), WIDTH)
  }

  predicate Above(n: nat, ids: seq<string>, prefix: string, minSeq: nat) {
    n >= minSeq && forall i :: 0 <= i < |ids| && MintedUnder(ids[i], prefix) ==> NumberOf(ids[i], prefix) < n
  }

  /** The number minted is the least one that reaches `minSeq` and passes every number
      in use for the day. */
  lemma {:induction false} NextNumberIsLeast(ids: seq<string>, prefix: string, minSeq: nat, n: nat)
    requires minSeq >= 1
    ensures Above(n, ids, prefix, minSeq) <==> NextNumber(ids, prefix, minSeq) <= n
  {
    if ids != [] {
      NextNumberIsLeast(ids[1..], prefix, minSeq, n);
      if Above(n, ids[1..], prefix, minSeq) && (MintedUnder(ids[0], prefix) ==> NumberOf(ids[0], prefix) < n) {
        forall i | 0 <= i < |ids| && MintedUnder(ids[i], prefix) ensures NumberOf(ids[i], prefix) < n {
          if i > 0 {
            assert ids[i] == ids[1..][i - 1];
          }
        }
      }
      if Above(n, ids, prefix, minSeq) {
        forall i | 0 <= i < |ids| - 1 && MintedUnder(ids[1..][i], prefix) ensures NumberOf(ids[1..][i], prefix) < n {
          assert ids[1..][i] == ids[i + 1];
        }
      }
    }
  }

  /** Reading the minted id back gives the number it was minted for, whatever its size. */
  lemma MintedIdReadsBack(prefix: string, n: nat)
    ensures MintedUnder(prefix + Padded(n, WIDTH), prefix)
    ensures NumberOf(prefix + Padded(n, WIDTH), prefix) == n
  {
    ParseOfPadded(n, WIDTH);
    assert (prefix + Padded(n, WIDTH))[|prefix|..] == Padded(n, WIDTH);
  }

  /** A minted id spells the subject, the day and a number of at least three digits. */
  lemma MintedSpelling(ids: seq<string>, subject: string, day: string, minSeq: nat) returns (digits: string)
    requires minSeq >= 1
    ensures NextId(ids, subject, day, minSeq) == (if subject == "" then "run" else subject) + "-" + day + "-" + digits
    ensures IsDecimal(digits) && |digits| >= 3 && (|digits| > 3 ==> digits[0] != '0')
  {
    var n := NextNumber(ids, Prefix(subject, day), minSeq);
    digits := Padded(n, WIDTH);
    PaddedWidth(n, WIDTH);
  }

  lemma NoDashAfter(a: string, x: string, i: nat)
    requires IsDecimal(x) && |a| < i < |a| + 1 + |x|
    ensures (a + "-" + x)[i] != '-'
  {
    assert (a + "-" + x)[i] == x[i - |a| - 1];
  }

  lemma LastDash(a: string, x: string, b: string, y: string)
    requires a + "-" + x == b + "-" + y && IsDecimal(x)
    ensures |b| <= |a|
  {
    var s := a + "-" + x;
    forall i | |a| < i < |s| ensures s[i] != '-' {
      NoDashAfter(a, x, i);
    }
    assert s[|b|] == (b + "-" + y)[|b|] == '-';
  }

  lemma SameDashes(a: string, x: string, b: string, y: string)
    requires a + "-" + x == b + "-" + y && IsDecimal(x) && IsDecimal(y)
    ensures a == b
  {
    LastDash(a, x, b, y);
    LastDash(b, y, a, x);
    assert a == (a + "-" + x)[..|a|] == (b + "-" + y)[..|b|] == b;
  }

  /** Different subjects, or different days of one date form, never share a minted id, whatever
      the tables and the numbers asked for. */
  lemma SubjectsAndDaysDiffer(ids: seq<string>, subject: string, day: string, minSeq: nat,
                              others: seq<string>, subject2: string, day2: string, minSeq2: nat)
    requires minSeq >= 1 && minSeq2 >= 1 && |day| == |day2|
    requires NextId(ids, subject, day, minSeq) == NextId(others, subject2, day2, minSeq2)
    ensures day == day2
    ensures (if subject == "" then "run" else subject) == if subject2 == "" then "run" else subject2
  {
    var a := if subject == "" then "run" else subject;
    var b := if subject2 == "" then "run" else subject2;
    var x := MintedSpelling(ids, subject, day, minSeq);
    var y := MintedSpelling(others, subject2, day2, minSeq2);
    SameDashes(a + "-" + day, x, b + "-" + day2, y);
    assert |a| == |b|;
    assert a == (a + "-" + day)[..|a|] == (b + "-" + day2)[..|b|] == b;
    assert day == (a + "-" + day)[|a| + 1..] == (b + "-" + day2)[|b| + 1..] == day2;
  }

  lemma NextIdIsFresh(ids: seq<string>, subject: string, day: string, minSeq: nat)
    requires minSeq >= 1
    ensures var prefix, id := Prefix(subject, day), NextId(ids, subject, day, minSeq);
            && id !in ids
            && MintedUnder(id, prefix)
            && Above(NumberOf(id, prefix), ids, prefix, minSeq)
  {
    var prefix := Prefix(subject, day);
    var n := NextNumber(ids, prefix, minSeq);
    MintedIdReadsBack(prefix, n);
    NextNumberIsLeast(ids, prefix, minSeq, n);
    var id := NextId(ids, subject, day, minSeq);
    assert NumberOf(id, prefix) == n;
    forall i | 0 <= i < |ids| ensures ids[i] != id {
    }
  }

  /** The order in which the table returns its ids does not matter. */
  lemma NextIdIgnoresOrder(a: seq<string>, b: seq<string>, subject: string, day: string, minSeq: nat)
    requires minSeq >= 1 && forall id :: id in a <==> id in b
    ensures NextId(a, subject, day, minSeq) == NextId(b, subject, day, minSeq)
  {
    var prefix := Prefix(subject, day);
    var m, n := NextNumber(a, prefix, minSeq), NextNumber(b, prefix, minSeq);
    NextNumberIsLeast(a, prefix, minSeq, m);
    NextNumberIsLeast(b, prefix, minSeq, n);
    AboveIgnoresOrder(a, b, prefix, minSeq, m);
    AboveIgnoresOrder(b, a, prefix, minSeq, n);
    NextNumberIsLeast(b, prefix, minSeq, m);
    NextNumberIsLeast(a, prefix, minSeq, n);
  }

  lemma AboveIgnoresOrder(a: seq<string>, b: seq<string>, prefix: string, minSeq: nat, n: nat)
    requires Above(n, a, prefix, minSeq) && forall id :: id in b ==> id in a
    ensures Above(n, b, prefix, minSeq)
  {
    forall i | 0 <= i < |b| && MintedUnder(b[i], prefix) ensures NumberOf(b[i], prefix) < n {
      assert b[i] in a;
      var k :| 0 <= k < |a| && a[k] == b[i];
    }
  }

  // ---- any number of requests at once ----

  datatype Proposal = Proposal(id: string, seen: nat)

  datatype Outcome = Trying | Created(id: string) | Taken | GaveUp

  /** A failed attempt: the id it proposed, and how many ids the table held when it looked
      and when its insert failed. */
  datatype Loss = Loss(id: string, looked: nat, failed: nat)

  /** One create request: its own id if it brought one, how many ids the table held when
      it began, its failed attempts, and the id it is about to insert. */
  datatype Request = Request(
    extId: Option<string>, subject: string, minSeq: nat, began: nat,
    lost: seq<Loss>, proposal: Option<Proposal>, outcome: Outcome)

  /** `owners[i]` is the request that inserted `ids[i]`, or nothing for an id from before. */
  datatype State = State(ids: seq<string>, owners: seq<Option<nat>>, requests: seq<Request>)

  datatype Action =
    | Begin(extId: Option<string>, subject: string, minSeq: nat)
    | Look(r: nat, day: string)
    | Insert(r: nat)

  function Inserted(r: Request, ids: seq<string>): Request
    requires r.proposal.Some?
  {
    var id := r.proposal.value.id;
    if id !in ids then r.(outcome := Created(id), proposal := None)
    else if r.extId.Some? then r.(outcome := Taken, proposal := None)
    else r.(lost := r.lost + [Loss(id, r.proposal.value.seen, |ids|)], proposal := None,
            outcome := if |r.lost| + 1 == ATTEMPTS then GaveUp else Trying)
  }

  function Step(s: State, a: Action): State {
    match a
    case Begin(extId, subject, minSeq) =>
      s.(requests := s.requests +
           [Request(extId, subject, if minSeq >= 1 then minSeq else 1, |s.ids|, [], None, Trying)])
    case Look(r, day) =>
      if r < |s.requests| && s.requests[r].outcome == Trying && s.requests[r].proposal == None
         && s.requests[r].minSeq >= 1 then
        var q := s.requests[r];
        var id := if q.extId.Some? then q.extId.value else NextId(s.ids, q.subject, day, q.minSeq);
        s.(requests := s.requests[r := q.(proposal := Some(Proposal(id, |s.ids|)))])
      else s
    case Insert(r) =>
      if r < |s.requests| && s.requests[r].proposal.Some? then
        var q := s.requests[r];
        var after := Inserted(q, s.ids);
        State(if after.outcome.Created? then s.ids + [after.outcome.id] else s.ids,
              if after.outcome.Created? then s.owners + [Some(r)] else s.owners,
              s.requests[r := after])
      else s
  }

  function Run(s: State, actions: seq<Action>): State
    decreases |actions|
  {
    if actions == [] then s else Run(Step(s, actions[0]), actions[1..])
  }

  /** The table before any of the modelled requests: `ids` already there. */
  function Start(ids: seq<string>): State {
    State(ids, seq(|ids|, _ => None), [])
  }

  /** The id was not there when the attempt looked and was when its insert failed. */
  ghost predicate LossOk(l: Loss, ids: seq<string>) {
    l.looked <= l.failed <= |ids| && l.id !in ids[..l.looked] && l.id in ids[l.looked..l.failed]
  }

  /** Each failed attempt has its own window, after the one before it. */
  ghost predicate LossesOk(lost: seq<Loss>, ids: seq<string>, began: nat) {
    && (forall k :: 0 <= k < |lost| ==> began <= lost[k].looked && LossOk(lost[k], ids))
    && (forall k, l :: 0 <= k < l < |lost| ==> lost[k].failed <= lost[l].looked)
  }

  ghost predicate RequestOk(r: Request, ids: seq<string>, ground: nat) {
    && ground <= r.began <= |ids|
    && LossesOk(r.lost, ids, r.began)
    && |r.lost| <= ATTEMPTS
    && (r.outcome.Trying? ==> |r.lost| < ATTEMPTS)
    && (r.outcome.GaveUp? ==> |r.lost| == ATTEMPTS)
    && (r.proposal.Some? ==> r.outcome.Trying?)
    && (r.extId.Some? ==> r.lost == [])
    && (r.outcome.Created? ==> forall k :: 0 <= k < |r.lost| ==> r.lost[k].id != r.outcome.id)
    && (r.proposal.Some? && r.extId.None? ==>
          && r.began <= r.proposal.value.seen <= |ids|
          && r.proposal.value.id !in ids[..r.proposal.value.seen]
          && (forall k :: 0 <= k < |r.lost| ==> r.lost[k].failed <= r.proposal.value.seen))
  }

  ghost predicate Inv(s: State, ground: nat) {
    && Distinct(s.ids)
    && |s.owners| == |s.ids|
    && ground <= |s.ids|
    && (forall i :: ground <= i < |s.ids| ==> s.owners[i].Some?)
    && (forall i :: 0 <= i < |s.ids| && s.owners[i].Some? ==>
          s.owners[i].value < |s.requests| && s.requests[s.owners[i].value].outcome == Created(s.ids[i]))
    && (forall r :: 0 <= r < |s.requests| ==> RequestOk(s.requests[r], s.ids, ground))
    && (forall r :: 0 <= r < |s.requests| && s.requests[r].outcome.Created? ==>
          exists i :: 0 <= i < |s.ids| && s.ids[i] == s.requests[r].outcome.id && s.owners[i] == Some(r))
  }

  lemma LossStays(l: Loss, ids: seq<string>, id: string)
    requires LossOk(l, ids)
    ensures LossOk(l, ids + [id])
  {
    assert (ids + [id])[..l.looked] == ids[..l.looked];
    assert (ids + [id])[l.looked..l.failed] == ids[l.looked..l.failed];
  }

  lemma MoreIds(r: Request, ids: seq<string>, id: string, ground: nat)
    requires RequestOk(r, ids, ground)
    ensures RequestOk(r, ids + [id], ground)
  {
    forall k | 0 <= k < |r.lost| ensures LossOk(r.lost[k], ids + [id]) {
      LossStays(r.lost[k], ids, id);
    }
    if r.proposal.Some? && r.extId.None? {
      assert (ids + [id])[..r.proposal.value.seen] == ids[..r.proposal.value.seen];
    }
  }

  lemma FoundSince(ids: seq<string>, seen: nat, id: string)
    requires seen <= |ids| && id in ids && id !in ids[..seen]
    ensures id in ids[seen..|ids|]
  {
    assert ids == ids[..seen] + ids[seen..|ids|];
  }

  /** A minted id found taken was inserted since this request looked. */
  lemma LosesToANewerId(r: Request, ids: seq<string>, ground: nat)
    requires RequestOk(r, ids, ground) && r.proposal.Some? && r.proposal.value.id in ids
    ensures RequestOk(Inserted(r, ids), ids, ground)
  {
    if r.extId.None? {
      FoundSince(ids, r.proposal.value.seen, r.proposal.value.id);
    }
  }

  /** An id inserted is none of those that the request lost before. */
  lemma WinsAnotherId(r: Request, ids: seq<string>, ground: nat)
    requires RequestOk(r, ids, ground) && r.proposal.Some? && r.proposal.value.id !in ids
    ensures RequestOk(Inserted(r, ids), ids + [r.proposal.value.id], ground)
  {
    var id := r.proposal.value.id;
    forall k | 0 <= k < |r.lost| ensures r.lost[k].id != id && LossOk(r.lost[k], ids + [id]) {
      var l := r.lost[k];
      assert LossOk(l, ids) && ids[l.looked..l.failed] <= ids[l.looked..];
      LossStays(l, ids, id);
      LostIsThere(l, ids);
    }
  }

  lemma LostIsThere(l: Loss, ids: seq<string>)
    requires LossOk(l, ids)
    ensures l.id in ids
  {
    var i :| 0 <= i < l.failed - l.looked && ids[l.looked..l.failed][i] == l.id;
    assert ids[l.looked + i] == l.id;
  }

  lemma LookKeeps(s: State, r: nat, day: string, ground: nat)
    requires Inv(s, ground)
    ensures Inv(Step(s, Look(r, day)), ground)
  {
    var after := Step(s, Look(r, day));
    if after != s {
      var q := s.requests[r];
      NextIdIsFresh(s.ids, q.subject, day, q.minSeq);
      assert s.ids[..|s.ids|] == s.ids;
      assert RequestOk(q, s.ids, ground);
      assert RequestOk(after.requests[r], s.ids, ground);
    }
  }

  lemma InsertedKeepsOwners(s: State, r: nat, id: string, ground: nat)
    requires Inv(s, ground) && r < |s.requests| && id !in s.ids
    requires s.requests[r].proposal.Some? && s.requests[r].proposal.value.id == id
    ensures var a := Step(s, Insert(r));
            forall k :: 0 <= k < |a.requests| && a.requests[k].outcome.Created? ==>
              exists i :: 0 <= i < |a.ids| && a.ids[i] == a.requests[k].outcome.id && a.owners[i] == Some(k)
  {
    var a := Step(s, Insert(r));
    forall k | 0 <= k < |a.requests| && a.requests[k].outcome.Created?
      ensures exists i :: 0 <= i < |a.ids| && a.ids[i] == a.requests[k].outcome.id && a.owners[i] == Some(k)
    {
      if k == r {
        assert a.ids[|s.ids|] == id && a.owners[|s.ids|] == Some(r);
      } else {
        var i :| 0 <= i < |s.ids| && s.ids[i] == s.requests[k].outcome.id && s.owners[i] == Some(k);
        assert a.ids[i] == s.ids[i] && a.owners[i] == s.owners[i];
      }
    }
  }

  lemma InsertLostKeeps(s: State, r: nat, ground: nat)
    requires Inv(s, ground) && r < |s.requests| && s.requests[r].proposal.Some?
    requires s.requests[r].proposal.value.id in s.ids
    ensures Inv(Step(s, Insert(r)), ground)
  {
    assert RequestOk(s.requests[r], s.ids, ground);
    LosesToANewerId(s.requests[r], s.ids, ground);
  }

  lemma InsertWonKeeps(s: State, r: nat, ground: nat)
    requires Inv(s, ground) && r < |s.requests| && s.requests[r].proposal.Some?
    requires s.requests[r].proposal.value.id !in s.ids
    ensures Inv(Step(s, Insert(r)), ground)
  {
    var after, id := Step(s, Insert(r)), s.requests[r].proposal.value.id;
    assert RequestOk(s.requests[r], s.ids, ground);
    WinsAnotherId(s.requests[r], s.ids, ground);
    forall k | 0 <= k < |after.requests| && k != r ensures RequestOk(after.requests[k], after.ids, ground) {
      MoreIds(s.requests[k], s.ids, id, ground);
    }
    InsertedKeepsOwners(s, r, id, ground);
  }

  lemma InsertKeeps(s: State, r: nat, ground: nat)
    requires Inv(s, ground)
    ensures Inv(Step(s, Insert(r)), ground)
  {
    if r < |s.requests| && s.requests[r].proposal.Some? {
      if s.requests[r].proposal.value.id in s.ids {
        InsertLostKeeps(s, r, ground);
      } else {
        InsertWonKeeps(s, r, ground);
      }
    }
  }

  lemma StepKeeps(s: State, a: Action, ground: nat)
    requires Inv(s, ground)
    ensures Inv(Step(s, a), ground)
  {
    match a
    case Begin(_, _, _) =>
      var after := Step(s, a);
      forall k | 0 <= k < |s.requests| && after.requests[k].outcome.Created?
        ensures exists i :: 0 <= i < |s.ids| && s.ids[i] == after.requests[k].outcome.id && s.owners[i] == Some(k)
      {
        assert after.requests[k] == s.requests[k];
      }
    case Look(r, day) => LookKeeps(s, r, day, ground);
    case Insert(r) => InsertKeeps(s, r, ground);
  }

  lemma {:induction false} RunKeeps(s: State, actions: seq<Action>, ground: nat)
    requires Inv(s, ground)
    ensures Inv(Run(s, actions), ground)
    decreases |actions|
  {
    if actions != [] {
      StepKeeps(s, actions[0], ground);
      RunKeeps(Step(s, actions[0]), actions[1..], ground);
    }
  }

  /** However requests interleave, the table never holds an id twice, no two requests
      create the same id, and none creates one that was there before. */
  lemma NoSharedIds(ids: seq<string>, actions: seq<Action>, a: nat, b: nat)
    requires Distinct(ids)
    ensures var s := Run(Start(ids), actions);
            && Distinct(s.ids)
            && (a < b < |s.requests| && s.requests[a].outcome.Created? && s.requests[b].outcome.Created?
                ==> s.requests[a].outcome.id != s.requests[b].outcome.id)
  {
    RunKeeps(Start(ids), actions, |ids|);
  }

  /** `rival` is another request, and inserted the very id that the attempt proposed, between
      that attempt's look and its own insert. */
  ghost predicate Matched(s: State, r: nat, l: Loss, rival: nat)
    requires r < |s.requests|
  {
    && rival < |s.requests| && rival != r
    && s.requests[rival].outcome == Created(l.id)
    && exists i :: TakenAt(s, l, i) && s.owners[i] == Some(rival)
  }

  /** Position `i` of the table is where the id was inserted, in the attempt's window. */
  predicate TakenAt(s: State, l: Loss, i: int) {
    l.looked <= i < l.failed && i < |s.ids| && i < |s.owners| && s.ids[i] == l.id && s.owners[i].Some?
  }

  lemma TakenInWindow(s: State, l: Loss, ground: nat) returns (i: nat)
    requires Inv(s, ground) && LossOk(l, s.ids) && ground <= l.looked
    ensures TakenAt(s, l, i)
    ensures s.owners[i].value < |s.requests| && s.requests[s.owners[i].value].outcome == Created(l.id)
  {
    var j :| 0 <= j < l.failed - l.looked && s.ids[l.looked..l.failed][j] == l.id;
    i := l.looked + j;
  }

  /** The request that a failed attempt lost to. */
  lemma RivalOf(s: State, r: nat, k: nat, ground: nat) returns (rival: nat)
    requires Inv(s, ground) && r < |s.requests| && k < |s.requests[r].lost|
    ensures Matched(s, r, s.requests[r].lost[k], rival)
  {
    assert RequestOk(s.requests[r], s.ids, ground);
    var i := TakenInWindow(s, s.requests[r].lost[k], ground);
    rival := s.owners[i].value;
  }

  /** One rival for each failed attempt. */
  lemma RivalsOf(s: State, r: nat, ground: nat) returns (rivals: seq<nat>)
    requires Inv(s, ground) && r < |s.requests|
    ensures |rivals| == |s.requests[r].lost|
    ensures forall k :: 0 <= k < |rivals| ==> Matched(s, r, s.requests[r].lost[k], rivals[k])
  {
    rivals := [];
    for k := 0 to |s.requests[r].lost|
      invariant |rivals| == k && forall j :: 0 <= j < k ==> Matched(s, r, s.requests[r].lost[j], rivals[j])
    {
      var rival := RivalOf(s, r, k, ground);
      rivals := rivals + [rival];
    }
  }

  lemma RivalsDiffer(s: State, r: nat, lost: seq<Loss>, rivals: seq<nat>)
    requires r < |s.requests| && LossesOk(lost, s.ids, 0) && |rivals| == |lost|
    requires forall k :: 0 <= k < |lost| ==> Matched(s, r, lost[k], rivals[k])
    ensures Distinct(rivals)
  {
    forall k, l | 0 <= k < l < |lost| ensures rivals[k] != rivals[l] {
      LossesDiffer(lost[k], lost[l], s.ids);
      assert Matched(s, r, lost[k], rivals[k]) && Matched(s, r, lost[l], rivals[l]);
    }
  }

  /** Each failed attempt of a request, however requests interleave and whatever has become
      of this one, is matched by a different other request's commit of the id it lost, made in
      that attempt's own window; and the windows come one after the other. */
  lemma LossesAreRivalsCommits(ids: seq<string>, actions: seq<Action>, r: nat) returns (rivals: seq<nat>)
    requires Distinct(ids) && r < |Run(Start(ids), actions).requests|
    ensures var s := Run(Start(ids), actions);
            var q := s.requests[r];
            && |rivals| == |q.lost| && Distinct(rivals)
            && LossesOk(q.lost, s.ids, q.began)
            && forall k :: 0 <= k < |q.lost| ==> Matched(s, r, q.lost[k], rivals[k])
  {
    RunKeeps(Start(ids), actions, |ids|);
    var s := Run(Start(ids), actions);
    assert RequestOk(s.requests[r], s.ids, |ids|);
    rivals := RivalsOf(s, r, |ids|);
    RivalsDiffer(s, r, s.requests[r].lost, rivals);
  }

  lemma LossesDiffer(a: Loss, b: Loss, ids: seq<string>)
    requires LossOk(a, ids) && LossOk(b, ids) && a.failed <= b.looked
    ensures a.id != b.id
  {
    var i :| 0 <= i < a.failed - a.looked && ids[a.looked..a.failed][i] == a.id;
    assert ids[..b.looked][a.looked + i] == a.id;
  }

  /** A minting request gives up only after five attempts of which this is true: five
      different requests have inserted five different ids since it began. */
  lemma GivingUpTakesFiveRivals(ids: seq<string>, actions: seq<Action>, r: nat) returns (rivals: seq<nat>)
    requires Distinct(ids)
    requires var s := Run(Start(ids), actions); r < |s.requests| && s.requests[r].outcome == GaveUp
    ensures var s := Run(Start(ids), actions);
            var q := s.requests[r];
            && |rivals| == |q.lost| == 5 && Distinct(rivals) && r !in rivals
            && forall k :: 0 <= k < 5 ==> Matched(s, r, q.lost[k], rivals[k]) && q.began <= q.lost[k].looked
  {
    rivals := LossesAreRivalsCommits(ids, actions, r);
    RunKeeps(Start(ids), actions, |ids|);
    var s := Run(Start(ids), actions);
    assert RequestOk(s.requests[r], s.ids, |ids|);
  }

  /** With no insert between its look and its own, a minting request succeeds. */
  /** The id is of this subject and some day, numbered from `minSeq` on. */
  ghost predicate MintedFor(id: string, subject: string, minSeq: nat) {
    exists day :: MintedUnder(id, Prefix(subject, day)) && NumberOf(id, Prefix(subject, day)) >= minSeq
  }

  ghost predicate MintOk(q: Request) {
    q.extId.None? ==>
      && (q.proposal.Some? ==> MintedFor(q.proposal.value.id, q.subject, q.minSeq))
      && (q.outcome.Created? ==> MintedFor(q.outcome.id, q.subject, q.minSeq))
  }

  /** What a request asked for: its id, its subject, its least number. */
  ghost predicate Asked(q: Request, extId: Option<string>, subject: string, minSeq: nat) {
    q.extId == extId && q.subject == subject && q.minSeq == minSeq
  }

  lemma StaysAsked(s: State, a: Action, r: nat, extId: Option<string>, subject: string, minSeq: nat)
    requires r < |s.requests| && Asked(s.requests[r], extId, subject, minSeq) && MintOk(s.requests[r])
    ensures r < |Step(s, a).requests| && Asked(Step(s, a).requests[r], extId, subject, minSeq) && MintOk(Step(s, a).requests[r])
  {
    var q := s.requests[r];
    if a.Look? && a.r == r && Step(s, a) != s && q.extId.None? {
      NextIdIsFresh(s.ids, subject, a.day, minSeq);
      assert MintedUnder(NextId(s.ids, subject, a.day, minSeq), Prefix(subject, a.day));
    }
  }

  lemma {:induction false} RunStaysAsked(s: State, actions: seq<Action>, r: nat, extId: Option<string>, subject: string, minSeq: nat)
    requires r < |s.requests| && Asked(s.requests[r], extId, subject, minSeq) && MintOk(s.requests[r])
    ensures var e := Run(s, actions);
            r < |e.requests| && Asked(e.requests[r], extId, subject, minSeq) && MintOk(e.requests[r])
    decreases |actions|
  {
    if actions != [] {
      StaysAsked(s, actions[0], r, extId, subject, minSeq);
      RunStaysAsked(Step(s, actions[0]), actions[1..], r, extId, subject, minSeq);
    }
  }

  /** Whatever happens after a request began, the id it mints is of its own subject and numbered
      from its own `min_seq` on. */
  lemma MintsWhatWasAsked(s: State, subject: string, minSeq: nat, later: seq<Action>)
    requires minSeq >= 1
    ensures var e := Run(Step(s, Begin(None, subject, minSeq)), later);
            var r := |s.requests|;
            && r < |e.requests|
            && (e.requests[r].outcome.Created? ==> MintedFor(e.requests[r].outcome.id, subject, minSeq))
  {
    RunStaysAsked(Step(s, Begin(None, subject, minSeq)), later, |s.requests|, None, subject, minSeq);
  }

  /** A request that names its id proposes that id and no other, is never tried again, and is
      taken only if the table holds the id; a request that names none is never taken. */
  predicate NamedOk(q: Request, ids: seq<string>) {
    && (q.extId.Some? ==>
          && q.lost == [] && q.outcome != GaveUp
          && (q.proposal.Some? ==> q.proposal.value.id == q.extId.value)
          && (q.outcome.Created? ==> q.outcome.id == q.extId.value))
    && (q.outcome == Taken ==> q.extId.Some? && q.extId.value in ids)
  }

  lemma NamedStaysOk(s: State, a: Action, r: nat)
    requires forall k :: 0 <= k < |s.requests| ==> NamedOk(s.requests[k], s.ids)
    requires r < |Step(s, a).requests|
    ensures NamedOk(Step(s, a).requests[r], Step(s, a).ids)
  {
    if r < |s.requests| {
      assert NamedOk(s.requests[r], s.ids);
    }
  }

  lemma {:induction false} NamedRunStaysOk(s: State, actions: seq<Action>)
    requires forall k :: 0 <= k < |s.requests| ==> NamedOk(s.requests[k], s.ids)
    ensures forall k :: 0 <= k < |Run(s, actions).requests| ==> NamedOk(Run(s, actions).requests[k], Run(s, actions).ids)
    decreases |actions|
  {
    if actions != [] {
      var next := Step(s, actions[0]);
      forall k | 0 <= k < |next.requests| ensures NamedOk(next.requests[k], next.ids) {
        NamedStaysOk(s, actions[0], k);
      }
      NamedRunStaysOk(next, actions[1..]);
    }
  }

  lemma NamedInsert(s: State, r: nat, id: string)
    requires r < |s.requests| && NamedOk(s.requests[r], s.ids) && s.requests[r].extId == Some(id)
    requires s.requests[r].proposal.Some?
    ensures var after := Step(s, Insert(r));
            && after.requests[r].outcome == (if id in s.ids then Taken else Created(id))
            && after.ids == if id in s.ids then s.ids else s.ids + [id]
  {
  }

  /** However requests interleave, a request that names its id ends as created under that id or
      as taken, its insert deciding which by whether the table holds the id; and no request that
      names none is ever taken. */
  lemma NamedRequests(ids: seq<string>, actions: seq<Action>, r: nat)
    requires r < |Run(Start(ids), actions).requests|
    ensures var s := Run(Start(ids), actions);
            var q := s.requests[r];
            && NamedOk(q, s.ids)
            && (q.extId.Some? && q.proposal.Some? ==>
                  var after := Step(s, Insert(r));
                  && after.requests[r].outcome == (if q.extId.value in s.ids then Taken else Created(q.extId.value))
                  && after.ids == if q.extId.value in s.ids then s.ids else s.ids + [q.extId.value])
  {
    NamedRunStaysOk(Start(ids), actions);
    var s := Run(Start(ids), actions);
    if s.requests[r].extId.Some? && s.requests[r].proposal.Some? {
      NamedInsert(s, r, s.requests[r].extId.value);
    }
  }

  lemma UndisturbedMintSucceeds(s: State, r: nat, day: string)
    requires r < |s.requests| && s.requests[r].outcome == Trying && s.requests[r].proposal == None
    requires s.requests[r].minSeq >= 1 && s.requests[r].extId == None
    ensures var q := s.requests[r];
            var after := Step(Step(s, Look(r, day)), Insert(r));
            && after.requests[r].outcome == Created(NextId(s.ids, q.subject, day, q.minSeq))
            && after.ids == s.ids + [after.requests[r].outcome.id]
  {
    NextIdIsFresh(s.ids, s.requests[r].subject, day, s.requests[r].minSeq);
  }

  /** From the request on: with nobody else about, the table gains the next id. */
  lemma UndisturbedRequest(ids: seq<string>, subject: string, day: string, minSeq: nat)
    requires minSeq >= 1
    ensures Run(Start(ids), [Begin(None, subject, minSeq), Look(0, day), Insert(0)]).ids
            == ids + [NextId(ids, subject, day, minSeq)]
  {
    var begun := Step(Start(ids), Begin(None, subject, minSeq));
    var looked := Step(begun, Look(0, day));
    UndisturbedMintSucceeds(begun, 0, day);
    assert [Begin(None, subject, minSeq), Look(0, day), Insert(0)][1..] == [Look(0, day), Insert(0)];
    assert [Look(0, day), Insert(0)][1..] == [Insert(0)] && [Insert(0)][1..] == [];
    assert Run(looked, [Insert(0)]) == Run(Step(looked, Insert(0)), []);
  }

  // ---- the retry loop of one request ----

  /** What the table holds once other requests have committed those of `more` they could. */
  function Joined(ids: seq<string>, more: seq<string>): (r: seq<string>)
    requires Distinct(ids)
    ensures Distinct(r) && ids <= r
    ensures forall id :: id in r <==> id in ids || id in more
    decreases |more|
  {
    if more == [] then ids
    else
      assert forall id :: id in more <==> id == more[0] || id in more[1..];
      Joined(if more[0] in ids then ids else ids + [more[0]], more[1..])
  }

  lemma FreshAgainstEarlier(ids: seq<string>, was: seq<string>, subject: string, day: string, minSeq: nat)
    requires minSeq >= 1 && was <= ids
    ensures var prefix, id := Prefix(subject, day), NextId(ids, subject, day, minSeq);
            && id !in ids && id !in was
            && MintedUnder(id, prefix) && Above(NumberOf(id, prefix), was, prefix, minSeq)
  {
    NextIdIsFresh(ids, subject, day, minSeq);
    var prefix := Prefix(subject, day);
    forall id | id in was ensures id in ids {
      var i :| 0 <= i < |was| && was[i] == id;
      assert ids[i] == id;
    }
    AboveIgnoresOrder(ids, was, prefix, minSeq, NumberOf(NextId(ids, subject, day, minSeq), prefix));
  }

  /** Each attempt lost its id to one the others committed during that very attempt. */
  ghost predicate LostTo(lost: seq<string>, was: seq<string>, rivals: seq<seq<string>>, subject: string, days: seq<string>)
    requires |lost| <= |rivals| == |days|
  {
    forall k :: 0 <= k < |lost| ==>
      lost[k] in rivals[k] && lost[k] !in was && MintedUnder(lost[k], Prefix(subject, days[k]))
  }

  class RunTable {
    var ids: seq<string>

    constructor ()
      ensures ids == []
    {
      ids := [];
    }

    /** One attempt: propose an id, the request's own or the next one, while others commit
        `rivals`, and insert it if it is still free. */
    method Attempt(extId: Option<string>, subject: string, minSeq: nat, day: string, rivals: seq<string>, ghost was: seq<string>)
      returns (id: string, won: bool)
      requires minSeq >= 1 && Distinct(ids) && was <= ids
      modifies this
      ensures Distinct(ids) && old(ids) <= ids
      ensures forall x :: x in ids <==> x in old(ids) || x in rivals || (won && x == id)
      ensures won ==> ids != [] && ids[|ids| - 1] == id && id !in old(ids) && id !in rivals
      ensures !won ==> id in old(ids) || id in rivals
      ensures extId.Some? ==> id == extId.value
      ensures extId.None? ==>
                && id !in old(ids) && id !in was && MintedUnder(id, Prefix(subject, day))
                && Above(NumberOf(id, Prefix(subject, day)), was, Prefix(subject, day), minSeq)
    {
      FreshAgainstEarlier(ids, was, subject, day, minSeq);
      id := if extId.Some? then extId.value else NextId(ids, subject, day, minSeq);
      ids := Joined(ids, rivals);
      won := id !in ids;
      if won {
        ids := ids + [id];
      }
    }

    /** `create_run_doc`, as far as ids go. `days[k]` is the date at the k-th attempt and
        `rivals[k]` what others commit between its look and its insert. */
    method CreateRun(extId: Option<string>, subject: string, minSeq: nat, days: seq<string>, rivals: seq<seq<string>>)
      returns (r: Result<string, nat>, ghost lost: seq<string>)
      requires minSeq >= 1 && |days| == |rivals| == ATTEMPTS && Distinct(ids)
      modifies this
      ensures Distinct(ids) && old(ids) <= ids
      ensures r.Ok? ==> ids != [] && ids[|ids| - 1] == r.value && r.value !in old(ids)
      ensures r.Ok? && extId.None? ==>
                exists k :: 0 <= k < ATTEMPTS && MintedUnder(r.value, Prefix(subject, days[k]))
                            && Above(NumberOf(r.value, Prefix(subject, days[k])), old(ids), Prefix(subject, days[k]), minSeq)
      ensures extId.Some? ==> (if extId.value in old(ids) || extId.value in rivals[0] then r == Err(409) else r == Ok(extId.value))
      ensures extId.None? && r.Err? ==>
                r == Err(409) && |lost| == ATTEMPTS && Distinct(lost) && LostTo(lost, old(ids), rivals, subject, days)
    {
      lost := [];
      for attempt := 0 to ATTEMPTS
        invariant Distinct(ids) && old(ids) <= ids
        invariant extId.Some? ==> attempt == 0 && ids == old(ids)
        invariant |lost| == attempt && Distinct(lost) && LostTo(lost, old(ids), rivals, subject, days)
        invariant forall k :: 0 <= k < attempt ==> lost[k] in ids
      {
        var id, won := Attempt(extId, subject, minSeq, days[attempt], rivals[attempt], old(ids));
        if won {
          return Ok(id), lost;
        }
        if extId.Some? {
          return Err(409), lost;
        }
        lost := lost + [id];
      }
      return Err(409), lost;
    }
  }
}
