/** The notice routines as they run on the table, one call at a time, and their
    agreement with the interleaved steps. */
module NoticeTable {
  import opened Basics
  import opened Notices

  /** What an expiry pass that nothing interrupts makes of the table. */
  function Expired(rows: seq<Notice>, now: Time): (r: seq<Notice>)
    ensures |r| == |rows|
  {
    seq(|rows|, i requires 0 <= i < |rows| =>
      if Overdue(rows[i], now) then rows[i].(status := Failed) else rows[i])
  }

  /** What Python counts as a blank. */
  predicate Blank(c: char) {
    var n := c as int;
    || 0x09 <= n <= 0x0D || 0x1C <= n <= 0x20 || n == 0x85 || n == 0xA0 || n == 0x1680
    || 0x2000 <= n <= 0x200A || n == 0x2028 || n == 0x2029 || n == 0x202F || n == 0x205F || n == 0x3000
  }

  /** The blanks one by one. */
  lemma BlanksAre(c: char)
    ensures Blank(c) <==>
              c as int in {9, 10, 11, 12, 13, 28, 29, 30, 31, 32, 133, 160, 5760, 8192, 8193, 8194, 8195, 8196, 8197,
                           8198, 8199, 8200, 8201, 8202, 8232, 8233, 8239, 8287, 12288}
  {
  }

  /** `strip()`. */
  function Stripped(s: string): string
    decreases |s|
  {
    if s != "" && Blank(s[0]) then Stripped(s[1..])
    else if s != "" && Blank(s[|s| - 1]) then Stripped(s[..|s| - 1])
    else s
  }

  function LowerChar(c: char): char {
    if 'A' <= c <= 'Z' then (c as int + 32) as char else c
  }

  /** `lower()`, on the letters that addresses are made of. */
  function Lower(s: string): (r: string)
    ensures |r| == |s|
  {
    seq(|s|, i requires 0 <= i < |s| => LowerChar(s[i]))
  }

  /** Nothing but blanks outside `s[i..j]`, and no blank at either end of it. */
  predicate BlankAround(s: string, i: nat, j: nat) {
    && i <= j <= |s|
    && (forall k :: 0 <= k < i ==> Blank(s[k]))
    && (forall k :: j <= k < |s| ==> Blank(s[k]))
    && (i < j ==> !Blank(s[i]) && !Blank(s[j - 1]))
  }

  /** `core` is what is left of `s` without the blanks around it. */
  ghost predicate StripsTo(s: string, core: string) {
    exists i: nat, j: nat :: BlankAround(s, i, j) && core == s[i..j]
  }

  lemma BlankBefore(s: string, rest: string, i: nat, j: nat)
    requires s != "" && Blank(s[0]) && rest == s[1..] && BlankAround(rest, i, j)
    ensures BlankAround(s, i + 1, j + 1) && s[i + 1..j + 1] == rest[i..j]
  {
    forall k | 0 < k < |s| ensures s[k] == rest[k - 1] {
    }
  }

  lemma BlankBehind(s: string, rest: string, i: nat, j: nat)
    requires s != "" && Blank(s[|s| - 1]) && rest == s[..|s| - 1] && BlankAround(rest, i, j)
    ensures BlankAround(s, i, j) && s[i..j] == rest[i..j]
  {
    forall k | 0 <= k < |rest| ensures s[k] == rest[k] {
    }
  }

  lemma {:induction false} StrippedStrips(s: string) returns (i: nat, j: nat)
    ensures BlankAround(s, i, j) && Stripped(s) == s[i..j]
    decreases |s|
  {
    if s != "" && Blank(s[0]) {
      var v, w := StrippedStrips(s[1..]);
      BlankBefore(s, s[1..], v, w);
      i, j := v + 1, w + 1;
    } else if s != "" && Blank(s[|s| - 1]) {
      i, j := StrippedStrips(s[..|s| - 1]);
      BlankBehind(s, s[..|s| - 1], i, j);
    } else {
      i, j := 0, |s|;
    }
  }

  lemma StripsToOne(s: string, a: string, b: string)
    requires StripsTo(s, a) && StripsTo(s, b)
    ensures a == b
  {
    var i: nat, j: nat :| BlankAround(s, i, j) && a == s[i..j];
    var v: nat, w: nat :| BlankAround(s, v, w) && b == s[v..w];
    if i < j {
      assert v <= i < w && v <= j - 1 < w;
      assert i <= v < j && i <= w - 1 < j;
    } else if v < w {
      assert false;
    }
  }

  /** `strip()` leaves the one core without blanks around it. */
  lemma StrippedMeans(s: string, core: string)
    ensures Stripped(s) == core <==> StripsTo(s, core)
  {
    var _, _ := StrippedStrips(s);
    if StripsTo(s, core) {
      StripsToOne(s, core, Stripped(s));
    }
  }

  /** The same letter, big or small. */
  predicate SameLetter(c: char, d: char) {
    || c == d
    || ('A' <= c <= 'Z' && d as int == c as int + ('a' as int - 'A' as int))
    || ('A' <= d <= 'Z' && c as int == d as int + ('a' as int - 'A' as int))
  }

  predicate SameLetters(a: string, b: string) {
    |a| == |b| && forall i :: 0 <= i < |a| ==> SameLetter(a[i], b[i])
  }

  lemma LowerMeans(a: string, b: string)
    ensures Lower(a) == Lower(b) <==> SameLetters(a, b)
  {
    if |a| == |b| {
      forall i | 0 <= i < |a| ensures Lower(a)[i] == Lower(b)[i] <==> SameLetter(a[i], b[i]) {
      }
    }
  }

  /** The mailbox is the address, letter case and blanks around the address aside. */
  ghost predicate SameMailbox(mailbox: string, address: string) {
    exists core :: StripsTo(address, core) && SameLetters(mailbox, core)
  }

  lemma SameMailboxMeans(mailbox: string, address: string)
    ensures Lower(mailbox) == Lower(Stripped(address)) <==> SameMailbox(mailbox, address)
  {
    StrippedMeans(address, Stripped(address));
    LowerMeans(mailbox, Stripped(address));
    if core :| StripsTo(address, core) && SameLetters(mailbox, core) {
      StrippedMeans(address, core);
    }
  }

  /** A claim may hand a runner the notice: it reads the agent's mailbox and may hold the
      agent, and where the notice names a mailbox it is that very one, letter case and the
      blanks around the runner's spelling aside. */
  predicate Readable(n: Notice, mailboxes: map<string, string>, mayHold: set<string>) {
    n.agent in mailboxes && n.agent in mayHold
    && (n.mailbox == "" || Lower(n.mailbox) == Lower(Stripped(mailboxes[n.agent])))
  }

  /** How either side capitalises the address makes no difference. */
  lemma CaseIsIgnored(n: Notice, mailboxes: map<string, string>, mayHold: set<string>, address: string)
    requires n.agent in mailboxes && Lower(Stripped(address)) == Lower(Stripped(mailboxes[n.agent]))
    ensures Readable(n, mailboxes, mayHold) <==> Readable(n, mailboxes[n.agent := address], mayHold)
    ensures Readable(n, mailboxes, mayHold) <==> Readable(n.(mailbox := Lower(n.mailbox)), mailboxes, mayHold)
  {
    assert Lower(Lower(n.mailbox)) == Lower(n.mailbox);
  }

  function Eligible(rows: seq<Notice>, mailboxes: map<string, string>, mayHold: set<string>): set<nat> {
    set i: nat | i < |rows| && Readable(rows[i], mailboxes, mayHold)
  }

  function AfterClaim(n: Notice, mailboxes: map<string, string>, mayHold: set<string>, runner: nat, now: Time): Notice {
    if Leasable(n, now) && Readable(n, mailboxes, mayHold)
    then n.(claimedBy := Some(runner), claimedAt := Some(now)) else n
  }

  /** The runner is handed the notice at `now`: it is pending and less than a day old, nobody
      has leased it in the last fifteen minutes, its agent is one the runner reads and may hold,
      and if it names a mailbox that is the runner's address for the agent. */
  ghost predicate HandedOut(n: Notice, mailboxes: map<string, string>, mayHold: set<string>, now: Time) {
    && n.status == Pending && now - n.createdAt <= 24 * HOUR
    && (n.claimedAt.Some? ==> now - n.claimedAt.value > 15 * MINUTE)
    && n.agent in mailboxes && n.agent in mayHold
    && (n.mailbox != "" ==> SameMailbox(n.mailbox, mailboxes[n.agent]))
  }

  lemma HandedOutMeans(n: Notice, mailboxes: map<string, string>, mayHold: set<string>, now: Time)
    ensures HandedOut(n, mailboxes, mayHold, now) <==>
            !Overdue(n, now) && Leasable(n, now) && Readable(n, mailboxes, mayHold)
  {
    if n.agent in mailboxes {
      SameMailboxMeans(n.mailbox, mailboxes[n.agent]);
    }
  }

  lemma {:induction false} LeasedNotices(rows: seq<Notice>, eligible: set<nat>, runner: nat, now: Time, i: nat)
    ensures i in NoticesOf(LeasesGiven(rows, eligible, runner, now)) <==> i < |rows| && i in eligible && Leasable(rows[i], now)
  {
    if rows != [] {
      var k := |rows| - 1;
      LeasedNotices(rows[..k], eligible, runner, now, i);
      assert rows[..k + 1] == rows;
      OneMoreLease(rows, k, eligible, runner, now);
    }
  }

  /** What a claim comes to, row by row. */
  lemma ClaimOutcome(rows: seq<Notice>, mailboxes: map<string, string>, mayHold: set<string>, runner: nat, now: Time, i: nat)
    requires i < |rows|
    ensures var expired := Expired(rows, now);
            var eligible := Eligible(expired, mailboxes, mayHold);
            && (i in NoticesOf(LeasesGiven(expired, eligible, runner, now)) <==> HandedOut(rows[i], mailboxes, mayHold, now))
            && Leased(expired, eligible, runner, now)[i] ==
                 if HandedOut(rows[i], mailboxes, mayHold, now) then rows[i].(claimedBy := Some(runner), claimedAt := Some(now))
                 else expired[i]
  {
    var expired := Expired(rows, now);
    LeasedNotices(expired, Eligible(expired, mailboxes, mayHold), runner, now, i);
    HandedOutMeans(rows[i], mailboxes, mayHold, now);
  }

  lemma ClaimedOnly(rows: seq<Notice>, mailboxes: map<string, string>, mayHold: set<string>, runner: nat, now: Time, i: nat)
    ensures var expired := Expired(rows, now);
            i in NoticesOf(LeasesGiven(expired, Eligible(expired, mailboxes, mayHold), runner, now)) <==>
              i < |rows| && HandedOut(rows[i], mailboxes, mayHold, now)
  {
    if i < |rows| {
      ClaimOutcome(rows, mailboxes, mayHold, runner, now, i);
    } else {
      LeasedNotices(Expired(rows, now), Eligible(Expired(rows, now), mailboxes, mayHold), runner, now, i);
    }
  }

  function NoticesOf(leases: seq<Lease>): seq<nat> {
    seq(|leases|, k requires 0 <= k < |leases| => leases[k].notice)
  }

  class Table {
    var rows: seq<Notice>
    var lastExpiry: Option<Time>

    constructor ()
      ensures rows == [] && lastExpiry == None
    {
      rows := [];
      lastExpiry := None;
    }

    /** `_sender_notice`: settle on a status and record it. */
    method SenderNotice(turn: nat, agent: string, thread: string, replyable: bool, noticesOn: bool,
                        channel: Channel, now: Time) returns (status: Status)
      modifies this`rows
      ensures status == Settle(old(rows), turn, agent, thread, replyable, noticesOn, channel, now)
      ensures var answered := exists n :: n in old(rows) && n.agent == agent && n.thread == thread && n.turn != turn
                                          && n.status in {Sent, Held, Pending} && now - n.createdAt <= 24 * HOUR;
              status == if !replyable || answered then Skipped else if !noticesOn then Held
                        else match channel case Gmail(_) => Pending case Hosted(accepted) => if accepted then Sent else Failed
      ensures |rows| == |old(rows)| + 1
              && rows[|rows| - 1].thread == thread[..if |thread| < 64 then |thread| else 64]
              && rows[|rows| - 1].mailbox == if status == Pending then channel.mailbox else ""
      ensures rows == old(rows) + [Notice(turn, agent, Stored(thread), status, now, MailboxOf(channel, status), None, None)]
    {
      SilencedExactly(rows, turn, agent, thread, now);
      assert thread[..|thread|] == thread;
      if !replyable {
        status := Skipped;
      } else {
        var recent := Recent(turn, agent, thread, now);
        if recent {
          status := Skipped;
        } else if !noticesOn {
          status := Held;
        } else {
          match channel
          case Hosted(accepted) => status := if accepted then Sent else Failed;
          case Gmail(_) => status := Pending;
        }
      }
      rows := rows + [Notice(turn, agent, Stored(thread), status, now, MailboxOf(channel, status), None, None)];
    }

    method Recent(turn: nat, agent: string, thread: string, now: Time) returns (found: bool)
      ensures found <==> Silenced(rows, turn, agent, thread, now)
    {
      for k := 0 to |rows|
        invariant !Silenced(rows[..k], turn, agent, thread, now)
      {
        var n := rows[k];
        if n.agent == agent && n.thread == thread && Counted(n) && n.createdAt >= now - SENDER_WINDOW && n.turn != turn {
          return true;
        }
      }
      assert rows[..|rows|] == rows;
      return false;
    }

    /** `expire`: every pending notice more than a day old ends as failed. */
    method Expire(now: Time) returns (n: nat)
      modifies this`rows
      ensures rows == Expired(old(rows), now)
      ensures n == |OverdueRows(old(rows), now)|
    {
      n := 0;
      ghost var was := rows;
      for k := 0 to |rows|
        invariant PartlyExpired(was, rows, k, now)
        invariant n == |OverdueRows(was[..k], now)|
      {
        OneMoreOverdue(was, k, now);
        OneMoreExpired(was, rows, k, now);
        if Overdue(rows[k], now) {
          rows := rows[k := rows[k].(status := Failed)];
          n := n + 1;
        }
      }
      assert was[..|was|] == was && rows == Expired(was, now);
    }

    /** `maybe_expire`: an expiry no sooner than a minute after the one before. */
    method MaybeExpire(now: Time)
      modifies this`rows, this`lastExpiry
      ensures old(lastExpiry).Some? && now - old(lastExpiry).value < MINUTE ==>
                rows == old(rows) && lastExpiry == old(lastExpiry)
      ensures !(old(lastExpiry).Some? && now - old(lastExpiry).value < MINUTE) ==>
                rows == Expired(old(rows), now) && lastExpiry == Some(now)
    {
      if lastExpiry.Some? && now - lastExpiry.value < MINUTE {
        return;
      }
      lastExpiry := Some(now);
      var _ := Expire(now);
    }

    /** `claim`: expire first, then lease to the runner whatever free notice it may read; a
        runner without mailboxes changes nothing. */
    method Claim(runner: nat, mailboxes: map<string, string>, mayHold: set<string>, now: Time) returns (out: seq<nat>)
      modifies this`rows
      ensures mailboxes == map[] ==> out == [] && rows == old(rows)
      ensures mailboxes != map[] ==>
                var expired := Expired(old(rows), now);
                var eligible := Eligible(expired, mailboxes, mayHold);
                rows == Leased(expired, eligible, runner, now)
                && out == NoticesOf(LeasesGiven(expired, eligible, runner, now))
      ensures |rows| == |old(rows)|
      ensures forall i: nat :: i in out <==> i < |old(rows)| && HandedOut(old(rows)[i], mailboxes, mayHold, now)
    {
      out := [];
      if mailboxes == map[] {
        return;
      }
      ghost var was := rows;
      var _ := Expire(now);
      out := LeaseFree(runner, mailboxes, mayHold, now, Eligible(rows, mailboxes, mayHold));
      forall i: nat ensures i in out <==> i < |was| && HandedOut(was[i], mailboxes, mayHold, now) {
        ClaimedOnly(was, mailboxes, mayHold, runner, now, i);
      }
    }

    /** The loop of `claim` over the pending notices that are free. */
    method LeaseFree(runner: nat, mailboxes: map<string, string>, mayHold: set<string>, now: Time,
                     ghost eligible: set<nat>) returns (out: seq<nat>)
      requires eligible == Eligible(rows, mailboxes, mayHold)
      modifies this`rows
      ensures rows == Leased(old(rows), eligible, runner, now)
      ensures out == NoticesOf(LeasesGiven(old(rows), eligible, runner, now))
    {
      out := [];
      ghost var was := rows;
      for k := 0 to |rows|
        invariant |rows| == |was|
        invariant forall i :: k <= i < |rows| ==> rows[i] == was[i]
        invariant forall i :: 0 <= i < k ==> rows[i] == AfterClaim(was[i], mailboxes, mayHold, runner, now)
        invariant out == NoticesOf(LeasesGiven(was[..k], eligible, runner, now))
      {
        OneMoreLease(was, k, eligible, runner, now);
        var n := rows[k];
        if Leasable(n, now) && Readable(n, mailboxes, mayHold) {
          rows := rows[k := n.(claimedBy := Some(runner), claimedAt := Some(now))];
          out := out + [k];
        }
      }
      assert was[..|was|] == was;
    }

    /** `report`: False when the runner does not hold a pending notice; an outcome that
        is none of the three is an error and changes nothing. */
    method ReportNotice(runner: nat, i: nat, outcome: Status) returns (r: Result<bool, Status>)
      modifies this`rows
      ensures r.Err? <==> !Outcome(outcome)
      ensures r.Ok? ==> (r.value <==>
                i < |old(rows)| && old(rows)[i].status == Pending && old(rows)[i].claimedBy == Some(runner))
      ensures rows == if Outcome(outcome) && i < |old(rows)|
                      then old(rows)[i := Reported(old(rows)[i], runner, outcome)] else old(rows)
    {
      if outcome != Sent && outcome != Skipped && outcome != Failed {
        return Err(outcome);
      }
      if i >= |rows| || rows[i].status != Pending || rows[i].claimedBy != Some(runner) {
        assert i < |rows| ==> rows[i := rows[i]] == rows;
        return Ok(false);
      }
      if outcome != Failed {
        rows := rows[i := rows[i].(status := outcome)];
      } else {
        assert rows[i := rows[i]] == rows;
      }
      return Ok(true);
    }
  }

  lemma OneMoreLease(rows: seq<Notice>, k: nat, eligible: set<nat>, runner: nat, now: Time)
    requires k < |rows|
    ensures NoticesOf(LeasesGiven(rows[..k + 1], eligible, runner, now))
            == NoticesOf(LeasesGiven(rows[..k], eligible, runner, now))
               + (if k in eligible && Leasable(rows[k], now) then [k] else [])
  {
    assert rows[..k + 1][..k] == rows[..k];
  }

  /** The pass has got as far as row `k`. */
  ghost predicate PartlyExpired(was: seq<Notice>, rows: seq<Notice>, k: nat, now: Time) {
    && |rows| == |was|
    && (forall i :: 0 <= i < |was| && i < k ==> rows[i] == Expired(was, now)[i])
    && (forall i :: 0 <= i < |was| && k <= i ==> rows[i] == was[i])
  }

  lemma OneMoreExpired(was: seq<Notice>, rows: seq<Notice>, k: nat, now: Time)
    requires PartlyExpired(was, rows, k, now) && k < |was|
    ensures rows[k] == was[k]
    ensures PartlyExpired(was, if Overdue(was[k], now) then rows[k := rows[k].(status := Failed)] else rows, k + 1, now)
  {
  }

  lemma OneMoreOverdue(rows: seq<Notice>, k: nat, now: Time)
    requires k < |rows|
    ensures OverdueRows(rows[..k + 1], now)
            == OverdueRows(rows[..k], now) + (if Overdue(rows[k], now) then {k} else {})
    ensures k !in OverdueRows(rows[..k], now)
  {
  }

  // ---- agreement with the interleaved steps ----

  function Writes(p: nat, order: seq<nat>): seq<Action> {
    if order == [] then [] else [WriteOne(p, order[0])] + Writes(p, order[1..])
  }

  /** A pass that writes its rows without interruption, in whatever order, leaves the
      table as `Expire` does. */
  lemma {:induction false} WritesExpire(s: State, p: nat, order: seq<nat>)
    requires p < |s.passes|
    requires forall i :: i in s.passes[p].todo ==> i < |s.rows|
    requires forall a, b :: 0 <= a < b < |order| ==> order[a] != order[b]
    requires forall i :: i in order <==> i in s.passes[p].todo
    ensures var r := Run(s, Writes(p, order));
            && |r.rows| == |s.rows|
            && (forall i: nat :: i < |s.rows| ==>
                  r.rows[i] == if i in s.passes[p].todo then s.rows[i].(status := Failed) else s.rows[i])
            && r.leases == s.leases && |r.passes| == |s.passes| && r.passes[p] == s.passes[p].(todo := {})
    decreases |order|
  {
    if order != [] {
      var i := order[0];
      var next := Step(s, WriteOne(p, i));
      assert i in order;
      assert Writes(p, order)[1..] == Writes(p, order[1..]);
      forall j ensures j in order[1..] <==> j in next.passes[p].todo {
        WithoutFirst(order, j);
      }
      WritesExpire(next, p, order[1..]);
    }
  }

  lemma WithoutFirst(order: seq<nat>, j: nat)
    requires order != []
    requires forall a, b :: 0 <= a < b < |order| ==> order[a] != order[b]
    ensures j in order[1..] <==> j in order && j != order[0]
  {
    assert order == [order[0]] + order[1..];
    if j in order[1..] {
      var b :| 0 <= b < |order| - 1 && order[1..][b] == j;
      assert order[0] != order[b + 1];
    }
  }

  /** `expire` and `claim`, run without interruption, are what the class methods say. */
  lemma UninterruptedPass(s: State, order: seq<nat>, claimer: Option<nat>)
    requires forall a, b :: 0 <= a < b < |order| ==> order[a] != order[b]
    requires forall i :: i in order <==> i in OverdueRows(s.rows, s.clock)
    ensures var r := Run(Step(s, StartPass(claimer)), Writes(|s.passes|, order));
            && r.rows == Expired(s.rows, s.clock) && r.leases == s.leases
            && |r.passes| == |s.passes| + 1 && r.passes[|s.passes|] == Pass(s.clock, {}, claimer, false)
  {
    var p := |s.passes|;
    var begun := Step(s, StartPass(claimer));
    assert begun.rows == s.rows && begun.passes[p].todo == OverdueRows(s.rows, s.clock);
    WritesExpire(begun, p, order);
    var rows := Run(begun, Writes(p, order)).rows;
    forall i: nat | i < |rows| ensures rows[i] == Expired(s.rows, s.clock)[i] {
      assert i in OverdueRows(s.rows, s.clock) <==> Overdue(s.rows[i], s.clock);
    }
  }

  lemma UninterruptedClaim(s: State, order: seq<nat>, runner: nat, mailboxes: map<string, string>, mayHold: set<string>)
    requires forall a, b :: 0 <= a < b < |order| ==> order[a] != order[b]
    requires forall i :: i in order <==> i in OverdueRows(s.rows, s.clock)
    ensures var expired := Expired(s.rows, s.clock);
            var eligible := Eligible(expired, mailboxes, mayHold);
            var before := Run(Step(s, StartPass(Some(runner))), Writes(|s.passes|, order));
            var after := Step(before, GiveLeases(|s.passes|, eligible));
            && after.rows == Leased(expired, eligible, runner, s.clock)
            && after.leases == s.leases + LeasesGiven(expired, eligible, runner, s.clock)
  {
    UninterruptedPass(s, order, Some(runner));
  }
}
