/**
 * Why max_attempts exists: a command that keeps killing its worker is retired, and the number of
 * rounds that takes is bounded by the attempts that were left.
 */
module Liveness {
  import opened Common
  import opened JobBoard
  import opened Protocol
  import opened Safety

  predicate Open(r: Row) {
    r.status.Queued? || r.status.Running?
  }

  /** The attempts an open row has left; nothing otherwise. */
  function Left(r: Row): nat {
    if Open(r) && r.attempts < r.maxAttempts then r.maxAttempts - r.attempts else 0
  }

  ghost function TotalLeft(t: Table): nat {
    if t == map[] then 0 else var id :| id in t; Left(t[id]) + TotalLeft(t - {id})
  }

  lemma {:induction false} TotalSplits(t: Table, id: JobId)
    requires id in t
    ensures TotalLeft(t) == Left(t[id]) + TotalLeft(t - {id})
    decreases |t|
  {
    var first :| id in t && first in t && TotalLeft(t) == Left(t[first]) + TotalLeft(t - {first});
    if first != id {
      TotalSplits(t - {first}, id);
      TotalSplits(t - {id}, first);
      assert t - {first} - {id} == t - {id} - {first};
    }
  }

  /** Rows that have no more left than before add up to no more than before. */
  lemma {:induction false} TotalMonotone(t: Table, t': Table)
    requires t.Keys == t'.Keys && forall id | id in t :: Left(t'[id]) <= Left(t[id])
    ensures TotalLeft(t') <= TotalLeft(t)
    decreases |t|
  {
    if t == map[] {
    } else {
      var id :| id in t;
      TotalSplits(t, id);
      TotalSplits(t', id);
      TotalMonotone(t - {id}, t' - {id});
    }
  }

  /** When one row changes, the total moves by what that row moves. */
  lemma TotalMoves(t: Table, t': Table, id: JobId)
    requires t.Keys == t'.Keys && id in t && forall o | o in t && o != id :: Left(t'[o]) == Left(t[o])
    ensures TotalLeft(t') + Left(t[id]) == TotalLeft(t) + Left(t'[id])
  {
    TotalSplits(t, id);
    TotalSplits(t', id);
    TotalMonotone(t - {id}, t' - {id});
    TotalMonotone(t' - {id}, t - {id});
  }

  // ----- No run's end arrives -----

  /**
   * Anything but an accepted suspend or complete, a new job or a resumed one: time passes, any number of
   * drivers sweep and claim side by side, start runs, have sessions recorded and leases extended, are
   * refused, lose messages, and crash.
   */
  predicate Unended(w: World, s: Step) {
    && !s.Create? && !s.Resume?
    && (s.Deliver? && (s.message.Suspend? || s.message.Complete?) ==> !Holds(w.rows, s.message.job, s.message.token))
  }

  predicate NothingEnds(w: World, schedule: seq<Step>)
    decreases |schedule|
  {
    schedule != [] ==> Unended(w, schedule[0]) && NothingEnds(Apply(w, schedule[0]), schedule[1..])
  }

  /** How many of the schedule's claims are accepted. */
  function Claims(w: World, schedule: seq<Step>): nat
    decreases |schedule|
  {
    if schedule == [] then 0
    else
      (if schedule[0].ClaimOldest? && Enabled(w, schedule[0]) then 1 else 0)
      + Claims(Apply(w, schedule[0]), schedule[1..])
  }

  /** An open row stays open or is retired; every other row stays as it is. */
  predicate OnlyRetires(r: Row, r': Row) {
    if Open(r) then Open(r') || r'.status.Dead? else r' == r
  }

  ghost predicate Retiring(t: Table, t': Table) {
    t.Keys == t'.Keys && forall id | id in t :: OnlyRetires(t[id], t'[id])
  }

  lemma RetiringTwice(a: Table, b: Table, c: Table)
    requires Retiring(a, b) && Retiring(b, c)
    ensures Retiring(a, c)
  {
  }

  lemma ClaimKeepsRows(w: World, id: JobId, worker: string, secs: int, locked: set<JobId>)
    requires RowsOk(w.rows, w.now) && IsOldest(w.rows, w.now, locked, id)
    ensures var w' := Apply(w, ClaimOldest(id, worker, secs, locked));
      RowsOk(w'.rows, w'.now) && Retiring(w.rows, w'.rows)
  {
    assert RowOk(w.rows[id], w.now);
  }

  /** An accepted claim uses up one of the attempts left. */
  lemma ClaimSpends(w: World, id: JobId, worker: string, secs: int, locked: set<JobId>)
    requires RowsOk(w.rows, w.now) && IsOldest(w.rows, w.now, locked, id)
    ensures var w' := Apply(w, ClaimOldest(id, worker, secs, locked));
      && RowsOk(w'.rows, w'.now) && Retiring(w.rows, w'.rows)
      && TotalLeft(w'.rows) + 1 == TotalLeft(w.rows)
  {
    ClaimKeepsRows(w, id, worker, secs, locked);
    assert RowOk(w.rows[id], w.now);
    TotalMoves(w.rows, Apply(w, ClaimOldest(id, worker, secs, locked)).rows, id);
  }

  lemma SweepKeepsLeft(w: World)
    requires RowsOk(w.rows, w.now)
    ensures var w' := Apply(w, Sweep);
      && RowsOk(w'.rows, w'.now) && Retiring(w.rows, w'.rows)
      && TotalLeft(w'.rows) == TotalLeft(w.rows)
  {
    var swept := Apply(w, Sweep).rows;
    forall id | id in w.rows
      ensures RowOk(swept[id], w.now) && OnlyRetires(w.rows[id], swept[id]) && Left(swept[id]) == Left(w.rows[id])
    {
      assert RowOk(w.rows[id], w.now);
    }
    TotalMonotone(w.rows, swept);
    TotalMonotone(swept, w.rows);
  }

  /** An accepted heartbeat or session report leaves its row running, with the attempts it had. */
  lemma ReportKeepsLeft(w: World, m: Message)
    requires RowsOk(w.rows, w.now) && Holds(w.rows, m.job, m.token) && (m.Heartbeat? || m.SessionReport?)
    ensures var w' := DoDeliver(w, m);
      && RowsOk(w'.rows, w'.now) && Retiring(w.rows, w'.rows)
      && TotalLeft(w'.rows) == TotalLeft(w.rows)
  {
    DeliverKeepsBoard(w, m);
    TotalMoves(w.rows, DoDeliver(w, m).rows, m.job);
  }

  lemma UnendedStep(w: World, s: Step)
    requires RowsOk(w.rows, w.now) && Unended(w, s)
    ensures var w' := Apply(w, s);
      && RowsOk(w'.rows, w'.now) && Retiring(w.rows, w'.rows)
      && Claims(w, [s]) + TotalLeft(w'.rows) == TotalLeft(w.rows)
  {
    assert [s][1..] == [];
    if s.ClaimOldest? && Enabled(w, s) {
      ClaimSpends(w, s.id, s.worker, s.secs, s.locked);
    } else if s.Sweep? {
      SweepKeepsLeft(w);
    } else if Accepted(w, s) {
      ReportKeepsLeft(w, s.message);
    } else {
      OtherStepsKeepRows(w, s);
    }
  }

  predicate Accepted(w: World, s: Step) { s.Deliver? && Enabled(w, s) && Holds(w.rows, s.message.job, s.message.token) }

  lemma OtherStepsKeepRows(w: World, s: Step)
    requires Unended(w, s) && !s.Sweep? && (s.ClaimOldest? ==> !Enabled(w, s)) && !Accepted(w, s)
    ensures Apply(w, s).rows == w.rows && Apply(w, s).now >= w.now
  {
  }

  /**
   * Over every schedule in which no run's end is accepted, however many drivers claim and whatever rows they
   * hold locked: accepted claims and attempts left add up, open rows stay open or are retired, and no
   * other row is touched. A command that kills its workers is claimed at most as often as it has attempts.
   */
  lemma {:induction false} ClaimsSpendAttempts(w: World, schedule: seq<Step>)
    requires RowsOk(w.rows, w.now) && NothingEnds(w, schedule)
    ensures var w' := Execute(w, schedule);
      && RowsOk(w'.rows, w'.now) && Retiring(w.rows, w'.rows)
      && Claims(w, schedule) + TotalLeft(w'.rows) == TotalLeft(w.rows)
    decreases |schedule|
  {
    if schedule == [] {
    } else {
      var s, w1 := schedule[0], Apply(w, schedule[0]);
      UnendedStep(w, s);
      assert [s][1..] == [] && Claims(w1, []) == 0;
      ClaimsSpendAttempts(w1, schedule[1..]);
      RetiringTwice(w.rows, w1.rows, Execute(w, schedule).rows);
    }
  }

  // ----- Rounds -----

  /** Drivers claim, run and crash in any order; in the end every lease has run out and one of them polls. */
  ghost predicate CrashRound(w: World, w': World) {
    exists schedule :: NothingEnds(w, schedule) && LastPoll(Execute(w, schedule), w')
  }

  ghost predicate LastPoll(w: World, w': World) {
    exists elapsed: nat, worker: string, secs: int ::
      var late := Apply(w, Tick(elapsed));
      && (forall id | id in late.rows && late.rows[id].status.Running? :: Expired(late.rows[id], late.now))
      && PollOnce(Apply(late, Sweep), worker, secs, w')
  }

  ghost predicate PollOnce(w: World, worker: string, secs: int, w': World) {
    if exists id :: Offered(w.rows, w.now, {}, id)
    then exists id :: IsOldest(w.rows, w.now, {}, id) && w' == Apply(w, ClaimOldest(id, worker, secs, {}))
    else w' == w
  }

  /** A row after time has passed and the sweep has run, with nobody having beaten. */
  lemma SweepEffect(r: Row, now: int)
    requires RowOk(r, now) && (r.status.Running? ==> Expired(r, now))
    ensures var r' := if Burned(r, now) then Retired(r, now) else r;
      OnlyRetires(r, r') && Left(r') == Left(r) && (Open(r') ==> Claimable(r', now))
  {
  }

  lemma SweepRound(w: World, elapsed: nat)
    requires RowsOk(w.rows, w.now)
    requires forall id | id in w.rows && w.rows[id].status.Running? :: Expired(w.rows[id], w.now + elapsed)
    ensures var swept := Apply(Apply(w, Tick(elapsed)), Sweep);
      && RowsOk(swept.rows, swept.now) && Retiring(w.rows, swept.rows)
      && forall id | id in w.rows ::
          && Left(swept.rows[id]) == Left(w.rows[id])
          && (Open(swept.rows[id]) ==> Offered(swept.rows, swept.now, {}, id))
  {
    forall id | id in w.rows {
      SweepEffect(w.rows[id], w.now + elapsed);
    }
  }

  lemma PollRound(w: World, worker: string, secs: int, w': World)
    requires RowsOk(w.rows, w.now) && PollOnce(w, worker, secs, w') && exists o :: Offered(w.rows, w.now, {}, o)
    ensures RowsOk(w'.rows, w'.now) && Retiring(w.rows, w'.rows) && TotalLeft(w'.rows) < TotalLeft(w.rows)
  {
    var id :| IsOldest(w.rows, w.now, {}, id) && w' == Apply(w, ClaimOldest(id, worker, secs, {}));
    ClaimSpends(w, id, worker, secs, {});
  }

  lemma NothingOffered(w: World, elapsed: nat)
    requires RowsOk(w.rows, w.now)
    requires forall id | id in w.rows && w.rows[id].status.Running? :: Expired(w.rows[id], w.now + elapsed)
    requires var swept := Apply(Apply(w, Tick(elapsed)), Sweep); !exists id :: Offered(swept.rows, swept.now, {}, id)
    ensures AllClosed(Apply(Apply(w, Tick(elapsed)), Sweep).rows)
  {
    SweepRound(w, elapsed);
  }

  lemma LastPollEffect(w: World, w': World)
    requires RowsOk(w.rows, w.now) && LastPoll(w, w')
    ensures RowsOk(w'.rows, w'.now) && Retiring(w.rows, w'.rows)
    ensures TotalLeft(w'.rows) <= TotalLeft(w.rows)
    ensures TotalLeft(w'.rows) < TotalLeft(w.rows) || AllClosed(w'.rows)
  {
    var elapsed: nat, worker: string, secs: int :|
      var late := Apply(w, Tick(elapsed));
      && (forall id | id in late.rows && late.rows[id].status.Running? :: Expired(late.rows[id], late.now))
      && PollOnce(Apply(late, Sweep), worker, secs, w');
    SweepRound(w, elapsed);
    var swept := Apply(Apply(w, Tick(elapsed)), Sweep);
    TotalMonotone(w.rows, swept.rows);
    if exists o :: Offered(swept.rows, swept.now, {}, o) {
      PollRound(swept, worker, secs, w');
      RetiringTwice(w.rows, swept.rows, w'.rows);
    } else {
      NothingOffered(w, elapsed);
    }
  }

  /** The measure: a round uses up an attempt or leaves nothing open. */
  lemma RoundEffect(w: World, w': World)
    requires RowsOk(w.rows, w.now) && CrashRound(w, w')
    ensures RowsOk(w'.rows, w'.now) && Retiring(w.rows, w'.rows)
    ensures TotalLeft(w'.rows) < TotalLeft(w.rows) || AllClosed(w'.rows)
  {
    var schedule :| NothingEnds(w, schedule) && LastPoll(Execute(w, schedule), w');
    var mid := Execute(w, schedule);
    ClaimsSpendAttempts(w, schedule);
    LastPollEffect(mid, w');
    RetiringTwice(w.rows, mid.rows, w'.rows);
  }

  predicate AllClosed(t: Table) {
    forall id | id in t :: !Open(t[id])
  }

  ghost predicate CrashLoop(ws: seq<World>) {
    |ws| > 0 && forall i | 0 <= i < |ws| - 1 :: CrashRound(ws[i], ws[i + 1])
  }

  lemma {:induction false} ClosedStaysClosed(ws: seq<World>)
    requires CrashLoop(ws) && RowsOk(ws[0].rows, ws[0].now) && AllClosed(ws[0].rows)
    ensures Retiring(ws[0].rows, ws[|ws| - 1].rows) && AllClosed(ws[|ws| - 1].rows)
    decreases |ws|
  {
    if |ws| == 1 {
    } else {
      RoundEffect(ws[0], ws[1]);
      assert forall id | id in ws[0].rows :: OnlyRetires(ws[0].rows[id], ws[1].rows[id]);
      ClosedStaysClosed(ws[1..]);
      RetiringTwice(ws[0].rows, ws[1].rows, ws[|ws| - 1].rows);
    }
  }

  lemma {:induction false} CrashLoopCloses(ws: seq<World>)
    requires CrashLoop(ws) && RowsOk(ws[0].rows, ws[0].now) && |ws| > TotalLeft(ws[0].rows) + 1
    ensures Retiring(ws[0].rows, ws[|ws| - 1].rows) && AllClosed(ws[|ws| - 1].rows)
    decreases |ws|
  {
    RoundEffect(ws[0], ws[1]);
    if AllClosed(ws[1].rows) {
      ClosedStaysClosed(ws[1..]);
    } else {
      CrashLoopCloses(ws[1..]);
    }
    RetiringTwice(ws[0].rows, ws[1].rows, ws[|ws| - 1].rows);
  }

  /**
   * When workers only claim and crash, every job that was queued or running is dead after one round
   * more than the attempts that were left on the board, and no other job is touched.
   */
  lemma CrashLoopRetiresEverything(ws: seq<World>)
    requires CrashLoop(ws) && Reachable(ws[0]) && |ws| > TotalLeft(ws[0].rows) + 1
    ensures var first, last := ws[0].rows, ws[|ws| - 1].rows;
      && last.Keys == first.Keys
      && forall id | id in first :: if Open(first[id]) then last[id].status.Dead? else last[id] == first[id]
  {
    ReachableInv(ws[0]);
    CrashLoopCloses(ws);
    var first, last := ws[0].rows, ws[|ws| - 1].rows;
    assert forall id | id in first :: OnlyRetires(first[id], last[id]) && !Open(last[id]);
  }

  /**
   * Whatever the drivers have done so far, the round can be finished: time outlasts every lease, and a poll
   * finds work if there is any.
   */
  lemma CrashRoundExists(w: World, schedule: seq<Step>, worker: string, secs: int)
    requires NothingEnds(w, schedule)
    ensures exists w' :: LastPoll(Execute(w, schedule), w') && CrashRound(w, w')
  {
    var mid := Execute(w, schedule);
    var elapsed := EnoughTime(mid.rows, mid.now);
    var swept := Apply(Apply(mid, Tick(elapsed)), Sweep);
    if exists o :: Offered(swept.rows, swept.now, {}, o) {
      ClaimFindsWork(swept.rows, swept.now, {});
      var id :| IsOldest(swept.rows, swept.now, {}, id);
      assert PollOnce(swept, worker, secs, Apply(swept, ClaimOldest(id, worker, secs, {})));
      assert LastPoll(mid, Apply(swept, ClaimOldest(id, worker, secs, {})));
    } else {
      assert PollOnce(swept, worker, secs, swept);
      assert LastPoll(mid, swept);
    }
  }

  ghost function EnoughTime(t: Table, now: int): (d: nat)
    ensures forall id | id in t :: Expired(t[id], now + d)
    decreases |t|
  {
    if t == map[] then 0
    else
      var id :| id in t;
      var rest := EnoughTime(t - {id}, now);
      assert forall o | o in t :: o == id || o in t - {id};
      Max(rest, t[id].leaseExpiresAt - now)
  }
}
