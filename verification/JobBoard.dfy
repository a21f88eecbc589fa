/**
 * The job board of server/src/db/job-store.ts: a leased work queue over one organization's rows.
 *
 * Every SQL statement is one atomic step. Its effect on the table is a function of the table
 * (`Swept`, `ClaimedRow`, ...), and the class `JobStore` performs those steps in place. The
 * guarantees that span steps are proved in Protocol.dfy and Liveness.dfy about the same functions.
 */
module JobBoard {
  import opened Common

  type JobId = nat

  // gen_random_uuid(): never repeats, so a serial number stands for the uuid.
  type Token = nat

  // An agent session's uuid, minted at most once by a run and hence named by that run's token.
  datatype Session = Session(mintedBy: Token)

  datatype Status = Queued | Running | Standby | Succeeded | Failed | Dead
  datatype JobOutcome = RunSucceeded | RunFailed
  datatype LeaseResult = Ok | Lost | Missing
  datatype ResumeResult = Requeued | Conflict | Absent

  datatype Row = Row(
    command: string,
    createdBy: Option<string>,
    createdAt: int,
    status: Status,
    attempts: nat,
    maxAttempts: nat,
    claimedBy: Option<string>,
    leaseToken: Option<Token>,
    leaseExpiresAt: int,
    sessionId: Option<Session>,
    remoteSessionId: Option<string>,
    exitCode: Option<int>,
    output: Option<string>,
    startedAt: Option<int>,
    finishedAt: Option<int>)

  type Table = map<JobId, Row>

  const DEFAULT_MAX_ATTEMPTS: nat := 3

  /** The answer to a claim that found a job. */
  datatype Claim = Claim(
    id: JobId,
    command: string,
    attempts: nat,
    leaseToken: Token,
    leaseExpiresAt: int,
    userId: Option<string>,
    resumeSessionId: Option<Session>)

  // ----- The statements, as functions of the row they touch -----

  function NewRow(command: string, createdBy: Option<string>, now: int, maxAttempts: nat): Row {
    Row(command, createdBy, now, Queued, 0, maxAttempts, None, None, now,
        None, None, None, None, None, None)
  }

  predicate Final(s: Status) {
    s.Succeeded? || s.Failed? || s.Dead?
  }

  predicate Expired(r: Row, now: int) {
    r.leaseExpiresAt <= now
  }

  predicate Claimable(r: Row, now: int) {
    (r.status.Queued? || r.status.Running?) && Expired(r, now) && r.attempts < r.maxAttempts
  }

  /** Out of attempts and out of time: what the sweep at the head of a claim retires. */
  predicate Burned(r: Row, now: int) {
    r.status.Running? && Expired(r, now) && r.attempts >= r.maxAttempts
  }

  function Retired(r: Row, now: int): Row {
    r.(status := Dead, finishedAt := Some(now), leaseToken := None)
  }

  function Swept(t: Table, now: int): Table {
    map id | id in t :: if Burned(t[id], now) then Retired(t[id], now) else t[id]
  }

  function ClaimedRow(r: Row, worker: string, token: Token, now: int, secs: int): Row {
    r.(status := Running,
       claimedBy := Some(worker),
       leaseToken := Some(token),
       attempts := r.attempts + 1,
       startedAt := Some(now),
       sessionId := if r.status.Queued? then r.sessionId else None,
       remoteSessionId := if r.status.Queued? then r.remoteSessionId else None,
       leaseExpiresAt := now + secs)
  }

  function ExtendedRow(r: Row, now: int, secs: int): Row {
    r.(leaseExpiresAt := now + secs)
  }

  function RecordedRow(r: Row, session: Session, remote: Option<string>): Row {
    r.(sessionId := Some(session),
       remoteSessionId := if remote.Some? then remote else r.remoteSessionId)
  }

  function ParkedRow(r: Row, now: int): Row {
    r.(status := Standby,
       leaseToken := None,
       leaseExpiresAt := now,
       attempts := if r.attempts >= 1 then r.attempts - 1 else 0)
  }

  function ResumedRow(r: Row): Row {
    r.(status := Queued)
  }

  function CompletedRow(r: Row, outcome: JobOutcome, exitCode: Option<int>, output: Option<string>, now: int): Row {
    r.(status := if outcome.RunSucceeded? then Succeeded else Failed,
       exitCode := exitCode,
       output := output,
       finishedAt := Some(now),
       leaseToken := None)
  }

  /** The where-clause every worker write carries. */
  predicate Holds(t: Table, id: JobId, token: Token) {
    id in t && t[id].status.Running? && t[id].leaseToken == Some(token)
  }

  function Verdict(t: Table, id: JobId, token: Token): LeaseResult {
    if Holds(t, id, token) then Ok else if id in t then Lost else Missing
  }

  // ----- order by created_at, id limit 1 for update skip locked -----

  predicate Older(t: Table, a: JobId, b: JobId)
    requires a in t && b in t
  {
    t[a].createdAt < t[b].createdAt || (t[a].createdAt == t[b].createdAt && a < b)
  }

  /** `locked` are the rows other claimers hold at this moment; they are skipped, not waited for. */
  predicate Offered(t: Table, now: int, locked: set<JobId>, id: JobId) {
    id in t && id !in locked && Claimable(t[id], now)
  }

  predicate IsOldest(t: Table, now: int, locked: set<JobId>, id: JobId) {
    Offered(t, now, locked, id)
    && forall o | o in t && Offered(t, now, locked, o) :: o == id || Older(t, id, o)
  }

  // ----- What every statement keeps -----

  predicate RowOk(r: Row, now: int) {
    && 1 <= r.maxAttempts
    && r.attempts <= r.maxAttempts
    && (r.leaseToken.Some? <==> r.status.Running?)
    && (r.status.Running? ==> 1 <= r.attempts)
    && (r.status.Queued? || r.status.Standby? ==> Expired(r, now) && r.attempts < r.maxAttempts)
  }

  ghost predicate BoardOk(t: Table, now: int, nextToken: Token) {
    && (forall id | id in t :: RowOk(t[id], now))
    && (forall id | id in t && t[id].leaseToken.Some? :: t[id].leaseToken.value < nextToken)
    && (forall a, b | a in t && b in t && t[a].leaseToken.Some? && t[a].leaseToken == t[b].leaseToken :: a == b)
  }

  /**
   * A well-formed board offers every queued row at once, and no row that is parked or finished; a running one
   * when its lease is out and attempts are left. A row that somebody holds locked is passed over.
   */
  lemma OfferedRows(t: Table, now: int, nextToken: Token, locked: set<JobId>, id: JobId)
    requires BoardOk(t, now, nextToken) && id in t
    ensures t[id].status.Queued? ==> (Offered(t, now, locked, id) <==> id !in locked)
    ensures t[id].status.Standby? || t[id].status in {Succeeded, Failed, Dead} ==> !Offered(t, now, locked, id)
    ensures t[id].status.Running? ==>
      (Offered(t, now, locked, id) <==>
        id !in locked && t[id].leaseExpiresAt <= now && t[id].attempts < t[id].maxAttempts)
    ensures (exists token :: Holds(t, id, token)) <==> t[id].status.Running?
  {
    assert RowOk(t[id], now);
    if t[id].status.Running? {
      assert Holds(t, id, t[id].leaseToken.value);
    }
  }

  /** A worker is told ok exactly when its token is the row's, lost when it is not, and missing when there is no row. */
  lemma VerdictTellsTheHolder(t: Table, now: int, nextToken: Token, id: JobId, token: Token)
    requires BoardOk(t, now, nextToken)
    ensures Verdict(t, id, token).Ok? <==> id in t && t[id].leaseToken == Some(token)
    ensures Verdict(t, id, token).Missing? <==> id !in t
    ensures forall o | Verdict(t, o, token).Ok? && Verdict(t, id, token).Ok? :: o == id
  {
    if id in t {
      assert RowOk(t[id], now);
    }
  }

  /** First in, first out: at most one row is the oldest, and one exists whenever any is offered. */
  lemma {:induction false} OldestExists(t: Table, pool: set<JobId>) returns (id: JobId)
    requires pool <= t.Keys && pool != {}
    ensures id in pool && NoneOlder(t, pool, id)
    decreases |pool|
  {
    id :| id in pool;
    var rest := pool - {id};
    if rest != {} {
      var m := OldestExists(t, rest);
      OlderOfTwo(t, pool, id, m);
      id := if Older(t, id, m) then id else m;
    } else {
      assert forall o | o in pool :: o == id || o in rest;
    }
  }

  predicate NoneOlder(t: Table, pool: set<JobId>, id: JobId)
    requires pool <= t.Keys && id in pool
  {
    forall o | o in pool :: o == id || Older(t, id, o)
  }

  lemma OlderOfTwo(t: Table, pool: set<JobId>, x: JobId, m: JobId)
    requires pool <= t.Keys && x in pool && m in pool - {x} && NoneOlder(t, pool - {x}, m)
    ensures NoneOlder(t, pool, if Older(t, x, m) then x else m)
  {
    assert forall o | o in pool :: o == x || o in pool - {x};
  }

  lemma ClaimFindsWork(t: Table, now: int, locked: set<JobId>)
    requires exists id :: Offered(t, now, locked, id)
    ensures exists id :: IsOldest(t, now, locked, id)
    ensures forall a, b | IsOldest(t, now, locked, a) && IsOldest(t, now, locked, b) :: a == b
    ensures forall a, b | IsOldest(t, now, locked, a) && b != a && Offered(t, now, locked, b) ::
      t[a].createdAt < t[b].createdAt || (t[a].createdAt == t[b].createdAt && a < b)
  {
    var pool := set id | id in t && Offered(t, now, locked, id);
    var some :| Offered(t, now, locked, some);
    assert some in pool;
    var best := OldestExists(t, pool);
    assert forall o | o in t && Offered(t, now, locked, o) :: o in pool;
    assert IsOldest(t, now, locked, best);
  }

  /** The store itself: each method is one statement (`Claim` is two). */
  class JobStore {
    var rows: Table
    var now: int
    var nextToken: Token

    ghost predicate Valid()
      reads this
    {
      BoardOk(rows, now, nextToken)
    }

    constructor (start: int)
      ensures Valid() && rows == map[] && now == start
    {
      rows, now, nextToken := map[], start, 0;
    }

    method Tick(elapsed: nat)
      requires Valid()
      modifies this`now
      ensures Valid() && now == old(now) + elapsed
    {
      now := now + elapsed;
    }

    method Create(id: JobId, command: string, createdBy: Option<string>)
      requires Valid() && id !in rows
      modifies this`rows
      ensures Valid()
      ensures rows == old(rows)[id := NewRow(command, createdBy, now, DEFAULT_MAX_ATTEMPTS)]
      ensures Offered(rows, now, {}, id)
      ensures rows[id].status == Queued && rows[id].attempts == 0 && rows[id].maxAttempts == DEFAULT_MAX_ATTEMPTS
      ensures rows[id].command == command && rows[id].createdBy == createdBy && rows[id].createdAt == now
      ensures rows[id].leaseToken.None? && rows[id].sessionId.None?
    {
      rows := rows[id := NewRow(command, createdBy, now, DEFAULT_MAX_ATTEMPTS)];
    }

    method Sweep()
      requires Valid()
      modifies this`rows
      ensures Valid()
      ensures rows.Keys == old(rows).Keys
      ensures rows == Swept(old(rows), now)
      ensures forall id | id in rows ::
        var was := old(rows)[id];
        rows[id] ==
          if was.status.Running? && was.leaseExpiresAt <= now && was.attempts >= was.maxAttempts
          then was.(status := Dead, finishedAt := Some(now), leaseToken := None) else was
      ensures forall id | id in rows :: !Burned(rows[id], now)
    {
      rows := Swept(rows, now);
    }

    /** The ordered scan under the claim: the oldest row on offer, or none when nothing is. */
    method SelectOldest(locked: set<JobId>) returns (pick: Option<JobId>)
      ensures pick.Some? ==> IsOldest(rows, now, locked, pick.value)
      ensures pick.None? ==> forall id | id in rows :: !Offered(rows, now, locked, id)
    {
      pick := None;
      var todo := rows.Keys;
      while todo != {}
        invariant todo <= rows.Keys
        invariant pick.None? ==> forall id | id in rows.Keys - todo :: !Offered(rows, now, locked, id)
        invariant pick.Some? ==> pick.value in rows && Offered(rows, now, locked, pick.value)
        invariant pick.Some? ==> forall o | o in rows.Keys - todo && Offered(rows, now, locked, o) ::
          o == pick.value || Older(rows, pick.value, o)
        decreases |todo|
      {
        var id :| id in todo;
        todo := todo - {id};
        if Offered(rows, now, locked, id) && (pick.None? || Older(rows, id, pick.value)) {
          pick := Some(id);
        }
      }
    }

    method ClaimNext(worker: string, secs: int, locked: set<JobId>) returns (claim: Option<Claim>)
      requires Valid()
      modifies this`rows, this`nextToken
      ensures Valid()
      ensures claim.None? ==>
        && rows == Swept(old(rows), now) && nextToken == old(nextToken)
        && forall id | id in rows :: !Offered(rows, now, locked, id)
      ensures claim.Some? ==>
        var c, was := claim.value, Swept(old(rows), now);
        && IsOldest(was, now, locked, c.id)
        && c.leaseToken == old(nextToken) && nextToken == old(nextToken) + 1
        && rows == was[c.id := ClaimedRow(was[c.id], worker, c.leaseToken, now, secs)]
        && rows[c.id] == was[c.id].(
          status := Running, claimedBy := Some(worker), leaseToken := Some(c.leaseToken), leaseExpiresAt := now + secs,
          attempts := was[c.id].attempts + 1, startedAt := Some(now), sessionId := c.resumeSessionId,
          remoteSessionId := if was[c.id].status.Queued? then was[c.id].remoteSessionId else None)
        && c.command == rows[c.id].command && c.attempts == rows[c.id].attempts
        && c.leaseExpiresAt == now + secs && c.userId == rows[c.id].createdBy
        && c.resumeSessionId == (if was[c.id].status.Queued? then was[c.id].sessionId else None)
    {
      Sweep();
      var pick := SelectOldest(locked);
      if pick.None? {
        return None;
      }
      var leased := Lease(pick.value, worker, secs);
      claim := Some(leased);
    }

    /** The update under the claim, and the row it returns. */
    method Lease(id: JobId, worker: string, secs: int) returns (c: Claim)
      requires Valid() && id in rows && Claimable(rows[id], now)
      modifies this`rows, this`nextToken
      ensures Valid() && nextToken == old(nextToken) + 1
      ensures rows == old(rows)[id := ClaimedRow(old(rows)[id], worker, old(nextToken), now, secs)]
      ensures c == Claim(id, rows[id].command, rows[id].attempts, old(nextToken), now + secs, rows[id].createdBy,
                         rows[id].sessionId)
    {
      assert RowOk(rows[id], now);
      var row := ClaimedRow(rows[id], worker, nextToken, now, secs);
      rows := rows[id := row];
      nextToken := nextToken + 1;
      c := Claim(id, row.command, row.attempts, row.leaseToken.value, row.leaseExpiresAt, row.createdBy, row.sessionId);
    }

    method Heartbeat(id: JobId, token: Token, secs: int) returns (result: LeaseResult, expiresAt: Option<int>)
      requires Valid()
      modifies this`rows
      ensures Valid()
      ensures result == Verdict(old(rows), id, token)
      ensures expiresAt == if result.Ok? then Some(now + secs) else None
      ensures rows == if result.Ok? then old(rows)[id := ExtendedRow(old(rows)[id], now, secs)] else old(rows)
      ensures result.Ok? ==> rows[id] == old(rows)[id].(leaseExpiresAt := now + secs)
    {
      result, expiresAt := Verdict(rows, id, token), None;
      if result.Ok? {
        rows := rows[id := ExtendedRow(rows[id], now, secs)];
        expiresAt := Some(rows[id].leaseExpiresAt);
      }
    }

    method RecordSession(id: JobId, token: Token, session: Session, remote: Option<string>)
      returns (result: LeaseResult)
      requires Valid()
      modifies this`rows
      ensures Valid()
      ensures result == Verdict(old(rows), id, token)
      ensures rows == if result.Ok? then old(rows)[id := RecordedRow(old(rows)[id], session, remote)] else old(rows)
      ensures result.Ok? ==>
        rows[id] == old(rows)[id].(sessionId := Some(session), remoteSessionId := rows[id].remoteSessionId)
      ensures result.Ok? && remote.Some? ==> rows[id].remoteSessionId == remote
      ensures result.Ok? && remote.None? ==> rows[id].remoteSessionId == old(rows)[id].remoteSessionId
    {
      result := Verdict(rows, id, token);
      if result.Ok? {
        rows := rows[id := RecordedRow(rows[id], session, remote)];
      }
    }

    method Suspend(id: JobId, token: Token) returns (result: LeaseResult)
      requires Valid()
      modifies this`rows
      ensures Valid()
      ensures result == Verdict(old(rows), id, token)
      ensures rows == if result.Ok? then old(rows)[id := ParkedRow(old(rows)[id], now)] else old(rows)
      // The attempt is handed back exactly: `greatest` never has to clip.
      ensures result.Ok? ==>
        var was := old(rows)[id];
        rows[id] == was.(status := Standby, leaseToken := None, leaseExpiresAt := now, attempts := was.attempts - 1)
      ensures result.Ok? ==> !Offered(rows, now, {}, id)
    {
      result := Verdict(rows, id, token);
      if result.Ok? {
        rows := rows[id := ParkedRow(rows[id], now)];
      }
    }

    method Resume(id: JobId) returns (result: ResumeResult)
      requires Valid()
      modifies this`rows
      ensures Valid()
      ensures result.Requeued? <==> id in old(rows) && old(rows)[id].status.Standby?
      ensures result.Absent? <==> id !in old(rows)
      ensures rows == if result.Requeued? then old(rows)[id := ResumedRow(old(rows)[id])] else old(rows)
      ensures result.Requeued? ==> Offered(rows, now, {}, id) && rows[id] == old(rows)[id].(status := Queued)
    {
      if id in rows && rows[id].status.Standby? {
        rows := rows[id := ResumedRow(rows[id])];
        return Requeued;
      }
      result := if id in rows then Conflict else Absent;
    }

    method Complete(id: JobId, token: Token, outcome: JobOutcome, exitCode: Option<int>, output: Option<string>)
      returns (result: LeaseResult)
      requires Valid()
      modifies this`rows
      ensures Valid()
      ensures result == Verdict(old(rows), id, token)
      ensures rows ==
        if result.Ok? then old(rows)[id := CompletedRow(old(rows)[id], outcome, exitCode, output, now)] else old(rows)
      ensures result.Ok? ==>
        && rows[id].status == (match outcome case RunSucceeded => Succeeded case RunFailed => Failed)
        && rows[id].exitCode == exitCode && rows[id].output == output
        && rows[id].finishedAt == Some(now) && rows[id].leaseToken.None?
        && rows[id].attempts == old(rows)[id].attempts && rows[id].sessionId == old(rows)[id].sessionId
    {
      result := Verdict(rows, id, token);
      if result.Ok? {
        rows := rows[id := CompletedRow(rows[id], outcome, exitCode, output, now)];
      }
    }
  }
}
