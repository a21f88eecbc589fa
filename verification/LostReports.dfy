/**
 * What the resume protocol does not cover: a session report that never arrives. The driver goes on without it
 * (driver/src/loop.ts:154-163), and parking then leaves the board without a session to resume.
 */
module LostReports {
  import opened Common
  import opened JobBoard
  import opened History
  import opened Protocol
  import opened Safety

  const DRIVABLE := Config(ClaudeCode, true, false, "", 60)

  /** Job 0 waits without a session, and the next claim gets token `t`. */
  predicate Waiting(w: World, t: Token) {
    && (forall id | id in w.rows :: id == 0) && 0 in w.rows
    && w.rows[0].status.Queued? && w.rows[0].sessionId.None? && w.rows[0].attempts == 0 && w.rows[0].maxAttempts == 1
    && Expired(w.rows[0], w.now)
    && w.nextToken == t && (forall o | o in w.runs :: o < t)
  }

  /** The run that holds `t` has it, and the board has no session for it. */
  predicate Held(w: World, t: Token) {
    && (forall id | id in w.rows :: id == 0) && Holds(w.rows, 0, t)
    && w.rows[0].sessionId.None? && w.rows[0].attempts == 1 && w.rows[0].maxAttempts == 1
    && w.nextToken == t + 1 && (forall o | o in w.runs :: o <= t)
  }

  predicate Fresh(w: World, t: Token) {
    Held(w, t) && t !in w.runs && t in w.claims && w.claims[t].id == 0 && w.claims[t].resumeSessionId.None?
  }

  predicate Driven(w: World, t: Token) {
    Held(w, t) && t in w.runs && w.runs[t] == Run(0, DRIVABLE, Some(RunSession(Session(t), false)), Working, false)
  }

  function ClaimSteps(t: Token): seq<Step> { [ClaimOldest(0, "a", 60, {})] }
  function StartSteps(t: Token): seq<Step> { [Accept(t, DRIVABLE, true), ReportSession(t), Launch(t)] }
  function ParkSteps(t: Token): seq<Step> { [Finish(t, Idled), Deliver(Suspend(0, t)), Resume(0)] }

  /** One run whose session report never arrives, and that is parked and resumed all the same. */
  function LostRound(t: Token): seq<Step> { ClaimSteps(t) + StartSteps(t) + ParkSteps(t) }

  lemma OneStep(w: World, s: Step)
    ensures Execute(w, [s]) == Apply(w, s)
  {
    assert [s][1..] == [];
  }

  lemma ThreeSteps(w: World, a: Step, b: Step, c: Step)
    ensures Execute(w, [a, b, c]) == Apply(Apply(Apply(w, a), b), c)
  {
    assert [a, b, c][1..] == [b, c] && [b, c][1..] == [c];
    assert Execute(w, [a, b, c]) == Execute(Apply(w, a), [b, c]);
    assert Execute(Apply(w, a), [b, c]) == Execute(Apply(Apply(w, a), b), [c]);
    OneStep(Apply(Apply(w, a), b), c);
  }

  lemma ClaimWaiting(w: World, t: Token)
    requires Waiting(w, t)
    ensures var w' := Execute(w, ClaimSteps(t));
      Fresh(w', t) && forall s :: Deliveries(w'.log, s) == Deliveries(w.log, s)
  {
    OneStep(w, ClaimOldest(0, "a", 60, {}));
    assert IsOldest(w.rows, w.now, {}, 0);
  }

  lemma StartClaimed(w: World, t: Token)
    requires Fresh(w, t)
    ensures var w' := Execute(w, StartSteps(t));
      Driven(w', t) && forall s :: Deliveries(w'.log, s) == Deliveries(w.log, s) + if s == Session(t) then 1 else 0
  {
    ThreeSteps(w, Accept(t, DRIVABLE, true), ReportSession(t), Launch(t));
  }

  lemma ParkDriven(w: World, t: Token)
    requires Driven(w, t)
    ensures var w' := Execute(w, ParkSteps(t));
      Waiting(w', t + 1) && forall s :: Deliveries(w'.log, s) == Deliveries(w.log, s)
  {
    var ended := Apply(w, Finish(t, Idled));
    FinishDriven(w, t);
    ParkEnded(ended, t);
    ThreeSteps(w, Finish(t, Idled), Deliver(Suspend(0, t)), Resume(0));
  }

  lemma FinishDriven(w: World, t: Token)
    requires Driven(w, t)
    ensures var w' := Apply(w, Finish(t, Idled));
      Held(w', t) && Suspend(0, t) in w'.network && forall s :: Deliveries(w'.log, s) == Deliveries(w.log, s)
  {
  }

  lemma ParkEnded(w: World, t: Token)
    requires Held(w, t) && Suspend(0, t) in w.network
    ensures var w' := Apply(Apply(w, Deliver(Suspend(0, t))), Resume(0));
      Waiting(w', t + 1) && forall s :: Deliveries(w'.log, s) == Deliveries(w.log, s)
  {
  }

  lemma LostRoundRepeats(w: World, t: Token)
    requires Waiting(w, t)
    ensures var w' := Execute(w, LostRound(t));
      Waiting(w', t + 1) && forall s :: Deliveries(w'.log, s) == Deliveries(w.log, s) + if s == Session(t) then 1 else 0
  {
    var claimed := Execute(w, ClaimSteps(t));
    var driven := Execute(claimed, StartSteps(t));
    ClaimWaiting(w, t);
    StartClaimed(claimed, t);
    ParkDriven(driven, t);
    ExecuteJoin(w, ClaimSteps(t) + StartSteps(t), ParkSteps(t));
    ExecuteJoin(w, ClaimSteps(t), StartSteps(t));
  }

  function LostRounds(n: nat): seq<Step> {
    if n == 0 then [Create(0, "do", None, 1)] else LostRounds(n - 1) + LostRound(n - 1)
  }

  /**
   * As long as reports are lost, parking and resuming a job delivers its command again, into a new session
   * each time: any number of times, even for a job that has one attempt.
   */
  lemma {:induction false} LostReportsRepeatTheCommand(n: nat)
    ensures var w := Execute(Init(0), LostRounds(n));
      Reachable(w) && Waiting(w, n) && forall k: nat :: Deliveries(w.log, Session(k)) == if k < n then 1 else 0
  {
    var w := Execute(Init(0), LostRounds(n));
    assert Reachable(w);
    if n == 0 {
      OneStep(Init(0), Create(0, "do", None, 1));
    } else {
      var was := Execute(Init(0), LostRounds(n - 1));
      LostReportsRepeatTheCommand(n - 1);
      ExecuteJoin(Init(0), LostRounds(n - 1), LostRound(n - 1));
      LostRoundRepeats(was, n - 1);
      forall k: nat
        ensures Deliveries(w.log, Session(k)) == if k < n then 1 else 0
      {
        assert Deliveries(w.log, Session(k)) ==
          Deliveries(was.log, Session(k)) + if Session(k) == Session(n - 1) then 1 else 0;
      }
    }
  }
}
