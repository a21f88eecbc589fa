/** Safety of the job board over every schedule of any number of drivers. */
module Safety {
  import opened Common
  import opened JobBoard
  import opened History
  import opened Protocol

  // ----- The invariant -----

  /** Every token belongs to one claim, and every running row to one token. */
  ghost predicate ClaimsOk(claims: map<Token, Claim>, rows: Table, nextToken: Token, h: History) {
    && (forall t | t in claims :: t < nextToken && claims[t].id in rows && WasIssued(h, t))
    && (forall t: Token | WasIssued(h, t) :: t in claims)
    && (forall id | id in rows && rows[id].leaseToken.Some? ::
         rows[id].leaseToken.value in claims && claims[rows[id].leaseToken.value].id == id)
    && (forall t | t in claims && claims[t].resumeSessionId.Some? ::
         Deliveries(h, claims[t].resumeSessionId.value) == 1)
  }

  function SessionOf(run: Run): Option<Session> {
    if run.session.Some? then Some(run.session.value.id) else None
  }

  function GivenSession(t: Token, claim: Claim): RunSession {
    if claim.resumeSessionId.Some? then RunSession(claim.resumeSessionId.value, true) else RunSession(Session(t), false)
  }

  predicate RunOk(t: Token, run: Run, claim: Claim, launch: Option<Option<Session>>, end: Option<Outcome>) {
    && run.job == claim.id
    && (run.session.Some? ==> run.session.value == GivenSession(t, claim))
    && (run.config.cli.ClaudeCode? && !run.phase.Over? ==> run.session.Some?)
    && (run.config.cli.OpenCode? ==> run.session.None? && !run.config.remoteControl)
    && (run.phase.Starting? ==> launch == None)
    && (run.phase.Working? ==> launch.Some?)
    && (launch.Some? ==> launch.value == SessionOf(run))
    && (end.Some? ==> launch.Some? && run.phase.Over?)
  }

  predicate OpenedOwnSession(runs: map<Token, Run>, h: History, t: Token) {
    t in runs && LaunchOf(h, t).Some? && runs[t].session == Some(RunSession(Session(t), false))
  }

  ghost predicate RunsOk(runs: map<Token, Run>, claims: map<Token, Claim>, h: History) {
    && (forall t | t in runs :: t in claims && RunOk(t, runs[t], claims[t], LaunchOf(h, t), EndOf(h, t)))
    && (forall t: Token | LaunchOf(h, t).Some? || EndOf(h, t).Some? :: t in runs)
    && (forall t: Token :: Deliveries(h, Session(t)) == if OpenedOwnSession(runs, h, t) then 1 else 0)
  }

  /** Every message speaks for the run that sent it, and a report tells how that run ended. */
  predicate MessageOk(m: Message, runs: map<Token, Run>, h: History) {
    && m.token in runs && runs[m.token].job == m.job
    && (m.SessionReport? ==> SessionOf(runs[m.token]) == Some(m.session))
    && (m.Suspend? ==> LaunchOf(h, m.token).Some? && runs[m.token].session.Some? && EndOf(h, m.token) == Some(Idled))
    && (m.Complete? ==>
         Truthful(Completion(m.outcome, m.exitCode, Some(m.output)), LaunchOf(h, m.token), EndOf(h, m.token)))
    && (m.Suspend? || m.Complete? ==> runs[m.token].phase.Over?)
  }

  ghost predicate MailOk(network: set<Message>, runs: map<Token, Run>, h: History) {
    forall m | m in network :: MessageOk(m, runs, h)
  }

  /** A running row's session is the one its run was given or the one its run opened. */
  predicate Heir(t: Token, s: Session, claims: map<Token, Claim>, runs: map<Token, Run>) {
    (t in claims && claims[t].resumeSessionId == Some(s)) || (t in runs && SessionOf(runs[t]) == Some(s))
  }

  /** The row holds that completion, or has none. */
  predicate Stores(r: Row, completion: Option<Completion>) {
    match completion
    case None => !r.status.Succeeded? && !r.status.Failed?
    case Some(c) =>
      && (r.status.Succeeded? <==> c.outcome.RunSucceeded?) && (r.status.Failed? <==> c.outcome.RunFailed?)
      && r.exitCode == c.exitCode && r.output == c.output
  }

  /** What a row remembers, in terms of what happened. */
  predicate RowLogged(id: JobId, r: Row, claims: map<Token, Claim>, runs: map<Token, Run>, h: History) {
    var story := Of(h, id);
    && r.attempts + story.parks == story.claims
    && (Final(r.status) <==> story.ended)
    && story.completes == (if r.status.Succeeded? || r.status.Failed? then 1 else 0)
    && Stores(r, story.completion)
    && (r.status.Running? ==>
         story.lastClaim == r.leaseToken && story.openLease == Some(r.leaseExpiresAt) && story.lastPark == None)
    && (r.status.Queued? || r.status.Standby? ==> story.openLease == None)
    && (r.status.Standby? ==> story.lastPark.Some?)
    && (r.sessionId.Some? && (r.status.Queued? || r.status.Standby?) ==> ParkedOn(h, id, r.sessionId.value))
    && (!Final(r.status) ==> (r.sessionId.Some? <==> story.known))
    && (r.sessionId.Some? && r.leaseToken.Some? ==> Heir(r.leaseToken.value, r.sessionId.value, claims, runs))
  }

  ghost predicate RowsLogged(rows: Table, claims: map<Token, Claim>, runs: map<Token, Run>, h: History) {
    && (forall id | id in rows :: RowLogged(id, rows[id], claims, runs, h))
    && (forall id: JobId | id !in rows :: Of(h, id) == UNTOLD)
  }

  ghost predicate RowsOk(rows: Table, now: int) {
    forall id | id in rows :: RowOk(rows[id], now)
  }

  ghost predicate Inv(w: World) {
    && RowsOk(w.rows, w.now)
    && ClaimsOk(w.claims, w.rows, w.nextToken, w.log)
    && RunsOk(w.runs, w.claims, w.log)
    && MailOk(w.network, w.runs, w.log)
    && RowsLogged(w.rows, w.claims, w.runs, w.log)
    && AllLegal(w.log)
  }

  // ----- Events leave everything they do not name as it was -----

  lemma RunsFrame(runs: map<Token, Run>, claims: map<Token, Claim>, h: History, e: Event)
    requires RunsOk(runs, claims, h) && !e.Launched? && !e.Ended?
    ensures RunsOk(runs, claims, After(h, e))
  {
  }

  lemma MailFrame(network: set<Message>, runs: map<Token, Run>, h: History, e: Event)
    requires MailOk(network, runs, h)
    requires e.Launched? || e.Ended? ==> e.token in runs && !runs[e.token].phase.Over?
    ensures MailOk(network, runs, After(h, e))
  {
  }

  /** An event about one row, which the step rewrites, keeps what every other row remembers. */
  lemma RowsFrame(rows: Table, rows': Table, claims: map<Token, Claim>, runs: map<Token, Run>, h: History, e: Event)
    requires RowsLogged(rows, claims, runs, h) && rows'.Keys == rows.Keys && (e.Launched? ==> Legal(h, e))
    requires forall id: JobId | id !in rows :: !Concerns(e, id)
    requires forall id | id in rows ::
      (rows'[id] == rows[id] && !Concerns(e, id)) || RowLogged(id, rows'[id], claims, runs, After(h, e))
    ensures RowsLogged(rows', claims, runs, After(h, e))
  {
  }

  // ----- The two statements of a claim -----

  lemma ClaimKeepsBoard(w: World, id: JobId, worker: string, secs: int)
    requires RowsOk(w.rows, w.now) && id in w.rows && Claimable(w.rows[id], w.now)
    ensures var w' := DoClaim(w, id, worker, secs); RowsOk(w'.rows, w'.now)
  {
  }

  lemma ClaimKeepsClaims(w: World, id: JobId, worker: string, secs: int)
    requires ClaimsOk(w.claims, w.rows, w.nextToken, w.log) && id in w.rows
    requires RowLogged(id, w.rows[id], w.claims, w.runs, w.log) && Claimable(w.rows[id], w.now)
    ensures var w' := DoClaim(w, id, worker, secs);
      ClaimsOk(w'.claims, w'.rows, w'.nextToken, w'.log) && Legal(w.log, w'.log.event)
  {
  }

  lemma ClaimKeepsRuns(w: World, c: Claim)
    requires ClaimsOk(w.claims, w.rows, w.nextToken, w.log) && RunsOk(w.runs, w.claims, w.log)
    ensures RunsOk(w.runs, w.claims[w.nextToken := c], w.log)
  {
  }

  lemma ClaimKeepsRow(w: World, id: JobId, worker: string, secs: int)
    requires id in w.rows && Claimable(w.rows[id], w.now) && RowLogged(id, w.rows[id], w.claims, w.runs, w.log)
    ensures var w' := DoClaim(w, id, worker, secs); RowLogged(id, w'.rows[id], w'.claims, w'.runs, w'.log)
  {
  }

  lemma ClaimKeepsOtherRows(w: World, c: Claim)
    requires RowsLogged(w.rows, w.claims, w.runs, w.log) && ClaimsOk(w.claims, w.rows, w.nextToken, w.log)
    ensures RowsLogged(w.rows, w.claims[w.nextToken := c], w.runs, w.log)
  {
  }

  lemma ClaimKeepsInv(w: World, id: JobId, worker: string, secs: int)
    requires Inv(w) && id in w.rows && Claimable(w.rows[id], w.now)
    ensures Inv(DoClaim(w, id, worker, secs))
  {
    var w' := DoClaim(w, id, worker, secs);
    var c, e := w'.claims[w.nextToken], w'.log.event;
    ClaimKeepsBoard(w, id, worker, secs);
    ClaimKeepsClaims(w, id, worker, secs);
    ClaimKeepsRuns(w, c);
    RunsFrame(w.runs, w'.claims, w.log, e);
    MailFrame(w.network, w.runs, w.log, e);
    ClaimKeepsRow(w, id, worker, secs);
    ClaimKeepsOtherRows(w, c);
    RowsFrame(w.rows, w'.rows, w'.claims, w.runs, w.log, e);
  }

  lemma SweepKeepsRow(id: JobId, r: Row, w: World)
    requires id in w.rows && r == w.rows[id] && RowOk(r, w.now) && RowLogged(id, r, w.claims, w.runs, w.log)
    requires Burned(r, w.now)
    ensures RowOk(Retired(r, w.now), w.now) && RowLogged(id, Retired(r, w.now), w.claims, w.runs, DoSweep(w).log)
  {
  }

  lemma SweepKeepsRows(w: World)
    requires RowsOk(w.rows, w.now) && RowsLogged(w.rows, w.claims, w.runs, w.log)
    ensures var w' := DoSweep(w);
      RowsOk(w'.rows, w.now) && RowsLogged(w'.rows, w.claims, w.runs, w'.log) && Legal(w.log, w'.log.event)
  {
    var w' := DoSweep(w);
    forall id | id in w.rows && Burned(w.rows[id], w.now)
      ensures RowOk(w'.rows[id], w.now) && RowLogged(id, w'.rows[id], w.claims, w.runs, w'.log)
      ensures !Of(w.log, id).ended && Of(w.log, id).openLease == Some(w.rows[id].leaseExpiresAt)
    {
      assert RowLogged(id, w.rows[id], w.claims, w.runs, w.log);
      SweepKeepsRow(id, w.rows[id], w);
    }
    RowsFrame(w.rows, w'.rows, w.claims, w.runs, w.log, w'.log.event);
  }

  lemma SweepKeepsClaims(w: World)
    requires ClaimsOk(w.claims, w.rows, w.nextToken, w.log)
    ensures ClaimsOk(w.claims, DoSweep(w).rows, w.nextToken, DoSweep(w).log)
  {
  }

  lemma SweepKeepsInv(w: World)
    requires Inv(w)
    ensures Inv(DoSweep(w))
  {
    var w' := DoSweep(w);
    SweepKeepsRows(w);
    SweepKeepsClaims(w);
    RunsFrame(w.runs, w.claims, w.log, w'.log.event);
    MailFrame(w.network, w.runs, w.log, w'.log.event);
  }

  // ----- A message reaches the board -----

  /** The guard let the message in: what that says about the run that sent it. */
  predicate Admitted(w: World, m: Message) {
    && Holds(w.rows, m.job, m.token)
    && RowOk(w.rows[m.job], w.now) && RowLogged(m.job, w.rows[m.job], w.claims, w.runs, w.log)
    && MessageOk(m, w.runs, w.log)
    && m.token in w.claims && RunOk(m.token, w.runs[m.token], w.claims[m.token], LaunchOf(w.log, m.token),
        EndOf(w.log, m.token))
  }

  lemma DeliverKeepsBoard(w: World, m: Message)
    requires RowsOk(w.rows, w.now) && Holds(w.rows, m.job, m.token)
    ensures var w' := DoDeliver(w, m);
      && RowsOk(w'.rows, w'.now)
      && w'.rows.Keys == w.rows.Keys && forall id | id in w.rows && id != m.job :: w'.rows[id] == w.rows[id]
  {
  }

  /** A parked row's session is the one its last run used, and that session has its command. */
  lemma ParkKeepsRow(w: World, job: JobId, token: Token)
    requires Admitted(w, Suspend(job, token))
    requires ClaimsOk(w.claims, w.rows, w.nextToken, w.log) && RunsOk(w.runs, w.claims, w.log)
    ensures RowLogged(job, ParkedRow(w.rows[job], w.now), w.claims, w.runs, After(w.log, Parked(job, token)))
  {
  }

  lemma DeliverKeepsRow(w: World, m: Message)
    requires Admitted(w, m)
    requires ClaimsOk(w.claims, w.rows, w.nextToken, w.log) && RunsOk(w.runs, w.claims, w.log)
    ensures var w' := DoDeliver(w, m);
      w'.log.After? && Legal(w.log, w'.log.event) && RowLogged(m.job, w'.rows[m.job], w.claims, w.runs, w'.log)
  {
    if m.Suspend? {
      ParkKeepsRow(w, m.job, m.token);
    }
  }

  lemma DeliverKeepsClaims(w: World, m: Message)
    requires ClaimsOk(w.claims, w.rows, w.nextToken, w.log) && Holds(w.rows, m.job, m.token)
    ensures var w' := DoDeliver(w, m); ClaimsOk(w.claims, w'.rows, w.nextToken, w'.log)
  {
  }

  lemma DeliverKeepsInv(w: World, m: Message)
    requires Inv(w) && m in w.network
    ensures Inv(DoDeliver(w, m))
  {
    if Holds(w.rows, m.job, m.token) {
      assert Admitted(w, m);
      AdmittedKeepsInv(w, m);
    }
  }

  lemma AdmittedKeepsInv(w: World, m: Message)
    requires Inv(w) && Admitted(w, m)
    ensures Inv(DoDeliver(w, m))
  {
    var w' := DoDeliver(w, m);
    DeliverKeepsRows(w, m);
    DeliverKeepsBoard(w, m);
    DeliverKeepsClaims(w, m);
    DeliverTouchesOnly(w, m);
    RunsFrame(w.runs, w.claims, w.log, w'.log.event);
    MailFrame(w.network, w.runs, w.log, w'.log.event);
  }

  lemma DeliverTouchesOnly(w: World, m: Message)
    requires Holds(w.rows, m.job, m.token)
    ensures var w' := DoDeliver(w, m);
      && w' == w.(rows := w'.rows, log := w'.log)
      && w'.log.After? && w'.log.past == w.log && !w'.log.event.Launched? && !w'.log.event.Ended?
  {
  }

  lemma DeliverKeepsRows(w: World, m: Message)
    requires Inv(w) && Admitted(w, m)
    ensures var w' := DoDeliver(w, m);
      w'.log.After? && Legal(w.log, w'.log.event) && RowsLogged(w'.rows, w.claims, w.runs, w'.log)
  {
    var w' := DoDeliver(w, m);
    DeliverKeepsRow(w, m);
    DeliverKeepsBoard(w, m);
    DeliverTouchesOnly(w, m);
    assert forall id: JobId :: Concerns(w'.log.event, id) ==> id == m.job;
    RowsFrame(w.rows, w'.rows, w.claims, w.runs, w.log, w'.log.event);
  }

  // ----- The routes -----

  lemma CreateKeepsRows(w: World, id: JobId, r: Row)
    requires RowsLogged(w.rows, w.claims, w.runs, w.log) && id !in w.rows
    requires r.status.Queued? && r.attempts == 0 && r.sessionId.None? && r.leaseToken.None?
    ensures RowsLogged(w.rows[id := r], w.claims, w.runs, w.log)
  {
  }

  lemma CreateKeepsInv(w: World, id: JobId, command: string, createdBy: Option<string>, maxAttempts: nat)
    requires Inv(w) && id !in w.rows && maxAttempts >= 1
    ensures Inv(SetRow(w, id, NewRow(command, createdBy, w.now, maxAttempts)))
  {
    CreateKeepsRows(w, id, NewRow(command, createdBy, w.now, maxAttempts));
  }

  lemma ResumeKeepsRows(rows: Table, now: int, claims: map<Token, Claim>, runs: map<Token, Run>, h: History, id: JobId)
    requires RowsOk(rows, now) && RowsLogged(rows, claims, runs, h) && id in rows && rows[id].status.Standby?
    ensures RowsOk(rows[id := ResumedRow(rows[id])], now) && Legal(h, Resumed(id))
    ensures RowsLogged(rows[id := ResumedRow(rows[id])], claims, runs, After(h, Resumed(id)))
  {
    assert RowOk(rows[id], now) && RowLogged(id, rows[id], claims, runs, h);
    RowsFrame(rows, rows, claims, runs, h, Resumed(id));
    assert RowLogged(id, rows[id], claims, runs, After(h, Resumed(id)));
  }

  lemma ResumeKeepsInv(w: World, id: JobId)
    requires Inv(w) && id in w.rows && w.rows[id].status.Standby?
    ensures Inv(Log(SetRow(w, id, ResumedRow(w.rows[id])), Resumed(id)))
  {
    ResumeKeepsRows(w.rows, w.now, w.claims, w.runs, w.log, id);
    RunsFrame(w.runs, w.claims, w.log, Resumed(id));
    MailFrame(w.network, w.runs, w.log, Resumed(id));
    ResumeKeepsClaims(w.claims, w.rows, w.nextToken, w.log, id);
  }

  lemma ResumeKeepsClaims(claims: map<Token, Claim>, rows: Table, nextToken: Token, h: History, id: JobId)
    requires ClaimsOk(claims, rows, nextToken, h) && id in rows
    ensures ClaimsOk(claims, rows[id := ResumedRow(rows[id])], nextToken, After(h, Resumed(id)))
  {
  }

  // ----- A driver's own moves -----

  /** Changing a run without changing its job or its session concerns no row and no message. */
  lemma RowsMove(rows: Table, claims: map<Token, Claim>, runs: map<Token, Run>, network: set<Message>, h: History,
        t: Token, run: Run)
    requires t in runs ==> runs[t].session == run.session && runs[t].job == run.job
    requires t in runs && runs[t].phase.Over? ==> run.phase.Over?
    requires MailOk(network, runs, h) && RowsLogged(rows, claims, runs, h)
    ensures MailOk(network, runs[t := run], h) && RowsLogged(rows, claims, runs[t := run], h)
  {
  }

  lemma RunsMove(claims: map<Token, Claim>, runs: map<Token, Run>, h: History, t: Token, run: Run)
    requires t in claims && RunOk(t, run, claims[t], LaunchOf(h, t), EndOf(h, t)) && RunsOk(runs, claims, h)
    requires t in runs ==> runs[t].session == run.session
    ensures RunsOk(runs[t := run], claims, h)
  {
  }

  lemma LaunchIsLegal(w: World, t: Token)
    requires ClaimsOk(w.claims, w.rows, w.nextToken, w.log) && RunsOk(w.runs, w.claims, w.log) && Enabled(w, Launch(t))
    ensures Legal(w.log, DoLaunch(w, t).log.event)
  {
  }

  lemma LaunchKeepsClaims(claims: map<Token, Claim>, rows: Table, nextToken: Token, h: History, e: Event)
    requires ClaimsOk(claims, rows, nextToken, h) && e.Launched? && Legal(h, e)
    ensures ClaimsOk(claims, rows, nextToken, After(h, e))
  {
  }

  lemma LaunchKeepsRuns(w: World, t: Token)
    requires RunsOk(w.runs, w.claims, w.log) && Enabled(w, Launch(t)) && Legal(w.log, DoLaunch(w, t).log.event)
    ensures RunsOk(DoLaunch(w, t).runs, w.claims, DoLaunch(w, t).log)
  {
    var w' := DoLaunch(w, t);
    assert RunOk(t, w.runs[t], w.claims[t], LaunchOf(w.log, t), EndOf(w.log, t));
    forall o: Token
      ensures Deliveries(w'.log, Session(o)) == if OpenedOwnSession(w'.runs, w'.log, o) then 1 else 0
    {
      assert Deliveries(w.log, Session(o)) == if OpenedOwnSession(w.runs, w.log, o) then 1 else 0;
    }
  }

  lemma LaunchKeepsInv(w: World, t: Token)
    requires Inv(w) && Enabled(w, Launch(t))
    ensures Inv(DoLaunch(w, t))
  {
    var run, e := w.runs[t].(phase := Working), DoLaunch(w, t).log.event;
    LaunchIsLegal(w, t);
    LaunchKeepsClaims(w.claims, w.rows, w.nextToken, w.log, e);
    LaunchKeepsRuns(w, t);
    MailFrame(w.network, w.runs, w.log, e);
    RowsFrame(w.rows, w.rows, w.claims, w.runs, w.log, e);
    RowsMove(w.rows, w.claims, w.runs, w.network, After(w.log, e), t, run);
  }

  /** One run moves on, and may send one message that speaks for it. */
  lemma RunStepKeepsInv(w: World, t: Token, run: Run, m: Option<Message>)
    requires Inv(w) && t in w.claims && RunOk(t, run, w.claims[t], LaunchOf(w.log, t), EndOf(w.log, t))
    requires t in w.runs ==> w.runs[t].session == run.session && w.runs[t].job == run.job
    requires t in w.runs && w.runs[t].phase.Over? ==> run.phase.Over?
    requires m.Some? ==> MessageOk(m.value, w.runs[t := run], w.log)
    ensures Inv(SetRun(w, t, run).(network := if m.Some? then w.network + {m.value} else w.network))
  {
    RunsMove(w.claims, w.runs, w.log, t, run);
    RowsMove(w.rows, w.claims, w.runs, w.network, w.log, t, run);
  }

  lemma AcceptKeepsInv(w: World, t: Token, config: Config, usable: bool)
    requires Inv(w) && Enabled(w, Accept(t, config, usable))
    ensures Inv(DoAccept(w, t, config, usable))
  {
    var w' := DoAccept(w, t, config, usable);
    var refusal := Complete(w.claims[t].id, t, RunFailed, None, "not run");
    RunStepKeepsInv(w, t, w'.runs[t], if w'.runs[t].phase.Over? then Some(refusal) else None);
  }

  lemma FinishIsLegal(w: World, t: Token, outcome: Outcome)
    requires RunsOk(w.runs, w.claims, w.log) && Enabled(w, Finish(t, outcome))
    ensures Legal(w.log, Ended(w.runs[t].job, t, outcome))
  {
    assert RunOk(t, w.runs[t], w.claims[t], LaunchOf(w.log, t), EndOf(w.log, t));
  }

  lemma FinishKeepsRuns(w: World, t: Token, outcome: Outcome)
    requires RunsOk(w.runs, w.claims, w.log) && Enabled(w, Finish(t, outcome))
    ensures RunsOk(DoFinish(w, t, outcome).runs, w.claims, After(w.log, Ended(w.runs[t].job, t, outcome)))
  {
  }

  lemma FinishKeepsClaims(claims: map<Token, Claim>, rows: Table, nextToken: Token, h: History, e: Event)
    requires ClaimsOk(claims, rows, nextToken, h) && e.Ended?
    ensures ClaimsOk(claims, rows, nextToken, After(h, e))
  {
  }

  /** The container has ended, and nothing is reported yet. */
  lemma EndKeepsInv(w: World, t: Token, outcome: Outcome)
    requires Inv(w) && Enabled(w, Finish(t, outcome))
    ensures var run := w.runs[t]; Inv(Log(SetRun(w, t, run.(phase := Over)), Ended(run.job, t, outcome)))
  {
    var run := w.runs[t];
    var e := Ended(run.job, t, outcome);
    FinishIsLegal(w, t, outcome);
    FinishKeepsClaims(w.claims, w.rows, w.nextToken, w.log, e);
    FinishKeepsRuns(w, t, outcome);
    MailFrame(w.network, w.runs, w.log, e);
    RowsFrame(w.rows, w.rows, w.claims, w.runs, w.log, e);
    RowsMove(w.rows, w.claims, w.runs, w.network, After(w.log, e), t, run.(phase := Over));
  }

  lemma FinishKeepsInv(w: World, t: Token, outcome: Outcome)
    requires Inv(w) && Enabled(w, Finish(t, outcome))
    ensures Inv(DoFinish(w, t, outcome))
  {
    var run := w.runs[t];
    var ended := Log(SetRun(w, t, run.(phase := Over)), Ended(run.job, t, outcome));
    EndKeepsInv(w, t, outcome);
    if !run.lost {
      ReportIsOk(w, t, outcome);
      SendKeepsInv(ended, ReportOf(run, t, outcome));
    }
  }

  lemma ReportIsOk(w: World, t: Token, outcome: Outcome)
    requires RunsOk(w.runs, w.claims, w.log) && Enabled(w, Finish(t, outcome))
    ensures var run := w.runs[t];
      MessageOk(ReportOf(run, t, outcome), w.runs[t := run.(phase := Over)], After(w.log, Ended(run.job, t, outcome)))
  {
    assert RunOk(t, w.runs[t], w.claims[t], LaunchOf(w.log, t), EndOf(w.log, t));
  }

  lemma MarkKeepsInv(w: World, t: Token, lost: bool, over: bool)
    requires Inv(w) && t in w.runs
    ensures Inv(SetRun(w, t, w.runs[t].(lost := lost, phase := if over then Over else w.runs[t].phase)))
  {
    assert RunOk(t, w.runs[t], w.claims[t], LaunchOf(w.log, t), EndOf(w.log, t));
    RunStepKeepsInv(w, t, w.runs[t].(lost := lost, phase := if over then Over else w.runs[t].phase), None);
  }

  lemma SendKeepsInv(w: World, m: Message)
    requires Inv(w) && MessageOk(m, w.runs, w.log)
    ensures Inv(Send(w, m))
  {
  }

  // ----- Every schedule -----

  lemma StepKeepsInv(w: World, s: Step)
    requires Inv(w)
    ensures Inv(Apply(w, s))
  {
    if Enabled(w, s) {
      if OfARun(s) {
        RunStepsKeepInv(w, s);
      } else {
        BoardStepsKeepInv(w, s);
      }
    }
  }

  /** A driver's own move. */
  predicate OfARun(s: Step) {
    s.Accept? || s.ReportSession? || s.ReportRemote? || s.Launch? || s.Beat? || s.LearnLost? || s.Finish? || s.Crash?
  }

  lemma BoardStepsKeepInv(w: World, s: Step)
    requires Inv(w) && Enabled(w, s) && !OfARun(s)
    ensures Inv(Apply(w, s))
  {
    match s
    case Tick(_) =>
    case ClaimOldest(id, worker, secs, _) => ClaimKeepsInv(w, id, worker, secs);
    case Sweep => SweepKeepsInv(w);
    case Deliver(m) => DeliverKeepsInv(w, m);
    case Create(id, command, createdBy, maxAttempts) => CreateKeepsInv(w, id, command, createdBy, maxAttempts);
    case Resume(id) => ResumeKeepsInv(w, id);
  }

  lemma RunStepsKeepInv(w: World, s: Step)
    requires Inv(w) && Enabled(w, s) && OfARun(s)
    ensures Inv(Apply(w, s))
  {
    if s.Accept? || s.Launch? {
      BeginStepsKeepInv(w, s);
    } else if s.LearnLost? || s.Finish? || s.Crash? {
      EndStepsKeepInv(w, s);
    } else {
      SendStepsKeepInv(w, s);
    }
  }

  lemma BeginStepsKeepInv(w: World, s: Step)
    requires Inv(w) && Enabled(w, s) && (s.Accept? || s.Launch?)
    ensures Inv(Apply(w, s))
  {
    match s
    case Accept(t, config, usable) => AcceptKeepsInv(w, t, config, usable);
    case Launch(t) => LaunchKeepsInv(w, t);
  }

  lemma EndStepsKeepInv(w: World, s: Step)
    requires Inv(w) && Enabled(w, s) && (s.LearnLost? || s.Finish? || s.Crash?)
    ensures Inv(Apply(w, s))
  {
    match s
    case LearnLost(t) => MarkKeepsInv(w, t, true, false);
    case Finish(t, outcome) => FinishKeepsInv(w, t, outcome);
    case Crash(t) => MarkKeepsInv(w, t, w.runs[t].lost, true);
  }

  lemma SendStepsKeepInv(w: World, s: Step)
    requires Inv(w) && Enabled(w, s) && (s.ReportSession? || s.ReportRemote? || s.Beat?)
    ensures Inv(Apply(w, s))
  {
    match s
    case ReportSession(t) => SendKeepsInv(w, SessionMessage(w.runs[t], t, None));
    case ReportRemote(t, remote) => SendKeepsInv(w, SessionMessage(w.runs[t], t, Some(remote)));
    case Beat(t) => SendKeepsInv(w, Heartbeat(w.runs[t].job, t, w.runs[t].config.leaseSeconds));
  }

  lemma {:induction false} ScheduleKeepsInv(w: World, schedule: seq<Step>)
    requires Inv(w)
    ensures Inv(Execute(w, schedule))
    decreases |schedule|
  {
    if schedule == [] {
    } else {
      StepKeepsInv(w, schedule[0]);
      ScheduleKeepsInv(Apply(w, schedule[0]), schedule[1..]);
    }
  }

  // ----- What the invariant means for a history -----

  /** What has happened in the world a schedule leads to, from an empty board. */
  ghost predicate Reachable(w: World) {
    exists start: int, schedule: seq<Step> :: w == Execute(Init(start), schedule)
  }

  lemma ReachableInv(w: World)
    requires Reachable(w)
    ensures Inv(w)
  {
    var start, schedule :| w == Execute(Init(start), schedule);
    ScheduleKeepsInv(Init(start), schedule);
  }

  /**
   * Fencing. In every schedule, a worker's accepted write bears the token of the most recent claim of
   * that job, which nobody has parked, completed or retired since.
   */
  lemma AcceptedWritesComeFromTheLatestClaim(w: World, past: History, e: Event)
    requires Reachable(w) && MomentOf(After(past, e), w.log) && WorkerWrite(e)
    ensures HolderWrites(past, e.job, e.token)
  {
    ReachableInv(w);
    LegalThroughout(After(past, e), w.log);
  }

  /** A token that has once been refused is refused for ever, whatever happens next. */
  lemma {:induction false} RefusedForever(w: World, schedule: seq<Step>, t: Token)
    requires Inv(w) && t in w.claims && !Holds(w.rows, w.claims[t].id, t)
    ensures var w' := Execute(w, schedule);
      t in w'.claims && w'.claims[t] == w.claims[t] && !Holds(w'.rows, w.claims[t].id, t)
    decreases |schedule|
  {
    if schedule == [] {
    } else {
      StepKeepsInv(w, schedule[0]);
      RefusedOneStep(w, schedule[0], t);
      RefusedForever(Apply(w, schedule[0]), schedule[1..], t);
    }
  }

  lemma RefusedOneStep(w: World, s: Step, t: Token)
    requires t in w.claims && t < w.nextToken && !Holds(w.rows, w.claims[t].id, t)
    ensures var w' := Apply(w, s);
      t in w'.claims && w'.claims[t] == w.claims[t] && !Holds(w'.rows, w.claims[t].id, t)
  {
  }

  /** The earlier tokens are among the refused: a second claim of the same job retires the first. */
  lemma ReclaimRefusesOldToken(w: World, stale: Token)
    requires Inv(w) && stale in w.claims && Of(w.log, w.claims[stale].id).lastClaim != Some(stale)
    ensures !Holds(w.rows, w.claims[stale].id, stale)
  {
  }

  // ----- Runs that are told they have lost -----

  /** Only tokens that do not hold their job have been refused, and only refused runs think themselves lost. */
  ghost predicate RefusedOk(w: World) {
    && (forall t | t in w.refused :: t in w.claims && !Holds(w.rows, w.claims[t].id, t))
    && (forall t | t in w.runs && w.runs[t].lost :: t in w.refused)
  }

  lemma RefusalIsOfABeat(w: World, s: Step, t: Token)
    requires t in Apply(w, s).refused && t !in w.refused
    ensures s.Deliver? && s.message in w.network && s.message.token == t && !Holds(w.rows, s.message.job, t)
  {
  }

  lemma RefusalIsTrue(w: World, m: Message, t: Token)
    requires RunsOk(w.runs, w.claims, w.log) && MailOk(w.network, w.runs, w.log)
    requires m in w.network && m.token == t && !Holds(w.rows, m.job, t)
    ensures t in w.claims && !Holds(w.rows, w.claims[t].id, t)
  {
    assert MessageOk(m, w.runs, w.log);
    assert RunOk(t, w.runs[t], w.claims[t], LaunchOf(w.log, t), EndOf(w.log, t));
  }

  lemma LostWasRefused(w: World, s: Step, t: Token)
    requires t in Apply(w, s).runs && Apply(w, s).runs[t].lost
    ensures t in w.refused || (t in w.runs && w.runs[t].lost)
  {
  }

  lemma RefusedGrows(w: World, s: Step)
    ensures w.refused <= Apply(w, s).refused
  {
  }

  lemma StepKeepsRefusedOk(w: World, s: Step)
    requires Inv(w) && RefusedOk(w)
    ensures RefusedOk(Apply(w, s))
  {
    var w' := Apply(w, s);
    forall t | t in w'.refused
      ensures t in w'.claims && !Holds(w'.rows, w'.claims[t].id, t)
    {
      if t !in w.refused {
        RefusalIsOfABeat(w, s, t);
        RefusalIsTrue(w, s.message, t);
      }
      RefusedOneStep(w, s, t);
    }
    forall t | t in w'.runs && w'.runs[t].lost
      ensures t in w'.refused
    {
      LostWasRefused(w, s, t);
      RefusedGrows(w, s);
    }
  }

  lemma {:induction false} ScheduleKeepsRefusedOk(w: World, schedule: seq<Step>)
    requires Inv(w) && RefusedOk(w)
    ensures RefusedOk(Execute(w, schedule))
    decreases |schedule|
  {
    if schedule == [] {
    } else {
      StepKeepsInv(w, schedule[0]);
      StepKeepsRefusedOk(w, schedule[0]);
      ScheduleKeepsRefusedOk(Apply(w, schedule[0]), schedule[1..]);
    }
  }

  /** A driver kills a run only when its token does not hold the job any more: no beat is refused by mistake. */
  lemma OnlyLostRunsAreKilled(w: World, t: Token)
    requires Reachable(w) && t in w.runs && w.runs[t].lost
    ensures !Holds(w.rows, w.runs[t].job, t)
  {
    var start, schedule :| w == Execute(Init(start), schedule);
    ScheduleKeepsRefusedOk(Init(start), schedule);
    ReachableInv(w);
    assert RunOk(t, w.runs[t], w.claims[t], LaunchOf(w.log, t), EndOf(w.log, t));
  }

  /** And a run that has lost its job is told so by its next beat that arrives. */
  lemma LostBeatsAreRefused(w: World, t: Token, secs: int)
    requires Reachable(w) && t in w.runs && !Holds(w.rows, w.runs[t].job, t)
    requires Enabled(w, Deliver(Heartbeat(w.runs[t].job, t, secs)))
    ensures var w' := Apply(w, Deliver(Heartbeat(w.runs[t].job, t, secs)));
      && t in w'.refused && w'.rows == w.rows
      && (!w'.runs[t].phase.Over? ==> Enabled(w', LearnLost(t)) && Apply(w', LearnLost(t)).runs[t].lost)
  {
    ReachableInv(w);
    assert RunOk(t, w.runs[t], w.claims[t], LaunchOf(w.log, t), EndOf(w.log, t));
  }

  /** A new token is minted only when the lease last granted to the old one is out, or its holder parked the job. */
  lemma LeasesAreExclusive(w: World, past: History, e: Event)
    requires Reachable(w) && MomentOf(After(past, e), w.log) && e.Claimed?
    ensures LeaseOut(past, e.job, e.at) && !WasIssued(past, e.token) && !Of(past, e.job).ended
  {
    ReachableInv(w);
    LegalThroughout(After(past, e), w.log);
  }

  /** First in, first out: a claim passes over a queued job only for an older one, or while somebody has it locked. */
  lemma QueuedJobsAreNotPassedOver(w: World, id: JobId, worker: string, secs: int, locked: set<JobId>, other: JobId)
    requires Reachable(w) && Enabled(w, ClaimOldest(id, worker, secs, locked))
    requires other in w.rows && other != id && w.rows[other].status.Queued? && other !in locked
    ensures w.rows[id].createdAt < w.rows[other].createdAt
            || (w.rows[id].createdAt == w.rows[other].createdAt && id < other)
  {
    ReachableBoardOk(w);
    OfferedRows(w.rows, w.now, w.nextToken, locked, other);
    ClaimFindsWork(w.rows, w.now, locked);
  }

  /** No job is completed twice, and a job is succeeded or failed exactly when one completion was accepted. */
  lemma AtMostOneCompletion(w: World, id: JobId)
    requires Reachable(w) && id in w.rows
    ensures Of(w.log, id).completes <= 1
    ensures Of(w.log, id).completes == 1 <==> w.rows[id].status.Succeeded? || w.rows[id].status.Failed?
  {
    ReachableInv(w);
    CompletedOnce(w.log, id);
    assert RowLogged(id, w.rows[id], w.claims, w.runs, w.log);
  }

  /** Succeeded and failed are what the one accepted completion reported, and so are exit code and output. */
  lemma StatusIsTheReport(w: World, id: JobId)
    requires Reachable(w) && id in w.rows
    ensures var r, report := w.rows[id], Of(w.log, id).completion;
      && (r.status.Succeeded? <==> report.Some? && report.value.outcome == RunSucceeded)
      && (r.status.Failed? <==> report.Some? && report.value.outcome == RunFailed)
      && (report.Some? ==> r.exitCode == report.value.exitCode && r.output == report.value.output)
    ensures Of(w.log, id).completion.Some? <==>
      exists past, e :: MomentOf(After(past, e), w.log) && e.Completed? && e.job == id
  {
    ReachableInv(w);
    assert RowLogged(id, w.rows[id], w.claims, w.runs, w.log);
    if Of(w.log, id).completion.Some? {
      CompletionHappened(w.log, id);
    }
    if past, e :| MomentOf(After(past, e), w.log) && e.Completed? && e.job == id {
      CompletionStands(w.log, past, e);
    }
  }

  predicate ExitedWell(end: Option<Outcome>) {
    end.Some? && end.value.Exited? && end.value.exitCode == Some(0) && !end.value.timedOut
  }

  /**
   * From the container to the row: a job that a completion ended is succeeded if and only if the container
   * of the run that reported had exited with code zero in time, and failed otherwise, with that exit code and
   * output; only a run that was refused, and never launched, fails without one.
   */
  lemma SucceededExactlyWhenExitZero(w: World, past: History, e: Event)
    requires Reachable(w) && MomentOf(After(past, e), w.log) && e.Completed?
    ensures var end := EndOf(past, e.token);
      && e.job in w.rows
      && (w.rows[e.job].status.Succeeded? <==> ExitedWell(end))
      && (w.rows[e.job].status.Failed? <==> !ExitedWell(end))
      && (if end.Some? then end.value.Exited? && w.rows[e.job].exitCode == end.value.exitCode
            && w.rows[e.job].output == Some(end.value.output)
          else LaunchOf(past, e.token) == None && w.rows[e.job].exitCode == None)
  {
    ReachableInv(w);
    LegalThroughout(After(past, e), w.log);
    CompletionStands(w.log, past, e);
    assert e.job in w.rows by {
      assert Of(w.log, e.job) != UNTOLD;
    }
    assert RowLogged(e.job, w.rows[e.job], w.claims, w.runs, w.log);
  }

  /** A job is parked only by a run whose container stopped for want of anybody driving it. */
  lemma ParkedOnlyWhenIdle(w: World, past: History, e: Event)
    requires Reachable(w) && MomentOf(After(past, e), w.log) && e.Parked?
    ensures EndOf(past, e.token) == Some(Idled)
  {
    ReachableInv(w);
    LegalThroughout(After(past, e), w.log);
  }

  /** Attempts are the accepted claims less the accepted suspends, and never leave 0..max. */
  lemma AttemptsCountUnparkedClaims(w: World, id: JobId)
    requires Reachable(w) && id in w.rows
    ensures w.rows[id].attempts == Of(w.log, id).claims - Of(w.log, id).parks
    ensures 0 <= w.rows[id].attempts <= w.rows[id].maxAttempts
    ensures Of(w.log, id).claims <= w.rows[id].maxAttempts + Of(w.log, id).parks
  {
    ReachableInv(w);
    assert RowOk(w.rows[id], w.now) && RowLogged(id, w.rows[id], w.claims, w.runs, w.log);
  }

  /** The board is well formed in every reachable world: see JobBoard.OfferedRows for what that offers. */
  lemma ReachableBoardOk(w: World)
    requires Reachable(w)
    ensures BoardOk(w.rows, w.now, w.nextToken)
  {
    ReachableInv(w);
  }

  /** Succeeded, failed and dead are final: no schedule moves such a row again. */
  lemma {:induction false} FinalRowsNeverChange(w: World, schedule: seq<Step>, id: JobId)
    requires Inv(w) && id in w.rows && Final(w.rows[id].status)
    ensures id in Execute(w, schedule).rows && Execute(w, schedule).rows[id] == w.rows[id]
    decreases |schedule|
  {
    if schedule == [] {
    } else {
      StepKeepsInv(w, schedule[0]);
      FinalOneStep(w, schedule[0], id);
      FinalRowsNeverChange(Apply(w, schedule[0]), schedule[1..], id);
    }
  }

  lemma FinalOneStep(w: World, s: Step, id: JobId)
    requires id in w.rows && Final(w.rows[id].status)
    ensures id in Apply(w, s).rows && Apply(w, s).rows[id] == w.rows[id]
  {
  }

  // ----- Sessions -----

  /** A command is delivered into an agent session at most once, over any parks, resumes and crashes. */
  lemma CommandDeliveredAtMostOnce(w: World, s: Session)
    requires Reachable(w)
    ensures Deliveries(w.log, s) <= 1
  {
    ReachableInv(w);
    DeliveredOnce(w.log, s);
  }

  /**
   * A claim that carries a session to resume names one that received its command exactly once and was
   * used by the run that parked the job; a reclaim from a run that never parked carries none.
   */
  lemma ResumesNameParkedSessions(w: World, past: History, e: Event)
    requires Reachable(w) && MomentOf(After(past, e), w.log) && e.Claimed?
    ensures e.resume.Some? ==> ParkedOn(past, e.job, e.resume.value)
    ensures Of(past, e.job).openLease.Some? ==> e.resume.None?
  {
    ReachableInv(w);
    LegalThroughout(After(past, e), w.log);
  }

  /**
   * The whole resume protocol: a claim carries a session if and only if it picks up a parked job and the
   * board has the session of the run that parked it, from that run's claim or from an accepted report.
   */
  lemma ResumesExactlyWhenReported(w: World, past: History, e: Event)
    requires Reachable(w) && MomentOf(After(past, e), w.log) && e.Claimed?
    ensures var park := Of(past, e.job).lastPark;
      e.resume.Some? <==> park.Some? && SessionGiven(past, park.value)
  {
    ReachableInv(w);
    LegalThroughout(After(past, e), w.log);
    ParkedByLastClaim(past, e.job);
    if Of(past, e.job).lastPark.Some? {
      KnownExactlyWhen(past, e.job);
    }
  }

  /** A run that restores a session does not bring the command; one that opens a session is the first to. */
  lemma LaunchesRespectSessions(w: World, past: History, e: Event)
    requires Reachable(w) && MomentOf(After(past, e), w.log) && e.Launched? && e.on.Some?
    ensures e.withCommand <==> Deliveries(past, e.on.value) == 0
    ensures LaunchOf(past, e.token) == None && WasIssued(past, e.token)
  {
    ReachableInv(w);
    LegalThroughout(After(past, e), w.log);
  }

  /** A container that is launched can always be given its arguments: neither refusal of docker.ts is ever met. */
  lemma LaunchesCanBeBuilt(w: World, t: Token, name: string, command: string)
    requires Reachable(w) && Enabled(w, Launch(t))
    ensures RunnerArgs(w.runs[t].config, name, command, w.runs[t].session).Some?
  {
    ReachableInv(w);
    assert RunOk(t, w.runs[t], w.claims[t], LaunchOf(w.log, t), EndOf(w.log, t));
  }
}
