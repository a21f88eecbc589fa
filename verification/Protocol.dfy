/**
 * The board and any number of drivers as one distributed system: server/src/db/job-store.ts on one
 * side, the run half of driver/src/loop.ts and driver/src/docker.ts on the other.
 *
 * A step is one SQL statement, one move of one run, or the passing of time. A message that was sent
 * may be delivered at any later moment, repeatedly, or never; a claim's reply may be lost; a driver
 * may stop at any moment. A schedule is any sequence of steps.
 */
module Protocol {
  import opened Common
  import opened JobBoard
  import opened History

  datatype Cli = ClaudeCode | OpenCode
  datatype Config = Config(cli: Cli, remoteControl: bool, skipPermissions: bool, image: string, leaseSeconds: int)

  /** Which session a run works in, and whether that one exists already. */
  datatype RunSession = RunSession(id: Session, resume: bool)

  datatype Phase = Starting | Working | Over
  datatype Run = Run(job: JobId, config: Config, session: Option<RunSession>, phase: Phase, lost: bool)

  datatype Message =
    | Heartbeat(job: JobId, token: Token, secs: int)
    | SessionReport(job: JobId, token: Token, session: Session, remote: Option<string>)
    | Suspend(job: JobId, token: Token)
    | Complete(job: JobId, token: Token, outcome: JobOutcome, exitCode: Option<int>, output: string)

  datatype World = World(
    rows: Table,
    now: int,
    nextToken: Token,
    claims: map<Token, Claim>,
    runs: map<Token, Run>,
    network: set<Message>,
    refused: set<Token>,
    log: History)

  datatype Step =
    // The world and the routes
    | Tick(elapsed: nat)
    | Create(id: JobId, command: string, createdBy: Option<string>, maxAttempts: nat)
    | Resume(id: JobId)
    // The two statements of a claim
    | Sweep
    | ClaimOldest(id: JobId, worker: string, secs: int, locked: set<JobId>)
    // The rest of the store, reached through the network
    | Deliver(message: Message)
    // A driver's side of one claim, named by its token
    | Accept(token: Token, config: Config, usableWorkspace: bool)
    | ReportSession(token: Token)
    | ReportRemote(token: Token, remote: string)
    | Launch(token: Token)
    | Beat(token: Token)
    | LearnLost(token: Token)
    | Finish(token: Token, outcome: Outcome)
    | Crash(token: Token)

  // ----- driver/src/docker.ts: what a container is told -----

  datatype Arg = Word(text: string) | Uuid(session: Session)

  /** What a claude-code run is told between its session and its command. */
  function Flags(config: Config, name: string, resume: bool): seq<Arg> {
    (if config.skipPermissions then [Word("--dangerously-skip-permissions")] else [])
    + (if config.remoteControl then [Word("--remote-control"), Word(name)] else if !resume then [Word("-p")] else [])
  }

  /** The argument list from the image on; None where docker.ts refuses to build one. */
  function RunnerArgs(config: Config, name: string, command: string, session: Option<RunSession>): Option<seq<Arg>> {
    match config.cli
    case OpenCode => if session.Some? then None else Some([Word(config.image), Word("run"), Word(command)])
    case ClaudeCode =>
      if session.None? then None
      else
        var s := session.value;
        Some([Word(config.image), Word(if s.resume then "--resume" else "--session-id"), Uuid(s.id)]
             + (Flags(config, name, s.resume) + if s.resume then [] else [Word(command)]))
  }

  predicate CarriesCommand(session: Option<RunSession>) {
    session.Some? ==> !session.value.resume
  }

  /**
   * A run that opens a session gives it the minted id and brings the command, as the last argument; one that
   * restores a session names that one, and the command appears nowhere.
   */
  lemma CommandOnlyWhenOpening(config: Config, name: string, command: string, session: Option<RunSession>)
    requires RunnerArgs(config, name, command, session).Some?
    ensures var args := RunnerArgs(config, name, command, session).value;
      && args[0] == Word(config.image)
      && (session.None? ==> args[1..] == [Word("run"), Word(command)])
      && (session.Some? && !session.value.resume ==>
           args[1..3] == [Word("--session-id"), Uuid(session.value.id)] && args[|args| - 1] == Word(command))
      && (session.Some? && session.value.resume ==>
           && args[1..3] == [Word("--resume"), Uuid(session.value.id)]
           && forall other :: RunnerArgs(config, name, other, session) == Some(args))
    ensures session.Some? <==> config.cli.ClaudeCode?
    ensures session.Some? ==>
      var args, resume := RunnerArgs(config, name, command, session).value, session.value.resume;
      args[3..] == Flags(config, name, resume) + if resume then [] else [Word(command)]
  {
    if session.Some? {
      var s := session.value;
      var head := [Word(config.image), Word(if s.resume then "--resume" else "--session-id"), Uuid(s.id)];
      var tail := Flags(config, name, s.resume) + if s.resume then [] else [Word(command)];
      assert RunnerArgs(config, name, command, session) == Some(head + tail);
      assert (head + tail)[1..3] == [head[1], head[2]] && (head + tail)[3..] == tail;
    }
  }

  /** Between the two: the permissions flag, and the name under Remote Control or `-p` for a headless new session. */
  lemma FlagsOfARun(config: Config, name: string, resume: bool)
    ensures var flags, alone := Flags(config, name, resume), if config.skipPermissions then 1 else 0;
      && |flags| == alone + (if config.remoteControl then 2 else if resume then 0 else 1)
      && (config.skipPermissions ==> flags[0] == Word("--dangerously-skip-permissions"))
      && (config.remoteControl ==> flags[alone] == Word("--remote-control") && flags[alone + 1] == Word(name))
      && (!config.remoteControl && !resume ==> flags[alone] == Word("-p"))
  {
  }

  // ----- The steps -----

  function Init(now: int): World {
    World(map[], now, 0, map[], map[], {}, {}, Start)
  }

  function Send(w: World, m: Message): World { w.(network := w.network + {m}) }
  function Log(w: World, e: Event): World { w.(log := After(w.log, e)) }
  function SetRow(w: World, id: JobId, r: Row): World { w.(rows := w.rows[id := r]) }
  function SetRun(w: World, t: Token, r: Run): World { w.(runs := w.runs[t := r]) }

  function DoSweep(w: World): World {
    Log(w.(rows := Swept(w.rows, w.now)), SweptAway((set id | id in w.rows && Burned(w.rows[id], w.now)), w.now))
  }

  function DoClaim(w: World, id: JobId, worker: string, secs: int): World
    requires id in w.rows
  {
    var r := ClaimedRow(w.rows[id], worker, w.nextToken, w.now, secs);
    var c := Claim(id, r.command, r.attempts, w.nextToken, r.leaseExpiresAt, r.createdBy, r.sessionId);
    Log(SetRow(w, id, r).(nextToken := w.nextToken + 1, claims := w.claims[w.nextToken := c]),
        Claimed(id, w.nextToken, r.sessionId, w.now, r.leaseExpiresAt))
  }

  function DoDeliver(w: World, m: Message): World {
    if !Holds(w.rows, m.job, m.token) then
      if m.Heartbeat? && m.job in w.rows then w.(refused := w.refused + {m.token}) else w
    else
      var r := w.rows[m.job];
      match m
      case Heartbeat(job, token, secs) =>
        Log(SetRow(w, job, ExtendedRow(r, w.now, secs)), Extended(job, token, w.now + secs))
      case SessionReport(job, token, s, remote) =>
        Log(SetRow(w, job, RecordedRow(r, s, remote)), Recorded(job, token, s))
      case Suspend(job, token) =>
        Log(SetRow(w, job, ParkedRow(r, w.now)), Parked(job, token))
      case Complete(job, token, outcome, exitCode, output) =>
        Log(SetRow(w, job, CompletedRow(r, outcome, exitCode, Some(output), w.now)),
            Completed(job, token, Completion(outcome, exitCode, Some(output))))
  }

  /** A claim's reply reaches its driver: failed at once, or the beginning of a run. */
  function DoAccept(w: World, t: Token, config: Config, usable: bool): World
    requires t in w.claims
  {
    var c := w.claims[t];
    if !usable || (config.cli.OpenCode? && c.resumeSessionId.Some?) then
      Send(SetRun(w, t, Run(c.id, config, None, Over, false)), Complete(c.id, t, RunFailed, None, "not run"))
    else
      var session :=
        if config.cli.OpenCode? then None
        else if c.resumeSessionId.Some? then Some(RunSession(c.resumeSessionId.value, true))
        else Some(RunSession(Session(t), false));
      SetRun(w, t, Run(c.id, config, session, Starting, false))
  }

  function DoLaunch(w: World, t: Token): World
    requires t in w.runs
  {
    var run := w.runs[t];
    Log(SetRun(w, t, run.(phase := Working)),
        Launched(run.job, t, if run.session.Some? then Some(run.session.value.id) else None,
            CarriesCommand(run.session)))
  }

  function SessionMessage(run: Run, t: Token, remote: Option<string>): Message
    requires run.session.Some?
  {
    SessionReport(run.job, t, run.session.value.id, remote)
  }

  /** Parked when idle, otherwise completed: succeeded exactly on exit code zero within the time limit. */
  function ReportOf(run: Run, t: Token, outcome: Outcome): Message {
    match outcome
    case Idled => Suspend(run.job, t)
    case Exited(exitCode, timedOut, output) =>
      Complete(run.job, t, if exitCode == Some(0) && !timedOut then RunSucceeded else RunFailed, exitCode, output)
  }

  /** The container is gone. A run that has seen its lease lost reports nothing. */
  function DoFinish(w: World, t: Token, outcome: Outcome): World
    requires t in w.runs
  {
    var run := w.runs[t];
    var w' := Log(SetRun(w, t, run.(phase := Over)), Ended(run.job, t, outcome));
    if run.lost then w' else Send(w', ReportOf(run, t, outcome))
  }

  /** Whether a step can be taken; `Apply` leaves the world alone when it cannot. */
  predicate Enabled(w: World, s: Step) {
    match s
    case Tick(_) => true
    case Create(id, _, _, maxAttempts) => id !in w.rows && maxAttempts >= 1
    case Resume(id) => id in w.rows && w.rows[id].status.Standby?
    case Sweep => true
    case ClaimOldest(id, _, _, locked) => IsOldest(w.rows, w.now, locked, id)
    case Deliver(m) => m in w.network
    case Accept(t, config, _) =>
      // The configuration refuses Remote Control under opencode at startup.
      t in w.claims && t !in w.runs && (config.cli.OpenCode? ==> !config.remoteControl)
    case ReportSession(t) =>
      t in w.runs && w.runs[t].phase.Starting? && w.runs[t].session.Some? && !w.runs[t].session.value.resume
    case ReportRemote(t, _) =>
      t in w.runs && !w.runs[t].phase.Over? && w.runs[t].config.remoteControl && w.runs[t].session.Some?
    case Launch(t) => t in w.runs && w.runs[t].phase.Starting?
    case Beat(t) => t in w.runs && !w.runs[t].phase.Over? && !w.runs[t].lost
    case LearnLost(t) => t in w.runs && !w.runs[t].phase.Over? && t in w.refused
    case Finish(t, outcome) =>
      // The idle timer is armed only under Remote Control.
      t in w.runs && w.runs[t].phase.Working? && (outcome.Idled? ==> w.runs[t].config.remoteControl)
    case Crash(t) => t in w.runs
  }

  function Apply(w: World, s: Step): World {
    if !Enabled(w, s) then w
    else match s
      case Tick(d) => w.(now := w.now + d)
      case Create(id, command, createdBy, maxAttempts) => SetRow(w, id, NewRow(command, createdBy, w.now, maxAttempts))
      case Resume(id) => Log(SetRow(w, id, ResumedRow(w.rows[id])), Resumed(id))
      case Sweep => DoSweep(w)
      case ClaimOldest(id, worker, secs, _) => DoClaim(w, id, worker, secs)
      case Deliver(m) => DoDeliver(w, m)
      case Accept(t, config, usable) => DoAccept(w, t, config, usable)
      case ReportSession(t) => Send(w, SessionMessage(w.runs[t], t, None))
      case ReportRemote(t, remote) => Send(w, SessionMessage(w.runs[t], t, Some(remote)))
      case Launch(t) => DoLaunch(w, t)
      case Beat(t) => Send(w, Heartbeat(w.runs[t].job, t, w.runs[t].config.leaseSeconds))
      case LearnLost(t) => SetRun(w, t, w.runs[t].(lost := true))
      case Finish(t, outcome) => DoFinish(w, t, outcome)
      case Crash(t) => SetRun(w, t, w.runs[t].(phase := Over))
  }

  /** The world a schedule leads to. */
  function Execute(w: World, schedule: seq<Step>): World
    decreases |schedule|
  {
    if schedule == [] then w else Execute(Apply(w, schedule[0]), schedule[1..])
  }

  lemma {:induction false} ExecuteJoin(w: World, a: seq<Step>, b: seq<Step>)
    ensures Execute(w, a + b) == Execute(Execute(w, a), b)
    decreases |a|
  {
    if a == [] {
      assert a + b == b;
    } else {
      ExecuteJoin(Apply(w, a[0]), a[1..], b);
      assert (a + b)[1..] == a[1..] + b;
    }
  }
}
