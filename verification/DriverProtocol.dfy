/**
 * A driver of DriverLoop.dfy does only what Protocol.dfy lets a driver do: every turn of a run is a few
 * protocol steps, all of them enabled, with the same messages and launches.
 */
module DriverProtocol {
  import opened Common
  import opened JobBoard
  import opened History
  import opened Protocol
  import D = DriverLoop

  // ----- Turns as steps -----

  function OutcomeOf(outcome: D.Outcome): Outcome
    requires !outcome.Failed?
  {
    match outcome
    case Idled => Idled
    case Exited(code, timedOut, output) => Exited(code, timedOut, output)
  }

  /**
   * What a turn of the run that holds `t` is on the board's side. A container that never ran leaves the job
   * to its lease.
   */
  function StepsOf(t: Token, j: D.Job, turn: D.JobTurn): seq<Step>
    requires D.CanTake(j, turn)
  {
    match turn
    case AnnounceEnds => [Launch(t)]
    case ContainerEnds(_) => []
    case HelpersEnd => if j.stage.outcome.Failed? then [Crash(t)] else [Finish(t, OutcomeOf(j.stage.outcome))]
    case ReportEnds => []
    case BeatWakes => if j.finished then [] else [Beat(t)]
    case BeatVerdict(verdict) => if verdict.Lost? then [LearnLost(t)] else []
    case KillEnds => []
    case WatchWakes => []
    case WatchAnswer(found) => if found.Found? then [ReportRemote(t, found.remote)] else []
    case TellEnds => []
  }

  function PhaseOf(stage: D.Stage): Phase {
    match stage
    case Announcing => Starting
    case Running => Working
    case Settling(_) => Working
    case Reporting => Over
    case Refused => Over
    case Settled => Over
  }

  /** The driver's run and the protocol's run are in the same place. */
  predicate Matches(j: D.Job, run: Run) {
    && D.JobOk(j)
    && run.phase == PhaseOf(j.stage) && run.lost == j.lost
    && (!j.watch.WatchOver? ==> run.config.remoteControl && run.session.Some?)
    && (j.stage.Settling? && j.stage.outcome.Idled? ==> run.config.remoteControl)
  }

  /** What the outside can answer: a lease is lost only where the board said so, and only a drivable container idles. */
  predicate Answerable(w: World, t: Token, turn: D.JobTurn)
    requires t in w.runs
  {
    && (turn.BeatVerdict? && turn.verdict.Lost? ==> t in w.refused)
    && (turn.ContainerEnds? && turn.outcome.Idled? ==> w.runs[t].config.remoteControl)
  }

  /** Each step is possible when it comes. */
  predicate AllEnabled(w: World, steps: seq<Step>)
    decreases |steps|
  {
    steps == [] || (Enabled(w, steps[0]) && AllEnabled(Apply(w, steps[0]), steps[1..]))
  }

  // ----- Deeds as messages -----

  function ReportMessage(run: Run, t: Token, report: D.Report): Message {
    match report
    case ReportSuspend => Suspend(run.job, t)
    case ReportComplete(succeeded, code, output) =>
      Complete(run.job, t, if succeeded then RunSucceeded else RunFailed, code, output)
  }

  /** The request a deed puts on the network; starting the container puts none there. */
  function MessagesOf(run: Run, t: Token, deed: D.Deed): set<Message>
    requires deed.Announce? || deed.TellRemote? ==> run.session.Some?
  {
    match deed
    case Announce => {SessionMessage(run, t, None)}
    case StartContainer => {}
    case SendBeat => {Heartbeat(run.job, t, run.config.leaseSeconds)}
    case TellRemote(remote) => {SessionMessage(run, t, Some(remote))}
    case SendReport(report) => {ReportMessage(run, t, report)}
  }

  function LaunchEvent(run: Run, t: Token): Event {
    Launched(run.job, t, if run.session.Some? then Some(run.session.value.id) else None, CarriesCommand(run.session))
  }

  /** What a turn adds to what has happened: a launch, or the end of a container that ran. */
  function EventOf(run: Run, t: Token, j: D.Job, turn: D.JobTurn): Option<Event>
    requires D.CanTake(j, turn)
  {
    if turn.AnnounceEnds? then Some(LaunchEvent(run, t))
    else if turn.HelpersEnd? && !j.stage.outcome.Failed? then Some(Ended(run.job, t, OutcomeOf(j.stage.outcome)))
    else None
  }

  function Logged(h: History, e: Option<Event>): History { if e.Some? then After(h, e.value) else h }

  lemma OneStep(w: World, s: Step)
    requires Enabled(w, s)
    ensures AllEnabled(w, [s]) && Execute(w, [s]) == Apply(w, s)
  {
    assert [s][1..] == [];
    assert Execute(Apply(w, s), []) == Apply(w, s);
  }

  /** Where a turn leaves its run. */
  lemma TurnMatches(w: World, t: Token, j: D.Job, turn: D.JobTurn)
    requires t in w.runs && Matches(j, w.runs[t]) && D.InFlight(j) && D.CanTake(j, turn) && Answerable(w, t, turn)
    ensures var steps := StepsOf(t, j, turn);
      var w' := Execute(w, steps);
      AllEnabled(w, steps) && t in w'.runs && Matches(D.Next(j, turn), w'.runs[t])
  {
    D.NextKeepsJobOk(j, turn);
    var steps := StepsOf(t, j, turn);
    if steps != [] {
      OneStep(w, steps[0]);
      assert steps == [steps[0]];
    }
  }

  /** What a turn does to everything else, once its one step, if any, is taken. */
  predicate Sends(w: World, w': World, t: Token, j: D.Job, turn: D.JobTurn)
    requires t in w.runs && D.CanTake(j, turn)
  {
    var run, deed := w.runs[t], D.DeedOf(j, turn);
    && (deed.Some? && (deed.value.Announce? || deed.value.TellRemote?) ==> run.session.Some?)
    && w'.network == w.network + (if deed.Some? then MessagesOf(run, t, deed.value) else {})
    && w'.log == Logged(w.log, EventOf(run, t, j, turn)) && (deed == Some(D.StartContainer) <==> turn.AnnounceEnds?)
    && w'.rows == w.rows
  }

  lemma EndSends(w: World, t: Token, j: D.Job)
    requires t in w.runs && Matches(j, w.runs[t]) && D.CanTake(j, D.HelpersEnd)
    requires Enabled(w, StepsOf(t, j, D.HelpersEnd)[0])
    ensures Sends(w, Apply(w, StepsOf(t, j, D.HelpersEnd)[0]), t, j, D.HelpersEnd)
  {
  }

  lemma StepSends(w: World, t: Token, j: D.Job, turn: D.JobTurn)
    requires t in w.runs && Matches(j, w.runs[t]) && D.CanTake(j, turn) && !turn.HelpersEnd?
    requires StepsOf(t, j, turn) != [] && Enabled(w, StepsOf(t, j, turn)[0])
    ensures Sends(w, Apply(w, StepsOf(t, j, turn)[0]), t, j, turn)
  {
  }

  lemma TurnSends(w: World, t: Token, j: D.Job, turn: D.JobTurn)
    requires t in w.runs && Matches(j, w.runs[t]) && D.InFlight(j) && D.CanTake(j, turn)
    requires AllEnabled(w, StepsOf(t, j, turn))
    ensures Sends(w, Execute(w, StepsOf(t, j, turn)), t, j, turn)
  {
    var steps := StepsOf(t, j, turn);
    if steps != [] {
      assert steps == [steps[0]];
      OneStep(w, steps[0]);
      if turn.HelpersEnd? {
        EndSends(w, t, j);
      } else {
        StepSends(w, t, j, turn);
      }
    }
  }

  /**
   * A turn is enabled protocol steps, which put on the network what the turn sends, launch what it starts, and
   * match again.
   */
  lemma TurnIsProtocol(w: World, t: Token, j: D.Job, turn: D.JobTurn)
    requires t in w.runs && Matches(j, w.runs[t]) && D.InFlight(j) && D.CanTake(j, turn) && Answerable(w, t, turn)
    ensures var steps, run, deed := StepsOf(t, j, turn), w.runs[t], D.DeedOf(j, turn);
      var w' := Execute(w, steps);
      && AllEnabled(w, steps)
      && t in w'.runs && Matches(D.Next(j, turn), w'.runs[t])
      && (deed.Some? && (deed.value.Announce? || deed.value.TellRemote?) ==> run.session.Some?)
      && w'.network == w.network + (if deed.Some? then MessagesOf(run, t, deed.value) else {})
      && w'.log == Logged(w.log, EventOf(run, t, j, turn)) && (deed == Some(D.StartContainer) <==> turn.AnnounceEnds?)
      && w'.rows == w.rows
  {
    TurnMatches(w, t, j, turn);
    TurnSends(w, t, j, turn);
  }

  /**
   * What a run says about itself when it is over, and when: nothing else it ever sends ends its job. A lost
   * one says nothing; a drivable container that idled parks the job; otherwise the job is completed, and as a
   * success exactly when the container exited with code zero in time.
   */
  lemma SuccessIsReportedExactlyOnExitZero(w: World, t: Token, j: D.Job, turn: D.JobTurn, m: Message)
    requires t in w.runs && Matches(j, w.runs[t]) && D.InFlight(j) && D.CanTake(j, turn) && Answerable(w, t, turn)
    requires (m.Suspend? || m.Complete?) && m !in w.network
    ensures m in Execute(w, StepsOf(t, j, turn)).network <==>
      && turn.HelpersEnd? && !j.lost && !j.stage.outcome.Failed?
      && m.job == w.runs[t].job && m.token == t
      && match j.stage.outcome
         case Idled => m.Suspend?
         case Exited(code, timedOut, output) =>
           && m.Complete? && m.exitCode == code && m.output == output
           && (m.outcome == RunSucceeded <==> code == Some(0) && !timedOut)
  {
    TurnIsProtocol(w, t, j, turn);
  }

  // ----- Claims -----

  predicate Runnable(claim: Claim, config: Config) { !(config.cli.OpenCode? && claim.resumeSessionId.Some?) }

  /** A fresh claude-code session is announced. */
  predicate Announces(claim: Claim, config: Config) { config.cli.ClaudeCode? && claim.resumeSessionId.None? }

  function ClaimSteps(t: Token, claim: Claim, config: Config): seq<Step> {
    [Accept(t, config, true), if Announces(claim, config) then ReportSession(t) else Launch(t)]
  }

  /** A claim that is run: accepted, and announced or launched at once. */
  lemma ClaimIsProtocol(w: World, t: Token, config: Config)
    requires t in w.claims && t !in w.runs && (config.cli.OpenCode? ==> !config.remoteControl)
    requires Runnable(w.claims[t], config)
    ensures var steps := ClaimSteps(t, w.claims[t], config);
      var w' := Execute(w, steps);
      && AllEnabled(w, steps) && t in w'.runs
      && Matches(D.NewJob(Announces(w.claims[t], config), config.remoteControl), w'.runs[t])
      && (Announces(w.claims[t], config) ==> w'.runs[t].session.Some?)
      && w'.network ==
        w.network + (if Announces(w.claims[t], config) then {SessionMessage(w'.runs[t], t, None)} else {})
      && w'.log == (if Announces(w.claims[t], config) then w.log else After(w.log, LaunchEvent(w'.runs[t], t)))
  {
    var steps := ClaimSteps(t, w.claims[t], config);
    var w1 := Apply(w, steps[0]);
    D.NewJobOk(Announces(w.claims[t], config), config.remoteControl);
    assert steps[1..] == [steps[1]];
    OneStep(w1, steps[1]);
  }

  /** A claim that cannot be run: accepted and failed in one step. */
  lemma RefusalIsProtocol(w: World, t: Token, config: Config, usable: bool)
    requires t in w.claims && t !in w.runs && (config.cli.OpenCode? ==> !config.remoteControl)
    requires !usable || !Runnable(w.claims[t], config)
    ensures var w' := Apply(w, Accept(t, config, usable));
      && Enabled(w, Accept(t, config, usable)) && t in w'.runs && Matches(D.RefusedJob(), w'.runs[t])
      && w'.network == w.network + MessagesOf(w'.runs[t], t, D.RefusedJob().deeds[0])
      && forall m | m in w'.network && m !in w.network ::
          m.Complete? && m.job == w.claims[t].id && m.token == t && m.outcome == RunFailed && m.exitCode.None?
  {
    D.RefusedJobOk();
  }

  // ----- A whole run among everything else -----

  /** Something other than a move of the run that holds `t`: the board, time, or any other driver. */
  predicate Foreign(s: Step, t: Token) {
    match s
    case Accept(o, _, _) => o != t
    case ReportSession(o) => o != t
    case ReportRemote(o, _) => o != t
    case Launch(o) => o != t
    case Beat(o) => o != t
    case LearnLost(o) => o != t
    case Finish(o, _) => o != t
    case Crash(o) => o != t
    case Tick(_) => true
    case Create(_, _, _, _) => true
    case Resume(_) => true
    case Sweep => true
    case ClaimOldest(_, _, _, _) => true
    case Deliver(_) => true
  }

  lemma ForeignLeavesTheRun(w: World, s: Step, t: Token)
    requires t in w.runs && Foreign(s, t)
    ensures t in Apply(w, s).runs && Apply(w, s).runs[t] == w.runs[t]
  {
  }

  datatype Act = Mine(turn: D.JobTurn) | Theirs(step: Step)

  /** Turns of the run come when they can, with answers the outside can give; anything may happen between. */
  ghost predicate Possible(w: World, t: Token, j: D.Job, acts: seq<Act>)
    decreases |acts|
  {
    acts != [] ==>
      match acts[0]
      case Mine(turn) =>
        && t in w.runs && D.InFlight(j) && D.CanTake(j, turn) && Answerable(w, t, turn)
        && Possible(Execute(w, StepsOf(t, j, turn)), t, D.Next(j, turn), acts[1..])
      case Theirs(s) => Foreign(s, t) && Possible(Apply(w, s), t, j, acts[1..])
  }

  /** The protocol schedule of such a run, and where it takes the driver's side. */
  ghost function ScheduleOf(w: World, t: Token, j: D.Job, acts: seq<Act>): (seq<Step>, D.Job)
    requires Possible(w, t, j, acts)
    decreases |acts|
  {
    if acts == [] then ([], j)
    else match acts[0]
      case Mine(turn) =>
        var rest := ScheduleOf(Execute(w, StepsOf(t, j, turn)), t, D.Next(j, turn), acts[1..]);
        (StepsOf(t, j, turn) + rest.0, rest.1)
      case Theirs(s) =>
        var rest := ScheduleOf(Apply(w, s), t, j, acts[1..]);
        ([s] + rest.0, rest.1)
  }

  /** A step of this run is never one that has no effect. */
  ghost predicate OwnStepsEnabled(w: World, t: Token, schedule: seq<Step>)
    decreases |schedule|
  {
    schedule == []
    || ((Foreign(schedule[0], t) || Enabled(w, schedule[0])) &&
         OwnStepsEnabled(Apply(w, schedule[0]), t, schedule[1..]))
  }

  lemma {:induction false} EnabledJoin(w: World, t: Token, a: seq<Step>, b: seq<Step>)
    requires AllEnabled(w, a) && OwnStepsEnabled(Execute(w, a), t, b)
    ensures OwnStepsEnabled(w, t, a + b)
    decreases |a|
  {
    if a == [] {
      assert a + b == b;
    } else {
      EnabledJoin(Apply(w, a[0]), t, a[1..], b);
      assert (a + b)[1..] == a[1..] + b && (a + b)[0] == a[0];
    }
  }

  /**
   * Over any turns of a run, with anything else happening between them, the whole is a schedule of the
   * protocol in which every step of this run is enabled; the driver's side and the protocol's stay in step.
   * What Safety.dfy proves of every schedule therefore holds of drivers that run this loop.
   */
  lemma {:induction false} RunIsProtocol(w: World, t: Token, j: D.Job, acts: seq<Act>)
    requires t in w.runs && Matches(j, w.runs[t]) && Possible(w, t, j, acts)
    ensures var (schedule, j') := ScheduleOf(w, t, j, acts);
      var w' := Execute(w, schedule);
      OwnStepsEnabled(w, t, schedule) && t in w'.runs && Matches(j', w'.runs[t])
    decreases |acts|
  {
    if acts == [] {
    } else {
      match acts[0]
      case Mine(turn) =>
        var steps := StepsOf(t, j, turn);
        TurnIsProtocol(w, t, j, turn);
        var mid, next := Execute(w, steps), D.Next(j, turn);
        RunIsProtocol(mid, t, next, acts[1..]);
        var rest := ScheduleOf(mid, t, next, acts[1..]).0;
        ExecuteJoin(w, steps, rest);
        EnabledJoin(w, t, steps, rest);
      case Theirs(s) =>
        ForeignLeavesTheRun(w, s, t);
        RunIsProtocol(Apply(w, s), t, j, acts[1..]);
        var rest := ScheduleOf(Apply(w, s), t, j, acts[1..]).0;
        assert ([s] + rest)[1..] == rest;
    }
  }
}
