/**
 * One driver process, driver/src/loop.ts, turn by turn: a turn is what runs between two awaits.
 *
 * `Loop` holds what the closure holds (`running`, `active` and one `JobState` per run) plus, for each
 * coroutine, the await it is parked on. Turns may come in any order the event loop could produce.
 */
module DriverLoop {
  import opened Common

  type Token = nat

  const REMOTE_LOOKUPS: nat := 40

  // What the main coroutine awaits.
  datatype Main = AtTop | Racing(waiting: set<Token>) | Claiming | Sleeping | Refusing(token: Token) | Draining |
      Returned

  // What a run's heartbeat awaits: its period, the board, the kill, nothing.
  datatype Beat = Resting | Asking | Killing | BeatOver

  // What a run's search for the remote session awaits.
  datatype Watch = Polling(tries: nat) | Looking(tries: nat) | Telling | WatchOver

  // `output` is the text that is reported.
  datatype Outcome = Failed | Idled | Exited(code: Option<int>, timedOut: bool, output: string)
  datatype Report = ReportSuspend | ReportComplete(succeeded: bool, code: Option<int>, output: string)
  datatype Verdict = Held | Lost | NoAnswer
  datatype Lookup = Found(remote: string) | NotYet | Unreadable

  // What `runJob` awaits; `Refused` is a job failed before it ran.
  datatype Stage = Announcing | Running | Settling(outcome: Outcome) | Reporting | Refused | Settled

  // What a run does to the outside: requests to the board, and the container.
  datatype Deed = Announce | StartContainer | SendBeat | TellRemote(remote: string) | SendReport(report: Report)

  datatype Job = Job(
    stage: Stage, finished: bool, lost: bool, beat: Beat, watch: Watch, reports: seq<Report>, kills: nat,
        deeds: seq<Deed>)

  datatype JobTurn =
    | AnnounceEnds | ContainerEnds(outcome: Outcome) | HelpersEnd | ReportEnds
    | BeatWakes | BeatVerdict(verdict: Verdict) | KillEnds
    | WatchWakes | WatchAnswer(found: Lookup) | TellEnds

  datatype Turn =
    | StopCalled | LoopTop | RaceEnds | ClaimNone | SleepEnds | ClaimBad(token: Token) | BadSent
    | ClaimGood(token: Token, announce: bool) | DrainEnds
    | OfJob(token: Token, turn: JobTurn)

  // ----- One run -----

  /** A fresh session is announced before the container starts; a resumed one, or none at all, is not. */
  function NewJob(announce: bool, remoteControl: bool): Job {
    Job(if announce then Announcing else Running, false, false, Resting,
        if remoteControl then Polling(0) else WatchOver, [], 0, [if announce then Announce else StartContainer])
  }

  function RefusedJob(): Job {
    var report := ReportComplete(false, None, "not run");
    Job(Refused, true, false, BeatOver, WatchOver, [report], 0, [SendReport(report)])
  }

  /** The heads of the two helper loops: whether they go round again. */
  function BeatAgain(j: Job): Job { j.(beat := if j.finished || j.lost then BeatOver else Resting) }

  function WatchAgain(j: Job, tries: nat): Job {
    j.(watch := if tries < REMOTE_LOOKUPS && !j.finished && !j.lost then Polling(tries) else WatchOver)
  }

  predicate Quiet(j: Job) { j.beat.BeatOver? && j.watch.WatchOver? }

  function ReportFor(outcome: Outcome): Report
    requires !outcome.Failed?
  {
    match outcome
    case Idled => ReportSuspend
    case Exited(code, timedOut, output) => ReportComplete(code == Some(0) && !timedOut, code, output)
  }

  function Starts(deeds: seq<Deed>): nat { multiset(deeds)[StartContainer] }

  /** The reports that were sent are those the run has made, each sent once. */
  predicate ReportsSent(deeds: seq<Deed>, reports: seq<Report>) {
    && (forall d | d in deeds && d.SendReport? :: d.report in reports)
    && (forall r | r in reports :: multiset(deeds)[SendReport(r)] == 1)
  }

  /** What was done to the outside: one container, once the session is announced, and the reports there are. */
  predicate DeedsOk(j: Job) {
    && ReportsSent(j.deeds, j.reports)
    && Starts(j.deeds) <= 1
    && (j.stage.Announcing? || j.stage.Refused? ==> Starts(j.deeds) == 0)
    && (j.stage.Running? || j.stage.Settling? || j.stage.Reporting? ==> Starts(j.deeds) == 1)
  }

  predicate JobOk(j: Job) {
    && (j.finished <==> !(j.stage.Announcing? || j.stage.Running?))
    && (j.stage.Reporting? || j.stage.Settled? || j.stage.Refused? ==> Quiet(j))
    && |j.reports| <= 1
    && (j.reports != [] ==> j.stage.Reporting? || j.stage.Settled? || j.stage.Refused?)
    && (j.lost ==> j.reports == [] && j.beat in {Killing, BeatOver})
    && j.kills == (if j.lost then 1 else 0)
    && (j.beat.Killing? ==> j.lost)
    // Only the end of the run or of its lease ends its heartbeat.
    && (j.beat.BeatOver? ==> j.finished || j.lost)
    && (j.watch.Polling? || j.watch.Looking? ==> j.watch.tries < REMOTE_LOOKUPS)
  }

  predicate InFlight(j: Job) { !j.stage.Settled? && !j.stage.Refused? }

  /** The await that a turn resumes. */
  predicate CanTake(j: Job, turn: JobTurn) {
    match turn
    case AnnounceEnds => j.stage.Announcing?
    case ContainerEnds(_) => j.stage.Running?
    case HelpersEnd => j.stage.Settling? && Quiet(j)
    case ReportEnds => j.stage.Reporting?
    case BeatWakes => j.beat.Resting?
    case BeatVerdict(_) => j.beat.Asking?
    case KillEnds => j.beat.Killing?
    case WatchWakes => j.watch.Polling?
    case WatchAnswer(_) => j.watch.Looking?
    case TellEnds => j.watch.Telling?
  }

  function Do(j: Job, deed: Deed): Job { j.(deeds := j.deeds + [deed]) }

  /** What each turn makes of its run. */
  function Next(j: Job, turn: JobTurn): Job
    requires CanTake(j, turn)
  {
    match turn
    case AnnounceEnds => Do(j.(stage := Running), StartContainer)
    case ContainerEnds(outcome) => j.(stage := Settling(outcome), finished := true)
    case HelpersEnd =>
      if j.lost || j.stage.outcome.Failed? then j.(stage := Settled)
      else Do(j.(stage := Reporting, reports := [ReportFor(j.stage.outcome)]), SendReport(ReportFor(j.stage.outcome)))
    case ReportEnds => j.(stage := Settled)
    case BeatWakes => if j.finished then j.(beat := BeatOver) else Do(j.(beat := Asking), SendBeat)
    case BeatVerdict(verdict) => if verdict.Lost? then j.(lost := true, beat := Killing, kills := 1) else BeatAgain(j)
    case KillEnds => BeatAgain(j)
    case WatchWakes => if j.finished then j.(watch := WatchOver) else j.(watch := Looking(j.watch.tries))
    case WatchAnswer(found) =>
      if found.Found? then Do(j.(watch := Telling), TellRemote(found.remote))
      else if found.NotYet? then WatchAgain(j, j.watch.tries + 1)
      else j.(watch := WatchOver)
    case TellEnds => j.(watch := WatchOver)
  }

  /** What a turn does to the outside. */
  function DeedOf(j: Job, turn: JobTurn): Option<Deed>
    requires CanTake(j, turn)
  {
    match turn
    case AnnounceEnds => Some(StartContainer)
    case HelpersEnd => if j.lost || j.stage.outcome.Failed? then None else Some(SendReport(ReportFor(j.stage.outcome)))
    case BeatWakes => if j.finished then None else Some(SendBeat)
    case WatchAnswer(found) => if found.Found? then Some(TellRemote(found.remote)) else None
    case _ => None
  }

  lemma NextDoes(j: Job, turn: JobTurn)
    requires CanTake(j, turn)
    ensures Next(j, turn).deeds == if DeedOf(j, turn).Some? then j.deeds + [DeedOf(j, turn).value] else j.deeds
  {
  }

  lemma DeedDone(deeds: seq<Deed>, deed: Deed)
    ensures multiset(deeds + [deed]) == multiset(deeds) + multiset{deed}
    ensures forall d :: d in deeds + [deed] <==> d in deeds || d == deed
  {
  }

  lemma NextKeepsDeedsOk(j: Job, turn: JobTurn)
    requires JobOk(j) && DeedsOk(j) && InFlight(j) && CanTake(j, turn)
    ensures DeedsOk(Next(j, turn))
  {
    NextDoes(j, turn);
    if DeedOf(j, turn).Some? {
      DeedDone(j.deeds, DeedOf(j, turn).value);
    }
  }

  lemma NewJobOk(announce: bool, remoteControl: bool)
    ensures var j := NewJob(announce, remoteControl);
      && Sound(j) && InFlight(j) && !j.stage.Refused?
      && j.beat == Resting && (j.watch.Polling? <==> remoteControl)
      && j.deeds == [if announce then Announce else StartContainer]
  {
  }

  lemma RefusedJobOk()
    ensures var j := RefusedJob();
      && Sound(j) && Sound(j.(stage := Settled)) && !InFlight(j) && Starts(j.deeds) == 0
      && |j.reports| == 1 && j.reports[0].ReportComplete? && !j.reports[0].succeeded
  {
  }

  lemma NextKeepsJobOk(j: Job, turn: JobTurn)
    requires JobOk(j) && InFlight(j) && CanTake(j, turn)
    ensures JobOk(Next(j, turn)) && !Next(j, turn).stage.Refused?
    ensures Next(j, turn).stage.Settled? <==>
      turn.ReportEnds? || (turn.HelpersEnd? && (j.lost || j.stage.outcome.Failed?))
  {
  }

  /** What every run of a driver keeps. */
  predicate Sound(j: Job) { JobOk(j) && DeedsOk(j) }

  lemma NextKeepsSound(j: Job, turn: JobTurn)
    requires Sound(j) && InFlight(j) && CanTake(j, turn)
    ensures Sound(Next(j, turn)) && !Next(j, turn).stage.Refused?
    ensures Next(j, turn).stage.Settled? <==>
      turn.ReportEnds? || (turn.HelpersEnd? && (j.lost || j.stage.outcome.Failed?))
  {
    NextKeepsJobOk(j, turn);
    NextKeepsDeedsOk(j, turn);
  }

  // ----- A run whose container is gone -----

  /** How many more turns a run can take once its container is gone. */
  function TurnsLeft(j: Job): nat {
    (match j.stage case Settling(_) => 2 case Reporting => 1 case _ => 0)
    + (match j.beat case Asking => 2 case Killing => 1 case Resting => 1 case BeatOver => 0)
    + (match j.watch case Looking(_) => 2 case Telling => 1 case Polling(_) => 1 case WatchOver => 0)
  }

  /** Each turn of such a run brings it closer to its end, and until then there is one it can take. */
  lemma FinishedRunsSettle(j: Job, turn: JobTurn)
    requires JobOk(j) && InFlight(j) && j.finished
    ensures CanTake(j, turn) ==> Next(j, turn).finished && TurnsLeft(Next(j, turn)) < TurnsLeft(j) <= 6
    ensures exists turn :: CanTake(j, turn)
  {
    if !j.beat.BeatOver? {
      assert CanTake(j, BeatWakes) || CanTake(j, BeatVerdict(Held)) || CanTake(j, KillEnds);
    } else if !j.watch.WatchOver? {
      assert CanTake(j, WatchWakes) || CanTake(j, WatchAnswer(NotYet)) || CanTake(j, TellEnds);
    } else {
      assert CanTake(j, HelpersEnd) || CanTake(j, ReportEnds);
    }
  }

  /** A run that is neither finished nor lost keeps beating: it rests, asks, and rests again unless it has lost. */
  lemma UnfinishedRunsBeat(j: Job, verdict: Verdict)
    requires JobOk(j) && !j.finished && !j.lost
    ensures j.beat.Resting? || j.beat.Asking?
    ensures j.beat.Resting? ==>
      CanTake(j, BeatWakes) && Next(j, BeatWakes) == j.(beat := Asking, deeds := j.deeds + [SendBeat])
    ensures j.beat.Asking? ==>
      CanTake(j, BeatVerdict(verdict)) && (!verdict.Lost? ==> Next(j, BeatVerdict(verdict)) == j.(beat := Resting))
  {
  }

  /** What no turn undoes. */
  predicate Furthered(was: Job, j: Job) {
    && was.reports <= j.reports && was.deeds <= j.deeds
    && (was.lost ==> j.lost) && (was.stage.Settled? ==> j.stage.Settled?)
  }

  lemma NextFurthers(j: Job, turn: JobTurn)
    requires JobOk(j) && InFlight(j) && CanTake(j, turn)
    ensures Furthered(j, Next(j, turn))
  {
  }

  class Loop {
    const concurrency: nat
    const remoteControl: bool
    var running: bool
    var main: Main
    var active: set<Token>
    var jobs: map<Token, Job>

    ghost predicate Valid()
      reads this
    {
      && 1 <= concurrency
      && |active| <= concurrency
      && (forall t | t in active :: t in jobs && InFlight(jobs[t]))
      && (forall t | t in jobs && InFlight(jobs[t]) :: t in active)
      && (forall t | t in jobs :: Sound(jobs[t]))
      && (forall t | t in jobs && jobs[t].stage.Refused? :: main == Refusing(t))
      && (main.Claiming? ==> |active| < concurrency)
      && (main.Refusing? ==> main.token in jobs && jobs[main.token].stage.Refused?)
      && (main.Draining? || main.Returned? ==> !running)
      && (main.Returned? ==> active == {})
    }

    constructor (concurrency: nat, remoteControl: bool)
      requires concurrency >= 1
      ensures Valid() && fresh(this)
      ensures this.concurrency == concurrency && this.remoteControl == remoteControl
      ensures running && main == AtTop && active == {} && jobs == map[]
    {
      this.concurrency, this.remoteControl := concurrency, remoteControl;
      running, main, active, jobs := true, AtTop, {}, map[];
    }

    method Stop()
      requires Valid()
      modifies this`running
      ensures Valid() && !running
    {
      running := false;
    }

    // ----- start() -----

    method Top()
      requires Valid() && main.AtTop?
      modifies this`main
      ensures Valid()
      ensures main == if !running then Draining else if |active| >= concurrency then Racing(active) else Claiming
    {
      main := if !running then Draining else if |active| >= concurrency then Racing(active) else Claiming;
    }

    /** `Promise.race(active)`: one of the runs it was given has settled. */
    method RaceWon()
      requires Valid() && main.Racing? && !(main.waiting <= active)
      modifies this`main
      ensures Valid() && main == AtTop
    {
      main := AtTop;
    }

    /** The claim failed, or there was no job. */
    method NothingClaimed()
      requires Valid() && main.Claiming?
      modifies this`main
      ensures Valid() && main == Sleeping
    {
      main := Sleeping;
    }

    method Slept()
      requires Valid() && main.Sleeping?
      modifies this`main
      ensures Valid() && main == AtTop
    {
      main := AtTop;
    }

    /** A claimed job without a workspace, or with a session this driver cannot restore, is failed unrun. */
    method ClaimedUnrunnable(t: Token)
      requires Valid() && main.Claiming? && t !in jobs
      modifies this`main, this`jobs
      ensures Valid() && main == Refusing(t)
      ensures jobs == old(jobs)[t := RefusedJob()]
      ensures |jobs[t].reports| == 1 && jobs[t].reports[0].ReportComplete? && !jobs[t].reports[0].succeeded
      ensures Starts(jobs[t].deeds) == 0 && active == old(active)
    {
      RefusedJobOk();
      jobs := jobs[t := RefusedJob()];
      main := Refusing(t);
    }

    /** Answered or not, the loop goes on. */
    method RefusalSent()
      requires Valid() && main.Refusing?
      modifies this`main, this`jobs
      ensures Valid() && main == AtTop
      ensures jobs == old(jobs)[old(main).token := old(jobs)[old(main).token].(stage := Settled)]
    {
      jobs := jobs[main.token := jobs[main.token].(stage := Settled)];
      main := AtTop;
    }

    /** The job is tracked even when stop() was called while its claim was outstanding. */
    method ClaimedRunnable(t: Token, announce: bool)
      requires Valid() && main.Claiming? && t !in jobs
      modifies this`main, this`jobs, this`active
      ensures Valid() && main == AtTop
      ensures active == old(active) + {t} && jobs == old(jobs)[t := NewJob(announce, remoteControl)]
      ensures jobs[t].beat == Resting && (jobs[t].watch.Polling? <==> remoteControl)
      ensures jobs[t].deeds == [if announce then Announce else StartContainer]
    {
      NewJobOk(announce, remoteControl);
      active := active + {t};
      jobs := jobs[t := NewJob(announce, remoteControl)];
      main := AtTop;
    }

    /** `Promise.all(active)` after claiming has stopped. */
    method Drained()
      requires Valid() && main.Draining? && active == {}
      modifies this`main
      ensures Valid() && main == Returned
      ensures forall t | t in jobs :: jobs[t].stage.Settled?
    {
      assert forall t | t in jobs :: t in active <==> InFlight(jobs[t]);
      main := Returned;
    }

    // ----- runJob(), heartbeat() and watchRemote() of one run -----

    /** The job stays in flight. */
    method SetJob(t: Token, j: Job)
      requires Valid() && t in active && Sound(j) && InFlight(j)
      modifies this`jobs
      ensures Valid() && jobs == old(jobs)[t := j]
    {
      jobs := jobs[t := j];
    }

    method Settle(t: Token, j: Job)
      requires Valid() && t in active && Sound(j) && j.stage.Settled?
      modifies this`jobs, this`active
      ensures Valid() && jobs == old(jobs)[t := j] && active == old(active) - {t}
    {
      assert |active - {t}| < |active|;
      jobs := jobs[t := j];
      active := active - {t};
    }

    /** The session is on the board, or the report failed; either way the container starts. */
    method Announced(t: Token)
      requires Valid() && t in active && jobs[t].stage.Announcing?
      modifies this`jobs
      ensures Valid() && jobs == old(jobs)[t := Next(old(jobs)[t], AnnounceEnds)]
      ensures jobs[t].stage.Running? && jobs[t].deeds == old(jobs)[t].deeds + [StartContainer]
    {
      var j := jobs[t];
      NextKeepsSound(j, AnnounceEnds);
      SetJob(t, Do(j.(stage := Running), StartContainer));
    }

    /** The container is gone, or never ran: the helpers are woken and waited for before anything is read. */
    method ContainerEnded(t: Token, outcome: Outcome)
      requires Valid() && t in active && jobs[t].stage.Running?
      modifies this`jobs
      ensures Valid() && jobs == old(jobs)[t := Next(old(jobs)[t], ContainerEnds(outcome))]
      ensures jobs[t].finished && jobs[t].stage == Settling(outcome)
    {
      var j := jobs[t];
      NextKeepsSound(j, ContainerEnds(outcome));
      SetJob(t, j.(stage := Settling(outcome), finished := true));
    }

    /** Both helpers have ended. One report, or none when the run was lost or never ran. */
    method HelpersEnded(t: Token)
      requires Valid() && t in active && jobs[t].stage.Settling? && Quiet(jobs[t])
      modifies this`jobs, this`active
      ensures Valid() && jobs == old(jobs)[t := Next(old(jobs)[t], HelpersEnd)]
      ensures var was := old(jobs)[t];
        jobs[t].reports ==
          if was.lost then []
          else match was.stage.outcome
            case Failed => []
            case Idled => [ReportSuspend]
            case Exited(code, timedOut, output) => [ReportComplete(code == Some(0) && !timedOut, code, output)]
      ensures active == if jobs[t].stage.Settled? then old(active) - {t} else old(active)
    {
      var j := jobs[t];
      NextKeepsSound(j, HelpersEnd);
      if j.lost || j.stage.outcome.Failed? {
        Settle(t, j.(stage := Settled));
      } else {
        var report := ReportFor(j.stage.outcome);
        SetJob(t, Do(j.(stage := Reporting, reports := [report]), SendReport(report)));
      }
    }

    /** The board answered the report, refused it, or could not be reached: nothing more is sent. */
    method ReportAnswered(t: Token)
      requires Valid() && t in active && jobs[t].stage.Reporting?
      modifies this`jobs, this`active
      ensures Valid() && jobs == old(jobs)[t := Next(old(jobs)[t], ReportEnds)]
      ensures active == old(active) - {t}
    {
      var j := jobs[t];
      NextKeepsSound(j, ReportEnds);
      Settle(t, j.(stage := Settled));
    }

    /** The beat period elapsed or the run woke it. */
    method BeatDue(t: Token)
      requires Valid() && t in active && jobs[t].beat.Resting?
      modifies this`jobs
      ensures Valid() && jobs == old(jobs)[t := Next(old(jobs)[t], BeatWakes)]
      ensures if jobs[t].finished then jobs[t].beat.BeatOver? && jobs[t].deeds == old(jobs)[t].deeds
        else jobs[t].beat.Asking? && jobs[t].deeds == old(jobs)[t].deeds + [SendBeat]
    {
      var j := jobs[t];
      NextKeepsSound(j, BeatWakes);
      if j.finished {
        SetJob(t, j.(beat := BeatOver));
      } else {
        SetJob(t, Do(j.(beat := Asking), SendBeat));
      }
    }

    /** A board that cannot be reached is not a lost lease; a lost one kills the runner. */
    method BeatAnswered(t: Token, verdict: Verdict)
      requires Valid() && t in active && jobs[t].beat.Asking?
      modifies this`jobs
      ensures Valid() && jobs == old(jobs)[t := Next(old(jobs)[t], BeatVerdict(verdict))]
      ensures jobs[t].kills == old(jobs)[t].kills + (if verdict.Lost? then 1 else 0)
      ensures jobs[t].lost <==> verdict.Lost?
      ensures jobs[t].beat == if verdict.Lost? then Killing else if jobs[t].finished then BeatOver else Resting
      ensures jobs[t].stage == old(jobs)[t].stage && jobs[t].deeds == old(jobs)[t].deeds
    {
      var j := jobs[t];
      NextKeepsSound(j, BeatVerdict(verdict));
      if verdict.Lost? {
        SetJob(t, j.(lost := true, beat := Killing, kills := 1));
      } else {
        SetJob(t, BeatAgain(j));
      }
    }

    /** The kill returned, and the loop's head sees the lost lease. */
    method RunnerKilled(t: Token)
      requires Valid() && t in active && jobs[t].beat.Killing?
      modifies this`jobs
      ensures Valid() && jobs == old(jobs)[t := Next(old(jobs)[t], KillEnds)]
      ensures jobs[t].beat.BeatOver?
    {
      var j := jobs[t];
      NextKeepsSound(j, KillEnds);
      SetJob(t, BeatAgain(j));
    }

    /** The poll period elapsed or the run woke it. */
    method WatchDue(t: Token)
      requires Valid() && t in active && jobs[t].watch.Polling?
      modifies this`jobs
      ensures Valid() && jobs == old(jobs)[t := Next(old(jobs)[t], WatchWakes)]
      ensures jobs[t].watch == if jobs[t].finished then WatchOver else Looking(old(jobs)[t].watch.tries)
    {
      var j := jobs[t];
      NextKeepsSound(j, WatchWakes);
      if j.finished {
        SetJob(t, j.(watch := WatchOver));
      } else {
        SetJob(t, j.(watch := Looking(j.watch.tries)));
      }
    }

    /** Nothing found: look again, up to REMOTE_LOOKUPS times. Found: tell the board. Failed: give up. */
    method WatchLooked(t: Token, found: Lookup)
      requires Valid() && t in active && jobs[t].watch.Looking?
      modifies this`jobs
      ensures Valid() && jobs == old(jobs)[t := Next(old(jobs)[t], WatchAnswer(found))]
      ensures found.Found? ==>
        jobs[t].watch.Telling? && jobs[t].deeds == old(jobs)[t].deeds + [TellRemote(found.remote)]
      ensures found.Unreadable? ==> jobs[t].watch.WatchOver?
      ensures found.NotYet? ==>
        var next := old(jobs)[t].watch.tries + 1;
        jobs[t].watch ==
          if next < REMOTE_LOOKUPS && !jobs[t].finished && !jobs[t].lost then Polling(next) else WatchOver
      ensures !found.Found? ==> jobs[t].deeds == old(jobs)[t].deeds
    {
      var j := jobs[t];
      NextKeepsSound(j, WatchAnswer(found));
      var after :=
        match found
        case Found(remote) => Do(j.(watch := Telling), TellRemote(remote))
        case NotYet => WatchAgain(j, j.watch.tries + 1)
        case Unreadable => j.(watch := WatchOver);
      assert after == Next(j, WatchAnswer(found));
      SetJob(t, after);
    }

    /** The board was told, or could not be; the search is over. */
    method WatchTold(t: Token)
      requires Valid() && t in active && jobs[t].watch.Telling?
      modifies this`jobs
      ensures Valid() && jobs == old(jobs)[t := Next(old(jobs)[t], TellEnds)]
    {
      var j := jobs[t];
      NextKeepsSound(j, TellEnds);
      SetJob(t, j.(watch := WatchOver));
    }

    /**
     * A turn of one run does to it what `Next` says and leaves every other run alone; a settled run leaves
     * `active`.
     */
    method TakeJobTurn(t: Token, turn: JobTurn)
      requires Valid() && t in active && CanTake(jobs[t], turn)
      modifies this`jobs, this`active
      ensures Valid() && t in old(jobs) && jobs == old(jobs)[t := Next(old(jobs)[t], turn)]
      ensures active == if jobs[t].stage.Settled? then old(active) - {t} else old(active)
    {
      NextKeepsSound(jobs[t], turn);
      if turn.AnnounceEnds? || turn.ContainerEnds? || turn.HelpersEnd? || turn.ReportEnds? {
        TakeStageTurn(t, turn);
      } else {
        TakeHelperTurn(t, turn);
      }
    }

    /** The turns of `runJob` itself. */
    method TakeStageTurn(t: Token, turn: JobTurn)
      requires Valid() && t in active && CanTake(jobs[t], turn)
      requires turn.AnnounceEnds? || turn.ContainerEnds? || turn.HelpersEnd? || turn.ReportEnds?
      modifies this`jobs, this`active
      ensures Valid() && t in old(jobs) && jobs == old(jobs)[t := Next(old(jobs)[t], turn)]
      ensures active == if jobs[t].stage.Settled? then old(active) - {t} else old(active)
    {
      match turn
      case AnnounceEnds => Announced(t);
      case ContainerEnds(outcome) => ContainerEnded(t, outcome);
      case HelpersEnd => HelpersEnded(t);
      case ReportEnds => ReportAnswered(t);
    }

    /** The turns of its heartbeat and its search, which leave it in flight. */
    method TakeHelperTurn(t: Token, turn: JobTurn)
      requires Valid() && t in active && CanTake(jobs[t], turn)
      requires !turn.AnnounceEnds? && !turn.ContainerEnds? && !turn.HelpersEnd? && !turn.ReportEnds?
      modifies this`jobs
      ensures Valid() && t in old(jobs) && jobs == old(jobs)[t := Next(old(jobs)[t], turn)]
    {
      match turn
      case BeatWakes => BeatDue(t);
      case BeatVerdict(verdict) => BeatAnswered(t, verdict);
      case KillEnds => RunnerKilled(t);
      case WatchWakes => WatchDue(t);
      case WatchAnswer(found) => WatchLooked(t, found);
      case TellEnds => WatchTold(t);
    }

    // ----- Any schedule of turns -----

    /** What no turn undoes: a job stays known, its reports and deeds only grow, a lost lease stays lost. */
    twostate predicate Onward()
      reads this
    {
      && (old(main.Returned?) ==> main.Returned?)
      && (!old(running) ==> !running)
      && forall t | t in old(jobs) :: t in jobs && Furthered(old(jobs)[t], jobs[t])
    }

    /** What a turn that can be taken does; one that cannot does nothing. */
    twostate predicate Moved(turn: Turn)
      reads this
    {
      match turn
      case StopCalled => !running
      case LoopTop =>
        old(main.AtTop?) ==>
          main == if !running then Draining else if |active| >= concurrency then Racing(active) else Claiming
      case RaceEnds => old(main.Racing? && !(main.waiting <= active)) ==> main == AtTop
      case ClaimNone => old(main.Claiming?) ==> main == Sleeping
      case SleepEnds => old(main.Sleeping?) ==> main == AtTop
      case ClaimBad(t) =>
        old(main.Claiming? && t !in jobs) ==> main == Refusing(t) && jobs == old(jobs)[t := RefusedJob()]
      case BadSent => old(main.Refusing?) ==> main == AtTop
      case ClaimGood(t, announce) =>
        old(main.Claiming? && t !in jobs) ==>
          main == AtTop && t in active && jobs == old(jobs)[t := NewJob(announce, remoteControl)]
      case DrainEnds => old(main.Draining? && active == {}) ==> main == Returned
      case OfJob(t, turn) =>
        old(t in active && t in jobs && CanTake(jobs[t], turn)) ==>
          t in old(jobs) && CanTake(old(jobs)[t], turn) && jobs == old(jobs)[t := Next(old(jobs)[t], turn)]
    }

    method TakeTurn(turn: Turn)
      requires Valid()
      modifies this
      ensures Valid() && Onward() && Moved(turn)
    {
      match turn
      case OfJob(t, jobTurn) => TakeRunTurn(t, jobTurn);
      case ClaimBad(t) => TakeBadClaim(t);
      case ClaimGood(t, announce) => TakeGoodClaim(t, announce);
      case BadSent => TakeRefusalTurn();
      case _ => TakeMainTurn(turn);
    }

    method TakeRunTurn(t: Token, turn: JobTurn)
      requires Valid()
      modifies this`jobs, this`active
      ensures Valid() && Onward() && Moved(OfJob(t, turn))
    {
      if t in active && CanTake(jobs[t], turn) {
        NextFurthers(jobs[t], turn);
        TakeJobTurn(t, turn);
      }
    }

    method TakeBadClaim(t: Token)
      requires Valid()
      modifies this`main, this`jobs
      ensures Valid() && Onward() && Moved(ClaimBad(t))
    {
      if main.Claiming? && t !in jobs {
        ClaimedUnrunnable(t);
      }
    }

    method TakeGoodClaim(t: Token, announce: bool)
      requires Valid()
      modifies this`main, this`jobs, this`active
      ensures Valid() && Onward() && Moved(ClaimGood(t, announce))
    {
      if main.Claiming? && t !in jobs {
        ClaimedRunnable(t, announce);
      }
    }

    method TakeRefusalTurn()
      requires Valid()
      modifies this`main, this`jobs
      ensures Valid() && Onward() && Moved(BadSent)
    {
      if main.Refusing? {
        RefusalSent();
      }
    }

    /** The turns of `start` and `stop` that leave every run as it is. */
    method TakeMainTurn(turn: Turn)
      requires Valid() && !turn.OfJob? && !turn.ClaimBad? && !turn.BadSent? && !turn.ClaimGood?
      modifies this`running, this`main
      ensures Valid() && (old(main.Returned?) ==> main.Returned?) && (!old(running) ==> !running) && Moved(turn)
    {
      match turn
      case StopCalled => Stop();
      case LoopTop => if main.AtTop? { Top(); }
      case RaceEnds => if main.Racing? && !(main.waiting <= active) { RaceWon(); }
      case ClaimNone => if main.Claiming? { NothingClaimed(); }
      case SleepEnds => if main.Sleeping? { Slept(); }
      case DrainEnds => if main.Draining? && active == {} { Drained(); }
    }

    /**
     * Over any schedule: never more than `concurrency` runs at once; each claimed job starts at most one
     * container and is reported at most once, and not at all once it has seen its lease lost; a run beats
     * until it is finished or lost; and `start` has returned only if every job ever claimed has settled.
     */
    method Drive(turns: seq<Turn>)
      requires Valid()
      modifies this
      ensures Valid() && Onward()
      ensures |active| <= concurrency
      ensures forall t | t in jobs :: |jobs[t].reports| <= 1 && (jobs[t].lost ==> jobs[t].reports == [])
      ensures forall t | t in jobs :: Starts(jobs[t].deeds) <= 1 && ReportsSent(jobs[t].deeds, jobs[t].reports)
      ensures forall t | t in jobs && jobs[t].beat.BeatOver? :: jobs[t].finished || jobs[t].lost
      ensures main.Returned? ==> active == {} && forall t | t in jobs :: jobs[t].stage.Settled?
    {
      for i := 0 to |turns|
        invariant Valid() && Onward()
      {
        TakeTurn(turns[i]);
      }
      assert forall t | t in jobs :: Sound(jobs[t]) && (t in active <==> InFlight(jobs[t]));
    }
  }
}
