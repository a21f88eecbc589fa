/**
 * What has happened on a board so far, newest event outermost, and the questions the guarantees of
 * Protocol.dfy ask of it. Nothing in the running system reads a history; it only states properties.
 */
module History {
  import opened Common
  import opened JobBoard

  // What became of a container; `output` is the text that is reported.
  datatype Outcome = Idled | Exited(exitCode: Option<int>, timedOut: bool, output: string)

  /** What a worker reports when a job is over. */
  datatype Completion = Completion(outcome: JobOutcome, exitCode: Option<int>, output: Option<string>)

  datatype Event =
    | Claimed(job: JobId, token: Token, resume: Option<Session>, at: int, until: int)
    | Extended(job: JobId, token: Token, until: int)
    | Recorded(job: JobId, token: Token, session: Session)
    | Parked(job: JobId, token: Token)
    | Completed(job: JobId, token: Token, completion: Completion)
    | Resumed(job: JobId)
    | SweptAway(jobs: set<JobId>, at: int)
    | Launched(job: JobId, token: Token, on: Option<Session>, withCommand: bool)
    | Ended(job: JobId, token: Token, outcome: Outcome)

  datatype History = Start | After(past: History, event: Event)

  /** `h` is `now` itself or some earlier moment of it. */
  predicate MomentOf(h: History, now: History) {
    h == now || (now.After? && MomentOf(h, now.past))
  }

  /** A worker's accepted write: everything the store guards by the lease token. */
  predicate WorkerWrite(e: Event) {
    e.Extended? || e.Recorded? || e.Parked? || e.Completed?
  }

  /**
   * What a history says about one job.
   *  - lastClaim: the token of its most recent claim
   *  - lastPark: the run that parked it, when nobody has claimed it since
   *  - openLease: until when the lease last granted runs, unless its holder has parked the job since
   *  - known: the board has a session for the run last claimed, from its claim or from its report
   *  - completion: the last completion that was accepted
   *  - ended: it has been completed or retired
   */
  datatype Story = Story(
    lastClaim: Option<Token>, lastPark: Option<Token>, openLease: Option<int>, known: bool,
    claims: nat, parks: nat, completes: nat, completion: Option<Completion>, ended: bool)

  const UNTOLD := Story(None, None, None, false, 0, 0, 0, None, false)

  predicate Concerns(e: Event, job: JobId) {
    match e
    case Claimed(j, _, _, _, _) => j == job
    case Extended(j, _, _) => j == job
    case Parked(j, _) => j == job
    case Completed(j, _, _) => j == job
    case SweptAway(jobs, _) => job in jobs
    case Recorded(j, _, _) => j == job
    case Resumed(_) => false
    case Launched(_, _, _, _) => false
    case Ended(_, _, _) => false
  }

  function Continue(s: Story, e: Event): Story {
    match e
    case Claimed(_, token, resume, _, until) =>
      s.(lastClaim := Some(token), lastPark := None, openLease := Some(until), known := resume.Some?,
         claims := s.claims + 1)
    case Extended(_, _, until) => s.(openLease := Some(until))
    case Parked(_, token) => s.(lastPark := Some(token), openLease := None, parks := s.parks + 1)
    case Completed(_, _, completion) => s.(completes := s.completes + 1, completion := Some(completion), ended := true)
    case SweptAway(_, _) => s.(ended := true)
    case Recorded(_, _, _) => s.(known := true)
    case Resumed(_) => s
    case Launched(_, _, _, _) => s
    case Ended(_, _, _) => s
  }

  function Of(h: History, job: JobId): Story {
    match h
    case Start => UNTOLD
    case After(past, e) => if Concerns(e, job) then Continue(Of(past, job), e) else Of(past, job)
  }

  predicate WasIssued(h: History, token: Token) {
    h.After? && ((h.event.Claimed? && h.event.token == token) || WasIssued(h.past, token))
  }

  /** The board was given a session for the run that holds `token`: with its claim, or by an accepted report. */
  predicate SessionGiven(h: History, token: Token) {
    h.After?
    && ((h.event.Claimed? && h.event.token == token && h.event.resume.Some?)
        || (h.event.Recorded? && h.event.token == token)
        || SessionGiven(h.past, token))
  }

  /** The session the run holding `token` was launched on (None inside Some for a runner without sessions). */
  function LaunchOf(h: History, token: Token): Option<Option<Session>> {
    match h
    case Start => None
    case After(past, e) => if e.Launched? && e.token == token then Some(e.on) else LaunchOf(past, token)
  }

  /** How the container of the run that holds `token` ended. */
  function EndOf(h: History, token: Token): Option<Outcome> {
    match h
    case Start => None
    case After(past, e) => if e.Ended? && e.token == token then Some(e.outcome) else EndOf(past, token)
  }

  /**
   * A completion tells what happened to its run: success exactly where the container exited with code zero
   * in time, with its code and its text; and a run that was refused, and so never launched, has failed.
   */
  predicate Truthful(c: Completion, launch: Option<Option<Session>>, end: Option<Outcome>) {
    if end.Some? && end.value.Exited? then
      && c.exitCode == end.value.exitCode && c.output == Some(end.value.output)
      && (c.outcome.RunSucceeded? <==> end.value.exitCode == Some(0) && !end.value.timedOut)
    else
      launch.None? && end.None? && c.outcome.RunFailed? && c.exitCode.None?
  }

  /** How many times a command was delivered into an agent session. */
  function Deliveries(h: History, s: Session): nat {
    match h
    case Start => 0
    case After(past, e) =>
      Deliveries(past, s) + if e.Launched? && e.on == Some(s) && e.withCommand then 1 else 0
  }

  /** `s` received its command exactly once, and the run using it is the one that parked the job. */
  predicate ParkedOn(h: History, job: JobId, s: Session) {
    var park := Of(h, job).lastPark;
    park.Some? && LaunchOf(h, park.value) == Some(Some(s)) && Deliveries(h, s) == 1
  }

  /** An accepted write bears the token of the most recent claim, which is neither parked nor over. */
  predicate HolderWrites(past: History, job: JobId, token: Token) {
    var story := Of(past, job);
    story.lastClaim == Some(token) && story.lastPark == None && !story.ended
  }

  /** The lease is out: nobody can still be relying on it. */
  predicate LeaseOut(past: History, job: JobId, at: int) {
    var lease := Of(past, job).openLease;
    lease.Some? ==> lease.value <= at
  }

  /** Whether `e` may happen after `past`: the safety of the board, event by event. */
  predicate Legal(past: History, e: Event) {
    match e
    case Claimed(job, token, resume, at, until) =>
      && !WasIssued(past, token)
      && !Of(past, job).ended
      && LeaseOut(past, job, at)
      && (resume.Some? ==> ParkedOn(past, job, resume.value))
      && (resume.Some? <==> Of(past, job).lastPark.Some? && Of(past, job).known)
      // Reclaimed from a run that never parked it.
      && (Of(past, job).openLease.Some? ==> resume == None)
    case Launched(job, token, on, withCommand) =>
      && WasIssued(past, token) && LaunchOf(past, token) == None
      && (on.Some? ==> Deliveries(past, on.value) == if withCommand then 0 else 1)
    case SweptAway(jobs, at) =>
      forall job | job in jobs :: !Of(past, job).ended && Of(past, job).openLease.Some? && LeaseOut(past, job, at)
    case Resumed(job) => Of(past, job).lastPark.Some? && !Of(past, job).ended
    case Extended(job, token, _) => HolderWrites(past, job, token)
    case Recorded(job, token, _) => HolderWrites(past, job, token)
    case Parked(job, token) => HolderWrites(past, job, token) && EndOf(past, token) == Some(Idled)
    case Completed(job, token, completion) =>
      HolderWrites(past, job, token) && Truthful(completion, LaunchOf(past, token), EndOf(past, token))
    case Ended(_, token, _) => LaunchOf(past, token).Some? && EndOf(past, token).None?
  }

  predicate AllLegal(h: History) {
    h.Start? || (Legal(h.past, h.event) && AllLegal(h.past))
  }

  /** Every event of a legal history was legal when it happened. */
  lemma {:induction false} LegalThroughout(h: History, now: History)
    requires AllLegal(now) && MomentOf(h, now)
    ensures AllLegal(h)
  {
    if h == now {
    } else {
      LegalThroughout(h, now.past);
    }
  }

  lemma {:induction false} LastClaimWasIssued(h: History, job: JobId)
    requires Of(h, job).lastClaim.Some?
    ensures WasIssued(h, Of(h, job).lastClaim.value)
  {
    if h.After? && !(h.event.Claimed? && h.event.job == job) {
      LastClaimWasIssued(h.past, job);
    }
  }

  lemma {:induction false} GivenWasIssued(h: History, token: Token)
    requires AllLegal(h) && SessionGiven(h, token)
    ensures WasIssued(h, token)
  {
    if h.event.Recorded? && h.event.token == token {
      LastClaimWasIssued(h.past, h.event.job);
    } else if !(h.event.Claimed? && h.event.token == token) {
      GivenWasIssued(h.past, token);
    }
  }

  /** A token is the last claim of one job only. */
  lemma {:induction false} LastClaimsApart(h: History, a: JobId, b: JobId)
    requires AllLegal(h) && a != b && Of(h, a).lastClaim.Some?
    ensures Of(h, a).lastClaim != Of(h, b).lastClaim
  {
    if h.After? {
      if h.event.Claimed? && (h.event.job == a || h.event.job == b) {
        var other := if h.event.job == a then b else a;
        if Of(h.past, other).lastClaim.Some? {
          LastClaimWasIssued(h.past, other);
        }
      } else {
        LastClaimsApart(h.past, a, b);
      }
    }
  }

  /** Whoever parked a job was the last to claim it. */
  lemma {:induction false} ParkedByLastClaim(h: History, job: JobId)
    requires AllLegal(h)
    ensures Of(h, job).lastPark.Some? ==> Of(h, job).lastPark == Of(h, job).lastClaim
  {
    if h.After? {
      ParkedByLastClaim(h.past, job);
    }
  }

  /** What `known` says, in terms of events. */
  lemma {:induction false} KnownExactlyWhen(h: History, job: JobId)
    requires AllLegal(h) && Of(h, job).lastClaim.Some?
    ensures Of(h, job).known <==> SessionGiven(h, Of(h, job).lastClaim.value)
  {
    var e, past := h.event, h.past;
    var token := Of(h, job).lastClaim.value;
    if e.Claimed? && e.job == job {
      if SessionGiven(past, token) {
        GivenWasIssued(past, token);
      }
    } else {
      KnownExactlyWhen(past, job);
      LastClaimWasIssued(past, job);
      if e.Recorded? && e.job != job && e.token == token {
        LastClaimsApart(past, job, e.job);
      }
    }
  }

  /** In a legal history a job is completed at most once, and never after it was retired. */
  lemma {:induction false} CompletedOnce(h: History, job: JobId)
    requires AllLegal(h)
    ensures Of(h, job).completes <= 1
    ensures Of(h, job).completes == 1 ==> Of(h, job).ended
  {
    if h.Start? {
    } else {
      CompletedOnce(h.past, job);
    }
  }

  /** A completion that was accepted is the last word on its job. */
  lemma {:induction false} CompletionStands(h: History, past: History, e: Event)
    requires AllLegal(h) && MomentOf(After(past, e), h) && e.Completed?
    ensures Of(h, e.job).completion == Some(e.completion) && Of(h, e.job).ended
  {
    if h == After(past, e) {
    } else {
      CompletionStands(h.past, past, e);
    }
  }

  lemma {:induction false} CompletionHappened(h: History, job: JobId)
    requires Of(h, job).completion.Some?
    ensures exists past, e :: MomentOf(After(past, e), h) && e.Completed? && e.job == job
  {
    if h.event.Completed? && h.event.job == job {
      assert h == After(h.past, h.event) && MomentOf(After(h.past, h.event), h);
    } else {
      CompletionHappened(h.past, job);
      var past, e :| MomentOf(After(past, e), h.past) && e.Completed? && e.job == job;
      assert MomentOf(After(past, e), h);
    }
  }

  /** In a legal history no command is delivered twice into one session. */
  lemma {:induction false} DeliveredOnce(h: History, s: Session)
    requires AllLegal(h)
    ensures Deliveries(h, s) <= 1
  {
    if h.Start? {
    } else {
      DeliveredOnce(h.past, s);
    }
  }
}
