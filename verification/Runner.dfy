/**
 * One container's run, driver/src/docker.ts: the tail of its output, the timeout of a headless run and
 * the idle timer of one under Remote Control. Each method is one callback; the clock is a field.
 */
module Runner {
  import opened Common

  const OUTPUT_LIMIT: nat := 64 * 1024

  /** output.slice(-limit), where there is more than that. */
  function Last(limit: nat, s: string): (t: string)
    ensures |t| == Min(limit, |s|) && t == s[|s| - |t|..]
  {
    if |s| > limit then s[|s| - limit..] else s
  }

  function Tail(s: string): string { Last(OUTPUT_LIMIT, s) }

  lemma DropThenJoin(a: string, b: string, i: nat)
    requires i <= |a|
    ensures (a + b)[i..] == a[i..] + b
  {
  }

  lemma LastOfSuffix(limit: nat, s: string, i: nat)
    requires i + limit <= |s|
    ensures Last(limit, s[i..]) == Last(limit, s)
  {
    if i + limit < |s| {
      assert s[i..][|s| - i - limit..] == s[|s| - limit..];
    }
  }

  /** Trimming at every chunk keeps what trimming once at the end would. */
  lemma LastOfLast(limit: nat, s: string, chunk: string)
    ensures Last(limit, Last(limit, s) + chunk) == Last(limit, s + chunk)
  {
    var gone := |s| - |Last(limit, s)|;
    assert Last(limit, s) == s[gone..];
    DropThenJoin(s, chunk, gone);
    if gone > 0 {
      LastOfSuffix(limit, s + chunk, gone);
    } else {
      assert s[0..] == s;
    }
  }

  datatype Result = Rejected | Resolved(exitCode: Option<int>, output: string, timedOut: bool, idled: bool)

  class ContainerRun {
    const remoteControl: bool
    const idleMs: nat
    const jobTimeoutMs: nat
    var now: int
    var output: string
    var idleAt: Option<int>
    var timeoutAt: Option<int>
    var timedOut: bool
    var idled: bool
    var kills: nat
    var settled: Option<Result>
    ghost const started: int
    ghost var received: string
    ghost var heardAt: int

    /**
     * What is kept is the end of what was received. A headless run has a deadline and no idle timer, a
     * drivable one an idle timer and no deadline; whichever it has is set until it fires or the run settles.
     */
    ghost predicate Valid()
      reads this
    {
      && output == Tail(received)
      && started <= heardAt <= now
      && (remoteControl ==> timeoutAt.None? && !timedOut)
      && (!remoteControl ==> idleAt.None? && !idled)
      && (idleAt.Some? ==> idleAt.value == heardAt + idleMs)
      && (timeoutAt.Some? ==> timeoutAt.value == started + jobTimeoutMs)
      && (settled.None? ==> if remoteControl then idleAt.Some? || idled else timeoutAt.Some? != timedOut)
      && (timedOut ==> kills > 0 && now >= started + jobTimeoutMs)
      && (idled ==> kills > 0)
    }

    constructor (remoteControl: bool, idleMs: nat, jobTimeoutMs: nat, start: int)
      ensures Valid() && now == start == started && received == "" && settled.None?
      ensures this.remoteControl == remoteControl && this.idleMs == idleMs && this.jobTimeoutMs == jobTimeoutMs
    {
      this.remoteControl, this.idleMs, this.jobTimeoutMs := remoteControl, idleMs, jobTimeoutMs;
      now, output, timedOut, idled, kills, settled := start, "", false, false, 0, None;
      idleAt := if remoteControl then Some(start + idleMs) else None;
      timeoutAt := if remoteControl then None else Some(start + jobTimeoutMs);
      started, received, heardAt := start, "", start;
    }

    method Elapse(ms: nat)
      requires Valid()
      modifies this`now
      ensures Valid() && now == old(now) + ms
    {
      now := now + ms;
    }

    method Collect(chunk: string)
      requires Valid()
      modifies this`output, this`idleAt, this`received, this`heardAt
      ensures Valid() && received == old(received) + chunk && output == Tail(received) && heardAt == now
      ensures idleAt == if remoteControl then Some(now + idleMs) else None
    {
      LastOfLast(OUTPUT_LIMIT, received, chunk);
      output := Tail(output + chunk);
      received := received + chunk;
      heardAt := now;
      if remoteControl {
        idleAt := Some(now + idleMs);
      }
    }

    /** Only after a silence of `idleMs`, and only where somebody could come back to the session. */
    method IdleFires()
      requires Valid() && idleAt.Some? && now >= idleAt.value
      modifies this`idleAt, this`idled, this`kills
      ensures Valid() && idled && kills == old(kills) + 1 && idleAt.None?
      ensures remoteControl && now - heardAt >= idleMs
    {
      idled := true;
      idleAt := None;
      kills := kills + 1;
    }

    method TimeoutFires()
      requires Valid() && timeoutAt.Some? && now >= timeoutAt.value
      modifies this`timeoutAt, this`timedOut, this`kills
      ensures Valid() && timedOut && kills == old(kills) + 1 && timeoutAt.None? && !remoteControl
    {
      timedOut := true;
      timeoutAt := None;
      kills := kills + 1;
    }

    /** 'close' and 'error': both timers go, and the first of the two settles the promise for good. */
    method Ended(result: Option<int>, failed: bool)
      requires Valid()
      modifies this`idleAt, this`timeoutAt, this`settled
      ensures Valid() && idleAt.None? && timeoutAt.None?
      ensures old(settled).Some? ==> settled == old(settled)
      ensures old(settled).None? ==>
        settled == Some(if failed then Rejected else Resolved(result, Tail(received), timedOut, idled))
      ensures !(timedOut && idled)
    {
      idleAt, timeoutAt := None, None;
      if settled.None? {
        settled := Some(if failed then Rejected else Resolved(result, output, timedOut, idled));
      }
    }
  }
}
