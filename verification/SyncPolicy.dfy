/** Where a sync starts: `chooseMode` and `buildCutoff` of server/src/stats-service.ts. Instants are milliseconds. */
module SyncPolicy {
  import opened Common

  const OVERLAP: int := 5 * 60 * 1000
  const RECENT_WINDOW: int := 14 * 24 * 3600 * 1000
  const FULL_RESYNC_INTERVAL: int := 24 * 3600 * 1000
  const FULL_WALK_POINTS_PER_REPO: int := 243
  const SCHEMA_EPOCH: nat := 1

  datatype SyncState = SyncState(watermark: Option<int>, lastFull: Option<int>, epoch: nat, remaining: Option<int>)
  datatype Mode = Full | Incremental

  predicate HasWatermark(state: map<string, SyncState>, repo: string) {
    repo in state && state[repo].watermark.Some?
  }

  predicate Repaired(state: map<string, SyncState>, repo: string) {
    repo in state && state[repo].epoch >= SCHEMA_EPOCH
  }

  predicate Due(state: map<string, SyncState>, repo: string, now: int) {
    repo in state && state[repo].lastFull.Some? ==> now - state[repo].lastFull.value > FULL_RESYNC_INTERVAL
  }

  /** The budget known to be left is below one and a half full walks. */
  predicate Unaffordable(repos: seq<string>, state: map<string, SyncState>) {
    exists r :: r in repos && r in state && state[r].remaining.Some?
      && 2 * state[r].remaining.value < 3 * FULL_WALK_POINTS_PER_REPO * |repos|
  }

  function ChooseMode(repos: seq<string>, state: map<string, SyncState>, now: int): Mode {
    if exists r :: r in repos && !HasWatermark(state, r) then Full
    else if exists r :: r in repos && !Repaired(state, r) then Full
    else if !exists r :: r in repos && Due(state, r, now) then Incremental
    else if Unaffordable(repos, state) then Incremental
    else Full
  }

  function Cutoff(watermark: int, now: int, oldestOpen: Option<int>): (c: int)
    ensures c <= watermark - OVERLAP && c <= now - RECENT_WINDOW && (oldestOpen.Some? ==> c <= oldestOpen.value)
    ensures c == watermark - OVERLAP || c == now - RECENT_WINDOW || oldestOpen == Some(c)
  {
    var c := Min(watermark - OVERLAP, now - RECENT_WINDOW);
    if oldestOpen.Some? then Min(c, oldestOpen.value) else c
  }

  function Lookup(m: map<string, int>, key: string): Option<int> {
    if key in m then Some(m[key]) else None
  }

  /** A cutoff for exactly the repositories with a watermark. */
  predicate IsCutoff(repos: seq<string>, state: map<string, SyncState>, oldestOpen: map<string, int>, now: int,
        cutoff: map<string, int>)
  {
    && cutoff.Keys == (set r | r in repos && HasWatermark(state, r))
    && forall r | r in cutoff :: cutoff[r] == Cutoff(state[r].watermark.value, now, Lookup(oldestOpen, r))
  }

  method BuildCutoff(repos: seq<string>, state: map<string, SyncState>, oldestOpen: map<string, int>, now: int)
    returns (cutoff: map<string, int>)
    ensures IsCutoff(repos, state, oldestOpen, now, cutoff)
    ensures forall r :: r in cutoff <==> r in repos && r in state && state[r].watermark.Some?
    ensures forall r | r in cutoff ::
      && cutoff[r] <= state[r].watermark.value - OVERLAP && cutoff[r] <= now - RECENT_WINDOW
      && (r in oldestOpen ==> cutoff[r] <= oldestOpen[r])
      && (cutoff[r] == state[r].watermark.value - OVERLAP || cutoff[r] == now - RECENT_WINDOW
          || (r in oldestOpen && cutoff[r] == oldestOpen[r]))
  {
    cutoff := map[];
    for i := 0 to |repos|
      invariant cutoff.Keys == set r | r in repos[..i] && HasWatermark(state, r)
      invariant forall r | r in cutoff :: cutoff[r] == Cutoff(state[r].watermark.value, now, Lookup(oldestOpen, r))
    {
      var repo := repos[i];
      assert repos[..i + 1] == repos[..i] + [repo];
      if HasWatermark(state, repo) {
        cutoff := cutoff[repo := Cutoff(state[repo].watermark.value, now, Lookup(oldestOpen, repo))];
      }
    }
    assert repos[..|repos|] == repos;
  }

  /** Walked under the current schema, and with something to be incremental about. */
  predicate Synced(row: SyncState) { row.watermark.Some? && row.epoch >= SCHEMA_EPOCH }

  predicate WalkedLately(row: SyncState, now: int) {
    row.lastFull.Some? && now - row.lastFull.value <= FULL_RESYNC_INTERVAL
  }

  /**
   * The mode, from the rows themselves. One repository that was never synced under the current schema
   * makes the run full. If all were, it is full exactly when some repository was not walked in full lately
   * and every budget that is known covers one and a half walks of all repositories; with no budget known, as
   * soon as a walk is due.
   */
  lemma ModeExactlyWhen(repos: seq<string>, state: map<string, SyncState>, now: int)
    ensures (exists r :: r in repos && (r !in state || !Synced(state[r]))) ==> ChooseMode(repos, state, now) == Full
    ensures (forall r | r in repos :: r in state && Synced(state[r])) ==>
      (ChooseMode(repos, state, now) == Full <==>
        && (exists r :: r in repos && !WalkedLately(state[r], now))
        && forall r | r in repos && state[r].remaining.Some? ::
          2 * state[r].remaining.value >= 3 * FULL_WALK_POINTS_PER_REPO * |repos|)
  {
    if r :| r in repos && (r !in state || !Synced(state[r])) {
      assert !HasWatermark(state, r) || !Repaired(state, r);
    } else {
      assert forall r | r in repos :: HasWatermark(state, r) && Repaired(state, r);
      assert forall r | r in repos :: Due(state, r, now) <==> !WalkedLately(state[r], now);
    }
  }

  /** The same rows, but where a budget is known, possibly a larger one. */
  predicate NoPoorer(state: map<string, SyncState>, richer: map<string, SyncState>) {
    && richer.Keys == state.Keys
    && forall r | r in state ::
      && richer[r] == state[r].(remaining := richer[r].remaining)
      && (richer[r].remaining.Some? ==>
           state[r].remaining.Some? && state[r].remaining.value <= richer[r].remaining.value)
  }

  /** More budget, or knowing less of it, never turns a full run into an incremental one. */
  lemma MoreBudgetKeepsRunsFull(repos: seq<string>, state: map<string, SyncState>, richer: map<string, SyncState>,
        now: int)
    requires NoPoorer(state, richer) && ChooseMode(repos, state, now) == Full
    ensures ChooseMode(repos, richer, now) == Full
  {
    ModeExactlyWhen(repos, state, now);
    ModeExactlyWhen(repos, richer, now);
    if forall r | r in repos :: r in richer && Synced(richer[r]) {
      var r :| r in repos && !WalkedLately(state[r], now);
      assert !WalkedLately(richer[r], now);
    }
  }
}
