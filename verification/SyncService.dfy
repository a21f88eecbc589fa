/**
 * `produce` of server/src/stats-service.ts over all repositories: one mode for the whole run, chosen from
 * what earlier runs recorded, and one pass of Sync.dfy for each repository.
 */
module SyncService {
  import opened Common
  import opened PageWalk
  import opened SyncPolicy
  import Sync

  /**
   * A repository: its cache, and its row of sync_state. `fullWalks` and `sawPr` are history that nothing
   * reads: how many recorded walks were full ones, and whether any recorded walk returned a PR.
   */
  datatype Repo = Repo(
    world: Sync.World, lastFull: Option<int>, epoch: nat, remaining: Option<int>, fullWalks: nat, sawPr: bool)

  datatype Service = Service(now: int, repos: map<string, Repo>)

  /** One run. Either read of the database may fail, and then the run goes on without what it would have said. */
  datatype Run = Run(
    names: seq<string>, clock: int, stateRead: bool, openRead: bool,
    passes: map<string, Sync.Pass>, remaining: Option<int>)

  datatype Step =
    | Elapse(ms: nat)
    | Change(repo: string, number: nat, open: bool, tie: int)
    | Produce(run: Run)

  function NewRepo(now: int): Repo { Repo(Sync.Init(now), None, 0, None, 0, false) }

  function StateRow(repo: Repo): SyncState {
    SyncState(repo.world.watermark, repo.lastFull, repo.epoch, repo.remaining)
  }

  function StateOf(s: Service, run: Run): map<string, SyncState> {
    if run.stateRead then map r | r in s.repos :: StateRow(s.repos[r]) else map[]
  }

  function ModeOf(s: Service, run: Run): Mode { ChooseMode(run.names, StateOf(s, run), run.clock) }

  // ----- A run -----

  ghost predicate PassFits(s: Service, run: Run, r: string, lag: nat, span: nat) {
    && r in s.repos && r in run.passes
    && var w, p := s.repos[r].world, run.passes[r];
    && Sync.PassOk(w, p, lag, span)
    && p.clock == run.clock <= p.start
    && p.incremental == ModeOf(s, run).Incremental?
    && (if run.openRead then Sync.IsOldestOpen(w.store, p.oldestOpen) else p.oldestOpen.None?)
  }

  predicate Completed(s: Service, run: Run, r: string)
    requires r in s.repos && r in run.passes
  {
    Sync.WalkOf(s.repos[r].world, run.passes[r]).completed
  }

  predicate AllSaved(s: Service, run: Run, r: string)
    requires r in s.repos && r in run.passes
  {
    run.passes[r].saved == |Sync.WalkOf(s.repos[r].world, run.passes[r]).raw|
  }

  /** Nothing is saved unless every walk completed, and nothing is recorded unless everything was saved. */
  ghost predicate RunOk(s: Service, run: Run, lag: nat, span: nat) {
    && (forall r | r in run.names :: PassFits(s, run, r, lag, span))
    && (forall q, r | q in run.names && r in run.names && !Completed(s, run, q) :: run.passes[r].saved == 0)
    && (forall q, r | q in run.names && r in run.names && run.passes[r].recorded ::
         Completed(s, run, q) && AllSaved(s, run, q))
  }

  ghost function RepoAfter(repo: Repo, p: Sync.Pass, full: bool, now: int, remaining: Option<int>, lag: nat,
        span: nat): Repo
  {
    var w' := Sync.Apply(repo.world, Sync.Produce(p), lag, span);
    if p.recorded then
      Repo(w', if full then Some(now) else repo.lastFull,
           if repo.epoch > SCHEMA_EPOCH then repo.epoch else SCHEMA_EPOCH,
           if remaining.Some? then remaining else repo.remaining,
           repo.fullWalks + (if full then 1 else 0), repo.sawPr || Sync.WalkOf(repo.world, p).raw != [])
    else repo.(world := w')
  }

  ghost function Produced(s: Service, run: Run, lag: nat, span: nat): Service
    requires forall r | r in run.names :: r in s.repos && r in run.passes
  {
    s.(repos := map r | r in s.repos ::
         if r in run.names
         then RepoAfter(s.repos[r], run.passes[r], ModeOf(s, run).Full?, s.now, run.remaining, lag, span)
         else s.repos[r])
  }

  ghost predicate Enabled(s: Service, step: Step, lag: nat, span: nat) {
    match step
    case Elapse(_) => true
    case Change(repo, _, _, _) => repo in s.repos
    case Produce(run) => RunOk(s, run, lag, span)
  }

  ghost function Apply(s: Service, step: Step, lag: nat, span: nat): Service {
    if !Enabled(s, step, lag, span) then s
    else match step
      case Elapse(ms) =>
        Service(s.now + ms,
                map r | r in s.repos :: s.repos[r].(world := Sync.Apply(s.repos[r].world, Sync.Wait(ms), lag, span)))
      case Change(r, number, open, tie) =>
        var change := Sync.Change(number, Sync.Update(s.now, open, tie));
        s.(repos := s.repos[r := s.repos[r].(world := Sync.Apply(s.repos[r].world, change, lag, span))])
      case Produce(run) => Produced(s, run, lag, span)
  }

  ghost function Execute(s: Service, schedule: seq<Step>, lag: nat, span: nat): Service
    decreases |schedule|
  {
    if schedule == [] then s else Execute(Apply(s, schedule[0], lag, span), schedule[1..], lag, span)
  }

  // ----- The mode decides how every repository is walked -----

  /**
   * An incremental run has a cutoff for every repository, the one `BuildCutoff` computes and the page walk
   * stops at; a full run stops at none.
   */
  lemma ModeDecidesEveryWalk(s: Service, run: Run, lag: nat, span: nat, oldestOpen: map<string, int>,
        cutoff: map<string, int>, r: string)
    requires RunOk(s, run, lag, span) && r in run.names
    requires Lookup(oldestOpen, r) == run.passes[r].oldestOpen
    requires IsCutoff(run.names, StateOf(s, run), oldestOpen, run.clock, cutoff)
    ensures ModeOf(s, run).Incremental? ==> run.stateRead && r in cutoff
    ensures var stop := Sync.StopOf(s.repos[r].world, run.passes[r]);
      && stop == StopAt(cutoff, r, ModeOf(s, run).Incremental?)
      && (stop.Some? <==> ModeOf(s, run).Incremental?)
  {
    ModeExactlyWhen(run.names, StateOf(s, run), run.clock);
    assert PassFits(s, run, r, lag, span);
    if ModeOf(s, run).Incremental? {
      assert r in StateOf(s, run) && Synced(StateOf(s, run)[r]);
    }
  }

  /** Every budget that the state knows covers one and a half full walks of all repositories. */
  predicate Affordable(names: seq<string>, state: map<string, SyncState>) {
    forall r | r in names && r in state && state[r].remaining.Some? ::
      2 * state[r].remaining.value >= 3 * FULL_WALK_POINTS_PER_REPO * |names|
  }

  /**
   * A full walk that is due and affordable is made by the next run: that run is full, for every repository, and
   * every one it records is walked in full just now and holds everything there was before the pass.
   */
  lemma DueWalksAreMade(s: Service, run: Run, lag: nat, span: nat, due: string, r: string, number: nat)
    requires RunOk(s, run, lag, span) && ServiceOk(s) && due in run.names && r in run.names
    requires run.stateRead ==> due in s.repos && !WalkedLately(StateRow(s.repos[due]), run.clock)
    requires Affordable(run.names, StateOf(s, run))
    ensures ModeOf(s, run) == Full && Sync.StopOf(s.repos[r].world, run.passes[r]).None?
    ensures var repo, p := Apply(s, Produce(run), lag, span).repos[r], run.passes[r];
      p.recorded ==>
        && repo.lastFull == Some(s.now) && repo.fullWalks == s.repos[r].fullWalks + 1
        && (number in repo.world.upstream && repo.world.upstream[number] != []
            && repo.world.upstream[number][0].at <= p.start - lag ==>
              && Sync.NoOlderThan(repo.world, number, p.start - lag)
              && (Sync.Settled(repo.world.upstream, number, p.start, lag) ==> Sync.Current(repo.world, number)))
  {
    DueAndAffordableIsFull(s, run, due);
    assert PassFits(s, run, r, lag, span);
    var w, p := s.repos[r].world, run.passes[r];
    assert RepoOk(s.repos[r], s.now);
    if p.recorded && number in w.upstream && w.upstream[number][0].at <= p.start - lag {
      Sync.FullPassRepairs(w, p, lag, span, number);
    }
  }

  lemma DueAndAffordableIsFull(s: Service, run: Run, due: string)
    requires due in run.names
    requires run.stateRead ==> due in s.repos && !WalkedLately(StateRow(s.repos[due]), run.clock)
    requires Affordable(run.names, StateOf(s, run))
    ensures ModeOf(s, run) == Full
  {
    var state := StateOf(s, run);
    ModeExactlyWhen(run.names, state, run.clock);
    if forall r | r in run.names :: r in state && Synced(state[r]) {
      assert state[due] == StateRow(s.repos[due]);
    }
  }

  /**
   * So after any recorded run each repository was walked in full within the last day, or some budget that
   * was known did not cover one and a half full walks.
   */
  lemma ReconciledOrUnaffordable(s: Service, run: Run, lag: nat, span: nat, r: string)
    requires RunOk(s, run, lag, span) && r in run.names && run.passes[r].recorded && ServiceOk(s)
    ensures var repo := Apply(s, Produce(run), lag, span).repos[r];
      || (repo.lastFull.Some? && run.clock - repo.lastFull.value <= FULL_RESYNC_INTERVAL)
      || !Affordable(run.names, StateOf(s, run))
  {
    assert PassFits(s, run, r, lag, span);
    if !WalkedLately(StateRow(s.repos[r]), run.clock) && Affordable(run.names, StateOf(s, run)) {
      DueAndAffordableIsFull(s, run, r);
    }
  }

  /**
   * What a run leaves in a repository's row: only a recorded full walk counts as one; the epoch never goes back and
   * is current once anything was recorded; a budget stays known until a newer one is.
   */
  lemma RowAfterARun(s: Service, run: Run, lag: nat, span: nat, r: string)
    requires RunOk(s, run, lag, span) && r in s.repos
    ensures r in Apply(s, Produce(run), lag, span).repos
    ensures var was, now := s.repos[r], Apply(s, Produce(run), lag, span).repos[r];
      var recorded := r in run.names && r in run.passes && run.passes[r].recorded;
      && now.lastFull == (if recorded && ModeOf(s, run).Full? then Some(s.now) else was.lastFull)
      && now.epoch == (if recorded then Max(was.epoch, SCHEMA_EPOCH) else was.epoch)
      && now.remaining == (if recorded && run.remaining.Some? then run.remaining else was.remaining)
      && (r !in run.names ==> now == was)
  {
    if r in run.names {
      assert PassFits(s, run, r, lag, span);
    }
  }

  // ----- Every run -----

  /** What the sync rows mean. */
  predicate RepoOk(repo: Repo, now: int) {
    && repo.world.now == now
    && Sync.UpstreamOk(repo.world)
    && (repo.world.watermark.Some? <==> repo.sawPr)
    && (repo.sawPr ==> repo.world.upstream != map[])
    && (repo.epoch >= SCHEMA_EPOCH <==> repo.fullWalks > 0)
    && (repo.fullWalks > 0 <==> repo.lastFull.Some?)
    && (repo.sawPr ==> repo.fullWalks > 0)
  }

  predicate ServiceOk(s: Service) { forall r | r in s.repos :: RepoOk(s.repos[r], s.now) }

  /** Only a full walk can give a repository its first row, so only a full walk repairs one after a schema change. */
  lemma PassKeepsRepoOk(s: Service, run: Run, lag: nat, span: nat, r: string)
    requires ServiceOk(s) && RunOk(s, run, lag, span) && r in run.names
    ensures RepoOk(RepoAfter(s.repos[r], run.passes[r], ModeOf(s, run).Full?, s.now, run.remaining, lag, span), s.now)
  {
    assert PassFits(s, run, r, lag, span);
    var repo, p := s.repos[r], run.passes[r];
    var raw := Sync.WalkOf(repo.world, p).raw;
    Sync.NewestIsReached(raw);
    if raw != [] {
      assert raw[0] in raw;
      Sync.WalkIsGenuine(repo.world, p, lag, span, raw[0]);
    }
    ModeExactlyWhen(run.names, StateOf(s, run), run.clock);
    if ModeOf(s, run).Incremental? {
      assert r in StateOf(s, run) && Synced(StateOf(s, run)[r]);
    }
  }

  lemma StepKeepsServiceOk(s: Service, step: Step, lag: nat, span: nat)
    requires ServiceOk(s)
    ensures var s' := Apply(s, step, lag, span); ServiceOk(s') && s'.repos.Keys == s.repos.Keys
  {
    if Enabled(s, step, lag, span) {
      match step
      case Elapse(ms) =>
      case Change(r, number, open, tie) => ChangeKeepsRepoOk(s.repos[r], s.now, number, open, tie, lag, span);
      case Produce(run) =>
        forall r | r in run.names
          ensures RepoOk(RepoAfter(s.repos[r], run.passes[r], ModeOf(s, run).Full?, s.now, run.remaining, lag, span),
              s.now)
        {
          PassKeepsRepoOk(s, run, lag, span, r);
        }
    }
  }

  lemma ChangeKeepsRepoOk(repo: Repo, now: int, number: nat, open: bool, tie: int, lag: nat, span: nat)
    requires RepoOk(repo, now)
    ensures var change := Sync.Change(number, Sync.Update(now, open, tie));
      RepoOk(repo.(world := Sync.Apply(repo.world, change, lag, span)), now)
  {
    var w := repo.world;
    var w' := Sync.Apply(w, Sync.Change(number, Sync.Update(now, open, tie)), lag, span);
    forall o | o in w'.upstream
      ensures Sync.Ordered(w'.upstream[o], w'.now)
    {
      assert o in w.upstream ==> Sync.Ordered(w.upstream[o], w.now);
    }
  }

  function Unsynced(start: int, names: set<string>): Service { Service(start, map r | r in names :: NewRepo(start)) }

  ghost predicate Reachable(s: Service, lag: nat, span: nat) {
    exists start: int, names: set<string>, schedule: seq<Step> ::
      s == Execute(Unsynced(start, names), schedule, lag, span)
  }

  lemma {:induction false} ScheduleKeepsServiceOk(s: Service, schedule: seq<Step>, lag: nat, span: nat)
    requires ServiceOk(s)
    ensures ServiceOk(Execute(s, schedule, lag, span))
    decreases |schedule|
  {
    if schedule == [] {
    } else {
      StepKeepsServiceOk(s, schedule[0], lag, span);
      ScheduleKeepsServiceOk(Apply(s, schedule[0], lag, span), schedule[1..], lag, span);
    }
  }

  /**
   * In every reachable state a repository counts as repaired exactly when it has been walked in full, and
   * has a watermark exactly when some recorded walk has returned a PR of it.
   */
  lemma RowsMeanWalks(s: Service, lag: nat, span: nat, r: string)
    requires Reachable(s, lag, span) && r in s.repos
    ensures s.repos[r].epoch >= SCHEMA_EPOCH <==> s.repos[r].fullWalks > 0
    ensures s.repos[r].world.watermark.Some? <==> s.repos[r].sawPr
    ensures s.repos[r].sawPr ==> s.repos[r].fullWalks > 0
  {
    var start: int, names: set<string>, schedule: seq<Step> :|
      s == Execute(Unsynced(start, names), schedule, lag, span);
    ScheduleKeepsServiceOk(Unsynced(start, names), schedule, lag, span);
    assert RepoOk(s.repos[r], s.now);
  }

  /** A repository without PRs never gets a watermark, and while it is measured every run is a full one. */
  lemma EmptyRepositoryKeepsRunsFull(s: Service, lag: nat, span: nat, run: Run, r: string)
    requires Reachable(s, lag, span) && RunOk(s, run, lag, span)
    requires r in run.names && s.repos[r].world.upstream == map[]
    ensures ModeOf(s, run) == Full
  {
    var start: int, names: set<string>, schedule: seq<Step> :|
      s == Execute(Unsynced(start, names), schedule, lag, span);
    ScheduleKeepsServiceOk(Unsynced(start, names), schedule, lag, span);
    assert RepoOk(s.repos[r], s.now);
    ModeExactlyWhen(run.names, StateOf(s, run), run.clock);
    assert r in StateOf(s, run) ==> !Synced(StateOf(s, run)[r]);
  }

  /** One full walk of one empty repository. */
  function EmptyWalk(): Run {
    Run(["r"], 0, true, true, map["r" := Sync.Pass(0, 0, false, 0, None, [0], [[]], 1, 0, true)], None)
  }

  /** The run itself: the repository is walked in full and recorded, and has no watermark. */
  lemma EmptyRepositoryRun(lag: nat, span: nat)
    ensures var s := Apply(Unsynced(0, {"r"}), Produce(EmptyWalk()), lag, span);
      && Reachable(s, lag, span) && "r" in s.repos && s.repos["r"].world.upstream == map[]
      && s.repos["r"].fullWalks == 1 && s.repos["r"].lastFull == Some(0) && s.repos["r"].world.watermark.None?
  {
    var s, run := Unsynced(0, {"r"}), EmptyWalk();
    var w, p := s.repos["r"].world, run.passes["r"];
    assert Rest([], None) == [];
    assert Sync.WalkOf(w, p) == Walk([], true);
    assert Sync.ViewOk(w.upstream, p.views[0], 0, lag, false);
    assert Sync.PassOk(w, p, lag, span);
    assert "r" in run.names && !HasWatermark(StateOf(s, run), "r");
    assert PassFits(s, run, "r", lag, span);
    assert RunOk(s, run, lag, span);
    assert [Produce(run)][1..] == [];
    assert Execute(s, [Produce(run)], lag, span) == Apply(s, Produce(run), lag, span);
  }

  // ----- Freshness of all of them -----

  ghost predicate AllFresh(s: Service)
  {
    forall r | r in s.repos :: Sync.Inv(s.repos[r].world) && s.repos[r].world.now == s.now
  }

  lemma StepKeepsAllFresh(s: Service, step: Step, lag: nat, span: nat)
    requires AllFresh(s) && lag + span <= OVERLAP
    ensures AllFresh(Apply(s, step, lag, span))
  {
    if Enabled(s, step, lag, span) {
      var s' := Apply(s, step, lag, span);
      forall r | r in s'.repos
        ensures Sync.Inv(s'.repos[r].world) && s'.repos[r].world.now == s'.now
      {
        var w := s.repos[r].world;
        match step
        case Elapse(ms) => Sync.StepKeepsInv(w, Sync.Wait(ms), lag, span);
        case Change(_, number, open, tie) => Sync.StepKeepsInv(w, Sync.Change(number, Sync.Update(s.now, open, tie)),
            lag, span);
        case Produce(run) => if r in run.names { Sync.StepKeepsInv(w, Sync.Produce(run.passes[r]), lag, span); }
      }
    }
  }

  lemma {:induction false} ScheduleKeepsAllFresh(s: Service, schedule: seq<Step>, lag: nat, span: nat)
    requires AllFresh(s) && lag + span <= OVERLAP
    ensures AllFresh(Execute(s, schedule, lag, span))
    decreases |schedule|
  {
    if schedule == [] {
    } else {
      StepKeepsAllFresh(s, schedule[0], lag, span);
      ScheduleKeepsAllFresh(Apply(s, schedule[0], lag, span), schedule[1..], lag, span);
    }
  }

  /** Whatever mode each run chose, every repository's store is fresh in every reachable state. */
  lemma EveryRepositoryStaysFresh(s: Service, lag: nat, span: nat, r: string)
    requires Reachable(s, lag, span) && lag + span <= OVERLAP && r in s.repos
    ensures Sync.Fresh(s.repos[r].world)
  {
    var start: int, names: set<string>, schedule: seq<Step> :|
      s == Execute(Unsynced(start, names), schedule, lag, span);
    ScheduleKeepsAllFresh(Unsynced(start, names), schedule, lag, span);
  }
}
