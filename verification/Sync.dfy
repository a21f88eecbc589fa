/**
 * Incremental sync of one repository: the write half of `produce` in server/src/stats-service.ts over
 * the page walk and the watermark of server/src/db/pr-store.ts. The store is a cache of upstream, and
 * this module says when it agrees with it.
 *
 * Upstream changes at any time. A page shows, for each PR, a version at most `lag` behind the moment
 * the page is read, and the pages of one walk are read within `span` of each other.
 */
module Sync {
  import opened Common
  import opened PageWalk
  import opened SyncPolicy

  datatype Update = Update(at: int, open: bool, tie: int)

  // A PR's history: when each of its versions appeared. The first is its creation.
  type Upstream = map<nat, seq<Update>>

  datatype World = World(
    now: int,
    upstream: Upstream,
    store: map<nat, Node>,
    watermark: Option<int>,
    idleSince: int)

  /** One run of `produce`. `saved` rows reached the store; `recorded` says the watermark write did. */
  datatype Pass = Pass(
    start: int, end: int,
    incremental: bool, clock: int, oldestOpen: Option<int>,
    times: seq<int>, views: seq<seq<Node>>, size: nat,
    saved: nat, recorded: bool)

  datatype Step =
    | Wait(elapsed: nat)
    | Change(number: nat, update: Update)
    | Produce(pass: Pass)

  // ----- What a request is answered with -----

  function NodeOf(up: Upstream, number: nat, version: nat, byUpdate: bool): Node
    requires number in up && version < |up[number]|
  {
    var u := up[number][version];
    var place := if byUpdate then u else up[number][0];
    Node(number, place.at, place.tie, u.at, version, u.open)
  }

  /** A version the PR really has, and no older than `lag` before `at`. */
  predicate Shows(up: Upstream, n: Node, at: int, lag: nat, byUpdate: bool) {
    && n.number in up && n.version < |up[n.number]|
    && n == NodeOf(up, n.number, n.version, byUpdate)
    && n.updatedAt <= at
    && forall v | 0 <= v < |up[n.number]| && up[n.number][v].at <= at - lag :: v <= n.version
  }

  ghost predicate ViewOk(up: Upstream, view: seq<Node>, at: int, lag: nat, byUpdate: bool) {
    && Sorted(view)
    && (forall n | n in view :: Shows(up, n, at, lag, byUpdate))
    && (forall number | number in up && up[number] != [] && up[number][0].at <= at - lag ::
         exists n :: n in view && n.number == number)
  }

  // ----- One pass -----

  function StopOf(w: World, p: Pass): Option<int> {
    if p.incremental && w.watermark.Some? then Some(Cutoff(w.watermark.value, p.clock, p.oldestOpen)) else None
  }

  function WalkOf(w: World, p: Pass): Walk { WalkFrom(p.views, None, p.size, StopOf(w, p)) }

  ghost predicate PassOk(w: World, p: Pass, lag: nat, span: nat) {
    && w.idleSince <= p.start <= p.end <= w.now && p.end - p.start <= span
    && p.size >= 1 && |p.times| == |p.views|
    && (forall i | 0 <= i < |p.views| ::
         p.start <= p.times[i] <= p.end && ViewOk(w.upstream, p.views[i], p.times[i], lag, StopOf(w, p).Some?))
    && p.saved <= |WalkOf(w, p).raw|
    // A walk that failed saves nothing; a save that failed records nothing.
    && (!WalkOf(w, p).completed ==> p.saved == 0)
    && (p.recorded ==> WalkOf(w, p).completed && p.saved == |WalkOf(w, p).raw|)
  }

  /** The upserts, in order. */
  function SaveAll(store: map<nat, Node>, nodes: seq<Node>): map<nat, Node>
    decreases |nodes|
  {
    if nodes == [] then store else SaveAll(store[nodes[0].number := nodes[0]], nodes[1..])
  }

  function Newest(nodes: seq<Node>): Option<int> {
    if nodes == [] then None
    else
      var rest := Newest(nodes[1..]);
      Some(if rest.Some? then Max(nodes[0].updatedAt, rest.value) else nodes[0].updatedAt)
  }

  /** SQL greatest: a null argument is ignored. */
  function Greatest(a: Option<int>, b: Option<int>): Option<int> {
    if a.None? then b else if b.None? then a else Some(Max(a.value, b.value))
  }

  // ----- Any sequence of changes and passes -----

  function Init(now: int): World { World(now, map[], map[], None, now) }

  ghost predicate Enabled(w: World, s: Step, lag: nat, span: nat) {
    match s
    case Wait(_) => true
    case Change(_, update) => w.now <= update.at
    case Produce(pass) => PassOk(w, pass, lag, span)
  }

  ghost function Apply(w: World, s: Step, lag: nat, span: nat): World {
    if !Enabled(w, s, lag, span) then w
    else match s
      case Wait(d) => w.(now := w.now + d)
      case Change(number, update) =>
        w.(now := update.at,
           upstream := w.upstream[number := (if number in w.upstream then w.upstream[number] else []) + [update]])
      case Produce(p) =>
        var raw := WalkOf(w, p).raw;
        w.(store := SaveAll(w.store, raw[..p.saved]),
           watermark := if p.recorded then Greatest(w.watermark, Newest(raw)) else w.watermark,
           idleSince := w.now)
  }

  ghost function Execute(w: World, schedule: seq<Step>, lag: nat, span: nat): World
    decreases |schedule|
  {
    if schedule == [] then w else Execute(Apply(w, schedule[0], lag, span), schedule[1..], lag, span)
  }

  // ----- The invariant -----

  predicate Ordered(updates: seq<Update>, now: int) {
    && updates != []
    && (forall i, j | 0 <= i < j < |updates| :: updates[i].at <= updates[j].at)
    && (forall i | 0 <= i < |updates| :: updates[i].at <= now)
  }

  function LastAt(updates: seq<Update>): int
    requires updates != []
  {
    updates[|updates| - 1].at
  }

  predicate Current(w: World, number: nat)
    requires number in w.upstream
  {
    number in w.store && w.store[number].version == |w.upstream[number]| - 1
  }

  /** Everything last changed at or before the watermark less the overlap is stored as it is upstream. */
  predicate Fresh(w: World) {
    w.watermark.Some? ==>
      forall number | number in w.upstream && w.upstream[number] != [] &&
                      LastAt(w.upstream[number]) <= w.watermark.value - OVERLAP :: Current(w, number)
  }

  /** Stored rows are versions the PR had. */
  predicate Genuine(w: World) {
    forall number | number in w.store ::
      && number in w.upstream && w.store[number].version < |w.upstream[number]|
      && w.store[number].updatedAt == w.upstream[number][w.store[number].version].at <= w.idleSince
  }

  predicate Inv(w: World) {
    && UpstreamOk(w)
    && w.idleSince <= w.now
    && (w.watermark.Some? ==> w.watermark.value <= w.idleSince)
    && Genuine(w)
    && Fresh(w)
  }

  predicate UpstreamOk(w: World) { forall number | number in w.upstream :: Ordered(w.upstream[number], w.now) }

  /** Version `v` is the one every page of a walk from `start` to `end` shows: nothing came after it until the end. */
  predicate Still(up: Upstream, number: nat, v: nat, start: int, end: int, lag: nat) {
    && number in up && v < |up[number]| && up[number][v].at <= start - lag
    && forall u | v < u < |up[number]| :: up[number][u].at > end
  }

  /** And the last there is. */
  predicate Settled(up: Upstream, number: nat, start: int, lag: nat) {
    number in up && up[number] != [] && LastAt(up[number]) <= start - lag
  }

  lemma StillShows(up: Upstream, n: Node, v: nat, at: int, start: int, end: int, lag: nat, byUpdate: bool)
    requires Shows(up, n, at, lag, byUpdate) && start <= at <= end && Still(up, n.number, v, start, end, lag)
    ensures n == NodeOf(up, n.number, v, byUpdate)
  {
    assert up[n.number][v].at <= at - lag;
  }

  lemma StillIsInEveryView(up: Upstream, view: seq<Node>, number: nat, v: nat, at: int, start: int, end: int, lag: nat,
        byUpdate: bool, now: int)
    requires ViewOk(up, view, at, lag, byUpdate) && start <= at <= end
    requires Still(up, number, v, start, end, lag) && Ordered(up[number], now)
    ensures NodeOf(up, number, v, byUpdate) in view
  {
    assert up[number][0].at <= up[number][v].at;
    var n :| n in view && n.number == number;
    StillShows(up, n, v, at, start, end, lag, byUpdate);
  }

  /** A completed walk reads every PR that is still while it lasts and not older than its cutoff. */
  lemma WalkReadsStill(w: World, p: Pass, lag: nat, span: nat, number: nat, v: nat)
    requires UpstreamOk(w) && PassOk(w, p, lag, span) && WalkOf(w, p).completed
    requires Still(w.upstream, number, v, p.start, p.end, lag)
    requires StopOf(w, p).Some? ==> w.upstream[number][v].at >= StopOf(w, p).value
    ensures NodeOf(w.upstream, number, v, StopOf(w, p).Some?) in WalkOf(w, p).raw
  {
    var byUpdate := StopOf(w, p).Some?;
    var n := NodeOf(w.upstream, number, v, byUpdate);
    forall view | view in p.views
      ensures Sorted(view) && n in view
      ensures byUpdate ==> forall m | m in view :: m.rank == m.updatedAt
    {
      var i :| 0 <= i < |p.views| && p.views[i] == view;
      StillIsInEveryView(w.upstream, view, number, v, p.times[i], p.start, p.end, lag, byUpdate, w.now);
      assert forall m | m in view :: Shows(w.upstream, m, p.times[i], lag, byUpdate);
    }
    WalkReadsNode(p.views, p.size, StopOf(w, p), n);
  }

  lemma WalkReadsSettled(w: World, p: Pass, lag: nat, span: nat, number: nat)
    requires UpstreamOk(w) && PassOk(w, p, lag, span) && WalkOf(w, p).completed
    requires Settled(w.upstream, number, p.start, lag)
    requires StopOf(w, p).Some? ==> LastAt(w.upstream[number]) >= StopOf(w, p).value
    ensures NodeOf(w.upstream, number, |w.upstream[number]| - 1, StopOf(w, p).Some?) in WalkOf(w, p).raw
  {
    WalkReadsStill(w, p, lag, span, number, |w.upstream[number]| - 1);
  }

  /** Whatever a walk returns is genuine, not newer than its end, and current if the PR is settled. */
  lemma WalkIsGenuine(w: World, p: Pass, lag: nat, span: nat, n: Node)
    requires PassOk(w, p, lag, span) && n in WalkOf(w, p).raw
    ensures n.number in w.upstream && n.version < |w.upstream[n.number]|
    ensures n.updatedAt == w.upstream[n.number][n.version].at && n.updatedAt <= p.end
    ensures Settled(w.upstream, n.number, p.start, lag) ==> n.version == |w.upstream[n.number]| - 1
  {
    WalkInventsNothing(p.views, None, p.size, StopOf(w, p), n);
    var i :| 0 <= i < |p.views| && n in p.views[i];
    assert Shows(w.upstream, n, p.times[i], lag, StopOf(w, p).Some?);
    if Settled(w.upstream, n.number, p.start, lag) {
      StillShows(w.upstream, n, |w.upstream[n.number]| - 1, p.times[i], p.start, p.end, lag, StopOf(w, p).Some?);
    }
  }

  lemma {:induction false} SavedRows(store: map<nat, Node>, nodes: seq<Node>, number: nat)
    ensures var store' := SaveAll(store, nodes);
      if exists n :: n in nodes && n.number == number
      then number in store' && store'[number] in nodes && store'[number].number == number
      else (number in store' <==> number in store) && (number in store ==> store'[number] == store[number])
    decreases |nodes|
  {
    if nodes == [] {
    } else {
      SavedRows(store[nodes[0].number := nodes[0]], nodes[1..], number);
      assert forall n | n in nodes :: n == nodes[0] || n in nodes[1..];
    }
  }

  /** A PR that a walk read twice is left as it was read last. */
  lemma {:induction false} LastReadIsStored(store: map<nat, Node>, nodes: seq<Node>, k: nat)
    requires k < |nodes| && forall j | k < j < |nodes| :: nodes[j].number != nodes[k].number
    ensures var number := nodes[k].number;
      number in SaveAll(store, nodes) && SaveAll(store, nodes)[number] == nodes[k]
    decreases |nodes|
  {
    var rest := nodes[1..];
    if k > 0 {
      assert nodes[k] == rest[k - 1];
      LastReadIsStored(store[nodes[0].number := nodes[0]], rest, k - 1);
    } else {
      SavedRows(store[nodes[0].number := nodes[0]], rest, nodes[0].number);
      assert forall n | n in rest :: n.number != nodes[0].number;
    }
  }

  lemma {:induction false} NewestIsReached(nodes: seq<Node>)
    ensures Newest(nodes).Some? <==> nodes != []
    ensures Newest(nodes).Some? ==> exists n :: n in nodes && n.updatedAt == Newest(nodes).value
    ensures forall n | n in nodes :: n.updatedAt <= Newest(nodes).value
  {
    if nodes == [] {
    } else {
      NewestIsReached(nodes[1..]);
      assert nodes[0] in nodes;
      assert forall n | n in nodes[1..] :: n in nodes;
    }
  }

  /**
   * A recorded pass puts the watermark at the latest update that was read, unless it is already past that;
   * nothing else moves it, and a pass never moves it beyond its own end.
   */
  lemma PassMovesWatermark(w: World, p: Pass, lag: nat, span: nat)
    requires Inv(w) && PassOk(w, p, lag, span)
    ensures var w' := Apply(w, Produce(p), lag, span);
      && (w'.watermark.Some? ==> w'.watermark.value <= p.end)
      && (w.watermark.Some? ==> w'.watermark.Some? && w.watermark.value <= w'.watermark.value)
      && (p.recorded ==> forall n | n in WalkOf(w, p).raw ::
           w'.watermark.Some? && n.updatedAt <= w'.watermark.value)
      && (w'.watermark == w.watermark
          || (p.recorded && exists n :: n in WalkOf(w, p).raw && w'.watermark == Some(n.updatedAt)))
  {
    var raw := WalkOf(w, p).raw;
    NewestIsReached(raw);
    if Newest(raw).Some? {
      var n :| n in raw && n.updatedAt == Newest(raw).value;
      WalkIsGenuine(w, p, lag, span, n);
    }
  }

  lemma PassKeepsGenuine(w: World, p: Pass, lag: nat, span: nat)
    requires Inv(w) && PassOk(w, p, lag, span)
    ensures Genuine(Apply(w, Produce(p), lag, span))
  {
    var w' := Apply(w, Produce(p), lag, span);
    var nodes := WalkOf(w, p).raw[..p.saved];
    forall number | number in w'.store
      ensures number in w.upstream && w'.store[number].version < |w.upstream[number]|
      ensures w'.store[number].updatedAt == w.upstream[number][w'.store[number].version].at
    {
      SavedRows(w.store, nodes, number);
      if exists n :: n in nodes && n.number == number {
        WalkIsGenuine(w, p, lag, span, w'.store[number]);
      }
    }
  }

  /** A settled PR is current after the pass if it was current before, or if a recorded pass reached it. */
  lemma PassKeepsSettledCurrent(w: World, p: Pass, lag: nat, span: nat, number: nat)
    requires PassOk(w, p, lag, span) && Settled(w.upstream, number, p.start, lag)
    requires var last := |w.upstream[number]| - 1;
      Current(w, number) || NodeOf(w.upstream, number, last, StopOf(w, p).Some?) in WalkOf(w, p).raw[..p.saved]
    ensures Current(Apply(w, Produce(p), lag, span), number)
  {
    var w' := Apply(w, Produce(p), lag, span);
    SavedRows(w.store, WalkOf(w, p).raw[..p.saved], number);
    if w'.store[number] in WalkOf(w, p).raw[..p.saved] && w'.store[number].number == number {
      WalkIsGenuine(w, p, lag, span, w'.store[number]);
    }
  }

  lemma PassKeepsFresh(w: World, p: Pass, lag: nat, span: nat)
    requires Inv(w) && PassOk(w, p, lag, span) && lag + span <= OVERLAP
    ensures Fresh(Apply(w, Produce(p), lag, span))
  {
    var w' := Apply(w, Produce(p), lag, span);
    PassMovesWatermark(w, p, lag, span);
    if w'.watermark.Some? {
      forall number | number in w.upstream && w.upstream[number] != [] &&
                      LastAt(w.upstream[number]) <= w'.watermark.value - OVERLAP
        ensures Current(w', number)
      {
        assert Settled(w.upstream, number, p.start, lag);
        if p.recorded && (StopOf(w, p).Some? ==> LastAt(w.upstream[number]) >= StopOf(w, p).value) {
          WalkReadsSettled(w, p, lag, span, number);
          assert WalkOf(w, p).raw[..p.saved] == WalkOf(w, p).raw;
        }
        PassKeepsSettledCurrent(w, p, lag, span, number);
      }
    }
  }

  lemma ChangeKeepsInv(w: World, number: nat, update: Update, lag: nat, span: nat)
    requires Inv(w) && w.now <= update.at
    ensures Inv(Apply(w, Change(number, update), lag, span))
  {
    var w' := Apply(w, Change(number, update), lag, span);
    assert Enabled(w, Change(number, update), lag, span);
    forall o | o in w'.upstream ensures Ordered(w'.upstream[o], w'.now) {
      assert o in w.upstream ==> Ordered(w.upstream[o], w.now);
    }
    forall o | o in w'.upstream && w'.watermark.Some? && LastAt(w'.upstream[o]) <= w'.watermark.value - OVERLAP
      ensures Current(w', o)
    {
      assert o != number && Current(w, o);
    }
  }

  lemma StepKeepsInv(w: World, s: Step, lag: nat, span: nat)
    requires Inv(w) && lag + span <= OVERLAP
    ensures var w' := Apply(w, s, lag, span);
      Inv(w') && (w.watermark.Some? ==> w'.watermark.Some? && w.watermark.value <= w'.watermark.value)
  {
    if Enabled(w, s, lag, span) {
      match s
      case Wait(_) =>
      case Change(number, update) => ChangeKeepsInv(w, number, update, lag, span);
      case Produce(p) =>
        PassMovesWatermark(w, p, lag, span);
        PassKeepsGenuine(w, p, lag, span);
        PassKeepsFresh(w, p, lag, span);
    }
  }

  /**
   * The sync invariant, over any sequence of changes, full and incremental passes, and failures; the
   * watermark never goes back.
   */
  lemma {:induction false} SyncKeepsStoreFresh(w: World, schedule: seq<Step>, lag: nat, span: nat)
    requires Inv(w) && lag + span <= OVERLAP
    ensures var w' := Execute(w, schedule, lag, span);
      Inv(w') && (w.watermark.Some? ==> w'.watermark.Some? && w.watermark.value <= w'.watermark.value)
    decreases |schedule|
  {
    if schedule == [] {
    } else {
      StepKeepsInv(w, schedule[0], lag, span);
      SyncKeepsStoreFresh(Apply(w, schedule[0], lag, span), schedule[1..], lag, span);
    }
  }

  // ----- What an incremental pass reads again -----

  /** SQL min(provider_updated_at) where state = 'open'. */
  predicate IsOldestOpen(store: map<nat, Node>, oldest: Option<int>) {
    && (oldest.Some? ==>
         exists number :: number in store && store[number].open && store[number].updatedAt == oldest.value)
    && (forall number | number in store && store[number].open ::
         oldest.Some? && oldest.value <= store[number].updatedAt)
  }

  /** A recorded incremental pass whose cutoff knew the oldest open PR. */
  ghost predicate IncrementalPass(w: World, p: Pass, lag: nat, span: nat) {
    Inv(w) && PassOk(w, p, lag, span) && p.recorded && p.incremental && IsOldestOpen(w.store, p.oldestOpen)
  }

  /** The store holds it as open, or it changed in the fourteen days before the pass. */
  predicate Watched(w: World, p: Pass, number: nat)
    requires number in w.upstream
  {
    || (number in w.store && w.store[number].open)
    || exists u :: 0 <= u < |w.upstream[number]| && p.clock - RECENT_WINDOW <= w.upstream[number][u].at <= p.start
  }

  ghost predicate Reads(w: World, p: Pass, number: nat) { exists n :: n in WalkOf(w, p).raw && n.number == number }

  /** An open or recent PR that was there before the pass. */
  ghost predicate RereadDue(w: World, p: Pass, lag: nat, span: nat, number: nat) {
    && IncrementalPass(w, p, lag, span)
    && number in w.upstream && w.upstream[number] != [] && w.upstream[number][0].at <= p.start - lag
    && Watched(w, p, number)
  }

  /**
   * A recorded incremental pass reads every watched PR that is still while it lasts, and leaves it
   * current if nothing has changed it since, even where the store had fallen behind.
   */
  lemma IncrementalPassRereads(w: World, p: Pass, lag: nat, span: nat, number: nat, v: nat)
    requires IncrementalPass(w, p, lag, span)
    requires Still(w.upstream, number, v, p.start, p.end, lag) && Watched(w, p, number)
    ensures NodeOf(w.upstream, number, v, StopOf(w, p).Some?) in WalkOf(w, p).raw && Reads(w, p, number)
    ensures v == |w.upstream[number]| - 1 ==> Current(Apply(w, Produce(p), lag, span), number)
  {
    WatchedIsPastTheCutoff(w, p, lag, span, number, v);
    WalkReadsStill(w, p, lag, span, number, v);
    if v == |w.upstream[number]| - 1 {
      ReadIsCurrent(w, p, lag, span, number, v);
    }
  }

  /** A PR that a recorded pass read at its last version is current afterwards. */
  lemma ReadIsCurrent(w: World, p: Pass, lag: nat, span: nat, number: nat, v: nat)
    requires PassOk(w, p, lag, span) && p.recorded
    requires Still(w.upstream, number, v, p.start, p.end, lag) && v == |w.upstream[number]| - 1
    requires NodeOf(w.upstream, number, v, StopOf(w, p).Some?) in WalkOf(w, p).raw
    ensures Current(Apply(w, Produce(p), lag, span), number)
  {
    assert WalkOf(w, p).raw[..p.saved] == WalkOf(w, p).raw;
    PassKeepsSettledCurrent(w, p, lag, span, number);
  }

  /** Nothing that had appeared by the end is later than the still version. */
  lemma StillIsLatest(up: Upstream, number: nat, v: nat, start: int, end: int, lag: nat, u: nat, now: int)
    requires Still(up, number, v, start, end, lag) && Ordered(up[number], now)
    requires u < |up[number]| && up[number][u].at <= end
    ensures up[number][u].at <= up[number][v].at
  {
    assert u <= v;
  }

  lemma CutoffIsBelow(w: World, p: Pass, at: int)
    requires p.incremental && IsOldestOpen(w.store, p.oldestOpen)
    requires at >= p.clock - RECENT_WINDOW
             || exists number :: number in w.store && w.store[number].open && w.store[number].updatedAt <= at
    ensures StopOf(w, p).Some? ==> at >= StopOf(w, p).value
  {
  }

  lemma WatchedIsPastTheCutoff(w: World, p: Pass, lag: nat, span: nat, number: nat, v: nat)
    requires IncrementalPass(w, p, lag, span)
    requires Still(w.upstream, number, v, p.start, p.end, lag) && Watched(w, p, number)
    ensures StopOf(w, p).Some? ==> w.upstream[number][v].at >= StopOf(w, p).value
  {
    var updates := w.upstream[number];
    assert Ordered(updates, w.now);
    if number in w.store && w.store[number].open {
      var held := w.store[number].version;
      assert updates[held].at == w.store[number].updatedAt <= w.idleSince;
      StillIsLatest(w.upstream, number, v, p.start, p.end, lag, held, w.now);
    } else {
      var u :| 0 <= u < |updates| && p.clock - RECENT_WINDOW <= updates[u].at <= p.start;
      StillIsLatest(w.upstream, number, v, p.start, p.end, lag, u, w.now);
    }
    CutoffIsBelow(w, p, updates[v].at);
  }

  /** PR 1 is open and last read at version 0; it changes as the walk ends. PR 2 fills the first page. */
  function MovingWorld(e: int): World {
    var up: Upstream := map[1 := [Update(0, true, 1), Update(e, true, 1)], 2 := [Update(5, true, 2)]];
    World(e, up, map[1 := NodeOf(up, 1, 0, true), 2 := NodeOf(up, 2, 0, true)], Some(5), 5)
  }

  function MovingPass(lag: nat, span: nat): Pass {
    var s, e := 6 + lag, 6 + lag + span;
    var up := MovingWorld(e).upstream;
    var early := [NodeOf(up, 2, 0, true), NodeOf(up, 1, 0, true)];
    var late := [NodeOf(up, 1, 1, true), NodeOf(up, 2, 0, true)];
    Pass(s, e, true, 5, Some(0), [s, e], [early, late], 1, 1, true)
  }

  lemma MovingWalk(lag: nat, span: nat)
    ensures var w, p := MovingWorld(6 + lag + span), MovingPass(lag, span);
      WalkOf(w, p) == Walk([p.views[0][0]], true)
  {
    var w, p := MovingWorld(6 + lag + span), MovingPass(lag, span);
    var early, late := p.views[0], p.views[1];
    var stop := StopOf(w, p);
    assert Rest(early, None) == early && Page(early, 1) == [early[0]];
    var cursor := Some(early[0]);
    assert late[1..] == [late[1]] && late[1..][1..] == [];
    assert !Past(cursor, late[0]) && !Past(cursor, late[1]);
    assert Rest(late[1..][1..], cursor) == [] && Rest(late[1..], cursor) == [] && Rest(late, cursor) == [];
    assert p.views[1..] == [late];
    assert WalkFrom([late], Some(early[0]), 1, stop) == Walk([], true);
  }

  lemma MovingViewOk(lag: nat, span: nat, i: nat)
    requires lag + span > 0 && i < 2
    ensures var w, p := MovingWorld(6 + lag + span), MovingPass(lag, span);
      ViewOk(w.upstream, p.views[i], p.times[i], lag, true)
  {
    var w, p := MovingWorld(6 + lag + span), MovingPass(lag, span);
    var view := p.views[i];
    assert view[0] in view && view[1] in view;
    assert view[0].number == 1 || view[1].number == 1;
    assert view[0].number == 2 || view[1].number == 2;
  }

  lemma MovingStore(e: int)
    requires e >= 6
    ensures var w := MovingWorld(e); UpstreamOk(w) && Genuine(w) && IsOldestOpen(w.store, Some(0))
  {
    var w := MovingWorld(e);
    assert w.store[1].updatedAt == 0 && w.store[1].open;
  }

  lemma MovingFresh(e: int)
    requires e >= 6
    ensures Fresh(MovingWorld(e))
  {
    var w := MovingWorld(e);
    assert LastAt(w.upstream[1]) == e && LastAt(w.upstream[2]) == 5;
  }

  lemma MovingWorldOk(e: int)
    requires e >= 6
    ensures Inv(MovingWorld(e)) && IsOldestOpen(MovingWorld(e).store, Some(0))
  {
    MovingStore(e);
    MovingFresh(e);
  }

  lemma MovingPassOk(lag: nat, span: nat)
    requires lag + span > 0
    ensures PassOk(MovingWorld(6 + lag + span), MovingPass(lag, span), lag, span)
  {
    MovingWalk(lag, span);
    MovingViewOk(lag, span, 0);
    MovingViewOk(lag, span, 1);
  }

  /** A watched PR that changes under the walk can move ahead of its cursor, and then that pass does not read it. */
  lemma MovingPrIsMissed(lag: nat, span: nat)
    requires lag + span > 0
    ensures var w, p := MovingWorld(6 + lag + span), MovingPass(lag, span);
      RereadDue(w, p, lag, span, 1) && !Reads(w, p, 1)
  {
    MovingWalk(lag, span);
    MovingWorldOk(6 + lag + span);
    MovingPassOk(lag, span);
  }

  lemma {:induction false} VersionAt(updates: seq<Update>, t: int, now: int) returns (v: nat)
    requires Ordered(updates, now) && updates[0].at <= t
    ensures v < |updates| && updates[v].at <= t && forall u | v < u < |updates| :: updates[u].at > t
    decreases |updates|
  {
    v := |updates| - 1;
    if updates[v].at > t {
      assert Ordered(updates[..v], now);
      v := VersionAt(updates[..v], t, now);
    }
  }

  /** Every incremental pass reads every watched PR exactly when nothing can move while it walks. */
  lemma WatchedAreRereadExactlyWhen(lag: nat, span: nat)
    ensures (forall w, p, number :: RereadDue(w, p, lag, span, number) ==> Reads(w, p, number)) <==> lag + span == 0
  {
    if lag + span == 0 {
      forall w, p, number | RereadDue(w, p, lag, span, number)
        ensures Reads(w, p, number)
      {
        assert Ordered(w.upstream[number], w.now);
        var v := VersionAt(w.upstream[number], p.start, w.now);
        IncrementalPassRereads(w, p, lag, span, number, v);
      }
    } else {
      MovingPrIsMissed(lag, span);
    }
  }

  /** The stored version is not older than any that had appeared by `at`. */
  predicate NoOlderThan(w: World, number: nat, at: int)
    requires number in w.upstream
  {
    && number in w.store
    && forall v | 0 <= v < |w.upstream[number]| && w.upstream[number][v].at <= at :: v <= w.store[number].version
  }

  lemma FullWalkReads(w: World, p: Pass, lag: nat, span: nat, number: nat)
    requires UpstreamOk(w) && PassOk(w, p, lag, span) && WalkOf(w, p).completed && StopOf(w, p).None?
    requires number in w.upstream && w.upstream[number][0].at <= p.start - lag
    ensures Reads(w, p, number)
  {
    var first := w.upstream[number][0];
    forall view | view in p.views
      ensures Sorted(view) && Places(view, number, first.at, first.tie)
    {
      var i :| 0 <= i < |p.views| && p.views[i] == view;
      assert ViewOk(w.upstream, view, p.times[i], lag, false);
      var n :| n in view && n.number == number;
    }
    WalkMissesNothing(p.views, None, p.size, None, number, first.at, first.tie);
  }

  lemma ReadIsNoOlder(w: World, p: Pass, lag: nat, span: nat, n: Node)
    requires PassOk(w, p, lag, span) && n in WalkOf(w, p).raw
    ensures n.number in w.upstream
    ensures forall v | 0 <= v < |w.upstream[n.number]| && w.upstream[n.number][v].at <= p.start - lag :: v <= n.version
  {
    WalkInventsNothing(p.views, None, p.size, StopOf(w, p), n);
    var i :| 0 <= i < |p.views| && n in p.views[i];
    assert Shows(w.upstream, n, p.times[i], lag, StopOf(w, p).Some?);
  }

  /**
   * A recorded full pass reads every PR there was before it, even one that changes while it walks, and leaves
   * each at a version no older than those of its start, whatever the store held; a settled one is current.
   */
  lemma FullPassRepairs(w: World, p: Pass, lag: nat, span: nat, number: nat)
    requires UpstreamOk(w) && PassOk(w, p, lag, span) && p.recorded && StopOf(w, p).None?
    requires number in w.upstream && w.upstream[number][0].at <= p.start - lag
    ensures var w' := Apply(w, Produce(p), lag, span);
      && w'.upstream == w.upstream && NoOlderThan(w', number, p.start - lag)
      && (Settled(w.upstream, number, p.start, lag) ==> Current(w', number))
  {
    var raw := WalkOf(w, p).raw;
    FullWalkReads(w, p, lag, span, number);
    assert raw[..p.saved] == raw;
    SavedRows(w.store, raw, number);
    var stored := SaveAll(w.store, raw)[number];
    ReadIsNoOlder(w, p, lag, span, stored);
    WalkIsGenuine(w, p, lag, span, stored);
  }

  // ----- Exactly when the invariant holds -----

  /** Two PRs created at 0; the first changes at 2, the second at the end of a walk that reads them a page each. */
  function LateUpstream(e: int): Upstream {
    map[2 := [Update(0, true, 2), Update(2, true, 2)], 1 := [Update(0, true, 1), Update(e, true, 1)]]
  }

  function SlowPass(lag: nat, span: nat): Pass {
    var s, e := lag + 1, lag + 1 + span;
    var up := LateUpstream(e);
    var early := [NodeOf(up, 2, 0, false), NodeOf(up, 1, 0, false)];
    var late := [NodeOf(up, 2, if span >= 1 then 1 else 0, false), NodeOf(up, 1, 1, false)];
    Pass(s, e, false, 0, None, [s, e], [early, late], 1, 2, true)
  }

  function SlowSchedule(lag: nat, span: nat): seq<Step> {
    [Change(2, Update(0, true, 2)), Change(1, Update(0, true, 1)), Change(2, Update(2, true, 2)),
     Change(1, Update(lag + 1 + span, true, 1)), Produce(SlowPass(lag, span))]
  }

  lemma SlowWalk(lag: nat, span: nat)
    ensures var p := SlowPass(lag, span);
      WalkFrom(p.views, None, 1, None) == Walk([p.views[0][0], p.views[1][1]], true)
  {
    var p := SlowPass(lag, span);
    var early, late := p.views[0], p.views[1];
    assert Rest(early, None) == early;
    assert Page(early, 1) == [early[0]];
    assert late[1..] == [late[1]];
    assert Rest(late, Some(early[0])) == [late[1]];
    assert p.views[1..] == [late];
    assert WalkFrom([late], Some(early[0]), 1, None) == Walk([late[1]], true);
  }

  lemma SlowViewOk(up: Upstream, p: Pass, i: nat, lag: nat, span: nat)
    requires lag + span > OVERLAP && i < 2
    requires up == LateUpstream(lag + 1 + span) && p == SlowPass(lag, span)
    ensures ViewOk(up, p.views[i], p.times[i], lag, false)
  {
  }

  lemma SlowPassIsOk(w: World, lag: nat, span: nat)
    requires lag + span > OVERLAP
    requires w.now == lag + 1 + span && w.upstream == LateUpstream(w.now) && w.watermark.None? && w.idleSince == 0
    ensures PassOk(w, SlowPass(lag, span), lag, span)
  {
    var p := SlowPass(lag, span);
    SlowWalk(lag, span);
    forall i | 0 <= i < |p.views|
      ensures p.start <= p.times[i] <= p.end && ViewOk(w.upstream, p.views[i], p.times[i], lag, StopOf(w, p).Some?)
    {
      SlowViewOk(w.upstream, p, i, lag, span);
    }
  }

  lemma SlowChanges(lag: nat, span: nat)
    requires lag + span > OVERLAP
    ensures var s := SlowSchedule(lag, span);
      var w := Apply(Apply(Apply(Apply(Init(0), s[0], lag, span), s[1], lag, span), s[2], lag, span), s[3], lag, span);
      w == World(lag + 1 + span, LateUpstream(lag + 1 + span), map[], None, 0)
  {
    var e := lag + 1 + span;
    var a0, a2, b0, be := Update(0, true, 2), Update(2, true, 2), Update(0, true, 1), Update(e, true, 1);
    var up1: Upstream := map[2 := [a0]];
    var up2: Upstream := map[2 := [a0], 1 := [b0]];
    var up3: Upstream := map[2 := [a0, a2], 1 := [b0]];
    assert [] + [a0] == [a0] && [] + [b0] == [b0] && [a0] + [a2] == [a0, a2] && [b0] + [be] == [b0, be];
    assert up1[1 := [b0]] == up2 && up2[2 := [a0, a2]] == up3 && up3[1 := [b0, be]] == LateUpstream(e);
    assert Apply(Init(0), Change(2, a0), lag, span) == World(0, up1, map[], None, 0);
    assert Apply(World(0, up1, map[], None, 0), Change(1, b0), lag, span) == World(0, up2, map[], None, 0);
    assert Apply(World(0, up2, map[], None, 0), Change(2, a2), lag, span) == World(2, up3, map[], None, 0);
  }

  lemma SlowPassResult(w: World, lag: nat, span: nat)
    requires lag + span > OVERLAP && w == World(lag + 1 + span, LateUpstream(lag + 1 + span), map[], None, 0)
    ensures !Fresh(Apply(w, Produce(SlowPass(lag, span)), lag, span))
  {
    SlowPassIsOk(w, lag, span);
    SlowWalk(lag, span);
    var w' := Apply(w, Produce(SlowPass(lag, span)), lag, span);
    var raw := WalkOf(w, SlowPass(lag, span)).raw;
    assert raw[..2] == raw && raw[1..] == [raw[1]];
    assert Newest(raw[1..]) == Some(lag + 1 + span);
    assert w'.watermark == Some(lag + 1 + span);
    SavedRows(w.store, raw, 2);
    assert w'.store[2] == raw[0];
    assert LastAt(w'.upstream[2]) == 2 && !Current(w', 2);
  }

  /** Beyond the overlap the invariant fails: the watermark passes a change the store has not seen. */
  lemma SlowWalkLeavesStoreStale(lag: nat, span: nat)
    requires lag + span > OVERLAP
    ensures !Fresh(Execute(Init(0), SlowSchedule(lag, span), lag, span))
  {
    SlowChanges(lag, span);
    FiveSteps(Init(0), SlowSchedule(lag, span), lag, span);
    SlowPassResult(World(lag + 1 + span, LateUpstream(lag + 1 + span), map[], None, 0), lag, span);
  }

  lemma FiveSteps(w: World, s: seq<Step>, lag: nat, span: nat)
    requires |s| == 5
    ensures Execute(w, s, lag, span) ==
      Apply(Apply(Apply(Apply(Apply(w, s[0], lag, span), s[1], lag, span), s[2], lag, span), s[3], lag, span), s[4],
          lag, span)
  {
    var w1 := Apply(w, s[0], lag, span);
    var w2 := Apply(w1, s[1], lag, span);
    var w3 := Apply(w2, s[2], lag, span);
    var w4 := Apply(w3, s[3], lag, span);
    assert Execute(w, s, lag, span) == Execute(w1, s[1..], lag, span);
    assert s[1..][1..] == s[2..] && s[2..][1..] == s[3..] && s[3..][1..] == s[4..] && s[4..][1..] == [];
    assert Execute(w1, s[1..], lag, span) == Execute(w2, s[2..], lag, span);
    assert Execute(w2, s[2..], lag, span) == Execute(w3, s[3..], lag, span);
    assert Execute(w3, s[3..], lag, span) == Execute(w4, s[4..], lag, span);
  }

  /**
   * The overlap absorbs replica lag and the walk's own duration together: the store stays fresh in
   * every run exactly when the two of them fit into it.
   */
  lemma FreshExactlyWithinTheOverlap(lag: nat, span: nat)
    ensures lag + span <= OVERLAP <==>
      forall start: int, schedule: seq<Step> :: Fresh(Execute(Init(start), schedule, lag, span))
  {
    if lag + span <= OVERLAP {
      forall start: int, schedule: seq<Step>
        ensures Fresh(Execute(Init(start), schedule, lag, span))
      {
        SyncKeepsStoreFresh(Init(start), schedule, lag, span);
      }
    } else {
      SlowWalkLeavesStoreStale(lag, span);
    }
  }
}
