/**
 * The page walk of server/src/github/client.ts: cursor pagination over a list that may move while it
 * is being read, with the rule that lets an incremental walk stop early.
 */
module PageWalk {
  import opened Common

  /**
   * One pull request as a page shows it. `rank` is the field the listing is ordered by (creation time
   * for a full walk, update time for an incremental one), and `tie` is whatever the provider orders equal
   * ranks by; `version` says which of its updates it shows.
   */
  datatype Node = Node(number: nat, rank: int, tie: int, updatedAt: int, version: nat, open: bool)

  predicate Before(a: Node, b: Node) {
    a.rank > b.rank || (a.rank == b.rank && a.tie > b.tie)
  }

  predicate Sorted(view: seq<Node>) {
    forall i, j | 0 <= i < j < |view| :: Before(view[i], view[j])
  }

  predicate Past(cursor: Option<Node>, n: Node) {
    cursor.Some? ==> Before(cursor.value, n)
  }

  /** What a request after `cursor` is served from. */
  function Rest(view: seq<Node>, cursor: Option<Node>): (rest: seq<Node>)
    ensures forall n | n in rest :: n in view
  {
    if view == [] || Past(cursor, view[0]) then view else Rest(view[1..], cursor)
  }

  function Page(rest: seq<Node>, size: nat): seq<Node> { rest[..Min(size, |rest|)] }

  /** Every node below the cutoff, and at least one: nothing further down the list can be at or above it. */
  predicate AllOlder(page: seq<Node>, stopAt: Option<int>) {
    stopAt.Some? && page != [] && forall n | n in page :: n.updatedAt < stopAt.value
  }

  function NextCursor(page: seq<Node>, cursor: Option<Node>): Option<Node> {
    if page == [] then cursor else Some(page[|page| - 1])
  }

  datatype Walk = Walk(raw: seq<Node>, completed: bool)

  /**
   * The walk from `cursor` on. `views[i]` is the listing as the i-th request sees it; a request past
   * the last view is one that failed.
   */
  function WalkFrom(views: seq<seq<Node>>, cursor: Option<Node>, size: nat, stopAt: Option<int>): Walk {
    if views == [] then Walk([], false)
    else
      var rest := Rest(views[0], cursor);
      var page := Page(rest, size);
      if AllOlder(page, stopAt) || |rest| <= size then Walk(page, true)
      else
        var next := WalkFrom(views[1..], NextCursor(page, cursor), size, stopAt);
        Walk(page + next.raw, next.completed)
  }

  lemma {:induction false} RestOfSorted(view: seq<Node>, cursor: Option<Node>)
    requires Sorted(view)
    ensures Sorted(Rest(view, cursor))
    ensures forall n | n in view && Past(cursor, n) :: n in Rest(view, cursor)
    ensures forall n | n in Rest(view, cursor) :: Past(cursor, n)
  {
    if view != [] && !Past(cursor, view[0]) {
      RestOfSorted(view[1..], cursor);
    }
  }

  /** The list shows that PR at that place, in whatever version. */
  predicate Places(view: seq<Node>, number: nat, rank: int, tie: int) {
    exists n :: n in view && n.number == number && n.rank == rank && n.tie == tie
  }

  predicate PastPlace(cursor: Option<Node>, rank: int, tie: int) {
    cursor.Some? ==> cursor.value.rank > rank || (cursor.value.rank == rank && cursor.value.tie > tie)
  }

  lemma RestPlaces(view: seq<Node>, cursor: Option<Node>, number: nat, rank: int, tie: int)
    requires Sorted(view) && Places(view, number, rank, tie) && PastPlace(cursor, rank, tie)
    ensures Sorted(Rest(view, cursor)) && Places(Rest(view, cursor), number, rank, tie)
  {
    RestOfSorted(view, cursor);
    var n :| n in view && n.number == number && n.rank == rank && n.tie == tie;
    assert n in Rest(view, cursor);
  }

  lemma PageHolds(rest: seq<Node>, size: nat, k: nat)
    requires k < |rest|
    ensures k < size ==> rest[k] in Page(rest, size)
  {
    if k < size {
      assert Page(rest, size)[k] == rest[k];
    }
  }

  /** A page before the place ends before it, and is not all older than a cutoff that the place is not. */
  lemma PageBeforePlace(rest: seq<Node>, size: nat, stopAt: Option<int>, number: nat, rank: int, tie: int)
    requires Sorted(rest) && size >= 1
    requires Places(rest, number, rank, tie) && !Places(Page(rest, size), number, rank, tie)
    requires stopAt.Some? ==> rank >= stopAt.value && forall m | m in rest :: m.rank == m.updatedAt
    ensures var page := Page(rest, size);
      |rest| > size && page != [] && PastPlace(Some(page[|page| - 1]), rank, tie) && !AllOlder(page, stopAt)
  {
    var page := Page(rest, size);
    var k :| 0 <= k < |rest| && rest[k].number == number && rest[k].rank == rank && rest[k].tie == tie;
    PageHolds(rest, size, k);
    assert Before(rest[size - 1], rest[k]) && page[0] == rest[0] && Before(rest[0], rest[k]);
    assert page[0] in page && page[0] in rest;
  }

  /**
   * A walk that completes has read every PR that kept its place on the list, down to its cutoff, whatever
   * else moved and whichever of its versions a page shows: for any page size and any ties.
   */
  lemma {:induction false} WalkMissesNothing(views: seq<seq<Node>>, cursor: Option<Node>, size: nat,
        stopAt: Option<int>, number: nat, rank: int, tie: int)
    requires size >= 1 && WalkFrom(views, cursor, size, stopAt).completed
    requires forall v | v in views :: Sorted(v) && Places(v, number, rank, tie)
    requires stopAt.Some? ==> rank >= stopAt.value && forall v, m | v in views && m in v :: m.rank == m.updatedAt
    requires PastPlace(cursor, rank, tie)
    ensures Places(WalkFrom(views, cursor, size, stopAt).raw, number, rank, tie)
  {
    var rest := Rest(views[0], cursor);
    var page := Page(rest, size);
    assert views[0] in views;
    RestPlaces(views[0], cursor, number, rank, tie);
    if Places(page, number, rank, tie) {
      var n :| n in page && n.number == number && n.rank == rank && n.tie == tie;
      assert n in WalkFrom(views, cursor, size, stopAt).raw;
    } else {
      PageBeforePlace(rest, size, stopAt, number, rank, tie);
      var later := WalkFrom(views[1..], Some(page[|page| - 1]), size, stopAt);
      WalkMissesNothing(views[1..], Some(page[|page| - 1]), size, stopAt, number, rank, tie);
      var n :| n in later.raw && n.number == number && n.rank == rank && n.tie == tie;
      assert n in WalkFrom(views, cursor, size, stopAt).raw;
    }
  }

  /** So a node that was on every page's list, in one version, is read. */
  lemma WalkReadsNode(views: seq<seq<Node>>, size: nat, stopAt: Option<int>, n: Node)
    requires size >= 1 && WalkFrom(views, None, size, stopAt).completed
    requires forall v | v in views :: Sorted(v) && n in v
    requires stopAt.Some? ==> n.rank >= stopAt.value && forall v, m | v in views && m in v :: m.rank == m.updatedAt
    ensures n in WalkFrom(views, None, size, stopAt).raw
  {
    WalkMissesNothing(views, None, size, stopAt, n.number, n.rank, n.tie);
    var raw := WalkFrom(views, None, size, stopAt).raw;
    var m :| m in raw && m.number == n.number && m.rank == n.rank && m.tie == n.tie;
    WalkInventsNothing(views, None, size, stopAt, m);
    var i :| 0 <= i < |views| && m in views[i];
    assert views[i] in views;
    var j :| 0 <= j < |views[i]| && views[i][j] == m;
    var k :| 0 <= k < |views[i]| && views[i][k] == n;
    assert !Before(m, n) && !Before(n, m);
  }

  /** Everything a walk returns was on the list when one of its requests was answered. */
  lemma {:induction false} WalkInventsNothing(views: seq<seq<Node>>, cursor: Option<Node>, size: nat,
        stopAt: Option<int>, n: Node)
    requires n in WalkFrom(views, cursor, size, stopAt).raw
    ensures exists i :: 0 <= i < |views| && n in views[i]
  {
    var rest := Rest(views[0], cursor);
    var page := Page(rest, size);
    if n in page {
      assert n in views[0];
    } else {
      WalkInventsNothing(views[1..], NextCursor(page, cursor), size, stopAt, n);
      var i :| 0 <= i < |views[1..]| && n in views[1..][i];
      assert n in views[i + 1];
    }
  }

  function Prepend(read: seq<Node>, walk: Walk): Walk { Walk(read + walk.raw, walk.completed) }

  lemma StillPage(view: seq<Node>, views: seq<seq<Node>>, from: nat, size: nat, stopAt: Option<int>)
    requires Sorted(view) && size >= 1 && from <= |view| && views != [] && views[0] == view
    ensures var rest := view[from..];
      WalkFrom(views, CursorAt(view, from), size, stopAt) ==
        if AllOlder(Page(rest, size), stopAt) || |rest| <= size then Walk(Page(rest, size), true)
        else Prepend(rest[..size], WalkFrom(views[1..], CursorAt(view, from + size), size, stopAt))
  {
    RestIsSuffix(view, from, 0);
    assert view[0..] == view;
    var rest := view[from..];
    assert |rest| > size ==> rest[size - 1] == view[from + size - 1];
  }

  predicate AllShow(views: seq<seq<Node>>, view: seq<Node>) { forall i | 0 <= i < |views| :: views[i] == view }

  /** On a list that does not move, the walk returns a prefix of it, the whole of it when there is no cutoff. */
  lemma {:induction false} StillListIsRead(view: seq<Node>, views: seq<seq<Node>>, from: nat, size: nat,
        stopAt: Option<int>)
    requires Sorted(view) && size >= 1 && from <= |view| && AllShow(views, view)
    ensures var walk := WalkFrom(views, CursorAt(view, from), size, stopAt);
      walk.raw <= view[from..] && (walk.completed && stopAt.None? ==> walk.raw == view[from..])
    decreases |views|
  {
    if views == [] {
    } else {
      var rest := view[from..];
      StillPage(view, views, from, size, stopAt);
      if !AllOlder(Page(rest, size), stopAt) && |rest| > size {
        StillListIsRead(view, views[1..], from + size, size, stopAt);
        PrefixJoins(view, from, size, WalkFrom(views[1..], CursorAt(view, from + size), size, stopAt).raw);
      }
    }
  }

  /** Listed by update time, and exactly the first `k` were updated at or after `stop`. */
  predicate RecentFirst(view: seq<Node>, stop: int, k: nat) {
    && k <= |view|
    && forall i | 0 <= i < |view| :: view[i].rank == view[i].updatedAt && (view[i].updatedAt >= stop <==> i < k)
  }

  lemma StillPageIsOlder(view: seq<Node>, from: nat, size: nat, stop: int, k: nat)
    requires size >= 1 && from <= |view| && RecentFirst(view, stop, k)
    ensures AllOlder(Page(view[from..], size), Some(stop)) <==> k <= from < |view|
  {
    var page := Page(view[from..], size);
    assert forall i | 0 <= i < |page| :: page[i] == view[from + i];
    if from < |view| {
      assert page[0] in page;
    }
  }

  /**
   * An incremental walk does stop early: over a list that does not move it ends with the page after the last
   * PR that is recent enough, whatever else the list holds.
   */
  lemma {:induction false} StillWalkStopsEarly(view: seq<Node>, views: seq<seq<Node>>, from: nat, size: nat, stop: int,
        k: nat)
    requires Sorted(view) && size >= 1 && from <= |view| && AllShow(views, view) && RecentFirst(view, stop, k)
    requires |views| > Max(k - from, 0)
    ensures var walk := WalkFrom(views, CursorAt(view, from), size, Some(stop));
      walk.completed && |walk.raw| <= if from < k then k - from + 2 * size - 1 else size
    decreases |views|
  {
    StillPage(view, views, from, size, Some(stop));
    StillPageIsOlder(view, from, size, stop, k);
    if from < k && |view[from..]| > size {
      StillWalkStopsEarly(view, views[1..], from + size, size, stop, k);
    }
  }

  lemma PrefixJoins(view: seq<Node>, from: nat, size: nat, later: seq<Node>)
    requires from + size <= |view| && later <= view[from + size..]
    ensures var rest := view[from..];
      rest[..size] + later <= rest && (later == view[from + size..] ==> rest[..size] + later == rest)
  {
    assert view[from..][size..] == view[from + size..];
  }

  function CursorAt(view: seq<Node>, from: nat): Option<Node>
    requires from <= |view|
  {
    if from == 0 then None else Some(view[from - 1])
  }

  lemma {:induction false} RestIsSuffix(view: seq<Node>, from: nat, at: nat)
    requires Sorted(view) && at <= from <= |view|
    ensures Rest(view[at..], CursorAt(view, from)) == view[from..]
    decreases from - at
  {
    if at == from {
    } else {
      assert view[at..][1..] == view[at + 1..];
      assert !Before(view[from - 1], view[at]);
      RestIsSuffix(view, from, at + 1);
    }
  }

  lemma OneMorePage(read: seq<Node>, views: seq<seq<Node>>, request: nat, cursor: Option<Node>, size: nat,
        stopAt: Option<int>)
    requires request < |views|
    ensures var rest := Rest(views[request], cursor);
      var page := Page(rest, size);
      Prepend(read, WalkFrom(views[request..], cursor, size, stopAt)) ==
        if AllOlder(page, stopAt) || |rest| <= size then Walk(read + page, true)
        else Prepend(read + page, WalkFrom(views[request + 1..], NextCursor(page, cursor), size, stopAt))
  {
    assert views[request..][1..] == views[request + 1..];
    var page := Page(Rest(views[request], cursor), size);
    var later := WalkFrom(views[request + 1..], NextCursor(page, cursor), size, stopAt).raw;
    assert read + (page + later) == read + page + later;
  }

  /** The loop itself. */
  method WalkRepo(views: seq<seq<Node>>, size: nat, stopAt: Option<int>) returns (walk: Walk)
    ensures walk == WalkFrom(views, None, size, stopAt)
  {
    var raw: seq<Node> := [];
    var cursor: Option<Node> := None;
    var request := 0;
    while request < |views|
      invariant request <= |views|
      invariant WalkFrom(views, None, size, stopAt) == Prepend(raw, WalkFrom(views[request..], cursor, size, stopAt))
    {
      OneMorePage(raw, views, request, cursor, size, stopAt);
      var rest := Rest(views[request], cursor);
      var page := Page(rest, size);
      raw := raw + page;
      if AllOlder(page, stopAt) || |rest| <= size {
        return Walk(raw, true);
      }
      cursor := NextCursor(page, cursor);
      request := request + 1;
    }
    return Walk(raw, false);
  }

  /** A repository without a watermark has no cutoff, so it is walked in full even in incremental mode. */
  function StopAt(cutoff: map<string, int>, repo: string, incremental: bool): Option<int> {
    if incremental && repo in cutoff then Some(cutoff[repo]) else None
  }

  // ----- backfill -----

  const MAX_INNER_PAGES: nat := 50
  const INNER_LIMIT: nat := 100

  /** Reads one connection of one PR to its end, or refuses after MAX_INNER_PAGES pages. */
  method CollectNodes<N>(connection: seq<N>) returns (nodes: Option<seq<N>>)
    ensures nodes.Some? ==> nodes.value == connection
    ensures nodes.None? <==> |connection| > MAX_INNER_PAGES * INNER_LIMIT
  {
    var read: seq<N> := [];
    for page := 0 to MAX_INNER_PAGES
      invariant |read| == page * INNER_LIMIT <= |connection|
      invariant read == connection[..|read|]
      invariant page > 0 ==> |read| < |connection|
    {
      var end := Min(|read| + INNER_LIMIT, |connection|);
      read := read + connection[|read|..end];
      if end == |connection| {
        return Some(read);
      }
    }
    return None;
  }

  /** The whole lists behind those that the first pass cut off, and whether the requests for them are answered. */
  datatype Inner = Inner(connections: seq<seq<string>>, answered: bool)

  predicate Refused(inner: Inner) {
    !inner.answered || exists c :: c in inner.connections && |c| > MAX_INNER_PAGES * INNER_LIMIT
  }

  /** Replaces the lists of one PR by whole ones. */
  method Backfill(inner: Inner) returns (lists: Option<seq<seq<string>>>)
    ensures lists.None? <==> Refused(inner)
    ensures lists.None? <==>
      !inner.answered || exists c :: c in inner.connections && |c| > MAX_INNER_PAGES * INNER_LIMIT
    ensures lists.Some? ==> lists.value == inner.connections
  {
    if !inner.answered {
      return None;
    }
    var filled: seq<seq<string>> := [];
    for i := 0 to |inner.connections|
      invariant filled == inner.connections[..i]
      invariant forall c | c in inner.connections[..i] :: |c| <= MAX_INNER_PAGES * INNER_LIMIT
    {
      var nodes := CollectNodes(inner.connections[i]);
      if nodes.None? {
        return None;
      }
      filled := filled + [nodes.value];
    }
    return Some(filled);
  }

  /** Backfills every PR of one walk. */
  method BackfillAll(raw: seq<Node>, innerOf: Node -> Inner) returns (lists: Option<seq<seq<seq<string>>>>)
    ensures lists.None? <==> exists n :: n in raw && Refused(innerOf(n))
    ensures lists.Some? ==> FilledIn(raw, innerOf, lists.value)
  {
    var filled: seq<seq<seq<string>>> := [];
    for i := 0 to |raw|
      invariant FilledIn(raw[..i], innerOf, filled)
      invariant forall n | n in raw[..i] :: !Refused(innerOf(n))
    {
      var one := Backfill(innerOf(raw[i]));
      if one.None? {
        return None;
      }
      filled := filled + [one.value];
    }
    assert raw[..|raw|] == raw;
    return Some(filled);
  }

  predicate FilledIn(raw: seq<Node>, innerOf: Node -> Inner, lists: seq<seq<seq<string>>>) {
    |lists| == |raw| && forall i | 0 <= i < |raw| :: lists[i] == innerOf(raw[i]).connections
  }

  // ----- fetchPullRequests -----

  datatype Answer = Answer(walks: map<string, Walk>, lists: map<string, seq<seq<seq<string>>>>)

  /** What the provider would answer to one fetch: the listings its requests see, and the lists behind each PR. */
  datatype Provider = Provider(views: map<string, seq<seq<Node>>>, innerOf: string -> Node -> Inner)

  function WalkOfRepo(p: Provider, size: nat, cutoff: map<string, int>, incremental: bool, r: string): Walk
    requires r in p.views
  {
    WalkFrom(p.views[r], None, size, StopAt(cutoff, r, incremental))
  }

  predicate Thrown(p: Provider, walk: Walk, r: string) {
    !walk.completed || exists n :: n in walk.raw && Refused(p.innerOf(r)(n))
  }

  /** Every repository in turn, and then what is cut off; anything that fails throws the whole answer away. */
  method FetchPullRequests(repos: seq<string>, p: Provider, size: nat, cutoff: map<string, int>, incremental: bool)
    returns (answer: Option<Answer>)
    requires forall r | r in repos :: r in p.views
    ensures answer.None? <==> exists r :: r in repos && Thrown(p, WalkOfRepo(p, size, cutoff, incremental, r), r)
    ensures answer.Some? ==> forall r :: r in answer.value.walks <==> r in repos
    ensures answer.Some? ==> forall r | r in repos ::
      && answer.value.walks[r] == WalkOfRepo(p, size, cutoff, incremental, r) && answer.value.walks[r].completed
      && r in answer.value.lists && FilledIn(answer.value.walks[r].raw, p.innerOf(r), answer.value.lists[r])
    ensures answer.Some? ==> forall r | r in repos ::
      answer.value.walks[r] ==
        WalkFrom(p.views[r], None, size, if incremental && r in cutoff then Some(cutoff[r]) else None)
    ensures answer.Some? ==> forall r, n | r in repos && n in answer.value.walks[r].raw :: p.innerOf(r)(n).answered
    ensures answer.Some? ==> forall r | r in repos ::
      var raw, lists := answer.value.walks[r].raw, answer.value.lists[r];
      |lists| == |raw| && forall i | 0 <= i < |raw| :: lists[i] == p.innerOf(r)(raw[i]).connections
    ensures (forall r | r in repos :: WalkOfRepo(p, size, cutoff, incremental, r).completed
              && forall n | n in WalkOfRepo(p, size, cutoff, incremental, r).raw :: !Refused(p.innerOf(r)(n)))
            ==> answer.Some?
  {
    var walks := WalkAll(repos, p, size, cutoff, incremental);
    if walks.None? {
      ghost var r :| r in repos && !WalkOfRepo(p, size, cutoff, incremental, r).completed;
      assert Thrown(p, WalkOfRepo(p, size, cutoff, incremental, r), r);
      return None;
    }
    var lists := FillAll(repos, p, walks.value);
    if lists.None? {
      ghost var r :| r in repos && Thrown(p, walks.value[r], r);
      assert Thrown(p, WalkOfRepo(p, size, cutoff, incremental, r), r);
      return None;
    }
    forall r | r in repos
      ensures !Thrown(p, WalkOfRepo(p, size, cutoff, incremental, r), r)
    {
      assert !Thrown(p, walks.value[r], r);
    }
    return Some(Answer(walks.value, lists.value));
  }

  method FillAll(repos: seq<string>, p: Provider, walks: map<string, Walk>)
    returns (lists: Option<map<string, seq<seq<seq<string>>>>>)
    requires forall r | r in repos :: r in walks && walks[r].completed
    ensures lists.None? <==> exists r :: r in repos && Thrown(p, walks[r], r)
    ensures lists.Some? ==> forall r | r in repos ::
      r in lists.value && FilledIn(walks[r].raw, p.innerOf(r), lists.value[r])
  {
    var filled: map<string, seq<seq<seq<string>>>> := map[];
    for i := 0 to |repos|
      invariant forall r | r in repos[..i] :: !Thrown(p, walks[r], r)
      invariant forall r | r in repos[..i] :: r in filled && FilledIn(walks[r].raw, p.innerOf(r), filled[r])
    {
      var r := repos[i];
      var one := BackfillAll(walks[r].raw, p.innerOf(r));
      if one.None? {
        assert r in repos && Thrown(p, walks[r], r);
        return None;
      }
      filled := filled[r := one.value];
    }
    return Some(filled);
  }

  method WalkAll(repos: seq<string>, p: Provider, size: nat, cutoff: map<string, int>, incremental: bool)
    returns (walks: Option<map<string, Walk>>)
    requires forall r | r in repos :: r in p.views
    ensures walks.None? <==> exists r :: r in repos && !WalkOfRepo(p, size, cutoff, incremental, r).completed
    ensures walks.Some? ==> forall r :: r in walks.value <==> r in repos
    ensures walks.Some? ==> forall r | r in repos :: walks.value[r] == WalkOfRepo(p, size, cutoff, incremental, r)
  {
    var done: map<string, Walk> := map[];
    for i := 0 to |repos|
      invariant forall r :: r in done <==> r in repos[..i]
      invariant forall r | r in done :: done[r] == WalkOfRepo(p, size, cutoff, incremental, r) && done[r].completed
    {
      var walk := WalkRepo(p.views[repos[i]], size, StopAt(cutoff, repos[i], incremental));
      if !walk.completed {
        assert repos[i] in repos && !WalkOfRepo(p, size, cutoff, incremental, repos[i]).completed;
        return None;
      }
      done := done[repos[i] := walk];
    }
    return Some(done);
  }
}
