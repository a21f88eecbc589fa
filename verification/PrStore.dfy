/**
 * Permanent storage of pull requests, server/src/db/pr-store.ts: one row per PR and one table per
 * child connection. A list that arrives complete replaces what is stored; a truncated one may only add.
 */
module PrStore {
  import opened Common

  datatype PrId = PrId(org: string, provider: string, repo: string, number: nat)
  datatype ChildId = ChildId(pr: PrId, key: string)

  // Every column of pull_request that an upsert overwrites.
  datatype Head = Head(
    title: string, state: string, isDraft: bool, baseRef: string, headRef: string, author: Option<string>,
    mergedAt: Option<int>, closedAt: Option<int>, readyAt: Option<int>, updatedAt: int,
    additions: int, deletions: int, changedFiles: int, commitCount: int, reviewCount: int, threadCount: int,
    issueCommentCount: int, forcePushCount: Option<int>, truncated: set<Connection>)

  datatype Connection = Reviews | Threads | Commits
  datatype Review = Review(author: Option<string>, state: string, providerState: string, submittedAt: Option<int>)
  datatype Thread = Thread(isResolved: bool, isOutdated: bool, firstCommentAuthor: Option<string>,
                           firstCommentAt: Option<int>, parentReviewKey: Option<string>)

  type Listed<V> = seq<(string, V)>

  datatype Pr = Pr(provider: string, repo: string, number: nat, createdAt: int, head: Head,
                   reviews: Listed<Review>, threads: Listed<Thread>, commits: Listed<int>, labels: seq<string>)

  datatype PrRow = PrRow(createdAt: int, head: Head)

  datatype Tables = Tables(
    prs: map<PrId, PrRow>,
    reviews: map<ChildId, Review>,
    threads: map<ChildId, Thread>,
    commits: map<ChildId, int>,
    labels: map<ChildId, ()>)

  // ----- The statements -----

  /** delete from ... where <owned> */
  function DeleteOwned<V>(t: map<ChildId, V>, id: PrId): map<ChildId, V> {
    map c | c in t && c.pr != id :: t[c]
  }

  /** insert ... on conflict do update (`keep` false) or do nothing (`keep` true), row by row */
  function Insert<V>(t: map<ChildId, V>, id: PrId, list: Listed<V>, keep: bool): map<ChildId, V>
    decreases |list|
  {
    if list == [] then t
    else
      var c := ChildId(id, list[0].0);
      Insert(if keep && c in t then t else t[c := list[0].1], id, list[1..], keep)
  }

  /** One connection of one save. */
  datatype Batch<V> = Batch(id: PrId, list: Listed<V>, complete: bool)

  function Put<V>(t: map<ChildId, V>, b: Batch<V>, keep: bool): map<ChildId, V> {
    Insert(if b.complete then DeleteOwned(t, b.id) else t, b.id, b.list, keep)
  }

  function Id(org: string, pr: Pr): PrId { PrId(org, pr.provider, pr.repo, pr.number) }

  function ReviewBatch(org: string, pr: Pr): Batch<Review> {
    Batch(Id(org, pr), pr.reviews, Reviews !in pr.head.truncated)
  }
  function ThreadBatch(org: string, pr: Pr): Batch<Thread> {
    Batch(Id(org, pr), pr.threads, Threads !in pr.head.truncated)
  }
  function CommitBatch(org: string, pr: Pr): Batch<int> {
    Batch(Id(org, pr), pr.commits, Commits !in pr.head.truncated)
  }
  function LabelBatch(org: string, pr: Pr): Batch<()> {
    Batch(Id(org, pr), seq(|pr.labels|, i requires 0 <= i < |pr.labels| => (pr.labels[i], ())), true)
  }

  function Save(t: Tables, org: string, pr: Pr): Tables {
    var id := Id(org, pr);
    Tables(t.prs[id := PrRow(if id in t.prs then t.prs[id].createdAt else pr.createdAt, pr.head)],
           Put(t.reviews, ReviewBatch(org, pr), false),
           Put(t.threads, ThreadBatch(org, pr), false),
           Put(t.commits, CommitBatch(org, pr), true),
           Put(t.labels, LabelBatch(org, pr), true))
  }

  lemma OneMoreSaved(t: Tables, org: string, prs: seq<Pr>, k: nat)
    requires k < |prs|
    ensures SaveAll(t, org, prs[..k + 1]) == Save(SaveAll(t, org, prs[..k]), org, prs[k])
  {
    assert prs[..k + 1][..k] == prs[..k];
  }

  predicate DistinctKeys<V>(list: Listed<V>) {
    forall i, j | 0 <= i < j < |list| :: list[i].0 != list[j].0
  }

  /** "on conflict do update" refuses to touch one row twice: such a PR's transaction is rolled back. */
  predicate Savable(pr: Pr) { DistinctKeys(pr.reviews) && DistinctKeys(pr.threads) }

  function KeySet<V>(list: Listed<V>): set<string> {
    if list == [] then {} else KeySet(list[1..]) + {list[0].0}
  }

  lemma {:induction false} KeySetCounts<V>(list: Listed<V>)
    ensures forall key :: key in KeySet(list) <==> HasKey(list, key)
    ensures |KeySet(list)| <= |list| && (|KeySet(list)| == |list| <==> DistinctKeys(list))
  {
    if list == [] {
    } else {
      var rest := list[1..];
      KeySetCounts(rest);
      assert forall i | 0 < i < |list| :: list[i] == rest[i - 1];
      assert HasKey(rest, list[0].0) <==> exists i :: 0 < i < |list| && list[i].0 == list[0].0;
      assert forall key :: HasKey(list, key) <==> key == list[0].0 || HasKey(rest, key);
      assert DistinctKeys(list) <==> DistinctKeys(rest) && !HasKey(rest, list[0].0);
    }
  }

  /** A PR is refused exactly when it lists two reviews or two threads under one key. */
  lemma SavableExactlyWhen(pr: Pr)
    ensures Savable(pr) <==> |KeySet(pr.reviews)| == |pr.reviews| && |KeySet(pr.threads)| == |pr.threads|
  {
    KeySetCounts(pr.reviews);
    KeySetCounts(pr.threads);
  }

  predicate AllSavable(prs: seq<Pr>) { forall pr <- prs :: Savable(pr) }

  lemma OneMoreSavable(prs: seq<Pr>, k: nat)
    requires k < |prs| && AllSavable(prs[..k]) && Savable(prs[k])
    ensures AllSavable(prs[..k + 1])
  {
    assert prs[..k + 1] == prs[..k] + [prs[k]];
  }

  function SaveAll(t: Tables, org: string, prs: seq<Pr>): Tables
    decreases |prs|
  {
    if prs == [] then t else Save(SaveAll(t, org, prs[..|prs| - 1]), org, prs[|prs| - 1])
  }

  // ----- What a batch does to one row -----

  predicate Lists<V>(b: Batch<V>, c: ChildId) {
    b.id == c.pr && exists i :: 0 <= i < |b.list| && b.list[i].0 == c.key
  }

  predicate ListsAs<V(==)>(b: Batch<V>, c: ChildId, v: V) {
    b.id == c.pr && (c.key, v) in b.list
  }

  /** The batch says that the row does not exist upstream. */
  predicate Erases<V>(b: Batch<V>, c: ChildId) { b.id == c.pr && b.complete && !Lists(b, c) }

  lemma {:induction false} InsertRows<V>(t: map<ChildId, V>, id: PrId, list: Listed<V>, keep: bool, c: ChildId)
    ensures var t' := Insert(t, id, list, keep);
      && (c in t' <==> c in t || Lists(Batch(id, list, false), c))
      && (c in t && (keep || !Lists(Batch(id, list, false), c)) ==> t'[c] == t[c])
      && (c in t' ==> (c in t && t'[c] == t[c]) || (c.pr == id && (c.key, t'[c]) in list))
      && (Lists(Batch(id, list, false), c) && !keep ==> (c.key, t'[c]) in list)
    decreases |list|
  {
    if list == [] {
    } else {
      var first := ChildId(id, list[0].0);
      InsertRows(if keep && first in t then t else t[first := list[0].1], id, list[1..], keep, c);
      assert list == [list[0]] + list[1..];
      assert Lists(Batch(id, list, false), c) <==> c == first || Lists(Batch(id, list[1..], false), c) by {
        if Lists(Batch(id, list[1..], false), c) {
          var i :| 0 <= i < |list[1..]| && list[1..][i].0 == c.key;
          assert list[i + 1].0 == c.key;
        }
        if c == first {
          assert list[0].0 == c.key;
        }
        if Lists(Batch(id, list, false), c) && c != first {
          var i :| 0 <= i < |list| && list[i].0 == c.key;
          assert list[1..][i - 1].0 == c.key;
        }
      }
    }
  }

  lemma PutRows<V>(t: map<ChildId, V>, b: Batch<V>, keep: bool, c: ChildId)
    ensures var t' := Put(t, b, keep);
      && (c in t' <==> Lists(b, c) || (c in t && !Erases(b, c)))
      && (c in t && !Lists(b, c) && !Erases(b, c) ==> t'[c] == t[c])
      && (Lists(b, c) && (!keep || c !in t || b.complete) ==> ListsAs(b, c, t'[c]))
      && (Lists(b, c) && keep && c in t && !b.complete ==> t'[c] == t[c])
  {
    InsertRows(if b.complete then DeleteOwned(t, b.id) else t, b.id, b.list, keep, c);
    assert Lists(b, c) <==> Lists(Batch(b.id, b.list, false), c);
  }

  // ----- One save -----

  predicate HasKey<V>(list: Listed<V>, key: string) { exists i :: 0 <= i < |list| && list[i].0 == key }

  /** A save of that PR whose list for this connection has the row. */
  predicate ListedIn(conn: Connection, org: string, pr: Pr, c: ChildId) {
    && c.pr == PrId(org, pr.provider, pr.repo, pr.number)
    && match conn
       case Reviews => HasKey(pr.reviews, c.key)
       case Threads => HasKey(pr.threads, c.key)
       case Commits => HasKey(pr.commits, c.key)
  }

  predicate Stored(t: Tables, conn: Connection, c: ChildId) {
    match conn
    case Reviews => c in t.reviews
    case Threads => c in t.threads
    case Commits => c in t.commits
  }

  /** A save of that PR whose list is whole and does not have the row: it is gone upstream. */
  predicate OmittedFrom(conn: Connection, org: string, pr: Pr, c: ChildId) {
    && c.pr == PrId(org, pr.provider, pr.repo, pr.number)
    && conn !in pr.head.truncated && !ListedIn(conn, org, pr, c)
  }

  /**
   * A connection that arrived truncated loses no row of that PR and gains those listed; one that arrived whole
   * has exactly the listed rows afterwards. Rows of other PRs stay.
   */
  lemma SaveKeepsExactly(t: Tables, org: string, pr: Pr, conn: Connection, c: ChildId)
    ensures var t' := Save(t, org, pr);
      if c.pr != PrId(org, pr.provider, pr.repo, pr.number) then Stored(t', conn, c) <==> Stored(t, conn, c)
      else if conn in pr.head.truncated
      then Stored(t', conn, c) <==> Stored(t, conn, c) || ListedIn(conn, org, pr, c)
      else Stored(t', conn, c) <==> ListedIn(conn, org, pr, c)
  {
    match conn
    case Reviews => PutRows(t.reviews, ReviewBatch(org, pr), false, c);
    case Threads => PutRows(t.threads, ThreadBatch(org, pr), false, c);
    case Commits => PutRows(t.commits, CommitBatch(org, pr), true, c);
  }

  /** The value of one row after a list of its PR: the listed one, or what there was. */
  predicate TakenOver<V(==)>(t: map<ChildId, V>, t': map<ChildId, V>, list: Listed<V>, listed: bool, c: ChildId) {
    c in t' ==> if listed then (c.key, t'[c]) in list else c in t && t'[c] == t[c]
  }

  /** A listed review or thread overwrites the stored one; a commit only if there is none, or the list is whole. */
  lemma SaveOverwrites(t: Tables, org: string, pr: Pr, c: ChildId)
    ensures var t' := Save(t, org, pr);
      && TakenOver(t.reviews, t'.reviews, pr.reviews, ListedIn(Reviews, org, pr, c), c)
      && TakenOver(t.threads, t'.threads, pr.threads, ListedIn(Threads, org, pr, c), c)
      && TakenOver(t.commits, t'.commits, pr.commits,
                   ListedIn(Commits, org, pr, c) && (Commits !in pr.head.truncated || c !in t.commits), c)
  {
    PutRows(t.reviews, ReviewBatch(org, pr), false, c);
    PutRows(t.threads, ThreadBatch(org, pr), false, c);
    PutRows(t.commits, CommitBatch(org, pr), true, c);
  }

  /** Labels are always whole; the PR's own row is the new one but for its creation time; other PRs keep theirs. */
  lemma SaveReplacesLabels(t: Tables, org: string, pr: Pr, c: ChildId, id: PrId)
    ensures var t', own := Save(t, org, pr), PrId(org, pr.provider, pr.repo, pr.number);
      && (c in t'.labels <==> if c.pr == own then c.key in pr.labels else c in t.labels)
      && own in t'.prs && t'.prs[own].head == pr.head
      && t'.prs[own].createdAt == (if own in t.prs then t.prs[own].createdAt else pr.createdAt)
      && (id != own ==> (id in t'.prs <==> id in t.prs) && (id in t.prs ==> t'.prs[id] == t.prs[id]))
  {
    var b := LabelBatch(org, pr);
    PutRows(t.labels, b, true, c);
    if c.pr == b.id && c.key in pr.labels {
      var i :| 0 <= i < |pr.labels| && pr.labels[i] == c.key;
      assert b.list[i].0 == c.key;
    }
  }

  // ----- Any sequence of saves -----

  const NO_ROWS := Tables(map[], map[], map[], map[], map[])

  /** The `i`-th save lists the row, and no save since has found it gone. */
  ghost predicate Survives(conn: Connection, org: string, prs: seq<Pr>, i: nat, c: ChildId) {
    && i < |prs| && ListedIn(conn, org, prs[i], c)
    && forall j | i < j < |prs| :: !OmittedFrom(conn, org, prs[j], c)
  }

  lemma SurvivesOneMore(conn: Connection, org: string, prs: seq<Pr>, i: nat, c: ChildId)
    requires i < |prs| - 1
    ensures var n := |prs| - 1;
      Survives(conn, org, prs, i, c) <==> Survives(conn, org, prs[..n], i, c) && !OmittedFrom(conn, org, prs[n], c)
  {
    assert forall j | i <= j < |prs| - 1 :: prs[j] == prs[..|prs| - 1][j];
  }

  /**
   * After any saves, the last whole list overlaid by every later truncated one: a row is stored exactly when
   * some save lists it and no later save of its PR, with that connection whole, omits it.
   */
  lemma {:induction false} StoredExactlyWhen(org: string, prs: seq<Pr>, conn: Connection, c: ChildId)
    ensures Stored(SaveAll(NO_ROWS, org, prs), conn, c) <==> exists i: nat :: Survives(conn, org, prs, i, c)
    decreases |prs|
  {
    if prs == [] {
    } else {
      var n := |prs| - 1;
      StoredExactlyWhen(org, prs[..n], conn, c);
      SaveKeepsExactly(SaveAll(NO_ROWS, org, prs[..n]), org, prs[n], conn, c);
      if ListedIn(conn, org, prs[n], c) {
        assert Survives(conn, org, prs, n, c);
      }
      forall i: nat | i < n
        ensures Survives(conn, org, prs, i, c) <==>
          Survives(conn, org, prs[..n], i, c) && !OmittedFrom(conn, org, prs[n], c)
      {
        SurvivesOneMore(conn, org, prs, i, c);
      }
    }
  }

  /** The `i`-th save is the last to list the row. */
  ghost predicate LastList(conn: Connection, org: string, prs: seq<Pr>, i: nat, c: ChildId) {
    && i < |prs| && ListedIn(conn, org, prs[i], c)
    && forall j | i < j < |prs| :: !ListedIn(conn, org, prs[j], c)
  }

  lemma LastListOneMore(conn: Connection, org: string, prs: seq<Pr>, i: nat, c: ChildId)
    requires prs != [] && LastList(conn, org, prs[..|prs| - 1], i, c) && !ListedIn(conn, org, prs[|prs| - 1], c)
    ensures LastList(conn, org, prs, i, c) && prs[i] == prs[..|prs| - 1][i]
  {
    assert forall j | i <= j < |prs| - 1 :: prs[j] == prs[..|prs| - 1][j];
  }

  /** A stored review is what the last list that has it said. */
  lemma {:induction false} LastListDecidesReviews(org: string, prs: seq<Pr>, c: ChildId)
    requires c in SaveAll(NO_ROWS, org, prs).reviews
    ensures exists i: nat ::
      LastList(Reviews, org, prs, i, c) && (c.key, SaveAll(NO_ROWS, org, prs).reviews[c]) in prs[i].reviews
    decreases |prs|
  {
    var n := |prs| - 1;
    var before := SaveAll(NO_ROWS, org, prs[..n]);
    SaveOverwrites(before, org, prs[n], c);
    if ListedIn(Reviews, org, prs[n], c) {
      assert LastList(Reviews, org, prs, n, c);
    } else {
      LastListDecidesReviews(org, prs[..n], c);
      var i: nat :| LastList(Reviews, org, prs[..n], i, c) && (c.key, before.reviews[c]) in prs[..n][i].reviews;
      LastListOneMore(Reviews, org, prs, i, c);
    }
  }

  /** And so is a stored thread. */
  lemma {:induction false} LastListDecidesThreads(org: string, prs: seq<Pr>, c: ChildId)
    requires c in SaveAll(NO_ROWS, org, prs).threads
    ensures exists i: nat ::
      LastList(Threads, org, prs, i, c) && (c.key, SaveAll(NO_ROWS, org, prs).threads[c]) in prs[i].threads
    decreases |prs|
  {
    var n := |prs| - 1;
    var before := SaveAll(NO_ROWS, org, prs[..n]);
    SaveOverwrites(before, org, prs[n], c);
    if ListedIn(Threads, org, prs[n], c) {
      assert LastList(Threads, org, prs, n, c);
    } else {
      LastListDecidesThreads(org, prs[..n], c);
      var i: nat :| LastList(Threads, org, prs[..n], i, c) && (c.key, before.threads[c]) in prs[..n][i].threads;
      LastListOneMore(Threads, org, prs, i, c);
    }
  }

  /** The commit was listed by the `i`-th save, and since then every list of its PR was truncated. */
  ghost predicate KeptSince(org: string, prs: seq<Pr>, i: nat, c: ChildId) {
    && i < |prs| && ListedIn(Commits, org, prs[i], c)
    && forall j | i < j < |prs| && c.pr == PrId(org, prs[j].provider, prs[j].repo, prs[j].number) ::
         Commits in prs[j].head.truncated
  }

  lemma KeptOneMore(org: string, prs: seq<Pr>, i: nat, c: ChildId)
    requires prs != [] && KeptSince(org, prs[..|prs| - 1], i, c)
    requires var last := prs[|prs| - 1];
      c.pr == PrId(org, last.provider, last.repo, last.number) ==> Commits in last.head.truncated
    ensures KeptSince(org, prs, i, c) && prs[i] == prs[..|prs| - 1][i] && prs[..|prs| - 1][..i] == prs[..i]
  {
    assert forall j | i <= j < |prs| - 1 :: prs[j] == prs[..|prs| - 1][j];
  }

  /** The commit was new with that save, or its list was whole. */
  predicate BeganWith(org: string, prs: seq<Pr>, i: nat, c: ChildId)
    requires i < |prs|
  {
    Commits !in prs[i].head.truncated || c !in SaveAll(NO_ROWS, org, prs[..i]).commits
  }

  /** A stored commit is what it was when the present rows of its PR began: truncated lists do not overwrite it. */
  lemma {:induction false} CommitsAreNotOverwritten(org: string, prs: seq<Pr>, c: ChildId)
    requires c in SaveAll(NO_ROWS, org, prs).commits
    ensures exists i: nat ::
      && KeptSince(org, prs, i, c) && BeganWith(org, prs, i, c)
      && (c.key, SaveAll(NO_ROWS, org, prs).commits[c]) in prs[i].commits
    decreases |prs|
  {
    var n := |prs| - 1;
    var before := SaveAll(NO_ROWS, org, prs[..n]);
    SaveOverwrites(before, org, prs[n], c);
    SaveKeepsExactly(before, org, prs[n], Commits, c);
    if ListedIn(Commits, org, prs[n], c) && (Commits !in prs[n].head.truncated || c !in before.commits) {
      assert KeptSince(org, prs, n, c) && BeganWith(org, prs, n, c);
    } else {
      CommitsAreNotOverwritten(org, prs[..n], c);
      var i: nat :| KeptSince(org, prs[..n], i, c) && BeganWith(org, prs[..n], i, c)
                    && (c.key, before.commits[c]) in prs[..n][i].commits;
      KeptOneMore(org, prs, i, c);
      assert BeganWith(org, prs, i, c);
    }
  }

  // ----- Organizations -----

  predicate SameForOrg<K, V(==)>(t: map<K, V>, t': map<K, V>, org: string, of: K -> string) {
    && (forall k | k in t && of(k) == org :: k in t' && t'[k] == t[k])
    && (forall k | k in t' && of(k) == org :: k in t)
  }

  const PR_ORG: PrId -> string := (id: PrId) => id.org
  const CHILD_ORG: ChildId -> string := (c: ChildId) => c.pr.org

  /** Saves for one organization leave every row of another as it was. */
  lemma {:induction false} SavesStayInTheirOrg(t: Tables, org: string, prs: seq<Pr>, other: string)
    requires other != org
    ensures var t' := SaveAll(t, org, prs);
      && SameForOrg(t.prs, t'.prs, other, PR_ORG)
      && SameForOrg(t.reviews, t'.reviews, other, CHILD_ORG) && SameForOrg(t.threads, t'.threads, other, CHILD_ORG)
      && SameForOrg(t.commits, t'.commits, other, CHILD_ORG) && SameForOrg(t.labels, t'.labels, other, CHILD_ORG)
    decreases |prs|
  {
    if prs == [] {
    } else {
      var n := |prs| - 1;
      SavesStayInTheirOrg(t, org, prs[..n], other);
      var mid := SaveAll(t, org, prs[..n]);
      PutStaysInItsOrg(mid.reviews, ReviewBatch(org, prs[n]), false, other);
      PutStaysInItsOrg(mid.threads, ThreadBatch(org, prs[n]), false, other);
      PutStaysInItsOrg(mid.commits, CommitBatch(org, prs[n]), true, other);
      PutStaysInItsOrg(mid.labels, LabelBatch(org, prs[n]), true, other);
    }
  }

  lemma PutStaysInItsOrg<V>(t: map<ChildId, V>, b: Batch<V>, keep: bool, other: string)
    requires b.id.org != other
    ensures SameForOrg(t, Put(t, b, keep), other, CHILD_ORG)
  {
    forall c: ChildId | c.pr.org == other
      ensures c in t <==> c in Put(t, b, keep)
      ensures c in t ==> Put(t, b, keep)[c] == t[c]
    {
      PutRows(t, b, keep, c);
    }
  }

  // ----- Reading back -----

  /** A loaded PR, with each child list as the keyed rows it is up to order. */
  datatype Loaded = Loaded(createdAt: int, head: Head, reviews: map<string, Review>, threads: map<string, Thread>,
                           commits: map<string, int>, labels: set<string>)

  function RowsOf<V>(t: map<ChildId, V>, id: PrId): map<string, V> {
    map c | c in t && c.pr == id :: c.key := t[c]
  }

  function Load(t: Tables, id: PrId): Loaded
    requires id in t.prs
  {
    Loaded(t.prs[id].createdAt, t.prs[id].head, RowsOf(t.reviews, id), RowsOf(t.threads, id), RowsOf(t.commits, id),
           RowsOf(t.labels, id).Keys)
  }

  function AsMap<V>(list: Listed<V>): map<string, V>
    decreases |list|
  {
    if list == [] then map[] else AsMap(list[1..])[list[0].0 := list[0].1]
  }

  /** The rows of a complete list are the list; with distinct keys, all of it. */
  lemma CompleteListIsStored<V>(t: map<ChildId, V>, b: Batch<V>, keep: bool)
    requires b.complete && DistinctKeys(b.list)
    ensures RowsOf(Put(t, b, keep), b.id) == AsMap(b.list)
  {
    var t' := Put(t, b, keep);
    forall key: string
      ensures key in RowsOf(t', b.id) <==> key in AsMap(b.list)
      ensures key in AsMap(b.list) ==> RowsOf(t', b.id)[key] == AsMap(b.list)[key]
    {
      var c := ChildId(b.id, key);
      PutRows(t, b, keep, c);
      AsMapLooksUp(b.list, key);
      assert key in RowsOf(t', b.id) <==> c in t';
      assert Lists(b, c) <==> exists i :: 0 <= i < |b.list| && b.list[i].0 == key;
    }
  }

  lemma {:induction false} AsMapLooksUp<V>(list: Listed<V>, key: string)
    requires DistinctKeys(list)
    ensures key in AsMap(list) <==> exists i :: 0 <= i < |list| && list[i].0 == key
    ensures forall i | 0 <= i < |list| && list[i].0 == key :: AsMap(list)[key] == list[i].1
    decreases |list|
  {
    if list == [] {
    } else {
      AsMapLooksUp(list[1..], key);
      assert forall i | 0 < i < |list| :: list[i] == list[1..][i - 1];
    }
  }

  lemma LabelsAreStored(t: map<ChildId, ()>, org: string, pr: Pr)
    ensures RowsOf(Put(t, LabelBatch(org, pr), true), Id(org, pr)).Keys == set l | l in pr.labels
  {
    var b := LabelBatch(org, pr);
    forall key: string
      ensures key in RowsOf(Put(t, b, true), b.id) <==> key in pr.labels
    {
      var c := ChildId(b.id, key);
      PutRows(t, b, true, c);
      assert key in RowsOf(Put(t, b, true), b.id) <==> c in Put(t, b, true);
      if key in pr.labels {
        var i :| 0 <= i < |pr.labels| && pr.labels[i] == key;
        assert b.list[i].0 == key;
      }
    }
  }

  /**
   * Round trip. Saving a PR whose lists are complete and loading it returns that PR, list order aside,
   * except that the creation time is the one it was first stored with.
   */
  lemma LoadAfterSave(t: Tables, org: string, pr: Pr)
    requires pr.head.truncated == {} && Savable(pr) && DistinctKeys(pr.commits)
    ensures var id := Id(org, pr);
      var t' := Save(t, org, pr);
      id in t'.prs && Load(t', id) == Loaded(
        if id in t.prs then t.prs[id].createdAt else pr.createdAt, pr.head,
        AsMap(pr.reviews), AsMap(pr.threads), AsMap(pr.commits), set l | l in pr.labels)
  {
    CompleteListIsStored(t.reviews, ReviewBatch(org, pr), false);
    CompleteListIsStored(t.threads, ThreadBatch(org, pr), false);
    CompleteListIsStored(t.commits, CommitBatch(org, pr), true);
    LabelsAreStored(t.labels, org, pr);
  }

  // ----- The store -----

  class Store {
    const org: string
    var prs: map<PrId, PrRow>
    var reviews: map<ChildId, Review>
    var threads: map<ChildId, Thread>
    var commits: map<ChildId, int>
    var labels: map<ChildId, ()>

    constructor (org: string)
      ensures this.org == org && State() == NO_ROWS
    {
      this.org := org;
      prs, reviews, threads, commits, labels := map[], map[], map[], map[], map[];
    }

    ghost function State(): Tables
      reads this
    {
      Tables(prs, reviews, threads, commits, labels)
    }

    /** Per connection: delete only when the incoming list is complete, then upsert. */
    method WriteChildren(pr: Pr)
      modifies this`reviews, this`threads, this`commits, this`labels
      ensures State() == Save(old(State()), org, pr).(prs := old(prs))
    {
      var id := Id(org, pr);
      if Reviews !in pr.head.truncated {
        reviews := DeleteOwned(reviews, id);
      }
      reviews := Insert(reviews, id, pr.reviews, false);
      if Threads !in pr.head.truncated {
        threads := DeleteOwned(threads, id);
      }
      threads := Insert(threads, id, pr.threads, false);
      if Commits !in pr.head.truncated {
        commits := DeleteOwned(commits, id);
      }
      commits := Insert(commits, id, pr.commits, true);
      labels := Insert(DeleteOwned(labels, id), id, LabelBatch(org, pr).list, true);
    }

    /** One transaction a PR; the first that fails is rolled back and ends the save. */
    method SavePullRequests(incoming: seq<Pr>) returns (saved: nat)
      modifies this
      ensures saved <= |incoming| && State() == SaveAll(old(State()), org, incoming[..saved])
      ensures AllSavable(incoming[..saved])
      ensures saved < |incoming| ==> !Savable(incoming[saved])
    {
      saved := 0;
      ghost var was := State();
      while saved < |incoming|
        invariant saved <= |incoming| && State() == SaveAll(was, org, incoming[..saved])
        invariant AllSavable(incoming[..saved])
      {
        if !Savable(incoming[saved]) {
          return;
        }
        OneMoreSavable(incoming, saved);
        SaveNext(incoming, saved, was);
        saved := saved + 1;
      }
    }

    method SaveNext(incoming: seq<Pr>, k: nat, ghost was: Tables)
      requires k < |incoming| && State() == SaveAll(was, org, incoming[..k])
      modifies this
      ensures State() == SaveAll(was, org, incoming[..k + 1])
    {
      OneMoreSaved(was, org, incoming, k);
      SaveOne(incoming[k]);
    }

    /** The upsert of the PR's row, and its children. */
    method SaveOne(pr: Pr)
      modifies this
      ensures State() == Save(old(State()), org, pr)
    {
      var id := Id(org, pr);
      prs := prs[id := PrRow(if id in prs then prs[id].createdAt else pr.createdAt, pr.head)];
      WriteChildren(pr);
    }
  }
}
