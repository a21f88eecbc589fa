/** server/src/db/user-repo-store.ts: the rows the clone queue runs on, for one organization. */
module UserRepos {
  import opened Common
  import opened Keys

  datatype Repo = Repo(owner: string, name: string)
  datatype Key = Key(user: string, repo: Repo)
  datatype Status = Queued | Cloning | Ready | Failed

  datatype Row = Row(
    status: Status, error: Option<string>, attempts: nat, selectedAt: int, deselectedAt: Option<int>,
    startedAt: Option<int>, readyAt: Option<int>)

  type Rows = map<Key, Row>

  // Why the database refuses a selection: the upsert would touch a row twice, a check fails, or two
  // repositories would share a directory.
  datatype Refusal = Repeated | BadName | SharedDirectory
  datatype Selection = Saved | Refused(why: Refusal)

  function FullName(r: Repo): string { r.owner + "/" + r.name }

  predicate PartOk(s: string) { s != "" && '/' !in s && '\\' !in s && s[0] != '-' && s[0] != '.' }

  predicate NameOk(r: Repo) { PartOk(r.owner) && PartOk(r.name) }

  predicate Twice(repos: seq<Repo>) { exists i, j :: 0 <= i < j < |repos| && repos[i] == repos[j] }

  /** user_repo_dir_uk: one directory per repository name. */
  predicate OneDirectoryEach(rows: Rows) {
    forall a, b | a in rows && b in rows && a.user == b.user && a.repo.name == b.repo.name :: a == b
  }

  predicate RowsOk(rows: Rows) { OneDirectoryEach(rows) && forall k | k in rows :: NameOk(k.repo) }

  // ----- select -----

  predicate Clashes(rows: Rows, user: string, repos: seq<Repo>) {
    || (exists k, r :: k in rows && r in repos && k.user == user && k.repo.name == r.name && k.repo != r)
    || (exists r, r' :: r in repos && r' in repos && r.name == r'.name && r != r')
  }

  function Judge(rows: Rows, user: string, repos: seq<Repo>): Selection {
    if exists r :: r in repos && !NameOk(r) then Refused(BadName)
    else if Twice(repos) then Refused(Repeated)
    else if Clashes(rows, user, repos) then Refused(SharedDirectory)
    else Saved
  }

  function Upserted(rows: Rows, key: Key, now: int): Row {
    if key !in rows then Row(Queued, None, 0, now, None, None, None)
    else if rows[key].status.Ready? then rows[key].(deselectedAt := None, selectedAt := now)
    else rows[key].(deselectedAt := None, selectedAt := now, status := Queued, error := None)
  }

  function Inserted(rows: Rows, user: string, repos: seq<Repo>, now: int): Rows {
    rows + map r | r in repos :: Key(user, r) := Upserted(rows, Key(user, r), now)
  }

  /** Everything of that user's whose "owner/name" is not in the list. */
  function Deselected(rows: Rows, user: string, names: seq<string>, now: int): Rows {
    map k | k in rows ::
      if k.user == user && rows[k].deselectedAt.None? && FullName(k.repo) !in names
      then rows[k].(deselectedAt := Some(now)) else rows[k]
  }

  function FullNames(repos: seq<Repo>): (names: seq<string>)
    ensures |names| == |repos| && forall i | 0 <= i < |repos| :: names[i] == FullName(repos[i])
  {
    seq(|repos|, i requires 0 <= i < |repos| => FullName(repos[i]))
  }

  /** One transaction: all of it, or on a refusal none. */
  function Selected(rows: Rows, user: string, repos: seq<Repo>, now: int): Rows {
    if Judge(rows, user, repos).Saved? then Deselected(Inserted(rows, user, repos, now), user, FullNames(repos), now)
    else rows
  }

  lemma FullNameInjective(a: Repo, b: Repo)
    requires NameOk(a) && NameOk(b) && FullName(a) == FullName(b)
    ensures a == b
  {
    FirstSeparator(a.owner, '/', a.name, b.owner, b.name);
  }

  lemma Listed(repos: seq<Repo>, r: Repo)
    requires NameOk(r) && forall x | x in repos :: NameOk(x)
    ensures FullName(r) in FullNames(repos) <==> r in repos
  {
    if FullName(r) in FullNames(repos) {
      var i :| 0 <= i < |repos| && FullNames(repos)[i] == FullName(r);
      FullNameInjective(r, repos[i]);
    }
    if r in repos {
      var i :| 0 <= i < |repos| && repos[i] == r;
      assert FullNames(repos)[i] == FullName(r);
    }
  }

  /** Exactly what a saved selection does, row by row. */
  lemma SelectedRow(rows: Rows, user: string, repos: seq<Repo>, now: int, k: Key)
    requires RowsOk(rows) && Judge(rows, user, repos).Saved?
    ensures var after := Selected(rows, user, repos, now);
      && (k in after <==> k in rows || (k.user == user && k.repo in repos))
      && (k.user == user && k.repo in repos ==> after[k] == Upserted(rows, k, now))
      && (k.user == user && k.repo in repos ==>
            && after[k].deselectedAt.None? && after[k].selectedAt == now
            && (if k in rows && rows[k].status.Ready? then after[k].status.Ready? && after[k].error == rows[k].error
                else after[k].status.Queued? && after[k].error.None?)
            && (k in rows ==> after[k].attempts == rows[k].attempts && after[k].readyAt == rows[k].readyAt))
      && (k in rows && k.user == user && k.repo !in repos ==>
            after[k] == if rows[k].deselectedAt.None? then rows[k].(deselectedAt := Some(now)) else rows[k])
      && (k in rows && k.user != user ==> after[k] == rows[k])
  {
    var added := map r | r in repos :: Key(user, r) := Upserted(rows, Key(user, r), now);
    assert k in added <==> k.user == user && k.repo in repos by {
      if k.user == user {
        assert k == Key(user, k.repo);
      }
    }
    if NameOk(k.repo) {
      Listed(repos, k.repo);
    }
  }

  function Chosen(rows: Rows, user: string): set<Repo> {
    set k | k in rows && k.user == user && rows[k].deselectedAt.None? :: k.repo
  }

  /** A saved selection makes the chosen set the list, whatever it was; no row is ever deleted. */
  lemma SelectReplaces(rows: Rows, user: string, repos: seq<Repo>, now: int)
    requires RowsOk(rows) && Judge(rows, user, repos).Saved?
    ensures Chosen(Selected(rows, user, repos, now), user) == (set r | r in repos)
    ensures rows.Keys <= Selected(rows, user, repos, now).Keys
  {
    var after := Selected(rows, user, repos, now);
    forall r
      ensures r in Chosen(after, user) <==> r in repos
    {
      SelectedRow(rows, user, repos, now, Key(user, r));
      if r in Chosen(after, user) {
        var k :| k in after && k.user == user && after[k].deselectedAt.None? && k.repo == r;
        assert k == Key(user, r);
      }
    }
    forall k | k in rows
      ensures k in after
    {
      SelectedRow(rows, user, repos, now, k);
    }
  }

  /** The constraints hold after any selection, and a saved one is one that can keep them. */
  lemma SelectKeepsRowsOk(rows: Rows, user: string, repos: seq<Repo>, now: int)
    requires RowsOk(rows)
    ensures RowsOk(Selected(rows, user, repos, now))
  {
    if Judge(rows, user, repos).Saved? {
      var after := Selected(rows, user, repos, now);
      forall k | k in after
        ensures NameOk(k.repo) && (k in rows || (k.user == user && k.repo in repos))
      {
        SelectedRow(rows, user, repos, now, k);
      }
      forall a, b | a in after && b in after && a.user == b.user && a.repo.name == b.repo.name
        ensures a == b
      {
        assert a.repo == b.repo;
      }
    }
  }

  /** A selection is refused exactly when it repeats an entry or what it asks for would break a constraint. */
  lemma SavedExactlyWhenItCanBe(rows: Rows, user: string, repos: seq<Repo>, now: int)
    requires RowsOk(rows)
    ensures Judge(rows, user, repos).Saved? <==>
      (forall i, j | 0 <= i < j < |repos| :: repos[i] != repos[j]) && RowsOk(Inserted(rows, user, repos, now))
    ensures Judge(rows, user, repos).Saved? ==> forall r | r in repos ::
      forall part | part in {r.owner, r.name} ::
        part != "" && '/' !in part && '\\' !in part && part[0] != '-' && part[0] != '.'
  {
    var after := Inserted(rows, user, repos, now);
    forall r | r in repos
      ensures Key(user, r) in after
    {
    }
    if Judge(rows, user, repos).Saved? {
      InsertedKeepsRowsOk(rows, user, repos, now);
    } else if RowsOk(after) {
      assert forall r | r in repos :: NameOk(Key(user, r).repo);
      if Clashes(rows, user, repos) {
        InsertedClashes(rows, user, repos, now);
      }
    }
  }

  lemma InsertedKeepsRowsOk(rows: Rows, user: string, repos: seq<Repo>, now: int)
    requires RowsOk(rows) && Judge(rows, user, repos).Saved?
    ensures RowsOk(Inserted(rows, user, repos, now))
  {
    var after := Inserted(rows, user, repos, now);
    forall a, b | a in after && b in after && a.user == b.user && a.repo.name == b.repo.name
      ensures a == b
    {
      assert a.repo == b.repo;
    }
  }

  lemma InsertedClashes(rows: Rows, user: string, repos: seq<Repo>, now: int)
    requires Clashes(rows, user, repos)
    ensures !OneDirectoryEach(Inserted(rows, user, repos, now))
  {
    var after := Inserted(rows, user, repos, now);
    if k, r :| k in rows && r in repos && k.user == user && k.repo.name == r.name && k.repo != r {
      assert k in after && Key(user, r) in after;
    } else {
      var r, r' :| r in repos && r' in repos && r.name == r'.name && r != r';
      assert Key(user, r) in after && Key(user, r') in after;
    }
  }

  function StatusAfter(rows: Rows, user: string, repos: seq<Repo>, k: Key): Status
    requires k in rows
  {
    if k.user == user && k.repo in repos && !rows[k].status.Ready? then Queued else rows[k].status
  }

  /**
   * "Replaying it is a no-op": a selection leaves every status it found as it was exactly when no
   * listed row is cloning or failed. A listed row still cloning is queued a second time.
   */
  lemma SelectKeepsStatusesExactlyWhen(rows: Rows, user: string, repos: seq<Repo>, now: int)
    requires RowsOk(rows) && Judge(rows, user, repos).Saved?
    ensures (forall k | k in rows ::
      k in Selected(rows, user, repos, now) && Selected(rows, user, repos, now)[k].status == rows[k].status)
      <==> forall r | r in repos && Key(user, r) in rows :: !(rows[Key(user, r)].status in {Cloning, Failed})
  {
    var after := Selected(rows, user, repos, now);
    forall k
      ensures k in rows ==> k in after && after[k].status == StatusAfter(rows, user, repos, k)
    {
      SelectedRow(rows, user, repos, now, k);
    }
    forall r | r in repos && Key(user, r) in rows && rows[Key(user, r)].status in {Cloning, Failed}
      ensures after[Key(user, r)].status != rows[Key(user, r)].status
    {
    }
    forall k | k in rows && after[k].status != rows[k].status
      ensures k.user == user && k.repo in repos && rows[Key(user, k.repo)].status in {Cloning, Failed}
    {
      assert k == Key(user, k.repo);
    }
  }

  // ----- The queue's own statements -----

  predicate Offered(rows: Rows, locked: set<Key>, k: Key) {
    k in rows && k !in locked && rows[k].status.Queued? && rows[k].deselectedAt.None?
  }

  predicate NoLater(rows: Rows, a: Key, b: Key) { a in rows && b in rows && rows[a].selectedAt <= rows[b].selectedAt }

  /** order by selected_at limit n for update skip locked: the oldest, in order, and no more than asked. */
  ghost predicate IsBatch(rows: Rows, locked: set<Key>, limit: int, batch: seq<Key>) {
    && (forall k | k in batch :: Offered(rows, locked, k))
    && (forall i, j | 0 <= i < j < |batch| :: batch[i] != batch[j] && NoLater(rows, batch[i], batch[j]))
    && (forall b, k | b in batch && Offered(rows, locked, k) && k !in batch :: NoLater(rows, b, k))
    && (forall k | Offered(rows, locked, k) && k !in batch :: |batch| >= limit)
    && |batch| <= Max(limit, 0)
  }

  function Claimed(rows: Rows, batch: seq<Key>, now: int): (after: Rows)
    ensures after.Keys == rows.Keys
  {
    map k | k in rows :: if k in batch
      then rows[k].(status := Cloning, startedAt := Some(now), attempts := rows[k].attempts + 1, error := None)
      else rows[k]
  }

  function MarkedReady(rows: Rows, key: Key, now: int): (after: Rows)
    ensures after.Keys == rows.Keys
  {
    if key in rows then rows[key := rows[key].(status := Ready, readyAt := Some(now), error := None)] else rows
  }

  function MarkedFailed(rows: Rows, key: Key, error: string): (after: Rows)
    ensures after.Keys == rows.Keys
  {
    if key in rows
    then rows[key := rows[key].(status := Failed, error := Some(if |error| > 2000 then error[..2000] else error))]
    else rows
  }

  function Requeued(rows: Rows): (after: Rows)
    ensures after.Keys == rows.Keys
  {
    map k | k in rows :: if rows[k].status.Cloning? then rows[k].(status := Queued, error := None) else rows[k]
  }

  /** What one claim takes is out of reach of the next: no row is handed out twice unless requeued between. */
  lemma ClaimsDoNotOverlap(rows: Rows, locked: set<Key>, limit: int, first: seq<Key>, now: int, locked': set<Key>,
        k: Key)
    requires IsBatch(rows, locked, limit, first) && k in first
    ensures !Offered(Claimed(rows, first, now), locked', k)
    ensures rows[k].status.Queued? && Claimed(rows, first, now)[k].status.Cloning?
  {
  }

  /** A claimed row was queued, selected and free, and is cloning now; one left behind is no older than those taken. */
  lemma ClaimTakesTheOldest(rows: Rows, locked: set<Key>, limit: int, batch: seq<Key>, now: int, k: Key)
    requires IsBatch(rows, locked, limit, batch) && k in rows
    ensures var after := Claimed(rows, batch, now);
      && k in after && |batch| <= Max(limit, 0)
      && (forall i, j | 0 <= i < j < |batch| ::
           && batch[i] != batch[j] && batch[i] in rows && batch[j] in rows
           && rows[batch[i]].selectedAt <= rows[batch[j]].selectedAt)
      && (k in batch ==>
           && k !in locked && rows[k].status.Queued? && rows[k].deselectedAt.None?
           && after[k] == rows[k].(
             status := Cloning, startedAt := Some(now), attempts := rows[k].attempts + 1, error := None))
      && (k !in batch ==> after[k] == rows[k])
      && (k !in batch && k !in locked && rows[k].status.Queued? && rows[k].deselectedAt.None? ==>
           |batch| == Max(limit, 0) && forall b | b in batch :: b in rows && rows[b].selectedAt <= rows[k].selectedAt)
  {
    assert Offered(rows, locked, k) <==>
      k !in locked && rows[k].status.Queued? && rows[k].deselectedAt.None?;
    forall i, j | 0 <= i < j < |batch|
      ensures batch[i] != batch[j] && batch[i] in rows && batch[j] in rows
      ensures rows[batch[i]].selectedAt <= rows[batch[j]].selectedAt
    {
      assert NoLater(rows, batch[i], batch[j]);
    }
  }

  class UserRepoStore {
    var rows: Rows

    ghost predicate Valid()
      reads this
    {
      RowsOk(rows)
    }

    constructor ()
      ensures Valid() && rows == map[]
    {
      rows := map[];
    }

    method Select(user: string, repos: seq<Repo>, now: int) returns (done: Selection)
      requires Valid()
      modifies this
      ensures Valid() && done == Judge(old(rows), user, repos) && rows == Selected(old(rows), user, repos, now)
    {
      done := Judge(rows, user, repos);
      SelectKeepsRowsOk(rows, user, repos, now);
      if done.Saved? {
        rows := Inserted(rows, user, repos, now);
        rows := Deselected(rows, user, FullNames(repos), now);
      }
    }

    method Oldest(candidates: set<Key>) returns (oldest: Key)
      requires candidates != {} && candidates <= rows.Keys
      ensures oldest in candidates && forall k | k in candidates :: NoLater(rows, oldest, k)
    {
      oldest :| oldest in candidates;
      var rest := candidates - {oldest};
      while rest != {}
        invariant oldest in candidates && rest <= candidates
        invariant forall k | k in candidates :: k in rest || NoLater(rows, oldest, k)
        decreases |rest|
      {
        var k :| k in rest;
        assert k in rows && oldest in rows;
        rest := rest - {k};
        if rows[k].selectedAt < rows[oldest].selectedAt {
          oldest := k;
        }
      }
    }

    method ClaimPending(limit: int, locked: set<Key>, now: int) returns (batch: seq<Key>)
      requires Valid()
      modifies this
      ensures Valid() && IsBatch(old(rows), locked, limit, batch) && rows == Claimed(old(rows), batch, now)
    {
      batch := [];
      var left := set k | k in rows && Offered(rows, locked, k);
      while |batch| < limit && left != {}
        invariant rows == old(rows) && |batch| <= Max(limit, 0)
        invariant forall k | k in batch :: Offered(rows, locked, k) && k !in left
        invariant forall k :: k in left <==> Offered(rows, locked, k) && k !in batch
        invariant forall i, j | 0 <= i < j < |batch| :: batch[i] != batch[j] && NoLater(rows, batch[i], batch[j])
        invariant forall b, k | b in batch && k in left :: NoLater(rows, b, k)
        decreases |left|
      {
        var next := Oldest(left);
        left := left - {next};
        batch := batch + [next];
      }
      rows := Claimed(rows, batch, now);
    }

    method MarkReady(key: Key, now: int)
      requires Valid()
      modifies this
      ensures Valid() && rows == MarkedReady(old(rows), key, now)
      ensures rows == if key in old(rows)
        then old(rows)[key := old(rows)[key].(status := Ready, readyAt := Some(now), error := None)] else old(rows)
    {
      if key in rows {
        rows := rows[key := rows[key].(status := Ready, readyAt := Some(now), error := None)];
      }
    }

    method MarkFailed(key: Key, error: string)
      requires Valid()
      modifies this
      ensures Valid() && rows == MarkedFailed(old(rows), key, error)
      ensures key !in old(rows) ==> rows == old(rows)
      ensures key in old(rows) ==>
        && rows == old(rows)[key := rows[key]]
        && rows[key] == old(rows)[key].(status := Failed, error := rows[key].error)
        && rows[key].error.Some? && rows[key].error.value <= error && |rows[key].error.value| == Min(2000, |error|)
    {
      if key in rows {
        rows := rows[key :=
          rows[key].(status := Failed, error := Some(if |error| > 2000 then error[..2000] else error))];
      }
    }

    /** At boot nothing is cloning; afterwards no row says otherwise, and each one stranded is offered again. */
    method RequeueStranded() returns (count: nat)
      requires Valid()
      modifies this
      ensures Valid() && rows == Requeued(old(rows))
      ensures count == |set k | k in old(rows) && old(rows)[k].status.Cloning?|
      ensures forall k | k in rows ::
        rows[k] == if old(rows)[k].status.Cloning? then old(rows)[k].(status := Queued, error := None) else old(rows)[k]
      ensures forall k | k in rows :: !rows[k].status.Cloning?
    {
      count := |set k | k in rows && rows[k].status.Cloning?|;
      rows := Requeued(rows);
    }
  }
}
