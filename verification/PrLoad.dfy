/** Loading pull requests back: child rows come in four flat lists and are bucketed by "repo#number". */
module PrLoad {
  import opened Keys
  import opened Sorting
  import opened PrStore

  type RowList<V> = seq<(ChildId, V)>

  function KeyOf(id: PrId): string { PrKey(id.repo, id.number) }

  function OnKey<V>(key: string): ((ChildId, V)) -> bool { (row: (ChildId, V)) => KeyOf(row.0.pr) == key }

  predicate Selected(c: ChildId, org: string, provider: string, repos: seq<string>) {
    c.pr.org == org && c.pr.provider == provider && c.pr.repo in repos
  }

  /** What the query returns: the table's rows for these repos, in some order. */
  ghost predicate Answers<V(!new)>(rows: RowList<V>, t: map<ChildId, V>, org: string, provider: string,
        repos: seq<string>)
  {
    forall c, v :: (c, v) in rows <==> c in t && t[c] == v && Selected(c, org, provider, repos)
  }

  /** Every PR has a bucket, empty or not; a row of no listed PR is dropped. */
  method Bucket<V>(keys: seq<string>, source: RowList<V>) returns (buckets: map<string, RowList<V>>)
    ensures forall key :: key in buckets <==> key in keys
    ensures forall key | key in buckets :: buckets[key] == Filter(source, OnKey(key))
  {
    buckets := map key | key in keys :: [];
    for i := 0 to |source|
      invariant forall key :: key in buckets <==> key in keys
      invariant forall key | key in buckets :: buckets[key] == Filter(source[..i], OnKey(key))
    {
      var row := source[i];
      assert source[..i + 1] == source[..i] + [row];
      var own := KeyOf(row.0.pr);
      forall key | key in buckets
        ensures Filter(source[..i + 1], OnKey(key)) == buckets[key] + if key == own then [row] else []
      {
        FilterAppend(source[..i], row, OnKey(key));
      }
      if own in buckets {
        buckets := buckets[own := buckets[own] + [row]];
      }
    }
    assert source[..|source|] == source;
  }

  function AsRows<V>(rows: RowList<V>): map<string, V> {
    if rows == [] then map[] else AsRows(rows[1..])[rows[0].0.key := rows[0].1]
  }

  lemma {:induction false} AsRowsHolds<V>(rows: RowList<V>, key: string)
    ensures key in AsRows(rows) <==> exists i :: 0 <= i < |rows| && rows[i].0.key == key
    ensures key in AsRows(rows) ==>
      exists i :: 0 <= i < |rows| && rows[i].0.key == key && rows[i].1 == AsRows(rows)[key]
  {
    if rows == [] {
    } else {
      AsRowsHolds(rows[1..], key);
      assert forall i | 0 < i < |rows| :: rows[i] == rows[1..][i - 1];
      if rows[0].0.key != key && key in AsRows(rows[1..]) {
        var i :| 0 <= i < |rows[1..]| && rows[1..][i].0.key == key && rows[1..][i].1 == AsRows(rows[1..])[key];
        assert rows[i + 1] == rows[1..][i];
      }
    }
  }

  /** A PR's bucket is its rows, and nobody else's: "repo#number" names one PR of one provider. */
  lemma BucketIsThePr<V(!new)>(t: map<ChildId, V>, rows: RowList<V>, id: PrId, repos: seq<string>)
    requires Answers(rows, t, id.org, id.provider, repos) && id.repo in repos
    ensures AsRows(Filter(rows, OnKey(KeyOf(id)))) == RowsOf(t, id)
  {
    var mine := Filter(rows, OnKey(KeyOf(id)));
    FilterMembers(rows, OnKey(KeyOf(id)));
    forall row | row in mine
      ensures row.0.pr == id && row.0 in t && t[row.0] == row.1
    {
      assert (row.0, row.1) in rows;
      PrKeyInjective(row.0.pr.repo, row.0.pr.number, id.repo, id.number);
    }
    forall key: string
      ensures key in AsRows(mine) <==> key in RowsOf(t, id)
      ensures key in AsRows(mine) ==> AsRows(mine)[key] == RowsOf(t, id)[key]
    {
      AsRowsHolds(mine, key);
      var c := ChildId(id, key);
      if key in AsRows(mine) {
        var i :| 0 <= i < |mine| && mine[i].0.key == key && mine[i].1 == AsRows(mine)[key];
        assert mine[i] in mine && mine[i].0 == c;
      }
      if key in RowsOf(t, id) {
        assert c in t && (c, t[c]) in rows && OnKey(KeyOf(id))((c, t[c]));
        assert (c, t[c]) in mine;
        var i :| 0 <= i < |mine| && mine[i] == (c, t[c]);
      }
    }
  }

  function KeysOf(ids: seq<PrId>): (ks: seq<string>)
    ensures |ks| == |ids| && forall i | 0 <= i < |ids| :: ks[i] == KeyOf(ids[i])
  {
    seq(|ids|, i requires 0 <= i < |ids| => KeyOf(ids[i]))
  }

  predicate AllOf(ids: seq<PrId>, org: string, provider: string, repos: seq<string>) {
    forall i | 0 <= i < |ids| :: ids[i].org == org && ids[i].provider == provider && ids[i].repo in repos
  }

  method LookUp<V(!new)>(ghost t: map<ChildId, V>, ghost rows: RowList<V>, id: PrId, key: string,
        buckets: map<string, RowList<V>>, ghost org: string, ghost provider: string, ghost repos: seq<string>)
    returns (found: map<string, V>)
    requires Answers(rows, t, org, provider, repos) && id.org == org && id.provider == provider && id.repo in repos
    requires key == KeyOf(id) && key in buckets && buckets[key] == Filter(rows, OnKey(key))
    ensures found == RowsOf(t, id)
  {
    BucketIsThePr(t, rows, id, repos);
    found := AsRows(buckets[key]);
  }

  /** One connection's rows for each PR, looked up in its bucket. */
  method Children<V(!new)>(ghost t: map<ChildId, V>, rows: RowList<V>, ids: seq<PrId>, ghost org: string,
        ghost provider: string, ghost repos: seq<string>)
    returns (children: seq<map<string, V>>)
    requires Answers(rows, t, org, provider, repos)
    requires AllOf(ids, org, provider, repos)
    ensures |children| == |ids| && forall i | 0 <= i < |ids| :: children[i] == RowsOf(t, ids[i])
  {
    var keys := KeysOf(ids);
    var buckets := Bucket(keys, rows);
    children := [];
    for i := 0 to |ids|
      invariant |children| == i && forall j | 0 <= j < i :: children[j] == RowsOf(t, ids[j])
    {
      assert keys[i] in keys;
      var rowsOf := LookUp(t, rows, ids[i], keys[i], buckets, org, provider, repos);
      children := children + [rowsOf];
    }
  }

  /** `loadPullRequests`, given what its five queries return: each PR comes back as it is stored. */
  method LoadPullRequests(t: Tables, ids: seq<PrId>, org: string, provider: string, repos: seq<string>,
        reviews: RowList<Review>, threads: RowList<Thread>, commits: RowList<int>, labels: RowList<()>)
    returns (loaded: seq<Loaded>)
    requires AllOf(ids, org, provider, repos) && forall i | 0 <= i < |ids| :: ids[i] in t.prs
    requires Answers(reviews, t.reviews, org, provider, repos) && Answers(threads, t.threads, org, provider, repos)
    requires Answers(commits, t.commits, org, provider, repos) && Answers(labels, t.labels, org, provider, repos)
    ensures |loaded| == |ids| && forall i | 0 <= i < |ids| :: ids[i] in t.prs && loaded[i] == Load(t, ids[i])
  {
    var reviewsOf := Children(t.reviews, reviews, ids, org, provider, repos);
    var threadsOf := Children(t.threads, threads, ids, org, provider, repos);
    var commitsOf := Children(t.commits, commits, ids, org, provider, repos);
    var labelsOf := Children(t.labels, labels, ids, org, provider, repos);
    loaded := seq(|ids|, i requires 0 <= i < |ids| =>
      Loaded(t.prs[ids[i]].createdAt, t.prs[ids[i]].head, reviewsOf[i], threadsOf[i], commitsOf[i], labelsOf[i].Keys));
  }
}
