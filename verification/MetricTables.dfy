/** core/src/metrics.ts: the reviewer table, the histograms, and rework after review. */
module MetricTables {
  import opened Common
  import opened Keys
  import opened Sorting

  datatype Thread = Thread(author: string, resolved: bool, outdated: bool)

  // `bodyOnly` is null where reviews cannot be linked to threads.
  datatype Review = Review(author: string, bodyOnly: Option<bool>)

  datatype Pr = Pr(author: string, size: int, commitCount: nat, threads: seq<Thread>, reviews: seq<Review>)

  // ----- Threads -----

  datatype ThreadStats = ThreadStats(bot: nat, human: nat, resolved: nat, unresolvedOutdated: nat, unresolvedLive: nat)

  function ByBot(bots: set<string>, bot: bool): Thread -> bool { (t: Thread) => (t.author in bots) == bot }
  function IsResolved(): Thread -> bool { (t: Thread) => t.resolved }
  function IsOutdated(): Thread -> bool { (t: Thread) => !t.resolved && t.outdated }
  function IsLive(): Thread -> bool { (t: Thread) => !t.resolved && !t.outdated }

  function StatsOf(threads: seq<Thread>, bots: set<string>): ThreadStats {
    ThreadStats(|Filter(threads, ByBot(bots, true))|, |Filter(threads, ByBot(bots, false))|,
                |Filter(threads, IsResolved())|, |Filter(threads, IsOutdated())|, |Filter(threads, IsLive())|)
  }

  function Added(a: ThreadStats, b: ThreadStats): ThreadStats {
    ThreadStats(a.bot + b.bot, a.human + b.human, a.resolved + b.resolved,
                a.unresolvedOutdated + b.unresolvedOutdated, a.unresolvedLive + b.unresolvedLive)
  }

  function ThreadTotals(prs: seq<Pr>, bots: set<string>): ThreadStats {
    if prs == [] then ThreadStats(0, 0, 0, 0, 0)
    else Added(ThreadTotals(prs[..|prs| - 1], bots), StatsOf(prs[|prs| - 1].threads, bots))
  }

  /** Every thread has one fate, and is a bot's or a human's. */
  lemma {:induction false} FatesSum(threads: seq<Thread>, bots: set<string>)
    ensures var s := StatsOf(threads, bots);
      s.bot + s.human == |threads| && s.resolved + s.unresolvedOutdated + s.unresolvedLive == |threads|
  {
    if threads == [] {
    } else {
      FatesSum(threads[1..], bots);
    }
  }

  lemma CountJoin(a: seq<Thread>, b: seq<Thread>, p: Thread -> bool)
    ensures |Filter(a + b, p)| == |Filter(a, p)| + |Filter(b, p)|
  {
    FilterJoin(a, b, p);
  }

  /** Two lists together have the sums of their counts. */
  lemma StatsJoin(a: seq<Thread>, b: seq<Thread>, bots: set<string>)
    ensures StatsOf(a + b, bots) == Added(StatsOf(a, bots), StatsOf(b, bots))
  {
    CountJoin(a, b, ByBot(bots, true));
    CountJoin(a, b, ByBot(bots, false));
    CountJoin(a, b, IsResolved());
    CountJoin(a, b, IsOutdated());
    CountJoin(a, b, IsLive());
  }

  lemma FilterOne<T>(x: T, p: T -> bool)
    ensures |Filter([x], p)| == if p(x) then 1 else 0
  {
    assert [x][1..] == [] && Filter([x][1..], p) == [];
  }

  /** What one thread adds; with StatsJoin, all there is to know about the counts. */
  lemma StatsOfOne(t: Thread, bots: set<string>)
    ensures StatsOf([t], bots) == ThreadStats(
      if t.author in bots then 1 else 0, if t.author in bots then 0 else 1,
      if t.resolved then 1 else 0,
      if !t.resolved && t.outdated then 1 else 0,
      if !t.resolved && !t.outdated then 1 else 0)
  {
    FilterOne(t, ByBot(bots, true));
    FilterOne(t, ByBot(bots, false));
    FilterOne(t, IsResolved());
    FilterOne(t, IsOutdated());
    FilterOne(t, IsLive());
  }

  /** Over the merged PRs too: the totals are those of all their threads together. */
  lemma {:induction false} TotalsAreOfAllThreads(prs: seq<Pr>, bots: set<string>)
    ensures ThreadTotals(prs, bots) == StatsOf(AllThreads(prs), bots)
    ensures var s := ThreadTotals(prs, bots);
      && s.bot + s.human == |AllThreads(prs)|
      && s.resolved + s.unresolvedOutdated + s.unresolvedLive == |AllThreads(prs)|
  {
    if prs == [] {
    } else {
      var front, last := prs[..|prs| - 1], prs[|prs| - 1];
      TotalsAreOfAllThreads(front, bots);
      StatsJoin(AllThreads(front), last.threads, bots);
    }
    FatesSum(AllThreads(prs), bots);
  }

  // ----- The reviewer table -----

  datatype ReviewerRow = ReviewerRow(threads: nat, resolved: nat, bodyOnly: Option<nat>, reviews: nat, prsTouched: nat)

  const NEW_REVIEWER := ReviewerRow(0, 0, Some(0), 0, 0)

  function ThreadBy(name: string): Thread -> bool { (t: Thread) => t.author == name }
  function ResolvedBy(name: string): Thread -> bool { (t: Thread) => t.author == name && t.resolved }
  function ReviewBy(name: string): Review -> bool { (r: Review) => r.author == name }
  function BareBy(name: string): Review -> bool { (r: Review) => r.author == name && r.bodyOnly == Some(true) }
  function UnknownBy(name: string): Review -> bool { (r: Review) => r.author == name && r.bodyOnly.None? }

  function Seen(pr: Pr): set<string> {
    (set t | t in pr.threads :: t.author) + (set r | r in pr.reviews :: r.author)
  }

  function TouchedBy(name: string): Pr -> bool { (pr: Pr) => name in Seen(pr) }

  /**
   * A reviewer's row: counts over their threads, reviews and PRs; one unclassifiable review nulls the
   * body-only column.
   */
  function RowFor(name: string, threads: seq<Thread>, reviews: seq<Review>, prs: seq<Pr>): ReviewerRow {
    ReviewerRow(
      |Filter(threads, ThreadBy(name))|,
      |Filter(threads, ResolvedBy(name))|,
      if Filter(reviews, UnknownBy(name)) != [] then None else Some(|Filter(reviews, BareBy(name))|),
      |Filter(reviews, ReviewBy(name))|,
      |Filter(prs, TouchedBy(name))|)
  }

  type Rows = map<string, ReviewerRow>

  function RowAt(rows: Rows, name: string): ReviewerRow { if name in rows then rows[name] else NEW_REVIEWER }

  ghost predicate Tallied(rows: Rows, threads: seq<Thread>, reviews: seq<Review>, prs: seq<Pr>) {
    forall name :: RowAt(rows, name) == RowFor(name, threads, reviews, prs)
  }

  /** A Map keeps its keys in the order they first came. */
  function WithName(names: seq<string>, name: string): seq<string> { if name in names then names else names + [name] }

  function NamesOfThreads(names: seq<string>, threads: seq<Thread>): seq<string> {
    if threads == [] then names
    else WithName(NamesOfThreads(names, threads[..|threads| - 1]), threads[|threads| - 1].author)
  }

  function NamesOfReviews(names: seq<string>, reviews: seq<Review>): seq<string> {
    if reviews == [] then names
    else WithName(NamesOfReviews(names, reviews[..|reviews| - 1]), reviews[|reviews| - 1].author)
  }

  /** Everybody who wrote a thread or a review, as they are met. */
  function NamesSeen(prs: seq<Pr>): seq<string> {
    if prs == [] then []
    else
      var last := prs[|prs| - 1];
      NamesOfReviews(NamesOfThreads(NamesSeen(prs[..|prs| - 1]), last.threads), last.reviews)
  }

  lemma {:induction false} NamesOfThreadsAre(names: seq<string>, threads: seq<Thread>)
    requires Distinct(names)
    ensures Distinct(NamesOfThreads(names, threads))
    ensures forall n :: n in NamesOfThreads(names, threads) <==> n in names || exists t :: t in threads && t.author == n
  {
    if threads == [] {
    } else {
      var front, last := threads[..|threads| - 1], threads[|threads| - 1];
      assert threads == front + [last];
      NamesOfThreadsAre(names, front);
      assert last in threads;
    }
  }

  lemma {:induction false} NamesOfReviewsAre(names: seq<string>, reviews: seq<Review>)
    requires Distinct(names)
    ensures Distinct(NamesOfReviews(names, reviews))
    ensures forall n :: n in NamesOfReviews(names, reviews) <==> n in names || exists r :: r in reviews && r.author == n
  {
    if reviews == [] {
    } else {
      var front, last := reviews[..|reviews| - 1], reviews[|reviews| - 1];
      assert reviews == front + [last];
      NamesOfReviewsAre(names, front);
      assert last in reviews;
    }
  }

  predicate WasSeen(prs: seq<Pr>, name: string) { exists pr :: pr in prs && name in Seen(pr) }

  /** Each once, and nobody else. */
  lemma {:induction false} NamesSeenAre(prs: seq<Pr>)
    ensures Distinct(NamesSeen(prs))
    ensures forall n :: n in NamesSeen(prs) <==> WasSeen(prs, n)
  {
    if prs == [] {
    } else {
      var front, last := prs[..|prs| - 1], prs[|prs| - 1];
      assert prs == front + [last];
      NamesSeenAre(front);
      NamesOfThreadsAre(NamesSeen(front), last.threads);
      NamesOfReviewsAre(NamesOfThreads(NamesSeen(front), last.threads), last.reviews);
      forall n
        ensures n in NamesSeen(prs) <==> WasSeen(prs, n)
      {
        assert WasSeen(prs, n) <==> WasSeen(front, n) || n in Seen(last);
      }
    }
  }

  function WithThread(row: ReviewerRow, t: Thread): ReviewerRow {
    row.(threads := row.threads + 1, resolved := if t.resolved then row.resolved + 1 else row.resolved)
  }

  function WithReview(row: ReviewerRow, r: Review): ReviewerRow {
    row.(reviews := row.reviews + 1,
         bodyOnly := if r.bodyOnly.None? then None
                     else if r.bodyOnly.value && row.bodyOnly.Some? then Some(row.bodyOnly.value + 1)
                     else row.bodyOnly)
  }

  lemma ThreadTallied(rows: Rows, threads: seq<Thread>, reviews: seq<Review>, prs: seq<Pr>, t: Thread)
    requires Tallied(rows, threads, reviews, prs)
    ensures Tallied(rows[t.author := WithThread(RowAt(rows, t.author), t)], threads + [t], reviews, prs)
  {
    forall name
      ensures RowAt(rows[t.author := WithThread(RowAt(rows, t.author), t)], name) ==
        RowFor(name, threads + [t], reviews, prs)
    {
      FilterAppend(threads, t, ThreadBy(name));
      FilterAppend(threads, t, ResolvedBy(name));
      assert RowAt(rows, name) == RowFor(name, threads, reviews, prs);
    }
  }

  lemma ReviewTallied(rows: Rows, threads: seq<Thread>, reviews: seq<Review>, prs: seq<Pr>, r: Review)
    requires Tallied(rows, threads, reviews, prs)
    ensures Tallied(rows[r.author := WithReview(RowAt(rows, r.author), r)], threads, reviews + [r], prs)
  {
    forall name
      ensures RowAt(rows[r.author := WithReview(RowAt(rows, r.author), r)], name) ==
        RowFor(name, threads, reviews + [r], prs)
    {
      FilterAppend(reviews, r, ReviewBy(name));
      FilterAppend(reviews, r, BareBy(name));
      FilterAppend(reviews, r, UnknownBy(name));
      assert RowAt(rows, name) == RowFor(name, threads, reviews, prs);
    }
  }

  function Touched(rows: Rows, names: set<string>): Rows {
    map name | name in rows ::
      if name in names then rows[name].(prsTouched := rows[name].prsTouched + 1) else rows[name]
  }

  lemma PrTallied(rows: Rows, threads: seq<Thread>, reviews: seq<Review>, prs: seq<Pr>, pr: Pr)
    requires Tallied(rows, threads, reviews, prs) && Seen(pr) <= rows.Keys
    ensures Tallied(Touched(rows, Seen(pr)), threads, reviews, prs + [pr])
  {
    forall name
      ensures RowAt(Touched(rows, Seen(pr)), name) == RowFor(name, threads, reviews, prs + [pr])
    {
      FilterAppend(prs, pr, TouchedBy(name));
      assert RowAt(rows, name) == RowFor(name, threads, reviews, prs);
    }
  }

  method Touch(rows: Rows, names: set<string>) returns (after: Rows)
    requires names <= rows.Keys
    ensures after == Touched(rows, names)
  {
    after := rows;
    var left := names;
    while left != {}
      invariant left <= names && after == Touched(rows, names - left)
      decreases |left|
    {
      var name :| name in left;
      after := after[name := after[name].(prsTouched := after[name].prsTouched + 1)];
      left := left - {name};
      assert after == Touched(rows, names - left);
    }
    assert names - left == names;
  }

  function AllThreads(prs: seq<Pr>): seq<Thread> {
    if prs == [] then [] else AllThreads(prs[..|prs| - 1]) + prs[|prs| - 1].threads
  }

  function AllReviews(prs: seq<Pr>): seq<Review> {
    if prs == [] then [] else AllReviews(prs[..|prs| - 1]) + prs[|prs| - 1].reviews
  }

  method AddPr(rows: Rows, order: seq<string>, pr: Pr, ghost threads: seq<Thread>, ghost reviews: seq<Review>,
        ghost prs: seq<Pr>)
    returns (after: Rows, names: seq<string>)
    requires Tallied(rows, threads, reviews, prs) && Keyed(rows, order) && Distinct(order)
    ensures Tallied(after, threads + pr.threads, reviews + pr.reviews, prs + [pr]) && Keyed(after, names)
    ensures names == NamesOfReviews(NamesOfThreads(order, pr.threads), pr.reviews)
  {
    after, names := AddThreads(rows, order, pr.threads, threads, reviews, prs);
    NamesOfThreadsAre(order, pr.threads);
    after, names := AddReviews(after, names, pr.reviews, threads + pr.threads, reviews, prs);
    NamesOfReviewsAre(NamesOfThreads(order, pr.threads), pr.reviews);
    SeenIsNamed(order, pr);
    PrTallied(after, threads + pr.threads, reviews + pr.reviews, prs, pr);
    after := Touch(after, Seen(pr));
  }

  /** The rows are those of `order`. */
  ghost predicate Keyed(rows: Rows, order: seq<string>) { forall n :: n in rows <==> n in order }

  lemma SeenIsNamed(order: seq<string>, pr: Pr)
    requires Distinct(order)
    ensures forall n | n in Seen(pr) :: n in NamesOfReviews(NamesOfThreads(order, pr.threads), pr.reviews)
  {
    NamesOfThreadsAre(order, pr.threads);
    NamesOfReviewsAre(NamesOfThreads(order, pr.threads), pr.reviews);
  }

  method AddThreads(rows: Rows, order: seq<string>, threads: seq<Thread>, ghost before: seq<Thread>,
        ghost reviews: seq<Review>, ghost prs: seq<Pr>)
    returns (after: Rows, names: seq<string>)
    requires Tallied(rows, before, reviews, prs) && Keyed(rows, order)
    ensures Tallied(after, before + threads, reviews, prs) && Keyed(after, names)
    ensures names == NamesOfThreads(order, threads)
  {
    after, names := rows, order;
    assert before + threads[..0] == before;
    for i := 0 to |threads|
      invariant Tallied(after, before + threads[..i], reviews, prs) && Keyed(after, names)
      invariant names == NamesOfThreads(order, threads[..i])
    {
      var t := threads[i];
      assert threads[..i + 1] == threads[..i] + [t] && (threads[..i] + [t])[..i] == threads[..i];
      assert before + threads[..i + 1] == before + threads[..i] + [t];
      ThreadTallied(after, before + threads[..i], reviews, prs, t);
      names := WithName(names, t.author);
      after := after[t.author := WithThread(RowAt(after, t.author), t)];
    }
    assert threads[..|threads|] == threads;
  }

  method AddReviews(rows: Rows, order: seq<string>, reviews: seq<Review>, ghost threads: seq<Thread>,
        ghost before: seq<Review>, ghost prs: seq<Pr>)
    returns (after: Rows, names: seq<string>)
    requires Tallied(rows, threads, before, prs) && Keyed(rows, order)
    ensures Tallied(after, threads, before + reviews, prs) && Keyed(after, names)
    ensures names == NamesOfReviews(order, reviews)
  {
    after, names := rows, order;
    assert before + reviews[..0] == before;
    for i := 0 to |reviews|
      invariant Tallied(after, threads, before + reviews[..i], prs) && Keyed(after, names)
      invariant names == NamesOfReviews(order, reviews[..i])
    {
      var r := reviews[i];
      assert reviews[..i + 1] == reviews[..i] + [r] && (reviews[..i] + [r])[..i] == reviews[..i];
      assert before + reviews[..i + 1] == before + reviews[..i] + [r];
      ReviewTallied(after, threads, before + reviews[..i], prs, r);
      names := WithName(names, r.author);
      after := after[r.author := WithReview(RowAt(after, r.author), r)];
    }
    assert reviews[..|reviews|] == reviews;
  }

  datatype ReviewerLine = ReviewerLine(login: string, isBot: bool, row: ReviewerRow, resolvedRatio: Option<real>)

  /** Null, not zero, when there is nothing to divide by. */
  function Ratio(part: nat, whole: nat): Option<real> {
    if whole == 0 then None else Some(part as real / whole as real)
  }

  function LineOf(login: string, row: ReviewerRow, bots: set<string>): ReviewerLine {
    ReviewerLine(login, login in bots, row, Ratio(row.resolved, row.threads))
  }

  /** Most threads first, then most reviews. */
  function ByWork(): (ReviewerLine, ReviewerLine) -> bool {
    (a: ReviewerLine, b: ReviewerLine) =>
      a.row.threads > b.row.threads || (a.row.threads == b.row.threads && a.row.reviews >= b.row.reviews)
  }

  function LinesFor(names: seq<string>, prs: seq<Pr>, bots: set<string>): (lines: seq<ReviewerLine>)
    ensures |lines| == |names|
    ensures forall i | 0 <= i < |names| ::
      lines[i] == LineOf(names[i], RowFor(names[i], AllThreads(prs), AllReviews(prs), prs), bots)
  {
    seq(|names|, i requires 0 <= i < |names| =>
      LineOf(names[i], RowFor(names[i], AllThreads(prs), AllReviews(prs), prs), bots))
  }

  function RowsIn(order: seq<string>, rows: Rows, bots: set<string>): (lines: seq<ReviewerLine>)
    ensures |lines| == |order| && forall i | 0 <= i < |order| ::
      lines[i] == LineOf(order[i], RowAt(rows, order[i]), bots)
  {
    seq(|order|, i requires 0 <= i < |order| => LineOf(order[i], RowAt(rows, order[i]), bots))
  }

  /**
   * A line for everybody who wrote a thread or a review and for nobody else, counting what is theirs, in
   * stable order.
   */
  method ReviewerTable(prs: seq<Pr>, bots: set<string>) returns (lines: seq<ReviewerLine>)
    ensures lines == Sort(LinesFor(NamesSeen(prs), prs, bots), ByWork())
  {
    var rows, order := TallyReviewers(prs);
    forall i | 0 <= i < |order|
      ensures RowAt(rows, order[i]) == RowFor(order[i], AllThreads(prs), AllReviews(prs), prs)
    {
    }
    assert RowsIn(order, rows, bots) == LinesFor(order, prs, bots);
    lines := Sort(RowsIn(order, rows, bots), ByWork());
  }

  method TallyReviewers(prs: seq<Pr>) returns (rows: Rows, order: seq<string>)
    ensures Tallied(rows, AllThreads(prs), AllReviews(prs), prs) && Keyed(rows, order) && order == NamesSeen(prs)
  {
    rows, order := map[], [];
    for i := 0 to |prs|
      invariant Tallied(rows, AllThreads(prs[..i]), AllReviews(prs[..i]), prs[..i])
      invariant Keyed(rows, order) && order == NamesSeen(prs[..i])
    {
      NamesSeenAre(prs[..i]);
      assert prs[..i + 1] == prs[..i] + [prs[i]] && prs[..i + 1][..i] == prs[..i];
      rows, order := AddPr(rows, order, prs[i], AllThreads(prs[..i]), AllReviews(prs[..i]), prs[..i]);
    }
    assert prs[..|prs|] == prs;
  }

  function ThreadGroups(): string -> Thread -> bool { (name: string) => ThreadBy(name) }
  function ReviewGroups(): string -> Review -> bool { (name: string) => ReviewBy(name) }
  function NoThread(): Thread -> bool { (t: Thread) => false }
  function NoReview(): Review -> bool { (r: Review) => false }

  function ThreadSum(lines: seq<ReviewerLine>): nat {
    if lines == [] then 0 else lines[0].row.threads + ThreadSum(lines[1..])
  }

  function ReviewSum(lines: seq<ReviewerLine>): nat {
    if lines == [] then 0 else lines[0].row.reviews + ReviewSum(lines[1..])
  }

  lemma {:induction false} SumsGather(names: seq<string>, prs: seq<Pr>, bots: set<string>)
    ensures ThreadSum(LinesFor(names, prs, bots)) == |Gather(AllThreads(prs), ThreadGroups(), names)|
    ensures ReviewSum(LinesFor(names, prs, bots)) == |Gather(AllReviews(prs), ReviewGroups(), names)|
  {
    if names == [] {
    } else {
      assert LinesFor(names, prs, bots)[1..] == LinesFor(names[1..], prs, bots);
      SumsGather(names[1..], prs, bots);
    }
  }

  lemma {:induction false} SumsInsert(x: ReviewerLine, lines: seq<ReviewerLine>)
    ensures ThreadSum(Insert(x, lines, ByWork())) == x.row.threads + ThreadSum(lines)
    ensures ReviewSum(Insert(x, lines, ByWork())) == x.row.reviews + ReviewSum(lines)
  {
    if lines == [] || ByWork()(x, lines[0]) {
      assert ([x] + lines)[1..] == lines;
    } else {
      SumsInsert(x, lines[1..]);
      assert ([lines[0]] + Insert(x, lines[1..], ByWork()))[1..] == Insert(x, lines[1..], ByWork());
    }
  }

  lemma {:induction false} SumsSort(lines: seq<ReviewerLine>)
    ensures ThreadSum(Sort(lines, ByWork())) == ThreadSum(lines) && ReviewSum(Sort(lines, ByWork())) == ReviewSum(lines)
  {
    if lines == [] {
    } else {
      SumsSort(lines[1..]);
      SumsInsert(lines[0], Sort(lines[1..], ByWork()));
    }
  }

  /** The lines sum to the threads and the reviews seen. */
  lemma ReviewerLinesSum(prs: seq<Pr>, bots: set<string>)
    ensures var lines := Sort(LinesFor(NamesSeen(prs), prs, bots), ByWork());
      ThreadSum(lines) == |AllThreads(prs)| && ReviewSum(lines) == |AllReviews(prs)|
  {
    var names := NamesSeen(prs);
    SumsSort(LinesFor(names, prs, bots));
    SumsGather(names, prs, bots);
    NamesSeenAre(prs);
    WritersAreSeen(prs);
    forall t | t in AllThreads(prs)
      ensures InSome(ThreadGroups(), names, t)
    {
      assert ThreadGroups()(t.author)(t);
    }
    forall r | r in AllReviews(prs)
      ensures InSome(ReviewGroups(), names, r)
    {
      assert ReviewGroups()(r.author)(r);
    }
    Partition(AllThreads(prs), ThreadGroups(), names, NoThread());
    Partition(AllReviews(prs), ReviewGroups(), names, NoReview());
    FilterNone(AllThreads(prs), NoThread());
    FilterNone(AllReviews(prs), NoReview());
    assert |multiset(AllThreads(prs))| == |multiset(Gather(AllThreads(prs), ThreadGroups(), names))|;
    assert |multiset(AllReviews(prs))| == |multiset(Gather(AllReviews(prs), ReviewGroups(), names))|;
  }

  lemma {:induction false} WritersAreSeen(prs: seq<Pr>)
    ensures forall t | t in AllThreads(prs) :: WasSeen(prs, t.author)
    ensures forall r | r in AllReviews(prs) :: WasSeen(prs, r.author)
  {
    if prs == [] {
    } else {
      var front, last := prs[..|prs| - 1], prs[|prs| - 1];
      assert prs == front + [last];
      WritersAreSeen(front);
      forall n | WasSeen(front, n) || n in Seen(last)
        ensures WasSeen(prs, n)
      {
        assert last in prs;
      }
    }
  }

  predicate LineOfName(line: ReviewerLine, name: string) { line.login == name }

  lemma LoginsFixLines(names: seq<string>, unsorted: seq<ReviewerLine>, lines: seq<ReviewerLine>)
    requires Distinct(names) && |unsorted| == |names| && forall i | 0 <= i < |names| :: unsorted[i].login == names[i]
    requires Distinct(lines) && forall line :: line in lines <==> line in unsorted
    ensures forall i, j | 0 <= i < j < |lines| :: lines[i].login != lines[j].login
  {
    forall i, j | 0 <= i < j < |lines|
      ensures lines[i].login != lines[j].login
    {
      assert lines[i] in lines && lines[j] in lines;
      var a :| 0 <= a < |unsorted| && unsorted[a] == lines[i];
      var b :| 0 <= b < |unsorted| && unsorted[b] == lines[j];
      assert a != b;
    }
  }

  lemma LinesNameAll(names: seq<string>, unsorted: seq<ReviewerLine>, lines: seq<ReviewerLine>, n: string)
    requires |unsorted| == |names| && forall i | 0 <= i < |names| :: unsorted[i].login == names[i]
    requires forall line :: line in lines <==> line in unsorted
    ensures n in names <==> exists line :: line in lines && LineOfName(line, n)
  {
    if n in names {
      var i :| 0 <= i < |names| && names[i] == n;
      assert unsorted[i] in lines && LineOfName(unsorted[i], n);
    }
    if line :| line in lines && LineOfName(line, n) {
      var i :| 0 <= i < |unsorted| && unsorted[i] == line;
      assert names[i] in names;
    }
  }

  /** Bots are marked, and the ratio is resolved over all threads, or nothing where there are none. */
  predicate LineOk(line: ReviewerLine, prs: seq<Pr>, bots: set<string>) {
    && (line.isBot <==> line.login in bots)
    && line.row == RowFor(line.login, AllThreads(prs), AllReviews(prs), prs)
    && (line.row.threads == 0 ==> line.resolvedRatio.None?)
    && (line.row.threads > 0 ==> line.resolvedRatio == Some(line.row.resolved as real / line.row.threads as real))
  }

  lemma LineIsOk(login: string, prs: seq<Pr>, bots: set<string>)
    ensures LineOk(LineOf(login, RowFor(login, AllThreads(prs), AllReviews(prs), prs), bots), prs, bots)
  {
  }

  lemma LinesAreOk(names: seq<string>, prs: seq<Pr>, bots: set<string>)
    ensures forall line | line in LinesFor(names, prs, bots) :: LineOk(line, prs, bots)
  {
    var lines := LinesFor(names, prs, bots);
    forall line | line in lines
      ensures LineOk(line, prs, bots)
    {
      var i :| 0 <= i < |lines| && lines[i] == line;
      LineIsOk(names[i], prs, bots);
    }
  }

  /** Sorted by work, one line a name, and a line for exactly the names that were seen. */
  lemma ReviewerLinesAre(prs: seq<Pr>, bots: set<string>)
    ensures var lines := Sort(LinesFor(NamesSeen(prs), prs, bots), ByWork());
      && (forall i, j | 0 <= i < j < |lines| ::
           || lines[i].row.threads > lines[j].row.threads
           || (lines[i].row.threads == lines[j].row.threads && lines[i].row.reviews >= lines[j].row.reviews))
      && (forall line | line in lines :: LineOk(line, prs, bots))
      && (forall n :: WasSeen(prs, n) <==> exists line :: line in lines && LineOfName(line, n))
      && (forall i, j | 0 <= i < j < |lines| :: lines[i].login != lines[j].login)
  {
    var names, unsorted := NamesSeen(prs), LinesFor(NamesSeen(prs), prs, bots);
    var lines := Sort(unsorted, ByWork());
    NamesSeenAre(prs);
    SortSorts(unsorted, ByWork());
    LinesAreOk(names, prs, bots);
    assert Distinct(unsorted);
    DistinctSame(unsorted, lines);
    SameElements(unsorted, lines);
    LoginsFixLines(names, unsorted, lines);
    forall n
      ensures WasSeen(prs, n) <==> exists line :: line in lines && LineOfName(line, n)
    {
      LinesNameAll(names, unsorted, lines, n);
    }
  }

  // ----- Rework -----

  datatype Mark = Mark(at: int, author: string)

  function ByTime(): (Mark, Mark) -> bool { (a: Mark, b: Mark) => a.at <= b.at }
  function AnyOne(): Mark -> bool { (m: Mark) => true }
  function Human(bots: set<string>): Mark -> bool { (m: Mark) => m.author !in bots }
  function After(mark: int): int -> bool { (c: int) => c > mark }

  /** The first submitted review: of anyone, or of someone who is not a bot. */
  function FirstReview(reviews: seq<Mark>, who: Mark -> bool): Option<Mark> { Find(Sort(reviews, ByTime()), who) }

  /** The earliest review by that author of all that count; none only where none counts. */
  predicate IsEarliest(reviews: seq<Mark>, who: Mark -> bool, first: Option<Mark>) {
    match first
    case None => forall m | m in reviews :: !who(m)
    case Some(f) => f in reviews && who(f) && forall m | m in reviews && who(m) :: f.at <= m.at
  }

  lemma {:induction false} FindIsFirst(items: seq<Mark>, who: Mark -> bool)
    requires Ordered(items, ByTime())
    ensures IsEarliest(items, who, Find(items, who))
  {
    if items == [] {
    } else if who(items[0]) {
      forall m | m in items
        ensures items[0].at <= m.at
      {
        var i :| 0 <= i < |items| && items[i] == m;
        assert i > 0 ==> ByTime()(items[0], items[i]);
      }
    } else {
      OrderedTail(items, ByTime());
      FindIsFirst(items[1..], who);
    }
  }

  /** Sorting and finding yields the earliest review: of anybody, and of anybody who is not a bot. */
  lemma FirstReviewIsEarliest(reviews: seq<Mark>, bots: set<string>)
    ensures IsEarliest(reviews, (m: Mark) => true, FirstReview(reviews, AnyOne()))
    ensures IsEarliest(reviews, (m: Mark) => m.author !in bots, FirstReview(reviews, Human(bots)))
  {
    var sorted := Sort(reviews, ByTime());
    SortSorts(reviews, ByTime());
    SameElements(reviews, sorted);
    FindIsFirst(sorted, AnyOne());
    FindIsFirst(sorted, Human(bots));
  }

  function CommitsAfter(commits: seq<int>, mark: Option<Mark>): nat {
    if mark.None? then 0 else |Filter(commits, After(mark.value.at))|
  }

  lemma {:induction false} FewerAfterLater(commits: seq<int>, early: int, late: int)
    requires early <= late
    ensures |Filter(commits, After(late))| <= |Filter(commits, After(early))|
  {
    if commits == [] {
    } else {
      FewerAfterLater(commits[1..], early, late);
    }
  }

  lemma {:induction false} FirstMatchIsFirst(items: seq<Mark>, who: Mark -> bool)
    requires Ordered(items, ByTime()) && Find(items, who).Some?
    ensures Find(items, AnyOne()).Some? && Find(items, AnyOne()).value.at <= Find(items, who).value.at
  {
    FindIsMember(items, who);
    var i :| 0 <= i < |items| && items[i] == Find(items, who).value;
    assert i > 0 ==> ByTime()(items[0], items[i]);
  }

  /** Commits after the first human review are commits after the first review. */
  lemma HumanReworkIsRework(commits: seq<int>, reviews: seq<Mark>, bots: set<string>)
    ensures CommitsAfter(commits, FirstReview(reviews, Human(bots))) <=
      CommitsAfter(commits, FirstReview(reviews, AnyOne()))
    ensures FirstReview(reviews, Human(bots)).Some? ==> FirstReview(reviews, AnyOne()).Some?
  {
    SortSorts(reviews, ByTime());
    var sorted := Sort(reviews, ByTime());
    if FirstReview(reviews, Human(bots)).Some? {
      FirstMatchIsFirst(sorted, Human(bots));
      FewerAfterLater(commits, Find(sorted, AnyOne()).value.at, Find(sorted, Human(bots)).value.at);
    }
  }

  datatype Timeline = Timeline(commits: seq<int>, reviews: seq<Mark>)

  function Reworked(who: Mark -> bool): Timeline -> bool {
    (t: Timeline) => FirstReview(t.reviews, who).Some? && CommitsAfter(t.commits, FirstReview(t.reviews, who)) > 0
  }

  lemma ReworkedBy(t: Timeline, who: Mark -> bool)
    ensures Reworked(who)(t) <==> exists m, c :: m in t.reviews && who(m) && c in t.commits && m.at < c
  {
    var sorted, first := Sort(t.reviews, ByTime()), FirstReview(t.reviews, who);
    SortSorts(t.reviews, ByTime());
    SameElements(t.reviews, sorted);
    FindIsFirst(sorted, who);
    if first.Some? {
      var later := Filter(t.commits, After(first.value.at));
      FilterMembers(t.commits, After(first.value.at));
      if later != [] {
        assert later[0] in later;
      }
      forall m, c | m in t.reviews && who(m) && c in t.commits && m.at < c
        ensures c in later
      {
      }
    }
  }

  /** A PR was reworked exactly when a commit came after some review, and after human review when after one of those. */
  lemma ReworkedExactlyWhen(t: Timeline, bots: set<string>)
    ensures Reworked(AnyOne())(t) <==> exists m, c :: m in t.reviews && c in t.commits && m.at < c
    ensures Reworked(Human(bots))(t) <==>
      exists m, c :: m in t.reviews && m.author !in bots && c in t.commits && m.at < c
  {
    ReworkedBy(t, AnyOne());
    ReworkedBy(t, Human(bots));
  }

  /** So no set of PRs has more rework after human review than after any review. */
  lemma {:induction false} ReworkCounts(prs: seq<Timeline>, bots: set<string>)
    ensures |Filter(prs, Reworked(Human(bots)))| <= |Filter(prs, Reworked(AnyOne()))|
  {
    if prs == [] {
    } else {
      ReworkCounts(prs[1..], bots);
      HumanReworkIsRework(prs[0].commits, prs[0].reviews, bots);
    }
  }

  // ----- Histograms -----

  /** SIZE_BUCKETS: the first bound the size is under; the last has none. */
  const BOUNDS: seq<int> := [50, 200, 1000, 5000]

  function SizeBucket(size: int): (b: nat)
    ensures b <= 4 && (b < 4 ==> size < BOUNDS[b]) && (b > 0 ==> size >= BOUNDS[b - 1])
  {
    if size < 50 then 0 else if size < 200 then 1 else if size < 1000 then 2 else if size < 5000 then 3 else 4
  }

  function CommitBucket(pr: Pr): nat { if pr.commitCount > 10 then 10 else pr.commitCount }

  function BucketOf(pr: Pr): nat { SizeBucket(pr.size) }

  function Grouped<K(==)>(keyOf: Pr -> K): K -> Pr -> bool { (k: K) => (pr: Pr) => keyOf(pr) == k }

  function Counts<K(==)>(prs: seq<Pr>, keyOf: Pr -> K, keys: seq<K>): seq<nat> {
    if keys == [] then [] else [|Filter(prs, Grouped(keyOf)(keys[0]))|] + Counts(prs, keyOf, keys[1..])
  }

  function SumNat(xs: seq<nat>): nat { if xs == [] then 0 else xs[0] + SumNat(xs[1..]) }

  lemma {:induction false} CountsGather<K(!new)>(prs: seq<Pr>, keyOf: Pr -> K, keys: seq<K>)
    ensures SumNat(Counts(prs, keyOf, keys)) == |Gather(prs, Grouped(keyOf), keys)|
  {
    if keys == [] {
    } else {
      CountsGather(prs, keyOf, keys[1..]);
    }
  }

  function NoPr(): Pr -> bool { (pr: Pr) => false }

  /** Any grouping of the merged PRs, over all the keys that occur, sums to the merged count. */
  lemma GroupsSumToMerged<K(!new)>(prs: seq<Pr>, keyOf: Pr -> K, keys: seq<K>)
    requires Distinct(keys) && forall pr | pr in prs :: keyOf(pr) in keys
    ensures SumNat(Counts(prs, keyOf, keys)) == |prs|
  {
    CountsGather(prs, keyOf, keys);
    forall pr | pr in prs
      ensures InSome(Grouped(keyOf), keys, pr)
    {
      assert Grouped(keyOf)(keyOf(pr))(pr);
    }
    Partition(prs, Grouped(keyOf), keys, NoPr());
    FilterNone(prs, NoPr());
    assert |multiset(prs)| == |multiset(Gather(prs, Grouped(keyOf), keys))|;
  }

  function SizeOf(): Pr -> nat { (pr: Pr) => BucketOf(pr) }

  function Upto(n: nat): (bs: seq<nat>)
    ensures Distinct(bs) && forall b: nat :: b in bs <==> b < n
  {
    if n == 0 then []
    else
      var front := Upto(n - 1);
      assert forall i | 0 <= i < |front| :: front[i] in front;
      front + [n - 1]
  }

  /** Each PR is in the one bucket its size falls in. */
  lemma SizeHistogramSums(prs: seq<Pr>)
    ensures SumNat(Counts(prs, SizeOf(), Upto(5))) == |prs|
  {
    GroupsSumToMerged(prs, SizeOf(), Upto(5));
  }

  function CountAt<K>(counts: map<K, nat>, k: K): nat { if k in counts then counts[k] else 0 }

  ghost predicate Occurs<K>(prs: seq<Pr>, keyOf: Pr -> K, k: K) { exists pr :: pr in prs && keyOf(pr) == k }

  ghost predicate Counted<K(!new)>(prs: seq<Pr>, keyOf: Pr -> K, counts: map<K, nat>) {
    forall k :: CountAt(counts, k) == |Filter(prs, Grouped(keyOf)(k))|
  }

  lemma OneMoreCounted<K(!new)>(prs: seq<Pr>, pr: Pr, keyOf: Pr -> K, counts: map<K, nat>)
    requires Counted(prs, keyOf, counts)
    ensures Counted(prs + [pr], keyOf, counts[keyOf(pr) := CountAt(counts, keyOf(pr)) + 1])
  {
    forall k
      ensures |Filter(prs + [pr], Grouped(keyOf)(k))| == CountAt(counts, k) + if k == keyOf(pr) then 1 else 0
    {
      FilterAppend(prs, pr, Grouped(keyOf)(k));
    }
  }

  /** What the loop has counted after `prs`. */
  ghost predicate CountedUp<K(!new)>(prs: seq<Pr>, keyOf: Pr -> K, order: seq<K>, counts: map<K, nat>) {
    && Distinct(order) && (forall pr | pr in prs :: keyOf(pr) in order)
    && (forall k :: k in order <==> k in counts)
    && (forall k | k in order :: Occurs(prs, keyOf, k))
    && Counted(prs, keyOf, counts)
  }

  lemma OneMorePr<K(!new)>(prs: seq<Pr>, pr: Pr, keyOf: Pr -> K, order: seq<K>, counts: map<K, nat>)
    requires CountedUp(prs, keyOf, order, counts)
    ensures CountedUp(prs + [pr], keyOf, if keyOf(pr) in counts then order else order + [keyOf(pr)],
                      counts[keyOf(pr) := CountAt(counts, keyOf(pr)) + 1])
  {
    OneMoreCounted(prs, pr, keyOf, counts);
    var after := if keyOf(pr) in counts then order else order + [keyOf(pr)];
    forall k | k in after
      ensures Occurs(prs + [pr], keyOf, k)
    {
      if k in order {
        var some :| some in prs && keyOf(some) == k;
        assert some in prs + [pr];
      } else {
        assert pr in prs + [pr];
      }
    }
  }

  /** The loop behind the commit histogram, and behind any grouping by key. */
  method CountBy<K(!new, ==)>(prs: seq<Pr>, keyOf: Pr -> K) returns (order: seq<K>, counts: map<K, nat>)
    ensures CountedUp(prs, keyOf, order, counts)
    ensures forall k | k in counts :: counts[k] == |Filter(prs, Grouped(keyOf)(k))|
    ensures SumNat(Counts(prs, keyOf, order)) == |prs|
  {
    order, counts := [], map[];
    for i := 0 to |prs|
      invariant CountedUp(prs[..i], keyOf, order, counts)
    {
      var pr := prs[i];
      var key := keyOf(pr);
      assert prs[..i + 1] == prs[..i] + [pr];
      OneMorePr(prs[..i], pr, keyOf, order, counts);
      if key !in counts {
        order := order + [key];
      }
      counts := counts[key := CountAt(counts, key) + 1];
    }
    assert prs[..|prs|] == prs;
    assert forall k | k in counts :: counts[k] == CountAt(counts, k);
    GroupsSumToMerged(prs, keyOf, order);
  }

  datatype Bar<K> = Bar(key: K, count: nat)

  function SumBars<K>(bars: seq<Bar<K>>): nat { if bars == [] then 0 else bars[0].count + SumBars(bars[1..]) }

  function BarsOf<K>(keys: seq<K>, counts: map<K, nat>): (bars: seq<Bar<K>>)
    ensures |bars| == |keys| && forall i | 0 <= i < |keys| :: bars[i] == Bar(keys[i], CountAt(counts, keys[i]))
  {
    seq(|keys|, i requires 0 <= i < |keys| => Bar(keys[i], CountAt(counts, keys[i])))
  }

  lemma {:induction false} SumOfBars<K(!new)>(prs: seq<Pr>, keyOf: Pr -> K, keys: seq<K>, counts: map<K, nat>)
    requires Counted(prs, keyOf, counts)
    ensures SumBars(BarsOf(keys, counts)) == SumNat(Counts(prs, keyOf, keys))
  {
    if keys == [] {
    } else {
      SumOfBars(prs, keyOf, keys[1..], counts);
      assert BarsOf(keys, counts)[1..] == BarsOf(keys[1..], counts);
    }
  }

  /**
   * A bar for exactly the keys that occur, in order of key, with each key's count; the bars sum to the merged
   * count.
   */
  method Histogram<K(!new, ==)>(prs: seq<Pr>, keyOf: Pr -> K, leq: (K, K) -> bool) returns (bars: seq<Bar<K>>)
    requires TotalPreorder(leq)
    ensures forall i, j | 0 <= i < j < |bars| :: leq(bars[i].key, bars[j].key) && bars[i].key != bars[j].key
    ensures forall i | 0 <= i < |bars| :: bars[i].count == |Filter(prs, Grouped(keyOf)(bars[i].key))|
    ensures forall i | 0 <= i < |bars| :: Occurs(prs, keyOf, bars[i].key)
    ensures forall pr | pr in prs :: exists i :: 0 <= i < |bars| && bars[i].key == keyOf(pr)
    ensures SumBars(bars) == |prs|
  {
    var order, counts := CountBy(prs, keyOf);
    var keys := Sort(order, leq);
    SortSorts(order, leq);
    DistinctSame(order, keys);
    SameElements(order, keys);
    bars := BarsOf(keys, counts);
    BarsAre(prs, keyOf, keys, counts);
  }

  /** The bars of all the keys there are. */
  lemma BarsAre<K(!new)>(prs: seq<Pr>, keyOf: Pr -> K, keys: seq<K>, counts: map<K, nat>)
    requires Distinct(keys) && Counted(prs, keyOf, counts) && forall pr | pr in prs :: keyOf(pr) in keys
    requires forall k | k in keys :: Occurs(prs, keyOf, k)
    ensures var bars := BarsOf(keys, counts);
      && (forall i | 0 <= i < |bars| ::
           bars[i].count == |Filter(prs, Grouped(keyOf)(bars[i].key))| && Occurs(prs, keyOf, bars[i].key))
      && (forall pr | pr in prs :: exists i :: 0 <= i < |bars| && bars[i].key == keyOf(pr))
      && SumBars(bars) == |prs|
  {
    var bars := BarsOf(keys, counts);
    SumOfBars(prs, keyOf, keys, counts);
    GroupsSumToMerged(prs, keyOf, keys);
    forall pr | pr in prs
      ensures exists i :: 0 <= i < |bars| && bars[i].key == keyOf(pr)
    {
      var i :| 0 <= i < |keys| && keys[i] == keyOf(pr);
      assert bars[i].key == keyOf(pr);
    }
    forall i | 0 <= i < |bars|
      ensures bars[i].count == |Filter(prs, Grouped(keyOf)(bars[i].key))| && Occurs(prs, keyOf, bars[i].key)
    {
      assert bars[i].key == keys[i] && keys[i] in keys;
    }
  }

  lemma SameElements<T>(a: seq<T>, b: seq<T>)
    requires multiset(a) == multiset(b)
    ensures forall x :: x in a <==> x in b
  {
    forall x
      ensures x in a <==> x in b
    {
      assert x in a <==> x in multiset(a);
    }
  }

  function CommitsOf(): Pr -> nat { (pr: Pr) => CommitBucket(pr) }
  function Rising(): (nat, nat) -> bool { (a: nat, b: nat) => a <= b }

  function CommitLabel(commits: nat): string { if commits == 10 then "10+" else Decimal(commits) }

  /** The PRs a bar of that key is about. */
  function WithCommits(key: nat): Pr -> bool {
    (pr: Pr) => if key < 10 then pr.commitCount == key else pr.commitCount >= 10
  }

  lemma CommitBar(prs: seq<Pr>, key: nat)
    requires Occurs(prs, CommitsOf(), key)
    ensures key <= 10 && |Filter(prs, Grouped(CommitsOf())(key))| == |Filter(prs, WithCommits(key))| > 0
  {
    var pr :| pr in prs && CommitBucket(pr) == key;
    FilterSame(prs, Grouped(CommitsOf())(key), WithCommits(key));
    FilterMembers(prs, WithCommits(key));
    assert pr in Filter(prs, WithCommits(key));
  }

  /** PRs by number of commits, ten and more together. */
  method CommitsHistogram(prs: seq<Pr>) returns (bars: seq<Bar<nat>>, labels: seq<string>)
    ensures forall i, j | 0 <= i < j < |bars| :: bars[i].key < bars[j].key <= 10
    ensures forall i | 0 <= i < |bars| :: bars[i].count == |Filter(prs, WithCommits(bars[i].key))| > 0
    ensures SumBars(bars) == |prs|
    ensures |labels| == |bars| && forall i | 0 <= i < |bars| ::
      labels[i] == if bars[i].key == 10 then "10+" else Decimal(bars[i].key)
  {
    bars := Histogram(prs, CommitsOf(), Rising());
    CommitBars(prs, bars);
    labels := LabelsOf(bars);
  }

  function LabelsOf(bars: seq<Bar<nat>>): (labels: seq<string>)
    ensures |labels| == |bars| && forall i | 0 <= i < |bars| :: labels[i] == CommitLabel(bars[i].key)
  {
    seq(|bars|, i requires 0 <= i < |bars| => CommitLabel(bars[i].key))
  }

  lemma CommitBars(prs: seq<Pr>, bars: seq<Bar<nat>>)
    requires forall i, j | 0 <= i < j < |bars| :: Rising()(bars[i].key, bars[j].key) && bars[i].key != bars[j].key
    requires forall i | 0 <= i < |bars| :: Occurs(prs, CommitsOf(), bars[i].key)
    requires forall i | 0 <= i < |bars| :: bars[i].count == |Filter(prs, Grouped(CommitsOf())(bars[i].key))|
    ensures forall i | 0 <= i < |bars| ::
      bars[i].key <= 10 && bars[i].count == |Filter(prs, WithCommits(bars[i].key))| > 0
    ensures forall i, j | 0 <= i < j < |bars| :: bars[i].key < bars[j].key <= 10
  {
    forall i | 0 <= i < |bars|
      ensures bars[i].key <= 10 && bars[i].count == |Filter(prs, WithCommits(bars[i].key))| > 0
    {
      CommitBar(prs, bars[i].key);
    }
    forall i, j | 0 <= i < j < |bars|
      ensures bars[i].key < bars[j].key
    {
      assert Rising()(bars[i].key, bars[j].key);
    }
  }

  function AuthorOf(): Pr -> string { (pr: Pr) => pr.author }
  function WrittenBy(name: string): Pr -> bool { (pr: Pr) => pr.author == name }

  /** The merged column of the author table: exactly the authors there are, and together all merged PRs. */
  method MergedByAuthor(prs: seq<Pr>) returns (authors: seq<string>, merged: map<string, nat>)
    ensures Distinct(authors) && forall name :: name in authors <==> name in merged
    ensures forall name :: name in merged <==> Occurs(prs, AuthorOf(), name)
    ensures forall name :: name in merged <==> exists pr :: pr in prs && pr.author == name
    ensures forall name | name in merged :: merged[name] == |Filter(prs, WrittenBy(name))|
    ensures SumBars(BarsOf(authors, merged)) == |prs|
  {
    authors, merged := CountBy(prs, AuthorOf());
    forall name | name in merged
      ensures merged[name] == |Filter(prs, WrittenBy(name))|
    {
      FilterSame(prs, Grouped(AuthorOf())(name), WrittenBy(name));
    }
    SumOfBars(prs, AuthorOf(), authors, merged);
  }
}
