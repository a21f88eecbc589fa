/** No work is lost and none is counted twice by the attribution. */
module Conservation {
  import opened Common
  import opened Sorting
  import opened Attribution

  predicate DistinctIds(sessions: seq<Session>) {
    forall i, j | 0 <= i < j < |sessions| :: sessions[i].id != sessions[j].id
  }

  predicate DistinctInputs(q: Query) { Distinct(PrKeys(q.prs)) && DistinctIds(q.sessions) }

  // ----- Where each session and split lands -----

  function NamesOne(q: Query): Session -> bool { (s: Session) => |LinkSet(q, s.id)| == 1 }
  function SessionGroups(q: Query): string -> Session -> bool { (key: string) => NamesOnly(q, key) }
  function SplitGroups(q: Query): string -> Split -> bool { (key: string) => OwnedBy(q.prs, key) }
  function NoSession(): Session -> bool { (s: Session) => false }

  function SinglyLinked(q: Query): seq<Session> { Filter(ScopedSessions(q), NamesOne(q)) }

  /** The sessions, and the splits, behind the rows of these PRs. */
  function RowSessions(q: Query, prs: seq<PrInfo>): seq<Session> {
    if prs == [] then [] else SessionsOf(q, KeyOf(prs[0])) + RowSessions(q, prs[1..])
  }
  function RowSplits(q: Query, prs: seq<PrInfo>): seq<Split> {
    if prs == [] then [] else SplitsOf(q, KeyOf(prs[0])) + RowSplits(q, prs[1..])
  }

  lemma {:induction false} RowsGather(q: Query, prs: seq<PrInfo>)
    ensures RowSessions(q, prs) == Gather(Singles(q), SessionGroups(q), PrKeys(prs))
    ensures RowSplits(q, prs) == Gather(UnlinkedSplits(q), SplitGroups(q), PrKeys(prs))
  {
    if prs == [] {
    } else {
      RowsGather(q, prs[1..]);
    }
  }

  lemma {:induction false} FilterDistinct(sessions: seq<Session>, p: Session -> bool)
    requires DistinctIds(sessions)
    ensures DistinctIds(Filter(sessions, p)) && Distinct(Filter(sessions, p))
  {
    if sessions == [] {
    } else {
      var rest := Filter(sessions[1..], p);
      FilterDistinct(sessions[1..], p);
      FilterMembers(sessions[1..], p);
      forall j | 0 <= j < |rest|
        ensures rest[j].id != sessions[0].id
      {
        assert rest[j] in sessions[1..];
      }
    }
  }

  lemma PickSingleApart(q: Query)
    ensures PicksApart(PickSingle(q))
  {
    forall x, y | PickSingle(q)(x).Some? && PickSingle(q)(x) == PickSingle(q)(y)
      ensures x == y
    {
      assert PickSingle(q)(x).value.id == x && PickSingle(q)(y).value.id == y;
    }
  }

  lemma SinglesMember(q: Query, s: Session)
    ensures s in Singles(q) <==> s.id in LinkOrder(q, q.links) && PickSingle(q)(s.id) == Some(s)
    ensures Distinct(Singles(q))
  {
    PickSingleApart(q);
    LinkOrderIs(q, q.links);
    PickedMembers(LinkOrder(q, q.links), PickSingle(q));
    if s in Singles(q) {
      var id :| id in LinkOrder(q, q.links) && PickSingle(q)(id) == Some(s);
      assert s.id == id;
    }
  }

  /** With distinct ids a scoped session is the one its id finds. */
  lemma ScopedById(q: Query, s: Session)
    requires DistinctInputs(q)
    ensures s in ScopedSessions(q) <==> Scoped(q, s.id) && ById(ScopedSessions(q))[s.id] == s
  {
    var scoped := ScopedSessions(q);
    FilterDistinct(q.sessions, InTheScope(q));
    if s in scoped {
      var found := ById(scoped)[s.id];
      var i :| 0 <= i < |scoped| && scoped[i] == s;
      var j :| 0 <= j < |scoped| && scoped[j] == found;
      assert i == j;
    }
  }

  lemma SinglyLinkedMember(q: Query, s: Session)
    requires DistinctInputs(q)
    ensures s in SinglyLinked(q) <==> s in Singles(q)
  {
    ScopedById(q, s);
    FilterMembers(ScopedSessions(q), NamesOne(q));
    SinglesMember(q, s);
    LinkedNamesSome(q, s.id);
  }

  /** Following the links finds exactly the scoped sessions that name one PR, each once. */
  lemma SinglesAreSinglyLinked(q: Query)
    requires DistinctInputs(q)
    ensures multiset(Singles(q)) == multiset(SinglyLinked(q))
  {
    FilterDistinct(q.sessions, InTheScope(q));
    FilterDistinct(ScopedSessions(q), NamesOne(q));
    PickSingleApart(q);
    LinkOrderIs(q, q.links);
    PickedMembers(LinkOrder(q, q.links), PickSingle(q));
    forall s
      ensures s in Singles(q) <==> s in SinglyLinked(q)
    {
      SinglyLinkedMember(q, s);
    }
    SameMembers(Singles(q), SinglyLinked(q));
  }

  lemma SingleHasAGroup(q: Query, s: Session)
    requires s in Singles(q)
    ensures InSome(SessionGroups(q), PrKeys(q.prs), s)
  {
    SinglesMember(q, s);
    LinkedNamesSome(q, s.id);
    var named := LinkSet(q, s.id);
    var key :| key in named;
    assert |named - {key}| == 0;
    assert named == {key};
    assert SessionGroups(q)(key)(s);
  }

  lemma SessionGroupsExclude(q: Query)
    ensures Exclusive(SessionGroups(q))
  {
  }

  /** Each singly linked session lands in the row of exactly one PR. */
  lemma SessionsLandOnce(q: Query)
    requires DistinctInputs(q)
    ensures multiset(SinglyLinked(q)) == multiset(RowSessions(q, q.prs))
  {
    SinglesAreSinglyLinked(q);
    RowsGather(q, q.prs);
    forall s | s in Singles(q)
      ensures InSome(SessionGroups(q), PrKeys(q.prs), s)
    {
      SingleHasAGroup(q, s);
    }
    SessionGroupsExclude(q);
    Partition(Singles(q), SessionGroups(q), PrKeys(q.prs), NoSession());
    FilterNone(Singles(q), NoSession());
  }

  /** Each unlinked split lands in the row of exactly one PR or among the unmatched. */
  lemma SplitsLandOnce(q: Query)
    requires Distinct(PrKeys(q.prs))
    ensures multiset(UnlinkedSplits(q)) == multiset(RowSplits(q, q.prs)) + multiset(Orphans(q))
  {
    RowsGather(q, q.prs);
    forall s | s in UnlinkedSplits(q)
      ensures OwnerLess(q.prs)(s) <==> !InSome(SplitGroups(q), PrKeys(q.prs), s)
    {
      if Owner(q.prs, s).Some? {
        OwnerIsAPr(q.prs, s);
        var i :| 0 <= i < |q.prs| && q.prs[i] == Owner(q.prs, s).value;
        assert PrKeys(q.prs)[i] == KeyOf(q.prs[i]);
        assert SplitGroups(q)(KeyOf(q.prs[i]))(s);
      }
    }
    Partition(UnlinkedSplits(q), SplitGroups(q), PrKeys(q.prs), OwnerLess(q.prs));
  }

  // ----- The figures -----

  function SessionWorth(f: Figure): Session -> real { (s: Session) => OrZero(Get(s.figures, f)) }
  function SplitWorth(f: Figure): Split -> real { (s: Split) => OrZero(Get(s.figures, f)) }

  function Work(sessions: seq<Session>, splits: seq<Split>, f: Figure): real {
    SumOf(sessions, SessionWorth(f)) + SumOf(splits, SplitWorth(f))
  }

  /** What the rows show. */
  function Shown(q: Query, prs: seq<PrInfo>, f: Figure): real {
    if prs == [] then 0.0 else OrZero(Get(RowOf(q, prs[0]).figures, f)) + Shown(q, prs[1..], f)
  }

  /** What went to rows that are withheld as shared. */
  function Withheld(q: Query, prs: seq<PrInfo>, f: Figure): real {
    if prs == [] then 0.0
    else
      var key := KeyOf(prs[0]);
      (if RowOf(q, prs[0]).attribution == Shared then Work(SessionsOf(q, key), SplitsOf(q, key), f) else 0.0)
      + Withheld(q, prs[1..], f)
  }

  lemma {:induction false} TotalJoin(a: seq<Option<real>>, b: seq<Option<real>>)
    ensures Total(a + b) == Total(a) + Total(b)
  {
    if b == [] {
      assert a + b == a;
    } else {
      TotalJoin(a, b[..|b| - 1]);
      assert (a + b)[..|a + b| - 1] == a + b[..|b| - 1];
    }
  }

  lemma TotalOfOne(v: Option<real>)
    ensures Total([v]) == OrZero(v)
  {
    assert [v][..0] == [];
  }

  lemma FirstSessionColumn(sessions: seq<Session>, f: Figure)
    requires sessions != []
    ensures Column(Parts(sessions, []), f) == [Get(sessions[0].figures, f)] + Column(Parts(sessions[1..], []), f)
  {
  }

  lemma FirstSplitColumn(splits: seq<Split>, f: Figure)
    requires splits != []
    ensures Column(Parts([], splits), f) == [Get(splits[0].figures, f)] + Column(Parts([], splits[1..]), f)
  {
  }

  lemma {:induction false} TotalOfSessions(sessions: seq<Session>, f: Figure)
    ensures Total(Column(Parts(sessions, []), f)) == SumOf(sessions, SessionWorth(f))
  {
    if sessions == [] {
    } else {
      TotalOfSessions(sessions[1..], f);
      FirstSessionColumn(sessions, f);
      TotalOfOne(Get(sessions[0].figures, f));
      TotalJoin([Get(sessions[0].figures, f)], Column(Parts(sessions[1..], []), f));
    }
  }

  lemma {:induction false} TotalOfSplits(splits: seq<Split>, f: Figure)
    ensures Total(Column(Parts([], splits), f)) == SumOf(splits, SplitWorth(f))
  {
    if splits == [] {
    } else {
      TotalOfSplits(splits[1..], f);
      FirstSplitColumn(splits, f);
      TotalOfOne(Get(splits[0].figures, f));
      TotalJoin([Get(splits[0].figures, f)], Column(Parts([], splits[1..]), f));
    }
  }

  lemma TotalIsWork(sessions: seq<Session>, splits: seq<Split>, f: Figure)
    ensures Total(Column(Parts(sessions, splits), f)) == Work(sessions, splits, f)
  {
    TotalOfSessions(sessions, f);
    TotalOfSplits(splits, f);
    TotalJoin(Column(Parts(sessions, []), f), Column(Parts([], splits), f));
    ColumnsJoin(sessions, splits, f);
  }

  lemma ColumnsJoin(sessions: seq<Session>, splits: seq<Split>, f: Figure)
    ensures Column(Parts(sessions, splits), f) == Column(Parts(sessions, []), f) + Column(Parts([], splits), f)
  {
  }

  lemma GetSumAll(parts: seq<Figures>, f: Figure)
    ensures Get(SumAll(parts), f) == Sum(Column(parts, f))
  {
  }

  lemma {:induction false} NothingMeasured(values: seq<Option<real>>)
    requires forall v | v in values :: v.None?
    ensures Total(values) == 0.0
  {
    if values == [] {
    } else {
      assert values[|values| - 1] in values;
      NothingMeasured(values[..|values| - 1]);
    }
  }

  predicate SessionMeasured(sessions: seq<Session>, f: Figure) { exists s :: s in sessions && Get(s.figures, f).Some? }
  predicate SplitMeasured(splits: seq<Split>, f: Figure) { exists s :: s in splits && Get(s.figures, f).Some? }

  /** A row that is not withheld shows the whole of its work, and null exactly when no contributor was measured. */
  lemma RowShowsItsWork(q: Query, pr: PrInfo, f: Figure)
    requires RowOf(q, pr).attribution != Shared
    ensures OrZero(Get(RowOf(q, pr).figures, f)) == Work(SessionsOf(q, KeyOf(pr)), SplitsOf(q, KeyOf(pr)), f)
    ensures Get(RowOf(q, pr).figures, f).Some? <==>
      SessionMeasured(SessionsOf(q, KeyOf(pr)), f) || SplitMeasured(SplitsOf(q, KeyOf(pr)), f)
  {
    var sessions, splits := SessionsOf(q, KeyOf(pr)), SplitsOf(q, KeyOf(pr));
    var parts := Parts(sessions, splits);
    var values := Column(parts, f);
    GetSumAll(parts, f);
    TotalIsWork(sessions, splits, f);
    if forall v | v in values :: v.None? {
      NothingMeasured(values);
    }
    MeasuredColumn(sessions, splits, f);
  }

  lemma MeasuredColumn(sessions: seq<Session>, splits: seq<Split>, f: Figure)
    ensures var values := Column(Parts(sessions, splits), f);
      (exists v :: v in values && v.Some?) <==> SessionMeasured(sessions, f) || SplitMeasured(splits, f)
  {
    var values := Column(Parts(sessions, splits), f);
    if v :| v in values && v.Some? {
      var i :| 0 <= i < |values| && values[i] == v;
      assert if i < |sessions| then sessions[i] in sessions else splits[i - |sessions|] in splits;
    }
    if s :| s in sessions && Get(s.figures, f).Some? {
      var i :| 0 <= i < |sessions| && sessions[i] == s;
      assert values[i] in values;
    }
    if s :| s in splits && Get(s.figures, f).Some? {
      var i :| 0 <= i < |splits| && splits[i] == s;
      assert values[|sessions| + i] in values;
    }
  }

  lemma NothingInUnmeasured(f: Figure)
    ensures Get(UNMEASURED, f) == None
  {
  }

  lemma ShareOrNothing(pr: PrInfo, ambiguous: bool, sessions: seq<Session>, splits: seq<Split>)
    ensures var row := RowFrom(pr, ambiguous, sessions, splits);
      row.attribution.Shared? || row.attribution.Nothing? ==> row.figures == UNMEASURED
  {
  }

  lemma WithheldShowsNothing(q: Query, pr: PrInfo, f: Figure)
    requires RowOf(q, pr).attribution in {Shared, Nothing}
    ensures Get(RowOf(q, pr).figures, f) == None
  {
    NothingInUnmeasured(f);
    ShareOrNothing(pr, Ambiguous(q, KeyOf(pr)), SessionsOf(q, KeyOf(pr)), SplitsOf(q, KeyOf(pr)));
  }

  lemma {:induction false} RowsHoldTheirWork(q: Query, prs: seq<PrInfo>, f: Figure)
    ensures Shown(q, prs, f) + Withheld(q, prs, f) == Work(RowSessions(q, prs), RowSplits(q, prs), f)
  {
    if prs == [] {
    } else {
      RowsHoldTheirWork(q, prs[1..], f);
      var key := KeyOf(prs[0]);
      SumOfJoin(SessionsOf(q, key), RowSessions(q, prs[1..]), SessionWorth(f));
      SumOfJoin(SplitsOf(q, key), RowSplits(q, prs[1..]), SplitWorth(f));
      if RowOf(q, prs[0]).attribution == Shared {
        WithheldShowsNothing(q, prs[0], f);
      } else {
        RowShowsItsWork(q, prs[0], f);
      }
    }
  }

  /**
   * Conservation: for every figure, what the rows show, what is withheld as shared and what is
   * unmatched add up to the singly linked sessions and the unlinked splits that came in.
   */
  lemma AttributionConservesWork(q: Query, f: Figure)
    requires DistinctInputs(q)
    ensures Work(SinglyLinked(q), UnlinkedSplits(q), f) ==
      Shown(q, q.prs, f) + Withheld(q, q.prs, f) + Work([], Orphans(q), f)
  {
    SessionsLandOnce(q);
    SplitsLandOnce(q);
    SumOfSame(SinglyLinked(q), RowSessions(q, q.prs), SessionWorth(f));
    SumOfSame(UnlinkedSplits(q), RowSplits(q, q.prs) + Orphans(q), SplitWorth(f));
    SumOfJoin(RowSplits(q, q.prs), Orphans(q), SplitWorth(f));
    RowsHoldTheirWork(q, q.prs, f);
  }
}
