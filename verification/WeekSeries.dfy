/**
 * The weekly series of core/src/metrics.ts and core/src/telemetry.ts. The two copies of the loops
 * differ only in what a week adds up, so both are plans for `Build`.
 */
module WeekSeries {
  import opened Common
  import opened Sorting
  import opened Weeks

  /** How a series reads its events: the instant of each, the key of a week, and what a week adds up. */
  datatype Plan<!E, !B> = Plan(at: E -> int, keyOf: int -> string, empty: B, add: (B, E) -> B)

  /** Instants share a key exactly when they share a week. */
  ghost predicate KeysWeeks(keyOf: int -> string) {
    forall s, t :: keyOf(s) == keyOf(t) <==> WeekIndex(s) == WeekIndex(t)
  }

  /** A week of the series: its key, its Monday, and what it holds. */
  datatype Week<+B> = Week(key: string, start: int, tally: B)

  function Earliest<E>(events: seq<E>, at: E -> int): int
    requires events != []
  {
    if |events| == 1 then at(events[0]) else Min(at(events[0]), Earliest(events[1..], at))
  }

  function Latest<E>(events: seq<E>, at: E -> int): int
    requires events != []
  {
    if |events| == 1 then at(events[0]) else Max(at(events[0]), Latest(events[1..], at))
  }

  lemma {:induction false} EarliestAndLatest<E>(events: seq<E>, at: E -> int)
    requires events != []
    ensures forall e | e in events :: Earliest(events, at) <= at(e) <= Latest(events, at)
    ensures exists e :: e in events && at(e) == Earliest(events, at)
    ensures exists e :: e in events && at(e) == Latest(events, at)
  {
    assert events == [events[0]] + events[1..];
    assert events[0] in events;
    if |events| > 1 {
      EarliestAndLatest(events[1..], at);
    }
  }

  function First<E>(events: seq<E>, at: E -> int): int
    requires events != []
  {
    WeekIndex(Earliest(events, at))
  }

  function Last<E>(events: seq<E>, at: E -> int): int
    requires events != []
  {
    WeekIndex(Latest(events, at))
  }

  /** How many weeks the series spans. */
  function Span<E>(events: seq<E>, at: E -> int): (n: nat)
    requires events != []
    ensures n >= 1
  {
    EarliestAndLatest(events, at);
    assert events[0] in events;
    WeeksFollowTime(Earliest(events, at), Latest(events, at));
    Last(events, at) - First(events, at) + 1
  }

  lemma OwnWeek<E>(events: seq<E>, at: E -> int, e: E)
    requires e in events
    ensures First(events, at) <= WeekIndex(at(e)) <= Last(events, at)
  {
    EarliestAndLatest(events, at);
    WeeksFollowTime(Earliest(events, at), at(e));
    WeeksFollowTime(at(e), Latest(events, at));
  }

  lemma WeeksFollowTime(s: int, t: int)
    requires s <= t
    ensures WeekIndex(s) <= WeekIndex(t)
  {
  }

  // ----- What the loops build -----

  function InWeek<E>(at: E -> int, index: int): E -> bool { (e: E) => WeekIndex(at(e)) == index }

  function Fold<E, B>(items: seq<E>, empty: B, add: (B, E) -> B): B {
    if items == [] then empty else add(Fold(items[..|items| - 1], empty, add), items[|items| - 1])
  }

  function WeekOf<E, B>(p: Plan<E, B>, events: seq<E>, index: int): Week<B> {
    Week(p.keyOf(WeekTime(index)), WeekTime(index), Fold(Filter(events, InWeek(p.at, index)), p.empty, p.add))
  }

  /** `n` weeks in a row, each with its own events. */
  function Run<E, B>(p: Plan<E, B>, events: seq<E>, first: int, n: nat): (weeks: seq<Week<B>>)
    ensures |weeks| == n && forall k | 0 <= k < n :: weeks[k] == WeekOf(p, events, first + k)
  {
    if n == 0 then [] else Run(p, events, first, n - 1) + [WeekOf(p, events, first + n - 1)]
  }

  function ByKey<B>(): (Week<B>, Week<B>) -> bool { (a: Week<B>, b: Week<B>) => !Before(b.key, a.key) }

  function Series<E, B>(p: Plan<E, B>, events: seq<E>): seq<Week<B>> {
    if events == [] then [] else Sort(Run(p, events, First(events, p.at), Span(events, p.at)), ByKey())
  }

  // ----- The loops -----

  /** The Map of weeks, and its key order: from week `first`, each with the events so far. */
  ghost predicate Holds<E, B>(p: Plan<E, B>, events: seq<E>, first: int, order: seq<string>,
        weeks: map<string, Week<B>>)
  {
    forall k | 0 <= k < |order| ::
      order[k] == p.keyOf(WeekTime(first + k)) && order[k] in weeks && weeks[order[k]] == WeekOf(p, events, first + k)
  }

  lemma KeyPlace<E, B>(p: Plan<E, B>, first: int, k: int, instant: int)
    requires KeysWeeks(p.keyOf)
    ensures p.keyOf(WeekTime(first + k)) == p.keyOf(instant) <==> first + k == WeekIndex(instant)
  {
  }

  lemma NextKeyIsNew<E, B>(p: Plan<E, B>, first: int, order: seq<string>, weeks: map<string, Week<B>>)
    requires KeysWeeks(p.keyOf) && Holds(p, [], first, order, weeks)
    ensures p.keyOf(WeekTime(first + |order|)) !in order
  {
    WeekTimeIndex(first + |order|);
    forall j | 0 <= j < |order|
      ensures order[j] != p.keyOf(WeekTime(first + |order|))
    {
      KeyPlace(p, first, j, WeekTime(first + |order|));
    }
  }

  /** Every week from the earliest event's to the latest's, empty. */
  method Seed<E, B>(p: Plan<E, B>, events: seq<E>) returns (order: seq<string>, weeks: map<string, Week<B>>)
    requires KeysWeeks(p.keyOf) && events != []
    ensures |order| == Span(events, p.at) && Holds(p, [], First(events, p.at), order, weeks)
  {
    EarliestAndLatest(events, p.at);
    ghost var first := First(events, p.at);
    var cursor, last := WeekTime(WeekIndex(Earliest(events, p.at))), WeekTime(WeekIndex(Latest(events, p.at)));
    order, weeks := [], map[];
    while cursor <= last
      invariant cursor == WeekTime(first + |order|) && |order| <= Span(events, p.at)
      invariant Holds(p, [], first, order, weeks)
      decreases last - cursor
    {
      var key := p.keyOf(cursor);
      NextKeyIsNew(p, first, order, weeks);
      weeks := weeks[key := Week(key, cursor, p.empty)];
      order := order + [key];
      cursor := cursor + WEEK;
    }
  }

  /** Adding an event changes its own week and no other. */
  lemma EventAdded<E, B>(p: Plan<E, B>, events: seq<E>, e: E, index: int)
    ensures WeekOf(p, events + [e], index) ==
      var was := WeekOf(p, events, index);
      if WeekIndex(p.at(e)) == index then was.(tally := p.add(was.tally, e)) else was
  {
    var mine := Filter(events, InWeek(p.at, index));
    FilterAppend(events, e, InWeek(p.at, index));
    assert mine + [] == mine && (mine + [e])[..|mine|] == mine;
  }

  lemma AddedToItsWeek<E, B>(p: Plan<E, B>, events: seq<E>, first: int, order: seq<string>, weeks: map<string, Week<B>>,
        e: E)
    requires KeysWeeks(p.keyOf) && Holds(p, events, first, order, weeks) && first <=
      WeekIndex(p.at(e)) < first + |order|
    ensures var key := p.keyOf(p.at(e));
      && key in weeks
      && Holds(p, events + [e], first, order, weeks[key := weeks[key].(tally := p.add(weeks[key].tally, e))])
  {
    var key := p.keyOf(p.at(e));
    var k := WeekIndex(p.at(e)) - first;
    KeyPlace(p, first, k, p.at(e));
    assert order[k] == key && weeks[key] == WeekOf(p, events, first + k);
    ghost var after := weeks[key := weeks[key].(tally := p.add(weeks[key].tally, e))];
    forall j | 0 <= j < |order|
      ensures order[j] in after && after[order[j]] == WeekOf(p, events + [e], first + j)
    {
      assert order[j] == p.keyOf(WeekTime(first + j)) && weeks[order[j]] == WeekOf(p, events, first + j);
      KeyPlace(p, first, j, p.at(e));
      EventAdded(p, events, e, first + j);
    }
  }

  /** Every event finds its week seeded, so the late insert of the source has nothing to do. */
  method Build<E, B>(p: Plan<E, B>, events: seq<E>) returns (series: seq<Week<B>>)
    requires KeysWeeks(p.keyOf)
    ensures series == Series(p, events)
  {
    if events == [] {
      return [];
    }
    ghost var first, n := First(events, p.at), Span(events, p.at);
    var order, weeks := Seed(p, events);
    for j := 0 to |events|
      invariant |order| == n && Holds(p, events[..j], first, order, weeks)
    {
      var e := events[j];
      assert events[..j + 1] == events[..j] + [e];
      OwnWeek(events, p.at, e);
      AddedToItsWeek(p, events[..j], first, order, weeks, e);
      var key := p.keyOf(p.at(e));
      weeks := weeks[key := weeks[key].(tally := p.add(weeks[key].tally, e))];
    }
    assert events[..|events|] == events;
    var values := Values(order, weeks);
    assert values == Run(p, events, first, n);
    series := Sort(values, ByKey());
  }

  function Values<B>(order: seq<string>, weeks: map<string, Week<B>>): (values: seq<Week<B>>)
    requires forall k | 0 <= k < |order| :: order[k] in weeks
    ensures |values| == |order| && forall k | 0 <= k < |order| :: values[k] == weeks[order[k]]
  {
    seq(|order|, k requires 0 <= k < |order| => weeks[order[k]])
  }

  // ----- What the series says -----

  /** Over the weeks of these events, keys sort as time does. */
  ghost predicate KeysSort<E>(keyOf: int -> string, events: seq<E>, at: E -> int) {
    events != [] ==>
      forall i, j | First(events, at) <= i < j <= Last(events, at) :: !Before(keyOf(WeekTime(j)), keyOf(WeekTime(i)))
  }

  /** So the sort leaves the series gapless: every week from the first event's to the last's, seven days apart. */
  lemma SeriesIsGapless<E, B>(p: Plan<E, B>, events: seq<E>)
    requires events != [] && KeysSort(p.keyOf, events, p.at)
    ensures Series(p, events) == Run(p, events, First(events, p.at), Span(events, p.at))
  {
    SortOfOrdered(Run(p, events, First(events, p.at), Span(events, p.at)), ByKey());
  }

  /** A week holds its own events. */
  ghost predicate WeekHolds<E, B>(p: Plan<E, B>, w: Week<B>, events: seq<E>) {
    && WeekTime(WeekIndex(w.start)) == w.start
    && w.key == p.keyOf(w.start)
    && w.tally == Fold(Filter(events, InWeek(p.at, WeekIndex(w.start))), p.empty, p.add)
  }

  /** Consecutive Mondays. */
  predicate InStep<B>(weeks: seq<Week<B>>, first: int) {
    forall k | 0 <= k < |weeks| :: weeks[k].start == WeekTime(first + k)
  }

  predicate HasStart<B>(weeks: seq<Week<B>>, start: int) { exists k :: 0 <= k < |weeks| && weeks[k].start == start }

  predicate HasWeek<B>(weeks: seq<Week<B>>, instant: int) { HasStart(weeks, WeekTime(WeekIndex(instant))) }

  /** From the first event's Monday to the last's in steps of seven days; every event is in its own week. */
  ghost predicate Covers<E, B>(p: Plan<E, B>, weeks: seq<Week<B>>, events: seq<E>) {
    && (weeks == [] <==> events == [])
    && (events != [] ==> |weeks| == Span(events, p.at) && InStep(weeks, First(events, p.at)))
    && (forall k | 0 <= k < |weeks| :: WeekHolds(p, weeks[k], events))
    && (forall e | e in events :: HasWeek(weeks, p.at(e)))
  }

  lemma WeekOfHolds<E, B>(p: Plan<E, B>, events: seq<E>, index: int)
    ensures WeekHolds(p, WeekOf(p, events, index), events)
  {
  }

  lemma RunHasStart<E, B>(p: Plan<E, B>, events: seq<E>, first: int, n: nat, index: int)
    requires first <= index < first + n
    ensures HasStart(Run(p, events, first, n), WeekTime(index))
  {
    assert Run(p, events, first, n)[index - first] == WeekOf(p, events, index);
  }

  lemma EventHasItsWeek<E, B>(p: Plan<E, B>, events: seq<E>, e: E)
    requires e in events
    ensures HasWeek(Run(p, events, First(events, p.at), Span(events, p.at)), p.at(e))
  {
    OwnWeek(events, p.at, e);
    RunHasStart(p, events, First(events, p.at), Span(events, p.at), WeekIndex(p.at(e)));
  }

  lemma AllHold<E, B>(p: Plan<E, B>, events: seq<E>, first: int, n: nat)
    ensures forall k | 0 <= k < n :: WeekHolds(p, Run(p, events, first, n)[k], events)
  {
    forall k | 0 <= k < n
      ensures WeekHolds(p, Run(p, events, first, n)[k], events)
    {
      WeekOfHolds(p, events, first + k);
    }
  }

  lemma AllHaveWeeks<E, B>(p: Plan<E, B>, events: seq<E>)
    requires events != []
    ensures forall e | e in events :: HasWeek(Run(p, events, First(events, p.at), Span(events, p.at)), p.at(e))
  {
    forall e | e in events
      ensures HasWeek(Run(p, events, First(events, p.at), Span(events, p.at)), p.at(e))
    {
      EventHasItsWeek(p, events, e);
    }
  }

  lemma SeriesCovers<E, B>(p: Plan<E, B>, events: seq<E>)
    requires KeysSort(p.keyOf, events, p.at)
    ensures Covers(p, Series(p, events), events)
  {
    if events != [] {
      SeriesIsGapless(p, events);
      AllHold(p, events, First(events, p.at), Span(events, p.at));
      AllHaveWeeks(p, events);
      assert InStep(Series(p, events), First(events, p.at));
    }
  }

  function Indexes(first: int, n: nat): (ks: seq<int>)
    ensures |ks| == n && forall k | 0 <= k < n :: ks[k] == first + k
  {
    seq(n, k => first + k)
  }

  function WeekGroups<E>(at: E -> int): int -> E -> bool { (index: int) => InWeek(at, index) }

  function Never<E>(): E -> bool { (e: E) => false }

  /** Each event is in exactly one week. */
  lemma EachEventOnce<E(!new)>(events: seq<E>, at: E -> int)
    requires events != []
    ensures multiset(events) == multiset(Gather(events, WeekGroups(at), Indexes(First(events, at), Span(events, at))))
  {
    var indexes := Indexes(First(events, at), Span(events, at));
    forall e | e in events
      ensures InSome(WeekGroups(at), indexes, e)
    {
      OwnWeek(events, at, e);
      var index := WeekIndex(at(e));
      assert indexes[index - First(events, at)] == index && WeekGroups(at)(index)(e);
    }
    Partition(events, WeekGroups(at), indexes, Never());
    FilterNone(events, Never());
  }

  /** `figure` adds up `worth`. */
  ghost predicate AddsUp<E(!new), B(!new)>(p: Plan<E, B>, figure: B -> real, worth: E -> real) {
    figure(p.empty) == 0.0 && forall b, e :: figure(p.add(b, e)) == figure(b) + worth(e)
  }

  lemma {:induction false} FoldAddsUp<E(!new), B(!new)>(p: Plan<E, B>, items: seq<E>, figure: B -> real,
        worth: E -> real)
    requires AddsUp(p, figure, worth)
    ensures figure(Fold(items, p.empty, p.add)) == SumOf(items, worth)
  {
    if items == [] {
    } else {
      var front, last := items[..|items| - 1], items[|items| - 1];
      FoldAddsUp(p, front, figure, worth);
      SumOfJoin(front, [last], worth);
      assert items == front + [last] && [last][1..] == [];
    }
  }

  function WeekFigure<B>(figure: B -> real): Week<B> -> real { (w: Week<B>) => figure(w.tally) }

  /** The events of those weeks, week by week. */
  function WeekByWeek<E>(events: seq<E>, at: E -> int, first: int, n: nat): seq<E> {
    if n == 0 then [] else WeekByWeek(events, at, first, n - 1) + Filter(events, InWeek(at, first + n - 1))
  }

  lemma IndexesGrow(first: int, n: nat)
    requires n > 0
    ensures Indexes(first, n) == Indexes(first, n - 1) + [first + n - 1]
  {
  }

  lemma {:induction false} WeekByWeekGathers<E>(events: seq<E>, at: E -> int, first: int, n: nat)
    ensures WeekByWeek(events, at, first, n) == Gather(events, WeekGroups(at), Indexes(first, n))
  {
    if n == 0 {
    } else {
      WeekByWeekGathers(events, at, first, n - 1);
      IndexesGrow(first, n);
      GatherJoin(events, WeekGroups(at), Indexes(first, n - 1), first + n - 1);
    }
  }

  lemma OneWeekAddsUp<E(!new), B(!new)>(p: Plan<E, B>, events: seq<E>, figure: B -> real, worth: E -> real, index: int)
    requires AddsUp(p, figure, worth)
    ensures SumOf([WeekOf(p, events, index)], WeekFigure(figure)) == SumOf(Filter(events, InWeek(p.at, index)), worth)
  {
    assert [WeekOf(p, events, index)][1..] == [];
    FoldAddsUp(p, Filter(events, InWeek(p.at, index)), figure, worth);
  }

  lemma {:induction false} RunAddsUp<E(!new), B(!new)>(p: Plan<E, B>, events: seq<E>, figure: B -> real,
        worth: E -> real, first: int, n: nat)
    requires AddsUp(p, figure, worth)
    ensures SumOf(Run(p, events, first, n), WeekFigure(figure)) == SumOf(WeekByWeek(events, p.at, first, n), worth)
  {
    if n == 0 {
    } else {
      var index := first + n - 1;
      RunAddsUp(p, events, figure, worth, first, n - 1);
      OneWeekAddsUp(p, events, figure, worth, index);
      SumOfJoin(Run(p, events, first, n - 1), [WeekOf(p, events, index)], WeekFigure(figure));
      SumOfJoin(WeekByWeek(events, p.at, first, n - 1), Filter(events, InWeek(p.at, index)), worth);
    }
  }

  lemma {:induction false} GatherJoin<T, K>(items: seq<T>, member: K -> T -> bool, groups: seq<K>, last: K)
    ensures Gather(items, member, groups + [last]) == Gather(items, member, groups) + Filter(items, member(last))
  {
    if groups == [] {
      assert [last][1..] == [];
    } else {
      GatherJoin(items, member, groups[1..], last);
      var first, rest, end :=
        Filter(items, member(groups[0])), Gather(items, member, groups[1..]), Filter(items, member(last));
      assert (groups + [last])[0] == groups[0] && (groups + [last])[1..] == groups[1..] + [last];
      assert first + (rest + end) == first + rest + end;
    }
  }

  /** A figure of the whole series adds up to that figure of the events. */
  lemma SeriesAddsUp<E(!new), B(!new)>(p: Plan<E, B>, events: seq<E>, figure: B -> real, worth: E -> real)
    requires KeysSort(p.keyOf, events, p.at) && AddsUp(p, figure, worth)
    ensures SumOf(Series(p, events), WeekFigure(figure)) == SumOf(events, worth)
  {
    if events != [] {
      var first, n := First(events, p.at), Span(events, p.at);
      SeriesIsGapless(p, events);
      EachEventOnce(events, p.at);
      RunAddsUp(p, events, figure, worth, first, n);
      WeekByWeekGathers(events, p.at, first, n);
      SumOfSame(events, Gather(events, WeekGroups(p.at), Indexes(first, n)), worth);
    }
  }
}
