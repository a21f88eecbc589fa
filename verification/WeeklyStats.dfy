/** The two series: merges of core/src/metrics.ts, and sessions of core/src/telemetry.ts. */
module WeeklyStats {
  import opened Common
  import opened Sorting
  import opened Weeks
  import opened WeekSeries
  import opened Percentile
  import opened Attribution

  function Keying(): int -> string { (instant: int) => IsoWeekKey(instant) }

  lemma KeyingIsByWeek()
    ensures KeysWeeks(Keying())
  {
    forall s, t
      ensures Keying()(s) == Keying()(t) <==> WeekIndex(s) == WeekIndex(t)
    {
      KeyNamesIndex(s, t);
    }
  }

  ghost predicate FourDigitEvents<E>(events: seq<E>, at: E -> int) {
    forall e | e in events :: FourDigitYear(DayOf(at(e)))
  }

  lemma KeyingSorts<E>(events: seq<E>, at: E -> int)
    requires FourDigitEvents(events, at)
    ensures KeysSort(Keying(), events, at)
  {
    if events != [] {
      EarliestAndLatest(events, at);
      var a, b := Earliest(events, at), Latest(events, at);
      WeekYearIsFourDigits(DayOf(a));
      WeekYearIsFourDigits(DayOf(b));
      forall i, j | First(events, at) <= i < j <= Last(events, at)
        ensures !Before(Keying()(WeekTime(j)), Keying()(WeekTime(i)))
      {
        WeekTimeIndex(i);
        WeekTimeIndex(j);
        FourDigitBetween(a, WeekTime(i), b);
        FourDigitBetween(a, WeekTime(j), b);
        KeysFollowIndex(WeekTime(j), WeekTime(i));
      }
    }
  }

  /** Any series keyed by ISO week covers its weeks. */
  lemma IsoSeriesCovers<E, B>(p: Plan<E, B>, events: seq<E>)
    requires p.keyOf == Keying() && FourDigitEvents(events, p.at)
    ensures Covers(p, Series(p, events), events)
  {
    KeyingSorts(events, p.at);
    SeriesCovers(p, events);
  }

  // ----- Merges -----

  datatype Merge = Merge(at: int, size: real, cycle: real, resolved: real, outdated: real, live: real)
  datatype MergeTally = MergeTally(merges: nat, loc: real, cycles: seq<real>, resolved: real, outdated: real,
      live: real)
  datatype MergePoint = MergePoint(
    week: string, start: int, merges: nat, loc: real, cycleP50: Option<real>, resolved: real, outdated: real,
        live: real,
    partial: bool)

  function AddMerge(t: MergeTally, m: Merge): MergeTally {
    MergeTally(t.merges + 1, t.loc + m.size, t.cycles + [m.cycle],
               t.resolved + m.resolved, t.outdated + m.outdated, t.live + m.live)
  }

  function MergedAt(): Merge -> int { (m: Merge) => m.at }

  function MergePlan(): Plan<Merge, MergeTally> {
    Plan(MergedAt(), Keying(), MergeTally(0, 0.0, [], 0.0, 0.0, 0.0), (t: MergeTally, m: Merge) => AddMerge(t, m))
  }

  function MergePointOf(w: Week<MergeTally>, now: int): MergePoint {
    var t := w.tally;
    MergePoint(w.key, w.start, t.merges, t.loc, Median(t.cycles), t.resolved, t.outdated, t.live, w.key ==
      IsoWeekKey(now))
  }

  function MergePoints(weeks: seq<Week<MergeTally>>, now: int): seq<MergePoint> {
    seq(|weeks|, k requires 0 <= k < |weeks| => MergePointOf(weeks[k], now))
  }

  method WeeklyMerges(merged: seq<Merge>, now: int) returns (points: seq<MergePoint>)
    ensures points == MergePoints(Series(MergePlan(), merged), now)
  {
    KeyingIsByWeek();
    var weeks := Build(MergePlan(), merged);
    points := MergePoints(weeks, now);
  }

  function CountMerges(): MergeTally -> real { (t: MergeTally) => t.merges as real }
  function Loc(): MergeTally -> real { (t: MergeTally) => t.loc }
  function Resolved(): MergeTally -> real { (t: MergeTally) => t.resolved }
  function One<E>(): E -> real { (e: E) => 1.0 }
  function Size(): Merge -> real { (m: Merge) => m.size }
  function ResolvedThreads(): Merge -> real { (m: Merge) => m.resolved }
  function Outdated(): MergeTally -> real { (t: MergeTally) => t.outdated }
  function OutdatedThreads(): Merge -> real { (m: Merge) => m.outdated }
  function Live(): MergeTally -> real { (t: MergeTally) => t.live }
  function LiveThreads(): Merge -> real { (m: Merge) => m.live }

  lemma {:induction false} SumOfOnes<E>(events: seq<E>)
    ensures SumOf(events, One()) == |events| as real
  {
    if events == [] {
    } else {
      SumOfOnes(events[1..]);
    }
  }

  lemma MergesAddUp()
    ensures AddsUp(MergePlan(), CountMerges(), One()) && AddsUp(MergePlan(), Loc(), Size())
    ensures AddsUp(MergePlan(), Resolved(), ResolvedThreads())
    ensures AddsUp(MergePlan(), Outdated(), OutdatedThreads()) && AddsUp(MergePlan(), Live(), LiveThreads())
  {
  }

  /** The merge series covers every week, and its counts, sizes and threads of each fate add up to the input's. */
  lemma MergeSeriesIsWhole(merged: seq<Merge>)
    requires FourDigitEvents(merged, MergedAt())
    ensures var p := MergePlan(); var weeks := Series(p, merged);
      && Covers(p, weeks, merged)
      && SumOf(weeks, WeekFigure(CountMerges())) == |merged| as real
      && SumOf(weeks, WeekFigure(Loc())) == SumOf(merged, Size())
      && SumOf(weeks, WeekFigure(Resolved())) == SumOf(merged, ResolvedThreads())
      && SumOf(weeks, WeekFigure(Outdated())) == SumOf(merged, OutdatedThreads())
      && SumOf(weeks, WeekFigure(Live())) == SumOf(merged, LiveThreads())
  {
    var p := MergePlan();
    MergesAddUp();
    IsoSeriesCovers(p, merged);
    KeyingSorts(merged, p.at);
    SeriesAddsUp(p, merged, CountMerges(), One());
    SeriesAddsUp(p, merged, Loc(), Size());
    SeriesAddsUp(p, merged, Resolved(), ResolvedThreads());
    SeriesAddsUp(p, merged, Outdated(), OutdatedThreads());
    SeriesAddsUp(p, merged, Live(), LiveThreads());
    SumOfOnes(merged);
  }

  function Cycle(): Merge -> real { (m: Merge) => m.cycle }

  lemma {:induction false} FoldOfMerges(merged: seq<Merge>)
    ensures var t := Fold(merged, MergePlan().empty, MergePlan().add);
      t.merges == |merged| && t.cycles == Mapped(merged, Cycle())
  {
    if merged == [] {
    } else {
      FoldOfMerges(merged[..|merged| - 1]);
      assert Mapped(merged, Cycle()) == Mapped(merged[..|merged| - 1], Cycle()) + [Cycle()(merged[|merged| - 1])];
    }
  }

  lemma SameWeekStart(start: int, now: int)
    requires WeekTime(WeekIndex(start)) == start
    ensures IsoWeekKey(start) == IsoWeekKey(now) <==> start == WeekTime(WeekIndex(now))
  {
    KeyNamesIndex(start, now);
    WeekTimeIndex(WeekIndex(now));
  }

  /** A week's median is over the cycles of exactly the PRs merged in it, and only the current week is partial. */
  lemma WeekMedian(merged: seq<Merge>, now: int, k: nat)
    requires FourDigitEvents(merged, MergedAt()) && k < |Series(MergePlan(), merged)|
    ensures var point := MergePointOf(Series(MergePlan(), merged)[k], now);
      var mine := Filter(merged, InWeek(MergedAt(), WeekIndex(point.start)));
      && point.merges == |mine| && point.cycleP50 == Median(Mapped(mine, Cycle()))
      && (point.partial <==> point.start == WeekTime(WeekIndex(now)))
  {
    var p := MergePlan();
    IsoSeriesCovers(p, merged);
    var w := Series(p, merged)[k];
    assert WeekHolds(p, w, merged);
    FoldOfMerges(Filter(merged, InWeek(MergedAt(), WeekIndex(w.start))));
    SameWeekStart(w.start, now);
  }

  /** The other figures of a week are those of the PRs merged in it, too. */
  lemma WeekFigures(merged: seq<Merge>, now: int, k: nat)
    requires FourDigitEvents(merged, MergedAt()) && k < |Series(MergePlan(), merged)|
    ensures var point := MergePointOf(Series(MergePlan(), merged)[k], now);
      var mine := Filter(merged, InWeek(MergedAt(), WeekIndex(point.start)));
      && point.week == IsoWeekKey(point.start)
      && point.loc == SumOf(mine, Size()) && point.resolved == SumOf(mine, ResolvedThreads())
      && point.outdated == SumOf(mine, OutdatedThreads()) && point.live == SumOf(mine, LiveThreads())
  {
    var p := MergePlan();
    IsoSeriesCovers(p, merged);
    var w := Series(p, merged)[k];
    assert WeekHolds(p, w, merged);
    FiguresOfMerges(Filter(merged, InWeek(MergedAt(), WeekIndex(w.start))));
  }

  lemma FiguresOfMerges(merged: seq<Merge>)
    ensures var t := Fold(merged, MergePlan().empty, MergePlan().add);
      && t.loc == SumOf(merged, Size()) && t.resolved == SumOf(merged, ResolvedThreads())
      && t.outdated == SumOf(merged, OutdatedThreads()) && t.live == SumOf(merged, LiveThreads())
  {
    MergesAddUp();
    FoldAddsUp(MergePlan(), merged, Loc(), Size());
    FoldAddsUp(MergePlan(), merged, Resolved(), ResolvedThreads());
    FoldAddsUp(MergePlan(), merged, Outdated(), OutdatedThreads());
    FoldAddsUp(MergePlan(), merged, Live(), LiveThreads());
  }

  // ----- Sessions -----

  datatype SessionTally = SessionTally(sessions: nat, members: seq<Session>, added: real, removed: real)
  datatype SessionPoint = SessionPoint(
    week: string, start: int, sessions: nat, tokens: Figures, added: real, removed: real, partial: bool)

  function AddSession(t: SessionTally, s: Session): SessionTally {
    SessionTally(t.sessions + 1, t.members + [s], t.added + OrZero(s.figures.linesAdded),
        t.removed + OrZero(s.figures.linesRemoved))
  }

  function SeenAt(): Session -> int { (s: Session) => s.firstSeen }

  function SessionPlan(): Plan<Session, SessionTally> {
    Plan(SeenAt(), Keying(), SessionTally(0, [], 0.0, 0.0), (t: SessionTally, s: Session) => AddSession(t, s))
  }

  function SessionPointOf(w: Week<SessionTally>, now: int): SessionPoint {
    var t := w.tally;
    SessionPoint(w.key, w.start, t.sessions, SumAll(Parts(t.members, [])), t.added, t.removed, w.key == IsoWeekKey(now))
  }

  function SessionPoints(weeks: seq<Week<SessionTally>>, now: int): seq<SessionPoint> {
    seq(|weeks|, k requires 0 <= k < |weeks| => SessionPointOf(weeks[k], now))
  }

  method WeeklySessions(sessions: seq<Session>, now: int) returns (points: seq<SessionPoint>)
    ensures points == SessionPoints(Series(SessionPlan(), sessions), now)
  {
    KeyingIsByWeek();
    var weeks := Build(SessionPlan(), sessions);
    points := SessionPoints(weeks, now);
  }

  function CountSessions(): SessionTally -> real { (t: SessionTally) => t.sessions as real }
  function Added(): SessionTally -> real { (t: SessionTally) => t.added }
  function Removed(): SessionTally -> real { (t: SessionTally) => t.removed }
  function LinesIn(): Session -> real { (s: Session) => OrZero(s.figures.linesAdded) }
  function LinesOut(): Session -> real { (s: Session) => OrZero(s.figures.linesRemoved) }

  lemma SessionsAddUp()
    ensures AddsUp(SessionPlan(), CountSessions(), One()) && AddsUp(SessionPlan(), Added(), LinesIn())
    ensures AddsUp(SessionPlan(), Removed(), LinesOut())
  {
  }

  /** The session series covers every week, and its counts and lines add up to the input's. */
  lemma SessionSeriesIsWhole(sessions: seq<Session>)
    requires FourDigitEvents(sessions, SeenAt())
    ensures var p := SessionPlan(); var weeks := Series(p, sessions);
      && Covers(p, weeks, sessions)
      && SumOf(weeks, WeekFigure(CountSessions())) == |sessions| as real
      && SumOf(weeks, WeekFigure(Added())) == SumOf(sessions, LinesIn())
      && SumOf(weeks, WeekFigure(Removed())) == SumOf(sessions, LinesOut())
  {
    var p := SessionPlan();
    SessionsAddUp();
    IsoSeriesCovers(p, sessions);
    KeyingSorts(sessions, p.at);
    SeriesAddsUp(p, sessions, CountSessions(), One());
    SeriesAddsUp(p, sessions, Added(), LinesIn());
    SeriesAddsUp(p, sessions, Removed(), LinesOut());
    SumOfOnes(sessions);
  }

  lemma {:induction false} FoldOfSessions(sessions: seq<Session>)
    ensures var t := Fold(sessions, SessionPlan().empty, SessionPlan().add);
      t.sessions == |sessions| && t.members == sessions
  {
    if sessions == [] {
    } else {
      FoldOfSessions(sessions[..|sessions| - 1]);
    }
  }

  /** A week shows the sessions first seen in it: how many, their tokens, their lines; the current week is partial. */
  lemma WeekOfSessions(sessions: seq<Session>, now: int, k: nat)
    requires FourDigitEvents(sessions, SeenAt()) && k < |Series(SessionPlan(), sessions)|
    ensures var point := SessionPointOf(Series(SessionPlan(), sessions)[k], now);
      var mine := Filter(sessions, InWeek(SeenAt(), WeekIndex(point.start)));
      && point.week == IsoWeekKey(point.start) && point.sessions == |mine|
      && point.tokens == SumAll(Parts(mine, []))
      && point.added == SumOf(mine, LinesIn()) && point.removed == SumOf(mine, LinesOut())
      && (point.partial <==> point.start == WeekTime(WeekIndex(now)))
  {
    var p := SessionPlan();
    IsoSeriesCovers(p, sessions);
    var w := Series(p, sessions)[k];
    assert WeekHolds(p, w, sessions);
    var mine := Filter(sessions, InWeek(SeenAt(), WeekIndex(w.start)));
    FoldOfSessions(mine);
    SessionsAddUp();
    FoldAddsUp(p, mine, Added(), LinesIn());
    FoldAddsUp(p, mine, Removed(), LinesOut());
    SameWeekStart(w.start, now);
  }
}
