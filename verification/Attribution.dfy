/**
 * core/src/telemetry.ts: joining agent sessions to pull requests. This module says what the join is;
 * AttributionLoops.dfy is the code that computes it.
 */
module Attribution {
  import opened Common
  import opened Keys
  import opened Sorting

  datatype Figure =
    Input | Output | CacheRead | CacheCreation | LinesAdded | LinesRemoved | EditsAccepted | EditsRejected |
        ActiveSeconds

  datatype Figures = Figures(
    input: Option<real>, output: Option<real>, cacheRead: Option<real>, cacheCreation: Option<real>,
    linesAdded: Option<real>, linesRemoved: Option<real>,
    editsAccepted: Option<real>, editsRejected: Option<real>, activeSeconds: Option<real>)

  function Get(fs: Figures, f: Figure): Option<real> {
    match f
    case Input => fs.input
    case Output => fs.output
    case CacheRead => fs.cacheRead
    case CacheCreation => fs.cacheCreation
    case LinesAdded => fs.linesAdded
    case LinesRemoved => fs.linesRemoved
    case EditsAccepted => fs.editsAccepted
    case EditsRejected => fs.editsRejected
    case ActiveSeconds => fs.activeSeconds
  }

  datatype Session = Session(id: string, repo: Option<string>, firstSeen: int, figures: Figures)
  datatype Split = Split(sessionId: string, repo: string, branch: Option<string>, from: int, share: Option<real>,
      figures: Figures)
  datatype Link = Link(sessionId: string, repo: string, prNumber: nat)
  datatype PrInfo = PrInfo(repo: string, number: nat, headRef: string, mergedAt: Option<int>)

  /** One call of `attribute`; `scope` is the optional list of repos. */
  datatype Query = Query(prs: seq<PrInfo>, sessions: seq<Session>, splits: seq<Split>, links: seq<Link>,
      scope: Option<seq<string>>)

  predicate InScope(q: Query, repo: string) { q.scope.Some? ==> repo in q.scope.value }

  function KeyOf(pr: PrInfo): string { PrKey(pr.repo, pr.number) }

  function PrKeys(prs: seq<PrInfo>): (ks: seq<string>)
    ensures |ks| == |prs| && forall i | 0 <= i < |prs| :: ks[i] == KeyOf(prs[i])
  {
    if prs == [] then [] else [KeyOf(prs[0])] + PrKeys(prs[1..])
  }

  predicate SessionInScope(q: Query, s: Session) { s.repo.Some? && InScope(q, s.repo.value) }

  function InTheScope(q: Query): Session -> bool { (s: Session) => SessionInScope(q, s) }

  function ScopedSessions(q: Query): seq<Session> { Filter(q.sessions, InTheScope(q)) }

  /** Sessions by id; of two with one id, the later. */
  function ById(sessions: seq<Session>): (m: map<string, Session>)
    ensures forall id :: id in m <==> exists s :: s in sessions && s.id == id
    ensures forall id | id in m :: m[id].id == id && m[id] in sessions
  {
    if sessions == [] then map[]
    else
      var last := sessions[|sessions| - 1];
      assert sessions == sessions[..|sessions| - 1] + [last];
      ById(sessions[..|sessions| - 1])[last.id := last]
  }

  predicate Scoped(q: Query, id: string) { id in ById(ScopedSessions(q)) }

  // ----- Links -----

  predicate UsableLink(q: Query, l: Link) {
    Scoped(q, l.sessionId) && InScope(q, l.repo) && PrKey(l.repo, l.prNumber) in PrKeys(q.prs)
  }

  /** The PR that a link names for a session. */
  function Named(q: Query, l: Link, id: string): set<string> {
    if UsableLink(q, l) && l.sessionId == id then {PrKey(l.repo, l.prNumber)} else {}
  }

  /** The PRs that `links` name for it. */
  function NamedBy(q: Query, links: seq<Link>, id: string): set<string> {
    if links == [] then {} else NamedBy(q, links[..|links| - 1], id) + Named(q, links[|links| - 1], id)
  }

  function LinkSet(q: Query, id: string): set<string> { NamedBy(q, q.links, id) }

  lemma {:induction false} NamedByLinks(q: Query, links: seq<Link>, id: string, key: string)
    ensures key in NamedBy(q, links, id) <==> exists l :: l in links && key in Named(q, l, id)
  {
    if links == [] {
    } else {
      var front, last := links[..|links| - 1], links[|links| - 1];
      assert links == front + [last];
      NamedByLinks(q, front, id, key);
      if l :| l in links && key in Named(q, l, id) {
        assert l in front || l == last;
      }
      assert last in links && forall l :: l in front ==> l in links;
    }
  }

  /** Linked session ids in the order a Map keeps them: by first usable link. */
  function LinkOrder(q: Query, links: seq<Link>): seq<string> {
    if links == [] then []
    else
      var ids, l := LinkOrder(q, links[..|links| - 1]), links[|links| - 1];
      if UsableLink(q, l) && l.sessionId !in ids then ids + [l.sessionId] else ids
  }

  /** The ids of the sessions that name anything, each once. */
  lemma {:induction false} LinkOrderIs(q: Query, links: seq<Link>)
    ensures Distinct(LinkOrder(q, links))
    ensures forall id :: id in LinkOrder(q, links) <==> exists l :: l in links && UsableLink(q, l) && l.sessionId == id
  {
    if links == [] {
    } else {
      var front, last := links[..|links| - 1], links[|links| - 1];
      assert links == front + [last];
      LinkOrderIs(q, front);
      assert last in links;
    }
  }

  /** A session in the order names some PR, and one that is not names none. */
  lemma LinkedNamesSome(q: Query, id: string)
    ensures id in LinkOrder(q, q.links) <==> |LinkSet(q, id)| > 0
    ensures id in LinkOrder(q, q.links) ==> Scoped(q, id)
    ensures forall key | key in LinkSet(q, id) :: key in PrKeys(q.prs)
  {
    LinkOrderIs(q, q.links);
    if l :| l in q.links && UsableLink(q, l) && l.sessionId == id {
      assert PrKey(l.repo, l.prNumber) in Named(q, l, id);
      NamedByLinks(q, q.links, id, PrKey(l.repo, l.prNumber));
    }
    forall key | key in LinkSet(q, id)
      ensures key in PrKeys(q.prs) && id in LinkOrder(q, q.links)
    {
      NamedByLinks(q, q.links, id, key);
      var l :| l in q.links && key in Named(q, l, id);
    }
    if |LinkSet(q, id)| > 0 {
      var key :| key in LinkSet(q, id);
    }
  }

  /** The session with that id, if it names one PR. */
  function PickSingle(q: Query): string -> Option<Session> {
    (id: string) => if |LinkSet(q, id)| == 1 && Scoped(q, id) then Some(ById(ScopedSessions(q))[id]) else None
  }

  function Singles(q: Query): seq<Session> { Picked(LinkOrder(q, q.links), PickSingle(q)) }

  /** The session names that PR and no other. */
  function NamesOnly(q: Query, key: string): Session -> bool { (s: Session) => LinkSet(q, s.id) == {key} }

  function SessionsOf(q: Query, key: string): seq<Session> { Filter(Singles(q), NamesOnly(q, key)) }

  /** Some session named this PR alongside others. */
  predicate Ambiguous(q: Query, key: string) { AmbiguousAmong(q, LinkOrder(q, q.links), key) }

  predicate AmbiguousAmong(q: Query, ids: seq<string>, key: string) {
    exists id :: id in ids && |LinkSet(q, id)| > 1 && key in LinkSet(q, id)
  }

  // ----- Splits -----

  /** Splits not accounted for by a link. */
  function Unlinked(q: Query): Split -> bool {
    (s: Split) => Scoped(q, s.sessionId) && s.sessionId !in LinkOrder(q, q.links)
  }

  function UnlinkedSplits(q: Query): seq<Split> { Filter(q.splits, Unlinked(q)) }

  /** An open PR closes after everything. */
  predicate ClosesNoLater(a: PrInfo, b: PrInfo) {
    b.mergedAt.None? || (a.mergedAt.Some? && a.mergedAt.value <= b.mergedAt.value)
  }

  function ByClosing(): (PrInfo, PrInfo) -> bool { (a: PrInfo, b: PrInfo) => ClosesNoLater(a, b) }

  /** The PR had not merged before `from`. */
  function AcceptsWorkAt(from: int): PrInfo -> bool { (pr: PrInfo) => pr.mergedAt.Some? ==> pr.mergedAt.value >= from }

  function OnBranchKey(key: string): PrInfo -> bool { (pr: PrInfo) => BranchKey(pr.repo, pr.headRef) == key }

  function Candidates(prs: seq<PrInfo>, key: string): seq<PrInfo> { Filter(prs, OnBranchKey(key)) }

  /** Grouped by branch key, sorted by closing time, first match. */
  function Owner(prs: seq<PrInfo>, s: Split): Option<PrInfo> {
    if s.branch.None? then None
    else Find(Sort(Candidates(prs, BranchKey(s.repo, s.branch.value)), ByClosing()), AcceptsWorkAt(s.from))
  }

  function OwnerKey(prs: seq<PrInfo>, s: Split): Option<string> {
    var o := Owner(prs, s);
    if o.Some? then Some(KeyOf(o.value)) else None
  }

  // ----- Rows -----

  datatype Attributed = Linked | Exact | Shared | Nothing
  datatype Row = Row(pr: PrInfo, attribution: Attributed, sessions: nat, figures: Figures)

  const UNMEASURED := Figures(None, None, None, None, None, None, None, None, None)

  function OwnedBy(prs: seq<PrInfo>, key: string): Split -> bool { (s: Split) => OwnerKey(prs, s) == Some(key) }
  function OwnerLess(prs: seq<PrInfo>): Split -> bool { (s: Split) => OwnerKey(prs, s).None? }

  function SplitsOf(q: Query, key: string): seq<Split> { Filter(UnlinkedSplits(q), OwnedBy(q.prs, key)) }
  function Orphans(q: Query): seq<Split> { Filter(UnlinkedSplits(q), OwnerLess(q.prs)) }

  // ----- Sums -----

  function OrZero(v: Option<real>): real { if v.Some? then v.value else 0.0 }

  function Parts(sessions: seq<Session>, splits: seq<Split>): seq<Figures> {
    seq(|sessions|, i requires 0 <= i < |sessions| => sessions[i].figures)
    + seq(|splits|, i requires 0 <= i < |splits| => splits[i].figures)
  }

  function Column(parts: seq<Figures>, f: Figure): seq<Option<real>> {
    seq(|parts|, i requires 0 <= i < |parts| => Get(parts[i], f))
  }

  function Total(values: seq<Option<real>>): real {
    if values == [] then 0.0 else Total(values[..|values| - 1]) + OrZero(values[|values| - 1])
  }

  /** The measured values added up; null exactly when nothing was measured. */
  function Sum(values: seq<Option<real>>): Option<real> {
    if exists v :: v in values && v.Some? then Some(Total(values)) else None
  }

  function SumAll(parts: seq<Figures>): Figures {
    Figures(Sum(Column(parts, Input)), Sum(Column(parts, Output)), Sum(Column(parts, CacheRead)),
            Sum(Column(parts, CacheCreation)), Sum(Column(parts, LinesAdded)), Sum(Column(parts, LinesRemoved)),
            Sum(Column(parts, EditsAccepted)), Sum(Column(parts, EditsRejected)), Sum(Column(parts, ActiveSeconds)))
  }

  function SessionIds(sessions: seq<Session>): set<string> { set s | s in sessions :: s.id }
  function SplitIds(splits: seq<Split>): set<string> { set s | s in splits :: s.sessionId }

  /** One indivisible contribution poisons the row. */
  predicate Indivisible(splits: seq<Split>) { exists s :: s in splits && s.share.None? }

  function RowFrom(pr: PrInfo, ambiguous: bool, sessions: seq<Session>, splits: seq<Split>): Row {
    var count := |SessionIds(sessions) + SplitIds(splits)|;
    if ambiguous then Row(pr, Shared, 0, UNMEASURED)
    else if sessions == [] && splits == [] then Row(pr, Nothing, 0, UNMEASURED)
    else if Indivisible(splits) then Row(pr, Shared, count, UNMEASURED)
    else Row(pr, if sessions != [] then Linked else Exact, count, SumAll(Parts(sessions, splits)))
  }

  function RowOf(q: Query, pr: PrInfo): Row {
    RowFrom(pr, Ambiguous(q, KeyOf(pr)), SessionsOf(q, KeyOf(pr)), SplitsOf(q, KeyOf(pr)))
  }

  function RowMaker(q: Query): PrInfo -> Row { (pr: PrInfo) => RowOf(q, pr) }

  function Rows(q: Query): seq<Row> { Mapped(q.prs, RowMaker(q)) }

  // ----- The owner lookup, said simply -----

  predicate Eligible(pr: PrInfo, s: Split) {
    pr.repo == s.repo && s.branch == Some(pr.headRef) && (pr.mergedAt.Some? ==> s.from <= pr.mergedAt.value)
  }

  /** Of the PRs on that repo and branch not merged before the split began, the first to close; ties by input order. */
  predicate OwnsBySpecification(prs: seq<PrInfo>, s: Split, k: nat) {
    && k < |prs| && Eligible(prs[k], s)
    && forall i | 0 <= i < |prs| && i != k && Eligible(prs[i], s) ::
         match prs[i].mergedAt
         case Some(at) =>
           prs[k].mergedAt.Some? && (prs[k].mergedAt.value < at || (prs[k].mergedAt.value == at && k < i))
         case None => prs[k].mergedAt.Some? || k < i
  }

  function Both(key: string, from: int): PrInfo -> bool
  {
    (pr: PrInfo) => OnBranchKey(key)(pr) && AcceptsWorkAt(from)(pr)
  }

  lemma {:induction false} FirstLeastOfFilter(prs: seq<PrInfo>, key: string, from: int)
    ensures FirstLeast(Candidates(prs, key), ByClosing(), AcceptsWorkAt(from)) ==
      FirstLeast(prs, ByClosing(), Both(key, from))
  {
    if prs == [] {
    } else {
      FirstLeastOfFilter(prs[1..], key, from);
      if OnBranchKey(key)(prs[0]) {
        assert Candidates(prs, key)[1..] == Candidates(prs[1..], key);
      } else {
        assert Candidates(prs, key) == Candidates(prs[1..], key);
      }
    }
  }

  /** One repo is the other followed by '@' and anything: only then can they share a branch key. */
  predicate Clash(r: string, r': string) { r != r' && (r + "@" <= r' || r' + "@" <= r) }

  predicate NoClash(prs: seq<PrInfo>, s: Split) { forall pr | pr in prs :: !Clash(pr.repo, s.repo) }

  lemma SameKeySameBranch(pr: PrInfo, s: Split)
    requires s.branch.Some? && !Clash(pr.repo, s.repo)
    ensures OnBranchKey(BranchKey(s.repo, s.branch.value))(pr) <==> pr.repo == s.repo && s.branch == Some(pr.headRef)
  {
    if OnBranchKey(BranchKey(s.repo, s.branch.value))(pr) {
      if pr.repo != s.repo {
        BranchKeysCollideExactlyWhen(pr.repo, s.repo);
      } else {
        var k := BranchKey(s.repo, s.branch.value);
        assert k[|s.repo| + 1..] == s.branch.value && k[|s.repo| + 1..] == pr.headRef;
      }
    }
  }

  /**
   * Grouping, sorting and taking the first match finds the specified owner, and finds none only when
   * there is none, unless some PR's repo clashes with the split's.
   */
  lemma OwnerIsTheEarliestToClose(prs: seq<PrInfo>, s: Split)
    requires NoClash(prs, s)
    ensures Owner(prs, s).None? <==> forall pr | pr in prs :: !Eligible(pr, s)
    ensures Owner(prs, s).Some? ==> exists k: nat :: OwnsBySpecification(prs, s, k) && Owner(prs, s).value == prs[k]
  {
    if s.branch.Some? {
      var key := BranchKey(s.repo, s.branch.value);
      FindInSorted(Candidates(prs, key), ByClosing(), AcceptsWorkAt(s.from));
      FirstLeastOfFilter(prs, key, s.from);
      FirstLeastIs(prs, ByClosing(), Both(key, s.from));
      forall pr | pr in prs
        ensures Both(key, s.from)(pr) <==> Eligible(pr, s)
      {
        SameKeySameBranch(pr, s);
      }
      if Owner(prs, s).Some? {
        var k: nat :| IsFirstLeast(prs, ByClosing(), Both(key, s.from), k) && prs[k] == Owner(prs, s).value;
        assert OwnsBySpecification(prs, s, k);
      }
    }
  }

  function OpenPr(repo: string, headRef: string): PrInfo { PrInfo(repo, 1, headRef, None) }
  function WorkOn(repo: string, branch: string): Split { Split("", repo, Some(branch), 0, None, UNMEASURED) }

  lemma OwnerOfOne(pr: PrInfo, s: Split)
    requires pr.mergedAt.None? && s.branch.Some?
    ensures Owner([pr], s).Some? <==> BranchKey(pr.repo, pr.headRef) == BranchKey(s.repo, s.branch.value)
  {
    var key := BranchKey(s.repo, s.branch.value);
    assert [pr][1..] == [];
    var own := if OnBranchKey(key)(pr) then [pr] else [];
    assert Candidates([pr], key) == own + Candidates([pr][1..], key) == own;
    assert Sort([pr], ByClosing()) == [pr];
  }

  /** And a clash does misattribute: work on one repo goes to a PR of another exactly when the two clash. */
  lemma OwnerCrossesReposExactlyWhen(r: string, r': string)
    requires r != r'
    ensures (exists headRef, branch :: Owner([OpenPr(r, headRef)], WorkOn(r', branch)).Some?) <==> Clash(r, r')
  {
    BranchKeysCollideExactlyWhen(r, r');
    if headRef, branch :| Owner([OpenPr(r, headRef)], WorkOn(r', branch)).Some? {
      OwnerOfOne(OpenPr(r, headRef), WorkOn(r', branch));
      assert BranchKey(r, headRef) == BranchKey(r', branch);
    }
    if Clash(r, r') {
      var b, b' :| BranchKey(r, b) == BranchKey(r', b');
      OwnerOfOne(OpenPr(r, b), WorkOn(r', b'));
      assert Owner([OpenPr(r, b)], WorkOn(r', b')).Some?;
    }
  }

  lemma OwnerIsAPr(prs: seq<PrInfo>, s: Split)
    requires Owner(prs, s).Some?
    ensures Owner(prs, s).value in prs
  {
    var key := BranchKey(s.repo, s.branch.value);
    FindIsMember(Sort(Candidates(prs, key), ByClosing()), AcceptsWorkAt(s.from));
    SortSorts(Candidates(prs, key), ByClosing());
    assert Owner(prs, s).value in multiset(Sort(Candidates(prs, key), ByClosing()));
    assert Owner(prs, s).value in multiset(Candidates(prs, key));
    FilterMembers(prs, OnBranchKey(key));
  }
}
