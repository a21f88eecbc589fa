/**
 * What a row of the attribution says, read off the sessions, links and splits themselves rather than the
 * steps of the join.
 */
module RowMeaning {
  import opened Common
  import opened Keys
  import opened Sorting
  import opened Attribution
  import opened Conservation

  // ----- The inputs -----

  predicate RepoInScope(q: Query, repo: string) { q.scope.None? || repo in q.scope.value }

  predicate InScopeSession(q: Query, s: Session) {
    s in q.sessions && s.repo.Some? && RepoInScope(q, s.repo.value)
  }

  /** Some session in scope has that id. */
  predicate Measured(q: Query, id: string) { exists s :: s in q.sessions && s.id == id && InScopeSession(q, s) }

  predicate IsPr(q: Query, repo: string, number: nat) {
    exists pr :: pr in q.prs && pr.repo == repo && pr.number == number
  }

  predicate HasLink(q: Query, id: string, repo: string, number: nat) {
    exists l :: l in q.links && l.sessionId == id && l.repo == repo && l.prNumber == number
  }

  /** A link of a session in scope to a PR in scope. */
  predicate Names(q: Query, id: string, repo: string, number: nat) {
    Measured(q, id) && RepoInScope(q, repo) && IsPr(q, repo, number) && HasLink(q, id, repo, number)
  }

  ghost predicate NamesAnother(q: Query, id: string, pr: PrInfo) {
    exists repo, number :: Names(q, id, repo, number) && (repo != pr.repo || number != pr.number)
  }

  ghost predicate NamesNothing(q: Query, id: string) { forall repo, number :: !Names(q, id, repo, number) }

  ghost predicate NamesJust(q: Query, id: string, pr: PrInfo) {
    Names(q, id, pr.repo, pr.number) && !NamesAnother(q, id, pr)
  }

  ghost predicate NamesAmongOthers(q: Query, id: string, pr: PrInfo) {
    Names(q, id, pr.repo, pr.number) && NamesAnother(q, id, pr)
  }

  /** A split of a session in scope that no link accounts for, on a branch that the PR owned. */
  ghost predicate Lands(q: Query, s: Split, pr: PrInfo) {
    && s in q.splits && Measured(q, s.sessionId) && NamesNothing(q, s.sessionId)
    && Owner(q.prs, s).Some? && Owner(q.prs, s).value.repo == pr.repo && Owner(q.prs, s).value.number == pr.number
  }

  // ----- The steps of the join in these terms -----

  lemma ScopedIsMeasured(q: Query, id: string)
    ensures Scoped(q, id) <==> Measured(q, id)
  {
    FilterMembers(q.sessions, InTheScope(q));
    if Measured(q, id) {
      var s :| s in q.sessions && s.id == id && InScopeSession(q, s);
      assert s in ScopedSessions(q);
    }
    if Scoped(q, id) {
      var s :| s in ScopedSessions(q) && s.id == id;
      assert InScopeSession(q, s);
    }
  }

  lemma PrKeyIsAPr(q: Query, repo: string, number: nat)
    ensures PrKey(repo, number) in PrKeys(q.prs) <==> IsPr(q, repo, number)
  {
    var keys := PrKeys(q.prs);
    if PrKey(repo, number) in keys {
      var i :| 0 <= i < |keys| && keys[i] == PrKey(repo, number);
      PrKeyInjective(q.prs[i].repo, q.prs[i].number, repo, number);
    }
    if pr :| pr in q.prs && pr.repo == repo && pr.number == number {
      var i :| 0 <= i < |q.prs| && q.prs[i] == pr;
      assert keys[i] in keys;
    }
  }

  lemma NamedIsUsable(q: Query, l: Link, id: string, repo: string, number: nat)
    ensures PrKey(repo, number) in Named(q, l, id) <==>
      UsableLink(q, l) && l.sessionId == id && l.repo == repo && l.prNumber == number
  {
    if PrKey(repo, number) in Named(q, l, id) {
      PrKeyInjective(l.repo, l.prNumber, repo, number);
    }
  }

  lemma UsableNames(q: Query, l: Link)
    requires l in q.links
    ensures UsableLink(q, l) <==> Names(q, l.sessionId, l.repo, l.prNumber)
  {
    ScopedIsMeasured(q, l.sessionId);
    PrKeyIsAPr(q, l.repo, l.prNumber);
  }

  lemma LinkSetIsNamed(q: Query, id: string, repo: string, number: nat)
    ensures PrKey(repo, number) in LinkSet(q, id) <==> Names(q, id, repo, number)
  {
    NamedByLinks(q, q.links, id, PrKey(repo, number));
    forall l | l in q.links
      ensures PrKey(repo, number) in Named(q, l, id) <==>
        Names(q, id, repo, number) && l.sessionId == id && l.repo == repo && l.prNumber == number
    {
      NamedIsUsable(q, l, id, repo, number);
      UsableNames(q, l);
    }
  }

  lemma LinkSetIsOfPrs(q: Query, id: string, key: string) returns (repo: string, number: nat)
    requires key in LinkSet(q, id)
    ensures key == PrKey(repo, number)
  {
    NamedByLinks(q, q.links, id, key);
    var l :| l in q.links && key in Named(q, l, id);
    repo, number := l.repo, l.prNumber;
  }

  lemma OthersAreOtherKeys(q: Query, id: string, pr: PrInfo)
    ensures NamesAnother(q, id, pr) <==> exists key :: key in LinkSet(q, id) && key != KeyOf(pr)
  {
    if repo, number :| Names(q, id, repo, number) && (repo != pr.repo || number != pr.number) {
      LinkSetIsNamed(q, id, repo, number);
      if PrKey(repo, number) == KeyOf(pr) {
        PrKeyInjective(repo, number, pr.repo, pr.number);
      }
    }
    if key :| key in LinkSet(q, id) && key != KeyOf(pr) {
      var repo, number := LinkSetIsOfPrs(q, id, key);
      LinkSetIsNamed(q, id, repo, number);
    }
  }

  lemma SizeOfLinkSet(s: set<string>, key: string)
    requires key in s
    ensures |s| > 1 <==> exists other :: other in s && other != key
    ensures s == {key} <==> !exists other :: other in s && other != key
  {
    assert |s - {key}| == |s| - 1;
    if |s| > 1 {
      var other :| other in s - {key};
    } else {
      assert s - {key} == {};
    }
  }

  lemma NamesJustIsOnly(q: Query, id: string, pr: PrInfo)
    ensures NamesJust(q, id, pr) <==> LinkSet(q, id) == {KeyOf(pr)}
    ensures NamesAmongOthers(q, id, pr) <==> |LinkSet(q, id)| > 1 && KeyOf(pr) in LinkSet(q, id)
  {
    LinkSetIsNamed(q, id, pr.repo, pr.number);
    OthersAreOtherKeys(q, id, pr);
    if KeyOf(pr) in LinkSet(q, id) {
      SizeOfLinkSet(LinkSet(q, id), KeyOf(pr));
    }
  }

  lemma AmbiguousIsAmongOthers(q: Query, pr: PrInfo)
    ensures Ambiguous(q, KeyOf(pr)) <==> exists id :: NamesAmongOthers(q, id, pr)
  {
    forall id
      ensures NamesAmongOthers(q, id, pr) <==>
        id in LinkOrder(q, q.links) && |LinkSet(q, id)| > 1 && KeyOf(pr) in LinkSet(q, id)
    {
      NamesJustIsOnly(q, id, pr);
      LinkedNamesSome(q, id);
    }
  }

  lemma UnlinkedNamesNothing(q: Query, id: string)
    ensures id !in LinkOrder(q, q.links) <==> NamesNothing(q, id)
  {
    LinkedNamesSome(q, id);
    if |LinkSet(q, id)| > 0 {
      var key :| key in LinkSet(q, id);
      var repo, number := LinkSetIsOfPrs(q, id, key);
      LinkSetIsNamed(q, id, repo, number);
    }
    if repo, number :| Names(q, id, repo, number) {
      LinkSetIsNamed(q, id, repo, number);
    }
  }

  /** The splits behind a row are those that land on its PR. */
  lemma SplitsBehindARow(q: Query, pr: PrInfo, s: Split)
    ensures s in SplitsOf(q, KeyOf(pr)) <==> Lands(q, s, pr)
  {
    FilterMembers(UnlinkedSplits(q), OwnedBy(q.prs, KeyOf(pr)));
    FilterMembers(q.splits, Unlinked(q));
    ScopedIsMeasured(q, s.sessionId);
    UnlinkedNamesNothing(q, s.sessionId);
    if Owner(q.prs, s).Some? && KeyOf(Owner(q.prs, s).value) == KeyOf(pr) {
      PrKeyInjective(Owner(q.prs, s).value.repo, Owner(q.prs, s).value.number, pr.repo, pr.number);
    }
  }

  /** The ids of the sessions behind a row are those that name its PR and no other. */
  lemma SessionIdsBehindARow(q: Query, pr: PrInfo, id: string)
    ensures id in SessionIds(SessionsOf(q, KeyOf(pr))) <==> NamesJust(q, id, pr)
  {
    var mine := SessionsOf(q, KeyOf(pr));
    FilterMembers(Singles(q), NamesOnly(q, KeyOf(pr)));
    NamesJustIsOnly(q, id, pr);
    LinkedNamesSome(q, id);
    if NamesJust(q, id, pr) {
      assert |{KeyOf(pr)}| == 1;
      var s := ById(ScopedSessions(q))[id];
      SinglesMember(q, s);
      assert s in mine;
    }
    if s :| s in mine && s.id == id {
      SinglesMember(q, s);
    }
  }

  /** With distinct ids, they are exactly those sessions, each once. */
  lemma SessionsBehindARow(q: Query, pr: PrInfo, s: Session)
    requires DistinctInputs(q)
    ensures s in SessionsOf(q, KeyOf(pr)) <==> InScopeSession(q, s) && NamesJust(q, s.id, pr)
  {
    FilterMembers(Singles(q), NamesOnly(q, KeyOf(pr)));
    FilterMembers(q.sessions, InTheScope(q));
    NamesJustIsOnly(q, s.id, pr);
    LinkedNamesSome(q, s.id);
    SinglesMember(q, s);
    ScopedById(q, s);
    assert |{KeyOf(pr)}| == 1;
  }

  // ----- The rows -----

  ghost predicate SomeSplitLands(q: Query, pr: PrInfo) { exists s :: Lands(q, s, pr) }
  ghost predicate SomeSessionNamesJust(q: Query, pr: PrInfo) { exists id :: NamesJust(q, id, pr) }

  /** The work on this PR cannot be told from that on another, or is not divided at all. */
  ghost predicate CannotBePlaced(q: Query, pr: PrInfo) {
    (exists id :: NamesAmongOthers(q, id, pr)) || (exists s :: Lands(q, s, pr) && s.share.None?)
  }

  lemma PartsBehindARow(q: Query, pr: PrInfo)
    ensures SessionsOf(q, KeyOf(pr)) != [] <==> SomeSessionNamesJust(q, pr)
    ensures SplitsOf(q, KeyOf(pr)) != [] <==> SomeSplitLands(q, pr)
    ensures Indivisible(SplitsOf(q, KeyOf(pr))) <==> exists s :: Lands(q, s, pr) && s.share.None?
  {
    var sessions, splits := SessionsOf(q, KeyOf(pr)), SplitsOf(q, KeyOf(pr));
    forall id
      ensures id in SessionIds(sessions) <==> NamesJust(q, id, pr)
    {
      SessionIdsBehindARow(q, pr, id);
    }
    forall s
      ensures s in splits <==> Lands(q, s, pr)
    {
      SplitsBehindARow(q, pr, s);
    }
    if sessions != [] {
      assert sessions[0].id in SessionIds(sessions);
    }
    if splits != [] {
      assert splits[0] in splits;
    }
  }

  lemma RowByCases(pr: PrInfo, ambiguous: bool, sessions: seq<Session>, splits: seq<Split>)
    ensures var row, withheld := RowFrom(pr, ambiguous, sessions, splits), ambiguous || Indivisible(splits);
      && row.pr == pr
      && (row.attribution == Shared <==> withheld)
      && (row.attribution == Nothing <==> !withheld && sessions == [] && splits == [])
      && (row.attribution == Linked <==> !withheld && sessions != [])
      && (row.attribution == Exact <==> !withheld && sessions == [] && splits != [])
  {
  }

  /**
   * A row is withheld as shared exactly when some session in scope names its PR among others, or a split that
   * landed on it is indivisible. Of the rest, it says nothing exactly when nothing landed, is linked exactly
   * when some session names it and no other, and is otherwise exact.
   */
  lemma RowSaysWhatLanded(q: Query, pr: PrInfo)
    ensures var row := RowOf(q, pr);
      && row.pr == pr
      && (row.attribution == Shared <==> CannotBePlaced(q, pr))
      && (row.attribution == Nothing <==>
           !CannotBePlaced(q, pr) && !SomeSessionNamesJust(q, pr) && !SomeSplitLands(q, pr))
      && (row.attribution == Linked <==> !CannotBePlaced(q, pr) && SomeSessionNamesJust(q, pr))
      && (row.attribution == Exact <==>
           !CannotBePlaced(q, pr) && !SomeSessionNamesJust(q, pr) && SomeSplitLands(q, pr))
  {
    var key := KeyOf(pr);
    AmbiguousIsAmongOthers(q, pr);
    PartsBehindARow(q, pr);
    RowByCases(pr, Ambiguous(q, key), SessionsOf(q, key), SplitsOf(q, key));
  }

  /** And it counts the sessions behind it, each once, unless one of them names several PRs. */
  lemma RowCountsItsSessions(q: Query, pr: PrInfo, ids: set<string>)
    requires forall id :: id in ids <==> NamesJust(q, id, pr) || exists s :: Lands(q, s, pr) && s.sessionId == id
    ensures RowOf(q, pr).sessions == if exists id :: NamesAmongOthers(q, id, pr) then 0 else |ids|
  {
    AmbiguousIsAmongOthers(q, pr);
    var sessions, splits := SessionsOf(q, KeyOf(pr)), SplitsOf(q, KeyOf(pr));
    forall id
      ensures id in SessionIds(sessions) + SplitIds(splits) <==> id in ids
    {
      SessionIdsBehindARow(q, pr, id);
      SplitIdsBehindARow(q, pr, id);
    }
    assert SessionIds(sessions) + SplitIds(splits) == ids;
    PartsBehindARow(q, pr);
    if sessions == [] && splits == [] {
      assert ids == {};
    }
  }

  lemma SplitIdsBehindARow(q: Query, pr: PrInfo, id: string)
    ensures id in SplitIds(SplitsOf(q, KeyOf(pr))) <==> exists s :: Lands(q, s, pr) && s.sessionId == id
  {
    forall s
      ensures s in SplitsOf(q, KeyOf(pr)) <==> Lands(q, s, pr)
    {
      SplitsBehindARow(q, pr, s);
    }
  }
}
