/** The loops of `attribute`, each proved to build the part of the join it is for. */
module AttributionLoops {
  import opened Common
  import opened Keys
  import opened Sorting
  import opened Attribution

  function At<T>(m: map<string, seq<T>>, key: string): seq<T> { if key in m then m[key] else [] }
  function SetAt(m: map<string, set<string>>, key: string): set<string> { if key in m then m[key] else {} }

  method SumValues(values: seq<Option<real>>) returns (total: Option<real>)
    ensures total == Sum(values)
  {
    var acc, seen := 0.0, false;
    for i := 0 to |values|
      invariant acc == Total(values[..i])
      invariant seen <==> exists v :: v in values[..i] && v.Some?
    {
      assert values[..i + 1] == values[..i] + [values[i]];
      if values[i].Some? {
        acc := acc + values[i].value;
        seen := true;
      }
    }
    assert values[..|values|] == values;
    total := if seen then Some(acc) else None;
  }

  function IsHookless(): Session -> bool { (s: Session) => s.repo.None? }

  lemma OneMoreSession(q: Query, i: nat)
    requires i < |q.sessions|
    ensures Filter(q.sessions[..i + 1], InTheScope(q)) ==
      Filter(q.sessions[..i], InTheScope(q)) + if SessionInScope(q, q.sessions[i]) then [q.sessions[i]] else []
    ensures |Filter(q.sessions[..i + 1], IsHookless())| ==
      |Filter(q.sessions[..i], IsHookless())| + if q.sessions[i].repo.None? then 1 else 0
  {
    assert q.sessions[..i + 1] == q.sessions[..i] + [q.sessions[i]];
    FilterAppend(q.sessions[..i], q.sessions[i], InTheScope(q));
    FilterAppend(q.sessions[..i], q.sessions[i], IsHookless());
  }

  lemma ByIdGrows(sessions: seq<Session>, s: Session)
    ensures ById(sessions + [s]) == ById(sessions)[s.id := s]
  {
    assert (sessions + [s])[..|sessions|] == sessions;
  }

  method ScopeSessions(q: Query)
    returns (scoped: seq<Session>, byId: map<string, Session>, elsewhere: nat, hookless: nat)
    ensures scoped == ScopedSessions(q) && byId == ById(scoped)
    ensures |scoped| + elsewhere + hookless == |q.sessions|
    ensures hookless == |Filter(q.sessions, IsHookless())|
  {
    scoped, byId, elsewhere, hookless := [], map[], 0, 0;
    for i := 0 to |q.sessions|
      invariant scoped == Filter(q.sessions[..i], InTheScope(q)) && byId == ById(scoped)
      invariant |scoped| + elsewhere + hookless == i
      invariant hookless == |Filter(q.sessions[..i], IsHookless())|
    {
      var session := q.sessions[i];
      OneMoreSession(q, i);
      if session.repo.None? {
        hookless := hookless + 1;
      } else if !InScope(q, session.repo.value) {
        elsewhere := elsewhere + 1;
      } else {
        ByIdGrows(scoped, session);
        scoped := scoped + [session];
        byId := byId[session.id := session];
      }
    }
    assert q.sessions[..|q.sessions|] == q.sessions;
  }

  lemma LinkAdded(q: Query, front: seq<Link>, link: Link, id: string)
    ensures NamedBy(q, front + [link], id) == NamedBy(q, front, id) + Named(q, link, id)
  {
    assert (front + [link])[..|front|] == front;
  }

  lemma OrderGrows(q: Query, front: seq<Link>, link: Link)
    ensures LinkOrder(q, front + [link]) ==
      LinkOrder(q, front)
      + if UsableLink(q, link) && link.sessionId !in LinkOrder(q, front) then [link.sessionId] else []
  {
    assert (front + [link])[..|front|] == front;
  }

  /** The Map of `links`, and its key order. */
  ghost predicate LinksGathered(q: Query, links: seq<Link>, order: seq<string>, linked: map<string, set<string>>) {
    && order == LinkOrder(q, links)
    && (forall id :: SetAt(linked, id) == NamedBy(q, links, id))
    && forall id :: id in linked <==> id in order
  }

  lemma LinkGathered(q: Query, front: seq<Link>, link: Link, order: seq<string>, linked: map<string, set<string>>)
    requires LinksGathered(q, front, order, linked) && UsableLink(q, link)
    ensures LinksGathered(q, front + [link],
                          if link.sessionId in linked then order else order + [link.sessionId],
                          linked[link.sessionId := SetAt(linked, link.sessionId) + {PrKey(link.repo, link.prNumber)}])
  {
    var own, key := link.sessionId, PrKey(link.repo, link.prNumber);
    var after := linked[own := SetAt(linked, own) + {key}];
    OrderGrows(q, front, link);
    forall id
      ensures SetAt(after, id) == NamedBy(q, front + [link], id)
    {
      LinkAdded(q, front, link, id);
      assert SetAt(linked, id) == NamedBy(q, front, id);
    }
  }

  lemma LinkSkipped(q: Query, front: seq<Link>, link: Link, order: seq<string>, linked: map<string, set<string>>)
    requires LinksGathered(q, front, order, linked) && !UsableLink(q, link)
    ensures LinksGathered(q, front + [link], order, linked)
  {
    OrderGrows(q, front, link);
    forall id
      ensures SetAt(linked, id) == NamedBy(q, front + [link], id)
    {
      LinkAdded(q, front, link, id);
      assert SetAt(linked, id) == NamedBy(q, front, id);
    }
  }

  /** A transcript's links, grouped by session. */
  method GroupLinks(q: Query, byId: map<string, Session>)
    returns (order: seq<string>, linked: map<string, set<string>>)
    requires byId == ById(ScopedSessions(q))
    ensures LinksGathered(q, q.links, order, linked)
  {
    var prKeys := PrKeys(q.prs);
    order, linked := [], map[];
    for i := 0 to |q.links|
      invariant LinksGathered(q, q.links[..i], order, linked)
    {
      var link := q.links[i];
      assert q.links[..i + 1] == q.links[..i] + [link];
      var key := PrKey(link.repo, link.prNumber);
      if link.sessionId in byId && InScope(q, link.repo) && key in prKeys {
        LinkGathered(q, q.links[..i], link, order, linked);
        if link.sessionId !in linked {
          order := order + [link.sessionId];
        }
        linked := linked[link.sessionId := SetAt(linked, link.sessionId) + {key}];
      } else {
        LinkSkipped(q, q.links[..i], link, order, linked);
      }
    }
    assert q.links[..|q.links|] == q.links;
  }

  /** What the loop over the linked sessions has built after `ids`. */
  ghost predicate Placed(q: Query, ids: seq<string>, linkedByPr: map<string, seq<Session>>, ambiguous: set<string>) {
    && (forall key :: At(linkedByPr, key) == Filter(Picked(ids, PickSingle(q)), NamesOnly(q, key)))
    && forall key :: key in ambiguous <==> AmbiguousAmong(q, ids, key)
  }

  lemma OneKeyPlaced(q: Query, singles: seq<Session>, session: Session, only: string, key: string)
    requires LinkSet(q, session.id) == {only}
    ensures Filter(singles + [session], NamesOnly(q, key)) ==
      Filter(singles, NamesOnly(q, key)) + if key == only then [session] else []
  {
    FilterAppend(singles, session, NamesOnly(q, key));
    assert key in {only} <==> key == only;
  }

  lemma SingleNotAmbiguous(q: Query, ids: seq<string>, id: string, key: string)
    requires |LinkSet(q, id)| <= 1
    ensures AmbiguousAmong(q, ids + [id], key) <==> AmbiguousAmong(q, ids, key)
  {
    assert forall i :: i in ids + [id] <==> i in ids || i == id;
  }

  lemma SinglePlaced(q: Query, ids: seq<string>, id: string, only: string, linkedByPr: map<string, seq<Session>>,
        ambiguous: set<string>)
    requires Placed(q, ids, linkedByPr, ambiguous) && Scoped(q, id) && LinkSet(q, id) == {only}
    ensures Placed(q, ids + [id],
                   linkedByPr[only := At(linkedByPr, only) + [ById(ScopedSessions(q))[id]]], ambiguous)
  {
    var session := ById(ScopedSessions(q))[id];
    assert |{only}| == 1;
    PickedGrows(ids, id, PickSingle(q));
    SessionPlaced(q, Picked(ids, PickSingle(q)), session, only, linkedByPr);
    forall key
      ensures key in ambiguous <==> AmbiguousAmong(q, ids + [id], key)
    {
      SingleNotAmbiguous(q, ids, id, key);
    }
  }

  lemma SessionPlaced(q: Query, singles: seq<Session>, session: Session, only: string,
        linkedByPr: map<string, seq<Session>>)
    requires LinkSet(q, session.id) == {only} && forall key :: At(linkedByPr, key) == Filter(singles, NamesOnly(q, key))
    ensures var after := linkedByPr[only := At(linkedByPr, only) + [session]];
      forall key :: At(after, key) == Filter(singles + [session], NamesOnly(q, key))
  {
    forall key
      ensures At(linkedByPr[only := At(linkedByPr, only) + [session]], key) ==
        Filter(singles + [session], NamesOnly(q, key))
    {
      OneKeyPlaced(q, singles, session, only, key);
    }
  }

  lemma SeveralPlaced(q: Query, ids: seq<string>, id: string, linkedByPr: map<string, seq<Session>>,
        ambiguous: set<string>)
    requires Placed(q, ids, linkedByPr, ambiguous) && |LinkSet(q, id)| > 1
    ensures Placed(q, ids + [id], linkedByPr, ambiguous + LinkSet(q, id))
  {
    PickedGrows(ids, id, PickSingle(q));
    assert Picked(ids + [id], PickSingle(q)) == Picked(ids, PickSingle(q));
    forall key
      ensures key in ambiguous + LinkSet(q, id) <==> AmbiguousAmong(q, ids + [id], key)
    {
      assert forall i :: i in ids + [id] <==> i in ids || i == id;
    }
  }

  /** Each linked session with the PRs it names. */
  ghost predicate LinkedPrs(q: Query, order: seq<string>, linked: map<string, set<string>>) {
    && order == LinkOrder(q, q.links)
    && forall i | 0 <= i < |order| :: order[i] in linked && linked[order[i]] == LinkSet(q, order[i])
  }

  lemma GatheredAreLinkedPrs(q: Query, order: seq<string>, linked: map<string, set<string>>)
    requires LinksGathered(q, q.links, order, linked)
    ensures LinkedPrs(q, order, linked)
  {
    forall i | 0 <= i < |order|
      ensures order[i] in linked && linked[order[i]] == LinkSet(q, order[i])
    {
      assert order[i] in order && SetAt(linked, order[i]) == LinkSet(q, order[i]);
    }
  }

  /** Sessions naming one PR go to it; PRs named among several are marked. */
  method PlaceLinked(q: Query, byId: map<string, Session>, order: seq<string>, linked: map<string, set<string>>)
    returns (linkedByPr: map<string, seq<Session>>, ambiguous: set<string>)
    requires byId == ById(ScopedSessions(q)) && LinkedPrs(q, order, linked)
    ensures Placed(q, order, linkedByPr, ambiguous)
  {
    linkedByPr, ambiguous := map[], {};
    for i := 0 to |order|
      invariant Placed(q, order[..i], linkedByPr, ambiguous)
    {
      linkedByPr, ambiguous := PlaceOne(q, byId, order[i], linked[order[i]], order[..i], linkedByPr, ambiguous);
      assert order[..i + 1] == order[..i] + [order[i]];
    }
    assert order[..|order|] == order;
  }

  method PlaceOne(q: Query, byId: map<string, Session>, id: string, keys: set<string>, ghost ids: seq<string>,
        linkedByPr: map<string, seq<Session>>, ambiguous: set<string>)
    returns (linkedByPr': map<string, seq<Session>>, ambiguous': set<string>)
    requires byId == ById(ScopedSessions(q)) && id in LinkOrder(q, q.links) && keys == LinkSet(q, id)
    requires Placed(q, ids, linkedByPr, ambiguous)
    ensures Placed(q, ids + [id], linkedByPr', ambiguous')
  {
    LinkedNamesSome(q, id);
    if |keys| > 1 {
      SeveralPlaced(q, ids, id, linkedByPr, ambiguous);
      linkedByPr', ambiguous' := linkedByPr, ambiguous + keys;
    } else {
      var only :| only in keys;
      OnlyOne(keys, only);
      SinglePlaced(q, ids, id, only, linkedByPr, ambiguous);
      linkedByPr', ambiguous' := linkedByPr[only := At(linkedByPr, only) + [byId[id]]], ambiguous;
    }
  }

  lemma OnlyOne<T>(s: set<T>, x: T)
    requires |s| <= 1 && x in s
    ensures s == {x}
  {
    assert |s - {x}| == 0;
  }

  /** PRs grouped by branch and each group sorted by closing time. */
  method GroupCandidates(prs: seq<PrInfo>) returns (candidates: map<string, seq<PrInfo>>)
    ensures forall key :: At(candidates, key) == Sort(Candidates(prs, key), ByClosing())
  {
    candidates := map[];
    for i := 0 to |prs|
      invariant forall key :: At(candidates, key) == Candidates(prs[..i], key)
    {
      var pr := prs[i];
      assert prs[..i + 1] == prs[..i] + [pr];
      forall key
        ensures Candidates(prs[..i + 1], key) == At(candidates, key) + if OnBranchKey(key)(pr) then [pr] else []
      {
        FilterAppend(prs[..i], pr, OnBranchKey(key));
      }
      var key := BranchKey(pr.repo, pr.headRef);
      candidates := candidates[key := At(candidates, key) + [pr]];
    }
    assert prs[..|prs|] == prs;
    candidates := map key | key in candidates :: Sort(candidates[key], ByClosing());
  }

  ghost predicate SplitsPlaced(prs: seq<PrInfo>, splits: seq<Split>, byPr: map<string, seq<Split>>, orphans: seq<Split>)
  {
    && (forall key :: At(byPr, key) == Filter(splits, OwnedBy(prs, key)))
    && orphans == Filter(splits, OwnerLess(prs))
  }

  lemma OwnedPlaced(prs: seq<PrInfo>, splits: seq<Split>, split: Split, own: string, byPr: map<string, seq<Split>>,
        orphans: seq<Split>)
    requires SplitsPlaced(prs, splits, byPr, orphans) && OwnerKey(prs, split) == Some(own)
    ensures SplitsPlaced(prs, splits + [split], byPr[own := At(byPr, own) + [split]], orphans)
  {
    forall key
      ensures Filter(splits + [split], OwnedBy(prs, key)) == At(byPr, key) + if key == own then [split] else []
    {
      FilterAppend(splits, split, OwnedBy(prs, key));
    }
    FilterAppend(splits, split, OwnerLess(prs));
  }

  lemma OrphanPlaced(prs: seq<PrInfo>, splits: seq<Split>, split: Split, byPr: map<string, seq<Split>>,
        orphans: seq<Split>)
    requires SplitsPlaced(prs, splits, byPr, orphans) && OwnerKey(prs, split).None?
    ensures SplitsPlaced(prs, splits + [split], byPr, orphans + [split])
  {
    forall key
      ensures Filter(splits + [split], OwnedBy(prs, key)) == At(byPr, key)
    {
      FilterAppend(splits, split, OwnedBy(prs, key));
    }
    FilterAppend(splits, split, OwnerLess(prs));
  }

  /** Each split goes to the first candidate still open when its work began. */
  method PlaceSplits(prs: seq<PrInfo>, splits: seq<Split>, candidates: map<string, seq<PrInfo>>)
    returns (byPr: map<string, seq<Split>>, orphans: seq<Split>)
    requires forall key :: At(candidates, key) == Sort(Candidates(prs, key), ByClosing())
    ensures SplitsPlaced(prs, splits, byPr, orphans)
  {
    byPr, orphans := map[], [];
    for i := 0 to |splits|
      invariant SplitsPlaced(prs, splits[..i], byPr, orphans)
    {
      var split := splits[i];
      assert splits[..i + 1] == splits[..i] + [split];
      var owner := FindOwner(prs, split, candidates);
      if owner.None? {
        OrphanPlaced(prs, splits[..i], split, byPr, orphans);
        orphans := orphans + [split];
      } else {
        var key := KeyOf(owner.value);
        OwnedPlaced(prs, splits[..i], split, key, byPr, orphans);
        byPr := byPr[key := At(byPr, key) + [split]];
      }
    }
    assert splits[..|splits|] == splits;
  }

  /** A null branch matches no PR. */
  method FindOwner(prs: seq<PrInfo>, split: Split, candidates: map<string, seq<PrInfo>>) returns (owner: Option<PrInfo>)
    requires forall key :: At(candidates, key) == Sort(Candidates(prs, key), ByClosing())
    ensures owner == Owner(prs, split)
  {
    owner := None;
    if split.branch.Some? {
      owner := Find(At(candidates, BranchKey(split.repo, split.branch.value)), AcceptsWorkAt(split.from));
    }
  }

  method SumParts(parts: seq<Figures>) returns (figures: Figures)
    ensures figures == SumAll(parts)
  {
    var input := SumValues(Column(parts, Input));
    var output := SumValues(Column(parts, Output));
    var cacheRead := SumValues(Column(parts, CacheRead));
    var cacheCreation := SumValues(Column(parts, CacheCreation));
    var added := SumValues(Column(parts, LinesAdded));
    var removed := SumValues(Column(parts, LinesRemoved));
    var accepted := SumValues(Column(parts, EditsAccepted));
    var rejected := SumValues(Column(parts, EditsRejected));
    var active := SumValues(Column(parts, ActiveSeconds));
    figures := Figures(input, output, cacheRead, cacheCreation, added, removed, accepted, rejected, active);
  }

  datatype Report = Report(
    rows: seq<Row>, totals: Figures, orphans: seq<Split>, unmatched: Figures, withoutTelemetry: nat,
        linkedSessions: nat)

  function IsBare(): Row -> bool { (r: Row) => r.attribution == Nothing }

  /** `attribute`. */
  method Attribute(q: Query) returns (report: Report)
    ensures report.rows == Rows(q)
    ensures report.totals == SumAll(Parts(ScopedSessions(q), []))
    ensures report.orphans == Orphans(q) && report.unmatched == SumAll(Parts([], Orphans(q)))
    ensures report.withoutTelemetry == |Filter(report.rows, IsBare())|
    ensures report.linkedSessions == |Singles(q)|
  {
    var scoped, byId, _, _ := ScopeSessions(q);
    var order, linked := GroupLinks(q, byId);
    GatheredAreLinkedPrs(q, order, linked);
    var linkedByPr, ambiguous := PlaceLinked(q, byId, order, linked);
    var splits := KeepUnlinked(q, byId, order, linked);
    var candidates := GroupCandidates(q.prs);
    var byPr, orphans := PlaceSplits(q.prs, splits, candidates);
    var rows, bare := BuildRows(q.prs, linkedByPr, ambiguous, byPr);
    RowsAreBuilt(q, order, linkedByPr, ambiguous, byPr, orphans);
    var totals := SumParts(Parts(scoped, []));
    var unmatched := SumParts(Parts([], orphans));
    var singles := CountLinked(q, order, linked);
    report := Report(rows, totals, orphans, unmatched, bare, singles);
  }

  /** The splits in scope that no link has placed already. */
  method KeepUnlinked(q: Query, byId: map<string, Session>, order: seq<string>, linked: map<string, set<string>>)
    returns (splits: seq<Split>)
    requires byId == ById(ScopedSessions(q)) && LinksGathered(q, q.links, order, linked)
    ensures splits == UnlinkedSplits(q)
  {
    var kept := (s: Split) => s.sessionId in byId && s.sessionId !in linked;
    splits := Filter(q.splits, kept);
    FilterSame(q.splits, kept, Unlinked(q));
  }

  method CountLinked(q: Query, order: seq<string>, linked: map<string, set<string>>) returns (n: nat)
    requires LinksGathered(q, q.links, order, linked)
    ensures n == |Singles(q)|
  {
    var one := (id: string) => |SetAt(linked, id)| == 1;
    n := |Filter(order, one)|;
    forall id | id in order
      ensures CountsSingle(q, one, id)
    {
      LinkedNamesSome(q, id);
      assert SetAt(linked, id) == LinkSet(q, id);
    }
    CountSingles(q, order, one);
  }

  function RowAt(pr: PrInfo, linkedByPr: map<string, seq<Session>>, ambiguous: set<string>,
        byPr: map<string, seq<Split>>): Row
  {
    RowFrom(pr, KeyOf(pr) in ambiguous, At(linkedByPr, KeyOf(pr)), At(byPr, KeyOf(pr)))
  }

  function RowBuilder(linkedByPr: map<string, seq<Session>>, ambiguous: set<string>,
        byPr: map<string, seq<Split>>): PrInfo -> Row
  {
    (pr: PrInfo) => RowAt(pr, linkedByPr, ambiguous, byPr)
  }

  lemma OneMoreRow(rows: seq<Row>, row: Row)
    ensures |Filter(rows + [row], IsBare())| == |Filter(rows, IsBare())| + if row.attribution == Nothing then 1 else 0
  {
    FilterAppend(rows, row, IsBare());
  }

  method BuildRows(prs: seq<PrInfo>, linkedByPr: map<string, seq<Session>>, ambiguous: set<string>,
        byPr: map<string, seq<Split>>)
    returns (rows: seq<Row>, bare: nat)
    ensures rows == Mapped(prs, RowBuilder(linkedByPr, ambiguous, byPr)) && bare == |Filter(rows, IsBare())|
  {
    rows, bare := [], 0;
    ghost var f := RowBuilder(linkedByPr, ambiguous, byPr);
    for i := 0 to |prs|
      invariant rows == Mapped(prs[..i], f) && bare == |Filter(rows, IsBare())|
    {
      var row := BuildRow(prs[i], linkedByPr, ambiguous, byPr);
      OneMoreMapped(prs, i, f);
      OneMoreRow(rows, row);
      if row.attribution == Nothing {
        bare := bare + 1;
      }
      rows := rows + [row];
    }
    assert prs[..|prs|] == prs;
  }

  lemma OneMoreMapped<A, B>(items: seq<A>, i: nat, f: A -> B)
    requires i < |items|
    ensures Mapped(items[..i + 1], f) == Mapped(items[..i], f) + [f(items[i])]
  {
    assert items[..i + 1][..i] == items[..i];
  }

  lemma RowIsBuilt(q: Query, pr: PrInfo, order: seq<string>, linkedByPr: map<string, seq<Session>>,
        ambiguous: set<string>, byPr: map<string, seq<Split>>, orphans: seq<Split>)
    requires order == LinkOrder(q, q.links) && Placed(q, order, linkedByPr, ambiguous)
    requires SplitsPlaced(q.prs, UnlinkedSplits(q), byPr, orphans)
    ensures RowAt(pr, linkedByPr, ambiguous, byPr) == RowOf(q, pr)
  {
  }

  lemma RowsAreBuilt(q: Query, order: seq<string>, linkedByPr: map<string, seq<Session>>, ambiguous: set<string>,
        byPr: map<string, seq<Split>>, orphans: seq<Split>)
    requires order == LinkOrder(q, q.links) && Placed(q, order, linkedByPr, ambiguous)
    requires SplitsPlaced(q.prs, UnlinkedSplits(q), byPr, orphans)
    ensures Mapped(q.prs, RowBuilder(linkedByPr, ambiguous, byPr)) == Rows(q)
  {
    forall pr | pr in q.prs
      ensures RowBuilder(linkedByPr, ambiguous, byPr)(pr) == RowMaker(q)(pr)
    {
      RowIsBuilt(q, pr, order, linkedByPr, ambiguous, byPr, orphans);
    }
    MappedSame(q.prs, RowBuilder(linkedByPr, ambiguous, byPr), RowMaker(q));
  }

  predicate CountsSingle(q: Query, one: string -> bool, id: string) {
    Scoped(q, id) && one(id) == (|LinkSet(q, id)| == 1)
  }

  lemma {:induction false} CountSingles(q: Query, ids: seq<string>, one: string -> bool)
    requires forall id | id in ids :: CountsSingle(q, one, id)
    ensures |Filter(ids, one)| == |Picked(ids, PickSingle(q))|
  {
    if ids == [] {
    } else {
      var front, id := ids[..|ids| - 1], ids[|ids| - 1];
      assert ids == front + [id];
      CountSingles(q, front, one);
      assert CountsSingle(q, one, id);
      FilterAppend(front, id, one);
    }
  }

  method BuildRow(pr: PrInfo, linkedByPr: map<string, seq<Session>>, ambiguous: set<string>,
        byPr: map<string, seq<Split>>)
    returns (row: Row)
    ensures row == RowBuilder(linkedByPr, ambiguous, byPr)(pr)
  {
    var key := KeyOf(pr);
    row := FillRow(pr, key in ambiguous, At(linkedByPr, key), At(byPr, key));
  }

  method FillRow(pr: PrInfo, ambiguous: bool, linked: seq<Session>, matched: seq<Split>) returns (row: Row)
    ensures row == RowFrom(pr, ambiguous, linked, matched)
  {
    if ambiguous {
      row := Row(pr, Shared, 0, UNMEASURED);
      return;
    }
    var sessions := |SessionIds(linked) + SplitIds(matched)|;
    var parts := Parts(linked, matched);
    if |parts| == 0 {
      row := Row(pr, Nothing, 0, UNMEASURED);
    } else if exists s :: s in matched && s.share.None? {
      row := Row(pr, Shared, sessions, UNMEASURED);
    } else {
      var figures := SumParts(parts);
      row := Row(pr, if linked != [] then Linked else Exact, sessions, figures);
    }
  }
}
