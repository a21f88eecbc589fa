/**
 * server/src/auth/store.ts: accounts, memberships and sessions.
 *
 * Every SQL statement is one atomic step over the three tables, so `Run` covers every interleaving
 * of sign-ins, invites and removals, statement by statement. `AuthStore` is the store itself.
 */
module Auth {
  import opened Common

  // A GitHub account's numeric id, and the uuid this service gives it; uuids never repeat.
  type GithubId = nat
  type UserId = nat

  // The hash of a random session token; tokens never repeat either.
  type Hash = nat

  datatype Role = Admin | Ordinary

  datatype Account = Account(id: UserId, login: string, name: Option<string>)

  // The key of org_membership: an invite exists before the account that claims it.
  datatype Seat = Seat(org: string, login: string)
  datatype Membership = Membership(role: Role, user: Option<UserId>)

  datatype Session = Session(user: UserId, expires: int)

  datatype Caller = Caller(user: UserId, role: Role)

  datatype Tables = Tables(
    accounts: map<GithubId, Account>,
    seats: map<Seat, Membership>,
    sessions: map<Hash, Session>,
    nextUser: UserId,
    minted: set<Hash>)

  const NO_TABLES := Tables(map[], map[], map[], 0, {})

  function Lower(s: string): string {
    seq(|s|, i requires 0 <= i < |s| => if 'A' <= s[i] <= 'Z' then s[i] + 32 as char else s[i])
  }

  predicate SameButForCase(a: string, b: string) {
    && |a| == |b|
    && forall i | 0 <= i < |a| ::
      || a[i] == b[i]
      || ('A' <= a[i] <= 'Z' && b[i] as int == a[i] as int + 32)
      || ('A' <= b[i] <= 'Z' && a[i] as int == b[i] as int + 32)
  }

  /** Logins are compared without regard to case. */
  lemma LowerIgnoresCase(a: string, b: string)
    ensures Lower(a) == Lower(b) <==> SameButForCase(a, b)
  {
    if Lower(a) == Lower(b) {
      assert |a| == |Lower(a)| == |Lower(b)| == |b|;
      forall i | 0 <= i < |a|
        ensures a[i] == b[i] || ('A' <= a[i] <= 'Z' && b[i] as int == a[i] as int + 32)
                || ('A' <= b[i] <= 'Z' && a[i] as int == b[i] as int + 32)
      {
        assert Lower(a)[i] == Lower(b)[i];
      }
    }
  }

  // ----- The statements -----

  predicate IsMember(t: Tables, user: UserId, org: string) {
    exists s :: s in t.seats && s.org == org && t.seats[s].user == Some(user)
  }

  predicate HasRole(t: Tables, user: UserId, org: string, role: Role) {
    exists s :: s in t.seats && s.org == org && t.seats[s] == Membership(role, Some(user))
  }

  /** memberOf: the membership joined to the account. */
  function MemberOf(t: Tables, user: UserId, org: string): Option<Caller> {
    if HasRole(t, user, org, Admin) then Some(Caller(user, Admin))
    else if HasRole(t, user, org, Ordinary) then Some(Caller(user, Ordinary))
    else None
  }

  predicate IsAccount(t: Tables, user: UserId) { exists g :: g in t.accounts && t.accounts[g].id == user }

  /** Keyed on the numeric id, so a rename changes the label only. */
  function Upserted(t: Tables, github: GithubId, login: string, name: Option<string>): Tables {
    if github in t.accounts
    then t.(accounts := t.accounts[github := Account(t.accounts[github].id, login, name)])
    else t.(accounts := t.accounts[github := Account(t.nextUser, login, name)], nextUser := t.nextUser + 1)
  }

  /** An unclaimed invite under this login, in an organization the account is not yet in. */
  predicate Claims(t: Tables, user: UserId, login: string, s: Seat)
    requires s in t.seats
  {
    s.login == login && t.seats[s].user.None? && !IsMember(t, user, s.org)
  }

  function Claimed(t: Tables, user: UserId, login: string): Tables {
    t.(seats := map s | s in t.seats ::
         if Claims(t, user, login, s) then t.seats[s].(user := Some(user)) else t.seats[s])
  }

  /** The index on (org, account) refuses an automatic membership; `do nothing` covers the (org, login) key only. */
  predicate JoinFails(t: Tables, org: string, login: string, user: UserId) {
    Seat(org, login) !in t.seats && IsMember(t, user, org)
  }

  function Joined(t: Tables, org: string, login: string, user: UserId): Tables {
    if Seat(org, login) in t.seats || JoinFails(t, org, login, user) then t
    else t.(seats := t.seats[Seat(org, login) := Membership(Ordinary, Some(user))])
  }

  function Invited(t: Tables, org: string, login: string, role: Role): Tables {
    var s := Seat(org, login);
    t.(seats := t.seats[s := Membership(role, if s in t.seats then t.seats[s].user else None)])
  }

  function Unseated(t: Tables, s: Seat): Tables { t.(seats := t.seats - {s}) }

  function SignedOut(t: Tables, user: UserId): Tables {
    t.(sessions := map h | h in t.sessions && t.sessions[h].user != user :: t.sessions[h])
  }

  function Opened(t: Tables, hash: Hash, session: Session): Tables {
    t.(sessions := t.sessions[hash := session], minted := t.minted + {hash})
  }

  function FoundSession(t: Tables, hash: Hash, org: string, now: int): Option<Caller> {
    if hash in t.sessions && t.sessions[hash].expires > now then MemberOf(t, t.sessions[hash].user, org) else None
  }

  // ----- Runs -----

  datatype Step =
    Upsert(github: GithubId, login: string, name: Option<string>)
    | Claim(user: UserId, login: string)
    | Join(org: string, login: string, user: UserId)
    | Invite(org: string, login: string, role: Role)
    | Unseat(seat: Seat)
    | SignOut(user: UserId)
    | Open(hash: Hash, session: Session)
    | Close(hash: Hash)

  /** One statement; a foreign key or a repeated token refuses it. */
  function Next(t: Tables, step: Step): Tables {
    match step
    case Upsert(github, login, name) => Upserted(t, github, Lower(login), name)
    case Claim(user, login) => if IsAccount(t, user) then Claimed(t, user, Lower(login)) else t
    case Join(org, login, user) => if IsAccount(t, user) then Joined(t, org, Lower(login), user) else t
    case Invite(org, login, role) => Invited(t, org, Lower(login), role)
    case Unseat(seat) => Unseated(t, seat)
    case SignOut(user) => SignedOut(t, user)
    case Open(hash, session) => if IsAccount(t, session.user) && hash !in t.minted then Opened(t, hash, session) else t
    case Close(hash) => t.(sessions := t.sessions - {hash})
  }

  function Run(t: Tables, steps: seq<Step>): Tables {
    if steps == [] then t else Next(Run(t, steps[..|steps| - 1]), steps[|steps| - 1])
  }

  // ----- One membership each -----

  predicate OneSeatEach(seats: map<Seat, Membership>) {
    forall a, b | a in seats && b in seats && a.org == b.org && seats[a].user.Some? && seats[a].user == seats[b].user ::
      a == b
  }

  predicate TablesOk(t: Tables) {
    OneSeatEach(t.seats) && AccountsOk(t) && SessionsOk(t) && LowerLogins(t.seats)
  }

  predicate LowerLogins(seats: map<Seat, Membership>) { forall s | s in seats :: IsLower(s.login) }

  predicate IsLower(s: string) { Lower(s) == s }

  lemma StepKeepsTablesOk(t: Tables, step: Step)
    requires TablesOk(t)
    ensures TablesOk(Next(t, step))
  {
    StepKeepsLowerLogins(t, step);
    StepKeepsSeats(t, step);
    StepKeepsAccounts(t, step);
    StepKeepsMinted(t, step);
  }

  predicate AccountsOk(t: Tables) {
    && (forall g | g in t.accounts :: t.accounts[g].id < t.nextUser)
    && IdsApart(t.accounts)
    && (forall s | s in t.seats && t.seats[s].user.Some? :: t.seats[s].user.value < t.nextUser)
  }

  predicate IdsApart(accounts: map<GithubId, Account>) {
    forall g, g' | g in accounts && g' in accounts && accounts[g].id == accounts[g'].id :: g == g'
  }

  lemma UpsertKeepsAccounts(t: Tables, github: GithubId, login: string, name: Option<string>)
    requires AccountsOk(t)
    ensures AccountsOk(Upserted(t, github, login, name))
  {
  }

  predicate SessionsOk(t: Tables) { forall h | h in t.sessions :: h in t.minted }

  lemma StepKeepsAccounts(t: Tables, step: Step)
    requires AccountsOk(t)
    ensures AccountsOk(Next(t, step))
  {
    if step.Upsert? {
      UpsertKeepsAccounts(t, step.github, Lower(step.login), step.name);
    } else {
      assert Next(t, step).accounts == t.accounts && Next(t, step).nextUser == t.nextUser;
    }
  }

  lemma StepKeepsMinted(t: Tables, step: Step)
    requires SessionsOk(t)
    ensures SessionsOk(Next(t, step))
  {
  }

  lemma StepKeepsLowerLogins(t: Tables, step: Step)
    requires LowerLogins(t.seats)
    ensures LowerLogins(Next(t, step).seats)
  {
  }

  lemma StepKeepsSeats(t: Tables, step: Step)
    requires OneSeatEach(t.seats)
    ensures OneSeatEach(Next(t, step).seats)
  {
  }

  /** In every reachable state each account has at most one membership per organization. */
  lemma {:induction false} RunKeepsTablesOk(t: Tables, steps: seq<Step>)
    requires TablesOk(t)
    ensures TablesOk(Run(t, steps))
  {
    if steps == [] {
    } else {
      RunKeepsTablesOk(t, steps[..|steps| - 1]);
      StepKeepsTablesOk(Run(t, steps[..|steps| - 1]), steps[|steps| - 1]);
    }
  }

  /** An account keeps its id through every rename. */
  lemma {:induction false} AccountsKeepTheirId(t: Tables, steps: seq<Step>, github: GithubId)
    requires github in t.accounts
    ensures github in Run(t, steps).accounts && Run(t, steps).accounts[github].id == t.accounts[github].id
  {
    if steps == [] {
    } else {
      AccountsKeepTheirId(t, steps[..|steps| - 1], github);
    }
  }

  // ----- What only a removal or an invite can change -----

  predicate Reinvites(step: Step, s: Seat) { step.Invite? && Seat(step.org, Lower(step.login)) == s }

  lemma SeatStep(t: Tables, step: Step, s: Seat)
    requires s in t.seats && step != Unseat(s)
    ensures var seats := Next(t, step).seats;
      && s in seats
      && (t.seats[s].user.Some? ==> seats[s].user == t.seats[s].user)
      && (!Reinvites(step, s) ==> seats[s].role == t.seats[s].role)
  {
  }

  /** A claimed membership keeps its account until removed, and any membership its role until invited again. */
  lemma {:induction false} SeatsAreKept(t: Tables, steps: seq<Step>, s: Seat)
    requires s in t.seats && Unseat(s) !in steps
    ensures s in Run(t, steps).seats
    ensures t.seats[s].user.Some? ==> Run(t, steps).seats[s].user == t.seats[s].user
    ensures (forall step | step in steps :: !Reinvites(step, s)) ==> Run(t, steps).seats[s].role == t.seats[s].role
  {
    if steps == [] {
    } else {
      var front, last := steps[..|steps| - 1], steps[|steps| - 1];
      assert steps == front + [last] && last in steps;
      SeatsAreKept(t, front, s);
      SeatStep(Run(t, front), last, s);
    }
  }

  // ----- Sign-in -----

  function UserFor(t: Tables, github: GithubId, login: string, name: Option<string>): UserId {
    Upserted(t, github, Lower(login), name).accounts[github].id
  }

  function SignedIn(t: Tables, github: GithubId, login: string, name: Option<string>, org: string,
        autoJoin: bool): Tables
  {
    var user := UserFor(t, github, login, name);
    var bound := Claimed(Upserted(t, github, Lower(login), name), user, Lower(login));
    if MemberOf(bound, user, org).Some? || !autoJoin then bound else Joined(bound, org, Lower(login), user)
  }

  lemma MemberOfSeat(t: Tables, user: UserId, s: Seat)
    requires OneSeatEach(t.seats) && s in t.seats && t.seats[s].user == Some(user)
    ensures MemberOf(t, user, s.org) == Some(Caller(user, t.seats[s].role))
  {
    var role := t.seats[s].role;
    assert t.seats[s] == Membership(role, Some(user));
    assert HasRole(t, user, s.org, role);
    assert role == Admin || role == Ordinary;
    if HasRole(t, user, s.org, Admin) {
      var a :| a in t.seats && a.org == s.org && t.seats[a] == Membership(Admin, Some(user));
      assert a == s;
    }
  }

  lemma MemberOfNobody(t: Tables, user: UserId, org: string)
    ensures MemberOf(t, user, org).None? <==> !IsMember(t, user, org)
  {
    if s :| s in t.seats && s.org == org && t.seats[s].user == Some(user) {
      assert t.seats[s] == Membership(t.seats[s].role, Some(user));
      assert HasRole(t, user, org, t.seats[s].role);
      assert t.seats[s].role == Admin || t.seats[s].role == Ordinary;
    }
  }

  /**
   * What a sign-in yields, in full: the role the account already has; failing that, the role of an
   * unclaimed invite under its login; failing that, and only if no membership holds that login, an
   * ordinary one when joining is automatic. A login somebody else has claimed gets nothing.
   */
  function Admitted(t: Tables, user: UserId, login: string, org: string, autoJoin: bool): Option<Caller> {
    var s := Seat(org, login);
    if IsMember(t, user, org) then MemberOf(t, user, org)
    else if s in t.seats && t.seats[s].user.None? then Some(Caller(user, t.seats[s].role))
    else if s in t.seats || !autoJoin then None
    else Some(Caller(user, Ordinary))
  }

  lemma UpsertKeepsMembers(t: Tables, github: GithubId, login: string, name: Option<string>, user: UserId, org: string)
    ensures var u := Upserted(t, github, login, name);
      IsMember(u, user, org) == IsMember(t, user, org) && MemberOf(u, user, org) == MemberOf(t, user, org)
  {
  }

  lemma ClaimedMember(t: Tables, user: UserId, login: string, org: string)
    requires OneSeatEach(t.seats)
    ensures MemberOf(Claimed(t, user, login), user, org) == Admitted(t, user, login, org, false)
    ensures OneSeatEach(Claimed(t, user, login).seats)
  {
    var after := Claimed(t, user, login);
    if IsMember(t, user, org) {
      var s :| s in t.seats && s.org == org && t.seats[s].user == Some(user);
      MemberOfSeat(t, user, s);
      MemberOfSeat(after, user, s);
    } else if Seat(org, login) in t.seats && t.seats[Seat(org, login)].user.None? {
      MemberOfSeat(after, user, Seat(org, login));
    } else {
      MemberOfNobody(after, user, org);
    }
  }

  lemma JoinedMember(t: Tables, user: UserId, login: string, org: string)
    requires OneSeatEach(t.seats) && !IsMember(t, user, org)
    ensures !JoinFails(t, org, login, user)
    ensures MemberOf(Joined(t, org, login, user), user, org) ==
      if Seat(org, login) in t.seats then None else Some(Caller(user, Ordinary))
  {
  }

  lemma SignInAdmits(t: Tables, github: GithubId, login: string, name: Option<string>, org: string, autoJoin: bool)
    requires TablesOk(t)
    ensures var user := UserFor(t, github, login, name);
      MemberOf(SignedIn(t, github, login, name, org, autoJoin), user, org) ==
        Admitted(t, user, Lower(login), org, autoJoin)
  {
    var user, l := UserFor(t, github, login, name), Lower(login);
    var named := Upserted(t, github, l, name);
    var bound := Claimed(named, user, l);
    UpsertKeepsMembers(t, github, l, name, user, org);
    ClaimedMember(named, user, l, org);
    MemberOfNobody(t, user, org);
    MemberOfNobody(bound, user, org);
    if MemberOf(bound, user, org).None? && autoJoin {
      JoinedMember(bound, user, l, org);
    }
  }

  lemma SignInKeepsTablesOk(t: Tables, github: GithubId, login: string, name: Option<string>, org: string,
        autoJoin: bool)
    requires TablesOk(t)
    ensures TablesOk(SignedIn(t, github, login, name, org, autoJoin))
  {
    var user, named := UserFor(t, github, login, name), Upserted(t, github, Lower(login), name);
    assert named.accounts[github].id == user;
    var bound := Claimed(named, user, Lower(login));
    assert named == Next(t, Upsert(github, login, name));
    assert bound == Next(named, Claim(user, login));
    assert bound.accounts[github].id == user;
    assert Joined(bound, org, Lower(login), user) == Next(bound, Join(org, login, user));
    RunOfThree(t, Upsert(github, login, name), Claim(user, login), Join(org, login, user));
  }

  lemma RunOfThree(t: Tables, a: Step, b: Step, c: Step)
    requires TablesOk(t)
    ensures TablesOk(Next(Next(t, a), b)) && TablesOk(Next(Next(Next(t, a), b), c))
  {
    StepKeepsTablesOk(t, a);
    StepKeepsTablesOk(Next(t, a), b);
    StepKeepsTablesOk(Next(Next(t, a), b), c);
  }

  /** Signing in under a login that another account has claimed gives no membership and changes none. */
  lemma FreedLoginIsRefused(t: Tables, github: GithubId, login: string, name: Option<string>, org: string,
        autoJoin: bool)
    requires TablesOk(t)
    requires var s := Seat(org, Lower(login)); s in t.seats && t.seats[s].user.Some?
    requires !IsMember(t, UserFor(t, github, login, name), org)
    ensures var after := SignedIn(t, github, login, name, org, autoJoin);
      && MemberOf(after, UserFor(t, github, login, name), org) == None
      && forall s | s in t.seats && s.org == org :: s in after.seats && after.seats[s] == t.seats[s]
  {
  }

  // ----- Sessions -----

  /** Of these steps, one that ends the session. */
  predicate Ends(step: Step, hash: Hash, user: UserId) { step == SignOut(user) || step == Close(hash) }

  predicate Unended(steps: seq<Step>, hash: Hash, user: UserId)
  {
    forall step | step in steps :: !Ends(step, hash, user)
  }

  lemma UnendedGrows(steps: seq<Step>, last: Step, hash: Hash, user: UserId)
    ensures Unended(steps + [last], hash, user) <==> Unended(steps, hash, user) && !Ends(last, hash, user)
  {
    assert last in steps + [last];
    assert forall step | step in steps :: step in steps + [last];
  }

  lemma SessionStep(t: Tables, step: Step, hash: Hash)
    requires hash in t.minted
    ensures var after := Next(t, step);
      && hash in after.minted
      && (hash in after.sessions <==> hash in t.sessions && !Ends(step, hash, t.sessions[hash].user))
      && (hash in after.sessions ==> after.sessions[hash] == t.sessions[hash])
  {
  }

  /** A session is there until something ends it, and never again after. */
  lemma {:induction false} SessionLastsUntilEnded(t: Tables, steps: seq<Step>, hash: Hash)
    requires hash in t.minted
    ensures var after := Run(t, steps);
      && hash in after.minted
      && (hash in after.sessions <==> hash in t.sessions && Unended(steps, hash, t.sessions[hash].user))
      && (hash in after.sessions ==> after.sessions[hash] == t.sessions[hash])
  {
    if steps == [] {
    } else {
      var front, last := steps[..|steps| - 1], steps[|steps| - 1];
      assert steps == front + [last];
      SessionLastsUntilEnded(t, front, hash);
      SessionStep(Run(t, front), last, hash);
      if hash in t.sessions {
        UnendedGrows(front, last, hash, t.sessions[hash].user);
      }
    }
  }

  /** A removal runs two statements: the membership goes, then its account's sessions. */
  function HalfRemoved(t: Tables, s: Seat): Tables { Unseated(t, s) }

  function Removed(t: Tables, s: Seat): Tables {
    if s in t.seats && t.seats[s].user.Some? then SignedOut(Unseated(t, s), t.seats[s].user.value) else Unseated(t, s)
  }

  /** A session from before a removal never resolves again, whatever is invited or restored afterwards. */
  lemma RemovalEndsSessions(t: Tables, s: Seat, hash: Hash, steps: seq<Step>, org: string, now: int)
    requires TablesOk(t) && s in t.seats && t.seats[s].user.Some?
    requires hash in t.sessions && t.sessions[hash].user == t.seats[s].user.value
    ensures FoundSession(Run(Removed(t, s), steps), hash, org, now) == None
  {
    SessionLastsUntilEnded(Removed(t, s), steps, hash);
  }

  /**
   * If the removal stops between its statements, a session resolves later exactly when nothing has
   * ended it since, it has not expired, and its account is a member again.
   */
  lemma HalfRemovalKeepsSessionsExactlyWhen(t: Tables, s: Seat, hash: Hash, steps: seq<Step>, org: string, now: int)
    requires TablesOk(t) && hash in t.sessions
    ensures var user, after := t.sessions[hash].user, Run(HalfRemoved(t, s), steps);
      FoundSession(after, hash, org, now).Some? <==>
        && Unended(steps, hash, user)
        && now < t.sessions[hash].expires
        && IsMember(after, user, org)
  {
    var user, after := t.sessions[hash].user, Run(HalfRemoved(t, s), steps);
    SessionLastsUntilEnded(HalfRemoved(t, s), steps, hash);
    MemberOfNobody(after, user, org);
  }

  /** The invite is there again, unclaimed, and its account is in no other seat of the organization. */
  lemma RestoredInvite(t: Tables, s: Seat, user: UserId)
    requires TablesOk(t) && s in t.seats && t.seats[s].user == Some(user) && IsAccount(t, user)
    ensures var invited := Next(HalfRemoved(t, s), Invite(s.org, s.login, Ordinary));
      && invited.sessions == t.sessions && OneSeatEach(invited.seats) && IsAccount(invited, user)
      && Lower(s.login) == s.login && s in invited.seats && invited.seats[s] == Membership(Ordinary, None)
      && !IsMember(invited, user, s.org)
  {
    assert IsLower(s.login);
    StepKeepsSeats(HalfRemoved(t, s), Invite(s.org, s.login, Ordinary));
  }

  /** So it does come back: invite the member again, let them sign in, and the old session resolves. */
  lemma HalfRemovalLetsASessionBack(t: Tables, s: Seat, hash: Hash, now: int)
    requires TablesOk(t) && s in t.seats && hash in t.sessions && now < t.sessions[hash].expires
    requires t.seats[s].user == Some(t.sessions[hash].user) && IsAccount(t, t.sessions[hash].user)
    ensures var user := t.sessions[hash].user;
      FoundSession(Run(HalfRemoved(t, s), [Invite(s.org, s.login, Ordinary), Claim(user, s.login)]), hash, s.org, now)
        == Some(Caller(user, Ordinary))
  {
    var user := t.sessions[hash].user;
    var half := HalfRemoved(t, s);
    var invite, claim := Invite(s.org, s.login, Ordinary), Claim(user, s.login);
    var invited := Next(half, invite);
    TwoSteps(half, invite, claim);
    RestoredInvite(t, s, user);
    ClaimedMember(invited, user, s.login, s.org);
  }

  /** A sign-in is a run of its statements, so all of the above holds of it. */
  lemma SignInIsARun(t: Tables, github: GithubId, login: string, name: Option<string>, org: string, autoJoin: bool)
    ensures var user := UserFor(t, github, login, name);
      var bound := Run(t, [Upsert(github, login, name), Claim(user, login)]);
      SignedIn(t, github, login, name, org, autoJoin) ==
        if MemberOf(bound, user, org).Some? || !autoJoin then bound else Next(bound, Join(org, login, user))
  {
    var user := UserFor(t, github, login, name);
    TwoSteps(t, Upsert(github, login, name), Claim(user, login));
    assert Next(t, Upsert(github, login, name)).accounts[github].id == user;
  }

  /** And so is a removal. */
  lemma RemovalIsARun(t: Tables, s: Seat)
    requires s in t.seats && t.seats[s].user.Some?
    ensures Removed(t, s) == Run(t, [Unseat(s), SignOut(t.seats[s].user.value)])
  {
    TwoSteps(t, Unseat(s), SignOut(t.seats[s].user.value));
  }

  lemma TwoSteps(t: Tables, a: Step, b: Step)
    ensures Run(t, [a, b]) == Next(Next(t, a), b)
  {
    assert [a, b][..1] == [a] && [a][..0] == [];
    assert Run(t, [a]) == Next(t, a);
  }

  // ----- The store -----

  class AuthStore {
    var tables: Tables

    ghost predicate Valid()
      reads this
    {
      TablesOk(tables)
    }

    constructor ()
      ensures Valid() && tables == NO_TABLES
    {
      tables := NO_TABLES;
    }

    method UpsertAccount(github: GithubId, login: string, name: Option<string>) returns (user: UserId)
      requires Valid()
      modifies this
      ensures Valid() && tables == Upserted(old(tables), github, login, name)
      ensures github in tables.accounts && tables.accounts[github] == Account(user, login, name)
      ensures github in old(tables).accounts ==> user == old(tables).accounts[github].id
      ensures github !in old(tables).accounts ==> forall g | g in old(tables).accounts ::
        old(tables).accounts[g].id != user
    {
      StepKeepsTablesOk(tables, Upsert(github, login, name));
      if github in tables.accounts {
        user := tables.accounts[github].id;
        tables := tables.(accounts := tables.accounts[github := Account(user, login, name)]);
      } else {
        user := tables.nextUser;
        tables := tables.(accounts := tables.accounts[github := Account(user, login, name)], nextUser := user + 1);
      }
    }

    method SignIn(github: GithubId, login: string, name: Option<string>, org: string, autoJoin: bool)
      returns (caller: Option<Caller>)
      requires Valid()
      modifies this
      ensures Valid() && tables == SignedIn(old(tables), github, login, name, org, autoJoin)
      ensures caller == Admitted(old(tables), UserFor(old(tables), github, login, name), Lower(login), org, autoJoin)
    {
      SignInAdmits(tables, github, login, name, org, autoJoin);
      SignInKeepsTablesOk(tables, github, login, name, org, autoJoin);
      var key := Lower(login);
      var user := UpsertAccount(github, key, name);
      tables := Claimed(tables, user, key);
      caller := MemberOf(tables, user, org);
      if caller.None? && autoJoin {
        tables := Joined(tables, org, key, user);
        caller := MemberOf(tables, user, org);
      }
    }

    /** Inviting somebody who is already in changes their role and nothing else. */
    method InviteLogin(org: string, login: string, role: Role) returns (created: bool)
      requires Valid()
      modifies this
      ensures Valid() && tables == Invited(old(tables), org, Lower(login), role)
      ensures created <==> Seat(org, Lower(login)) !in old(tables).seats
      ensures var s := Seat(org, Lower(login));
        && s in tables.seats && tables.seats[s].role == role
        && tables.seats[s].user == (if created then None else old(tables).seats[s].user)
        && (forall o | o != s :: o in tables.seats <==> o in old(tables).seats)
        && (forall o | o in tables.seats && o != s :: tables.seats[o] == old(tables).seats[o])
        && tables == old(tables).(seats := tables.seats)
    {
      StepKeepsTablesOk(tables, Invite(org, login, role));
      var s := Seat(org, Lower(login));
      created := s !in tables.seats;
      tables := tables.(seats := tables.seats[s := Membership(role, if created then None else tables.seats[s].user)]);
    }

    method RemoveMember(org: string, login: string) returns (removed: bool)
      requires Valid()
      modifies this
      ensures Valid() && tables == Removed(old(tables), Seat(org, Lower(login)))
      ensures removed <==> Seat(org, Lower(login)) in old(tables).seats
      ensures var s := Seat(org, Lower(login));
        && tables.seats == old(tables).seats - {s} && tables.accounts == old(tables).accounts
        && forall h | h in old(tables).sessions ::
          h in tables.sessions <==> !(removed && old(tables).seats[s].user == Some(old(tables).sessions[h].user))
    {
      var s := Seat(org, Lower(login));
      removed := s in tables.seats;
      var user := if removed then tables.seats[s].user else None;
      StepKeepsTablesOk(tables, Unseat(s));
      tables := Unseated(tables, s);
      if user.Some? {
        StepKeepsTablesOk(tables, SignOut(user.value));
        tables := SignedOut(tables, user.value);
      }
    }

    method CreateSession(hash: Hash, user: UserId, expires: int)
      requires Valid() && IsAccount(tables, user) && hash !in tables.minted
      modifies this
      ensures Valid() && tables == Opened(old(tables), hash, Session(user, expires))
      ensures tables.sessions == old(tables).sessions[hash := Session(user, expires)]
      ensures tables.seats == old(tables).seats && tables.accounts == old(tables).accounts
    {
      tables := Opened(tables, hash, Session(user, expires));
    }

    /** The member behind a live session, with the role of their seat; nobody otherwise. */
    method FindSession(hash: Hash, org: string, now: int) returns (caller: Option<Caller>)
      ensures caller == FoundSession(tables, hash, org, now)
      ensures caller.Some? <==>
        && hash in tables.sessions && now < tables.sessions[hash].expires
        && IsMember(tables, tables.sessions[hash].user, org)
      ensures caller.Some? ==>
        caller.value.user == tables.sessions[hash].user && HasRole(tables, caller.value.user, org, caller.value.role)
    {
      if hash in tables.sessions {
        MemberOfNobody(tables, tables.sessions[hash].user, org);
      }
      caller := None;
      if hash in tables.sessions && tables.sessions[hash].expires > now {
        caller := MemberOf(tables, tables.sessions[hash].user, org);
      }
    }

    method DeleteSession(hash: Hash)
      requires Valid()
      modifies this
      ensures Valid() && tables == old(tables).(sessions := old(tables).sessions - {hash})
    {
      tables := tables.(sessions := tables.sessions - {hash});
    }
  }
}
