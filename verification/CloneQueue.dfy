/**
 * server/src/workspace/queue.ts, turn by turn: a turn is what runs between two awaits, and turns may
 * come in any order the event loop could produce. Statements run in the store between the turns.
 */
module CloneQueue {
  import opened Common
  import opened UserRepos

  type Ticket = int

  type PassId = int

  // A pass that runs: waiting for its claim, with the answer on its way, or done but not yet cleared.
  datatype Pass = Asking(room: nat) | Answered(batch: seq<Key>) | Finishing

  // The polling chain: before start, rows recovered, timer set, waiting for a pass, woken by it, over.
  datatype Poll = NotStarted | Recovered | Armed | Joined(pass: PassId) | Woken | Over

  datatype Clone = Fetching(key: Key) | Recorded(key: Key)

  datatype PassTurn = ClaimRuns(locked: set<Key>, now: int) | ClaimFails | ClaimArrives | PassClears

  datatype CloneTurn = Record(ok: bool, lost: bool, error: string, now: int) | CloneEnds

  datatype Turn =
    | Kick | Stop | Recover | Loop | TimerFires | PollResumes
    | OfPass(pass: PassId, turn: PassTurn)
    | OfClone(ticket: Ticket, cloneTurn: CloneTurn)

  /** One clone for each claimed row, numbered on from `from`. */
  function Begun(clones: map<Ticket, Clone>, from: Ticket, batch: seq<Key>): map<Ticket, Clone> {
    if batch == [] then clones
    else Begun(clones, from, batch[..|batch| - 1])[from + |batch| - 1 := Fetching(batch[|batch| - 1])]
  }

  lemma BegunOneMore(clones: map<Ticket, Clone>, from: Ticket, batch: seq<Key>, i: nat)
    requires i < |batch|
    ensures Begun(clones, from, batch[..i + 1]) == Begun(clones, from, batch[..i])[from + i := Fetching(batch[i])]
  {
    assert batch[..i + 1][..i] == batch[..i];
  }

  predicate Numbered(clones: map<Ticket, Clone>, below: Ticket) { forall t | t in clones :: t < below }

  lemma {:induction false} BegunSize(clones: map<Ticket, Clone>, from: Ticket, batch: seq<Key>)
    requires Numbered(clones, from)
    ensures |Begun(clones, from, batch)| == |clones| + |batch| && Numbered(Begun(clones, from, batch), from + |batch|)
  {
    if batch == [] {
    } else {
      var front, t := batch[..|batch| - 1], from + |batch| - 1;
      BegunSize(clones, from, front);
      AddedKey(Begun(clones, from, front), t, Fetching(batch[|batch| - 1]));
    }
  }

  /** The clones there were go on as they were, and the new ones are the batch, in order. */
  lemma {:induction false} BegunAt(clones: map<Ticket, Clone>, from: Ticket, batch: seq<Key>, t: Ticket)
    requires Numbered(clones, from)
    ensures var after := Begun(clones, from, batch);
      && (t < from ==> (t in after <==> t in clones) && (t in after ==> after[t] == clones[t]))
      && (t >= from ==> (t in after <==> t < from + |batch|) && (t in after ==> after[t] == Fetching(batch[t - from])))
  {
    if batch == [] {
    } else {
      BegunAt(clones, from, batch[..|batch| - 1], t);
    }
  }

  lemma BegunAll(clones: map<Ticket, Clone>, from: Ticket, batch: seq<Key>)
    requires Numbered(clones, from)
    ensures var after := Begun(clones, from, batch);
      && (forall t | t in clones :: t in after && after[t] == clones[t])
      && (forall t | t in after && t !in clones :: from <= t < from + |batch| && after[t] == Fetching(batch[t - from]))
  {
    var after := Begun(clones, from, batch);
    forall t | t in clones
      ensures t in after && after[t] == clones[t]
    {
      BegunAt(clones, from, batch, t);
    }
    forall t | t in after && t !in clones
      ensures from <= t < from + |batch| && after[t] == Fetching(batch[t - from])
    {
      BegunAt(clones, from, batch, t);
    }
  }

  lemma AddedKey(m: map<Ticket, Clone>, t: Ticket, c: Clone)
    requires t !in m
    ensures |m[t := c]| == |m| + 1
  {
  }

  /** The slots a pass may still fill are free. */
  predicate PassFits(pass: Pass, inFlight: int, concurrency: nat) {
    match pass
    case Asking(room) => 0 < room && inFlight + room <= concurrency
    case Answered(batch) => inFlight + |batch| <= concurrency
    case Finishing => true
  }

  /** Every claimed row and every running clone is one of `rows`. */
  predicate PassesKnown(passes: map<PassId, Pass>, rows: set<Key>) {
    forall id, k | id in passes && passes[id].Answered? && k in passes[id].batch :: k in rows
  }

  predicate ClonesKnown(clones: map<Ticket, Clone>, rows: set<Key>) { forall t | t in clones :: clones[t].key in rows }

  lemma {:induction false} BegunKnown(clones: map<Ticket, Clone>, from: Ticket, batch: seq<Key>, rows: set<Key>)
    requires ClonesKnown(clones, rows) && forall k | k in batch :: k in rows
    ensures ClonesKnown(Begun(clones, from, batch), rows)
  {
    if batch == [] {
    } else {
      assert batch[|batch| - 1] in batch;
      BegunKnown(clones, from, batch[..|batch| - 1], rows);
    }
  }

  class Queue {
    const concurrency: nat
    const store: UserRepoStore
    var stopped: bool
    var inFlight: int
    var passing: Option<PassId>
    var poll: Poll
    // The coroutines: every pass that has begun and is not cleared, and every clone that has begun and not ended.
    var passes: map<PassId, Pass>
    var clones: map<Ticket, Clone>
    var nextPass: PassId
    var next: Ticket

    /** `passing` is the pass that runs, and no other runs. */
    ghost predicate OnePass()
      reads this
    {
      && (passing.None? ==> passes == map[])
      && (passing.Some? ==> passing.value in passes && passing.value < nextPass)
      && (forall id | id in passes :: passing == Some(id))
    }

    ghost predicate Counted()
      reads this
    {
      && inFlight == |clones| <= concurrency
      && (forall id | id in passes :: PassFits(passes[id], inFlight, concurrency))
      && Numbered(clones, next)
    }

    /** Until stop, the polling chain never breaks, and there is only the one. */
    ghost predicate Polled()
      reads this
    {
      && (poll.Joined? ==> poll.pass in passes)
      && (poll.Over? ==> stopped)
      && (poll.Armed? ==> !stopped)
    }

    ghost predicate Valid()
      reads this
    {
      OnePass() && Counted() && Polled()
    }

    constructor (concurrency: nat, store: UserRepoStore)
      ensures Valid() && this.concurrency == concurrency && this.store == store
      ensures !stopped && inFlight == 0 && passing.None? && poll == NotStarted && clones == map[]
    {
      this.concurrency, this.store := concurrency, store;
      stopped, inFlight, passing, poll := false, 0, None, NotStarted;
      passes, clones, nextPass, next := map[], map[], 0, 0;
    }

    /** How far a pass gets before its first await. */
    function FirstTurn(): Pass
      reads this
    {
      if stopped || concurrency - inFlight <= 0 then Finishing else Asking(concurrency - inFlight)
    }

    /** What `passes` is once a pass was asked for. */
    function Joining(): map<PassId, Pass>
      reads this
    {
      if passing.Some? then passes else passes[nextPass := FirstTurn()]
    }

    /** A pass under way is joined; otherwise one begins, and asks for the slots that are free. */
    method RunPass() returns (id: PassId)
      requires Valid()
      modifies this`passing, this`passes, this`nextPass
      ensures Valid() && passing == Some(id) && id in passes && passes == old(Joining())
      ensures passing == if old(passing).Some? then old(passing) else Some(old(nextPass))
      ensures old(passing).Some? ==> passes == old(passes)
      ensures old(passing).None? ==>
        passes[id] == if stopped || inFlight >= concurrency then Finishing else Asking(concurrency - inFlight)
    {
      if passing.None? {
        passes := passes[nextPass := FirstTurn()];
        passing := Some(nextPass);
        nextPass := nextPass + 1;
      }
      id := passing.value;
    }

    /** settle(): idle is announced with no pass running and no clone in flight, and only then. */
    method Settle() returns (idle: bool)
      requires Valid()
      ensures idle <==> passes == map[] && clones == map[]
    {
      idle := passing.None? && inFlight == 0;
      assert inFlight == 0 <==> clones == map[];
      assert passing.None? <==> passes == map[];
    }

    method KickNow()
      requires Valid()
      modifies this`passing, this`passes, this`nextPass
      ensures Valid() && (!stopped ==> passing.Some?)
      ensures stopped || old(passing).Some? ==> passing == old(passing)
      ensures passes == if stopped then old(passes) else old(Joining())
    {
      if !stopped {
        var _ := RunPass();
      }
    }

    method StopNow()
      requires Valid()
      modifies this`stopped, this`poll
      ensures Valid() && stopped && poll == if old(poll).Armed? then Over else old(poll)
    {
      stopped := true;
      if poll.Armed? {
        poll := Over;
      }
    }

    /** start(): rows stranded by a restart go back to the queue before anything else. */
    method RecoverRows()
      requires Valid() && store.Valid() && poll.NotStarted?
      modifies store, this`poll
      ensures Valid() && store.Valid() && poll == Recovered && store.rows == Requeued(old(store.rows))
    {
      var _ := store.RequeueStranded();
      poll := Recovered;
    }

    /** loop(), called by start or by the timer. */
    method LoopOnce()
      requires Valid() && (poll.Recovered? || poll.Armed?)
      modifies this`passing, this`passes, this`nextPass, this`poll
      ensures Valid()
      ensures stopped ==> poll == Over && passing == old(passing) && passes == old(passes)
      ensures !stopped ==> passing.Some? && poll == Joined(passing.value) && passes == old(Joining())
      ensures old(passing).Some? ==> passing == old(passing)
    {
      if stopped {
        poll := Over;
      } else {
        var id := RunPass();
        poll := Joined(id);
      }
    }

    /** The claim statement: never more rows than the slots that were free when the pass asked. */
    method RunClaim(id: PassId, locked: set<Key>, now: int)
      requires Valid() && store.Valid() && id in passes && passes[id].Asking?
      modifies store, this`passes
      ensures Valid() && store.Valid()
      ensures id in passes && passes[id].Answered? && passes == old(passes)[id := passes[id]]
      ensures IsBatch(old(store.rows), locked, old(passes)[id].room, passes[id].batch)
      ensures store.rows == Claimed(old(store.rows), passes[id].batch, now)
    {
      var batch := store.ClaimPending(passes[id].room, locked, now);
      passes := passes[id := Answered(batch)];
    }

    method FailClaim(id: PassId)
      requires Valid() && id in passes && passes[id].Asking?
      modifies this`passes
      ensures Valid() && passes == old(passes)[id := Finishing]
    {
      passes := passes[id := Finishing];
    }

    /** Every claimed row is started at once; a pass does not wait for its clones. */
    method StartClones(id: PassId)
      requires Valid() && id in passes && passes[id].Answered?
      modifies this`passes, this`inFlight, this`clones, this`next
      ensures Valid() && passes == old(passes)[id := Finishing] && next == old(next) + |old(passes)[id].batch|
      ensures clones == Begun(old(clones), old(next), old(passes)[id].batch)
      ensures forall t | t in old(clones) :: t in clones && clones[t] == old(clones)[t]
      ensures forall t | t in clones && t !in old(clones) ::
        old(next) <= t < next && clones[t] == Fetching(old(passes)[id].batch[t - old(next)])
      ensures |clones| == |old(clones)| + |old(passes)[id].batch|
    {
      var batch := passes[id].batch;
      BegunAll(clones, next, batch);
      assert PassFits(passes[id], inFlight, concurrency);
      assert passing == Some(id);
      BegunSize(clones, next, batch);
      BeginAll(batch);
      passes := passes[id := Finishing];
    }

    method BeginAll(batch: seq<Key>)
      modifies this`inFlight, this`clones, this`next
      ensures next == old(next) + |batch| && inFlight == old(inFlight) + |batch|
      ensures clones == Begun(old(clones), old(next), batch)
    {
      ghost var was, first := clones, next;
      for i := 0 to |batch|
        invariant next == first + i && inFlight == old(inFlight) + i
        invariant clones == Begun(was, first, batch[..i])
      {
        BegunOneMore(was, first, batch, i);
        inFlight := inFlight + 1;
        clones := clones[next := Fetching(batch[i])];
        next := next + 1;
      }
      assert batch[..|batch|] == batch;
    }

    /** The pass's own cleanup sets `passing` to null, whichever pass that names: it is always its own. */
    method ClearPass(id: PassId) returns (idle: bool)
      requires Valid() && id in passes && passes[id].Finishing?
      modifies this`passing, this`passes, this`poll
      ensures Valid() && old(passing) == Some(id) && passing.None? && passes == map[]
      ensures poll == if old(poll).Joined? then Woken else old(poll)
      ensures idle <==> clones == map[]
    {
      OnlyKey(passes, id);
      passing := None;
      passes := passes - {id};
      if poll == Joined(id) {
        poll := Woken;
      }
      idle := Settle();
    }

    method ResumePoll()
      requires Valid() && poll.Woken?
      modifies this`poll
      ensures Valid() && poll == if stopped then Over else Armed
    {
      poll := if stopped then Over else Armed;
    }

    method WriteResult(key: Key, ok: bool, error: string, now: int)
      requires Valid() && store.Valid()
      modifies store
      ensures Valid() && store.Valid()
      ensures store.rows ==
        if ok then MarkedReady(old(store.rows), key, now) else MarkedFailed(old(store.rows), key, error)
    {
      if ok {
        store.MarkReady(key, now);
      } else {
        store.MarkFailed(key, error);
      }
    }

    /** The clone's result reaches its row, unless writing it fails. */
    method RecordClone(ticket: Ticket, ok: bool, lost: bool, error: string, now: int)
      requires Valid() && store.Valid() && ticket in clones && clones[ticket].Fetching?
      modifies store, this`clones
      ensures Valid() && store.Valid() && clones == old(clones)[ticket := Recorded(old(clones)[ticket].key)]
      ensures clones.Keys == old(clones).Keys
      ensures store.rows == var key := old(clones)[ticket].key;
        if lost then old(store.rows) else if ok then MarkedReady(old(store.rows), key, now)
        else MarkedFailed(old(store.rows), key, error)
    {
      var key := clones[ticket].key;
      if !lost {
        WriteResult(key, ok, error, now);
      }
      MarkRecorded(ticket);
    }

    method MarkRecorded(ticket: Ticket)
      requires Valid() && ticket in clones && clones[ticket].Fetching?
      modifies this`clones
      ensures Valid() && clones == old(clones)[ticket := Recorded(old(clones)[ticket].key)]
      ensures clones.Keys == old(clones).Keys
    {
      SameKeys(clones, ticket, Recorded(clones[ticket].key));
      clones := clones[ticket := Recorded(clones[ticket].key)];
    }

    /** A clone frees its slot and, until stop, has a pass running to refill it. */
    method EndClone(ticket: Ticket) returns (idle: bool)
      requires Valid() && ticket in clones && clones[ticket].Recorded?
      modifies this`inFlight, this`clones, this`passing, this`passes, this`nextPass
      ensures Valid() && clones == old(clones) - {ticket}
      ensures stopped ==> passing == old(passing) && passes == old(passes)
      ensures stopped ==> (idle <==> passes == map[] && clones == map[])
      ensures !stopped ==> !idle && passing == if old(passing).Some? then old(passing) else Some(old(nextPass))
      ensures !stopped && old(passing).Some? ==> passes == old(passes)
      ensures !stopped && old(passing).None? ==> passes == old(passes)[old(nextPass) := Asking(concurrency - inFlight)]
    {
      FreeSlot(ticket);
      if stopped {
        idle := Settle();
      } else {
        Refill();
        idle := false;
      }
    }

    method Refill()
      requires Valid() && !stopped && inFlight < concurrency
      modifies this`passing, this`passes, this`nextPass
      ensures Valid() && passing == if old(passing).Some? then old(passing) else Some(old(nextPass))
      ensures old(passing).Some? ==> passes == old(passes)
      ensures old(passing).None? ==> passes == old(passes)[old(nextPass) := Asking(concurrency - inFlight)]
    {
      var _ := RunPass();
    }

    method FreeSlot(ticket: Ticket)
      requires Valid() && ticket in clones
      modifies this`inFlight, this`clones
      ensures Valid() && clones == old(clones) - {ticket} && inFlight < concurrency
    {
      Removed(clones, ticket);
      inFlight := inFlight - 1;
      clones := clones - {ticket};
    }

    // ----- Any order of turns -----

    predicate Enabled(turn: Turn)
      reads this
    {
      match turn
      case Kick => true
      case Stop => true
      case Recover => poll.NotStarted?
      case Loop => poll.Recovered?
      case TimerFires => poll.Armed?
      case PollResumes => poll.Woken?
      case OfPass(id, passTurn) =>
        && id in passes
        && (passTurn.ClaimRuns? || passTurn.ClaimFails? ==> passes[id].Asking?)
        && (passTurn.ClaimArrives? ==> passes[id].Answered?)
        && (passTurn.PassClears? ==> passes[id].Finishing?)
      case OfClone(t, cloneTurn) =>
        t in clones && if cloneTurn.Record? then clones[t].Fetching? else clones[t].Recorded?
    }

    ghost predicate Known()
      reads this, store
    {
      PassesKnown(passes, store.rows.Keys) && ClonesKnown(clones, store.rows.Keys)
    }

    /** Once the chain has started it stays alive until stop. */
    ghost predicate Polling()
      reads this
    {
      stopped || poll.Armed? || poll.Joined? || poll.Woken?
    }

    /** Stopped, and not waiting for a claim made before that. */
    ghost predicate Stopping()
      reads this
    {
      stopped && forall id | id in passes :: passes[id].Finishing?
    }

    /** What a turn does to the queue. */
    twostate predicate Moved(turn: Turn)
      reads this
    {
      match turn
      case Kick => stopped || passing.Some?
      case Stop => stopped
      case Recover => poll == Recovered
      case Loop => if stopped then poll == Over else passing.Some? && poll == Joined(passing.value)
      case TimerFires => if stopped then poll == Over else passing.Some? && poll == Joined(passing.value)
      case PollResumes => poll == if stopped then Over else Armed
      case OfPass(id, passTurn) => PassMoved(id, passTurn)
      case OfClone(ticket, cloneTurn) => CloneMoved(ticket, cloneTurn)
    }

    twostate predicate PassMoved(id: PassId, turn: PassTurn)
      reads this
    {
      match turn
      case ClaimRuns(_, _) => id in passes && passes[id].Answered? && clones == old(clones)
      case ClaimFails => passes == old(passes)[id := Finishing] && clones == old(clones)
      case ClaimArrives =>
        && id in old(passes) && old(passes)[id].Answered? && passes == old(passes)[id := Finishing]
        && |clones| == |old(clones)| + |old(passes)[id].batch|
      case PassClears => passing.None? && clones == old(clones)
    }

    twostate predicate CloneMoved(ticket: Ticket, turn: CloneTurn)
      reads this
    {
      match turn
      case Record(_, _, _, _) =>
        ticket in old(clones) && clones == old(clones)[ticket := Recorded(old(clones)[ticket].key)]
      case CloneEnds => clones == old(clones) - {ticket} && (stopped || passing.Some?)
    }

    method Take(turn: Turn) returns (idle: bool)
      requires Valid() && store.Valid() && Enabled(turn)
      modifies this, store
      ensures Valid() && store.Valid() && Moved(turn) && (idle ==> passes == map[] && clones == map[])
      ensures old(Polling()) ==> Polling()
      ensures old(Known()) ==> Known()
      ensures old(Stopping()) ==> Stopping() && clones.Keys <= old(clones).Keys
    {
      if turn.OfPass? {
        idle := TakePassTurn(turn.pass, turn.turn);
      } else if turn.OfClone? {
        idle := TakeCloneTurn(turn.ticket, turn.cloneTurn);
      } else {
        idle := false;
        match turn
        case Kick => KickNow();
        case Stop => StopNow();
        case Recover => RecoverRows();
        case Loop => LoopOnce();
        case TimerFires => LoopOnce();
        case PollResumes => ResumePoll();
      }
    }

    method TakePassTurn(id: PassId, turn: PassTurn) returns (idle: bool)
      requires Valid() && store.Valid() && Enabled(OfPass(id, turn))
      modifies this, store
      ensures Valid() && store.Valid() && PassMoved(id, turn) && (idle ==> passes == map[] && clones == map[])
      ensures stopped == old(stopped) && (old(Polling()) ==> Polling())
      ensures old(Known()) ==> Known()
      ensures old(Stopping()) ==> Stopping() && clones.Keys <= old(clones).Keys
    {
      idle := false;
      match turn
      case ClaimRuns(locked, now) => RunClaim(id, locked, now);
      case ClaimFails => FailClaim(id);
      case ClaimArrives =>
        if Known() {
          BegunKnown(clones, next, passes[id].batch, store.rows.Keys);
        }
        StartClones(id);
      case PassClears => idle := ClearPass(id);
    }

    method TakeCloneTurn(ticket: Ticket, turn: CloneTurn) returns (idle: bool)
      requires Valid() && store.Valid() && Enabled(OfClone(ticket, turn))
      modifies this, store
      ensures Valid() && store.Valid() && CloneMoved(ticket, turn) && (idle ==> passes == map[] && clones == map[])
      ensures stopped == old(stopped) && poll == old(poll)
      ensures old(Known()) ==> Known()
      ensures old(Stopping()) ==> Stopping() && clones.Keys <= old(clones).Keys
    {
      idle := false;
      match turn
      case Record(ok, lost, error, now) => RecordClone(ticket, ok, lost, error, now);
      case CloneEnds => idle := EndClone(ticket);
    }

    /**
     * Any run, whatever order its turns come in. Throughout (`Valid`): at most one pass runs, and it is the
     * one `passing` names; the counter is the clones in flight and within the bound. Polling goes on until
     * stop, and once stopping no clone starts.
     */
    method Drive(turns: seq<Turn>)
      requires Valid() && store.Valid() && Known()
      modifies this, store
      ensures Valid() && store.Valid() && Known() && |passes| <= 1 && inFlight == |clones| <= concurrency
      ensures old(Polling()) ==> Polling()
      ensures old(Stopping()) ==> Stopping() && clones.Keys <= old(clones).Keys
    {
      for i := 0 to |turns|
        invariant Valid() && store.Valid() && Known()
        invariant old(Polling()) ==> Polling()
        invariant old(Stopping()) ==> Stopping() && clones.Keys <= old(clones).Keys
      {
        if Enabled(turns[i]) {
          var _ := Take(turns[i]);
        }
      }
      if passing.Some? {
        OnlyKey(passes, passing.value);
      }
    }
  }

  lemma OnlyKey(passes: map<PassId, Pass>, id: PassId)
    requires id in passes && forall o | o in passes :: o == id
    ensures passes - {id} == map[] && |passes| == 1
  {
    assert passes.Keys == {id} by {
      forall o | o in passes.Keys
        ensures o == id
      {
      }
    }
    assert |passes.Keys| == |passes|;
  }

  lemma SameKeys(m: map<Ticket, Clone>, t: Ticket, c: Clone)
    requires t in m
    ensures m[t := c].Keys == m.Keys && |m[t := c]| == |m|
  {
  }

  lemma Removed(m: map<Ticket, Clone>, t: Ticket)
    requires t in m
    ensures |m - {t}| == |m| - 1
  {
  }
}
