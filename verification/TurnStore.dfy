/**
  Agent turns over the message table: the transactions of create, add and regenerate, the
  guarded UPDATEs of workers and of the stale finalizer, and the deletions, each as one
  atomic step. An operation that the database would make wait leaves the store unchanged.
*/
module TurnStore {
  import ActiveIndex
  import MessageMetadata
  import opened Messages
  import opened Wrappers

  type Tx = nat

  datatype Stage = Opened | UserStored | ReplyStored | JobPosted

  // An open transaction: what it will write, and the rows it has flushed so far. `details` is the
  // metadata its reply is inserted with.
  datatype Turn = Turn(
    owner: Id,
    thread: Id,
    newThread: bool,
    userMessage: Id,
    newUser: bool,
    reply: Id,
    details: MessageMetadata.Entries,
    staged: map<Id, Row>,
    stage: Stage)

  // `tracked`: the type of the metadata column reports changes made inside a dictionary.
  datatype Store = Store(
    tracked: bool,
    threads: map<Id, Id>,
    rows: map<Id, Row>,
    open: map<Tx, Turn>,
    usedThreads: set<Id>,
    used: set<Id>)

  datatype Op =
    | Open(tx: Tx, turn: Turn)
    | StoreUser(tx: Tx, text: string, now: int)
    | StoreReply(tx: Tx, now: int)
    | PostJob(tx: Tx)
    | Commit(tx: Tx)
    | Abort(tx: Tx)
    | WorkerWrite(id: Id, status: Status, content: Option<string>, partial: Option<string>)
    | WorkerComplete(id: Id, text: string, replaced: set<Id>)
    | FailStale(id: Id, cutoff: int)
    | DropThread(thread: Id)

  function UserRow(thread: Id, text: string, now: int): Row {
    Row(thread, User, Completed, text, None, now, NoJob)
  }

  function QueuedReply(thread: Id, now: int): Row {
    Row(thread, Assistant, Queued, "", None, now, NoJob)
  }

  function JobOf(t: Turn): Job {
    Job(t.thread, t.owner, t.userMessage)
  }

  // What update_message_metadata leaves in the row for the job record.
  predicate JobKept(s: Store, t: Turn) {
    MessageMetadata.KeepsJob(s.tracked, t.details)
  }

  function Mine(t: Turn): set<Id> {
    if t.newUser then {t.reply, t.userMessage} else {t.reply}
  }

  predicate MayOpen(s: Store, tx: Tx, t: Turn) {
    && tx !in s.open && t.stage == Opened && t.staged == map[] && MessageMetadata.JOB_KEY !in t.details
    && Mine(t) !! s.used
    && (t.newUser ==> t.reply != t.userMessage)
    && (t.newThread ==> t.newUser && t.thread !in s.usedThreads)
    && (!t.newThread ==> t.thread in s.threads && s.threads[t.thread] == t.owner)
    && (!t.newUser ==> t.userMessage in s.rows && s.rows[t.userMessage].role.User?
                       && s.rows[t.userMessage].thread == t.thread)
  }

  // The foreign key of ai_message.thread_id, seen from inside the transaction.
  predicate ThreadVisible(s: Store, t: Turn) {
    t.newThread || t.thread in s.threads
  }

  predicate HoldsActive(rows: map<Id, Row>, thread: Id) {
    exists i :: i in rows && Active(rows[i]) && rows[i].thread == thread
  }

  // Another transaction has flushed, not committed, an active row of this thread.
  predicate Blocked(s: Store, tx: Tx, thread: Id) {
    exists other :: other in s.open && other != tx && HoldsActive(s.open[other].staged, thread)
  }

  function Rollback(s: Store, tx: Tx): Store {
    s.(open := s.open - {tx})
  }

  function Flush(s: Store, tx: Tx, id: Id, row: Row, stage: Stage): Store
    requires tx in s.open
  {
    var t := s.open[tx];
    s.(open := s.open[tx := t.(staged := t.staged[id := row], stage := stage)])
  }

  function StepStoreReply(s: Store, tx: Tx, now: int): Store
    requires tx in s.open
  {
    var t := s.open[tx];
    if t.stage != (if t.newUser then UserStored else Opened) || Blocked(s, tx, t.thread) then s
    else if !ThreadVisible(s, t) || HoldsActive(s.rows, t.thread) then Rollback(s, tx)
    else Flush(s, tx, t.reply, QueuedReply(t.thread, now), ReplyStored)
  }

  function Step(s: Store, op: Op): Store {
    match op
    case Open(tx, t) =>
      if !MayOpen(s, tx, t) then s
      else s.(open := s.open[tx := t], used := s.used + Mine(t), usedThreads := s.usedThreads + {t.thread})
    case StoreUser(tx, text, now) =>
      if tx !in s.open || s.open[tx].stage != Opened || !s.open[tx].newUser then s
      else if !ThreadVisible(s, s.open[tx]) then Rollback(s, tx)
      else Flush(s, tx, s.open[tx].userMessage, UserRow(s.open[tx].thread, text, now), UserStored)
    case StoreReply(tx, now) => if tx !in s.open then s else StepStoreReply(s, tx, now)
    case PostJob(tx) =>
      if tx !in s.open || s.open[tx].stage != ReplyStored || s.open[tx].reply !in s.open[tx].staged then s
      else
        var t := s.open[tx];
        var row := t.staged[t.reply];
        Flush(s, tx, t.reply, if JobKept(s, t) then row.(outbox := Posted(JobOf(t))) else row, JobPosted)
    case Commit(tx) =>
      if tx !in s.open || s.open[tx].stage != JobPosted then s
      else
        var t := s.open[tx];
        s.(open := s.open - {tx}, rows := s.rows + t.staged, threads := s.threads[t.thread := t.owner])
    case Abort(tx) => Rollback(s, tx)
    case WorkerWrite(id, status, content, partial) =>
      if id !in s.rows || !Active(s.rows[id]) || status == Queued then s
      else
        var row := s.rows[id];
        s.(rows := s.rows[id := row.(status := status, partial := partial,
                                     content := if content.Some? then content.value else row.content)])
    case WorkerComplete(id, text, replaced) =>
      if id !in s.rows || !Active(s.rows[id]) then s
      else
        var row := s.rows[id].(status := Completed, content := text, partial := Some(""), outbox := NoJob);
        var gone := set i | i in replaced && i in s.rows && i != id && s.rows[i].thread == row.thread
                            && s.rows[i].role.Assistant?;
        s.(rows := s.rows[id := row] - gone)
    case FailStale(id, cutoff) =>
      if id !in s.rows || !Active(s.rows[id]) || s.rows[id].createdAt >= cutoff then s
      else s.(rows := s.rows[id := FailRow(s.rows[id])])
    case DropThread(thread) =>
      if exists tx :: tx in s.open && s.open[tx].thread == thread && s.open[tx].staged != map[] then s
      else s.(threads := s.threads - {thread},
              rows := map i | i in s.rows && s.rows[i].thread != thread :: s.rows[i])
  }

  function Play(s: Store, ops: seq<Op>): Store
    decreases |ops|
  {
    if ops == [] then s else Play(Step(s, ops[0]), ops[1..])
  }

  function Idle(tracked: bool): Store {
    Store(tracked, map[], map[], map[], {}, {})
  }

  // ---------------------------------------------------------------- invariants

  // The turn has flushed its reply, an active row that nobody else sees yet.
  predicate InFlight(t: Turn) {
    t.stage in {ReplyStored, JobPosted}
  }

  // At most one active assistant row per thread, counting what open transactions flushed.
  ghost predicate OneActiveAnywhere(s: Store) {
    && OneActive(s.rows)
    && (forall tx | tx in s.open :: InFlight(s.open[tx]) ==> !HoldsActive(s.rows, s.open[tx].thread))
    && (forall p, q | p in s.open && q in s.open && p != q ::
          InFlight(s.open[p]) && InFlight(s.open[q]) ==> s.open[p].thread != s.open[q].thread)
  }

  // A queued reply names its own thread and a user message stored in that thread.
  ghost predicate JobIsGood(rows: map<Id, Row>, r: Row) {
    r.role.Assistant? && r.status == Queued ==>
      && r.outbox.Posted? && r.outbox.job.thread == r.thread
      && r.outbox.job.userMessage in rows
      && rows[r.outbox.job.userMessage].role.User?
      && rows[r.outbox.job.userMessage].thread == r.thread
  }

  ghost predicate OutboxComplete(rows: map<Id, Row>) {
    forall i | i in rows :: JobIsGood(rows, rows[i])
  }

  ghost predicate TurnOk(s: Store, t: Turn) {
    && Mine(t) <= s.used && Mine(t) !! s.rows.Keys && t.staged.Keys <= Mine(t)
    && t.thread in s.usedThreads && MessageMetadata.JOB_KEY !in t.details
    && (t.newUser ==> t.reply != t.userMessage)
    && (t.newThread ==> t.newUser && t.thread !in s.threads)
    && (!t.newThread && t.staged != map[] ==> t.thread in s.threads)
    && (!t.newUser && t.thread in s.threads ==>
          t.userMessage in s.rows && s.rows[t.userMessage].role.User? && s.rows[t.userMessage].thread == t.thread)
    && (t.userMessage in t.staged <==> t.newUser && t.stage != Opened)
    && (t.reply in t.staged <==> t.stage in {ReplyStored, JobPosted})
    && (t.userMessage in t.staged ==> t.staged[t.userMessage].role.User? && t.staged[t.userMessage].thread == t.thread)
    && (t.reply in t.staged ==>
          && t.staged[t.reply].role.Assistant? && t.staged[t.reply].status == Queued
          && t.staged[t.reply].thread == t.thread
          && t.staged[t.reply].outbox == if t.stage == JobPosted && JobKept(s, t) then Posted(JobOf(t)) else NoJob)
  }

  ghost predicate TurnsApart(s: Store) {
    forall p, q | p in s.open && q in s.open && p != q ::
      && Mine(s.open[p]) !! Mine(s.open[q])
      && (s.open[p].newThread ==> s.open[p].thread != s.open[q].thread)
  }

  ghost predicate Sane(s: Store) {
    && s.rows.Keys <= s.used && s.threads.Keys <= s.usedThreads
    && (forall i | i in s.rows :: s.rows[i].thread in s.threads)
    && (forall tx | tx in s.open :: TurnOk(s, s.open[tx]))
    && TurnsApart(s)
  }

  ghost predicate Inv(s: Store) {
    Sane(s) && OneActiveAnywhere(s)
  }

  // What an open turn relies on when the step was somebody else's.
  lemma TurnOkFrame(s: Store, s': Store, t: Turn)
    requires TurnOk(s, t) && s'.tracked == s.tracked
    requires s.used <= s'.used && s.usedThreads <= s'.usedThreads
    requires Mine(t) !! s'.rows.Keys
    requires t.thread in s'.threads <==> t.thread in s.threads
    requires t.userMessage in s.rows && t.thread in s.threads ==>
               t.userMessage in s'.rows && s'.rows[t.userMessage].role == s.rows[t.userMessage].role
               && s'.rows[t.userMessage].thread == s.rows[t.userMessage].thread
    ensures TurnOk(s', t)
  {
  }

  lemma RollbackKeepsSane(s: Store, tx: Tx)
    requires Sane(s)
    ensures Sane(Rollback(s, tx))
  {
    var s' := Rollback(s, tx);
    forall p | p in s'.open
      ensures TurnOk(s', s'.open[p])
    {
      TurnOkFrame(s, s', s.open[p]);
    }
  }

  lemma ReplacedTurnKeepsSane(s: Store, tx: Tx, t: Turn)
    requires Sane(s) && tx in s.open && TurnOk(s, t)
    requires t == s.open[tx].(staged := t.staged, stage := t.stage)
    ensures Sane(s.(open := s.open[tx := t]))
  {
    var s' := s.(open := s.open[tx := t]);
    forall p | p in s'.open
      ensures TurnOk(s', s'.open[p])
    {
      TurnOkFrame(s, s', s'.open[p]);
    }
  }

  lemma UserFlushOk(s: Store, t: Turn, text: string, now: int)
    requires TurnOk(s, t) && t.stage == Opened && t.newUser && ThreadVisible(s, t)
    ensures TurnOk(s, t.(staged := t.staged[t.userMessage := UserRow(t.thread, text, now)], stage := UserStored))
  {
  }

  lemma ReplyFlushOk(s: Store, t: Turn, now: int)
    requires TurnOk(s, t) && t.stage == (if t.newUser then UserStored else Opened) && ThreadVisible(s, t)
    ensures TurnOk(s, t.(staged := t.staged[t.reply := QueuedReply(t.thread, now)], stage := ReplyStored))
  {
  }

  lemma JobFlushOk(s: Store, t: Turn, row: Row)
    requires TurnOk(s, t) && t.stage == ReplyStored && t.reply in t.staged
    requires row == if JobKept(s, t) then t.staged[t.reply].(outbox := Posted(JobOf(t))) else t.staged[t.reply]
    ensures TurnOk(s, t.(staged := t.staged[t.reply := row], stage := JobPosted))
  {
  }

  lemma FlushKeepsSane(s: Store, op: Op)
    requires Sane(s) && (op.StoreUser? || op.StoreReply? || op.PostJob?)
    ensures Sane(Step(s, op))
  {
    var s' := Step(s, op);
    if op.tx in s.open && s' != s {
      RollbackKeepsSane(s, op.tx);
      if s' != Rollback(s, op.tx) {
        var t := s.open[op.tx];
        match op {
          case StoreUser(_, text, now) => UserFlushOk(s, t, text, now);
          case StoreReply(_, now) => ReplyFlushOk(s, t, now);
          case PostJob(_) => JobFlushOk(s, t, s'.open[op.tx].staged[t.reply]);
        }
        ReplacedTurnKeepsSane(s, op.tx, s'.open[op.tx]);
      }
    }
  }

  lemma OpenedTurnsOk(s: Store, s': Store, tx: Tx, t: Turn)
    requires Sane(s) && MayOpen(s, tx, t)
    requires s' == s.(open := s.open[tx := t], used := s.used + Mine(t), usedThreads := s.usedThreads + {t.thread})
    ensures forall p | p in s'.open :: TurnOk(s', s'.open[p])
  {
    forall p | p in s'.open
      ensures TurnOk(s', s'.open[p])
    {
      if p != tx { TurnOkFrame(s, s', s.open[p]); }
    }
  }

  // The rows of a new turn are nobody's, and a thread is new to everybody.
  lemma OpenedTurnsApart(s: Store, s': Store, tx: Tx, t: Turn)
    requires Sane(s) && MayOpen(s, tx, t) && s'.open == s.open[tx := t]
    ensures TurnsApart(s')
  {
    forall p | p in s.open
      ensures Mine(s.open[p]) !! Mine(t)
      ensures s.open[p].newThread || t.newThread ==> s.open[p].thread != t.thread
    {
      assert TurnOk(s, s.open[p]);
    }
  }

  lemma OpenKeepsSane(s: Store, op: Op)
    requires Sane(s) && op.Open?
    ensures Sane(Step(s, op))
  {
    if MayOpen(s, op.tx, op.turn) {
      OpenedTurnsOk(s, Step(s, op), op.tx, op.turn);
      OpenedTurnsApart(s, Step(s, op), op.tx, op.turn);
    }
  }

  lemma CommitKeepsSane(s: Store, op: Op)
    requires Sane(s) && op.Commit?
    ensures Sane(Step(s, op))
  {
    var s' := Step(s, op);
    if s' != s {
      var t := s.open[op.tx];
      assert TurnOk(s, t);
      forall tx | tx in s'.open
        ensures TurnOk(s', s'.open[tx])
      {
        assert TurnOk(s, s.open[tx]);
        assert Mine(s.open[tx]) !! Mine(t);
        TurnOkFrame(s, s', s.open[tx]);
      }
    }
  }

  // One row is rewritten in place, with its thread and role.
  lemma RowUpdateKeepsSane(s: Store, id: Id, row: Row)
    requires Sane(s) && id in s.rows && row.thread == s.rows[id].thread && row.role == s.rows[id].role
    ensures Sane(s.(rows := s.rows[id := row]))
  {
    var s' := s.(rows := s.rows[id := row]);
    forall tx | tx in s'.open
      ensures TurnOk(s', s'.open[tx])
    {
      TurnOkFrame(s, s', s.open[tx]);
    }
  }

  lemma CompleteKeepsSane(s: Store, op: Op)
    requires Sane(s) && op.WorkerComplete?
    ensures Sane(Step(s, op))
  {
    var s' := Step(s, op);
    forall tx | tx in s'.open
      ensures TurnOk(s', s'.open[tx])
    {
      TurnOkFrame(s, s', s.open[tx]);
    }
  }

  // A turn whose thread is gone has flushed nothing and names no row.
  lemma OrphanIsOk(s: Store, s': Store, t: Turn)
    requires TurnOk(s, t) && t.staged == map[] && t.thread !in s'.threads && s'.rows.Keys <= s.rows.Keys
    requires s' == s.(rows := s'.rows, threads := s'.threads)
    ensures TurnOk(s', t)
  {
  }

  lemma DropKeepsSane(s: Store, op: Op)
    requires Sane(s) && op.DropThread?
    ensures Sane(Step(s, op))
  {
    var s' := Step(s, op);
    assert s'.rows.Keys <= s.rows.Keys;
    forall tx | tx in s'.open && s' != s
      ensures TurnOk(s', s'.open[tx])
    {
      var t := s.open[tx];
      assert TurnOk(s, t);
      if t.thread == op.thread {
        OrphanIsOk(s, s', t);
      } else {
        TurnOkFrame(s, s', t);
      }
    }
  }

  lemma StepKeepsSane(s: Store, op: Op)
    requires Sane(s)
    ensures Sane(Step(s, op))
  {
    match op
    case Open(_, _) => OpenKeepsSane(s, op);
    case Commit(_) => CommitKeepsSane(s, op);
    case WorkerWrite(id, _, _, _) => if Step(s, op) != s { RowUpdateKeepsSane(s, id, Step(s, op).rows[id]); }
    case FailStale(id, _) => if Step(s, op) != s { RowUpdateKeepsSane(s, id, Step(s, op).rows[id]); }
    case WorkerComplete(_, _, _) => CompleteKeepsSane(s, op);
    case DropThread(_) => DropKeepsSane(s, op);
    case Abort(tx) => RollbackKeepsSane(s, tx);
    case _ => FlushKeepsSane(s, op);
  }

  lemma SameRowsKeepOneActive(s: Store, s': Store)
    requires OneActiveAnywhere(s) && s'.rows == s.rows
    requires forall p | p in s'.open && InFlight(s'.open[p]) ::
               p in s.open && InFlight(s.open[p]) && s.open[p].thread == s'.open[p].thread
    ensures OneActiveAnywhere(s')
  {
  }

  lemma TakenSlotKeepsOneActive(s: Store, tx: Tx, t: Turn)
    requires Inv(s) && tx in s.open && t.thread == s.open[tx].thread
    requires !Blocked(s, tx, t.thread) && !HoldsActive(s.rows, t.thread)
    ensures OneActiveAnywhere(s.(open := s.open[tx := t]))
  {
    forall p | p in s.open && p != tx && InFlight(s.open[p])
      ensures s.open[p].thread != t.thread
    {
      if s.open[p].thread == t.thread {
        assert TurnOk(s, s.open[p]);
        FlushedReplyBlocks(s, p, tx);
      }
    }
  }

  lemma ReplyFlushKeepsOneActive(s: Store, op: Op)
    requires Inv(s) && op.StoreReply?
    ensures OneActiveAnywhere(Step(s, op))
  {
    if op.tx in s.open {
      var s' := Step(s, op);
      if s' == Rollback(s, op.tx) {
        SameRowsKeepOneActive(s, s');
      } else if s' != s {
        TakenSlotKeepsOneActive(s, op.tx, s'.open[op.tx]);
      }
    }
  }

  lemma CommitKeepsOneActive(s: Store, op: Op)
    requires Inv(s) && op.Commit?
    ensures OneActiveAnywhere(Step(s, op))
  {
    var s' := Step(s, op);
    if s' != s {
      var t := s.open[op.tx];
      assert TurnOk(s, t);
      forall i | i in s'.rows && Active(s'.rows[i])
        ensures (i == t.reply && s'.rows[i].thread == t.thread) || (i in s.rows && s'.rows[i] == s.rows[i])
      {
      }
      assert !HoldsActive(s.rows, t.thread);
    }
  }

  lemma ShrinkingKeepsOneActive(s: Store, s': Store)
    requires OneActiveAnywhere(s) && s'.open == s.open
    requires forall i | i in s'.rows && Active(s'.rows[i]) ::
               i in s.rows && Active(s.rows[i]) && s.rows[i].thread == s'.rows[i].thread
    ensures OneActiveAnywhere(s')
  {
  }

  // Opening, flushing the user row, posting the job and aborting touch no committed row and
  // put no reply in flight.
  lemma QuietStepKeepsOneActive(s: Store, op: Op)
    requires OneActiveAnywhere(s) && (op.Open? || op.StoreUser? || op.PostJob? || op.Abort?)
    ensures OneActiveAnywhere(Step(s, op))
  {
    SameRowsKeepOneActive(s, Step(s, op));
  }

  lemma RowStepKeepsOneActive(s: Store, op: Op)
    requires OneActiveAnywhere(s)
    requires op.WorkerWrite? || op.WorkerComplete? || op.FailStale? || op.DropThread?
    ensures OneActiveAnywhere(Step(s, op))
  {
    ShrinkingKeepsOneActive(s, Step(s, op));
  }

  lemma StepKeepsInv(s: Store, op: Op)
    requires Inv(s)
    ensures Inv(Step(s, op))
  {
    StepKeepsSane(s, op);
    if op.StoreReply? {
      ReplyFlushKeepsOneActive(s, op);
    } else if op.Commit? {
      CommitKeepsOneActive(s, op);
    } else if op.Open? || op.StoreUser? || op.PostJob? || op.Abort? {
      QuietStepKeepsOneActive(s, op);
    } else {
      RowStepKeepsOneActive(s, op);
    }
  }

  // Over every run of turns, workers, finalizers and deletions.
  lemma {:induction false} OneActivePerThreadForever(s: Store, ops: seq<Op>)
    requires Inv(s)
    ensures Inv(Play(s, ops)) && OneActive(Play(s, ops).rows)
    decreases |ops|
  {
    if ops != [] {
      StepKeepsInv(s, ops[0]);
      OneActivePerThreadForever(Step(s, ops[0]), ops[1..]);
    }
  }

  // Two requests that reached the same thread: while the first has its reply flushed the second
  // waits; once the first commits, the second is rolled back and only the first reply is active.
  lemma RacingRequests(s: Store, p: Tx, q: Tx, now: int)
    requires Inv(s) && p in s.open && q in s.open && p != q
    requires s.open[p].stage == JobPosted && s.open[p].thread == s.open[q].thread
    requires s.open[q].stage == (if s.open[q].newUser then UserStored else Opened)
    ensures Step(s, StoreReply(q, now)) == s
    ensures var won := Step(Step(s, Commit(p)), StoreReply(q, now));
            && q !in won.open && s.open[p].reply in won.rows && Active(won.rows[s.open[p].reply])
            && won.rows == s.rows + s.open[p].staged
    ensures var lost := Step(Step(s, Abort(p)), StoreReply(q, now));
            q in lost.open && lost.open[q].stage == ReplyStored
  {
    assert TurnOk(s, s.open[p]);
    FlushedReplyBlocks(s, p, q);
    LoserIsRolledBack(s, p, q, now);
    LoserGoesOn(s, p, q, now);
  }

  lemma LoserIsRolledBack(s: Store, p: Tx, q: Tx, now: int)
    requires Inv(s) && p in s.open && q in s.open && p != q
    requires s.open[p].stage == JobPosted && s.open[p].thread == s.open[q].thread
    requires s.open[q].stage == (if s.open[q].newUser then UserStored else Opened)
    ensures var won := Step(Step(s, Commit(p)), StoreReply(q, now));
            && q !in won.open && s.open[p].reply in won.rows && Active(won.rows[s.open[p].reply])
            && won.rows == s.rows + s.open[p].staged
  {
    assert TurnOk(s, s.open[p]);
    var committed := Step(s, Commit(p));
    NobodyElseBlocks(s, p, q, committed);
    assert s.open[p].reply in committed.rows && Active(committed.rows[s.open[p].reply]);
    OccupiedSlotRollsBack(committed, q, now, s.open[p].reply);
  }

  lemma OccupiedSlotRollsBack(s: Store, q: Tx, now: int, i: Id)
    requires q in s.open && s.open[q].stage == (if s.open[q].newUser then UserStored else Opened)
    requires i in s.rows && Active(s.rows[i]) && s.rows[i].thread == s.open[q].thread
        && !Blocked(s, q, s.open[q].thread)
    ensures Step(s, StoreReply(q, now)) == Rollback(s, q)
  {
  }

  lemma FreeSlotIsTaken(s: Store, q: Tx, now: int)
    requires q in s.open && s.open[q].stage == (if s.open[q].newUser then UserStored else Opened)
    requires !Blocked(s, q, s.open[q].thread) && ThreadVisible(s, s.open[q]) && !HoldsActive(s.rows, s.open[q].thread)
    ensures Step(s, StoreReply(q, now))
            == Flush(s, q, s.open[q].reply, QueuedReply(s.open[q].thread, now), ReplyStored)
  {
  }

  lemma LoserGoesOn(s: Store, p: Tx, q: Tx, now: int)
    requires Inv(s) && p in s.open && q in s.open && p != q
    requires s.open[p].stage == JobPosted && s.open[p].thread == s.open[q].thread
    requires s.open[q].stage == (if s.open[q].newUser then UserStored else Opened)
    ensures var lost := Step(Step(s, Abort(p)), StoreReply(q, now));
            q in lost.open && lost.open[q].stage == ReplyStored
  {
    assert TurnOk(s, s.open[p]) && TurnOk(s, s.open[q]);
    NobodyElseBlocks(s, p, q, Rollback(s, p));
    assert InFlight(s.open[p]) && !HoldsActive(s.rows, s.open[p].thread);
    FreeSlotIsTaken(Rollback(s, p), q, now);
  }

  lemma FlushedReplyBlocks(s: Store, p: Tx, q: Tx)
    requires p in s.open && p != q && TurnOk(s, s.open[p]) && InFlight(s.open[p])
    ensures Blocked(s, q, s.open[p].thread)
  {
  }

  lemma NobodyElseBlocks(s: Store, p: Tx, q: Tx, s': Store)
    requires Inv(s) && p in s.open && InFlight(s.open[p]) && s'.open == s.open - {p}
    ensures !Blocked(s', q, s.open[p].thread)
  {
  }

  // The migrated table starts the invariant, whatever it held before.
  lemma MigratedTableStaysOneActive(s: Store, now: int, ops: seq<Op>)
    requires Sane(s) && s.open == map[]
    ensures OneActive(Play(s.(rows := ActiveIndex.Migrate(s.rows, now)), ops).rows)
  {
    var repaired := s.(rows := ActiveIndex.Migrate(s.rows, now));
    ActiveIndex.MigrationReachesOneActive(s.rows, now);
    assert Sane(repaired);
    OneActivePerThreadForever(repaired, ops);
  }

  // ---------------------------------------------------------------- outbox

  // Rows appear only by a commit, and then everything the turn wrote appears at once.
  lemma RowsEnterTogether(s: Store, op: Op, i: Id)
    requires Inv(s) && i !in s.rows && i in Step(s, op).rows
    ensures op.Commit? && op.tx in s.open && i in Mine(s.open[op.tx])
    ensures var t := s.open[op.tx];
            && t.staged.Keys == Mine(t) && Step(s, op).rows == s.rows + t.staged
            && Active(t.staged[t.reply]) && t.thread in Step(s, op).threads
  {
    assert op.Commit?;
    assert TurnOk(s, s.open[op.tx]);
  }

  lemma CommitKeepsOutbox(s: Store, tx: Tx)
    requires Inv(s) && OutboxComplete(s.rows) && (tx in s.open ==> JobKept(s, s.open[tx]))
    ensures OutboxComplete(Step(s, Commit(tx)).rows)
  {
    var s' := Step(s, Commit(tx));
    if s' != s {
      var t := s.open[tx];
      assert TurnOk(s, t);
      forall i | i in s'.rows
        ensures JobIsGood(s'.rows, s'.rows[i])
      {
        if i !in t.staged { assert JobIsGood(s.rows, s.rows[i]); }
      }
    }
  }

  ghost predicate JobsKept(s: Store) {
    forall tx | tx in s.open :: JobKept(s, s.open[tx])
  }

  predicate OpensKept(s: Store, op: Op) {
    op.Open? ==> JobKept(s, op.turn)
  }

  lemma StepKeepsJobsKept(s: Store, op: Op)
    requires JobsKept(s) && OpensKept(s, op)
    ensures JobsKept(Step(s, op)) && Step(s, op).tracked == s.tracked
  {
  }

  // Rows that keep thread and role, and stay as they are while queued; no user message leaves a
  // thread that still has a row.
  ghost predicate Thins(rows: map<Id, Row>, after: map<Id, Row>) {
    && (forall i | i in after ::
          && i in rows && after[i].thread == rows[i].thread && after[i].role == rows[i].role
          && (after[i].status == Queued ==> after[i] == rows[i]))
    && forall i, j | i in after && j in rows && rows[j].role.User? && rows[j].thread == after[i].thread :: j in after
  }

  lemma ThinningKeepsOutbox(rows: map<Id, Row>, after: map<Id, Row>)
    requires OutboxComplete(rows) && Thins(rows, after)
    ensures OutboxComplete(after)
  {
    forall i | i in after
      ensures JobIsGood(after, after[i])
    {
      assert JobIsGood(rows, rows[i]);
    }
  }

  lemma OnlyCommitAddsRows(s: Store, op: Op)
    requires !op.Commit?
    ensures Thins(s.rows, Step(s, op).rows)
  {
  }

  lemma StepKeepsOutbox(s: Store, op: Op)
    requires Inv(s) && JobsKept(s) && OutboxComplete(s.rows)
    ensures OutboxComplete(Step(s, op).rows)
  {
    if op.Commit? {
      CommitKeepsOutbox(s, op.tx);
    } else {
      OnlyCommitAddsRows(s, op);
      ThinningKeepsOutbox(s.rows, Step(s, op).rows);
    }
  }

  // Over every run whose turns keep their job records.
  lemma {:induction false} OutboxForever(s: Store, ops: seq<Op>)
    requires Inv(s) && JobsKept(s) && OutboxComplete(s.rows)
    requires forall op | op in ops :: OpensKept(s, op)
    ensures OutboxComplete(Play(s, ops).rows)
    decreases |ops|
  {
    if ops != [] {
      assert ops[0] in ops && forall op | op in ops[1..] :: op in ops;
      StepKeepsInv(s, ops[0]);
      StepKeepsJobsKept(s, ops[0]);
      StepKeepsOutbox(s, ops[0]);
      OutboxForever(Step(s, ops[0]), ops[1..]);
    }
  }

  // A commit carries the job record exactly if the reply came without metadata of its own or the
  // column type reports changes.
  lemma OutboxCompleteIff(s: Store, tx: Tx)
    requires Inv(s) && OutboxComplete(s.rows)
    requires tx in s.open && s.open[tx].stage == JobPosted
    ensures OutboxComplete(Step(s, Commit(tx)).rows) <==> s.tracked || s.open[tx].details == map[]
  {
    var t := s.open[tx];
    assert TurnOk(s, t);
    MessageMetadata.JobKeptIff(s.tracked, t.details);
    if JobKept(s, t) {
      CommitKeepsOutbox(s, tx);
    } else {
      var rows := Step(s, Commit(tx)).rows;
      assert t.reply in rows && rows[t.reply] == t.staged[t.reply];
      assert !JobIsGood(rows, rows[t.reply]);
    }
  }

  // A queued reply that the reconciler will never find.
  predicate Unrecorded(r: Row) {
    r.role.Assistant? && r.status == Queued ==> r.outbox.NoJob?
  }

  ghost predicate NoJobs(s: Store) {
    && !s.tracked
    && (forall i | i in s.rows :: Unrecorded(s.rows[i]))
    && (forall tx | tx in s.open :: s.open[tx].details != map[])
  }

  lemma StepKeepsNoJobs(s: Store, op: Op)
    requires Inv(s) && NoJobs(s) && (op.Open? ==> op.turn.details != map[])
    ensures NoJobs(Step(s, op))
  {
    if op.Commit? {
      if op.tx in s.open { CommitKeepsNoJobs(s, op.tx); }
    } else {
      OthersKeepNoJobs(s, op);
    }
  }

  lemma OthersKeepNoJobs(s: Store, op: Op)
    requires NoJobs(s) && (op.Open? ==> op.turn.details != map[]) && !op.Commit?
    ensures NoJobs(Step(s, op))
  {
  }

  lemma CommitKeepsNoJobs(s: Store, tx: Tx)
    requires NoJobs(s) && tx in s.open && TurnOk(s, s.open[tx])
    ensures NoJobs(Step(s, Commit(tx)))
  {
    MessageMetadata.JobKeptIff(s.tracked, s.open[tx].details);
  }

  // With a column type that reports nothing, no run of turns that bring metadata of their own, as
  // all three endpoints' do, ever commits a queued reply with its job record.
  lemma {:induction false} EndpointsLoseEveryJob(s: Store, ops: seq<Op>)
    requires Inv(s) && NoJobs(s) && forall op | op in ops :: op.Open? ==> op.turn.details != map[]
    ensures forall i | i in Play(s, ops).rows :: Unrecorded(Play(s, ops).rows[i])
    decreases |ops|
  {
    if ops != [] {
      assert ops[0] in ops && forall op | op in ops[1..] :: op in ops;
      StepKeepsInv(s, ops[0]);
      StepKeepsNoJobs(s, ops[0]);
      EndpointsLoseEveryJob(Step(s, ops[0]), ops[1..]);
    }
  }

  lemma PlayStep(s: Store, op: Op, rest: seq<Op>, next: Store)
    requires Step(s, op) == next
    ensures Play(s, [op] + rest) == Play(next, rest)
  {
    assert ([op] + rest)[1..] == rest;
  }

  // A first question to a new thread, with both of its rows flushed.
  function FirstQuestion(details: MessageMetadata.Entries, text: string): Turn {
    Turn(7, 1, true, 2, true, 3, details, map[2 := UserRow(1, text, 0), 3 := QueuedReply(1, 0)], ReplyStored)
  }

  function Asking(details: MessageMetadata.Entries, text: string): Store {
    Store(false, map[], map[], map[0 := FirstQuestion(details, text)], {1}, {2, 3})
  }

  lemma QuestionIsFlushed(details: MessageMetadata.Entries, text: string, rest: seq<Op>)
    requires MessageMetadata.JOB_KEY !in details
    ensures var t := FirstQuestion(details, text).(staged := map[], stage := Opened);
            Play(Idle(false), [Op.Open(0, t)] + ([StoreUser(0, text, 0)] + ([StoreReply(0, 0)] + rest)))
            == Play(Asking(details, text), rest)
  {
    var t := FirstQuestion(details, text).(staged := map[], stage := Opened);
    var s1 := Step(Idle(false), Op.Open(0, t));
    var s2 := Step(s1, StoreUser(0, text, 0));
    assert s2.open[0].staged == map[2 := UserRow(1, text, 0)];
    var s3 := Step(s2, StoreReply(0, 0));
    assert s3.open[0].staged == FirstQuestion(details, text).staged;
    assert s3 == Asking(details, text);
    PlayStep(Idle(false), Op.Open(0, t), [StoreUser(0, text, 0)] + ([StoreReply(0, 0)] + rest), s1);
    PlayStep(s1, StoreUser(0, text, 0), [StoreReply(0, 0)] + rest, s2);
    PlayStep(s2, StoreReply(0, 0), rest, s3);
  }

  lemma QuestionIsCommitted(details: MessageMetadata.Entries, text: string)
    requires details != map[] && MessageMetadata.JOB_KEY !in details
    ensures var last := Play(Asking(details, text), [PostJob(0)] + ([Commit(0)] + []));
            3 in last.rows && last.rows[3] == QueuedReply(1, 0)
  {
    MessageMetadata.JobKeptIff(false, details);
    var s4 := Step(Asking(details, text), PostJob(0));
    assert s4.open[0].staged[3] == QueuedReply(1, 0);
    PlayStep(Asking(details, text), PostJob(0), [Commit(0)] + [], s4);
    PlayStep(s4, Commit(0), [], Step(s4, Commit(0)));
  }

  // Such a reply is committed by the first question anybody asks.
  lemma LostJobRun(details: MessageMetadata.Entries, text: string)
    requires details != map[] && MessageMetadata.JOB_KEY !in details
    ensures var t := FirstQuestion(details, text).(staged := map[], stage := Opened);
            var last := Play(Idle(false), [Op.Open(0, t)] + ([StoreUser(0, text, 0)] + ([StoreReply(0, 0)]
                                            + ([PostJob(0)] + ([Commit(0)] + [])))));
            3 in last.rows && last.rows[3] == QueuedReply(1, 0) && last.rows[3].outbox.NoJob?
  {
    QuestionIsFlushed(details, text, [PostJob(0)] + ([Commit(0)] + []));
    QuestionIsCommitted(details, text);
  }

  // ---------------------------------------------------------------- terminal rows

  predicate Settled(r: Row) {
    r.role.Assistant? && !ActiveStatus(r.status)
  }

  // Row i is `r` for good, or has been deleted and its id is spent.
  ghost predicate Frozen(s: Store, i: Id, r: Row) {
    && i in s.used
    && (i in s.rows ==> s.rows[i] == r)
    && (forall tx | tx in s.open :: i !in Mine(s.open[tx]))
  }

  lemma StepKeepsFrozen(s: Store, op: Op, i: Id, r: Row)
    requires Inv(s) && Settled(r) && Frozen(s, i, r)
    ensures Frozen(Step(s, op), i, r)
  {
    match op {
      case Commit(tx) => if tx in s.open { CommitKeepsFrozen(s, tx, i, r); }
      case Open(_, _) =>
      case StoreUser(_, _, _) => InsertKeepsFrozen(s, op, i, r);
      case StoreReply(_, _) => InsertKeepsFrozen(s, op, i, r);
      case PostJob(_) => InsertKeepsFrozen(s, op, i, r);
      case _ =>
    }
  }

  lemma CommitKeepsFrozen(s: Store, tx: Tx, i: Id, r: Row)
    requires Frozen(s, i, r) && tx in s.open && TurnOk(s, s.open[tx])
    ensures Frozen(Step(s, Commit(tx)), i, r)
  {
  }

  lemma InsertKeepsFrozen(s: Store, op: Op, i: Id, r: Row)
    requires Frozen(s, i, r) && (op.StoreUser? || op.StoreReply? || op.PostJob?)
    ensures Frozen(Step(s, op), i, r)
  {
  }

  lemma {:induction false} FrozenForever(s: Store, ops: seq<Op>, i: Id, r: Row)
    requires Inv(s) && Settled(r) && Frozen(s, i, r)
    ensures Frozen(Play(s, ops), i, r)
    decreases |ops|
  {
    if ops != [] {
      StepKeepsInv(s, ops[0]);
      StepKeepsFrozen(s, ops[0], i, r);
      FrozenForever(Step(s, ops[0]), ops[1..], i, r);
    }
  }

  lemma TerminalIsFinal(s: Store, ops: seq<Op>, i: Id)
    requires Inv(s) && i in s.rows && Settled(s.rows[i])
    ensures i in Play(s, ops).rows ==> Play(s, ops).rows[i] == s.rows[i]
  {
    forall tx | tx in s.open
      ensures i !in Mine(s.open[tx])
    {
      assert TurnOk(s, s.open[tx]);
    }
    FrozenForever(s, ops, i, s.rows[i]);
  }

  predicate Finishes(s: Store, op: Op, i: Id) {
    i in s.rows && Active(s.rows[i]) && i in Step(s, op).rows && Settled(Step(s, op).rows[i])
  }

  function TerminalMoves(s: Store, ops: seq<Op>, i: Id): nat
    decreases |ops|
  {
    if ops == [] then 0
    else (if Finishes(s, ops[0], i) then 1 else 0) + TerminalMoves(Step(s, ops[0]), ops[1..], i)
  }

  lemma {:induction false} FrozenNeverMoves(s: Store, ops: seq<Op>, i: Id, r: Row)
    requires Inv(s) && Settled(r) && Frozen(s, i, r)
    ensures TerminalMoves(s, ops, i) == 0
    decreases |ops|
  {
    if ops != [] {
      StepKeepsInv(s, ops[0]);
      StepKeepsFrozen(s, ops[0], i, r);
      FrozenNeverMoves(Step(s, ops[0]), ops[1..], i, r);
    }
  }

  // Workers and stale finalizers together finish a reply at most once.
  lemma {:induction false} FinishedAtMostOnce(s: Store, ops: seq<Op>, i: Id)
    requires Inv(s)
    ensures TerminalMoves(s, ops, i) <= 1
    decreases |ops|
  {
    if ops != [] {
      var s' := Step(s, ops[0]);
      StepKeepsInv(s, ops[0]);
      if Finishes(s, ops[0], i) {
        forall tx | tx in s'.open
          ensures i !in Mine(s'.open[tx])
        {
          assert TurnOk(s', s'.open[tx]);
        }
        FrozenNeverMoves(s', ops[1..], i, s'.rows[i]);
      } else {
        FinishedAtMostOnce(s', ops[1..], i);
      }
    }
  }
}
