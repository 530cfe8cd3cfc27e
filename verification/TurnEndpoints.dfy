/**
  The endpoints that queue a reply and the writes of workers and of the stale finalizer, each as
  the code between its first statement and its answer. Every step is taken on the store of
  TurnStore and recorded, so what is proved of its runs holds of these.
*/
module TurnEndpoints {
  import ActiveIndex
  import MessageMetadata
  import opened Messages
  import opened TurnStore
  import opened Wrappers

  datatype Reply = Accepted | NotFound | BadRequest | Conflict | ServerError | Unavailable

  // Where the database fails for reasons of its own, and whether the broker does.
  datatype Faults = Faults(user: bool, reply: bool, post: bool, commit: bool, publish: bool)

  // The transaction that the INSERT of a reply waits for, if any, and how that one ends.
  datatype Rival = Rival(tx: Tx, commits: bool)

  predicate Blocks(s: Store, tx: Tx, p: Tx, thread: Id) {
    p in s.open && p != tx && HoldsActive(s.open[p].staged, thread)
  }

  predicate NamesBlocker(s: Store, tx: Tx, thread: Id, r: Rival) {
    Blocked(s, tx, thread) ==> Blocks(s, tx, r.tx, thread)
  }

  function AfterRival(s: Store, r: Rival): Store {
    if r.commits then Step(Step(s, PostJob(r.tx)), Commit(r.tx)) else Step(s, Abort(r.tx))
  }

  predicate FailsEarly(newUser: bool, faults: Faults) {
    (faults.user && newUser) || faults.reply
  }

  // The store that the reply's INSERT finds: a turn that gets that far waits for its rival.
  function Base(s: Store, tx: Tx, thread: Id, newUser: bool, faults: Faults, r: Rival): Store {
    if FailsEarly(newUser, faults) || !Blocked(s, tx, thread) then s else AfterRival(s, r)
  }

  // The fate of a turn that passed the endpoint's own checks.
  function Verdict(s: Store, thread: Id, newUser: bool, faults: Faults): Reply {
    if FailsEarly(newUser, faults) then ServerError
    else if HoldsActive(s.rows, thread) then Conflict
    else if faults.post || faults.commit then Unavailable
    else Accepted
  }

  predicate Owns(s: Store, user: Id, thread: Id) {
    thread in s.threads && s.threads[thread] == user
  }

  // The answer of get_last_message: the newest row of the thread, by created_at and then id.
  ghost predicate IsLatest(rows: map<Id, Row>, thread: Id, userOnly: bool, found: Option<Id>) {
    match found
    case None => forall i | i in rows :: !Candidate(rows[i], thread, userOnly)
    case Some(l) =>
      && l in rows && Candidate(rows[l], thread, userOnly)
      && forall i | i in rows && i != l && Candidate(rows[i], thread, userOnly) :: ActiveIndex.Newer(rows, l, i)
  }

  predicate Candidate(r: Row, thread: Id, userOnly: bool) {
    r.thread == thread && (userOnly ==> r.role.User?)
  }

  function FlushedRows(t: Turn, text: string, now: int): map<Id, Row> {
    if t.newUser then map[t.userMessage := UserRow(t.thread, text, now), t.reply := QueuedReply(t.thread, now)]
    else map[t.reply := QueuedReply(t.thread, now)]
  }

  // The turn before its reply is inserted.
  function Begun(t: Turn, text: string, now: int): Turn {
    if t.newUser then t.(stage := UserStored, staged := map[t.userMessage := UserRow(t.thread, text, now)]) else t
  }

  // The rows a successful turn adds.
  function TurnRows(s: Store, t: Turn, text: string, now: int): map<Id, Row> {
    var reply := QueuedReply(t.thread, now).(outbox := if JobKept(s, t) then Posted(JobOf(t)) else NoJob);
    if t.newUser then map[t.userMessage := UserRow(t.thread, text, now), t.reply := reply] else map[t.reply := reply]
  }

  // Field by field: a finished user message with the question, if the turn brings one, and a queued
  // empty reply, both of this thread and time; the record names thread, user and question.
  function WithTurn(s: Store, thread: Id, user: Id, question: Id, asked: Option<string>, reply: Id, now: int,
                    plain: bool): map<Id, Row>
  {
    var rows := if asked.Some? then s.rows[question := Row(thread, User, Completed, asked.value, None, now, NoJob)]
                else s.rows;
    rows[reply := Row(thread, Assistant, Queued, "", None, now,
                      if s.tracked || plain then Posted(Job(thread, user, question)) else NoJob)]
  }

  lemma TurnRowsAre(s: Store, t: Turn, text: string, now: int)
    requires MessageMetadata.JOB_KEY !in t.details && (t.newUser ==> t.reply != t.userMessage)
    ensures s.rows + TurnRows(s, t, text, now)
            == WithTurn(s, t.thread, t.owner, t.userMessage, if t.newUser then Some(text) else None, t.reply, now,
                        t.details == map[])
    ensures JobOf(t) == Job(t.thread, t.owner, t.userMessage)
  {
    MessageMetadata.JobKeptIff(s.tracked, t.details);
  }

  lemma {:induction false} PlayAppend(s: Store, ops: seq<Op>, op: Op)
    ensures Play(s, ops + [op]) == Step(Play(s, ops), op)
    decreases |ops|
  {
    if ops == [] {
      assert [] + [op] == [op];
    } else {
      assert (ops + [op])[0] == ops[0] && (ops + [op])[1..] == ops[1..] + [op];
      PlayAppend(Step(s, ops[0]), ops[1..], op);
    }
  }

  // ---------------------------------------------------------------- waiting for a rival

  lemma BlockerIsInFlight(s: Store, p: Tx, thread: Id)
    requires p in s.open && TurnOk(s, s.open[p]) && HoldsActive(s.open[p].staged, thread)
    ensures InFlight(s.open[p]) && s.open[p].thread == thread && s.open[p].reply in s.open[p].staged
    ensures Active(s.open[p].staged[s.open[p].reply])
  {
  }

  // What a turn with its reply flushed stores when it commits.
  function CommittedRows(s: Store, t: Turn): map<Id, Row> {
    if t.stage == ReplyStored && t.reply in t.staged && JobKept(s, t)
    then t.staged[t.reply := t.staged[t.reply].(outbox := Posted(JobOf(t)))] else t.staged
  }

  lemma RivalEnds(s: Store, r: Rival)
    requires r.tx in s.open && InFlight(s.open[r.tx]) && s.open[r.tx].reply in s.open[r.tx].staged
    ensures var t := s.open[r.tx];
            AfterRival(s, r) == if !r.commits then s.(open := s.open - {r.tx}) else
              s.(open := s.open - {r.tx}, rows := s.rows + CommittedRows(s, t),
                  threads := s.threads[t.thread := t.owner])
  {
    var t := s.open[r.tx];
    var posted := Step(s, PostJob(r.tx));
    assert posted.open - {r.tx} == s.open - {r.tx};
    if t.stage == ReplyStored {
      assert t.staged[t.reply := t.staged[t.reply]] == t.staged;
      assert posted.open[r.tx].staged == CommittedRows(s, t);
    }
  }

  // Once the rival is gone nobody else is waited for; if it committed, the slot is taken.
  lemma RivalGone(s: Store, tx: Tx, thread: Id, r: Rival)
    requires Inv(s) && Blocks(s, tx, r.tx, thread)
    ensures !Blocked(AfterRival(s, r), tx, thread)
    ensures HoldsActive(AfterRival(s, r).rows, thread) <==> r.commits
  {
    var t := s.open[r.tx];
    assert TurnOk(s, t);
    BlockerIsInFlight(s, r.tx, thread);
    RivalEnds(s, r);
    NobodyElseBlocks(s, r.tx, tx, AfterRival(s, r));
    assert !HoldsActive(s.rows, thread);
    if r.commits {
      assert t.reply in CommittedRows(s, t) && Active(CommittedRows(s, t)[t.reply]);
      assert t.reply in AfterRival(s, r).rows;
    }
  }

  // How the rival ends does not depend on what the waiting transaction holds.
  lemma RivalIgnores(s: Store, s': Store, tx: Tx, begun: Turn, r: Rival)
    requires r.tx in s.open && InFlight(s.open[r.tx]) && s.open[r.tx].reply in s.open[r.tx].staged && r.tx != tx
    requires s' == s.(open := s.open[tx := begun], used := s'.used, usedThreads := s'.usedThreads)
    ensures AfterRival(s', r) == AfterRival(s, r).(open := AfterRival(s, r).open[tx := begun], used := s'.used,
                                                   usedThreads := s'.usedThreads)
  {
    RivalEnds(s, r);
    RivalEnds(s', r);
    assert s'.open - {r.tx} == (s.open - {r.tx})[tx := begun];
  }

  lemma BaseLacks(s: Store, tx: Tx, thread: Id, newUser: bool, faults: Faults, r: Rival)
    requires tx !in s.open
    ensures tx !in Base(s, tx, thread, newUser, faults, r).open
  {
  }

  lemma FreshThreadIsFree(s: Store, tx: Tx, thread: Id)
    requires Inv(s) && thread !in s.usedThreads
    ensures !HoldsActive(s.rows, thread) && !Blocked(s, tx, thread)
  {
    forall p | p in s.open
      ensures !HoldsActive(s.open[p].staged, thread)
    {
      assert TurnOk(s, s.open[p]);
    }
  }

  // The INSERT of the reply of a begun turn that nobody keeps waiting.
  lemma ReplyInserted(s: Store, base: Store, tx: Tx, t: Turn, text: string, now: int)
    requires tx !in base.open && !Blocked(s, tx, t.thread) && ThreadVisible(s, t)
    requires s == base.(open := base.open[tx := Begun(t, text, now)], used := s.used, usedThreads := s.usedThreads)
    requires t.stage == Opened && t.staged == map[] && (t.newUser ==> t.reply != t.userMessage)
    ensures Step(s, StoreReply(tx, now)) ==
            if HoldsActive(base.rows, t.thread) then s.(open := base.open) else
              s.(open := base.open[tx := t.(stage := ReplyStored, staged := FlushedRows(t, text, now))])
  {
    var begun := Begun(t, text, now);
    if HoldsActive(base.rows, t.thread) {
      var i :| i in base.rows && Active(base.rows[i]) && base.rows[i].thread == t.thread;
      OccupiedSlotRollsBack(s, tx, now, i);
      assert s.open - {tx} == base.open;
    } else {
      FreeSlotIsTaken(s, tx, now);
      assert begun.staged[t.reply := QueuedReply(t.thread, now)] == FlushedRows(t, text, now);
    }
  }

  // Row i is a reply of the thread of row `id`, and not that row.
  predicate Replaces(rows: map<Id, Row>, id: Id, i: Id)
    requires id in rows
  {
    i in rows && i != id && rows[i].thread == rows[id].thread && rows[i].role.Assistant?
  }

  lemma CompletedRows(s: Store, id: Id, text: string, replaced: seq<Id>)
    requires id in s.rows && Active(s.rows[id])
    ensures var after := Step(s, WorkerComplete(id, text, set i | i in replaced)).rows;
            && id in after
            && after[id] == s.rows[id].(status := Completed, content := text, partial := Some(""), outbox := NoJob)
            && (forall i | i != id :: i in after <==> i in s.rows && !(i in replaced && Replaces(s.rows, id, i)))
            && (forall i | i != id && i in after :: i in s.rows && after[i] == s.rows[i])
  {
  }

  lemma SameRows(a: map<Id, Row>, b: map<Id, Row>)
    requires forall i :: i in a <==> i in b
    requires forall i | i in a && i in b :: a[i] == b[i]
    ensures a == b
  {
  }

  // A store nobody is writing to, as a new or a migrated database is.
  ghost predicate Founded(s: Store) {
    && s.open == map[] && OneActive(s.rows) && s.rows.Keys <= s.used && s.threads.Keys <= s.usedThreads
    && forall i | i in s.rows :: s.rows[i].thread in s.threads
  }

  lemma FoundedKeepsInv(s: Store)
    requires Founded(s)
    ensures Inv(s)
  {
  }

  class TurnService {
    var store: Store
    var published: seq<Job>
    // Every step taken on the store, so that the invariants proved of runs apply to it.
    ghost var initial: Store
    ghost var trace: seq<Op>

    ghost predicate Valid()
      reads this
    {
      Founded(initial) && store == Play(initial, trace)
    }

    lemma Reached()
      requires Valid()
      ensures Inv(store)
    {
      FoundedKeepsInv(initial);
      OneActivePerThreadForever(initial, trace);
    }

    constructor (start: Store)
      requires Founded(start)
      ensures Valid() && store == start && initial == store && published == []
    {
      store := start;
      initial := start;
      trace := [];
      published := [];
    }

    method Do(op: Op)
      requires Valid()
      modifies this`store, this`trace
      ensures Valid() && store == Step(old(store), op) && trace == old(trace) + [op]
    {
      PlayAppend(initial, trace, op);
      store := Step(store, op);
      trace := trace + [op];
    }

    // The transaction begins, with the INSERT of the user message if the turn brings one; a failure
    // up to the INSERT of the reply rolls it back.
    method BeginTurn(tx: Tx, t: Turn, text: string, now: int, faults: Faults) returns (failed: bool)
      requires Valid() && MayOpen(store, tx, t)
      modifies this`store, this`trace
      ensures Valid() && old(trace) <= trace
      ensures failed == FailsEarly(t.newUser, faults)
      ensures store.open == if failed then old(store.open) else old(store.open)[tx := Begun(t, text, now)]
      ensures store == old(store).(open := store.open, used := store.used, usedThreads := store.usedThreads)
    {
      Do(Op.Open(tx, t));
      failed := t.newUser && faults.user;
      if t.newUser && !faults.user {
        Do(StoreUser(tx, text, now));
      }
      failed := failed || faults.reply;
      if failed {
        Do(Abort(tx));
      }
    }

    // The INSERT of a reply waits while another transaction holds the thread's slot.
    method AwaitRival(tx: Tx, thread: Id, rival: Rival)
      requires Valid() && NamesBlocker(store, tx, thread, rival)
      modifies this`store, this`trace
      ensures Valid() && old(trace) <= trace
      ensures store == if Blocked(old(store), tx, thread) then AfterRival(old(store), rival) else old(store)
      ensures !Blocked(store, tx, thread)
    {
      if Blocked(store, tx, thread) {
        Reached();
        RivalGone(store, tx, thread, rival);
        if rival.commits {
          Do(PostJob(rival.tx));
          Do(Commit(rival.tx));
        } else {
          Do(Abort(rival.tx));
        }
      }
    }

    // The INSERTs of one turn: on failure the transaction is gone and nothing of it was stored.
    method FlushRows(tx: Tx, t: Turn, text: string, now: int, faults: Faults, rival: Rival)
        returns (failed: Option<Reply>)
      requires Valid() && MayOpen(store, tx, t) && NamesBlocker(store, tx, t.thread, rival)
      modifies this`store, this`trace
      ensures Valid() && old(trace) <= trace
      ensures var base := Base(old(store), tx, t.thread, t.newUser, faults, rival);
              && store.rows == base.rows && store.threads == base.threads && store.tracked == base.tracked
              && failed == (if FailsEarly(t.newUser, faults) then Some(ServerError)
                            else if HoldsActive(base.rows, t.thread) then Some(Conflict)
                            else None)
              && (failed.Some? ==> store.open == base.open)
              && (failed.None? ==>
                    store.open == base.open[tx := t.(stage := ReplyStored, staged := FlushedRows(t, text, now))])
    {
      ghost var was := store;
      var rejected := BeginTurn(tx, t, text, now, faults);
      if rejected {
        return Some(ServerError);
      }
      WaitTurn(tx, t, Begun(t, text, now), was, faults, rival);
      assert ThreadVisible(store, t);
      failed := InsertReply(tx, t, text, now, Base(was, tx, t.thread, t.newUser, faults, rival));
    }

    // The wait of a begun turn: the store is what its rival leaves, and the turn is as it was.
    method WaitTurn(tx: Tx, t: Turn, begun: Turn, ghost was: Store, faults: Faults, rival: Rival)
      requires Valid() && tx !in was.open && NamesBlocker(was, tx, t.thread, rival)
      requires store == was.(open := was.open[tx := begun], used := store.used, usedThreads := store.usedThreads)
      requires !FailsEarly(t.newUser, faults)
      modifies this`store, this`trace
      ensures Valid() && old(trace) <= trace
      ensures var base := Base(was, tx, t.thread, t.newUser, faults, rival);
              && tx !in base.open
              && store == base.(open := base.open[tx := begun], used := old(store.used),
                  usedThreads := old(store.usedThreads))
      ensures !Blocked(store, tx, t.thread)
    {
      BaseLacks(was, tx, t.thread, t.newUser, faults, rival);
      assert forall p :: Blocks(store, tx, p, t.thread) <==> Blocks(was, tx, p, t.thread);
      assert Blocked(was, tx, t.thread) ==> Blocks(was, tx, rival.tx, t.thread);
      assert Blocked(store, tx, t.thread) <==> Blocked(was, tx, t.thread);
      if Blocked(was, tx, t.thread) {
        Reached();
        assert TurnOk(store, store.open[rival.tx]);
        BlockerIsInFlight(store, rival.tx, t.thread);
        RivalIgnores(was, store, tx, begun, rival);
      }
      AwaitRival(tx, t.thread, rival);
    }

    method InsertReply(tx: Tx, t: Turn, text: string, now: int, ghost base: Store) returns (failed: Option<Reply>)
      requires Valid() && tx !in base.open && !Blocked(store, tx, t.thread) && ThreadVisible(store, t)
      requires store == base.(open := base.open[tx := Begun(t, text, now)], used := store.used,
          usedThreads := store.usedThreads)
      requires t.stage == Opened && t.staged == map[] && (t.newUser ==> t.reply != t.userMessage)
      modifies this`store, this`trace
      ensures Valid() && old(trace) <= trace
      ensures store.rows == base.rows && store.threads == base.threads && store.tracked == base.tracked
      ensures failed == if HoldsActive(base.rows, t.thread) then Some(Conflict) else None
      ensures store.open == if failed.Some? then base.open else
                base.open[tx := t.(stage := ReplyStored, staged := FlushedRows(t, text, now))]
    {
      ReplyInserted(store, base, tx, t, text, now);
      Do(StoreReply(tx, now));
      failed := if tx !in store.open then Some(Conflict) else None;
    }

    method PostAndCommit(tx: Tx, t: Turn, text: string, now: int)
      requires Valid() && tx in store.open && (t.newUser ==> t.reply != t.userMessage)
      requires store.open[tx] == t.(stage := ReplyStored, staged := FlushedRows(t, text, now))
      modifies this`store, this`trace
      ensures Valid() && old(trace) <= trace
      ensures store == old(store).(open := old(store.open) - {tx},
                                   rows := old(store.rows) + TurnRows(old(store), t, text, now),
                                   threads := old(store.threads)[t.thread := t.owner])
    {
      Do(PostJob(tx));
      assert store.open[tx].staged == TurnRows(old(store), t, text, now);
      assert store.open - {tx} == old(store.open) - {tx};
      Do(Commit(tx));
    }

    // From the flushed rows to the broker; `base` is the store without the transaction.
    method CommitAndPublish(tx: Tx, t: Turn, text: string, now: int, faults: Faults, ghost base: Store)
        returns (reply: Reply)
      requires Valid() && tx !in base.open && (t.newUser ==> t.reply != t.userMessage)
      requires store == base.(open := base.open[tx := t.(stage := ReplyStored, staged := FlushedRows(t, text, now))],
                              used := store.used, usedThreads := store.usedThreads)
      modifies this
      ensures Valid() && initial == old(initial) && old(trace) <= trace
      ensures reply == if faults.post || faults.commit then Unavailable else Accepted
      ensures store.rows == if reply == Accepted then base.rows + TurnRows(base, t, text, now) else base.rows
      ensures store.threads == if reply == Accepted then base.threads[t.thread := t.owner] else base.threads
      ensures store.open == base.open && store.tracked == base.tracked
      ensures published == if reply == Accepted && !faults.publish then old(published) + [JobOf(t)] else old(published)
    {
      assert store.open - {tx} == base.open;
      if faults.post || faults.commit {
        Do(Abort(tx));
        return Unavailable;
      }
      PostAndCommit(tx, t, text, now);
      if !faults.publish {
        published := published + [JobOf(t)];
      }
      reply := Accepted;
    }

    // The body shared by the three endpoints, from the first INSERT to the broker.
    method PersistAndEnqueue(tx: Tx, t: Turn, text: string, now: int, faults: Faults, rival: Rival)
        returns (reply: Reply)
      requires Valid() && MayOpen(store, tx, t) && NamesBlocker(store, tx, t.thread, rival)
      modifies this
      ensures Valid() && initial == old(initial) && old(trace) <= trace
      ensures var base := Base(old(store), tx, t.thread, t.newUser, faults, rival);
              && reply == Verdict(base, t.thread, t.newUser, faults)
              && store.rows == (if reply == Accepted then base.rows + TurnRows(base, t, text, now) else base.rows)
              && store.threads == (if reply == Accepted then base.threads[t.thread := t.owner] else base.threads)
              && store.open == base.open && store.tracked == base.tracked
      ensures published == if reply == Accepted && !faults.publish then old(published) + [JobOf(t)] else old(published)
    {
      ghost var base := Base(store, tx, t.thread, t.newUser, faults, rival);
      BaseLacks(store, tx, t.thread, t.newUser, faults, rival);
      var failed := FlushRows(tx, t, text, now, faults, rival);
      if failed.Some? {
        return failed.value;
      }
      reply := CommitAndPublish(tx, t, text, now, faults, base);
    }

    // The guarded UPDATE, the only write a worker has; false tells it that the row is terminal.
    method SaveStatus(id: Id, status: Status, content: Option<string>) returns (updated: bool)
      requires Valid() && status != Queued
      modifies this`store, this`trace
      ensures Valid() && old(trace) <= trace
      ensures updated <==> id in old(store.rows) && Active(old(store.rows)[id])
      ensures store == if !updated then old(store) else
                old(store).(rows := old(store.rows)[id := old(store.rows)[id].(
                  status := status, content := if content.Some? then content.value else old(store.rows)[id].content)])
    {
      updated := id in store.rows && Active(store.rows[id]);
      if updated {
        Do(WorkerWrite(id, status, content, store.rows[id].partial));
      }
    }

    method SavePartial(id: Id, text: string) returns (updated: bool)
      requires Valid()
      modifies this`store, this`trace
      ensures Valid() && old(trace) <= trace
      ensures updated <==> id in old(store.rows) && Active(old(store.rows)[id])
      ensures store == if !updated then old(store) else
                old(store).(rows := old(store.rows)[id := old(store.rows)[id].(status := Generating,
                    partial := Some(text))])
    {
      updated := id in store.rows && Active(store.rows[id]);
      if updated {
        Do(WorkerWrite(id, Generating, None, Some(text)));
      }
    }

    // Completing a reply removes the replies it replaces, if they are assistant rows of its own
    // thread, in the same commit; nothing else changes.
    method SaveCompleted(id: Id, text: string, replaced: seq<Id>) returns (updated: bool)
      requires Valid()
      modifies this`store, this`trace
      ensures Valid() && old(trace) <= trace
      ensures updated <==> id in old(store.rows) && Active(old(store.rows)[id])
      ensures !updated ==> store == old(store)
      ensures updated ==> id in store.rows && store.rows[id] == old(store.rows)[id].(
                status := Completed, content := text, partial := Some(""), outbox := NoJob)
      ensures updated ==> forall i | i != id :: i in store.rows <==>
                i in old(store.rows) && !(i in replaced && Replaces(old(store.rows), id, i))
      ensures forall i | i != id && i in store.rows :: i in old(store.rows) && store.rows[i] == old(store.rows)[i]
    {
      updated := id in store.rows && Active(store.rows[id]);
      if !updated {
        return;
      }
      var was := store.rows;
      var rows := was[id := was[id].(status := Completed, content := text, partial := Some(""), outbox := NoJob)];
      for k := 0 to |replaced|
        invariant id in rows
        invariant rows[id] == was[id].(status := Completed, content := text, partial := Some(""), outbox := NoJob)
        invariant forall i | i != id :: i in rows <==> i in was && !(i in replaced[..k] && Replaces(was, id, i))
        invariant forall i | i in rows && i != id :: i in was && rows[i] == was[i]
      {
        var r := replaced[k];
        if r in rows && r != id && rows[r].thread == rows[id].thread && rows[r].role.Assistant? {
          rows := rows - {r};
        }
      }
      assert replaced[..|replaced|] == replaced;
      CompletedRows(store, id, text, replaced);
      SameRows(rows, Step(store, WorkerComplete(id, text, set i | i in replaced)).rows);
      Do(WorkerComplete(id, text, set i | i in replaced));
      assert store.rows == rows;
    }

    method FailStaleMessage(id: Id, cutoff: int) returns (moved: bool)
      requires Valid()
      modifies this`store, this`trace
      ensures Valid() && old(trace) <= trace
      ensures moved <==> id in old(store.rows) && Active(old(store.rows)[id]) && old(store.rows)[id].createdAt < cutoff
      ensures store == if !moved then old(store) else
                old(store).(rows := old(store.rows)[id := old(store.rows)[id].(
                  status := Failed, content := AGENT_FAILURE_CONTENT, partial := None)])
    {
      moved := id in store.rows && Active(store.rows[id]) && store.rows[id].createdAt < cutoff;
      if moved {
        Do(FailStale(id, cutoff));
      }
    }

    // `details` is the reply's metadata, which every endpoint fills.
    method CreateThread(tx: Tx, user: Id, thread: Id, userMessage: Id, message: Id, text: string,
                        details: MessageMetadata.Entries, now: int, faults: Faults)
      returns (reply: Reply)
      requires Valid() && tx !in store.open && userMessage != message && MessageMetadata.JOB_KEY !in details
      requires userMessage !in store.used && message !in store.used && thread !in store.usedThreads
      modifies this
      ensures Valid() && reply == Verdict(old(store), thread, true, faults) && reply != Conflict
      ensures reply == Accepted ==>
                && store.threads == old(store.threads)[thread := user]
                && store.rows == WithTurn(old(store), thread, user, userMessage, Some(text), message, now,
                                          details == map[])
      ensures reply != Accepted ==> store.rows == old(store.rows) && store.threads == old(store.threads)
      ensures published == old(published) + if reply == Accepted && !faults.publish
                                            then [Job(thread, user, userMessage)] else []
    {
      Reached();
      FreshThreadIsFree(store, tx, thread);
      ghost var t := Turn(user, thread, true, userMessage, true, message, details, map[], Opened);
      TurnRowsAre(store, t, text, now);
      reply := PersistAndEnqueue(tx, Turn(user, thread, true, userMessage, true, message, details, map[], Opened),
                                 text, now, faults, Rival(0, false));
    }

    // `base` is the store after the rival, if the thread's slot had to be waited for.
    method AddMessage(tx: Tx, user: Id, thread: Id, userMessage: Id, message: Id, text: string,
                      details: MessageMetadata.Entries, now: int, faults: Faults, rival: Rival)
      returns (reply: Reply)
      requires Valid() && tx !in store.open && userMessage != message && MessageMetadata.JOB_KEY !in details
      requires userMessage !in store.used && message !in store.used
      requires NamesBlocker(store, tx, thread, rival)
      modifies this
      ensures Valid()
      ensures reply == NotFound <==> !Owns(old(store), user, thread)
      ensures reply == NotFound ==> store == old(store)
      ensures reply != NotFound ==>
                var base := Base(old(store), tx, thread, true, faults, rival);
                && reply == Verdict(base, thread, true, faults)
                && store.rows == if reply != Accepted then base.rows else
                     WithTurn(base, thread, user, userMessage, Some(text), message, now, details == map[])
      ensures published == old(published) + if reply == Accepted && !faults.publish
                                            then [Job(thread, user, userMessage)] else []
    {
      if thread !in store.threads || store.threads[thread] != user {
        return NotFound;
      }
      ghost var t := Turn(user, thread, false, userMessage, true, message, details, map[], Opened);
      TurnRowsAre(Base(store, tx, thread, true, faults, rival), t, text, now);
      reply := PersistAndEnqueue(tx, Turn(user, thread, false, userMessage, true, message, details, map[], Opened),
                                 text, now, faults, rival);
    }

    method Regenerate(tx: Tx, user: Id, thread: Id, message: Id, last: Option<Id>, lastUser: Option<Id>,
                      details: MessageMetadata.Entries, now: int, faults: Faults, rival: Rival)
      returns (reply: Reply)
      requires Valid() && tx !in store.open && message !in store.used && MessageMetadata.JOB_KEY !in details
      requires IsLatest(store.rows, thread, false, last) && IsLatest(store.rows, thread, true, lastUser)
      requires NamesBlocker(store, tx, thread, rival)
      modifies this
      ensures Valid()
      ensures reply == NotFound <==> !Owns(old(store), user, thread)
      ensures reply == BadRequest <==>
                Owns(old(store), user, thread)
                && (last == None || lastUser == None || old(store.rows)[last.value].role.User?)
      ensures reply in {NotFound, BadRequest} ==> store == old(store)
      ensures reply !in {NotFound, BadRequest} ==>
                if Active(old(store.rows)[last.value]) then reply == Conflict && store == old(store)
                else
                  var base := Base(old(store), tx, thread, false, faults, rival);
                  && reply == Verdict(base, thread, false, faults)
                  && store.rows == if reply != Accepted then base.rows else
                       WithTurn(base, thread, user, lastUser.value, None, message, now, details == map[])
      ensures published == old(published) + if reply == Accepted && !faults.publish
                                            then [Job(thread, user, lastUser.value)] else []
    {
      if thread !in store.threads || store.threads[thread] != user {
        return NotFound;
      }
      if last.None? || lastUser.None? || store.rows[last.value].role.User? {
        return BadRequest;
      }
      if ActiveStatus(store.rows[last.value].status) {
        return Conflict;
      }
      ghost var t := Turn(user, thread, false, lastUser.value, false, message, details, map[], Opened);
      TurnRowsAre(Base(store, tx, thread, false, faults, rival), t, "", now);
      reply := PersistAndEnqueue(tx, Turn(user, thread, false, lastUser.value, false, message, details, map[],
                                          Opened), "", now, faults, rival);
    }
  }
}
