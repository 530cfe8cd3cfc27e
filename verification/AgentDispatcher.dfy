/**
  The dispatch service: one dispatch attempt, one pass of the finalizer over the stale rows and one
  reconcile pass over the queued ones. What other processes and the infrastructure do meanwhile
  comes in as one record per row visited.
*/
module AgentDispatcher {
  import opened AgentTurn
  import opened Messages
  import opened Wrappers
  import TurnStore

  // ---------------------------------------------------------------- dispatching one message

  // What another process did to the claim key between the publish and the script.
  datatype Meanwhile = Untouched | NowHolds(key: Option<Key>)

  datatype Weather = Weather(at: int, token: Pid, claim: Command, publish: Command, meanwhile: Meanwhile, lag: nat,
                             extend: Command)

  datatype Outcome = Dispatched | AlreadyClaimed | Raised

  // One attempt seen by its own key alone.
  function AttemptOutcomeOf(key: Option<Key>, w: Weather): Outcome {
    if w.claim != Answered then Raised
    else if Live(key, w.at) then AlreadyClaimed
    else if w.publish != Answered || w.extend != Answered then Raised
    else Dispatched
  }

  // The job reaches the broker, whether or not the attempt learns it.
  predicate Reaches(key: Option<Key>, w: Weather) {
    w.claim == Answered && !Live(key, w.at) && w.publish != NoEffect
  }

  // A live key is left as it was, a failed publish leaves the 60 s claim, and after a publish the
  // key is extended to ACTIVE_JOB_TTL unless the script is lost, the key expired or changed hands.
  function KeyAfterAttempt(key: Option<Key>, w: Weather): Option<Key> {
    if w.claim == NoEffect || Live(key, w.at) then key
    else
      var claimed := Some(Key(w.token, w.at + 60));
      if w.claim == Unanswered || w.publish != Answered then claimed
      else
        var found := if w.meanwhile.NowHolds? then w.meanwhile.key else claimed;
        if w.extend != NoEffect && Live(found, w.at + w.lag) && found.value.token == w.token
        then Some(Key(w.token, w.at + w.lag + 7200)) else found
  }

  // The attempt as a dispatcher process of the message protocol, with what all others do between its
  // publish and its script; a command whose answer never comes is the last step it takes.
  function AttemptRun(t: Turn, w: Weather, between: seq<Op>): Turn {
    if w.claim == NoEffect then t
    else
      var claimed := Step(t, TryClaim(w.token));
      if w.claim == Unanswered then Step(claimed, Crash(w.token))
      else
        var sent := Step(claimed, Send(w.token, w.publish));
        if Live(t.key, t.now) || w.publish != Answered then sent else ExtendRun(Play(sent, between), w)
  }

  function ExtendRun(late: Turn, w: Weather): Turn {
    var extended := if w.extend == NoEffect then late else Step(late, TryExtend(w.token));
    if w.extend == Answered then extended else Step(extended, Crash(w.token))
  }

  predicate ByDispatcher(op: Op, p: Pid) {
    op == TryClaim(p) || (op.Send? && op.p == p) || op == TryExtend(p) || op == Crash(p)
  }

  function PublishedTurn(t: Turn, w: Weather): Turn {
    Step(Step(t, TryClaim(w.token)), Send(w.token, w.publish))
  }

  // The weather is what these steps of other processes amount to: the key they leave, and the time
  // they take.
  ghost predicate Foretells(t: Turn, w: Weather, between: seq<Op>) {
    var late := Play(PublishedTurn(t, w), between);
    && w.at == t.now && late.now == w.at + w.lag
    && late.key == (if w.meanwhile.NowHolds? then w.meanwhile.key else Some(Key(w.token, w.at + CLAIM_SECONDS)))
    && forall op | op in between :: !ByDispatcher(op, w.token)
  }

  ghost predicate PublishedSince(t: Turn, done: Turn, p: Pid) {
    |done.log| > |t.log| + 1 && done.log[|t.log| + 1] == Publish(t.now, p)
  }

  predicate Stands(t: Turn, p: Pid, d: Dispatch) {
    p in t.dispatchers && t.dispatchers[p] == d
  }

  lemma {:induction false} OthersLeaveDispatcher(t: Turn, ops: seq<Op>, p: Pid)
    requires p in t.dispatchers && forall op | op in ops :: !ByDispatcher(op, p)
    ensures Stands(Play(t, ops), p, t.dispatchers[p]) && t.log <= Play(t, ops).log
    decreases |ops|
  {
    if ops != [] {
      assert ops[0] in ops && forall op | op in ops[1..] :: op in ops;
      LogGrows(t, ops[0]);
      OthersLeaveDispatcher(Step(t, ops[0]), ops[1..], p);
    }
  }

  // Over one key, an attempt among any steps of other processes is that dispatcher: same key, same
  // answer, and the job is published by the one exactly if by the other.
  lemma AttemptIsTheProtocol(t: Turn, w: Weather, between: seq<Op>)
    requires w.token !in t.dispatchers && w.at == t.now
    requires w.claim == Answered && !Live(t.key, t.now) && w.publish == Answered ==> Foretells(t, w, between)
    ensures var done := AttemptRun(t, w, between);
            && done.key == KeyAfterAttempt(t.key, w)
            && (AttemptOutcomeOf(t.key, w) == AlreadyClaimed <==> Stands(done, w.token, Refused))
            && (AttemptOutcomeOf(t.key, w) == Dispatched <==> Stands(done, w.token, Settled))
            && (Reaches(t.key, w) <==> PublishedSince(t, done, w.token))
  {
    if w.claim != NoEffect && Live(t.key, t.now) {
      var claimed := Step(t, TryClaim(w.token));
      assert claimed == t.(dispatchers := t.dispatchers[w.token := Refused]);
      assert Step(claimed, Send(w.token, w.publish)) == claimed;
    } else if w.claim == Answered {
      PublishOutcome(t, w);
      if w.publish == Answered {
        var sent, late := PublishedTurn(t, w), Play(PublishedTurn(t, w), between);
        OthersLeaveDispatcher(sent, between, w.token);
        assert late.log[|t.log| + 1] == sent.log[|t.log| + 1];
        ExtendOutcome(t, late, w);
      }
    }
  }

  lemma PublishOutcome(t: Turn, w: Weather)
    requires w.at == t.now && w.token !in t.dispatchers && w.claim == Answered && !Live(t.key, t.now)
    ensures var sent := PublishedTurn(t, w);
            && sent.key == Some(Key(w.token, w.at + CLAIM_SECONDS))
            && Stands(sent, w.token, if w.publish == Answered then Sent else Lost)
            && (w.publish != NoEffect <==> PublishedSince(t, sent, w.token))
  {
    var claimed := Step(t, TryClaim(w.token));
    assert claimed.log == t.log + [Claim(t.now, w.token)];
  }

  lemma ExtendOutcome(t: Turn, late: Turn, w: Weather)
    requires late.now == w.at + w.lag && Stands(late, w.token, Sent) && PublishedSince(t, late, w.token)
    ensures var done := ExtendRun(late, w);
            && done.key == (if w.extend != NoEffect && Live(late.key, late.now) && late.key.value.token == w.token
                            then Some(Key(w.token, late.now + ACTIVE_JOB_TTL)) else late.key)
            && Stands(done, w.token, if w.extend == Answered then Settled else Lost)
            && PublishedSince(t, done, w.token)
  {
  }

  // ---------------------------------------------------------------- scans

  function Lookup<V>(m: map<Id, V>, id: Id): Option<V> {
    if id in m then Some(m[id]) else None
  }

  function Store<V>(m: map<Id, V>, id: Id, v: Option<V>): map<Id, V> {
    if v.Some? then m[id := v.value] else m - {id}
  }

  ghost predicate Distinct(scan: seq<Id>) {
    forall a, b | 0 <= a < b < |scan| :: scan[a] != scan[b]
  }

  // ORDER BY created_at over the whole table.
  ghost predicate IsOrder(rows: map<Id, Row>, order: seq<Id>) {
    && (forall i :: i in order <==> i in rows)
    && Distinct(order)
    && (forall a, b | 0 <= a < b < |order| :: rows[order[a]].createdAt <= rows[order[b]].createdAt)
  }

  predicate Queueable(r: Row) {
    r.role.Assistant? && r.status == Queued && !r.outbox.NoJob?
  }

  // The query of the reconciler: queued assistant rows with an outbox record, oldest first.
  function Queue(rows: map<Id, Row>, order: seq<Id>): seq<Id> {
    if order == [] then []
    else
      var init, last := order[..|order| - 1], order[|order| - 1];
      Queue(rows, init) + if last in rows && Queueable(rows[last]) then [last] else []
  }

  // It finds every such row once, and no other.
  lemma {:induction false} QueueIsComplete(rows: map<Id, Row>, order: seq<Id>)
    requires Distinct(order)
    ensures forall i :: i in Queue(rows, order) <==> i in order && i in rows && Queueable(rows[i])
    ensures Distinct(Queue(rows, order))
  {
    if order != [] {
      var init, last := order[..|order| - 1], order[|order| - 1];
      assert order == init + [last];
      QueueIsComplete(rows, init);
      assert last !in init;
    }
  }

  // The query of the finalizer: the oldest stale active rows, at most `limit` of them.
  ghost predicate IsStaleScan(rows: map<Id, Row>, cutoff: int, limit: nat, scan: seq<Id>) {
    && |scan| <= limit
    && (forall i | i in scan :: i in rows && Active(rows[i]) && rows[i].createdAt < cutoff)
    && Distinct(scan)
    && (forall i, j | i in rows && i !in scan && Active(rows[i]) && rows[i].createdAt < cutoff && j in scan ::
          |scan| == limit && rows[j].createdAt <= rows[i].createdAt)
  }

  // ---------------------------------------------------------------- finalizing one row

  // What happens around one stale row: the lock command of finalizer f, a worker's last guarded
  // write, the delay between the lock and the UPDATE's commit, who took the lock over if that delay
  // outlived it, and whether the release fails.
  datatype FinWeather = FinWeather(at: int, f: Pid, acquire: Command, worker: Option<Status>, delay: nat,
                                   update: Command, successor: Option<Lock>, releaseFails: bool)

  function LockOf(lock: Option<Lock>, now: int): bool {
    lock.Some? && now < lock.value.expiry
  }

  function RowSeen(row: Row, w: FinWeather): Row {
    if w.worker.Some? && Active(row) then row.(status := w.worker.value) else row
  }

  predicate Moves(row: Row, lock: Option<Lock>, cutoff: int, w: FinWeather) {
    && w.acquire == Answered && !LockOf(lock, w.at) && w.update != NoEffect
    && Active(RowSeen(row, w)) && row.createdAt < cutoff
  }

  // A commit whose answer is lost moves the row uncounted.
  predicate Counts(row: Row, lock: Option<Lock>, cutoff: int, w: FinWeather) {
    Moves(row, lock, cutoff, w) && w.update == Answered
  }

  function RowAfter(row: Row, lock: Option<Lock>, cutoff: int, w: FinWeather): Row {
    if Moves(row, lock, cutoff, w) then FailRow(RowSeen(row, w)) else RowSeen(row, w)
  }

  function OwnLock(w: FinWeather): Option<Lock> {
    Some(Lock(Finalizer(w.f), w.at + 90))
  }

  // A lock whose acquisition was not answered, or whose release failed, stays until it expires.
  function LockAfter(lock: Option<Lock>, w: FinWeather): Option<Lock> {
    if w.acquire == NoEffect || LockOf(lock, w.at) then lock
    else if w.acquire == Unanswered then OwnLock(w)
    else if w.delay >= 90 then w.successor
    else if w.releaseFails then OwnLock(w)
    else None
  }

  // The finalizer as a process of the message protocol, with what all others do between its lock and
  // its UPDATE.
  function FinalizerRun(t: Turn, w: FinWeather, between: seq<Op>): Turn {
    var late := Play(Locked(t, w), between);
    if w.acquire != Answered then late
    else
      var failed := if w.update == NoEffect then late else Step(late, Fail(w.f));
      if w.releaseFails then failed else Step(failed, Release(w.f))
  }

  function Locked(t: Turn, w: FinWeather): Turn {
    if w.acquire == NoEffect then t else Step(t, Seize(w.f))
  }

  predicate ByFinalizer(op: Op, f: Pid) {
    op == Select(f) || op == Seize(f) || op == Fail(f) || op == Release(f)
  }

  // The weather is what these steps of other processes amount to: the status they leave, the time
  // they take and, where the finalizer's own lock does not keep them away, the lock they leave.
  ghost predicate FinForetells(t: Turn, row: Row, w: FinWeather, between: seq<Op>) {
    var late := Play(Locked(t, w), between);
    && w.at == t.now && late.now == w.at + w.delay && late.status == RowSeen(row, w).status
    && (forall op | op in between :: !ByFinalizer(op, w.f))
    && (w.acquire == NoEffect || LockOf(t.lock, w.at) ==> late.lock == t.lock)
    && (w.acquire == Unanswered && !LockOf(t.lock, w.at) ==> late.lock == OwnLock(w))
    && (w.acquire == Answered && !LockOf(t.lock, w.at) && w.delay >= LOCK_SECONDS ==> late.lock == w.successor)
  }

  // Nobody else ends the finalizer's lock while it lives, and nobody else takes one in its name.
  ghost predicate LockIsApart(t: Turn, f: Pid, own: Lock) {
    && (t.now < own.expiry ==> t.lock == Some(own))
    && (t.lock.Some? && t.lock.value.owner == Finalizer(f) ==> t.lock.value == own)
  }

  lemma StepLeavesLock(t: Turn, op: Op, f: Pid, own: Lock)
    requires f in t.finalizers && !ByFinalizer(op, f) && own.owner == Finalizer(f) && LockIsApart(t, f, own)
    ensures LockIsApart(Step(t, op), f, own)
    ensures f in Step(t, op).finalizers && Step(t, op).finalizers[f] == t.finalizers[f]
  {
  }

  lemma {:induction false} OthersLeaveLock(t: Turn, ops: seq<Op>, f: Pid, own: Lock)
    requires f in t.finalizers && own.owner == Finalizer(f) && LockIsApart(t, f, own)
    requires forall op | op in ops :: !ByFinalizer(op, f)
    ensures LockIsApart(Play(t, ops), f, own)
    ensures f in Play(t, ops).finalizers && Play(t, ops).finalizers[f] == t.finalizers[f]
    decreases |ops|
  {
    if ops != [] {
      assert ops[0] in ops && forall op | op in ops[1..] :: op in ops;
      StepLeavesLock(t, ops[0], f, own);
      OthersLeaveLock(Step(t, ops[0]), ops[1..], f, own);
    }
  }

  lemma {:induction false} OthersLeaveFinalizer(t: Turn, ops: seq<Op>, f: Pid)
    requires f in t.finalizers && forall op | op in ops :: !ByFinalizer(op, f)
    ensures f in Play(t, ops).finalizers && Play(t, ops).finalizers[f] == t.finalizers[f]
    ensures Play(t, ops).created == t.created
    decreases |ops|
  {
    if ops != [] {
      assert ops[0] in ops && forall op | op in ops[1..] :: op in ops;
      StepIsNoted(t, ops[0]);
      OthersLeaveFinalizer(Step(t, ops[0]), ops[1..], f);
    }
  }

  predicate Moved(t: Turn, f: Pid, cutoff: int) {
    f in t.finalizers && t.finalizers[f] == Done(cutoff, true)
  }

  // Over one message, the finalizer among any steps of other processes is the finalizer of the
  // message protocol: it moves the same rows, and its lock ends the same way.
  lemma FinalizingIsTheProtocol(t: Turn, row: Row, w: FinWeather, between: seq<Op>)
    requires w.f in t.finalizers && t.finalizers[w.f].Chosen? && row.createdAt == t.created
    requires FinForetells(t, row, w, between) && row.role.Assistant?
    ensures var cutoff := t.finalizers[w.f].cutoff;
            var done := FinalizerRun(t, w, between);
            && done.status == RowAfter(row, t.lock, cutoff, w).status
            && done.lock == LockAfter(t.lock, w)
            && (Moves(row, t.lock, cutoff, w) <==> Moved(done, w.f, cutoff))
  {
    var late, own := Play(Locked(t, w), between), Lock(Finalizer(w.f), w.at + LOCK_SECONDS);
    OthersLeaveFinalizer(Locked(t, w), between, w.f);
    if w.acquire == Answered && !LockOf(t.lock, w.at) {
      OthersLeaveLock(Locked(t, w), between, w.f, own);
      FinishHolding(t.finalizers[w.f].cutoff, late, row, w, own);
    } else if w.acquire == Answered {
      assert Step(late, Fail(w.f)) == late && Step(late, Release(w.f)) == late;
    }
  }

  lemma FinishHolding(cutoff: int, late: Turn, row: Row, w: FinWeather, own: Lock)
    requires w.f in late.finalizers && late.finalizers[w.f] == Holding(cutoff, w.at)
    requires row.role.Assistant? && row.createdAt == late.created && late.status == RowSeen(row, w).status
    requires late.now == w.at + w.delay && own == Lock(Finalizer(w.f), w.at + LOCK_SECONDS)
    requires LockIsApart(late, w.f, own) && w.acquire == Answered
    requires w.delay >= LOCK_SECONDS ==> late.lock == w.successor
    ensures var failed := if w.update == NoEffect then late else Step(late, Fail(w.f));
            var done := if w.releaseFails then failed else Step(failed, Release(w.f));
            && done.status == RowAfter(row, None, cutoff, w).status
            && done.lock == LockAfter(None, w)
            && (Moves(row, None, cutoff, w) <==> Moved(done, w.f, cutoff))
  {
  }

  // Under a free lock it is also the guarded UPDATE of the message table, on what the worker left.
  lemma FinalizingIsTheGuardedUpdate(s: TurnStore.Store, id: Id, cutoff: int, w: FinWeather)
    requires id in s.rows && w.acquire == Answered && w.update != NoEffect
    ensures var seen := s.(rows := s.rows[id := RowSeen(s.rows[id], w)]);
            var after := TurnStore.Step(seen, TurnStore.FailStale(id, cutoff));
            && after.rows.Keys == s.rows.Keys
            && after.rows[id] == RowAfter(s.rows[id], None, cutoff, w)
            && (after != seen ==> Moves(s.rows[id], None, cutoff, w) && after.rows[id].status == Failed)
  {
  }

  // ---------------------------------------------------------------- counting

  function Tally(flags: seq<bool>): nat {
    if flags == [] then 0 else Tally(flags[..|flags| - 1]) + (if flags[|flags| - 1] then 1 else 0)
  }

  // What was counted, of what was done: never more, and as many exactly if each was counted.
  lemma {:induction false} TallyBelow(counted: seq<bool>, did: seq<bool>)
    requires |counted| == |did| && forall i | 0 <= i < |did| :: counted[i] ==> did[i]
    ensures Tally(counted) <= Tally(did)
    ensures Tally(counted) == Tally(did) <==> forall i | 0 <= i < |did| :: did[i] ==> counted[i]
  {
    if did != [] {
      var n := |did| - 1;
      TallyBelow(counted[..n], did[..n]);
      if forall i | 0 <= i < n :: did[..n][i] ==> counted[..n][i] {
        assert forall i | 0 <= i < n :: did[i] ==> counted[i];
      } else {
        var i :| 0 <= i < n && did[..n][i] && !counted[..n][i];
        assert did[i] && !counted[i];
      }
    }
  }

  // The ids whose flag is set, in order.
  function Picked(ids: seq<Id>, flags: seq<bool>): seq<Id>
    requires |ids| == |flags|
  {
    if ids == [] then []
    else Picked(ids[..|ids| - 1], flags[..|ids| - 1]) + (if flags[|ids| - 1] then [ids[|ids| - 1]] else [])
  }

  lemma {:induction false} PickedCounts(ids: seq<Id>, flags: seq<bool>)
    requires |ids| == |flags|
    ensures |Picked(ids, flags)| == Tally(flags)
  {
    if ids != [] { PickedCounts(ids[..|ids| - 1], flags[..|ids| - 1]); }
  }

  lemma {:induction false} PickedContains(ids: seq<Id>, flags: seq<bool>, i: nat)
    requires |ids| == |flags| && i < |ids| && flags[i]
    ensures ids[i] in Picked(ids, flags)
  {
    if i < |ids| - 1 { PickedContains(ids[..|ids| - 1], flags[..|ids| - 1], i); }
  }

  // With no id twice, an id is picked exactly if its own flag is set.
  lemma {:induction false} PickedIff(ids: seq<Id>, flags: seq<bool>, id: Id)
    requires |ids| == |flags| && Distinct(ids)
    ensures id in Picked(ids, flags) <==> exists i :: 0 <= i < |ids| && ids[i] == id && flags[i]
  {
    if ids != [] {
      var n := |ids| - 1;
      PickedIff(ids[..n], flags[..n], id);
      if i :| 0 <= i < |ids| && ids[i] == id && flags[i] {
        assert i < n ==> ids[..n][i] == id && flags[..n][i];
      }
    }
  }

  ghost predicate OldestFirst(rows: map<Id, Row>, ids: seq<Id>) {
    && (forall id | id in ids :: id in rows)
    && forall a, b | 0 <= a < b < |ids| :: rows[ids[a]].createdAt <= rows[ids[b]].createdAt
  }

  lemma {:induction false} QueueIsOldestFirst(rows: map<Id, Row>, order: seq<Id>)
    requires OldestFirst(rows, order)
    ensures OldestFirst(rows, Queue(rows, order)) && forall id | id in Queue(rows, order) :: id in order
  {
    if order != [] {
      var init, last := order[..|order| - 1], order[|order| - 1];
      assert order == init + [last];
      assert forall id | id in init :: rows[id].createdAt <= rows[last].createdAt;
      QueueIsOldestFirst(rows, init);
    }
  }

  lemma {:induction false} PickedIsOldestFirst(rows: map<Id, Row>, ids: seq<Id>, flags: seq<bool>)
    requires |ids| == |flags| && OldestFirst(rows, ids)
    ensures OldestFirst(rows, Picked(ids, flags)) && forall id | id in Picked(ids, flags) :: id in ids
  {
    if ids != [] {
      var init, last := ids[..|ids| - 1], ids[|ids| - 1];
      assert ids == init + [last];
      assert forall id | id in init :: rows[id].createdAt <= rows[last].createdAt;
      PickedIsOldestFirst(rows, init, flags[..|ids| - 1]);
    }
  }

  lemma PickedAppend(was: seq<Id>, before: seq<Id>, after: seq<Id>, ids: seq<Id>, flags: seq<bool>, id: Id, flag: bool)
    requires |ids| == |flags| && before == was + Picked(ids, flags) && after == before + if flag then [id] else []
    ensures after == was + Picked(ids + [id], flags + [flag])
  {
    assert (ids + [id])[..|ids|] == ids && (flags + [flag])[..|flags|] == flags;
    assert was + Picked(ids, flags) + (if flag then [id] else [])
        == was + (Picked(ids, flags) + if flag then [id] else []);
  }

  lemma TallyAppend(flags: seq<bool>, flag: bool)
    ensures Tally(flags + [flag]) == Tally(flags) + if flag then 1 else 0
  {
    assert (flags + [flag])[..|flags|] == flags;
  }

  // ---------------------------------------------------------------- the service

  predicate Publishes(row: Row, key: Option<Key>, w: Weather) {
    row.outbox.Posted? && Reaches(key, w)
  }

  ghost predicate Reconciled(row: Row, before: Option<Key>, after: Option<Key>, w: Weather, counted: bool, sent: bool) {
    && counted == (row.outbox.Posted? && AttemptOutcomeOf(before, w) == Dispatched)
    && sent == Publishes(row, before, w)
    && after == if row.outbox.Posted? then KeyAfterAttempt(before, w) else before
  }

  ghost predicate Finalized(before: Row, after: Row, lock: Option<Lock>, lock': Option<Lock>, cutoff: int,
                            w: FinWeather, counted: bool, moved: bool) {
    && counted == Counts(before, lock, cutoff, w) && moved == Moves(before, lock, cutoff, w)
    && after == RowAfter(before, lock, cutoff, w)
    && lock' == LockAfter(lock, w)
  }

  // What one pass does to a row's key, and whether it publishes the row.
  function KeyAfterPass(row: Row, key: Option<Key>, w: Weather): Option<Key> {
    if Queueable(row) && row.outbox.Posted? then KeyAfterAttempt(key, w) else key
  }

  predicate SentByPass(row: Row, key: Option<Key>, w: Weather) {
    Queueable(row) && Publishes(row, key, w)
  }

  ghost predicate PassedOver(rows: map<Id, Row>, was: map<Id, Key>, now: map<Id, Key>, sent: seq<Id>,
                             weather: Id -> Weather)
  {
    && (forall id | id in rows ::
          && Lookup(now, id) == KeyAfterPass(rows[id], Lookup(was, id), weather(id))
          && (id in sent <==> SentByPass(rows[id], Lookup(was, id), weather(id))))
    && (forall id | id !in rows :: Lookup(now, id) == Lookup(was, id) && id !in sent)
    && OldestFirst(rows, sent)
  }

  // A turn of the message protocol that stands where this row and its key stand.
  predicate Mirrors(t: Turn, row: Row, key: Option<Key>, w: Weather) {
    && t.status == row.status && t.recorded == row.outbox.Posted? && t.key == key
    && t.now == w.at && w.token !in t.dispatchers
  }

  predicate Calm(w: Weather) {
    w.claim == Answered && w.publish == Answered && w.meanwhile == Untouched && w.lag == 0 && w.extend == Answered
  }

  // Over a whole table, a pass is the pass of the message protocol for each assistant row: the key
  // ends the same way, and the row is published by the one exactly if by the other.
  lemma PassIsAttempt(rows: map<Id, Row>, was: map<Id, Key>, now: map<Id, Key>, sent: seq<Id>, weather: Id -> Weather,
                      id: Id, t: Turn)
    requires PassedOver(rows, was, now, sent, weather) && id in rows && rows[id].role.Assistant?
    requires Mirrors(t, rows[id], Lookup(was, id), weather(id)) && Calm(weather(id))
    ensures var done := Attempt(t, weather(id).token);
            && done.key == Lookup(now, id) && t.log <= done.log
            && (id in sent <==> Publish(t.now, weather(id).token) in done.log[|t.log|..])
  {
    var p := weather(id).token;
    var claimed := Step(t, TryClaim(p));
    if t.status == Queued && t.recorded {
      if Live(t.key, t.now) {
        assert Attempt(t, p).log == t.log;
      } else {
        assert claimed.log == t.log + [Claim(t.now, p)];
        var done := Attempt(t, p);
        assert done.log == t.log + [Claim(t.now, p), Publish(t.now, p), Extend(t.now, p)];
        assert done.log[|t.log|..][1] == Publish(t.now, p);
      }
    }
  }

  // In terms of the row: a queued assistant row with a job record and no live claim is published when
  // store and broker answer, and a row in any other status, or without a record, is left alone.
  lemma PassFindsLostJobs(rows: map<Id, Row>, was: map<Id, Key>, now: map<Id, Key>, sent: seq<Id>,
                          weather: Id -> Weather, id: Id)
    requires PassedOver(rows, was, now, sent, weather)
    ensures (&& id in rows && rows[id].role == Assistant && rows[id].status == Queued && rows[id].outbox.Posted?
             && (id in was ==> was[id].expiry <= weather(id).at)
             && weather(id).claim == Answered && weather(id).publish == Answered) ==> id in sent
    ensures !(id in rows && rows[id].role == Assistant && rows[id].status == Queued && rows[id].outbox.Posted?) ==>
              id !in sent && Lookup(now, id) == Lookup(was, id)
    ensures id in was && was[id].expiry > weather(id).at ==> id !in sent && Lookup(now, id) == Some(was[id])
  {
  }

  // Each row of the scan was reconciled by itself, and no other key changed.
  ghost predicate QueueVisited(rows: map<Id, Row>, was: map<Id, Key>, now: map<Id, Key>, scan: seq<Id>,
                               weather: Id -> Weather, flags: seq<bool>, sent: seq<bool>)
  {
    && |flags| == |sent| == |scan|
    && (forall k | 0 <= k < |scan| ::
          && scan[k] in rows
          && Reconciled(rows[scan[k]], Lookup(was, scan[k]), Lookup(now, scan[k]), weather(scan[k]), flags[k], sent[k]))
    && (forall id | id !in scan :: Lookup(now, id) == Lookup(was, id))
  }

  lemma QueueOneMore(rows: map<Id, Row>, was: map<Id, Key>, before: map<Id, Key>, after: map<Id, Key>, scan: seq<Id>,
                     id: Id, weather: Id -> Weather, flags: seq<bool>, sent: seq<bool>, flag: bool, did: bool)
    requires QueueVisited(rows, was, before, scan, weather, flags, sent) && id in rows && id !in scan
    requires Reconciled(rows[id], Lookup(before, id), Lookup(after, id), weather(id), flag, did)
    requires forall other | other != id :: Lookup(after, other) == Lookup(before, other)
    ensures QueueVisited(rows, was, after, scan + [id], weather, flags + [flag], sent + [did])
  {
    assert Lookup(before, id) == Lookup(was, id);
    forall k | 0 <= k < |scan|
      ensures Lookup(after, scan[k]) == Lookup(before, scan[k])
    {
      assert scan[k] in scan;
    }
    assert forall other | other !in scan + [id] :: other !in scan && other != id;
  }

  // Each row of the scan was finalized by itself, and no other row or lock changed.
  ghost predicate StaleVisited(was: map<Id, Row>, now: map<Id, Row>, lockWas: map<Id, Lock>, locks: map<Id, Lock>,
                               scan: seq<Id>, cutoff: int, weather: Id -> FinWeather, flags: seq<bool>,
                               moved: seq<bool>)
  {
    && |flags| == |moved| == |scan| && now.Keys == was.Keys
    && (forall k | 0 <= k < |scan| ::
          && scan[k] in was
          && Finalized(was[scan[k]], now[scan[k]], Lookup(lockWas, scan[k]), Lookup(locks, scan[k]), cutoff,
                       weather(scan[k]), flags[k], moved[k]))
    && (forall id | id in was && id !in scan :: now[id] == was[id])
    && (forall id | id !in scan :: Lookup(locks, id) == Lookup(lockWas, id))
  }

  lemma StaleOneMore(was: map<Id, Row>, before: map<Id, Row>, after: map<Id, Row>, lockWas: map<Id, Lock>,
                     lockBefore: map<Id, Lock>, locks: map<Id, Lock>, scan: seq<Id>, id: Id, cutoff: int,
                     weather: Id -> FinWeather, flags: seq<bool>, moved: seq<bool>, flag: bool, did: bool)
    requires StaleVisited(was, before, lockWas, lockBefore, scan, cutoff, weather, flags, moved) && id in was
        && id !in scan
    requires after.Keys == before.Keys
    requires Finalized(before[id], after[id], Lookup(lockBefore, id), Lookup(locks, id), cutoff, weather(id), flag, did)
    requires forall other | other in after && other != id :: after[other] == before[other]
    requires forall other | other != id :: Lookup(locks, other) == Lookup(lockBefore, other)
    ensures StaleVisited(was, after, lockWas, locks, scan + [id], cutoff, weather, flags + [flag], moved + [did])
  {
    assert Lookup(lockBefore, id) == Lookup(lockWas, id) && before[id] == was[id];
    forall k | 0 <= k < |scan|
      ensures after[scan[k]] == before[scan[k]] && Lookup(locks, scan[k]) == Lookup(lockBefore, scan[k])
    {
      assert scan[k] in scan && scan[k] in after;
    }
    assert forall other | other !in scan + [id] :: other !in scan && other != id;
  }

  class Dispatcher {
    var rows: map<Id, Row>
    var keys: map<Id, Key>
    var locks: map<Id, Lock>
    var published: seq<Id>

    constructor (rows: map<Id, Row>)
      ensures this.rows == rows && keys == map[] && locks == map[] && published == []
    {
      this.rows, keys, locks, published := rows, map[], map[], [];
    }

    method DispatchAgentJob(id: Id, w: Weather) returns (outcome: Outcome)
      modifies this`keys, this`published
      ensures outcome == AttemptOutcomeOf(Lookup(old(keys), id), w)
      ensures keys == Store(old(keys), id, KeyAfterAttempt(Lookup(old(keys), id), w))
      ensures published == old(published) + if Reaches(Lookup(old(keys), id), w) then [id] else []
    {
      assert Store(keys, id, Lookup(keys, id)) == keys;
      if w.claim == NoEffect {
        return Raised;
      }
      var free := id !in keys || w.at >= keys[id].expiry;
      if free {
        keys := keys[id := Key(w.token, w.at + CLAIM_SECONDS)];
      }
      if w.claim == Unanswered {
        return Raised;
      }
      if !free {
        return AlreadyClaimed;
      }
      if w.publish != NoEffect {
        published := published + [id];
      }
      if w.publish != Answered {
        return Raised;
      }
      if w.meanwhile.NowHolds? {
        keys := Store(keys, id, w.meanwhile.key);
      }
      if w.extend != NoEffect && id in keys && w.at + w.lag < keys[id].expiry && keys[id].token == w.token {
        keys := keys[id := Key(w.token, w.at + w.lag + ACTIVE_JOB_TTL)];
      }
      outcome := if w.extend == Answered then Dispatched else Raised;
    }

    // One turn of the reconcile loop: a bad job record is skipped, an exception is swallowed.
    method ReconcileRow(id: Id, w: Weather) returns (counted: bool, ghost sent: bool)
      requires id in rows
      modifies this`keys, this`published
      ensures Reconciled(rows[id], Lookup(old(keys), id), Lookup(keys, id), w, counted, sent)
      ensures forall other | other != id :: Lookup(keys, other) == Lookup(old(keys), other)
      ensures published == old(published) + if sent then [id] else []
    {
      counted, sent := false, Publishes(rows[id], Lookup(keys, id), w);
      if rows[id].outbox.Posted? {
        var outcome := DispatchAgentJob(id, w);
        counted := outcome == Dispatched;
      }
    }

    // The loop over the queued rows: what becomes of a row's key and whether it is published
    // depends on its own key and weather only.
    method VisitQueued(scan: seq<Id>, weather: Id -> Weather)
      returns (dispatched: nat, flags: seq<bool>, ghost sent: seq<bool>)
      requires Distinct(scan) && (forall k | 0 <= k < |scan| :: scan[k] in rows)
      modifies this`keys, this`published
      ensures QueueVisited(rows, old(keys), keys, scan, weather, flags, sent) && dispatched == Tally(flags)
      ensures published == old(published) + Picked(scan, sent)
    {
      dispatched, flags, sent := 0, [], [];
      var i := 0;
      while i < |scan|
        invariant 0 <= i <= |scan| && QueueVisited(rows, old(keys), keys, scan[..i], weather, flags, sent)
        invariant dispatched == Tally(flags) && published == old(published) + Picked(scan[..i], sent)
      {
        ghost var did, before, said := false, keys, published;
        var flag;
        flag, did := ReconcileRow(scan[i], weather(scan[i]));
        assert scan[..i + 1] == scan[..i] + [scan[i]] && scan[i] !in scan[..i];
        QueueOneMore(rows, old(keys), before, keys, scan[..i], scan[i], weather, flags, sent, flag, did);
        PickedAppend(old(published), said, published, scan[..i], sent, scan[i], did);
        TallyAppend(flags, flag);
        flags, sent := flags + [flag], sent + [did];
        dispatched := dispatched + if flag then 1 else 0;
        i := i + 1;
      }
      assert scan[..i] == scan;
    }

    // The part of the pass over the queue: no failure or live claim of another row keeps a queued
    // row with a job record from being tried, and the pass never counts more than was published,
    // as many exactly if no answer of a publish or of the script after it was lost.
    method ReconcileQueue(order: seq<Id>, weather: Id -> Weather) returns (dispatched: nat)
      requires IsOrder(rows, order)
      modifies this`keys, this`published
      ensures forall id | id in rows && Queueable(rows[id]) ::
                exists counted, sent ::
                  Reconciled(rows[id], Lookup(old(keys), id), Lookup(keys, id), weather(id), counted, sent)
                  && (sent ==> id in published)
      ensures forall id | !(id in rows && Queueable(rows[id])) :: Lookup(keys, id) == Lookup(old(keys), id)
      ensures old(published) <= published && dispatched <= |published| - |old(published)|
      ensures dispatched == |published| - |old(published)| <==>
                forall id | id in rows && Queueable(rows[id])
                    && Publishes(rows[id], Lookup(old(keys), id), weather(id)) ::
                  AttemptOutcomeOf(Lookup(old(keys), id), weather(id)) == Dispatched
      ensures PassedOver(rows, old(keys), keys, published[|old(published)|..], weather)
    {
      var scan := Queue(rows, order);
      QueueIsComplete(rows, order);
      var flags;
      ghost var sent;
      ghost var was := keys;
      dispatched, flags, sent := VisitQueued(scan, weather);
      PickedCounts(scan, sent);
      TallyBelow(flags, sent);
      forall id | id in rows && Queueable(rows[id])
        ensures exists counted, sent ::
                  Reconciled(rows[id], Lookup(was, id), Lookup(keys, id), weather(id), counted, sent)
                  && (sent ==> id in published)
      {
        assert id in scan;
        var i :| 0 <= i < |scan| && scan[i] == id;
        assert Reconciled(rows[id], Lookup(was, id), Lookup(keys, id), weather(id), flags[i], sent[i]);
        if sent[i] { PickedContains(scan, sent, i); }
      }
      EachCounted(rows, was, scan, weather, flags, sent);
      QueueIsOldestFirst(rows, order);
      VisitedIsPassedOver(rows, was, keys, scan, weather, flags, sent);
      assert published[|old(published)|..] == Picked(scan, sent);
    }

    // One turn of the finalizer loop.
    method FinalizeRow(id: Id, cutoff: int, w: FinWeather) returns (counted: bool, ghost moved: bool)
      requires id in rows
      modifies this`rows, this`locks
      ensures rows.Keys == old(rows.Keys)
      ensures Finalized(old(rows)[id], rows[id], Lookup(old(locks), id), Lookup(locks, id), cutoff, w, counted, moved)
      ensures forall other | other in rows && other != id :: rows[other] == old(rows)[other]
      ensures forall other | other != id :: Lookup(locks, other) == Lookup(old(locks), other)
    {
      moved := Moves(rows[id], Lookup(locks, id), cutoff, w);
      counted := false;
      // a worker may write before the UPDATE runs, whether or not the lock is obtained
      rows := rows[id := RowSeen(rows[id], w)];
      if w.acquire == NoEffect || LockOf(Lookup(locks, id), w.at) {
        return;
      }
      locks := locks[id := Lock(Finalizer(w.f), w.at + LOCK_SECONDS)];
      if w.acquire == Unanswered {
        return;
      }
      if w.update != NoEffect && Active(rows[id]) && rows[id].createdAt < cutoff {
        rows := rows[id := FailRow(rows[id])];
        counted := w.update == Answered;
      }
      if w.delay >= LOCK_SECONDS {
        locks := Store(locks, id, w.successor);
      } else if !w.releaseFails {
        locks := locks - {id};
      }
    }

    // The loop over the stale rows: each depends on itself, its lock and its weather only.
    method VisitStale(cutoff: int, scan: seq<Id>, weather: Id -> FinWeather)
      returns (finalized: nat, flags: seq<bool>, ghost moved: seq<bool>)
      requires Distinct(scan) && (forall k | 0 <= k < |scan| :: scan[k] in rows)
      modifies this`rows, this`locks
      ensures StaleVisited(old(rows), rows, old(locks), locks, scan, cutoff, weather, flags, moved)
      ensures finalized == Tally(flags)
    {
      finalized, flags, moved := 0, [], [];
      var i := 0;
      while i < |scan|
        invariant 0 <= i <= |scan| && finalized == Tally(flags)
        invariant StaleVisited(old(rows), rows, old(locks), locks, scan[..i], cutoff, weather, flags, moved)
      {
        ghost var did, before, lockBefore := false, rows, locks;
        var flag;
        flag, did := FinalizeRow(scan[i], cutoff, weather(scan[i]));
        assert scan[..i + 1] == scan[..i] + [scan[i]] && scan[i] !in scan[..i];
        StaleOneMore(old(rows), before, rows, old(locks), lockBefore, locks, scan[..i], scan[i], cutoff, weather,
                     flags, moved, flag, did);
        TallyAppend(flags, flag);
        flags, moved := flags + [flag], moved + [did];
        finalized := finalized + if flag then 1 else 0;
        i := i + 1;
      }
      assert scan[..i] == scan;
    }

    // One finalizer pass over the oldest 100 stale rows: only rows of the scan move, each to exactly
    // a failed row, only while active and older than the cutoff. It never counts more than it moved,
    // and as many exactly if no commit's answer was lost.
    method FinalizeStale(now: int, scan: seq<Id>, weather: Id -> FinWeather)
      returns (finalized: nat, ghost moved: seq<bool>)
      requires IsStaleScan(rows, now - 7200, 100, scan)
      modifies this`rows, this`locks
      ensures rows.Keys == old(rows.Keys)
      ensures forall id | id in rows :: rows[id].createdAt == old(rows)[id].createdAt
      ensures forall id | id in rows && id !in scan :: rows[id] == old(rows)[id]
      ensures |moved| == |scan| && forall i | 0 <= i < |scan| ::
                && moved[i] == Moves(old(rows)[scan[i]], Lookup(old(locks), scan[i]), now - 7200,
                    weather(scan[i]))
                && rows[scan[i]] == RowAfter(old(rows)[scan[i]], Lookup(old(locks), scan[i]), now - 7200,
                    weather(scan[i]))
                && Lookup(locks, scan[i]) == LockAfter(Lookup(old(locks), scan[i]), weather(scan[i]))
      ensures finalized <= Tally(moved)
      ensures finalized == Tally(moved) <==>
                forall i | 0 <= i < |scan| && moved[i] :: weather(scan[i]).update == Answered
    {
      var flags;
      ghost var was := rows;
      finalized, flags, moved := VisitStale(now - ACTIVE_JOB_TTL, scan, weather);
      TallyBelow(flags, moved);
      forall id | id in rows
        ensures rows[id].createdAt == was[id].createdAt
      {
        if id in scan {
          var i :| 0 <= i < |scan| && scan[i] == id;
        }
      }
    }

    // One whole pass: the finalizer first, then the queue as it is then. A query that fails ends the
    // pass there, with what was done before it.
    method ReconcileOnce(now: int, staleFails: bool, stale: seq<Id>, staleWeather: Id -> FinWeather,
                         queueFails: bool, order: seq<Id>, weather: Id -> Weather) returns (dispatched: Option<nat>)
      requires IsStaleScan(rows, now - 7200, 100, stale) && IsOrder(rows, order)
      modifies this
      ensures dispatched.None? <==> staleFails || queueFails
      ensures dispatched.None? ==> keys == old(keys) && published == old(published)
      ensures staleFails ==> rows == old(rows) && locks == old(locks)
      ensures rows.Keys == old(rows.Keys) && forall id | id in rows && id !in stale :: rows[id] == old(rows)[id]
      ensures dispatched.Some? ==>
                forall id | id in rows && Queueable(rows[id]) ::
                  exists counted, sent ::
                    Reconciled(rows[id], Lookup(old(keys), id), Lookup(keys, id), weather(id), counted, sent)
                    && (sent ==> id in published)
      ensures dispatched.Some? ==>
                && old(published) <= published && dispatched.value <= |published| - |old(published)|
                && (dispatched.value == |published| - |old(published)| <==>
                      forall id | id in rows && Queueable(rows[id])
                                  && Publishes(rows[id], Lookup(old(keys), id), weather(id)) ::
                        AttemptOutcomeOf(Lookup(old(keys), id), weather(id)) == Dispatched)
      ensures dispatched.Some? ==> PassedOver(rows, old(keys), keys, published[|old(published)|..], weather)
    {
      if staleFails {
        return None;
      }
      var _, _ := FinalizeStale(now, stale, staleWeather);
      if queueFails {
        return None;
      }
      var count := ReconcileQueue(order, weather);
      dispatched := Some(count);
    }
  }

  lemma VisitedIsPassedOver(rows: map<Id, Row>, was: map<Id, Key>, now: map<Id, Key>, scan: seq<Id>,
                            weather: Id -> Weather, flags: seq<bool>, sent: seq<bool>)
    requires QueueVisited(rows, was, now, scan, weather, flags, sent) && Distinct(scan) && OldestFirst(rows, scan)
    requires forall i :: i in scan <==> i in rows && Queueable(rows[i])
    ensures PassedOver(rows, was, now, Picked(scan, sent), weather)
  {
    PickedIsOldestFirst(rows, scan, sent);
    forall id | id in rows
      ensures Lookup(now, id) == KeyAfterPass(rows[id], Lookup(was, id), weather(id))
      ensures id in Picked(scan, sent) <==> SentByPass(rows[id], Lookup(was, id), weather(id))
    {
      PickedIff(scan, sent, id);
      if id in scan {
        var k :| 0 <= k < |scan| && scan[k] == id;
        assert Reconciled(rows[id], Lookup(was, id), Lookup(now, id), weather(id), flags[k], sent[k]);
      }
    }
  }

  lemma EachCounted(rows: map<Id, Row>, was: map<Id, Key>, scan: seq<Id>, weather: Id -> Weather, flags: seq<bool>,
                    sent: seq<bool>)
    requires |flags| == |sent| == |scan|
    requires forall i :: i in scan <==> i in rows && Queueable(rows[i])
    requires forall i | 0 <= i < |scan| ::
               && flags[i] == (rows[scan[i]].outbox.Posted?
                   && AttemptOutcomeOf(Lookup(was, scan[i]), weather(scan[i])) == Dispatched)
               && sent[i] == Publishes(rows[scan[i]], Lookup(was, scan[i]), weather(scan[i]))
    ensures (forall i | 0 <= i < |scan| :: sent[i] ==> flags[i])
            <==> forall id | id in rows && Queueable(rows[id]) && Publishes(rows[id], Lookup(was, id), weather(id)) ::
                   AttemptOutcomeOf(Lookup(was, id), weather(id)) == Dispatched
  {
    if forall i | 0 <= i < |scan| :: sent[i] ==> flags[i] {
      forall id | id in rows && Queueable(rows[id]) && Publishes(rows[id], Lookup(was, id), weather(id))
        ensures AttemptOutcomeOf(Lookup(was, id), weather(id)) == Dispatched
      {
        assert id in scan;
        var i :| 0 <= i < |scan| && scan[i] == id;
        assert sent[i];
      }
    }
  }
}
