/**
  One assistant message between its dispatchers, its workers and the stale finalizers: the
  dispatch claim and the message lock are keys with an expiry, the row status is changed only by
  guarded UPDATEs, and every process can stop between any two of its steps.
*/
module AgentTurn {
  import opened Messages
  import opened Wrappers

  type Pid = nat

  const CLAIM_SECONDS: int := 60
  const LOCK_SECONDS: int := 90

  datatype Key = Key(token: Pid, expiry: int)

  datatype Owner = Worker(w: Pid) | Finalizer(f: Pid)
  datatype Lock = Lock(owner: Owner, expiry: int)

  // What becomes of one command sent to a store or broker: it may be lost, or take effect without
  // its answer arriving.
  datatype Command = Answered | NoEffect | Unanswered

  datatype Dispatch = Refused | Claimed | Sent | Settled | Lost
  datatype Job = Locked | Running | Stopped
  datatype Fin = Chosen(cutoff: int) | Holding(cutoff: int, since: int) | Done(cutoff: int, moved: bool)

  // What happened to the claim key, in order.
  datatype Note =
    | Claim(at: int, token: Pid)
    | Publish(at: int, token: Pid)
    | Extend(at: int, token: Pid)
    | Drop(at: int)

  datatype Turn = Turn(
    now: int,
    created: int,
    recorded: bool,
    status: Status,
    key: Option<Key>,
    lock: Option<Lock>,
    dispatchers: map<Pid, Dispatch>,
    workers: map<Pid, Job>,
    finalizers: map<Pid, Fin>,
    log: seq<Note>)

  datatype Op =
    | Tick(seconds: nat)
    | TryClaim(p: Pid)
    | Send(p: Pid, publish: Command)
    | TryExtend(p: Pid)
    | Crash(p: Pid)
    | TakeLock(w: Pid)
    | DropClaim(w: Pid)
    | Refresh(w: Pid)
    | Write(w: Pid, status: Status)
    | Leave(w: Pid)
    | Select(f: Pid)
    | Seize(f: Pid)
    | Fail(f: Pid)
    | Release(f: Pid)

  predicate Live(key: Option<Key>, now: int) {
    key.Some? && now < key.value.expiry
  }

  predicate LockLive(t: Turn) {
    t.lock.Some? && t.now < t.lock.value.expiry
  }

  predicate HeldBy(t: Turn, o: Owner) {
    LockLive(t) && t.lock.value.owner == o
  }

  // SET NX EX: the whole decision of a dispatcher is whether the key is live.
  function StepClaim(t: Turn, p: Pid): Turn {
    if p in t.dispatchers then t
    else if Live(t.key, t.now) then t.(dispatchers := t.dispatchers[p := Refused])
    else t.(key := Some(Key(p, t.now + CLAIM_SECONDS)), dispatchers := t.dispatchers[p := Claimed],
            log := t.log + [Claim(t.now, p)])
  }

  // The script that extends a key only if it still holds the caller's token.
  function StepExtend(t: Turn, p: Pid): Turn {
    if p !in t.dispatchers || t.dispatchers[p] != Sent then t
    else if Live(t.key, t.now) && t.key.value.token == p then
      t.(key := Some(Key(p, t.now + ACTIVE_JOB_TTL)), dispatchers := t.dispatchers[p := Settled],
         log := t.log + [Extend(t.now, p)])
    else t.(dispatchers := t.dispatchers[p := Settled])
  }

  function Unlock(t: Turn, o: Owner): Option<Lock> {
    if HeldBy(t, o) then None else t.lock
  }

  function Step(t: Turn, op: Op): Turn {
    match op
    case Tick(d) => t.(now := t.now + d)
    case TryClaim(p) => StepClaim(t, p)
    case Send(p, publish) =>
      if p !in t.dispatchers || t.dispatchers[p] != Claimed then t
      else if publish.NoEffect? then t.(dispatchers := t.dispatchers[p := Lost])
      else if publish.Unanswered? then t.(dispatchers := t.dispatchers[p := Lost], log := t.log + [Publish(t.now, p)])
      else t.(dispatchers := t.dispatchers[p := Sent], log := t.log + [Publish(t.now, p)])
    case TryExtend(p) => StepExtend(t, p)
    case Crash(p) => if p !in t.dispatchers then t else t.(dispatchers := t.dispatchers[p := Lost])
    case TakeLock(w) =>
      if w in t.workers || LockLive(t) then t
      else t.(lock := Some(Lock(Worker(w), t.now + LOCK_SECONDS)), workers := t.workers[w := Locked])
    case DropClaim(w) =>
      if w !in t.workers || t.workers[w] != Locked then t
      else t.(key := None, workers := t.workers[w := Running], log := t.log + [Drop(t.now)])
    case Refresh(w) =>
      if HeldBy(t, Worker(w)) then t.(lock := Some(Lock(Worker(w), t.now + LOCK_SECONDS))) else t
    case Write(w, status) =>
      if w !in t.workers || t.workers[w] != Running || !ActiveStatus(t.status) || status == Queued then t
      else t.(status := status)
    case Leave(w) =>
      if w !in t.workers then t
      else t.(workers := t.workers[w := Stopped], lock := Unlock(t, Worker(w)))
    case Select(f) =>
      if f in t.finalizers || !ActiveStatus(t.status) || t.created >= t.now - ACTIVE_JOB_TTL then t
      else t.(finalizers := t.finalizers[f := Chosen(t.now - ACTIVE_JOB_TTL)])
    case Seize(f) =>
      if f !in t.finalizers || !t.finalizers[f].Chosen? || LockLive(t) then t
      else t.(lock := Some(Lock(Finalizer(f), t.now + LOCK_SECONDS)),
              finalizers := t.finalizers[f := Holding(t.finalizers[f].cutoff, t.now)])
    case Fail(f) =>
      if f !in t.finalizers || !t.finalizers[f].Holding? then t
      else
        var moved := ActiveStatus(t.status) && t.created < t.finalizers[f].cutoff;
        t.(status := if moved then Failed else t.status,
           finalizers := t.finalizers[f := Done(t.finalizers[f].cutoff, moved)])
    case Release(f) =>
      if f !in t.finalizers || t.finalizers[f].Chosen? then t
      else
        var moved := t.finalizers[f].Done? && t.finalizers[f].moved;
        t.(lock := Unlock(t, Finalizer(f)), finalizers := t.finalizers[f := Done(t.finalizers[f].cutoff, moved)])
  }

  function Play(t: Turn, ops: seq<Op>): Turn
    decreases |ops|
  {
    if ops == [] then t else Play(Step(t, ops[0]), ops[1..])
  }

  // The row as committed by the endpoint, before anything was dispatched; `recorded` says that it
  // carries the job record which the reconciler looks for.
  function Fresh(created: int, recorded: bool): Turn {
    Turn(created, created, recorded, Queued, None, None, map[], map[], map[], [])
  }

  // ---------------------------------------------------------------- claims

  // What a note leaves of the key.
  function KeyNext(key: Option<Key>, n: Note): Option<Key> {
    match n
    case Claim(at, token) => Some(Key(token, at + 60))
    case Extend(at, token) => Some(Key(token, at + 7200))
    case Drop(_) => None
    case Publish(_, _) => key
  }

  function KeyAfter(log: seq<Note>): Option<Key> {
    if log == [] then None else KeyNext(KeyAfter(log[..|log| - 1]), log[|log| - 1])
  }

  predicate Allowed(key: Option<Key>, n: Note) {
    && (n.Claim? ==> !Live(key, n.at))
    && (n.Extend? ==> Live(key, n.at) && key.value.token == n.token)
  }

  // Each note was allowed by the notes before it.
  ghost predicate Lawful(log: seq<Note>) {
    && (forall i, j | 0 <= i < j < |log| :: log[i].at <= log[j].at)
    && forall i | 0 <= i < |log| :: Allowed(KeyAfter(log[..i]), log[i])
  }

  ghost predicate Dated(log: seq<Note>, from: int, until: int) {
    forall i | 0 <= i < |log| :: from <= log[i].at <= until
  }

  ghost predicate ClaimsOk(t: Turn) {
    && t.key == KeyAfter(t.log) && Lawful(t.log)
    && t.created <= t.now && Dated(t.log, t.created, t.now)
  }

  lemma LawfulAppend(log: seq<Note>, n: Note)
    requires Lawful(log) && Allowed(KeyAfter(log), n)
    requires forall i | 0 <= i < |log| :: log[i].at <= n.at
    ensures Lawful(log + [n]) && KeyAfter(log + [n]) == KeyNext(KeyAfter(log), n)
  {
    var longer := log + [n];
    assert longer[..|log|] == log;
    forall i | 0 <= i < |longer|
      ensures Allowed(KeyAfter(longer[..i]), longer[i])
    {
      if i < |log| {
        assert longer[..i] == log[..i];
      }
    }
  }

  // Every step leaves the key and its log alone, or adds the one note that explains the key.
  lemma StepIsNoted(t: Turn, op: Op)
    ensures var t' := Step(t, op);
            && t'.created == t.created && t'.now >= t.now
            && ((t'.log == t.log && t'.key == t.key)
                || exists n :: t'.log == t.log + [n] && n.at == t.now && Allowed(t.key, n)
                             && t'.key == KeyNext(t.key, n))
  {
    if op.TryClaim? || op.Send? || op.TryExtend? || op.DropClaim? {
      KeyStepIsNoted(t, op);
    } else {
      OthersAreSilent(t, op);
    }
  }

  lemma KeyStepIsNoted(t: Turn, op: Op)
    requires op.TryClaim? || op.Send? || op.TryExtend? || op.DropClaim?
    ensures var t' := Step(t, op);
            && t'.created == t.created && t'.now == t.now
            && ((t'.log == t.log && t'.key == t.key)
                || exists n :: t'.log == t.log + [n] && n.at == t.now && Allowed(t.key, n)
                             && t'.key == KeyNext(t.key, n))
  {
    var t' := Step(t, op);
    if t'.log != t.log {
      assert t'.log == t.log + [t'.log[|t.log|]];
    }
  }

  lemma OthersAreSilent(t: Turn, op: Op)
    requires !op.TryClaim? && !op.Send? && !op.TryExtend? && !op.DropClaim?
    ensures var t' := Step(t, op);
            t'.created == t.created && t'.now >= t.now && t'.log == t.log && t'.key == t.key
  {
  }

  lemma NoteKeepsClaimsOk(t: Turn, t': Turn, n: Note)
    requires ClaimsOk(t) && t'.created == t.created && t'.now >= t.now
    requires t'.log == t.log + [n] && n.at == t.now && Allowed(t.key, n) && t'.key == KeyNext(t.key, n)
    ensures ClaimsOk(t')
  {
    LawfulAppend(t.log, n);
  }

  lemma SilenceKeepsClaimsOk(t: Turn, t': Turn)
    requires ClaimsOk(t) && t'.created == t.created && t'.now >= t.now && t'.log == t.log && t'.key == t.key
    ensures ClaimsOk(t')
  {
  }

  lemma StepKeepsClaimsOk(t: Turn, op: Op)
    requires ClaimsOk(t)
    ensures ClaimsOk(Step(t, op))
  {
    StepIsNoted(t, op);
    var t' := Step(t, op);
    if t'.log == t.log && t'.key == t.key {
      SilenceKeepsClaimsOk(t, t');
    } else {
      var n :| t'.log == t.log + [n] && n.at == t.now && Allowed(t.key, n) && t'.key == KeyNext(t.key, n);
      NoteKeepsClaimsOk(t, t', n);
    }
  }

  lemma {:induction false} ClaimsOkForever(t: Turn, ops: seq<Op>)
    requires ClaimsOk(t)
    ensures ClaimsOk(Play(t, ops)) && Play(t, ops).created == t.created
    decreases |ops|
  {
    if ops != [] {
      StepIsNoted(t, ops[0]);
      StepKeepsClaimsOk(t, ops[0]);
      ClaimsOkForever(Step(t, ops[0]), ops[1..]);
    }
  }

  lemma KeyStep(log: seq<Note>, j: nat)
    requires 0 < j <= |log|
    ensures KeyAfter(log[..j]) == KeyNext(KeyAfter(log[..j - 1]), log[j - 1])
  {
    assert log[..j][..j - 1] == log[..j - 1];
  }

  // From a note that set the key, until a worker drops it, the key is kept at least as long.
  lemma {:induction false} KeyOutlivesNote(log: seq<Note>, i: nat, j: nat)
    requires Lawful(log) && i < j <= |log|
    requires log[i].Claim? || log[i].Extend?
    requires forall k | i < k < j :: !log[k].Drop?
    ensures KeyAfter(log[..j]).Some?
    ensures KeyAfter(log[..j]).value.expiry >= log[i].at + if log[i].Claim? then CLAIM_SECONDS else ACTIVE_JOB_TTL
    decreases j
  {
    KeyStep(log, j);
    if j > i + 1 {
      KeyOutlivesNote(log, i, j - 1);
      var key, n := KeyAfter(log[..j - 1]), log[j - 1];
      assert Allowed(key, n);
      assert log[i].at <= n.at;
    }
  }

  lemma SpacedByLog(log: seq<Note>, i: nat, j: nat)
    requires Lawful(log) && i < j < |log| && log[j].Claim?
    requires log[i].Claim? || log[i].Extend?
    requires forall k | i < k < j :: !log[k].Drop?
    ensures log[j].at >= log[i].at + if log[i].Claim? then CLAIM_SECONDS else ACTIVE_JOB_TTL
  {
    KeyOutlivesNote(log, i, j);
    assert Allowed(KeyAfter(log[..j]), log[j]);
  }

  // Two claims on one message with no worker's delete between them are at least 60 s apart, and
  // if the first was extended, no later claim succeeds before the message is ACTIVE_JOB_TTL old.
  lemma ClaimsAreSpaced(created: int, recorded: bool, ops: seq<Op>, i: nat, j: nat)
    requires var log := Play(Fresh(created, recorded), ops).log;
             && i < j < |log| && log[i].Claim? && log[j].Claim?
             && forall k | i < k < j :: !log[k].Drop?
    ensures var log := Play(Fresh(created, recorded), ops).log;
            && log[j].at >= log[i].at + 60
            && forall k | i < k < j && log[k].Extend? ::
                 log[j].at >= log[k].at + 7200 && log[j].at >= created + 7200
  {
    ClaimsOkForever(Fresh(created, recorded), ops);
    var log := Play(Fresh(created, recorded), ops).log;
    SpacedByLog(log, i, j);
    forall k | i < k < j && log[k].Extend?
      ensures log[j].at >= log[k].at + ACTIVE_JOB_TTL
    {
      SpacedByLog(log, k, j);
    }
  }

  // A dispatcher extends only the claim it holds: nobody claimed or dropped the key since.
  lemma ExtendIsTheHolders(created: int, recorded: bool, ops: seq<Op>, k: nat)
    requires var log := Play(Fresh(created, recorded), ops).log; k < |log| && log[k].Extend?
    ensures var log := Play(Fresh(created, recorded), ops).log;
            exists i :: 0 <= i < k && log[i].Claim? && log[i].token == log[k].token
                        && (forall m | i < m < k :: !log[m].Claim? && !log[m].Drop?)
  {
    ClaimsOkForever(Fresh(created, recorded), ops);
    var log := Play(Fresh(created, recorded), ops).log;
    assert Allowed(KeyAfter(log[..k]), log[k]);
    var i := ClaimBehindKey(log, k);
  }

  lemma {:induction false} ClaimBehindKey(log: seq<Note>, k: nat) returns (i: nat)
    requires Lawful(log) && k <= |log| && KeyAfter(log[..k]).Some?
    ensures i < k && log[i].Claim? && log[i].token == KeyAfter(log[..k]).value.token
    ensures forall m | i < m < k :: !log[m].Claim? && !log[m].Drop?
    decreases k
  {
    KeyStep(log, k);
    if log[k - 1].Claim? {
      i := k - 1;
    } else {
      assert Allowed(KeyAfter(log[..k - 1]), log[k - 1]);
      i := ClaimBehindKey(log, k - 1);
    }
  }

  lemma {:induction false} DroppedKeyStaysAway(log: seq<Note>, i: nat, j: nat)
    requires Lawful(log) && i < j <= |log| && log[i].Drop?
    requires forall k | i < k < j :: !log[k].Claim?
    ensures KeyAfter(log[..j]).None?
    decreases j
  {
    KeyStep(log, j);
    if j > i + 1 {
      DroppedKeyStaysAway(log, i, j - 1);
      assert Allowed(KeyAfter(log[..j - 1]), log[j - 1]);
    }
  }

  // While the newest claim would still be running (60 s, or ACTIVE_JOB_TTL after it was extended),
  // another dispatcher can claim the message exactly if a worker has dropped the key since.
  lemma EarlyReclaimIffDropped(created: int, recorded: bool, ops: seq<Op>, i: nat, p: Pid)
    requires var t := Play(Fresh(created, recorded), ops);
             && i < |t.log| && (t.log[i].Claim? || t.log[i].Extend?) && p !in t.dispatchers
             && (forall k | i < k < |t.log| :: !t.log[k].Claim?)
             && t.now < t.log[i].at + if t.log[i].Claim? then 60 else 7200
    ensures var t := Play(Fresh(created, recorded), ops);
            Step(t, TryClaim(p)).dispatchers[p] == Claimed <==> exists k :: i < k < |t.log| && t.log[k].Drop?
  {
    ClaimsOkForever(Fresh(created, recorded), ops);
    var log := Play(Fresh(created, recorded), ops).log;
    assert log[..|log|] == log;
    if k :| i < k < |log| && log[k].Drop? {
      DroppedKeyStaysAway(log, k, |log|);
    } else {
      KeyOutlivesNote(log, i, |log|);
    }
  }

  // The worker's delete makes the 60 s spacing fail: the row is still queued when it is published again.
  lemma WorkerReopensTheClaim()
    ensures var t := Play(Fresh(0, true),
        [TryClaim(0), Send(0, Answered), TakeLock(1), DropClaim(1), Tick(1), TryClaim(2)]);
            && t.log == [Claim(0, 0), Publish(0, 0), Drop(0), Claim(1, 2)]
            && t.status == Queued
  {
  }

  // ---------------------------------------------------------------- finalizers

  ghost predicate FinOk(t: Turn, f: Fin, id: Pid) {
    && f.cutoff <= t.now - ACTIVE_JOB_TTL
    && t.created < f.cutoff
    && (f.Holding? ==> f.since <= t.now && (t.now >= f.since + LOCK_SECONDS
                         || t.lock == Some(Lock(Finalizer(id), f.since + LOCK_SECONDS))))
  }

  ghost predicate FinalizersOk(t: Turn) {
    forall f | f in t.finalizers :: FinOk(t, t.finalizers[f], f)
  }

  lemma StepKeepsFinalizersOk(t: Turn, op: Op)
    requires FinalizersOk(t)
    ensures FinalizersOk(Step(t, op))
  {
  }

  lemma {:induction false} FinalizersOkForever(t: Turn, ops: seq<Op>)
    requires FinalizersOk(t)
    ensures FinalizersOk(Play(t, ops))
    decreases |ops|
  {
    if ops != [] {
      StepKeepsFinalizersOk(t, ops[0]);
      FinalizersOkForever(Step(t, ops[0]), ops[1..]);
    }
  }

  // A finalizer moves only an active row that was older than ACTIVE_JOB_TTL when selected, and it
  // is then the holder of the live message lock exactly if it got here within the lock's 90 s.
  lemma FinalizerActsUnderItsLockIffInTime(created: int, recorded: bool, ops: seq<Op>, f: Pid)
    requires var t := Play(Fresh(created, recorded), ops); f in t.finalizers && t.finalizers[f].Holding?
    ensures var t := Play(Fresh(created, recorded), ops);
            && t.created < t.finalizers[f].cutoff <= t.now - 7200
            && (HeldBy(t, Finalizer(f)) <==> t.now < t.finalizers[f].since + 90)
            && (t.now < t.finalizers[f].since + 90 ==> forall w :: !HeldBy(t, Worker(w)))
            && Step(t, Fail(f)).finalizers[f] == Done(t.finalizers[f].cutoff, ActiveStatus(t.status))
            && Step(t, Fail(f)).status == if ActiveStatus(t.status) then Failed else t.status
  {
    FinalizersOkForever(Fresh(created, recorded), ops);
    LockEndsForever(Fresh(created, recorded), ops);
    var t := Play(Fresh(created, recorded), ops);
    assert FinOk(t, t.finalizers[f], f);
  }

  // A finalizer's lock never lasts longer than LOCK_SECONDS after it was taken.
  ghost predicate LockEnds(t: Turn) {
    t.lock.Some? && t.lock.value.owner.Finalizer? ==>
      var f := t.lock.value.owner.f;
      && f in t.finalizers && !t.finalizers[f].Chosen?
      && (t.finalizers[f].Holding? ==> t.lock.value.expiry == t.finalizers[f].since + LOCK_SECONDS)
  }

  lemma StepKeepsLockEnds(t: Turn, op: Op)
    requires LockEnds(t)
    ensures LockEnds(Step(t, op))
  {
  }

  lemma {:induction false} LockEndsForever(t: Turn, ops: seq<Op>)
    requires LockEnds(t)
    ensures LockEnds(Play(t, ops))
    decreases |ops|
  {
    if ops != [] {
      StepKeepsLockEnds(t, ops[0]);
      LockEndsForever(Step(t, ops[0]), ops[1..]);
    }
  }

  // A finalizer that stalls past the lock's lifetime fails the row under a worker that holds it.
  lemma StalledFinalizerOverridesWorker()
    ensures var t := Play(Fresh(0, true), [Tick(7201), Select(0), Seize(0), Tick(90), TakeLock(1), Fail(0)]);
            t.status == Failed && HeldBy(t, Worker(1))
  {
  }

  // ---------------------------------------------------------------- recovery

  // One pass reaching this row while the broker is up; it looks for queued rows with a record.
  function Attempt(t: Turn, p: Pid): Turn {
    if t.status != Queued || !t.recorded then t
    else Step(Step(Step(t, TryClaim(p)), Send(p, Answered)), TryExtend(p))
  }

  datatype Pass = Pass(before: seq<Op>, p: Pid)

  function AtPass(t: Turn, pass: Pass): Turn {
    Play(t, pass.before)
  }

  function AfterPasses(t: Turn, passes: seq<Pass>): Turn
    decreases |passes|
  {
    if passes == [] then t else AfterPasses(Attempt(AtPass(t, passes[0]), passes[0].p), passes[1..])
  }

  // Passes reach the row at most `gap` apart, the first at most `gap` after `last`; between them
  // other dispatchers, workers, finalizers and crashes may do anything.
  ghost predicate Regular(t: Turn, passes: seq<Pass>, last: int, gap: int)
    decreases |passes|
  {
    passes == [] ||
      var u := AtPass(t, passes[0]);
      && u.now <= last + gap && passes[0].p !in u.dispatchers
      && Regular(Attempt(u, passes[0].p), passes[1..], u.now, gap)
  }

  // The claim at index i is the newest, nothing was published since, and its dispatcher has not
  // published either: it is about to, or was lost.
  ghost predicate Waiting(t: Turn, i: nat) {
    && i < |t.log| && t.log[i].Claim? && (forall k | i < k < |t.log| :: t.log[k].Drop?)
    && t.log[i].token in t.dispatchers && t.dispatchers[t.log[i].token] in {Claimed, Lost}
  }

  ghost predicate Published(log: seq<Note>, i: nat) {
    exists k :: i < k < |log| && log[k].Publish?
  }

  // The key a waiting claim leaves behind is its own, and gone 60 s later at the latest.
  lemma LostClaimExpires(log: seq<Note>, i: nat)
    requires i < |log| && log[i].Claim? && forall k | i < k < |log| :: log[k].Drop?
    ensures KeyAfter(log).Some? ==> KeyAfter(log).value == Key(log[i].token, log[i].at + 60)
  {
  }

  // The claim at i or a later one is waiting, or something was published since.
  ghost predicate Pending(t: Turn, i: nat) {
    Published(t.log, i) || exists k: nat :: i <= k && Waiting(t, k)
  }

  lemma ClaimKeepsPending(t: Turn, p: Pid, i: nat)
    requires Waiting(t, i)
    ensures Pending(StepClaim(t, p), i)
  {
    var t' := StepClaim(t, p);
    if t'.log == t.log { assert Waiting(t', i); } else { assert Waiting(t', |t.log|); }
  }

  lemma SendKeepsPending(t: Turn, op: Op, i: nat)
    requires Waiting(t, i) && (op.Send? || op.Crash?)
    ensures Pending(Step(t, op), i)
  {
    var t' := Step(t, op);
    if t'.log == t.log { assert Waiting(t', i); } else { assert t'.log[|t.log|].Publish?; }
  }

  lemma ExtendKeepsWaiting(t: Turn, p: Pid, i: nat)
    requires ClaimsOk(t) && Waiting(t, i)
    ensures Waiting(StepExtend(t, p), i)
  {
    LostClaimExpires(t.log, i);
  }

  // Workers, finalizers and the clock only ever delete the key.
  lemma OthersOnlyDrop(t: Turn, op: Op)
    requires !op.TryClaim? && !op.Send? && !op.TryExtend? && !op.Crash?
    ensures Step(t, op).dispatchers == t.dispatchers
    ensures Step(t, op).log == t.log || Step(t, op).log == t.log + [Drop(t.now)]
  {
  }

  lemma OthersKeepWaiting(t: Turn, t': Turn, i: nat)
    requires Waiting(t, i) && t'.dispatchers == t.dispatchers
    requires t'.log == t.log || t'.log == t.log + [Drop(t.now)]
    ensures Waiting(t', i)
  {
  }

  lemma StepKeepsPending(t: Turn, op: Op, i: nat)
    requires ClaimsOk(t) && Waiting(t, i)
    ensures Pending(Step(t, op), i)
  {
    match op {
      case TryClaim(p) => ClaimKeepsPending(t, p, i);
      case Send(_, _) => SendKeepsPending(t, op, i);
      case Crash(_) => SendKeepsPending(t, op, i);
      case TryExtend(p) => ExtendKeepsWaiting(t, p, i);
      case _ =>
        OthersOnlyDrop(t, op);
        OthersKeepWaiting(t, Step(t, op), i);
    }
  }

  lemma LogGrows(t: Turn, op: Op)
    ensures t.log <= Step(t, op).log && Step(t, op).recorded == t.recorded
  {
  }

  lemma {:induction false} PlayGrows(t: Turn, ops: seq<Op>)
    ensures t.log <= Play(t, ops).log && Play(t, ops).recorded == t.recorded
    decreases |ops|
  {
    if ops != [] {
      LogGrows(t, ops[0]);
      PlayGrows(Step(t, ops[0]), ops[1..]);
    }
  }

  lemma StaysPublished(log: seq<Note>, longer: seq<Note>, i: nat)
    requires Published(log, i) && log <= longer
    ensures Published(longer, i)
  {
    var k :| i < k < |log| && log[k].Publish?;
    assert longer[k] == log[k];
  }

  // Whatever happens meanwhile, somebody published since, or the newest claim is waiting as the old one was.
  lemma {:induction false} PlayKeepsPending(t: Turn, ops: seq<Op>, i: nat)
    requires ClaimsOk(t) && Pending(t, i)
    ensures Pending(Play(t, ops), i)
    decreases |ops|
  {
    if Published(t.log, i) {
      PlayGrows(t, ops);
      StaysPublished(t.log, Play(t, ops).log, i);
    } else if ops != [] {
      var k: nat :| i <= k && Waiting(t, k);
      StepKeepsPending(t, ops[0], k);
      StepKeepsClaimsOk(t, ops[0]);
      LaterIsPending(Step(t, ops[0]), i, k);
      PlayKeepsPending(Step(t, ops[0]), ops[1..], i);
    }
  }

  lemma LaterIsPending(t: Turn, i: nat, k: nat)
    requires i <= k && Pending(t, k)
    ensures Pending(t, i)
  {
    if Published(t.log, k) { assert Published(t.log, i); }
  }

  // A pass over a queued row with a record publishes it if no claim is live, and otherwise leaves
  // everything as it was.
  lemma AttemptOutcome(t: Turn, p: Pid)
    requires p !in t.dispatchers && t.status == Queued && t.recorded
    ensures var v := Attempt(t, p);
            && v.now == t.now && v.status == Queued
            && (Live(t.key, t.now) ==> v == t.(dispatchers := t.dispatchers[p := Refused]))
            && (!Live(t.key, t.now) ==>
                  |v.log| > |t.log| + 1 && v.log[..|t.log|] == t.log && v.log[|t.log| + 1].Publish?)
  {
    var claimed := Step(t, TryClaim(p));
    if !Live(t.key, t.now) {
      var sent := Step(claimed, Send(p, Answered));
      assert sent.log == t.log + [Claim(t.now, p), Publish(t.now, p)];
      assert Step(sent, TryExtend(p)).log == sent.log + [Extend(t.now, p)];
    }
  }

  lemma RefusedStillWaiting(u: Turn, p: Pid, i: nat)
    requires ClaimsOk(u) && Waiting(u, i) && p !in u.dispatchers
    ensures var v := u.(dispatchers := u.dispatchers[p := Refused]); ClaimsOk(v) && Waiting(v, i)
  {
    SilenceKeepsClaimsOk(u, u.(dispatchers := u.dispatchers[p := Refused]));
  }

  // A pass that leaves the row queued and unpublished was refused by a live claim.
  lemma PassOutcome(t: Turn, pass: Pass, i: nat) returns (k: nat)
    requires ClaimsOk(t) && Waiting(t, i) && t.recorded && pass.p !in AtPass(t, pass).dispatchers
    ensures var v := Attempt(AtPass(t, pass), pass.p);
            v.status == Queued && !Published(v.log, i) ==>
              && i <= k && ClaimsOk(v) && Waiting(v, k) && v.recorded
              && v.now == AtPass(t, pass).now < v.log[k].at + CLAIM_SECONDS && v.log[k].at <= v.now
  {
    var u := AtPass(t, pass);
    PlayKeepsPending(t, pass.before, i);
    ClaimsOkForever(t, pass.before);
    PlayGrows(t, pass.before);
    k := i;
    if u.status == Queued {
      AttemptOutcome(u, pass.p);
      if Published(u.log, i) {
        StaysPublished(u.log, Attempt(u, pass.p).log, i);
      } else if Live(u.key, u.now) {
        k :| i <= k && Waiting(u, k);
        LostClaimExpires(u.log, k);
        RefusedStillWaiting(u, pass.p, k);
      } else {
        assert Attempt(u, pass.p).log[|u.log| + 1].Publish?;
      }
    }
  }

  lemma AttemptGrows(t: Turn, p: Pid)
    ensures t.log <= Attempt(t, p).log && Attempt(t, p).now == t.now
  {
    LogGrows(t, TryClaim(p));
    LogGrows(Step(t, TryClaim(p)), Send(p, Answered));
    LogGrows(Step(Step(t, TryClaim(p)), Send(p, Answered)), TryExtend(p));
  }

  lemma {:induction false} PassesGrow(t: Turn, passes: seq<Pass>)
    ensures t.log <= AfterPasses(t, passes).log
    decreases |passes|
  {
    if passes != [] {
      PlayGrows(t, passes[0].before);
      AttemptGrows(AtPass(t, passes[0]), passes[0].p);
      PassesGrow(Attempt(AtPass(t, passes[0]), passes[0].p), passes[1..]);
    }
  }

  // The claims after index i that were not followed by their publish at once: their dispatchers
  // were lost, or slow.
  function HeldUp(log: seq<Note>, i: nat): set<nat> {
    set k: nat | i < k < |log| && log[k].Claim?
                 && !(k + 1 < |log| && log[k + 1] == Publish(log[k].at, log[k].token))
  }

  lemma FewerHeldUp(log: seq<Note>, i: nat, k: nat)
    requires i < k && k in HeldUp(log, i)
    ensures |HeldUp(log, k)| < |HeldUp(log, i)|
  {
    assert HeldUp(log, k) <= HeldUp(log, i) - {k};
    SubsetSize(HeldUp(log, k), HeldUp(log, i) - {k});
  }

  lemma {:induction false} SubsetSize(a: set<nat>, b: set<nat>)
    requires a <= b
    ensures |a| <= |b|
  {
    if x :| x in a {
      SubsetSize(a - {x}, b - {x});
    }
  }

  // 60 s and the longest gap for the lost claim at `at`, and again for each of n others.
  function Deadline(at: int, gap: int, n: nat): int {
    if n == 0 then at + CLAIM_SECONDS + gap else Deadline(at, gap, n - 1) + CLAIM_SECONDS + gap
  }

  lemma {:induction false} DeadlineIsLinear(at: int, gap: int, n: nat)
    ensures Deadline(at, gap, n) == at + (n + 1) * (CLAIM_SECONDS + gap)
  {
    if n > 0 { DeadlineIsLinear(at, gap, n - 1); }
  }

  ghost predicate PublishedBy(log: seq<Note>, i: nat, deadline: int) {
    exists k :: i < k < |log| && log[k].Publish? && log[k].at <= deadline
  }

  // The row was published by the deadline, or a pass at or before it found it no longer queued.
  ghost predicate RecoversBy(t: Turn, i: nat, passes: seq<Pass>, deadline: int) {
    || PublishedBy(AfterPasses(t, passes).log, i, deadline)
    || exists n :: 0 < n <= |passes| && LeftQueueBy(AfterPasses(t, passes[..n]), deadline)
  }

  predicate LeftQueueBy(t: Turn, deadline: int) {
    t.now <= deadline && t.status != Queued
  }

  lemma FirstPassThenRest(t: Turn, passes: seq<Pass>, n: nat)
    requires n < |passes|
    ensures AfterPasses(t, passes[..n + 1]) == AfterPasses(Attempt(AtPass(t, passes[0]), passes[0].p), passes[1..][..n])
    ensures n == 0 ==> AfterPasses(t, passes[..1]) == Attempt(AtPass(t, passes[0]), passes[0].p)
  {
    assert passes[..n + 1][0] == passes[0] && passes[..n + 1][1..] == passes[1..][..n];
  }

  lemma FirstPassRecovers(t: Turn, i: nat, passes: seq<Pass>, deadline: int)
    requires passes != [] && ClaimsOk(t)
    requires var v := Attempt(AtPass(t, passes[0]), passes[0].p);
             v.now <= deadline && (v.status != Queued || Published(v.log, i))
    ensures RecoversBy(t, i, passes, deadline)
  {
    var v := Attempt(AtPass(t, passes[0]), passes[0].p);
    if v.status != Queued {
      FirstPassThenRest(t, passes, 0);
      assert LeftQueueBy(AfterPasses(t, passes[..1]), deadline);
    } else {
      AttemptKeepsClaimsOk(t, passes[0]);
      PassesGrow(v, passes[1..]);
      var k :| i < k < |v.log| && v.log[k].Publish?;
      assert AfterPasses(t, passes).log[k] == v.log[k];
    }
  }

  lemma AttemptKeepsClaimsOk(t: Turn, pass: Pass)
    requires ClaimsOk(t)
    ensures ClaimsOk(Attempt(AtPass(t, pass), pass.p))
  {
    var u := AtPass(t, pass);
    ClaimsOkForever(t, pass.before);
    StepKeepsClaimsOk(u, TryClaim(pass.p));
    StepKeepsClaimsOk(Step(u, TryClaim(pass.p)), Send(pass.p, Answered));
    StepKeepsClaimsOk(Step(Step(u, TryClaim(pass.p)), Send(pass.p, Answered)), TryExtend(pass.p));
  }

  lemma RestRecovers(t: Turn, i: nat, passes: seq<Pass>, k: nat, deadline: int)
    requires passes != [] && i <= k
    requires RecoversBy(Attempt(AtPass(t, passes[0]), passes[0].p), k, passes[1..], deadline)
    ensures RecoversBy(t, i, passes, deadline)
  {
    var v := Attempt(AtPass(t, passes[0]), passes[0].p);
    if !PublishedBy(AfterPasses(v, passes[1..]).log, k, deadline) {
      var n :| 0 < n <= |passes| - 1 && LeftQueueBy(AfterPasses(v, passes[1..][..n]), deadline);
      FirstPassThenRest(t, passes, n);
      assert LeftQueueBy(AfterPasses(t, passes[..n + 1]), deadline);
    }
  }

  lemma {:induction false} DeadlineMoves(at: int, later: int, gap: int, n: nat)
    requires later <= at + CLAIM_SECONDS + gap && gap >= 0
    ensures n > 0 ==> Deadline(later, gap, n - 1) <= Deadline(at, gap, n)
    ensures Deadline(at, gap, n) >= at + CLAIM_SECONDS + gap
  {
    if n > 1 {
      DeadlineMoves(at, later, gap, n - 1);
    } else if n > 0 {
      DeadlineMoves(at, later, gap, 0);
    }
  }

  // A claim that waits, and the passes to come, from the state at time `last` on.
  ghost predicate Due(t: Turn, i: nat, passes: seq<Pass>, last: int, gap: int) {
    && ClaimsOk(t) && Waiting(t, i) && t.recorded && last < t.log[i].at + CLAIM_SECONDS && gap >= 0
    && Regular(t, passes, last, gap)
  }

  // What recovers the row after the first pass recovers it.
  ghost predicate Carries(t: Turn, i: nat, passes: seq<Pass>, deadline: int, v: Turn, k: nat)
    requires passes != []
  {
    RecoversBy(v, k, passes[1..], deadline) ==> RecoversBy(t, i, passes, deadline)
  }

  // The first pass recovers the row, or the claim it was refused by is due in the same way.
  lemma FirstPass(t: Turn, i: nat, passes: seq<Pass>, last: int, gap: int, deadline: int)
      returns (v: Turn, k: nat, over: bool)
    requires Due(t, i, passes, last, gap) && passes != []
    requires deadline >= t.log[i].at + CLAIM_SECONDS + gap
    ensures over ==> RecoversBy(t, i, passes, deadline)
    ensures !over ==> i <= k && Due(v, k, passes[1..], v.now, gap) && Carries(t, i, passes, deadline, v, k)
    ensures !over ==> v.log[k].at <= t.log[i].at + CLAIM_SECONDS + gap
    ensures v.log <= AfterPasses(t, passes).log && AfterPasses(v, passes[1..]) == AfterPasses(t, passes)
  {
    var u := AtPass(t, passes[0]);
    v := Attempt(u, passes[0].p);
    k := PassOutcome(t, passes[0], i);
    over := v.status != Queued || Published(v.log, i);
    AttemptGrows(u, passes[0].p);
    PassesGrow(v, passes[1..]);
    if over {
      FirstPassRecovers(t, i, passes, deadline);
    } else if RecoversBy(v, k, passes[1..], deadline) {
      RestRecovers(t, i, passes, k, deadline);
    }
  }

  // The passes go on long enough, and at most n claims after index i are held up.
  ghost predicate Enough(final: Turn, i: nat, gap: int, n: nat) {
    i < |final.log| && final.now >= Deadline(final.log[i].at, gap, n) - gap && |HeldUp(final.log, i)| <= n
  }

  // A later claim was published at once, or it is one of those that were held up.
  lemma LaterClaim(final: Turn, i: nat, k: nat, gap: int, n: nat)
    requires Enough(final, i, gap, n) && gap >= 0 && i < k < |final.log| && final.log[k].Claim?
    requires final.log[k].at <= final.log[i].at + CLAIM_SECONDS + gap
    ensures || PublishedBy(final.log, i, Deadline(final.log[i].at, gap, n))
            || (n > 0 && Enough(final, k, gap, n - 1)
                && Deadline(final.log[k].at, gap, n - 1) <= Deadline(final.log[i].at, gap, n))
  {
    DeadlineMoves(final.log[i].at, final.log[k].at, gap, n);
    if k in HeldUp(final.log, i) {
      FewerHeldUp(final.log, i, k);
    } else {
      assert final.log[k + 1].Publish?;
    }
  }

  // One claim later: the row is published by the deadline, or one held-up claim less is to come.
  lemma NextClaim(final: Turn, i: nat, k: nat, gap: int, n: nat, deadline: int) returns (m: nat, over: bool)
    requires Enough(final, i, gap, n) && gap >= 0 && deadline >= Deadline(final.log[i].at, gap, n)
    requires i <= k < |final.log| && final.log[k].Claim? && final.log[k].at <= final.log[i].at + CLAIM_SECONDS + gap
    ensures over ==> PublishedBy(final.log, i, deadline)
    ensures !over ==> Enough(final, k, gap, m) && deadline >= Deadline(final.log[k].at, gap, m)
  {
    m, over := n, false;
    if k != i {
      LaterClaim(final, i, k, gap, n);
      over := PublishedBy(final.log, i, Deadline(final.log[i].at, gap, n));
      m := if over then n else n - 1;
    }
  }

  lemma {:induction false} RecoversByDeadline(t: Turn, i: nat, passes: seq<Pass>, last: int, gap: int, n: nat,
                                              final: Turn, deadline: int)
    requires Due(t, i, passes, last, gap) && passes != [] && final == AfterPasses(t, passes)
    requires t.log <= final.log && Enough(final, i, gap, n) && deadline >= Deadline(final.log[i].at, gap, n)
    ensures RecoversBy(t, i, passes, deadline)
    decreases |passes|
  {
    DeadlineMoves(t.log[i].at, t.log[i].at, gap, n);
    var v, k, over := FirstPass(t, i, passes, last, gap, deadline);
    if !over {
      assert final.log[k] == v.log[k];
      var m, published := NextClaim(final, i, k, gap, n, deadline);
      if !published {
        DeadlineMoves(v.log[k].at, v.log[k].at, gap, m);
        RecoversByDeadline(v, k, passes[1..], v.now, gap, m, final, deadline);
      }
    }
  }

  // After a lost dispatch, if at most n further claims are held up, then within n + 1 times 60 s and
  // the longest gap between passes the row is published, or is no longer queued.
  lemma BoundedRecovery(t: Turn, i: nat, passes: seq<Pass>, last: int, gap: int, n: nat)
    requires Due(t, i, passes, last, gap) && passes != [] && Enough(AfterPasses(t, passes), i, gap, n)
    ensures RecoversBy(t, i, passes, t.log[i].at + (n + 1) * (60 + gap))
  {
    PassesGrow(t, passes);
    DeadlineIsLinear(t.log[i].at, gap, n);
    RecoversByDeadline(t, i, passes, last, gap, n, AfterPasses(t, passes), Deadline(t.log[i].at, gap, n));
  }

  function Between(passes: seq<Pass>): seq<Op> {
    if passes == [] then [] else passes[0].before + Between(passes[1..])
  }

  lemma {:induction false} PlayConcat(t: Turn, first: seq<Op>, second: seq<Op>)
    ensures Play(t, first + second) == Play(Play(t, first), second)
    decreases |first|
  {
    if first == [] {
      assert first + second == second;
    } else {
      assert (first + second)[1..] == first[1..] + second;
      PlayConcat(Step(t, first[0]), first[1..], second);
    }
  }

  // A row without a job record is never recovered: passes change nothing of any run.
  lemma {:induction false} UnrecordedIsNeverRetried(t: Turn, passes: seq<Pass>)
    requires !t.recorded
    ensures AfterPasses(t, passes) == Play(t, Between(passes))
    decreases |passes|
  {
    if passes != [] {
      PlayGrows(t, passes[0].before);
      UnrecordedIsNeverRetried(AtPass(t, passes[0]), passes[1..]);
      PlayConcat(t, passes[0].before, Between(passes[1..]));
    }
  }
}
