/**
  Browser sessions in a key store with expiries: creation, validation with and without a touch,
  logout and per-user revocation, every store command and clock read a step of its own. Times are
  in milliseconds; records and TTLs are in whole seconds, as the clock is read rounded down.
*/
module Sessions {
  import opened Wrappers

  type Token = nat
  type User = nat
  type Pid = nat

  datatype Settings = Settings(idleHours: int, absoluteDays: int)

  function Idle(c: Settings): int {
    c.idleHours * 60 * 60
  }

  function Absolute(c: Settings): int {
    c.absoluteDays * 24 * 60 * 60
  }

  // What the settings validator accepts.
  predicate Accepts(c: Settings) {
    0 < Idle(c) <= Absolute(c)
  }

  // int(time.time()).
  function Seconds(ms: nat): nat {
    ms / 1000
  }

  datatype Record = Record(user: User, version: nat, createdAt: int, expiresAt: int)

  function NewRecord(c: Settings, user: User, version: nat, clock: nat): Record {
    Record(user, version, Seconds(clock), Seconds(clock) + Absolute(c))
  }

  function Ttl(c: Settings, r: Record, clock: nat): int {
    Min(Idle(c), r.expiresAt - Seconds(clock))
  }

  // A stored record; `clock` was read for its TTL and `wroteAt` is when SET or EXPIRE ran.
  datatype Cell = Cell(record: Record, clock: nat, wroteAt: nat, until: int)

  function Write(c: Settings, r: Record, clock: nat, now: nat): Cell {
    Cell(r, clock, now, now + 1000 * Ttl(c, r, clock))
  }

  datatype Proc =
    | Clocked(user: User, at: nat)
    | Versioned(user: User, at: nat, version: nat, readAt: nat)
    | Created(token: Token)
    | Fetched(token: Token, record: Record, touch: bool, fetchedAt: nat, wroteAt: nat)
    | Timed(token: Token, record: Record, touch: bool, fetchedAt: nat, wroteAt: nat, at: nat)
    | Checked(token: Token, record: Record, fetchedAt: nat, wroteAt: nat, at: nat, checkedAt: nat)
    | Accepted(token: Token, record: Record, fetchedAt: nat, wroteAt: nat, at: nat, checkedAt: nat)
    | Rejected

  // The record behind a token, how long the log was when its version was read, and when its
  // creation read the clock.
  datatype Issue = Issue(record: Record, readAt: nat, begun: nat)

  datatype Note = Revoked(user: User) | Passed(token: Token) | Refused(token: Token)

  datatype World = World(
    settings: Settings,
    now: nat,
    keys: map<Token, Cell>,
    versions: map<User, nat>,
    procs: map<Pid, Proc>,
    issued: map<Token, Issue>,
    log: seq<Note>)

  // `cleans`: the best-effort DEL of a rejected session succeeds.
  datatype Op =
    | Tick(ms: nat)
    | CreateClock(p: Pid, user: User)
    | CreateVersion(p: Pid)
    | CreateStore(p: Pid, token: Token)
    | Fetch(p: Pid, token: Token, touch: bool)
    | CheckTime(p: Pid, cleans: bool)
    | CheckVersion(p: Pid, cleans: bool)
    | Touch(p: Pid)
    | Revoke(user: User)
    | Logout(token: Token)

  function Version(w: World, u: User): nat {
    if u in w.versions then w.versions[u] else 0
  }

  predicate Live(w: World, t: Token) {
    t in w.keys && w.now < w.keys[t].until
  }

  function Drop(w: World, t: Token, cleans: bool): map<Token, Cell> {
    if cleans then w.keys - {t} else w.keys
  }

  function CheckVersionStep(w: World, p: Pid, cleans: bool): World
    requires p in w.procs && w.procs[p].Timed?
  {
    var c := w.procs[p];
    if c.record.version != Version(w, c.record.user) then
      w.(keys := Drop(w, c.token, cleans), procs := w.procs[p := Rejected], log := w.log + [Refused(c.token)])
    else
      w.(procs := w.procs[p := if c.touch then Checked(c.token, c.record, c.fetchedAt, c.wroteAt, c.at, |w.log|)
                               else Accepted(c.token, c.record, c.fetchedAt, c.wroteAt, c.at, |w.log|)],
         log := w.log + [Passed(c.token)])
  }

  function Step(w: World, op: Op): World {
    match op
    case Tick(ms) => w.(now := w.now + ms)
    case CreateClock(p, user) =>
      if p in w.procs then w else w.(procs := w.procs[p := Clocked(user, w.now)])
    case CreateVersion(p) =>
      if p !in w.procs || !w.procs[p].Clocked? then w
      else
        var c := w.procs[p];
        w.(procs := w.procs[p := Versioned(c.user, c.at, Version(w, c.user), |w.log|)])
    case CreateStore(p, token) =>
      if p !in w.procs || !w.procs[p].Versioned? || token in w.issued then w
      else
        var c := w.procs[p];
        var record := NewRecord(w.settings, c.user, c.version, c.at);
        w.(keys := w.keys[token := Write(w.settings, record, c.at, w.now)],
           procs := w.procs[p := Created(token)],
           issued := w.issued[token := Issue(record, c.readAt, c.at)])
    case Fetch(p, token, touch) =>
      if p in w.procs then w
      else if !Live(w, token) then w.(procs := w.procs[p := Rejected])
      else w.(procs := w.procs[p := Fetched(token, w.keys[token].record, touch, w.now, w.keys[token].wroteAt)])
    case CheckTime(p, cleans) =>
      if p !in w.procs || !w.procs[p].Fetched? then w
      else
        var c := w.procs[p];
        if c.record.expiresAt <= Seconds(w.now)
            then w.(keys := Drop(w, c.token, cleans), procs := w.procs[p := Rejected])
        else w.(procs := w.procs[p := Timed(c.token, c.record, c.touch, c.fetchedAt, c.wroteAt, w.now)])
    case CheckVersion(p, cleans) =>
      if p !in w.procs || !w.procs[p].Timed? then w else CheckVersionStep(w, p, cleans)
    case Touch(p) =>
      if p !in w.procs || !w.procs[p].Checked? then w
      else
        var c := w.procs[p];
        if !Live(w, c.token) then w.(procs := w.procs[p := Rejected])
        else w.(keys := w.keys[c.token := Write(w.settings, c.record, c.at, w.now)],
                procs := w.procs[p := Accepted(c.token, c.record, c.fetchedAt, c.wroteAt, c.at, c.checkedAt)])
    case Revoke(u) => w.(versions := w.versions[u := Version(w, u) + 1], log := w.log + [Revoked(u)])
    case Logout(t) => w.(keys := w.keys - {t})
  }

  function Play(w: World, ops: seq<Op>): World
    decreases |ops|
  {
    if ops == [] then w else Play(Step(w, ops[0]), ops[1..])
  }

  function Start(c: Settings): World {
    World(c, 0, map[], map[], map[], map[], [])
  }

  // ---------------------------------------------------------------- one record per token

  function Revokes(log: seq<Note>, u: User): nat {
    if log == [] then 0 else Revokes(log[..|log| - 1], u) + if log[|log| - 1] == Revoked(u) then 1 else 0
  }

  // A user's version is the number of that user's revocations so far.
  ghost predicate VersionOk(w: World, u: User) {
    Version(w, u) == Revokes(w.log, u)
  }

  predicate Holding(c: Proc) {
    c.Fetched? || c.Timed? || c.Checked? || c.Accepted?
  }

  ghost predicate VersionRead(w: World, user: User, version: nat, readAt: nat) {
    readAt <= |w.log| && version == Revokes(w.log[..readAt], user)
  }

  ghost predicate ProcOk(w: World, c: Proc) {
    && (Holding(c) ==> c.token in w.issued && c.record == w.issued[c.token].record)
    && (c.Versioned? ==> VersionRead(w, c.user, c.version, c.readAt) && c.at <= w.now)
    && (c.Clocked? ==> c.at <= w.now)
    && (Holding(c) ==> c.fetchedAt < c.wroteAt + 1000 * Idle(w.settings) && c.wroteAt <= c.fetchedAt <= w.now)
    && (Holding(c) ==> w.issued[c.token].begun <= c.wroteAt)
    && (c.Timed? || c.Checked? || c.Accepted? ==> Seconds(c.at) < c.record.expiresAt && c.fetchedAt <= c.at <= w.now)
    && (c.Checked? || c.Accepted? ==> c.checkedAt < |w.log| && w.log[c.checkedAt] == Passed(c.token))
  }

  ghost predicate KeyOk(w: World, t: Token) {
    t in w.keys ==>
      var cell := w.keys[t];
      && t in w.issued && cell.record == w.issued[t].record
      && w.issued[t].begun <= cell.clock <= cell.wroteAt <= w.now
      && Ttl(w.settings, cell.record, cell.clock) >= 1
      && cell.until == cell.wroteAt + 1000 * Ttl(w.settings, cell.record, cell.clock)
  }

  ghost predicate IssueOk(w: World, i: Issue) {
    && VersionRead(w, i.record.user, i.record.version, i.readAt)
    && 1000 * i.record.createdAt <= i.begun < 1000 * (i.record.createdAt + 1)
    && i.record.expiresAt == i.record.createdAt + 24 * 60 * 60 * w.settings.absoluteDays
  }

  // A check of a token's version passes exactly if its user was not revoked since the version of
  // the record was read, however long storing the record took.
  ghost predicate NoteOk(w: World, k: nat)
    requires k < |w.log|
  {
    var n := w.log[k];
    (n.Passed? || n.Refused? ==>
      && n.token in w.issued && w.issued[n.token].readAt <= k
      && (n.Passed? <==> Revokes(w.log[..k], w.issued[n.token].record.user) == w.issued[n.token].record.version))
  }

  ghost predicate Coherent(w: World) {
    && Accepts(w.settings)
    && (forall p | p in w.procs :: ProcOk(w, w.procs[p]))
    && (forall t | t in w.keys :: KeyOk(w, t))
    && (forall t | t in w.issued :: IssueOk(w, w.issued[t]))
    && (forall u: User :: VersionOk(w, u))
    && (forall k | 0 <= k < |w.log| :: NoteOk(w, k))
  }

  // ---------------------------------------------------------------- preservation

  lemma {:induction false} RevokesGrow(log: seq<Note>, u: User, i: nat, j: nat)
    requires i <= j <= |log|
    ensures Revokes(log[..i], u) <= Revokes(log[..j], u)
    ensures Revokes(log[..i], u) == Revokes(log[..j], u) <==> forall k | i <= k < j :: log[k] != Revoked(u)
    decreases j - i
  {
    if i < j {
      RevokesGrow(log, u, i, j - 1);
      assert log[..j][..j - 1] == log[..j - 1];
    }
  }

  // What no step takes away.
  ghost predicate Grows(w: World, w': World) {
    && w'.settings == w.settings && w.now <= w'.now
    && (forall t | t in w.issued :: t in w'.issued && w'.issued[t] == w.issued[t])
    && |w.log| <= |w'.log| && w'.log[..|w.log|] == w.log
  }

  lemma StepGrows(w: World, op: Op)
    ensures Grows(w, Step(w, op))
  {
  }

  lemma ReadStays(w: World, w': World, user: User, version: nat, readAt: nat)
    requires Grows(w, w') && VersionRead(w, user, version, readAt)
    ensures VersionRead(w', user, version, readAt)
  {
    assert w'.log[..readAt] == w.log[..readAt];
  }

  lemma ProcStays(w: World, w': World, c: Proc)
    requires Grows(w, w') && ProcOk(w, c)
    ensures ProcOk(w', c)
  {
    if c.Versioned? { ReadStays(w, w', c.user, c.version, c.readAt); }
    if c.Checked? || c.Accepted? { assert w'.log[c.checkedAt] == w'.log[..|w.log|][c.checkedAt]; }
  }

  lemma IssueStays(w: World, w': World, i: Issue)
    requires Grows(w, w') && IssueOk(w, i)
    ensures IssueOk(w', i)
  {
    ReadStays(w, w', i.record.user, i.record.version, i.readAt);
  }

  lemma NoteStays(w: World, w': World, k: nat)
    requires Grows(w, w') && k < |w.log| && NoteOk(w, k)
    ensures NoteOk(w', k)
  {
    assert w'.log[k] == w'.log[..|w.log|][k] && w'.log[..k] == w.log[..k];
  }

  // The process a step advances.
  lemma CreatorStepOk(w: World, op: Op)
    requires op.CreateClock? || op.CreateVersion? || op.CreateStore?
    requires op.p in w.procs ==> ProcOk(w, w.procs[op.p])
    requires forall u: User :: VersionOk(w, u)
    ensures op.p in Step(w, op).procs ==> ProcOk(Step(w, op), Step(w, op).procs[op.p])
  {
    if op.p in w.procs {
      var w' := Step(w, op);
      StepGrows(w, op);
      ProcStays(w, w', w.procs[op.p]);
      assert w.procs[op.p].Clocked? ==> VersionOk(w, w.procs[op.p].user);
      assert w.log[..|w.log|] == w.log;
    }
  }

  lemma FetchOk(w: World, op: Op)
    requires op.Fetch? && op.p !in w.procs && KeyOk(w, op.token)
    ensures op.p in Step(w, op).procs ==> ProcOk(Step(w, op), Step(w, op).procs[op.p])
  {
  }

  lemma CheckerStepOk(w: World, op: Op)
    requires op.CheckTime? || op.CheckVersion? || op.Touch?
    requires op.p in w.procs && ProcOk(w, w.procs[op.p])
    ensures op.p in Step(w, op).procs ==> ProcOk(Step(w, op), Step(w, op).procs[op.p])
  {
    StepGrows(w, op);
    ProcStays(w, Step(w, op), w.procs[op.p]);
  }

  predicate Moves(op: Op, p: Pid) {
    !op.Tick? && !op.Revoke? && !op.Logout? && op.p == p
  }

  lemma OtherProcStays(w: World, op: Op, p: Pid)
    requires !Moves(op, p) || (op.Fetch? && p in w.procs)
    ensures p in w.procs <==> p in Step(w, op).procs
    ensures p in w.procs ==> Step(w, op).procs[p] == w.procs[p]
  {
  }

  lemma StepKeepsProc(w: World, op: Op, p: Pid)
    requires Coherent(w)
    ensures p in Step(w, op).procs ==> ProcOk(Step(w, op), Step(w, op).procs[p])
  {
    StepGrows(w, op);
    if p in w.procs { assert ProcOk(w, w.procs[p]); }
    if !Moves(op, p) || (op.Fetch? && p in w.procs) {
      OtherProcStays(w, op, p);
      if p in w.procs { ProcStays(w, Step(w, op), w.procs[p]); }
    } else if op.CreateClock? || op.CreateVersion? || op.CreateStore? {
      CreatorStepOk(w, op);
    } else if op.Fetch? {
      assert KeyOk(w, op.token);
      FetchOk(w, op);
    } else if p in w.procs {
      CheckerStepOk(w, op);
    }
  }

  lemma KeyStepOk(w: World, op: Op, t: Token)
    requires Accepts(w.settings) && KeyOk(w, t)
    requires (op.CreateStore? || op.Touch?) && op.p in w.procs ==> ProcOk(w, w.procs[op.p])
    ensures KeyOk(Step(w, op), t)
  {
  }

  lemma StepKeepsKey(w: World, op: Op, t: Token)
    requires Coherent(w)
    ensures KeyOk(Step(w, op), t)
  {
    assert KeyOk(w, t);
    if (op.CreateStore? || op.Touch?) && op.p in w.procs { assert ProcOk(w, w.procs[op.p]); }
    KeyStepOk(w, op, t);
  }

  lemma StepKeepsIssues(w: World, op: Op)
    requires Coherent(w)
    ensures forall t | t in Step(w, op).issued :: IssueOk(Step(w, op), Step(w, op).issued[t])
  {
    var w' := Step(w, op);
    StepGrows(w, op);
    forall t | t in w'.issued
      ensures IssueOk(w', w'.issued[t])
    {
      if t in w.issued {
        IssueStays(w, w', w.issued[t]);
      } else {
        var c := w.procs[op.p];
        assert ProcOk(w, c);
        ReadStays(w, w', c.user, c.version, c.readAt);
      }
    }
  }

  lemma NotesKeepVersions(w: World, w': World, notes: seq<Note>, u: User)
    requires VersionOk(w, u) && |notes| <= 1 && w'.log == w.log + notes
    requires Version(w', u) == Version(w, u) + if notes == [Revoked(u)] then 1 else 0
    ensures VersionOk(w', u)
  {
    if notes == [] {
      assert w'.log == w.log;
    } else {
      assert w'.log[..|w'.log| - 1] == w.log;
    }
  }

  // What a step writes to the log, and to the version of one user.
  lemma StepNotes(w: World, op: Op, u: User) returns (notes: seq<Note>)
    ensures |notes| <= 1 && Step(w, op).log == w.log + notes
    ensures Version(Step(w, op), u) == Version(w, u) + if notes == [Revoked(u)] then 1 else 0
  {
    notes := Step(w, op).log[|w.log|..];
  }

  lemma StepKeepsVersions(w: World, op: Op, u: User)
    requires VersionOk(w, u)
    ensures VersionOk(Step(w, op), u)
  {
    var notes := StepNotes(w, op, u);
    NotesKeepVersions(w, Step(w, op), notes, u);
  }

  lemma StepKeepsNotes(w: World, op: Op)
    requires Coherent(w)
    ensures forall k | 0 <= k < |Step(w, op).log| :: NoteOk(Step(w, op), k)
  {
    var w' := Step(w, op);
    StepGrows(w, op);
    forall k | 0 <= k < |w'.log|
      ensures NoteOk(w', k)
    {
      if k < |w.log| {
        NoteStays(w, w', k);
      } else if op.CheckVersion? {
        var c := w.procs[op.p];
        assert ProcOk(w, c) && IssueOk(w, w.issued[c.token]);
        assert w'.log[..k] == w.log && VersionOk(w, c.record.user);
      }
    }
  }

  lemma StepKeepsCoherent(w: World, op: Op)
    requires Coherent(w)
    ensures Coherent(Step(w, op))
  {
    StepGrows(w, op);
    StepKeepsIssues(w, op);
    StepKeepsNotes(w, op);
    forall p | p in Step(w, op).procs
      ensures ProcOk(Step(w, op), Step(w, op).procs[p])
    {
      StepKeepsProc(w, op, p);
    }
    forall t | t in Step(w, op).keys
      ensures KeyOk(Step(w, op), t)
    {
      StepKeepsKey(w, op, t);
    }
    forall u: User
      ensures VersionOk(Step(w, op), u)
    {
      StepKeepsVersions(w, op, u);
    }
  }

  lemma {:induction false} CoherentForever(w: World, ops: seq<Op>)
    requires Coherent(w)
    ensures Coherent(Play(w, ops))
    decreases |ops|
  {
    if ops != [] {
      StepKeepsCoherent(w, ops[0]);
      CoherentForever(Step(w, ops[0]), ops[1..]);
    }
  }

  // ---------------------------------------------------------------- what holds of every run

  // Every acceptance: fetched within the idle TTL of the last write of its key, with the clock
  // read before absolute expiry, and not revoked between its version read and its check.
  lemma AcceptedSessionsAreValid(c: Settings, ops: seq<Op>, p: Pid)
    requires Accepts(c)
    requires var w := Play(Start(c), ops); p in w.procs && w.procs[p].Accepted?
    ensures var w := Play(Start(c), ops);
            var a := w.procs[p];
            && a.wroteAt <= a.fetchedAt < a.wroteAt + 1000 * 60 * 60 * c.idleHours
            && a.fetchedAt <= a.at < 1000 * a.record.expiresAt
            && a.token in w.issued && w.issued[a.token].record == a.record
            && w.issued[a.token].begun <= a.at < w.issued[a.token].begun + 1000 * 24 * 60 * 60 * c.absoluteDays
            && a.checkedAt < |w.log|
            && forall k | w.issued[a.token].readAt <= k < a.checkedAt :: w.log[k] != Revoked(a.record.user)
  {
    CoherentForever(Start(c), ops);
    SettingsStay(Start(c), ops);
    var w := Play(Start(c), ops);
    var a := w.procs[p];
    assert ProcOk(w, a) && NoteOk(w, a.checkedAt) && IssueOk(w, w.issued[a.token]);
    RevokesGrow(w.log, a.record.user, w.issued[a.token].readAt, a.checkedAt);
  }

  // A process that is creating a session for this user, having read this clock.
  predicate Creating(w: World, p: Pid, user: User, at: nat) {
    && p in w.procs
    && (w.procs[p].Clocked? || w.procs[p].Versioned? ==> w.procs[p].user == user && w.procs[p].at == at)
    && (w.procs[p].Clocked? || w.procs[p].Versioned? || w.procs[p].Created?)
  }

  lemma StepKeepsCreating(w: World, op: Op, p: Pid, user: User, at: nat)
    requires Creating(w, p, user, at)
    ensures Creating(Step(w, op), p, user, at)
  {
    if !Moves(op, p) { OtherProcStays(w, op, p); }
  }

  lemma {:induction false} PlayKeepsCreating(w: World, ops: seq<Op>, p: Pid, user: User, at: nat)
    requires Creating(w, p, user, at)
    ensures Creating(Play(w, ops), p, user, at)
    decreases |ops|
  {
    if ops != [] {
      StepKeepsCreating(w, ops[0], p, user, at);
      PlayKeepsCreating(Step(w, ops[0]), ops[1..], p, user, at);
    }
  }

  lemma {:induction false} IssuesStay(w: World, ops: seq<Op>, t: Token)
    requires t in w.issued
    ensures t in Play(w, ops).issued && Play(w, ops).issued[t] == w.issued[t]
    decreases |ops|
  {
    if ops != [] {
      StepGrows(w, ops[0]);
      IssuesStay(Step(w, ops[0]), ops[1..], t);
    }
  }

  // The absolute lifetime counts from the login: a session whose creation by process p read the clock
  // after `before`, and stored it after `between`, belongs to that user, and every acceptance of it,
  // however often it was touched, has its time check less than the absolute TTL after that clock.
  lemma SessionLifetime(c: Settings, before: seq<Op>, p: Pid, user: User, between: seq<Op>, token: Token,
                        after: seq<Op>, q: Pid)
    requires Accepts(c) && p !in Play(Start(c), before).procs
    requires var stored := Play(Step(Play(Start(c), before), CreateClock(p, user)), between);
             p in stored.procs && stored.procs[p].Versioned? && token !in stored.issued
    requires var stored := Play(Step(Play(Start(c), before), CreateClock(p, user)), between);
             var last := Play(Step(stored, CreateStore(p, token)), after);
             q in last.procs && last.procs[q].Accepted? && last.procs[q].token == token
    ensures var login := Play(Start(c), before).now;
            var stored := Play(Step(Play(Start(c), before), CreateClock(p, user)), between);
            var a := Play(Step(stored, CreateStore(p, token)), after).procs[q];
            && a.record.user == user
            && 1000 * a.record.createdAt <= login < 1000 * (a.record.createdAt + 1)
            && login <= a.at < login + 1000 * 24 * 60 * 60 * c.absoluteDays
  {
    var first := Play(Start(c), before);
    var stored := Play(Step(first, CreateClock(p, user)), between);
    CoherentForever(Start(c), before);
    StepKeepsCoherent(first, CreateClock(p, user));
    CoherentForever(Step(first, CreateClock(p, user)), between);
    PlayKeepsCreating(Step(first, CreateClock(p, user)), between, p, user, first.now);
    StoreIssues(stored, p, user, token, first.now);
    StepKeepsCoherent(stored, CreateStore(p, token));
    IssuedIsAccepted(Step(stored, CreateStore(p, token)), token, after, q);
    SettingsStay(Start(c), before);
    SettingsStay(Step(first, CreateClock(p, user)), between);
  }

  lemma StoreIssues(stored: World, p: Pid, user: User, token: Token, login: nat)
    requires Creating(stored, p, user, login) && stored.procs[p].Versioned? && token !in stored.issued
    ensures var issued := Step(stored, CreateStore(p, token));
            && token in issued.issued && issued.settings == stored.settings
            && issued.issued[token].record.user == user && issued.issued[token].begun == login
  {
  }

  lemma AcceptanceIsTimely(w: World, q: Pid)
    requires Coherent(w) && q in w.procs && w.procs[q].Accepted?
    ensures var a := w.procs[q];
            && a.token in w.issued && a.record == w.issued[a.token].record
            && var i := w.issued[a.token];
               && 1000 * i.record.createdAt <= i.begun < 1000 * (i.record.createdAt + 1)
               && i.begun <= a.at < i.begun + 1000 * 24 * 60 * 60 * w.settings.absoluteDays
  {
    assert ProcOk(w, w.procs[q]) && IssueOk(w, w.issued[w.procs[q].token]);
  }

  // Every acceptance of an issued token is of its record, and within its lifetime.
  lemma IssuedIsAccepted(issued: World, token: Token, after: seq<Op>, q: Pid)
    requires Coherent(issued) && token in issued.issued
    requires q in Play(issued, after).procs && Play(issued, after).procs[q].Accepted?
    requires Play(issued, after).procs[q].token == token
    ensures var a, i := Play(issued, after).procs[q], issued.issued[token];
            && a.record == i.record
            && 1000 * i.record.createdAt <= i.begun < 1000 * (i.record.createdAt + 1)
            && i.begun <= a.at < i.begun + 1000 * 24 * 60 * 60 * issued.settings.absoluteDays
  {
    CoherentForever(issued, after);
    SettingsStay(issued, after);
    IssuesStay(issued, after, token);
    AcceptanceIsTimely(Play(issued, after), q);
  }

  lemma {:induction false} SettingsStay(w: World, ops: seq<Op>)
    ensures Play(w, ops).settings == w.settings
    decreases |ops|
  {
    if ops != [] { SettingsStay(Step(w, ops[0]), ops[1..]); }
  }

  // The k-th note, a check of a version, passed exactly if no revocation of the user came between
  // the read of that version and the check, also when the session was stored after it.
  lemma CheckPassesIffNotRevoked(c: Settings, ops: seq<Op>, k: nat)
    requires Accepts(c) && k < |Play(Start(c), ops).log| && !Play(Start(c), ops).log[k].Revoked?
    ensures var w := Play(Start(c), ops);
            && w.log[k].token in w.issued
            && var issue := w.issued[w.log[k].token];
               && issue.readAt <= k
               && (w.log[k].Passed? <==> forall m | issue.readAt <= m < k :: w.log[m] != Revoked(issue.record.user))
  {
    CoherentForever(Start(c), ops);
    var w := Play(Start(c), ops);
    assert NoteOk(w, k) && IssueOk(w, w.issued[w.log[k].token]);
    RevokesGrow(w.log, w.issued[w.log[k].token].record.user, w.issued[w.log[k].token].readAt, k);
  }

  // Once refused as revoked, never passed again.
  lemma RefusedForever(c: Settings, ops: seq<Op>, i: nat, j: nat)
    requires Accepts(c) && i < j < |Play(Start(c), ops).log|
    requires Play(Start(c), ops).log[i].Refused?
    ensures Play(Start(c), ops).log[j] != Passed(Play(Start(c), ops).log[i].token)
  {
    var w := Play(Start(c), ops);
    CheckPassesIffNotRevoked(c, ops, i);
    if !w.log[j].Revoked? { CheckPassesIffNotRevoked(c, ops, j); }
  }

  // Every TTL ever written is at least one second, and the key it is written for ends at the idle
  // TTL or at absolute expiry, there later by what passed since the clock was read plus the
  // fraction of a second the clock read dropped.
  lemma TtlsStayWithinLifetime(c: Settings, ops: seq<Op>, t: Token)
    requires Accepts(c) && t in Play(Start(c), ops).keys
    ensures var cell := Play(Start(c), ops).keys[t];
            && Ttl(c, cell.record, cell.clock) >= 1
            && cell.until == Min(cell.wroteAt + 1000 * Idle(c),
                                 1000 * cell.record.expiresAt + (cell.wroteAt - cell.clock) + cell.clock % 1000)
            && (cell.until > 1000 * cell.record.expiresAt <==>
                  cell.wroteAt + 1000 * Idle(c) > 1000 * cell.record.expiresAt
                  && (cell.wroteAt > cell.clock || cell.clock % 1000 != 0))
            && (cell.wroteAt == cell.clock ==> cell.until < 1000 * (cell.record.expiresAt + 1))
  {
    CoherentForever(Start(c), ops);
    SettingsStay(Start(c), ops);
    assert KeyOk(Play(Start(c), ops), t);
  }

  // Revocation versions only grow.
  lemma {:induction false} VersionsOnlyGrow(w: World, ops: seq<Op>, u: User)
    ensures Version(w, u) <= Version(Play(w, ops), u)
    decreases |ops|
  {
    if ops != [] { VersionsOnlyGrow(Step(w, ops[0]), ops[1..], u); }
  }

  // ---------------------------------------------------------------- logout

  lemma {:induction false} LoggedOutStays(w: World, ops: seq<Op>, t: Token)
    requires t in w.issued && t !in w.keys
    ensures t in Play(w, ops).issued && t !in Play(w, ops).keys
    decreases |ops|
  {
    if ops != [] { LoggedOutStays(Step(w, ops[0]), ops[1..], t); }
  }

  // A session that was logged out is gone for good: no touch still under way brings its key back,
  // and every later request with its token is rejected.
  lemma LogoutIsFinal(w: World, t: Token, ops: seq<Op>, p: Pid, touch: bool)
    requires t in w.issued && p !in Play(Step(w, Logout(t)), ops).procs
    ensures var last := Play(Step(w, Logout(t)), ops);
            t !in last.keys && Step(last, Fetch(p, t, touch)).procs[p] == Rejected
  {
    LoggedOutStays(Step(w, Logout(t)), ops, t);
  }

  // A login at 0.999 s with equal idle and absolute lifetimes of one day: the clock reads 0, so the
  // key stays 999 ms past the absolute expiry although clock and store write were one step.
  lemma KeyOutlivesAbsoluteExpiry()
    ensures var c := Settings(24, 1);
            var w := Step(Step(Step(Step(Start(c), Tick(999)), CreateClock(0, 7)), CreateVersion(0)),
                CreateStore(0, 5));
            && Accepts(c) && 5 in w.keys && w.keys[5].wroteAt == w.keys[5].clock
            && w.keys[5].until == 1000 * w.keys[5].record.expiresAt + 999
  {
  }
}
