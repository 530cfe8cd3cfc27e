/**
  Content.status used as a lock around summarization: full re-summaries and single-block
  regenerations take it by a compare-and-set UPDATE and give it back by another write. Every step
  is one committed statement; any other writer of the column is a Put.
*/
module SummaryLock {
  datatype FileStatus =
    | Queued | Pulling | Processing | OcrProcessing | SummaryQueued | Summarizing
    | Completed | DownloadFailed | AsrFailed | OcrFailed | SummaryFailed | Cancelled

  function Transitions(s: FileStatus): set<FileStatus> {
    match s
    case Queued => {Pulling, Processing, OcrProcessing, AsrFailed, OcrFailed, Cancelled}
    case Pulling => {Queued, Processing, DownloadFailed, AsrFailed, Cancelled}
    case Processing => {SummaryQueued, AsrFailed, Cancelled}
    case OcrProcessing => {SummaryQueued, OcrFailed, Cancelled}
    case SummaryQueued => {Summarizing, Completed, SummaryFailed, Cancelled}
    case Summarizing => {Completed, SummaryFailed, Cancelled}
    case _ => {}
  }

  const FULL_ALLOWED: set<FileStatus> := {SummaryQueued, SummaryFailed, Completed}
  const STABLE: set<FileStatus> := {Completed, SummaryFailed}

  type Pid = nat

  // What the block engine answered to a full re-summary.
  datatype Summary = Whole | Partial | Raised

  function TargetOf(s: Summary): FileStatus {
    if s.Whole? then Completed else SummaryFailed
  }

  // `turn` numbers the entries into SUMMARIZING. A full re-summary reads the status before it
  // writes the next one; `handling` says that it does so in its exception handler.
  datatype Proc =
    | Refused
    | FullHolding(turn: nat)
    | FullWriting(turn: nat, target: FileStatus, handling: bool, seen: FileStatus)
    | BlockSaw(prev: FileStatus)
    | BlockHolding(turn: nat, prev: FileStatus)
    | Released(turn: nat)
    | Lost(turn: nat)

  datatype World = World(status: FileStatus, entries: nat, procs: map<Pid, Proc>)

  datatype Op =
    | FullAcquire(p: Pid)
    | FullRead(p: Pid, summary: Summary)
    | FullWrite(p: Pid)
    | BlockRead(p: Pid)
    | BlockAcquire(p: Pid)
    | BlockRestore(p: Pid)
    | Lose(p: Pid)
    | Put(status: FileStatus)

  // Between acquire and release.
  predicate Holds(c: Proc) {
    c.FullHolding? || c.FullWriting? || c.BlockHolding?
  }

  function Enter(w: World, p: Pid, c: Proc): World {
    World(Summarizing, w.entries + 1, w.procs[p := c])
  }

  function Step(w: World, op: Op): World {
    match op
    case FullAcquire(p) =>
      if p in w.procs then w
      else if w.status in FULL_ALLOWED then Enter(w, p, FullHolding(w.entries + 1))
      else w.(procs := w.procs[p := Refused])
    case FullRead(p, summary) =>
      if p !in w.procs || !w.procs[p].FullHolding? then w
      else w.(procs := w.procs[p := FullWriting(w.procs[p].turn, TargetOf(summary), summary.Raised?, w.status)])
    case FullWrite(p) =>
      if p !in w.procs || !w.procs[p].FullWriting? then w
      else
        var c := w.procs[p];
        if c.seen == c.target then w.(procs := w.procs[p := Released(c.turn)])
        else if c.target in Transitions(c.seen) then w.(status := c.target, procs := w.procs[p := Released(c.turn)])
        else if !c.handling then w.(procs := w.procs[p := FullWriting(c.turn, SummaryFailed, true, w.status)])
        else w.(procs := w.procs[p := Released(c.turn)])
    case BlockRead(p) =>
      if p in w.procs then w
      else w.(procs := w.procs[p := if w.status in STABLE then BlockSaw(w.status) else Refused])
    case BlockAcquire(p) =>
      if p !in w.procs || !w.procs[p].BlockSaw? then w
      else if w.status == w.procs[p].prev then Enter(w, p, BlockHolding(w.entries + 1, w.procs[p].prev))
      else w.(procs := w.procs[p := Refused])
    case BlockRestore(p) =>
      if p !in w.procs || !w.procs[p].BlockHolding? then w
      else
        var c := w.procs[p];
        w.(status := if w.status == Summarizing then c.prev else w.status, procs := w.procs[p := Released(c.turn)])
    case Lose(p) =>
      if p !in w.procs || !Holds(w.procs[p]) then w
      else w.(procs := w.procs[p := Lost(w.procs[p].turn)])
    case Put(s) =>
      w.(status := s, entries := if s == Summarizing && w.status != Summarizing then w.entries + 1 else w.entries)
  }

  function Play(w: World, ops: seq<Op>): World
    decreases |ops|
  {
    if ops == [] then w else Play(Step(w, ops[0]), ops[1..])
  }

  function Start(s: FileStatus): World {
    World(s, 0, map[])
  }

  // ---------------------------------------------------------------- mutual exclusion

  // Other writers leave SUMMARIZING alone: they neither end it nor begin it.
  predicate Quiet(w: World, op: Op) {
    op.Put? ==> op.status != Summarizing && w.status != Summarizing
  }

  ghost predicate QuietRun(w: World, ops: seq<Op>)
    decreases |ops|
  {
    ops == [] || (Quiet(w, ops[0]) && QuietRun(Step(w, ops[0]), ops[1..]))
  }

  // Holds the lock, or held it when it was lost.
  predicate Keeps(c: Proc) {
    Holds(c) || c.Lost?
  }

  ghost predicate ProcOk(w: World, c: Proc) {
    && (Keeps(c) ==> c.turn == w.entries && w.status == Summarizing)
    && (c.FullWriting? ==> c.seen == Summarizing && c.target in STABLE)
    && (c.BlockHolding? || c.BlockSaw? ==> c.prev in STABLE)
  }

  ghost predicate Mutex(w: World) {
    && (forall p | p in w.procs :: ProcOk(w, w.procs[p]))
    && (forall p, q | p in w.procs && q in w.procs && Keeps(w.procs[p]) && Keeps(w.procs[q]) :: p == q)
    && (w.status == Summarizing ==> exists p :: p in w.procs && Keeps(w.procs[p]))
  }

  lemma AcquireKeepsMutex(w: World, op: Op)
    requires Mutex(w) && (op.FullAcquire? || op.BlockAcquire?)
    ensures Mutex(Step(w, op))
  {
    var w' := Step(w, op);
    if w'.status != w.status {
      assert forall p | p in w.procs :: !Keeps(w.procs[p]);
      assert Keeps(w'.procs[op.p]);
    } else if w.status == Summarizing {
      var p :| p in w.procs && Keeps(w.procs[p]);
      assert p in w'.procs && Keeps(w'.procs[p]);
    }
  }

  lemma ReleaseKeepsMutex(w: World, op: Op)
    requires Mutex(w) && (op.FullWrite? || op.BlockRestore?)
    ensures Mutex(Step(w, op))
  {
  }

  lemma OtherStepsKeepMutex(w: World, op: Op)
    requires Mutex(w) && Quiet(w, op) && (op.FullRead? || op.BlockRead? || op.Lose? || op.Put?)
    ensures Mutex(Step(w, op))
  {
    var w' := Step(w, op);
    if w.status == Summarizing {
      var p :| p in w.procs && Keeps(w.procs[p]);
      assert p in w'.procs && Keeps(w'.procs[p]);
    }
  }

  lemma StepKeepsMutex(w: World, op: Op)
    requires Mutex(w) && Quiet(w, op)
    ensures Mutex(Step(w, op))
  {
    if op.FullAcquire? || op.BlockAcquire? {
      AcquireKeepsMutex(w, op);
    } else if op.FullWrite? || op.BlockRestore? {
      ReleaseKeepsMutex(w, op);
    } else {
      OtherStepsKeepMutex(w, op);
    }
  }

  lemma {:induction false} MutexForever(w: World, ops: seq<Op>)
    requires Mutex(w) && QuietRun(w, ops)
    ensures Mutex(Play(w, ops))
    decreases |ops|
  {
    if ops != [] {
      StepKeepsMutex(w, ops[0]);
      MutexForever(Step(w, ops[0]), ops[1..]);
    }
  }

  // Any number of re-summaries and block regenerations: at most one is between acquire and
  // release, and the status is SUMMARIZING exactly while one is there or was lost there.
  lemma SummarizingIsAMutex(s: FileStatus, ops: seq<Op>)
    requires s != Summarizing && QuietRun(Start(s), ops)
    ensures var w := Play(Start(s), ops);
            && (forall p, q | p in w.procs && q in w.procs && Keeps(w.procs[p]) && Keeps(w.procs[q]) :: p == q)
            && (w.status == Summarizing <==> exists p :: p in w.procs && Keeps(w.procs[p]))
  {
    MutexForever(Start(s), ops);
  }

  // A re-summary that fails after its status write was flushed rolls that write back and never
  // tries again: the file stays SUMMARIZING for every later run of re-summaries and regenerations.
  lemma {:induction false} LostLockStaysTaken(w: World, ops: seq<Op>, p: Pid)
    requires Mutex(w) && QuietRun(w, ops) && p in w.procs && w.procs[p].Lost?
    ensures Play(w, ops).status == Summarizing
    decreases |ops|
  {
    assert ProcOk(w, w.procs[p]);
    if ops != [] {
      StepKeepsMutex(w, ops[0]);
      LostLockStaysTaken(Step(w, ops[0]), ops[1..], p);
    }
  }

  // ---------------------------------------------------------------- restoring

  lemma {:induction false} HolderStays(w: World, ops: seq<Op>, p: Pid)
    requires p in w.procs && w.procs[p].BlockHolding?
    requires forall op | op in ops :: op != BlockRestore(p) && op != Lose(p)
    ensures p in Play(w, ops).procs && Play(w, ops).procs[p] == w.procs[p]
    decreases |ops|
  {
    if ops != [] {
      assert ops[0] in ops && forall op | op in ops[1..] :: op in ops;
      HolderStays(Step(w, ops[0]), ops[1..], p);
    }
  }

  // A block regeneration ends with exactly the status held just before its acquire.
  lemma BlockEndsWhereItBegan(w: World, p: Pid, ops: seq<Op>)
    requires Mutex(w) && p in w.procs && w.procs[p].BlockSaw? && Step(w, BlockAcquire(p)).procs[p].BlockHolding?
    requires QuietRun(Step(w, BlockAcquire(p)), ops)
    requires forall op | op in ops :: op != BlockRestore(p) && op != Lose(p)
    ensures Step(Play(Step(w, BlockAcquire(p)), ops), BlockRestore(p)).status == w.status
  {
    var held := Step(w, BlockAcquire(p));
    StepKeepsMutex(w, BlockAcquire(p));
    MutexForever(held, ops);
    HolderStays(held, ops, p);
    var last := Play(held, ops);
    assert ProcOk(last, last.procs[p]);
  }

  // With any other writer: nobody shares an entry, and no entry lies ahead.
  ghost predicate TurnsOk(w: World) {
    && (forall p | p in w.procs && Holds(w.procs[p]) :: 1 <= w.procs[p].turn <= w.entries)
    && (forall p, q | p in w.procs && q in w.procs && p != q && Holds(w.procs[p]) && Holds(w.procs[q]) ::
          w.procs[p].turn != w.procs[q].turn)
    && (forall p | p in w.procs && (w.procs[p].BlockSaw? || w.procs[p].BlockHolding?) :: w.procs[p].prev in STABLE)
  }

  lemma EnterKeepsTurnsOk(w: World, p: Pid, c: Proc)
    requires TurnsOk(w) && (c == FullHolding(w.entries + 1)
        || (c.BlockHolding? && c.turn == w.entries + 1 && c.prev in STABLE))
    ensures TurnsOk(Enter(w, p, c))
  {
  }

  lemma OthersKeepTurnsOk(w: World, w': World)
    requires TurnsOk(w) && w.entries <= w'.entries
    requires forall p | p in w'.procs && Holds(w'.procs[p]) ::
               p in w.procs && Holds(w.procs[p]) && w'.procs[p].turn == w.procs[p].turn
    requires forall p | p in w'.procs && (w'.procs[p].BlockSaw? || w'.procs[p].BlockHolding?) ::
        w'.procs[p].prev in STABLE
    ensures TurnsOk(w')
  {
  }

  lemma FullStepKeepsTurnsOk(w: World, op: Op)
    requires TurnsOk(w) && (op.FullAcquire? || op.FullRead? || op.FullWrite?)
    ensures TurnsOk(Step(w, op))
  {
    if op.FullAcquire? && op.p !in w.procs && w.status in FULL_ALLOWED {
      EnterKeepsTurnsOk(w, op.p, FullHolding(w.entries + 1));
    } else {
      OthersKeepTurnsOk(w, Step(w, op));
    }
  }

  lemma BlockStepKeepsTurnsOk(w: World, op: Op)
    requires TurnsOk(w) && (op.BlockRead? || op.BlockAcquire? || op.BlockRestore?)
    ensures TurnsOk(Step(w, op))
  {
    if op.BlockAcquire? && op.p in w.procs && w.procs[op.p].BlockSaw? && w.status == w.procs[op.p].prev {
      EnterKeepsTurnsOk(w, op.p, BlockHolding(w.entries + 1, w.procs[op.p].prev));
    } else {
      OthersKeepTurnsOk(w, Step(w, op));
    }
  }

  lemma StepKeepsTurnsOk(w: World, op: Op)
    requires TurnsOk(w)
    ensures TurnsOk(Step(w, op))
  {
    if op.FullAcquire? || op.FullRead? || op.FullWrite? {
      FullStepKeepsTurnsOk(w, op);
    } else if op.BlockRead? || op.BlockAcquire? || op.BlockRestore? {
      BlockStepKeepsTurnsOk(w, op);
    } else {
      OthersKeepTurnsOk(w, Step(w, op));
    }
  }

  lemma {:induction false} TurnsOkForever(w: World, ops: seq<Op>)
    requires TurnsOk(w)
    ensures TurnsOk(Play(w, ops))
    decreases |ops|
  {
    if ops != [] {
      StepKeepsTurnsOk(w, ops[0]);
      TurnsOkForever(Step(w, ops[0]), ops[1..]);
    }
  }

  // The file is SUMMARIZING because of this very process.
  predicate Owns(w: World, p: Pid)
    requires p in w.procs && Holds(w.procs[p])
  {
    w.status == Summarizing && w.procs[p].turn == w.entries
  }

  // Whatever other writers did: at most one process owns the lock, and a restore gives back the
  // owner's previous status and otherwise leaves the status alone, exactly unless the file went
  // back to SUMMARIZING by a later entry.
  lemma RestoreIsExactIff(s: FileStatus, ops: seq<Op>, p: Pid)
    requires var w := Play(Start(s), ops); p in w.procs && w.procs[p].BlockHolding?
    ensures var w := Play(Start(s), ops);
            && (Owns(w, p) ==> forall q | q in w.procs && Holds(w.procs[q]) && Owns(w, q) :: q == p)
            && (Step(w, BlockRestore(p)).status == (if Owns(w, p) then w.procs[p].prev else w.status)
                <==> !(w.status == Summarizing && w.procs[p].turn < w.entries))
  {
    TurnsOkForever(Start(s), ops);
  }

  ghost predicate TargetsStable(w: World) {
    forall p | p in w.procs && w.procs[p].FullWriting? :: w.procs[p].target in STABLE
  }

  lemma {:induction false} TargetsStableForever(w: World, ops: seq<Op>)
    requires TargetsStable(w)
    ensures TargetsStable(Play(w, ops))
    decreases |ops|
  {
    if ops != [] { TargetsStableForever(Step(w, ops[0]), ops[1..]); }
  }

  // Outside SUMMARIZING, a step stays there unless it is counted as an entry.
  lemma OutsideStep(w: World, op: Op)
    requires w.status != Summarizing && TargetsStable(w)
    ensures w.entries <= Step(w, op).entries && TargetsStable(Step(w, op))
    ensures Step(w, op).entries == w.entries ==> Step(w, op).status != Summarizing
  {
    if op.FullWrite? && op.p in w.procs && w.procs[op.p].FullWriting? {
      assert w.procs[op.p].target in STABLE;
    }
  }

  lemma {:induction false} EntriesGrow(w: World, ops: seq<Op>)
    ensures w.entries <= Play(w, ops).entries
    decreases |ops|
  {
    if ops != [] { EntriesGrow(Step(w, ops[0]), ops[1..]); }
  }

  lemma {:induction false} OutsideStaysOutside(w: World, ops: seq<Op>)
    requires w.status != Summarizing && TargetsStable(w) && Play(w, ops).entries == w.entries
    ensures Play(w, ops).status != Summarizing
    decreases |ops|
  {
    if ops != [] {
      OutsideStep(w, ops[0]);
      EntriesGrow(Step(w, ops[0]), ops[1..]);
      OutsideStaysOutside(Step(w, ops[0]), ops[1..]);
    }
  }

  // A transition that moved the file out of SUMMARIZING survives the restore, whatever was tried
  // since, as long as nothing entered SUMMARIZING.
  lemma NewerStatusIsKept(s: FileStatus, before: seq<Op>, newer: FileStatus, after: seq<Op>, p: Pid)
    requires newer != Summarizing
    requires var moved := Step(Play(Start(s), before), Put(newer)); Play(moved, after).entries == moved.entries
    ensures var w := Play(Step(Play(Start(s), before), Put(newer)), after);
            Step(w, BlockRestore(p)).status == w.status != Summarizing
  {
    TargetsStableForever(Start(s), before);
    var moved := Step(Play(Start(s), before), Put(newer));
    assert TargetsStable(moved);
    OutsideStaysOutside(moved, after);
  }

  lemma PlayStep(w: World, op: Op, rest: seq<Op>, next: World)
    requires Step(w, op) == next
    ensures Play(w, [op] + rest) == Play(next, rest)
  {
  }

  // Two regenerations around a forced transition: the first one's restore takes the lock away from
  // the second, and a third process enters beside it.
  lemma LateRestoreTakesAwayTheLock()
    ensures var again := [BlockRead(1), BlockAcquire(1), BlockRestore(0), FullAcquire(2)];
            var w := Play(Start(Completed), [BlockRead(0)] + ([BlockAcquire(0)] + ([Put(SummaryFailed)] + again)));
            1 in w.procs && 2 in w.procs && Holds(w.procs[1]) && Holds(w.procs[2])
  {
    var again := [BlockRead(1), BlockAcquire(1), BlockRestore(0), FullAcquire(2)];
    var w1 := World(Completed, 0, map[0 := BlockSaw(Completed)]);
    var w2 := World(Summarizing, 1, map[0 := BlockHolding(1, Completed)]);
    var w3 := w2.(status := SummaryFailed);
    FirstBlockAcquires(w1, w2);
    PlayStep(Start(Completed), BlockRead(0), [BlockAcquire(0)] + ([Put(SummaryFailed)] + again), w1);
    PlayStep(w1, BlockAcquire(0), [Put(SummaryFailed)] + again, w2);
    PlayStep(w2, Put(SummaryFailed), again, w3);
    SecondHolderLosesIt(w3);
  }

  lemma FirstBlockAcquires(w1: World, w2: World)
    requires w1 == World(Completed, 0, map[0 := BlockSaw(Completed)])
    requires w2 == World(Summarizing, 1, map[0 := BlockHolding(1, Completed)])
    ensures Step(Start(Completed), BlockRead(0)) == w1 && Step(w1, BlockAcquire(0)) == w2
    ensures Step(w2, Put(SummaryFailed)) == w2.(status := SummaryFailed)
  {
    assert Step(w1, BlockAcquire(0)).procs == w2.procs;
  }

  lemma SecondHolderLosesIt(w: World)
    requires w == World(SummaryFailed, 1, map[0 := BlockHolding(1, Completed)])
    ensures var last := Play(w, [BlockRead(1), BlockAcquire(1), BlockRestore(0), FullAcquire(2)]);
            1 in last.procs && 2 in last.procs && Holds(last.procs[1]) && Holds(last.procs[2])
  {
  }
}
