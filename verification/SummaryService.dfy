/**
  The three guarded writes of Content.status and the two services built on them, as they run
  against one existing row. What other writers commit while a service waits comes in as a list.
*/
module SummaryService {
  import opened SummaryLock

  datatype TransitionResult = Changed | AlreadyThere | Invalid

  // What the block engine hands back, or that it raised.
  datatype Answer = Answered(title: string, summary: string, success: bool) | EngineRaised

  datatype Reply = Refusal | Report(success: bool) | Failure

  function Result(current: FileStatus, target: FileStatus, validate: bool): TransitionResult {
    if current == target then AlreadyThere
    else if validate && target !in Transitions(current) then Invalid
    else Changed
  }

  function Latest(status: FileStatus, commits: seq<FileStatus>): FileStatus {
    if commits == [] then status else commits[|commits| - 1]
  }

  function Puts(commits: seq<FileStatus>): seq<Op> {
    seq(|commits|, i requires 0 <= i < |commits| => Put(commits[i]))
  }

  function SummaryOf(a: Answer): Summary {
    if a.EngineRaised? then SummaryLock.Raised else if a.success then Whole else Partial
  }

  // The steps of the lock protocol a service takes as process 0.
  function BlockSteps(before: seq<FileStatus>, during: seq<FileStatus>): seq<Op> {
    [BlockRead(0)] + (Puts(before) + ([BlockAcquire(0)] + (Puts(during) + [BlockRestore(0)])))
  }

  function FullSteps(a: Answer, during: seq<FileStatus>, lost: bool): seq<Op> {
    [FullAcquire(0)] + (Puts(during) + if lost then [Lose(0)]
        else [FullRead(0, SummaryOf(a)), FullWrite(0), FullWrite(0)])
  }

  // The validated write of a summary's end: from SUMMARY_QUEUED or SUMMARIZING, or already there.
  predicate Accepts(seen: FileStatus, target: FileStatus) {
    seen == target || seen == SummaryQueued || seen == Summarizing
  }

  // The status that a full re-summary asks for first, and whether it gets it.
  predicate FirstWriteWorks(seen: FileStatus, answer: Answer) {
    answer.Answered? && Accepts(seen, if answer.success then Completed else SummaryFailed)
  }

  // Its transaction is kept if that write works, or else the exception handler's does.
  predicate Kept(seen: FileStatus, answer: Answer, commitFails: bool) {
    !commitFails && (FirstWriteWorks(seen, answer) || Accepts(seen, SummaryFailed))
  }

  class ContentRow {
    var status: FileStatus
    var title: string
    var summary: string

    constructor (status: FileStatus)
      ensures this.status == status && title == "" && summary == ""
    {
      this.status, title, summary := status, "", "";
    }

    method UpdateFileStatus(target: FileStatus, validate: bool) returns (r: TransitionResult)
      modifies this`status
      ensures r == Result(old(status), target, validate)
      ensures status == if r == Changed then target else old(status)
    {
      if status == target {
        return AlreadyThere;
      }
      if validate && target !in Transitions(status) {
        return Invalid;
      }
      status := target;
      r := Changed;
    }

    method TryAcquireSummarizingLock(allowed: set<FileStatus>) returns (acquired: bool)
      modifies this`status
      ensures acquired == (old(status) in allowed)
      ensures status == if acquired then Summarizing else old(status)
    {
      acquired := status in allowed;
      if acquired {
        status := Summarizing;
      }
    }

    method RestoreSummarizingStatus(previous: FileStatus) returns (restored: bool)
      modifies this`status
      ensures restored == (old(status) == Summarizing)
      ensures status == if restored then previous else old(status)
    {
      restored := status == Summarizing;
      if restored {
        status := previous;
      }
    }

    method OthersCommit(commits: seq<FileStatus>)
      modifies this`status
      ensures status == Latest(old(status), commits)
    {
      status := Latest(status, commits);
    }

    // Whatever the engine answers or raises, the status afterwards is the one held just before the
    // acquire, unless somebody moved the file out of SUMMARIZING meanwhile: then theirs is kept. If
    // the transaction that stores title and summary fails, they are rolled back.
    method RegenerateSummaryBlock(ready: bool, before: seq<FileStatus>, answer: Answer, during: seq<FileStatus>,
                                  commitFails: bool)
      returns (reply: Reply)
      modifies this
      ensures reply.Refusal? <==>
                !ready || old(status) !in {Completed, SummaryFailed} || Latest(old(status), before) != old(status)
      ensures reply.Refusal? ==> title == old(title) && summary == old(summary)
                                 && status == if ready && old(status) in STABLE then Latest(old(status), before)
                                     else old(status)
      ensures !reply.Refusal? ==> status == var last := Latest(Summarizing, during);
                                            if last == Summarizing then old(status) else last
      ensures !reply.Refusal? ==> reply == if answer.EngineRaised? || commitFails then Failure
          else Report(answer.success)
      ensures var stores := reply.Report? && answer.success;
              && title == (if stores && answer.title != "" then answer.title else old(title))
              && summary == (if stores && answer.summary != "" then answer.summary else old(summary))
      ensures ready ==> status == Play(Start(old(status)),
                                       BlockSteps(if old(status) in STABLE then before else [],
                                                  if reply.Refusal? then [] else during)).status
    {
      ghost var start := Start(status);
      if !ready {
        return Refusal;
      }
      var previous := status;
      if previous !in STABLE {
        BlockStepsPlayed(start, [], []);
        return Refusal;
      }
      OthersCommit(before);
      var acquired := TryAcquireSummarizingLock({previous});
      if !acquired {
        BlockStepsPlayed(start, before, []);
        return Refusal;
      }
      OthersCommit(during);
      var oldTitle, oldSummary := title, summary;
      if answer.EngineRaised? {
        reply := Failure;
      } else {
        if answer.success {
          if answer.title != "" {
            title := answer.title;
          }
          if answer.summary != "" {
            summary := answer.summary;
          }
        }
        reply := Report(answer.success);
      }
      if commitFails {
        reply := Failure;
      }
      if reply.Failure? {
        title, summary := oldTitle, oldSummary;
      }
      var _ := RestoreSummarizingStatus(previous);
      BlockStepsPlayed(start, before, during);
    }

    // Title and summary are the answer's where it has any, also of a partial answer and when only the
    // exception handler's status write goes through; with its transaction lost or both writes
    // invalid, nothing after the acquire is committed. Left alone, it ends COMPLETED or SUMMARY_FAILED.
    method RetrySummary(ready: bool, answer: Answer, during: seq<FileStatus>, commitFails: bool) returns (reply: Reply)
      modifies this
      ensures reply.Refusal? <==> !ready || old(status) !in {SummaryQueued, SummaryFailed, Completed}
      ensures reply.Refusal? ==> status == old(status) && title == old(title) && summary == old(summary)
      ensures !reply.Refusal? && during == [] ==>
                status == if commitFails then Summarizing else TargetOf(SummaryOf(answer))
      ensures !reply.Refusal? ==>
                var seen := Latest(Summarizing, during);
                var kept := Kept(seen, answer, commitFails);
                && status == (if !kept then seen else if FirstWriteWorks(seen, answer) && answer.success then Completed
                              else SummaryFailed)
                && title == (if kept && answer.Answered? && answer.title != "" then answer.title else old(title))
                && summary == (if kept && answer.Answered? && answer.summary != "" then answer.summary
                               else old(summary))
                && reply == (if FirstWriteWorks(seen, answer) && !commitFails then Report(answer.success) else Failure)
      ensures ready ==> status == Play(Start(old(status)),
                                       FullSteps(answer, if reply.Refusal? then [] else during, commitFails)).status
    {
      ghost var start := Start(status);
      if !ready {
        return Refusal;
      }
      var acquired := TryAcquireSummarizingLock(FULL_ALLOWED);
      if !acquired {
        FullStepsPlayed(start, answer, [], commitFails);
        return Refusal;
      }
      OthersCommit(during);
      FullStepsEnd(start, answer, during, commitFails);
      reply := StoreSummary(answer, commitFails);
    }

    // From the engine's answer to the end: the transaction and its exception handler.
    method StoreSummary(answer: Answer, commitFails: bool) returns (reply: Reply)
      modifies this
      ensures var kept := Kept(old(status), answer, commitFails);
              && status == (if !kept then old(status)
                            else if FirstWriteWorks(old(status), answer) && answer.success then Completed
                            else SummaryFailed)
              && title == (if kept && answer.Answered? && answer.title != "" then answer.title else old(title))
              && summary == (if kept && answer.Answered? && answer.summary != "" then answer.summary else old(summary))
      ensures reply == if FirstWriteWorks(old(status), answer) && !commitFails then Report(answer.success) else Failure
    {
      var seen, oldTitle, oldSummary := status, title, summary;
      reply := if answer.EngineRaised? then Failure else Report(answer.success);
      var r := Invalid;
      if answer.Answered? {
        if answer.title != "" {
          title := answer.title;
        }
        if answer.summary != "" {
          summary := answer.summary;
        }
        r := UpdateFileStatus(if answer.success then Completed else SummaryFailed, true);
      }
      if r.Invalid? {
        r := UpdateFileStatus(SummaryFailed, true);
        reply := Failure;
      }
      if r.Invalid? || commitFails {
        // the transaction is rolled back and the error propagates
        status, title, summary := seen, oldTitle, oldSummary;
        reply := Failure;
      }
    }
  }

  lemma PlayMore(w: World, op: Op, rest: seq<Op>)
    ensures Play(w, [op] + rest) == Play(Step(w, op), rest)
  {
  }

  lemma {:induction false} PutsPlayed(w: World, commits: seq<FileStatus>, rest: seq<Op>) returns (entries: nat)
    ensures Play(w, Puts(commits) + rest) == Play(World(Latest(w.status, commits), entries, w.procs), rest)
    decreases |commits|
  {
    if commits == [] {
      assert Puts(commits) + rest == rest;
      entries := w.entries;
    } else {
      assert Puts(commits) + rest == [Put(commits[0])] + (Puts(commits[1..]) + rest);
      PlayMore(w, Put(commits[0]), Puts(commits[1..]) + rest);
      entries := PutsPlayed(Step(w, Put(commits[0])), commits[1..], rest);
    }
  }

  lemma BlockStepsPlayed(w: World, before: seq<FileStatus>, during: seq<FileStatus>)
    requires w == Start(w.status)
    ensures Play(w, BlockSteps(before, during)).status ==
            if w.status in STABLE && Latest(w.status, before) == w.status then
              var last := Latest(Summarizing, during); if last == Summarizing then w.status else last
            else Latest(Latest(w.status, before), during)
  {
    var tail := Puts(during) + [BlockRestore(0)];
    PlayMore(w, BlockRead(0), Puts(before) + ([BlockAcquire(0)] + tail));
    var w1 := Step(w, BlockRead(0));
    var n := PutsPlayed(w1, before, [BlockAcquire(0)] + tail);
    var w2 := World(Latest(w.status, before), n, w1.procs);
    PlayMore(w2, BlockAcquire(0), tail);
    var w3 := Step(w2, BlockAcquire(0));
    var m := PutsPlayed(w3, during, [BlockRestore(0)]);
    var w4 := World(Latest(w3.status, during), m, w3.procs);
    PlayStep(w4, BlockRestore(0), [], Step(w4, BlockRestore(0)));
    assert [BlockRestore(0)] + [] == [BlockRestore(0)];
  }

  lemma FullStepsPlayed(w: World, a: Answer, during: seq<FileStatus>, lost: bool)
    requires w == Start(w.status)
    ensures Play(w, FullSteps(a, during, lost)).status ==
            var seen := Latest(if w.status in FULL_ALLOWED then Summarizing else w.status, during);
            var target := TargetOf(SummaryOf(a));
            if w.status !in FULL_ALLOWED || lost then seen
            else if Result(seen, target, true) == Changed then target
            else if Result(seen, target, true) == Invalid && a.Answered? && Result(seen, SummaryFailed, true) == Changed
            then SummaryFailed
            else seen
  {
    var last := if lost then [Lose(0)] else [FullRead(0, SummaryOf(a)), FullWrite(0), FullWrite(0)];
    PlayMore(w, FullAcquire(0), Puts(during) + last);
    var w1 := Step(w, FullAcquire(0));
    var n := PutsPlayed(w1, during, last);
    var w2 := World(Latest(w1.status, during), n, w1.procs);
    if lost {
      PlayMore(w2, Lose(0), []);
      assert [Lose(0)] + [] == [Lose(0)];
    } else {
      var w3 := Step(w2, FullRead(0, SummaryOf(a)));
      PlayMore(w2, FullRead(0, SummaryOf(a)), [FullWrite(0), FullWrite(0)]);
      assert last == [FullRead(0, SummaryOf(a))] + [FullWrite(0), FullWrite(0)];
      var w4 := Step(w3, FullWrite(0));
      PlayMore(w3, FullWrite(0), [FullWrite(0)]);
      assert [FullWrite(0), FullWrite(0)] == [FullWrite(0)] + [FullWrite(0)];
      PlayMore(w4, FullWrite(0), []);
      assert [FullWrite(0)] + [] == [FullWrite(0)];
    }
  }

  // The same in terms of which writes work.
  lemma FullStepsEnd(w: World, a: Answer, during: seq<FileStatus>, lost: bool)
    requires w == Start(w.status) && w.status in FULL_ALLOWED
    ensures var seen := Latest(Summarizing, during);
            Play(w, FullSteps(a, during, lost)).status
            == if !Kept(seen, a, lost) then seen else if FirstWriteWorks(seen, a) && a.success then Completed
               else SummaryFailed
  {
    FullStepsPlayed(w, a, during, lost);
  }
}
