/**
  What the blocks hold: the text of a section is the answer of a call for that section, and the
  group's contents are those of the first extraction that gave all three.
*/
module BlockContents {
  import opened BlockGenerator
  import opened Wrappers

  // ---------------------------------------------------------------- the calls of one round

  predicate Answers(e: Event, i: nat) {
    e.Finish? && e.i == i
  }

  predicate HoldsText(b: Block, text: string, now: string) {
    b.status == Success && b.content == Text(text) && b.completedAt == Some(now) && b.lastError == None
  }

  // A section after a call: fifty characters or more are kept whole, anything else is a failure that
  // leaves the content alone.
  predicate Tells(before: Block, after: Block, o: SectionOutcome, now: string) {
    && after.key == before.key && after.name == before.name && after.dependsOn == before.dependsOn
    && match o
       case Written(text) =>
         if |text| >= 50 then HoldsText(after, text, now)
         else after.status == Failed && after.content == before.content && after.lastError.Some?
       case SectionRaised(error) =>
         after.status == Failed && after.content == before.content && after.lastError == Some(error)
  }

  lemma {:induction false} TasksConcat(t: Tasks, first: seq<Event>, second: seq<Event>)
    ensures RunTasks(t, first + second).0 == RunTasks(RunTasks(t, first).0, second).0
    decreases |first|
  {
    if first == [] {
      assert first + second == second;
    } else {
      assert (first + second)[0] == first[0] && (first + second)[1..] == first[1..] + second;
      TasksConcat(OnTask(t, first[0]), first[1..], second);
    }
  }

  lemma {:induction false} IdleSectionStays(t: Tasks, events: seq<Event>, i: nat)
    requires i < |t.blocks| && i !in t.waiting && i !in t.running
    ensures var last := RunTasks(t, events).0;
            |last.blocks| == |t.blocks| && last.blocks[i] == t.blocks[i] && i !in last.waiting && i !in last.running
    decreases |events|
  {
    if events != [] { IdleSectionStays(OnTask(t, events[0]), events[1..], i); }
  }

  // A section whose task runs becomes what the first answer to it says, and stays that.
  lemma {:induction false} RunningSectionIsAnswered(t: Tasks, events: seq<Event>, i: nat, k: nat)
    requires i < |t.blocks| && i in t.running && i !in t.waiting
    requires k < |events| && Answers(events[k], i) && forall j | 0 <= j < k :: !Answers(events[j], i)
    ensures var last := RunTasks(t, events).0;
            && |last.blocks| == |t.blocks| && i !in last.waiting && i !in last.running
            && Tells(t.blocks[i], last.blocks[i], events[k].outcome, events[k].now)
            && last.blocks[i].attempts == t.blocks[i].attempts
    decreases |events|
  {
    var t' := OnTask(t, events[0]);
    if k == 0 {
      IdleSectionStays(t', events[1..], i);
    } else {
      RunningSectionIsAnswered(t', events[1..], i, k - 1);
    }
  }

  lemma {:induction false} WaitingSectionStays(t: Tasks, events: seq<Event>, i: nat)
    requires i < |t.blocks| && i in t.waiting && i !in t.running && i in RunTasks(t, events).0.waiting
    ensures var last := RunTasks(t, events).0;
            |last.blocks| == |t.blocks| && last.blocks[i] == t.blocks[i] && i !in last.running
    decreases |events|
  {
    if events != [] {
      var t' := OnTask(t, events[0]);
      if i !in t'.waiting { NotWaitingAgain(t', events[1..], i); }
      WaitingSectionStays(t', events[1..], i);
    }
  }

  lemma {:induction false} NotWaitingAgain(t: Tasks, events: seq<Event>, i: nat)
    requires i !in t.waiting
    ensures i !in RunTasks(t, events).0.waiting
    decreases |events|
  {
    if events != [] { NotWaitingAgain(OnTask(t, events[0]), events[1..], i); }
  }

  lemma StartedSectionIsAnswered(t: Tasks, events: seq<Event>, i: nat, m: nat)
    requires i < |t.blocks| && i in t.waiting && i !in t.running && |t.running| < 2
    requires 0 < m < |events| && events[0] == Start(i) && Answers(events[m], i)
    requires forall j | 0 < j < m :: !Answers(events[j], i)
    ensures var last := RunTasks(t, events).0;
            && |last.blocks| == |t.blocks| && i !in last.waiting && i !in last.running
            && Tells(t.blocks[i], last.blocks[i], events[m].outcome, events[m].now)
            && last.blocks[i].attempts == t.blocks[i].attempts + 1
  {
    RunningSectionIsAnswered(OnTask(t, Start(i)), events[1..], i, m - 1);
  }

  // A waiting section that is started while fewer than two tasks run, at event k, and first
  // answered at event m: one more attempt, and what the answer says.
  lemma WaitingSectionIsAnswered(t: Tasks, events: seq<Event>, i: nat, k: nat, m: nat, u: Tasks)
    requires i < |t.blocks| && i in t.waiting && i !in t.running
    requires k < m < |events| && events[k] == Start(i) && Answers(events[m], i)
    requires forall j | k < j < m :: !Answers(events[j], i)
    requires u == RunTasks(t, events[..k]).0 && i in u.waiting && |u.running| < 2
    ensures var last := RunTasks(t, events).0;
            && |last.blocks| == |t.blocks| && i !in last.waiting && i !in last.running
            && Tells(t.blocks[i], last.blocks[i], events[m].outcome, events[m].now)
            && last.blocks[i].attempts == t.blocks[i].attempts + 1
  {
    WaitingSectionStays(t, events[..k], i);
    TasksConcat(t, events[..k], events[k..]);
    assert events == events[..k] + events[k..];
    StartedSectionIsAnswered(u, events[k..], i, m - k);
  }

  // Never more than two at a time.
  lemma {:induction false} AtMostTwoRun(t: Tasks, events: seq<Event>)
    requires |t.running| <= 2
    ensures |RunTasks(t, events).0.running| <= 2
    decreases |events|
  {
    if events != [] {
      var t' := OnTask(t, events[0]);
      assert events[0].i in t.running ==> t'.running == t.running || t'.running == t.running - {events[0].i};
      AtMostTwoRun(t', events[1..]);
    }
  }

  ghost predicate Answered(before: Block, after: Block, events: seq<Event>, i: nat) {
    exists k :: 0 <= k < |events| && Answers(events[k], i) && Tells(before, after, events[k].outcome, events[k].now)
  }

  lemma AnsweredLater(first: Block, before: Block, after: Block, events: seq<Event>, i: nat)
    requires events != [] && Answered(before, after, events[1..], i)
    requires before.key == first.key && before.name == first.name && before.dependsOn == first.dependsOn
    requires before.content == first.content
    ensures Answered(first, after, events, i)
  {
    var k :| 0 <= k < |events[1..]| && Answers(events[1..][k], i)
             && Tells(before, after, events[1..][k].outcome, events[1..][k].now);
    assert events[k + 1] == events[1..][k];
  }

  predicate Unended(t: Tasks, i: nat) {
    i in t.waiting || i in t.running
  }

  // Only an answer to the section ends its task, and nothing else touches what it holds.
  lemma TriedStep(t: Tasks, e: Event, i: nat)
    requires i < |t.blocks| && Unended(t, i) && t.waiting !! t.running
    ensures var t' := OnTask(t, e);
            && |t'.blocks| == |t.blocks| && t'.waiting !! t'.running
            && if Unended(t', i) then t'.blocks[i] == t.blocks[i].(attempts := t'.blocks[i].attempts)
               else Answers(e, i) && Tells(t.blocks[i], t'.blocks[i], e.outcome, e.now)
  {
  }

  // A section that was to be tried is as it was while its task has not ended, and otherwise as one
  // of the answers to it says.
  lemma {:induction false} TriedSection(t: Tasks, events: seq<Event>, i: nat)
    requires i < |t.blocks| && Unended(t, i) && t.waiting !! t.running
    ensures var last := RunTasks(t, events).0;
            && |last.blocks| == |t.blocks|
            && if Unended(last, i)
               then last.blocks[i].status == t.blocks[i].status && last.blocks[i].content == t.blocks[i].content
               else Answered(t.blocks[i], last.blocks[i], events, i)
    decreases |events|
  {
    if events != [] {
      var t' := OnTask(t, events[0]);
      TriedStep(t, events[0], i);
      if Unended(t', i) {
        TriedSection(t', events[1..], i);
        if !Unended(RunTasks(t', events[1..]).0, i) {
          AnsweredLater(t.blocks[i], t'.blocks[i], RunTasks(t', events[1..]).0.blocks[i], events, i);
        }
      } else {
        IdleSectionStays(t', events[1..], i);
        AnsweredAtOnce(t.blocks[i], t'.blocks[i], events, i);
      }
    }
  }

  lemma AnsweredAtOnce(before: Block, after: Block, events: seq<Event>, i: nat)
    requires events != [] && Answers(events[0], i) && Tells(before, after, events[0].outcome, events[0].now)
    ensures Answered(before, after, events, i)
  {
  }

  // ---------------------------------------------------------------- one round

  // The section before the round: as stored, or as a heading makes it.
  function SectionBefore(blocks: seq<Block>, after: seq<Block>, i: nat): Block
    requires GROUP <= i < |after|
  {
    if i < |blocks| then blocks[i]
    else Block(Section(i - GROUP), after[i].name, "long_text", Pending, Nothing, 0, None, [Headings], None)
  }

  lemma RoundParts(blocks: seq<Block>, env: RoundEnv) returns (expanded: seq<Block>, t: Tasks)
    requires |blocks| >= GROUP
    ensures expanded == Expand(AfterGroup(blocks, env.meta, env.now)) && t == Tasks(expanded, Targets(expanded), {})
    ensures |Round(blocks, env).blocks| == |expanded| >= |blocks|
    ensures Round(blocks, env).blocks == RunTasks(t, env.events).0.blocks || Targets(expanded) == {}
    ensures Targets(expanded) == {} ==> Round(blocks, env).blocks == expanded && !Round(blocks, env).killed
    ensures Targets(expanded) != {} ==>
              var last := RunTasks(t, env.events).0;
              Round(blocks, env).killed <==> last.waiting != {} || last.running != {}
    ensures forall i | GROUP <= i < |expanded| :: expanded[i] == SectionBefore(blocks, expanded, i)
  {
    expanded := Expand(AfterGroup(blocks, env.meta, env.now));
    t := Tasks(expanded, Targets(expanded), {});
    TasksLength(t, env.events);
  }

  // A finished section is left alone; any other one that has ended SUCCESS holds a whole answer, and
  // after a round that was not killed each of them is as an answer to it says.
  lemma RoundSection(blocks: seq<Block>, env: RoundEnv, i: nat)
    requires |blocks| >= GROUP && GROUP <= i < |Round(blocks, env).blocks|
    ensures var one := Round(blocks, env);
            var before, after := SectionBefore(blocks, one.blocks, i), one.blocks[i];
            && (before.status == Success ==> after == before)
            && (before.status != Success && after.status == Success ==> Answered(before, after, env.events, i))
            && (before.status != Success && one.blocks[2].status == Success && !one.killed ==>
                  Answered(before, after, env.events, i))
  {
    var expanded, t := RoundParts(blocks, env);
    var after := Round(blocks, env).blocks;
    assert expanded[i] == SectionBefore(blocks, expanded, i);
    if Targets(expanded) == {} {
      assert i !in Targets(expanded);
    } else {
      GroupIsNotTried(t, env.events);
      TasksKeepNames(t, env.events);
      assert SectionBefore(blocks, after, i) == expanded[i];
      if i in t.waiting {
        TriedSection(t, env.events, i);
      } else {
        IdleSectionStays(t, env.events, i);
      }
    }
  }

  lemma GroupIsNotTried(t: Tasks, events: seq<Event>)
    requires |t.blocks| >= GROUP && OnSections(t)
    ensures var after := RunTasks(t, events).0.blocks;
            |after| == |t.blocks| && forall i | 0 <= i < GROUP :: after[i] == t.blocks[i]
  {
    TasksKeepNames(t, events);
  }

  predicate AllGiven(o: MetaOutcome) {
    o.Parsed? && |o.title| > 0 && |o.keywords| > 0 && |o.headings| > 0
  }

  predicate HoldsGroup(blocks: seq<Block>, o: MetaOutcome, now: string)
    requires |blocks| >= GROUP
  {
    && o.Parsed?
    && blocks[0].content == Text(o.title) && blocks[1].content == Items(o.keywords)
    && blocks[2].content == Items(o.headings)
    && forall i | 0 <= i < 3 :: blocks[i].status == Success && blocks[i].completedAt == Some(now)
  }

  // A group block after an extraction that failed or gave less than all three.
  predicate MissedGroup(before: Block, after: Block) {
    if before.status == Success then after == before
    else after.status == Failed && after.content == before.content && after.attempts == before.attempts + 1
         && after.lastError.Some?
  }

  // What one round makes of the group.
  predicate GroupTold(blocks: seq<Block>, after: seq<Block>, o: MetaOutcome, now: string)
    requires |blocks| >= GROUP
  {
    && |after| >= GROUP
    && if GroupDone(blocks) then forall i | 0 <= i < 3 :: after[i] == blocks[i]
       else if AllGiven(o) then HoldsGroup(after, o, now)
       else forall i | 0 <= i < 3 :: MissedGroup(blocks[i], after[i])
  }

  lemma GroupUpdated(blocks: seq<Block>, o: MetaOutcome, now: string)
    requires |blocks| >= GROUP
    ensures GroupTold(blocks, AfterGroup(blocks, o, now), o, now)
  {
    if !GroupDone(blocks) {
      var grouped := AfterGroup(blocks, o, now);
      assert grouped[0] == GroupBlock(blocks[0], o, now, 0);
      assert grouped[1] == GroupBlock(blocks[1], o, now, 1);
      assert grouped[2] == GroupBlock(blocks[2], o, now, 2);
    }
  }

  lemma SameGroupTold(blocks: seq<Block>, grouped: seq<Block>, after: seq<Block>, o: MetaOutcome, now: string)
    requires |blocks| >= GROUP && GroupTold(blocks, grouped, o, now)
    requires |after| >= GROUP && forall i | 0 <= i < GROUP :: after[i] == grouped[i]
    ensures GroupTold(blocks, after, o, now)
  {
  }

  lemma RoundGroup(blocks: seq<Block>, env: RoundEnv)
    requires |blocks| >= GROUP
    ensures GroupTold(blocks, Round(blocks, env).blocks, env.meta, env.now)
  {
    var expanded, t := RoundParts(blocks, env);
    GroupIsNotTried(t, env.events);
    GroupUpdated(blocks, env.meta, env.now);
    SameGroupTold(blocks, AfterGroup(blocks, env.meta, env.now), Round(blocks, env).blocks, env.meta, env.now);
  }

  // ---------------------------------------------------------------- a whole run

  // One of the answers to section i, in one of these rounds, is the text it holds.
  ghost predicate FromAnswer(b: Block, env: seq<RoundEnv>, bodies: nat, i: nat) {
    exists n :: 0 <= n < |env| && n < bodies && IsAnswer(b, env[n].events, i)
  }

  ghost predicate IsAnswer(b: Block, events: seq<Event>, i: nat) {
    exists k :: 0 <= k < |events| && Answers(events[k], i) && events[k].outcome.Written?
                && |events[k].outcome.text| >= 50 && HoldsText(b, events[k].outcome.text, events[k].now)
  }

  lemma AnsweredIsAnswer(before: Block, after: Block, events: seq<Event>, i: nat)
    requires Answered(before, after, events, i) && after.status == Success
    ensures IsAnswer(after, events, i)
  {
  }

  lemma FirstBodysAnswer(b: Block, env: seq<RoundEnv>, bodies: nat, i: nat)
    requires env != [] && bodies > 0
    requires IsAnswer(b, env[0].events, i) || FromAnswer(b, env[1..], bodies - 1, i)
    ensures FromAnswer(b, env, bodies, i)
  {
    if !IsAnswer(b, env[0].events, i) {
      var n :| 0 <= n < |env[1..]| && n < bodies - 1 && IsAnswer(b, env[1..][n].events, i);
      assert env[n + 1] == env[1..][n];
    }
  }

  predicate DoneBefore(blocks: seq<Block>, i: nat) {
    i < |blocks| && blocks[i].status == Success
  }

  // What a run makes of section i.
  ghost predicate SectionTold(blocks: seq<Block>, run: Outcome, env: seq<RoundEnv>, i: nat) {
    && (DoneBefore(blocks, i) ==> i < |run.blocks| && run.blocks[i] == blocks[i])
    && (DoneBefore(run.blocks, i) && !DoneBefore(blocks, i) ==> FromAnswer(run.blocks[i], env, run.bodies, i))
  }

  lemma FirstBodySection(blocks: seq<Block>, env: seq<RoundEnv>, i: nat, run: Outcome)
    requires Startable(blocks) && GROUP <= i && env != []
    requires run.blocks == Round(blocks, env[0]).blocks && run.bodies == 1
    ensures SectionTold(blocks, run, env, i)
  {
    RoundLength(blocks, env[0]);
    if i < |run.blocks| {
      RoundSection(blocks, env[0], i);
      if !DoneBefore(blocks, i) && DoneBefore(run.blocks, i) {
        AnsweredIsAnswer(SectionBefore(blocks, run.blocks, i), run.blocks[i], env[0].events, i);
        FirstBodysAnswer(run.blocks[i], env, 1, i);
      }
    }
  }

  lemma MoreBodiesSection(blocks: seq<Block>, first: Outcome, rest: Outcome, env: seq<RoundEnv>, i: nat, run: Outcome)
    requires env != [] && first.bodies == 1 && SectionTold(blocks, first, env, i)
    requires SectionTold(first.blocks, rest, env[1..], i)
    requires run.blocks == rest.blocks && run.bodies == rest.bodies + 1
    ensures SectionTold(blocks, run, env, i)
  {
    if DoneBefore(run.blocks, i) && !DoneBefore(blocks, i) {
      if DoneBefore(first.blocks, i) {
        var n :| 0 <= n < |env| && n < 1 && IsAnswer(first.blocks[i], env[n].events, i);
      } else {
        FirstBodysAnswer(run.blocks[i], env, run.bodies, i);
      }
    }
  }

  // The first of these rounds whose extraction gave all three, if any.
  ghost predicate FirstGiven(env: seq<RoundEnv>, n: nat) {
    n < |env| && AllGiven(env[n].meta) && forall m | 0 <= m < n :: !AllGiven(env[m].meta)
  }

  // What a run makes of title, keywords and headings: untouched if they were done, otherwise those of
  // the first extraction that gave all three, and those at the start as long as none did.
  ghost predicate GroupHolds(blocks: seq<Block>, run: Outcome, env: seq<RoundEnv>)
    requires |blocks| >= GROUP
  {
    && |run.blocks| >= GROUP
    && if GroupDone(blocks) then forall i | 0 <= i < 3 :: run.blocks[i] == blocks[i]
       else
         && (forall n: nat | FirstGiven(env, n) && n < run.bodies :: HoldsGroup(run.blocks, env[n].meta, env[n].now))
         && ((forall n: nat | FirstGiven(env, n) :: n >= run.bodies) ==>
               !GroupDone(run.blocks) && forall i | 0 <= i < 3 :: run.blocks[i].content == blocks[i].content)
  }

  lemma LastBodyGroup(blocks: seq<Block>, env: seq<RoundEnv>, run: Outcome)
    requires |blocks| >= GROUP && env != [] && GroupTold(blocks, run.blocks, env[0].meta, env[0].now)
    requires run.bodies == 1
    ensures GroupHolds(blocks, run, env)
  {
    if AllGiven(env[0].meta) { assert FirstGiven(env, 0); }
  }

  lemma FirstGivenLater(env: seq<RoundEnv>, n: nat)
    requires env != [] && !AllGiven(env[0].meta)
    ensures FirstGiven(env, n) ==> n > 0 && FirstGiven(env[1..], n - 1) && env[n] == env[1..][n - 1]
    ensures FirstGiven(env[1..], n) ==> FirstGiven(env, n + 1)
  {
    assert forall m | 0 < m < |env| :: env[m] == env[1..][m - 1];
  }

  lemma MoreBodiesGroup(blocks: seq<Block>, next: seq<Block>, rest: Outcome, env: seq<RoundEnv>, run: Outcome)
    requires |blocks| >= GROUP && env != [] && run.blocks == rest.blocks && run.bodies == rest.bodies + 1
    requires GroupTold(blocks, next, env[0].meta, env[0].now) && GroupHolds(next, rest, env[1..])
    ensures GroupHolds(blocks, run, env)
  {
    if GroupDone(blocks) {
      assert GroupDone(next);
    } else if AllGiven(env[0].meta) {
      assert GroupDone(next) && FirstGiven(env, 0);
      assert forall n: nat | FirstGiven(env, n) :: n == 0;
    } else {
      assert !GroupDone(next);
      forall n: nat | FirstGiven(env, n) && n < run.bodies
        ensures HoldsGroup(run.blocks, env[n].meta, env[n].now)
      {
        FirstGivenLater(env, n);
      }
      if forall n: nat | FirstGiven(env, n) :: n >= run.bodies {
        forall n: nat | FirstGiven(env[1..], n)
          ensures n >= rest.bodies
        {
          FirstGivenLater(env, n);
          assert FirstGiven(env, n + 1);
        }
      }
    }
  }


  // Regenerating a block empties it, a group block the whole group, and leaves all others alone.
  lemma ResetEmptiesIt(blocks: seq<Block>, key: Key, i: nat)
    requires Shaped(blocks) && i < |blocks|
    ensures |Reset(blocks, key)| == |blocks|
    ensures var after := Reset(blocks, key)[i];
            if blocks[i].key == key || (i < GROUP && key in {Title, Keywords, Headings}) then
              && after.status == Pending && after.content == Nothing && after.lastError == None
              && after.completedAt == None && after.attempts == blocks[i].attempts
              && after.key == blocks[i].key && after.name == blocks[i].name
            else after == blocks[i]
  {
    if i >= GROUP { assert IsSection(blocks[i], i - GROUP); }
  }

  // ---------------------------------------------------------------- one body after the other

  ghost predicate RunTellsSection(blocks: seq<Block>, r: nat, started: int, env: seq<RoundEnv>, i: nat)
    requires |blocks| >= GROUP
  {
    SectionTold(blocks, Rounds(blocks, r, started, env), env, i)
  }

  ghost predicate RunHoldsGroup(blocks: seq<Block>, r: nat, started: int, env: seq<RoundEnv>)
    requires |blocks| >= GROUP
  {
    GroupHolds(blocks, Rounds(blocks, r, started, env), env)
  }

  lemma NoBodyTells(blocks: seq<Block>, r: nat, started: int, env: seq<RoundEnv>, i: nat)
    requires |blocks| >= GROUP && !BodyRuns(r, started, env)
    ensures RunTellsSection(blocks, r, started, env, i) && RunHoldsGroup(blocks, r, started, env)
  {
    NoBodyEndsTheRun(blocks, r, started, env);
  }

  lemma FirstBodyTellsSection(blocks: seq<Block>, r: nat, started: int, env: seq<RoundEnv>, i: nat)
      returns (next: seq<Block>, over: bool)
    requires Startable(blocks) && GROUP <= i && BodyRuns(r, started, env)
    ensures over ==> RunTellsSection(blocks, r, started, env, i)
    ensures !over ==> Startable(next)
    ensures !over && RunTellsSection(next, r + 1, started, env[1..], i) ==> RunTellsSection(blocks, r, started, env, i)
  {
    var run := Rounds(blocks, r, started, env);
    next := Round(blocks, env[0]).blocks;
    over := EndingAfter(Round(blocks, env[0])).Some?;
    var first := run.(blocks := next, bodies := 1);
    FirstBodySection(blocks, env, i, first);
    RoundsStep(blocks, r, started, env);
    RoundIsStartable(blocks, env[0]);
    if over {
      FirstBodySection(blocks, env, i, run);
    } else if RunTellsSection(next, r + 1, started, env[1..], i) {
      MoreBodiesSection(blocks, first, Rounds(next, r + 1, started, env[1..]), env, i, run);
    }
  }

  lemma FirstBodyHoldsGroup(blocks: seq<Block>, r: nat, started: int, env: seq<RoundEnv>)
      returns (next: seq<Block>, over: bool)
    requires |blocks| >= GROUP && BodyRuns(r, started, env)
    ensures over ==> RunHoldsGroup(blocks, r, started, env)
    ensures |next| >= GROUP
    ensures !over && RunHoldsGroup(next, r + 1, started, env[1..]) ==> RunHoldsGroup(blocks, r, started, env)
  {
    var run := Rounds(blocks, r, started, env);
    next := Round(blocks, env[0]).blocks;
    over := EndingAfter(Round(blocks, env[0])).Some?;
    RoundGroup(blocks, env[0]);
    RoundsStep(blocks, r, started, env);
    if over {
      LastBodyGroup(blocks, env, run);
    } else if RunHoldsGroup(next, r + 1, started, env[1..]) {
      MoreBodiesGroup(blocks, next, Rounds(next, r + 1, started, env[1..]), env, run);
    }
  }

  // ---------------------------------------------------------------- what was saved

  // Every block that is SUCCESS, and was not before, is SUCCESS in the last saved state, a section
  // with the text it has.
  ghost predicate LastSaveHolds(blocks: seq<Block>, saved: seq<seq<Block>>, after: seq<Block>) {
    forall i: nat | DoneBefore(after, i) && !DoneBefore(blocks, i) ::
      saved != [] && IsIn(after[i], saved[|saved| - 1], i)
  }

  predicate IsIn(b: Block, state: seq<Block>, i: nat) {
    DoneBefore(state, i) && (i >= GROUP ==> state[i] == b)
  }

  lemma {:induction false} LastTaskState(t: Tasks, events: seq<Event>)
    requires events != []
    ensures var (last, saved) := RunTasks(t, events); saved != [] && saved[|saved| - 1] == last.blocks
    decreases |events|
  {
    var t' := OnTask(t, events[0]);
    var more := RunTasks(t', events[1..]).1;
    if events[1..] != [] {
      LastTaskState(t', events[1..]);
      assert ([t'.blocks] + more)[|more|] == more[|more| - 1];
    }
  }

  lemma LastGroupSave(blocks: seq<Block>, o: MetaOutcome, now: string)
    requires |blocks| >= GROUP && AllGiven(o)
    ensures var saves := GroupSaves(blocks, o, now, GROUP);
            saves != [] && saves[|saves| - 1] == GroupUpTo(blocks, o, now, GROUP)
  {
  }

  // Before the tasks ran, nothing but the group can have become SUCCESS.
  lemma OnlyTheGroupIsNew(blocks: seq<Block>, env: RoundEnv, i: nat)
    requires |blocks| >= GROUP && !DoneBefore(blocks, i)
    requires DoneBefore(Expand(AfterGroup(blocks, env.meta, env.now)), i)
    ensures i < GROUP && !GroupDone(blocks) && AllGiven(env.meta)
    ensures GroupUpTo(blocks, env.meta, env.now, GROUP)[i].status == Success
  {
    var expanded, t := RoundParts(blocks, env);
    GroupUpdated(blocks, env.meta, env.now);
    assert forall j | 0 <= j < GROUP :: expanded[j] == AfterGroup(blocks, env.meta, env.now)[j];
  }

  lemma GroupIsSaved(blocks: seq<Block>, env: RoundEnv)
    requires |blocks| >= GROUP
    ensures LastSaveHolds(blocks, if GroupDone(blocks) then [] else GroupSaves(blocks, env.meta, env.now, GROUP),
                          Expand(AfterGroup(blocks, env.meta, env.now)))
  {
    var expanded := Expand(AfterGroup(blocks, env.meta, env.now));
    var saves := if GroupDone(blocks) then [] else GroupSaves(blocks, env.meta, env.now, GROUP);
    forall i: nat | DoneBefore(expanded, i) && !DoneBefore(blocks, i)
      ensures saves != [] && IsIn(expanded[i], saves[|saves| - 1], i)
    {
      OnlyTheGroupIsNew(blocks, env, i);
      LastGroupSave(blocks, env.meta, env.now);
    }
  }

  lemma RoundIsSaved(blocks: seq<Block>, env: RoundEnv)
    requires |blocks| >= GROUP
    ensures LastSaveHolds(blocks, Round(blocks, env).saved, Round(blocks, env).blocks)
  {
    var expanded, t := RoundParts(blocks, env);
    var saves := if GroupDone(blocks) then [] else GroupSaves(blocks, env.meta, env.now, GROUP);
    GroupIsSaved(blocks, env);
    if Targets(expanded) != {} && env.events != [] {
      LastTaskState(t, env.events);
      var more := RunTasks(t, env.events).1;
      assert (saves + more)[|saves + more| - 1] == more[|more| - 1];
    } else {
      assert saves + [] == saves;
    }
  }

  lemma MoreRoundsSaved(blocks: seq<Block>, first: seq<seq<Block>>, next: seq<Block>, rest: seq<seq<Block>>,
                        after: seq<Block>)
    requires |next| >= GROUP && LastSaveHolds(blocks, first, next) && LastSaveHolds(next, rest, after)
    requires Follows(next, after) && forall k | 0 <= k < |rest| :: Follows(next, rest[k])
    ensures LastSaveHolds(blocks, first + rest, after)
  {
    forall i: nat | DoneBefore(after, i) && !DoneBefore(blocks, i)
      ensures first + rest != [] && IsIn(after[i], (first + rest)[|first + rest| - 1], i)
    {
      if rest == [] {
        assert first + rest == first;
        assert DoneBefore(next, i);
      } else {
        assert (first + rest)[|first + rest| - 1] == rest[|rest| - 1];
        if DoneBefore(next, i) { assert Follows(next, rest[|rest| - 1]); }
      }
    }
  }

  lemma RoundsSaves(blocks: seq<Block>, r: nat, started: int, env: seq<RoundEnv>)
    requires |blocks| >= GROUP && BodyRuns(r, started, env)
    ensures var one, run := Round(blocks, env[0]), Rounds(blocks, r, started, env);
            && |one.blocks| >= GROUP
            && match EndingAfter(one)
               case Some(ending) => run.blocks == one.blocks && run.saved == one.saved
               case None =>
                 var rest := Rounds(one.blocks, r + 1, started, env[1..]);
                 run.blocks == rest.blocks && run.saved == one.saved + rest.saved
  {
    RoundLength(blocks, env[0]);
  }

  // ---------------------------------------------------------------- how a run ends

  // Its bodies started within thirty minutes, and it ended by the time cap only after them.
  ghost predicate KeepsTheCap(started: int, env: seq<RoundEnv>, run: Outcome) {
    && run.bodies <= |env| && (forall k | 0 <= k < run.bodies :: env[k].clock - started <= 30 * 60)
    && (run.ending == TimeCap ==> run.bodies < |env| && env[run.bodies].clock - started > 30 * 60)
  }

  lemma MoreBodiesKeepTheCap(started: int, env: seq<RoundEnv>, rest: Outcome, run: Outcome)
    requires env != [] && env[0].clock - started <= 30 * 60 && KeepsTheCap(started, env[1..], rest)
    requires run.bodies == rest.bodies + 1 && run.ending == rest.ending
    ensures KeepsTheCap(started, env, run)
  {
    assert forall k | 0 < k < |env| :: env[k] == env[1..][k - 1];
  }

  lemma NoBodyKeepsTheCap(blocks: seq<Block>, r: nat, started: int, env: seq<RoundEnv>)
    requires |blocks| >= GROUP && !BodyRuns(r, started, env)
    ensures KeepsTheCap(started, env, Rounds(blocks, r, started, env))
  {
  }

  lemma EndingIsNotTheCap(one: RoundResult)
    ensures EndingAfter(one) != Some(TimeCap)
  {
  }

  // The round number stored with the state: that of the last body, or of the check that ended the run.
  predicate StoresRound(r: nat, run: Outcome) {
    && run.round <= 10 && (run.round == r - 1 + run.bodies || run.round == r + run.bodies)
    && (run.ending in {AllDone, NothingLeft, OutOfRounds} ==> run.round == r - 1 + run.bodies)
    && (run.ending == TimeCap ==> run.round == r + run.bodies)
  }

  lemma NoBodyStoresRound(blocks: seq<Block>, r: nat, started: int, env: seq<RoundEnv>)
    requires |blocks| >= GROUP && !BodyRuns(r, started, env) && 1 <= r <= 11
    ensures StoresRound(r, Rounds(blocks, r, started, env))
  {
  }

  lemma FirstBodyStoresRound(blocks: seq<Block>, r: nat, started: int, env: seq<RoundEnv>)
      returns (next: seq<Block>, over: bool)
    requires |blocks| >= GROUP && BodyRuns(r, started, env) && 1 <= r
    ensures over ==> StoresRound(r, Rounds(blocks, r, started, env))
    ensures |next| >= GROUP && r <= 10
    ensures !over && StoresRound(r + 1, Rounds(next, r + 1, started, env[1..])) ==>
              StoresRound(r, Rounds(blocks, r, started, env))
  {
    next, over := Round(blocks, env[0]).blocks, EndingAfter(Round(blocks, env[0])).Some?;
    RoundLength(blocks, env[0]);
    EndingIsNotTheCap(Round(blocks, env[0]));
  }

  // One call after the other, for sections from i on.
  function OneByOne(i: nat, texts: seq<string>, now: string): seq<Event>
    decreases |texts|
  {
    if texts == [] then [] else [Start(i), Finish(i, Written(texts[0]), now)] + OneByOne(i + 1, texts[1..], now)
  }

  lemma OneIsServed(t: Tasks, i: nat, text: string, now: string, rest: seq<Event>) returns (after: Tasks)
    requires t.running == {} && i < |t.blocks| && |text| >= 50
    ensures RunTasks(t, [Start(i), Finish(i, Written(text), now)] + rest).0 == RunTasks(after, rest).0
    ensures |after.blocks| == |t.blocks| && after.running == {} && after.waiting == t.waiting - {i}
    ensures i in t.waiting ==> HoldsText(after.blocks[i], text, now)
    ensures forall j | 0 <= j < |t.blocks| && (j != i || i !in t.waiting) :: after.blocks[j] == t.blocks[j]
  {
    var t1 := OnTask(t, Start(i));
    after := OnTask(t1, Finish(i, Written(text), now));
    var events := [Start(i), Finish(i, Written(text), now)] + rest;
    assert events[1..][0] == Finish(i, Written(text), now) && events[1..][1..] == rest;
  }

  // The tasks have ended: those that waited hold their texts, and nothing else has changed.
  ghost predicate Served(t: Tasks, i: nat, texts: seq<string>, now: string, last: Tasks)
    requires i + |texts| == |t.blocks| && forall j | j in t.waiting :: i <= j < |t.blocks|
  {
    && last.waiting == {} && last.running == {} && |last.blocks| == |t.blocks|
    && forall j | 0 <= j < |t.blocks| ::
         if j in t.waiting then HoldsText(last.blocks[j], texts[j - i], now) else last.blocks[j] == t.blocks[j]
  }

  lemma ServedMore(t: Tasks, after: Tasks, i: nat, texts: seq<string>, now: string, last: Tasks)
    requires texts != [] && i + |texts| == |t.blocks| == |after.blocks| && after.waiting == t.waiting - {i}
    requires forall j | j in t.waiting :: i <= j < |t.blocks|
    requires i in t.waiting ==> HoldsText(after.blocks[i], texts[0], now)
    requires forall j | 0 <= j < |t.blocks| && (j != i || i !in t.waiting) :: after.blocks[j] == t.blocks[j]
    requires Served(after, i + 1, texts[1..], now, last)
    ensures Served(t, i, texts, now, last)
  {
    assert forall k | 0 <= k < |texts| - 1 :: texts[1..][k] == texts[k + 1];
    forall j | 0 <= j < |t.blocks|
      ensures if j in t.waiting then HoldsText(last.blocks[j], texts[j - i], now) else last.blocks[j] == t.blocks[j]
    {
      if j in t.waiting && j != i { assert texts[j - i] == texts[1..][j - i - 1]; }
    }
  }

  lemma {:induction false} OneByOneSettles(t: Tasks, i: nat, texts: seq<string>, now: string)
    requires t.running == {} && i + |texts| == |t.blocks| && (forall j | j in t.waiting :: i <= j < |t.blocks|)
    requires forall k | 0 <= k < |texts| :: |texts[k]| >= 50
    ensures Served(t, i, texts, now, RunTasks(t, OneByOne(i, texts, now)).0)
    decreases |texts|
  {
    if texts != [] {
      var after := OneIsServed(t, i, texts[0], now, OneByOne(i + 1, texts[1..], now));
      OneByOneSettles(after, i + 1, texts[1..], now);
      ServedMore(t, after, i, texts, now, RunTasks(after, OneByOne(i + 1, texts[1..], now)).0);
    } else {
      assert t.waiting == {};
    }
  }

  lemma GoodExpansion(blocks: seq<Block>, env: RoundEnv, n: nat) returns (t: Tasks)
    requires Startable(blocks) && (GroupDone(blocks) || AllGiven(env.meta))
    requires n == if |blocks| > GROUP then |blocks| - GROUP
                  else if GroupDone(blocks) then |HeadingsOf(blocks)| else |env.meta.headings|
    ensures |t.blocks| == GROUP + n && t.running == {} && (forall i | 0 <= i < 3 :: t.blocks[i].status == Success)
    ensures forall i: nat :: i in t.waiting <==> GROUP <= i < |t.blocks| && !DoneBefore(blocks, i)
    ensures forall i | GROUP <= i < |t.blocks| :: !DoneBefore(blocks, i) || t.blocks[i].status == Success
    ensures t.waiting == {} ==> Round(blocks, env).blocks == t.blocks && !Round(blocks, env).killed
    ensures t.waiting != {} ==>
              var last := RunTasks(t, env.events).0;
              && Round(blocks, env).blocks == last.blocks
              && (Round(blocks, env).killed <==> last.waiting != {} || last.running != {})
  {
    var expanded;
    expanded, t := RoundParts(blocks, env);
    GroupUpdated(blocks, env.meta, env.now);
    assert forall i | 0 <= i < 3 :: expanded[i] == AfterGroup(blocks, env.meta, env.now)[i];
    forall i | GROUP <= i < |expanded|
      ensures i in t.waiting <==> !DoneBefore(blocks, i)
      ensures DoneBefore(blocks, i) ==> expanded[i].status == Success
    {
      assert expanded[i] == SectionBefore(blocks, expanded, i);
    }
  }

  lemma GoodRound(blocks: seq<Block>, env: RoundEnv, texts: seq<string>)
    requires Startable(blocks) && (GroupDone(blocks) || AllGiven(env.meta))
    requires |texts| == if |blocks| > GROUP then |blocks| - GROUP
                        else if GroupDone(blocks) then |HeadingsOf(blocks)| else |env.meta.headings|
    requires forall k | 0 <= k < |texts| :: |texts[k]| >= 50
    requires env.events == OneByOne(GROUP, texts, env.now)
    ensures var one := Round(blocks, env);
            && !one.killed && AllSuccess(one.blocks) && |one.blocks| == GROUP + |texts|
            && forall i | GROUP <= i < |one.blocks| && !DoneBefore(blocks, i) ::
                 HoldsText(one.blocks[i], texts[i - GROUP], env.now)
  {
    var t := GoodExpansion(blocks, env, |texts|);
    OneByOneSettles(t, GROUP, texts, env.now);
    var after := Round(blocks, env).blocks;
    assert after == RunTasks(t, env.events).0.blocks || (t.waiting == {} && after == t.blocks);
  }
}
