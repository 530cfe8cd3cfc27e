/**
  The engine that owns the blocks and updates them in place, step by step, and hands every new
  state to the persistence callback.
*/
module BlockEngine {
  import opened BlockGenerator
  import opened Wrappers

  class Engine {
    var blocks: seq<Block>
    var round: nat
    var saved: seq<seq<Block>>

    constructor (initial: Option<seq<Block>>)
      ensures blocks == (if initial.Some? then initial.value else InitBlocks()) && round == 0 && saved == []
    {
      blocks := if initial.Some? then initial.value else InitBlocks();
      round, saved := 0, [];
    }

    method Save()
      modifies this`saved
      ensures saved == old(saved) + [blocks]
    {
      saved := saved + [blocks];
    }

    method BumpTargets(o: MetaOutcome, now: string)
      requires |blocks| >= GROUP
      modifies this`blocks
      ensures blocks == GroupUpTo(old(blocks), o, now, 0)
    {
      ghost var was := blocks;
      for i := 0 to GROUP
        invariant |blocks| == |was|
        invariant forall j | 0 <= j < |was| :: blocks[j] == if j < i then BumpUnfinished(was[j]) else was[j]
      {
        if blocks[i].status != Success {
          blocks := blocks[i := Bump(blocks[i])];
        }
      }
    }

    // The extraction raised: all targets are failed first, then each is saved.
    method RecordRaised(o: MetaOutcome, now: string, ghost was: seq<Block>)
      requires o.MetaRaised? && |was| >= GROUP && blocks == GroupUpTo(was, o, now, 0)
      modifies this`blocks, this`saved
      ensures blocks == GroupUpTo(was, o, now, GROUP)
      ensures saved == old(saved) + GroupSaves(was, o, now, GROUP)
    {
      for i := 0 to GROUP
        invariant blocks == GroupUpTo(was, o, now, i)
        invariant saved == old(saved)
      {
        if blocks[i].status != Success {
          blocks := blocks[i := MarkFailed(blocks[i], "metadata extraction failed: " + o.error)];
        }
        assert blocks == GroupUpTo(was, o, now, i + 1);
      }
      for i := 0 to GROUP
        invariant blocks == GroupUpTo(was, o, now, GROUP)
        invariant saved == old(saved) + GroupSaves(was, o, now, i)
      {
        assert blocks[i].status == Success <==> was[i].status == Success;
        if blocks[i].status != Success {
          Save();
        }
      }
    }

    method RecordParsed(o: MetaOutcome, now: string, ghost was: seq<Block>)
      requires o.Parsed? && |was| >= GROUP && blocks == GroupUpTo(was, o, now, 0)
      modifies this`blocks, this`saved
      ensures blocks == GroupUpTo(was, o, now, GROUP)
      ensures saved == old(saved) + GroupSaves(was, o, now, GROUP)
    {
      var complete := Complete(o);
      for i := 0 to GROUP
        invariant blocks == GroupUpTo(was, o, now, i)
        invariant saved == old(saved) + GroupSaves(was, o, now, i)
      {
        if complete || blocks[i].status != Success {
          blocks := blocks[i := if complete then MarkSuccess(blocks[i], GroupValue(o, i), now)
                                else MarkFailed(blocks[i], MISSING)];
          assert blocks == GroupUpTo(was, o, now, i + 1);
          Save();
        } else {
          assert blocks == GroupUpTo(was, o, now, i + 1);
        }
      }
    }

    method RunMetadataGroup(o: MetaOutcome, now: string) returns (progressed: bool)
      requires |blocks| >= GROUP
      modifies this`blocks, this`saved
      ensures progressed == !GroupDone(old(blocks))
      ensures blocks == AfterGroup(old(blocks), o, now)
      ensures saved == old(saved) + if progressed then GroupSaves(old(blocks), o, now, GROUP) else []
    {
      if GroupDone(blocks) {
        return false;
      }
      ghost var was := blocks;
      BumpTargets(o, now);
      if o.MetaRaised? {
        RecordRaised(o, now, was);
      } else {
        RecordParsed(o, now, was);
      }
      progressed := true;
    }

    method ExpandDynamicBlocks()
      requires |blocks| >= GROUP
      modifies this`blocks
      ensures blocks == Expand(old(blocks))
    {
      if blocks[2].status != Success || |blocks| > GROUP {
        return;
      }
      var headings := HeadingsOf(blocks);
      for i := 0 to |headings|
        invariant blocks == old(blocks) + seq(i, k requires 0 <= k < i => NewSection(k, headings[k]))
      {
        blocks := blocks + [NewSection(i, headings[i])];
      }
    }

    // The tasks of one round, in the order the event loop happens to run them.
    method RunSections(events: seq<Event>) returns (progressed: bool, killed: bool)
      requires |blocks| >= GROUP
      modifies this`blocks, this`saved
      ensures progressed == (Targets(old(blocks)) != {})
      ensures !progressed ==> !killed && blocks == old(blocks) && saved == old(saved)
      ensures var (last, more) := TasksOf(old(blocks), events);
              progressed ==> blocks == last.blocks && saved == old(saved) + more
                             && killed == (last.waiting != {} || last.running != {})
    {
      var t := Tasks(blocks, Targets(blocks), {});
      progressed, killed := t.waiting != {}, false;
      if !progressed {
        return;
      }
      ghost var goal := RunTasks(t, events);
      assert events[0..] == events;
      for i := 0 to |events|
        invariant t.blocks == blocks && old(saved) <= saved
        invariant TasksAhead(goal, saved[|old(saved)|..], t, events[i..])
      {
        NextTask(goal, saved[|old(saved)|..], t, events, i);
        ghost var said := saved[|old(saved)|..];
        t := OnTask(t, events[i]);
        blocks := t.blocks;
        Save();
        assert saved[|old(saved)|..] == said + [blocks];
      }
      killed := t.waiting != {} || t.running != {};
    }

    method RunRound(env: RoundEnv) returns (progressed: bool, killed: bool)
      requires |blocks| >= GROUP
      modifies this`blocks, this`saved
      ensures var one := Round(old(blocks), env);
              blocks == one.blocks && saved == old(saved) + one.saved && progressed == one.progressed
              && killed == one.killed
    {
      progressed := RunMetadataGroup(env.meta, env.now);
      ExpandDynamicBlocks();
      ghost var expanded := blocks;
      var tried;
      tried, killed := RunSections(env.events);
      RoundComposed(old(blocks), env, expanded, TasksOf(expanded, env.events));
      progressed := progressed || tried;
    }

    // A round's body and the two tests that may end the run after it.
    method RunBody(env: RoundEnv) returns (stop: Option<Ending>)
      requires |blocks| >= GROUP
      modifies this`blocks, this`saved
      ensures blocks == Round(old(blocks), env).blocks
      ensures saved == old(saved) + Round(old(blocks), env).saved
      ensures stop == EndingAfter(Round(old(blocks), env))
    {
      var progressed, killed := RunRound(env);
      stop := if killed then Some(Killed)
              else if !progressed then Some(NothingLeft)
              else if AllSuccess(blocks) then Some(AllDone)
              else None;
    }

    // One pass of the loop: the time check, the body and the tests after it. `goal` is the whole run.
    method RunOnce(r: nat, started: int, env: seq<RoundEnv>, ghost goal: Outcome) returns (stop: Option<Ending>)
      requires r <= MAX_ROUNDS && OnCourse(goal, saved, blocks, r, started, env, None, round)
      modifies this
      ensures OnCourse(goal, saved, blocks, r + 1, started, env, stop, round)
    {
      round := r;
      if r > |env| {
        StopsAtCheck(goal, saved, blocks, r, started, env);
        return Some(Killed);
      }
      if env[r - 1].clock - started > MAX_TOTAL_SECONDS {
        StopsAtCheck(goal, saved, blocks, r, started, env);
        return Some(TimeCap);
      }
      NextRound(goal, saved, blocks, r, started, env);
      stop := RunBody(env[r - 1]);
    }

    method RunRounds(started: int, env: seq<RoundEnv>, ghost goal: Outcome) returns (ending: Ending)
      requires OnCourse(goal, saved, blocks, 1, started, env, None, round)
      modifies this
      ensures Finished(goal, blocks, saved, ending, round)
    {
      var r := 1;
      var stop: Option<Ending> := None;
      while r <= MAX_ROUNDS && stop.None?
        invariant OnCourse(goal, saved, blocks, r, started, env, stop, round)
      {
        stop := RunOnce(r, started, env, goal);
        r := r + 1;
      }
      LoopEnds(goal, saved, blocks, r, started, env, stop, round);
      ending := if stop.Some? then stop.value else OutOfRounds;
    }

    // One whole run. `started` is the clock when it began, `env` what each round meets.
    method Generate(started: int, env: seq<RoundEnv>) returns (ending: Ending)
      requires |blocks| >= GROUP && saved == []
      modifies this
      ensures Finished(Rounds(old(blocks), 1, started, env), blocks, saved, ending, round)
    {
      ghost var goal := Rounds(blocks, 1, started, env);
      RunIsAhead(blocks, started, env, round);
      ending := RunRounds(started, env, goal);
    }
  }

  function TasksOf(expanded: seq<Block>, events: seq<Event>): (Tasks, seq<seq<Block>>) {
    RunTasks(Tasks(expanded, Targets(expanded), {}), events)
  }

  lemma RoundComposed(blocks: seq<Block>, env: RoundEnv, expanded: seq<Block>, ran: (Tasks, seq<seq<Block>>))
    requires |blocks| >= GROUP && expanded == Expand(AfterGroup(blocks, env.meta, env.now))
    requires ran == TasksOf(expanded, env.events)
    ensures var saves := if GroupDone(blocks) then [] else GroupSaves(blocks, env.meta, env.now, GROUP);
            Round(blocks, env) ==
            if Targets(expanded) == {} then RoundResult(expanded, saves, !GroupDone(blocks), false)
            else RoundResult(ran.0.blocks, saves + ran.1, true, ran.0.waiting != {} || ran.0.running != {})
  {
  }

  // The tasks of the round end as the rest of them does, and save what was saved so far and the rest.
  ghost predicate TasksAhead(goal: (Tasks, seq<seq<Block>>), said: seq<seq<Block>>, t: Tasks, events: seq<Event>) {
    goal.0 == RunTasks(t, events).0 && goal.1 == said + RunTasks(t, events).1
  }

  lemma NextTask(goal: (Tasks, seq<seq<Block>>), said: seq<seq<Block>>, t: Tasks, events: seq<Event>, i: nat)
    requires i < |events| && TasksAhead(goal, said, t, events[i..])
    ensures var t' := OnTask(t, events[i]); TasksAhead(goal, said + [t'.blocks], t', events[i + 1..])
  {
    var t' := OnTask(t, events[i]);
    assert events[i..][1..] == events[i + 1..];
    var rest := RunTasks(t', events[i + 1..]).1;
    assert said + ([t'.blocks] + rest) == (said + [t'.blocks]) + rest;
  }
}
