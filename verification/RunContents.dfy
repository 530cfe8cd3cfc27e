/** What a whole run of the engine leaves in its blocks, what it has saved, and how it ends. */
module RunContents {
  import opened BlockContents
  import opened BlockGenerator
  import opened Wrappers

  // Over all rounds and interleavings: a section that was SUCCESS is returned as it was, and one that
  // became SUCCESS is returned with the whole text of an answer to it, of at least 50 characters.
  lemma {:induction false} SectionsHoldTheirAnswers(blocks: seq<Block>, r: nat, started: int, env: seq<RoundEnv>,
                                                    i: nat)
    requires Startable(blocks) && GROUP <= i
    ensures RunTellsSection(blocks, r, started, env, i)
    decreases |env|
  {
    if BodyRuns(r, started, env) {
      var next, over := FirstBodyTellsSection(blocks, r, started, env, i);
      if !over { SectionsHoldTheirAnswers(next, r + 1, started, env[1..], i); }
    } else {
      NoBodyTells(blocks, r, started, env, i);
    }
  }

  // Title, keywords and headings, over all rounds and answers: untouched if they were done, otherwise
  // those of the first extraction that gave all three, and those at the start as long as none did.
  lemma {:induction false} GroupHoldsFirstAnswer(blocks: seq<Block>, r: nat, started: int, env: seq<RoundEnv>)
    requires |blocks| >= GROUP
    ensures RunHoldsGroup(blocks, r, started, env)
    decreases |env|
  {
    if BodyRuns(r, started, env) {
      var next, over := FirstBodyHoldsGroup(blocks, r, started, env);
      if !over { GroupHoldsFirstAnswer(next, r + 1, started, env[1..]); }
    } else {
      NoBodyTells(blocks, r, started, env, GROUP);
    }
  }

  // Whatever a run found is in the last state it handed to the callback.
  lemma {:induction false} NothingFoundIsUnsaved(blocks: seq<Block>, r: nat, started: int, env: seq<RoundEnv>)
    requires Startable(blocks)
    ensures var run := Rounds(blocks, r, started, env); LastSaveHolds(blocks, run.saved, run.blocks)
    decreases |env|
  {
    if BodyRuns(r, started, env) {
      var one := Round(blocks, env[0]);
      RoundIsSaved(blocks, env[0]);
      RoundsSaves(blocks, r, started, env);
      if EndingAfter(one).None? {
        RoundIsStartable(blocks, env[0]);
        var rest := Rounds(one.blocks, r + 1, started, env[1..]);
        NothingFoundIsUnsaved(one.blocks, r + 1, started, env[1..]);
        EveryStateIsConsistent(one.blocks, r + 1, started, env[1..], false);
        MoreRoundsSaved(blocks, one.saved, one.blocks, rest.saved, rest.blocks);
      }
    } else {
      NoBodyEndsTheRun(blocks, r, started, env);
    }
  }

  // A body starts only within thirty minutes, and the time cap is named only after them.
  lemma {:induction false} TheCapIsThirtyMinutes(blocks: seq<Block>, r: nat, started: int, env: seq<RoundEnv>)
    requires |blocks| >= GROUP
    ensures KeepsTheCap(started, env, Rounds(blocks, r, started, env))
    decreases |env|
  {
    if BodyRuns(r, started, env) {
      var one, run := Round(blocks, env[0]), Rounds(blocks, r, started, env);
      RoundsStep(blocks, r, started, env);
      EndingIsNotTheCap(one);
      if EndingAfter(one).None? {
        TheCapIsThirtyMinutes(one.blocks, r + 1, started, env[1..]);
        MoreBodiesKeepTheCap(started, env, Rounds(one.blocks, r + 1, started, env[1..]), run);
      }
    } else {
      NoBodyKeepsTheCap(blocks, r, started, env);
    }
  }

  lemma {:induction false} StoredRound(blocks: seq<Block>, r: nat, started: int, env: seq<RoundEnv>)
    requires |blocks| >= GROUP && 1 <= r <= 11
    ensures StoresRound(r, Rounds(blocks, r, started, env))
    decreases |env|
  {
    if BodyRuns(r, started, env) {
      var next, over := FirstBodyStoresRound(blocks, r, started, env);
      if !over { StoredRound(next, r + 1, started, env[1..]); }
    } else {
      NoBodyStoresRound(blocks, r, started, env);
    }
  }

  // If the extraction gives all three, or the group is done, and every section is answered with fifty
  // characters or more, a run that starts in time is complete after its first round.
  lemma GoodAnswersComplete(blocks: seq<Block>, started: int, env: seq<RoundEnv>, texts: seq<string>)
    requires Startable(blocks) && env != [] && env[0].clock - started <= 30 * 60
    requires GroupDone(blocks) || AllGiven(env[0].meta)
    requires |texts| == if |blocks| > GROUP then |blocks| - GROUP
                        else if GroupDone(blocks) then |HeadingsOf(blocks)| else |env[0].meta.headings|
    requires forall k | 0 <= k < |texts| :: |texts[k]| >= 50
    requires env[0].events == OneByOne(GROUP, texts, env[0].now)
    ensures var run := Rounds(blocks, 1, started, env);
            && run.bodies == 1 && run.ending in {AllDone, NothingLeft} && AllSuccess(run.blocks)
            && |run.blocks| == GROUP + |texts|
            && forall i | GROUP <= i < |run.blocks| && !DoneBefore(blocks, i) ::
                 HoldsText(run.blocks[i], texts[i - GROUP], env[0].now)
  {
    GoodRound(blocks, env[0], texts);
    RoundsStep(blocks, 1, started, env);
    if !Round(blocks, env[0]).progressed { IdleRoundIsComplete(blocks, env[0]); }
  }
}
