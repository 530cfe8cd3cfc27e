/**
  The summary engine over the default template: the group title/keywords/headings extracted in
  one call, then one section block per heading, retried round by round under a time cap.
  What the gateway answers, how section tasks interleave and what the clock shows is given to the
  engine as data; a schedule that stops short is a process that was killed there.
*/
module BlockGenerator {
  import opened Wrappers

  const MAX_ROUNDS: nat := 10
  const MAX_TOTAL_SECONDS: int := 30 * 60
  const ROUND_BACKOFF_SECONDS: seq<int> := [5, 30, 120, 300, 600]
  const SECTION_MIN_LENGTH: nat := 50
  const SECTION_CONCURRENCY: nat := 2

  datatype BlockStatus = Pending | Success | Failed

  datatype Key = Title | Keywords | Headings | Section(index: nat)

  datatype Value = Nothing | Text(text: string) | Items(items: seq<string>)

  datatype Block = Block(
    key: Key,
    name: string,
    kind: string,
    status: BlockStatus,
    content: Value,
    attempts: nat,
    lastError: Option<string>,
    dependsOn: seq<Key>,
    completedAt: Option<string>)

  const GROUP: nat := 3

  predicate GroupDone(blocks: seq<Block>)
    requires |blocks| >= GROUP
  {
    forall i | 0 <= i < GROUP :: blocks[i].status == Success
  }

  predicate IsSection(b: Block, index: nat) {
    b.key == Section(index) && b.dependsOn == [Headings]
  }

  // The shape of every state the engine builds.
  predicate Shaped(blocks: seq<Block>) {
    && |blocks| >= GROUP
    && blocks[0].key == Title && blocks[1].key == Keywords && blocks[2].key == Headings
    && forall i | GROUP <= i < |blocks| :: IsSection(blocks[i], i - GROUP)
  }

  function HeadingsOf(blocks: seq<Block>): seq<string>
    requires |blocks| >= GROUP
  {
    if blocks[2].content.Items? then blocks[2].content.items else []
  }

  // One section per heading, under the heading's own name.
  predicate Aligned(blocks: seq<Block>)
    requires |blocks| >= GROUP
  {
    && |blocks| - GROUP == |HeadingsOf(blocks)|
    && forall i | GROUP <= i < |blocks| :: blocks[i].name == HeadingsOf(blocks)[i - GROUP]
  }

  // What every state satisfies that the engine is started from or saves, also after its group was
  // reset under existing sections.
  predicate Startable(blocks: seq<Block>) {
    && Shaped(blocks)
    && (blocks[2].status == Success ==> GroupDone(blocks) && (HeadingsOf(blocks) != [] || |blocks| > GROUP))
    && forall i | GROUP <= i < |blocks| :: LongEnough(blocks[i])
  }

  // As long as no group block was regenerated under sections: one section per heading.
  predicate Consistent(blocks: seq<Block>) {
    && Shaped(blocks)
    && (blocks[2].status == Success ==> GroupDone(blocks) && HeadingsOf(blocks) != [])
    && (|blocks| > GROUP ==> blocks[2].status == Success && Aligned(blocks))
    && forall i | GROUP <= i < |blocks| :: LongEnough(blocks[i])
  }

  predicate Sound(blocks: seq<Block>, aligned: bool) {
    Startable(blocks) && (aligned ==> Consistent(blocks))
  }

  predicate LongEnough(b: Block) {
    b.status == Success ==> b.content.Text? && |b.content.text| >= SECTION_MIN_LENGTH
  }

  predicate AllSuccess(blocks: seq<Block>) {
    |blocks| > GROUP && forall b | b in blocks :: b.status == Success
  }

  // ---------------------------------------------------------------- one round

  datatype MetaOutcome = MetaRaised(error: string) | Parsed(title: string, keywords: seq<string>, headings: seq<string>)

  predicate Complete(o: MetaOutcome) {
    o.Parsed? && o.title != "" && o.keywords != [] && o.headings != []
  }

  function Bump(b: Block): Block {
    b.(attempts := b.attempts + 1)
  }

  function BumpUnfinished(b: Block): Block {
    if b.status == Success then b else Bump(b)
  }

  function MarkFailed(b: Block, error: string): Block {
    b.(status := Failed, lastError := Some(error))
  }

  function MarkSuccess(b: Block, value: Value, now: string): Block {
    b.(status := Success, content := value, lastError := None, completedAt := Some(now))
  }

  function GroupValue(o: MetaOutcome, i: nat): Value
    requires o.Parsed?
  {
    if i == 0 then Text(o.title) else if i == 1 then Items(o.keywords) else Items(o.headings)
  }

  const MISSING := "metadata response missing title/keywords/headings"

  function GroupBlock(b: Block, o: MetaOutcome, now: string, i: nat): Block {
    if Complete(o) then MarkSuccess(BumpUnfinished(b), GroupValue(o, i), now)
    else if b.status == Success then b
    else MarkFailed(Bump(b), if o.MetaRaised? then "metadata extraction failed: " + o.error else MISSING)
  }

  // The group while one extraction is being recorded: its first k blocks are settled.
  function GroupUpTo(blocks: seq<Block>, o: MetaOutcome, now: string, k: nat): seq<Block> {
    seq(|blocks|, i requires 0 <= i < |blocks| =>
      if i < k && i < GROUP then GroupBlock(blocks[i], o, now, i)
      else if i < GROUP then BumpUnfinished(blocks[i])
      else blocks[i])
  }

  // All three rewritten on success, the unfinished ones failed otherwise, and no call at all when
  // the three are done.
  function AfterGroup(blocks: seq<Block>, o: MetaOutcome, now: string): seq<Block>
    requires |blocks| >= GROUP
  {
    if GroupDone(blocks) then blocks else GroupUpTo(blocks, o, now, GROUP)
  }

  // The states handed to the callback for the first k blocks of the group.
  function GroupSaves(blocks: seq<Block>, o: MetaOutcome, now: string, k: nat): seq<seq<Block>>
    requires k <= GROUP <= |blocks|
  {
    if k == 0 then []
    else
      GroupSaves(blocks, o, now, k - 1)
      + if !Complete(o) && blocks[k - 1].status == Success then []
        else [GroupUpTo(blocks, o, now, if o.MetaRaised? then GROUP else k)]
  }

  function NewSection(index: nat, heading: string): Block {
    Block(Section(index), heading, "long_text", Pending, Nothing, 0, None, [Headings], None)
  }

  function Expand(blocks: seq<Block>): seq<Block>
    requires |blocks| >= GROUP
  {
    if blocks[2].status != Success || |blocks| > GROUP then blocks
    else
      blocks + seq(|HeadingsOf(blocks)|,
          i requires 0 <= i < |HeadingsOf(blocks)| => NewSection(i, HeadingsOf(blocks)[i]))
  }

  // Section tasks run at most SECTION_CONCURRENCY at a time; a task starts, then finishes.
  datatype SectionOutcome = Written(text: string) | SectionRaised(error: string)
  datatype Event = Start(i: nat) | Finish(i: nat, outcome: SectionOutcome, now: string)

  datatype Tasks = Tasks(blocks: seq<Block>, waiting: set<nat>, running: set<nat>)

  function Decimal(n: nat): string {
    if n < 10 then ["0123456789"[n]] else Decimal(n / 10) + ["0123456789"[n % 10]]
  }

  function Settle(b: Block, o: SectionOutcome, now: string): Block {
    match o
    case SectionRaised(error) => MarkFailed(b, error)
    case Written(text) =>
      if |text| < SECTION_MIN_LENGTH then MarkFailed(b, "content too short (" + Decimal(|text|) + " chars)")
      else MarkSuccess(b, Text(text), now)
  }

  function OnTask(t: Tasks, e: Event): Tasks {
    match e
    case Start(i) =>
      if i in t.waiting && i < |t.blocks| && |t.running| < SECTION_CONCURRENCY
      then Tasks(t.blocks[i := Bump(t.blocks[i])], t.waiting - {i}, t.running + {i}) else t
    case Finish(i, o, now) =>
      if i in t.running && i < |t.blocks|
      then Tasks(t.blocks[i := Settle(t.blocks[i], o, now)], t.waiting, t.running - {i}) else t
  }

  function Targets(blocks: seq<Block>): set<nat> {
    set i: nat | GROUP <= i < |blocks| && blocks[i].status != Success && blocks[2].status == Success
  }

  // Every state between two atomic steps of the tasks, any of which may be the one persisted.
  function RunTasks(t: Tasks, events: seq<Event>): (Tasks, seq<seq<Block>>)
    decreases |events|
  {
    if events == [] then (t, [])
    else
      var t' := OnTask(t, events[0]);
      var (last, saved) := RunTasks(t', events[1..]);
      (last, [t'.blocks] + saved)
  }

  datatype RoundEnv = RoundEnv(clock: int, meta: MetaOutcome, events: seq<Event>, now: string)

  datatype RoundResult = RoundResult(blocks: seq<Block>, saved: seq<seq<Block>>, progressed: bool, killed: bool)

  function Round(blocks: seq<Block>, env: RoundEnv): RoundResult
    requires |blocks| >= GROUP
  {
    var saves := if GroupDone(blocks) then [] else GroupSaves(blocks, env.meta, env.now, GROUP);
    var expanded := Expand(AfterGroup(blocks, env.meta, env.now));
    var targets := Targets(expanded);
    if targets == {} then RoundResult(expanded, saves, !GroupDone(blocks), false)
    else
      var (last, more) := RunTasks(Tasks(expanded, targets, {}), env.events);
      RoundResult(last.blocks, saves + more, true, last.waiting != {} || last.running != {})
  }

  // ---------------------------------------------------------------- the run

  datatype Ending = AllDone | NothingLeft | TimeCap | OutOfRounds | Killed

  // `bodies` counts the rounds whose body started, `round` is the number stored in the state.
  datatype Outcome = Outcome(blocks: seq<Block>, saved: seq<seq<Block>>, ending: Ending, bodies: nat, round: nat)

  function EndingAfter(one: RoundResult): Option<Ending> {
    if one.killed then Some(Killed)
    else if !one.progressed then Some(NothingLeft)
    else if AllSuccess(one.blocks) then Some(AllDone)
    else None
  }

  function Then(one: RoundResult, rest: Outcome): Outcome {
    rest.(saved := one.saved + rest.saved, bodies := rest.bodies + 1)
  }

  // The run from the check of round r on. A schedule that stops short is a process killed there.
  function Rounds(blocks: seq<Block>, r: nat, started: int, env: seq<RoundEnv>): Outcome
    requires |blocks| >= GROUP
    decreases |env|
  {
    if r > MAX_ROUNDS then Outcome(blocks, [], OutOfRounds, 0, MAX_ROUNDS)
    else if env == [] then Outcome(blocks, [], Killed, 0, r)
    else if env[0].clock - started > MAX_TOTAL_SECONDS then Outcome(blocks, [], TimeCap, 0, r)
    else
      var one := Round(blocks, env[0]);
      RoundLength(blocks, env[0]);
      match EndingAfter(one)
      case Some(ending) => Outcome(one.blocks, one.saved, ending, 1, r)
      case None => Then(one, Rounds(one.blocks, r + 1, started, env[1..]))
  }

  lemma {:induction false} TasksLength(t: Tasks, events: seq<Event>)
    ensures |RunTasks(t, events).0.blocks| == |t.blocks|
    decreases |events|
  {
    if events != [] { TasksLength(OnTask(t, events[0]), events[1..]); }
  }

  lemma RoundLength(blocks: seq<Block>, env: RoundEnv)
    requires |blocks| >= GROUP
    ensures |Round(blocks, env).blocks| >= |blocks|
  {
    var expanded := Expand(AfterGroup(blocks, env.meta, env.now));
    TasksLength(Tasks(expanded, Targets(expanded), {}), env.events);
  }

  // The whole run is what was saved so far followed by the rest of it, from the check of round r on.
  ghost predicate Ahead(goal: Outcome, said: seq<seq<Block>>, blocks: seq<Block>, r: nat, started: int,
                        env: seq<RoundEnv>) {
    && |blocks| >= GROUP && 1 <= r <= |env| + 1
    && Continues(goal, said, Rounds(blocks, r, started, env[r - 1..]))
  }

  ghost predicate Continues(goal: Outcome, said: seq<seq<Block>>, rest: Outcome) {
    && goal.blocks == rest.blocks && goal.saved == said + rest.saved
    && goal.ending == rest.ending && goal.round == rest.round
  }

  ghost predicate Finished(goal: Outcome, blocks: seq<Block>, saved: seq<seq<Block>>, ending: Ending, round: nat) {
    goal.blocks == blocks && goal.saved == saved && goal.ending == ending && goal.round == round
  }

  // Where the loop stands before its pass r.
  ghost predicate OnCourse(goal: Outcome, said: seq<seq<Block>>, blocks: seq<Block>, r: nat, started: int,
                           env: seq<RoundEnv>, stop: Option<Ending>, round: nat) {
    && 1 <= r <= MAX_ROUNDS + 1
    && match stop
       case None => Ahead(goal, said, blocks, r, started, env) && (r > 1 ==> round == r - 1)
       case Some(ending) => Finished(goal, blocks, said, ending, round)
  }

  lemma LoopEnds(goal: Outcome, said: seq<seq<Block>>, blocks: seq<Block>, r: nat, started: int, env: seq<RoundEnv>,
                 stop: Option<Ending>, round: nat)
    requires OnCourse(goal, said, blocks, r, started, env, stop, round)
    requires stop.Some? || r > MAX_ROUNDS
    ensures Finished(goal, blocks, said, if stop.Some? then stop.value else OutOfRounds, round)
  {
    if stop.None? { StopsAtCheck(goal, said, blocks, r, started, env); }
  }

  lemma RunIsAhead(blocks: seq<Block>, started: int, env: seq<RoundEnv>, round: nat)
    requires |blocks| >= GROUP
    ensures OnCourse(Rounds(blocks, 1, started, env), [], blocks, 1, started, env, None, round)
  {
    assert env[0..] == env;
    assert [] + Rounds(blocks, 1, started, env).saved == Rounds(blocks, 1, started, env).saved;
  }

  lemma StopsAtCheck(goal: Outcome, said: seq<seq<Block>>, blocks: seq<Block>, r: nat, started: int, env: seq<RoundEnv>)
    requires r <= MAX_ROUNDS + 1 && Ahead(goal, said, blocks, r, started, env)
    ensures if r > MAX_ROUNDS then Finished(goal, blocks, said, OutOfRounds, MAX_ROUNDS)
            else if r > |env| then Finished(goal, blocks, said, Killed, r)
            else env[r - 1].clock - started > MAX_TOTAL_SECONDS ==> Finished(goal, blocks, said, TimeCap, r)
  {
  }

  lemma NextRound(goal: Outcome, said: seq<seq<Block>>, blocks: seq<Block>, r: nat, started: int, env: seq<RoundEnv>)
    requires r <= MAX_ROUNDS && r <= |env| && Ahead(goal, said, blocks, r, started, env)
    requires env[r - 1].clock - started <= MAX_TOTAL_SECONDS
    ensures var one := Round(blocks, env[r - 1]);
            match EndingAfter(one)
            case Some(ending) => Finished(goal, one.blocks, said + one.saved, ending, r)
            case None => Ahead(goal, said + one.saved, one.blocks, r + 1, started, env)
  {
    var one := Round(blocks, env[r - 1]);
    RoundLength(blocks, env[r - 1]);
    assert env[r - 1..][1..] == env[r..];
    if EndingAfter(one).None? {
      var rest := Rounds(one.blocks, r + 1, started, env[r..]);
      assert said + (one.saved + rest.saved) == (said + one.saved) + rest.saved;
    }
  }

  function NewBlock(key: Key, name: string, kind: string): Block {
    Block(key, name, kind, Pending, Nothing, 0, None, [], None)
  }

  function InitBlocks(): seq<Block> {
    [NewBlock(Title, "제목", "text"), NewBlock(Keywords, "키워드", "list"), NewBlock(Headings, "목차", "list")]
  }

  // ---------------------------------------------------------------- invariants

  // Later states keep every success, and headings once found are never rewritten under sections.
  predicate Follows(earlier: seq<Block>, later: seq<Block>)
    requires |earlier| >= GROUP
  {
    && |earlier| <= |later|
    && (forall i | 0 <= i < |earlier| :: earlier[i].key == later[i].key && earlier[i].name == later[i].name
                                         && (earlier[i].status == Success ==> later[i].status == Success))
    && (earlier[2].status == Success ==> later[2].content == earlier[2].content)
    && forall i | GROUP <= i < |earlier| && earlier[i].status == Success :: later[i] == earlier[i]
  }

  // Saved one after the other from state a on, ending in state `last`: no step loses a success.
  ghost predicate Chain(a: seq<Block>, saved: seq<seq<Block>>, last: seq<Block>, aligned: bool)
    requires |a| >= GROUP
    decreases |saved|
  {
    if saved == [] then Follows(a, last)
    else Sound(saved[0], aligned) && Follows(a, saved[0]) && Chain(saved[0], saved[1..], last, aligned)
  }

  lemma FollowsTransitive(a: seq<Block>, b: seq<Block>, c: seq<Block>)
    requires |a| >= GROUP && |b| >= GROUP && Follows(a, b) && Follows(b, c)
    ensures Follows(a, c)
  {
  }

  lemma {:induction false} ChainConcat(a: seq<Block>, first: seq<seq<Block>>, b: seq<Block>, second: seq<seq<Block>>,
                                       c: seq<Block>, aligned: bool)
    requires |a| >= GROUP && |b| >= GROUP && Chain(a, first, b, aligned) && Chain(b, second, c, aligned)
    ensures Chain(a, first + second, c, aligned)
    decreases |first|
  {
    if first == [] {
      assert first + second == second;
      FollowsTransitive(a, b, if second == [] then c else second[0]);
    } else {
      assert (first + second)[1..] == first[1..] + second;
      ChainConcat(first[0], first[1..], b, second, c, aligned);
    }
  }

  lemma ChainThenStep(a: seq<Block>, saved: seq<seq<Block>>, b: seq<Block>, c: seq<Block>, aligned: bool)
    requires |a| >= GROUP && |b| >= GROUP && Chain(a, saved, b, aligned) && Follows(b, c)
    ensures Chain(a, saved, c, aligned)
  {
    assert Chain(b, [], c, aligned);
    ChainConcat(a, saved, b, [], c, aligned);
    assert saved + [] == saved;
  }

  lemma ChainThenSave(a: seq<Block>, saved: seq<seq<Block>>, b: seq<Block>, c: seq<Block>, aligned: bool)
    requires |a| >= GROUP && |b| >= GROUP && Chain(a, saved, b, aligned) && Follows(b, c) && Sound(c, aligned)
    ensures Chain(a, saved + [c], c, aligned)
  {
    assert [c][1..] == [] && Chain(c, [], c, aligned);
    assert Chain(b, [c], c, aligned);
    ChainConcat(a, saved, b, [c], c, aligned);
  }

  lemma GroupBlockOk(b: Block, o: MetaOutcome, now: string, i: nat)
    ensures var after := GroupBlock(b, o, now, i);
            && after.key == b.key && after.name == b.name
            && (after.status == Success <==> Complete(o) || b.status == Success)
            && (Complete(o) ==> after.content == GroupValue(o, i))
  {
  }

  lemma GroupStepKeepsShape(blocks: seq<Block>, o: MetaOutcome, now: string, k: nat)
    requires Startable(blocks) && k <= GROUP
    ensures var after := GroupUpTo(blocks, o, now, k);
            && |after| == |blocks| && Shaped(after) && after[GROUP..] == blocks[GROUP..]
            && forall i | GROUP <= i < |after| :: LongEnough(after[i])
  {
    assert forall i | GROUP <= i < |blocks| :: IsSection(blocks[i], i - GROUP) && LongEnough(blocks[i]);
  }

  lemma GroupStepOk(blocks: seq<Block>, o: MetaOutcome, now: string, k: nat, aligned: bool)
    requires Sound(blocks, aligned) && !GroupDone(blocks) && k <= GROUP
    ensures Sound(GroupUpTo(blocks, o, now, k), aligned) && Follows(blocks, GroupUpTo(blocks, o, now, k))
  {
    var after := GroupUpTo(blocks, o, now, k);
    GroupStepKeepsShape(blocks, o, now, k);
    GroupGrows(blocks, o, now, 0, k);
    GroupBlockOk(blocks[0], o, now, 0);
    GroupBlockOk(blocks[1], o, now, 1);
    GroupBlockOk(blocks[2], o, now, 2);
    if after[2].status == Success {
      assert k == GROUP && Complete(o);
      assert HeadingsOf(after) == o.headings;
    }
  }

  lemma GroupGrows(blocks: seq<Block>, o: MetaOutcome, now: string, j: nat, k: nat)
    requires |blocks| >= GROUP && blocks[2].status != Success && j <= k <= GROUP
    ensures Follows(GroupUpTo(blocks, o, now, j), GroupUpTo(blocks, o, now, k))
  {
    GroupBlockOk(blocks[0], o, now, 0);
    GroupBlockOk(blocks[1], o, now, 1);
    GroupBlockOk(blocks[2], o, now, 2);
  }

  function Reached(o: MetaOutcome, k: nat): nat {
    if o.MetaRaised? then GROUP else k
  }

  // What block k - 1 of the group adds to the chain.
  lemma GroupSaveOk(blocks: seq<Block>, o: MetaOutcome, now: string, k: nat, saved: seq<seq<Block>>, aligned: bool)
    requires Sound(blocks, aligned) && !GroupDone(blocks) && 0 < k <= GROUP
    requires Chain(blocks, saved, GroupUpTo(blocks, o, now, Reached(o, k - 1)), aligned)
    ensures var after := GroupUpTo(blocks, o, now, Reached(o, k));
            Chain(blocks, saved, after, aligned) && Chain(blocks, saved + [after], after, aligned)
  {
    var before, after := GroupUpTo(blocks, o, now, Reached(o, k - 1)), GroupUpTo(blocks, o, now, Reached(o, k));
    GroupStepOk(blocks, o, now, Reached(o, k), aligned);
    GroupGrows(blocks, o, now, Reached(o, k - 1), Reached(o, k));
    ChainThenStep(blocks, saved, before, after, aligned);
    ChainThenSave(blocks, saved, before, after, aligned);
  }

  lemma SavesGrow(blocks: seq<Block>, o: MetaOutcome, now: string, k: nat)
    requires 0 < k <= GROUP <= |blocks|
    ensures var saved := GroupSaves(blocks, o, now, k - 1);
            || GroupSaves(blocks, o, now, k) == saved
            || GroupSaves(blocks, o, now, k) == saved + [GroupUpTo(blocks, o, now, Reached(o, k))]
  {
  }

  lemma {:induction false} GroupSavesOk(blocks: seq<Block>, o: MetaOutcome, now: string, k: nat, aligned: bool)
    requires Sound(blocks, aligned) && !GroupDone(blocks) && k <= GROUP
    ensures Chain(blocks, GroupSaves(blocks, o, now, k), GroupUpTo(blocks, o, now, Reached(o, k)), aligned)
  {
    if k == 0 {
      GroupStepOk(blocks, o, now, Reached(o, 0), aligned);
    } else {
      var saved := GroupSaves(blocks, o, now, k - 1);
      GroupSavesOk(blocks, o, now, k - 1, aligned);
      GroupSaveOk(blocks, o, now, k, saved, aligned);
      SavesGrow(blocks, o, now, k);
    }
  }

  lemma ExpandOk(blocks: seq<Block>, aligned: bool)
    requires Sound(blocks, aligned)
    ensures Sound(Expand(blocks), aligned) && Follows(blocks, Expand(blocks))
    ensures blocks[2].status == Success ==> |Expand(blocks)| > GROUP
  {
  }

  ghost predicate TasksOk(t: Tasks, aligned: bool) {
    && Sound(t.blocks, aligned) && t.waiting !! t.running
    && forall i | i in t.waiting + t.running :: GROUP <= i < |t.blocks| && t.blocks[i].status != Success
  }

  lemma StartOk(t: Tasks, i: nat, aligned: bool)
    requires TasksOk(t, aligned) && i in t.waiting
    ensures var b := Bump(t.blocks[i]);
            && TasksOk(Tasks(t.blocks[i := b], t.waiting - {i}, t.running + {i}), aligned)
            && Follows(t.blocks, t.blocks[i := b])
  {
  }

  lemma FinishOk(t: Tasks, i: nat, b: Block, aligned: bool)
    requires TasksOk(t, aligned) && i in t.running
    requires b.key == t.blocks[i].key && b.name == t.blocks[i].name && b.dependsOn == t.blocks[i].dependsOn
        && LongEnough(b)
    ensures TasksOk(Tasks(t.blocks[i := b], t.waiting, t.running - {i}), aligned)
    ensures Follows(t.blocks, t.blocks[i := b])
  {
  }

  lemma OnTaskOk(t: Tasks, e: Event, aligned: bool)
    requires TasksOk(t, aligned)
    ensures TasksOk(OnTask(t, e), aligned) && Follows(t.blocks, OnTask(t, e).blocks)
  {
    match e
    case Start(i) =>
      if i in t.waiting { StartOk(t, i, aligned); }
    case Finish(i, o, now) =>
      if i in t.running && i < |t.blocks| { FinishOk(t, i, Settle(t.blocks[i], o, now), aligned); }
  }

  lemma {:induction false} RunTasksOk(t: Tasks, events: seq<Event>, aligned: bool)
    requires TasksOk(t, aligned)
    ensures TasksOk(RunTasks(t, events).0, aligned)
    ensures Chain(t.blocks, RunTasks(t, events).1, RunTasks(t, events).0.blocks, aligned)
    decreases |events|
  {
    if events == [] {
      FollowsItself(t.blocks);
    } else {
      var t' := OnTask(t, events[0]);
      OnTaskOk(t, events[0], aligned);
      RunTasksOk(t', events[1..], aligned);
      assert ([t'.blocks] + RunTasks(t', events[1..]).1)[1..] == RunTasks(t', events[1..]).1;
    }
  }

  lemma RoundOk(blocks: seq<Block>, env: RoundEnv, aligned: bool)
    requires Sound(blocks, aligned)
    ensures Sound(Round(blocks, env).blocks, aligned)
    ensures Chain(blocks, Round(blocks, env).saved, Round(blocks, env).blocks, aligned)
  {
    var grouped := AfterGroup(blocks, env.meta, env.now);
    var saves := if GroupDone(blocks) then [] else GroupSaves(blocks, env.meta, env.now, GROUP);
    FollowsItself(blocks);
    if !GroupDone(blocks) {
      GroupSavesOk(blocks, env.meta, env.now, GROUP, aligned);
      GroupStepOk(blocks, env.meta, env.now, GROUP, aligned);
    }
    ExpandOk(grouped, aligned);
    ChainThenStep(blocks, saves, grouped, Expand(grouped), aligned);
    SectionsOk(blocks, saves, Expand(grouped), env.events, aligned);
  }

  lemma SectionsOk(blocks: seq<Block>, saves: seq<seq<Block>>, expanded: seq<Block>, events: seq<Event>,
                   aligned: bool)
    requires |blocks| >= GROUP && Sound(expanded, aligned) && Chain(blocks, saves, expanded, aligned)
    ensures var (last, more) := RunTasks(Tasks(expanded, Targets(expanded), {}), events);
            Sound(last.blocks, aligned) && Chain(blocks, saves + more, last.blocks, aligned)
  {
    var start := Tasks(expanded, Targets(expanded), {});
    RunTasksOk(start, events, aligned);
    var (last, more) := RunTasks(start, events);
    ChainConcat(blocks, saves, expanded, more, last.blocks, aligned);
  }

  predicate BodyRuns(r: nat, started: int, env: seq<RoundEnv>) {
    r <= MAX_ROUNDS && env != [] && env[0].clock - started <= MAX_TOTAL_SECONDS
  }

  lemma RoundsStep(blocks: seq<Block>, r: nat, started: int, env: seq<RoundEnv>)
    requires |blocks| >= GROUP && BodyRuns(r, started, env)
    ensures var one, run := Round(blocks, env[0]), Rounds(blocks, r, started, env);
            && |one.blocks| >= GROUP
            && match EndingAfter(one)
               case Some(ending) => run.blocks == one.blocks && run.bodies == 1 && run.ending == ending
               case None =>
                 var rest := Rounds(one.blocks, r + 1, started, env[1..]);
                 run.blocks == rest.blocks && run.bodies == rest.bodies + 1 && run.ending == rest.ending
  {
    RoundLength(blocks, env[0]);
  }

  lemma {:induction false} RunsChain(blocks: seq<Block>, r: nat, started: int, env: seq<RoundEnv>, aligned: bool)
    requires Sound(blocks, aligned)
    ensures Sound(Rounds(blocks, r, started, env).blocks, aligned)
    ensures Chain(blocks, Rounds(blocks, r, started, env).saved, Rounds(blocks, r, started, env).blocks, aligned)
    decreases |env|
  {
    if BodyRuns(r, started, env) {
      var one := Round(blocks, env[0]);
      RoundOk(blocks, env[0], aligned);
      if EndingAfter(one).None? {
        var rest := Rounds(one.blocks, r + 1, started, env[1..]);
        RunsChain(one.blocks, r + 1, started, env[1..], aligned);
        ChainConcat(blocks, one.saved, one.blocks, rest.saved, rest.blocks, aligned);
      }
    } else {
      FollowsItself(blocks);
    }
  }

  // Every state given to the callback is sound and keeps what each earlier one and the start had
  // found, and so does the state returned.
  ghost predicate RunOk(blocks: seq<Block>, run: Outcome, aligned: bool)
    requires |blocks| >= GROUP
  {
    && Sound(run.blocks, aligned) && Follows(blocks, run.blocks)
    && (forall k | 0 <= k < |run.saved| ::
          Sound(run.saved[k], aligned) && Follows(blocks, run.saved[k]) && Follows(run.saved[k], run.blocks))
    && (forall j, k | 0 <= j < k < |run.saved| :: |run.saved[j]| >= GROUP && Follows(run.saved[j], run.saved[k]))
  }

  lemma {:induction false} ChainPairs(a: seq<Block>, saved: seq<seq<Block>>, last: seq<Block>, aligned: bool)
    requires |a| >= GROUP && Chain(a, saved, last, aligned)
    ensures Follows(a, last)
    ensures forall k | 0 <= k < |saved| :: Sound(saved[k], aligned) && Follows(a, saved[k]) && Follows(saved[k], last)
    ensures forall j, k | 0 <= j < k < |saved| :: |saved[j]| >= GROUP && Follows(saved[j], saved[k])
    decreases |saved|
  {
    if saved != [] {
      ChainPairs(saved[0], saved[1..], last, aligned);
      FollowsTransitive(a, saved[0], last);
      FollowsItself(saved[0]);
      forall k | 0 <= k < |saved|
        ensures Sound(saved[k], aligned) && Follows(saved[0], saved[k]) && Follows(saved[k], last)
        ensures Follows(a, saved[k])
      {
        if k > 0 { assert saved[k] == saved[1..][k - 1]; }
        FollowsTransitive(a, saved[0], saved[k]);
      }
      forall j, k | 0 <= j < k < |saved|
        ensures |saved[j]| >= GROUP && Follows(saved[j], saved[k])
      {
        if j > 0 { assert saved[j] == saved[1..][j - 1] && saved[k] == saved[1..][k - 1]; }
      }
    }
  }

  // From any state the engine can be started from, over all rounds, outcomes and interleavings: a
  // success once saved is never lost, and alignment is kept where there was some.
  lemma EveryStateIsConsistent(blocks: seq<Block>, r: nat, started: int, env: seq<RoundEnv>, aligned: bool)
    requires Sound(blocks, aligned)
    ensures RunOk(blocks, Rounds(blocks, r, started, env), aligned)
  {
    RunsChain(blocks, r, started, env, aligned);
    ChainPairs(blocks, Rounds(blocks, r, started, env).saved, Rounds(blocks, r, started, env).blocks, aligned);
  }

  lemma FollowsItself(blocks: seq<Block>)
    requires |blocks| >= GROUP
    ensures Follows(blocks, blocks)
  {
  }

  lemma InitIsConsistent()
    ensures Consistent(InitBlocks()) && |InitBlocks()| == GROUP
  {
  }

  // Killed anywhere, resumed from any state the callback received, and so on: the second run
  // keeps what the first had found, and its headings under existing sections.
  lemma CrashAndResume(first: seq<RoundEnv>, second: seq<RoundEnv>, started: int, restarted: int, k: nat)
    requires k < |Rounds(InitBlocks(), 1, started, first).saved|
    ensures var kept := Rounds(InitBlocks(), 1, started, first).saved[k];
            && Consistent(kept) && RunOk(kept, Rounds(kept, 1, restarted, second), true)
            && (|kept| > GROUP ==> HeadingsOf(Rounds(kept, 1, restarted, second).blocks) == HeadingsOf(kept)
                                   && |Rounds(kept, 1, restarted, second).blocks| == |kept|)
  {
    InitIsConsistent();
    EveryStateIsConsistent(InitBlocks(), 1, started, first, true);
    var kept := Rounds(InitBlocks(), 1, started, first).saved[k];
    assert Consistent(kept);
    EveryStateIsConsistent(kept, 1, restarted, second, true);
    if |kept| > GROUP { SectionsAreFixed(kept, Rounds(kept, 1, restarted, second).blocks); }
  }

  lemma SectionsAreFixed(earlier: seq<Block>, later: seq<Block>)
    requires Consistent(earlier) && Consistent(later) && Follows(earlier, later) && |earlier| > GROUP
    ensures HeadingsOf(later) == HeadingsOf(earlier) && |later| == |earlier|
  {
  }

  // ---------------------------------------------------------------- how a run ends

  // A round that found nothing to do found everything done.
  lemma IdleRoundIsComplete(blocks: seq<Block>, env: RoundEnv)
    requires Startable(blocks) && !Round(blocks, env).progressed
    ensures AllSuccess(Round(blocks, env).blocks)
  {
    ExpandOk(blocks, false);
    var expanded := Expand(blocks);
    forall i | 0 <= i < |expanded|
      ensures expanded[i].status == Success
    {
      assert i >= GROUP ==> i !in Targets(expanded);
    }
  }

  function BackoffFor(r: nat): int
    requires r > 1
  {
    ROUND_BACKOFF_SECONDS[if r - 2 < 4 then r - 2 else 4]
  }

  function PauseBefore(r: nat): int {
    if r > 1 then BackoffFor(r) else 0
  }

  // The clock at each check is at least the last one plus the pause requested before the body.
  ghost predicate Paced(env: seq<RoundEnv>, r: nat, earliest: int)
    decreases |env|
  {
    env == [] || (env[0].clock >= earliest && Paced(env[1..], r + 1, env[0].clock + PauseBefore(r)))
  }

  // The pauses before the check of round r.
  function Waited(r: nat): int {
    if r <= 1 then 0 else Waited(r - 1) + PauseBefore(r - 1)
  }

  // The clocks from the check of round r on, in a run that started at this time.
  ghost predicate OnTime(env: seq<RoundEnv>, r: nat, started: int) {
    Paced(env, r, started + Waited(r))
  }

  lemma NineRoundsTakeTooLong()
    ensures Waited(8) == 1655 && Waited(9) == 2255 > MAX_TOTAL_SECONDS
  {
  }

  lemma NextIsPaced(env: seq<RoundEnv>, r: nat, started: int)
    requires env != [] && 1 <= r <= 9 && OnTime(env, r, started)
    ensures OnTime(env[1..], r + 1, started)
    ensures BodyRuns(r, started, env) ==> r < 9
  {
    NineRoundsTakeTooLong();
    assert Paced(env[1..], r + 1, env[0].clock + PauseBefore(r));
    assert Waited(r + 1) == Waited(r) + PauseBefore(r);
  }

  // Backoff alone exhausts the time cap: no body runs after round 8, so the round limit is never
  // what stops the engine.
  lemma {:induction false} RoundBound(blocks: seq<Block>, r: nat, started: int, env: seq<RoundEnv>)
    requires |blocks| >= GROUP && 1 <= r <= 9 && OnTime(env, r, started)
    ensures Rounds(blocks, r, started, env).bodies <= 9 - r && Rounds(blocks, r, started, env).ending != OutOfRounds
    decreases |env|
  {
    if BodyRuns(r, started, env) {
      RoundsStep(blocks, r, started, env);
      NextIsPaced(env, r, started);
      if EndingAfter(Round(blocks, env[0])).None? {
        RoundBound(Round(blocks, env[0]).blocks, r + 1, started, env[1..]);
      }
    }
  }

  lemma EndingAfterRound(blocks: seq<Block>, env: RoundEnv)
    requires Startable(blocks) && EndingAfter(Round(blocks, env)).Some?
    ensures EndingAfter(Round(blocks, env)).value == Killed || AllSuccess(Round(blocks, env).blocks)
  {
    if !Round(blocks, env).progressed { IdleRoundIsComplete(blocks, env); }
  }

  lemma RoundIsStartable(blocks: seq<Block>, env: RoundEnv)
    requires Startable(blocks)
    ensures Startable(Round(blocks, env).blocks)
  {
    RoundOk(blocks, env, false);
  }

  predicate EndsWell(run: Outcome) {
    run.ending in {Killed, TimeCap} || AllSuccess(run.blocks)
  }

  lemma NoBodyEndsTheRun(blocks: seq<Block>, r: nat, started: int, env: seq<RoundEnv>)
    requires |blocks| >= GROUP && !BodyRuns(r, started, env)
    ensures var run := Rounds(blocks, r, started, env);
            run.blocks == blocks && run.bodies == 0 && (r <= MAX_ROUNDS ==> run.ending in {Killed, TimeCap})
  {
  }

  // The first body ends the run well, or leaves a startable state to the rest of it.
  lemma FirstBodyEndsWell(blocks: seq<Block>, r: nat, started: int, env: seq<RoundEnv>)
      returns (next: seq<Block>, rest: Outcome)
    requires Startable(blocks) && BodyRuns(r, started, env)
    ensures EndsWell(rest) ==> EndsWell(Rounds(blocks, r, started, env))
    ensures EndsWell(rest) || (Startable(next) && rest == Rounds(next, r + 1, started, env[1..]))
  {
    var one := Round(blocks, env[0]);
    next := one.blocks;
    RoundsStep(blocks, r, started, env);
    RoundIsStartable(blocks, env[0]);
    if EndingAfter(one).Some? {
      EndingAfterRound(blocks, env[0]);
      rest := Rounds(blocks, r, started, env);
    } else {
      rest := Rounds(one.blocks, r + 1, started, env[1..]);
    }
  }

  // Unless it is killed, `generate` returns a complete state or returns past the time cap.
  lemma {:induction false} EndsCompleteOrPastTheCap(blocks: seq<Block>, r: nat, started: int, env: seq<RoundEnv>)
    requires Startable(blocks) && 1 <= r <= 9 && OnTime(env, r, started)
    ensures EndsWell(Rounds(blocks, r, started, env))
    decreases |env|
  {
    if BodyRuns(r, started, env) {
      var next, rest := FirstBodyEndsWell(blocks, r, started, env);
      if !EndsWell(rest) {
        NextIsPaced(env, r, started);
        EndsCompleteOrPastTheCap(next, r + 1, started, env[1..]);
      }
    } else {
      NoBodyEndsTheRun(blocks, r, started, env);
    }
  }

  // ---------------------------------------------------------------- attempts

  // A task is started once per round: its block gains one attempt, exactly if it left the queue.
  lemma {:induction false} TaskAttempts(t: Tasks, events: seq<Event>, i: nat)
    requires i < |t.blocks|
    ensures var last := RunTasks(t, events).0;
            && |last.blocks| == |t.blocks| && last.waiting <= t.waiting
            && last.blocks[i].attempts == t.blocks[i].attempts + if i in t.waiting - last.waiting then 1 else 0
    decreases |events|
  {
    if events != [] {
      TaskAttempts(OnTask(t, events[0]), events[1..], i);
    }
  }

  function AttemptsOf(blocks: seq<Block>, i: nat): nat {
    if i < |blocks| then blocks[i].attempts else 0
  }

  lemma RoundAttempts(blocks: seq<Block>, env: RoundEnv, i: nat)
    requires |blocks| >= GROUP && GROUP <= i
    ensures AttemptsOf(Round(blocks, env).blocks, i) <= AttemptsOf(blocks, i) + 1
  {
    var expanded := Expand(AfterGroup(blocks, env.meta, env.now));
    assert AttemptsOf(expanded, i) <= AttemptsOf(blocks, i);
    TasksLength(Tasks(expanded, Targets(expanded), {}), env.events);
    if i < |expanded| {
      TaskAttempts(Tasks(expanded, Targets(expanded), {}), env.events, i);
    }
  }

  lemma {:induction false} SectionAttempts(blocks: seq<Block>, r: nat, started: int, env: seq<RoundEnv>, i: nat)
    requires |blocks| >= GROUP && GROUP <= i
    ensures AttemptsOf(Rounds(blocks, r, started, env).blocks, i)
            <= AttemptsOf(blocks, i) + Rounds(blocks, r, started, env).bodies
    decreases |env|
  {
    if BodyRuns(r, started, env) {
      RoundLength(blocks, env[0]);
      RoundAttempts(blocks, env[0], i);
      if EndingAfter(Round(blocks, env[0])).None? {
        SectionAttempts(Round(blocks, env[0]).blocks, r + 1, started, env[1..], i);
      }
    }
  }

  // Without a complete extraction there is no section to try.
  lemma FailedGroupRound(blocks: seq<Block>, env: RoundEnv)
    requires |blocks| == GROUP && blocks[2].status != Success && !Complete(env.meta)
    ensures var one := Round(blocks, env);
            |one.blocks| == GROUP && one.blocks[2].status != Success && one.progressed && !one.killed
  {
  }

  // If the extraction first succeeds in round g, a section is attempted at most 9 - g times.
  lemma {:induction false} AttemptsAfterLateMetadata(blocks: seq<Block>, r: nat, g: nat, started: int,
                                                     env: seq<RoundEnv>, i: nat)
    requires |blocks| == GROUP && blocks[2].status != Success && GROUP <= i
    requires 1 <= r <= g <= 9 && OnTime(env, r, started)
    requires forall k | 0 <= k < |env| && k < g - r :: !Complete(env[k].meta)
    ensures AttemptsOf(Rounds(blocks, r, started, env).blocks, i) <= 9 - g
    decreases |env|
  {
    if r == g {
      RoundBound(blocks, r, started, env);
      SectionAttempts(blocks, r, started, env, i);
    } else if BodyRuns(r, started, env) {
      assert !Complete(env[0].meta);
      FailedGroupRound(blocks, env[0]);
      NextIsPaced(env, r, started);
      assert EndingAfter(Round(blocks, env[0])).None?;
      AttemptsAfterLateMetadata(Round(blocks, env[0]).blocks, r + 1, g, started, env[1..], i);
    }
  }

  // ---------------------------------------------------------------- regenerating one block

  function Cleared(b: Block): Block {
    b.(status := Pending, content := Nothing, lastError := None, completedAt := None)
  }

  // A key of the group resets the whole group; a section resets alone; an unknown key does nothing.
  function Reset(blocks: seq<Block>, key: Key): seq<Block> {
    seq(|blocks|, i requires 0 <= i < |blocks| =>
      if blocks[i].key == key || (!key.Section? && !blocks[i].key.Section?) then Cleared(blocks[i]) else blocks[i])
  }

  // Every regeneration starts from a state the engine accepts, so no success of another block is
  // lost and it ends complete or past the cap.
  lemma ResetIsStartable(blocks: seq<Block>, key: Key)
    requires Startable(blocks)
    ensures Startable(Reset(blocks, key))
  {
    assert forall i | GROUP <= i < |blocks| ::
        IsSection(blocks[i], i - GROUP) && IsSection(Reset(blocks, key)[i], i - GROUP);
  }

  // Of a consistent state it keeps one section per heading exactly if a section is regenerated or
  // no section exists yet.
  lemma ResetKeepsConsistentIff(blocks: seq<Block>, key: Key)
    requires Consistent(blocks)
    ensures Consistent(Reset(blocks, key)) <==> key.Section? || |blocks| == GROUP
  {
  }

  // One regeneration of the stored state, of which the callback's k-th save was the last to be
  // stored; without any, the stored state is the old one.
  datatype Regeneration = Regeneration(key: Key, started: int, env: seq<RoundEnv>, k: nat)

  function Stored(blocks: seq<Block>, g: Regeneration): (stored: seq<Block>)
    requires |blocks| >= GROUP
    ensures |stored| >= GROUP
  {
    var saved := Rounds(Reset(blocks, g.key), 1, g.started, g.env).saved;
    if g.k < |saved| && |saved[g.k]| >= GROUP then saved[g.k] else blocks
  }

  function StoredAfter(blocks: seq<Block>, history: seq<Regeneration>): seq<Block>
    requires |blocks| >= GROUP
    decreases |history|
  {
    if history == [] then blocks else StoredAfter(Stored(blocks, history[0]), history[1..])
  }

  lemma StoredIsStartable(blocks: seq<Block>, g: Regeneration)
    requires Startable(blocks)
    ensures Startable(Stored(blocks, g))
  {
    ResetIsStartable(blocks, g.key);
    EveryStateIsConsistent(Reset(blocks, g.key), 1, g.started, g.env, false);
  }

  // After any number of regenerations, of whatever blocks, finished or killed, the stored state is
  // one that the engine can be started from again.
  lemma {:induction false} HistoryIsStartable(blocks: seq<Block>, history: seq<Regeneration>)
    requires Startable(blocks)
    ensures Startable(StoredAfter(blocks, history))
    decreases |history|
  {
    if history != [] {
      StoredIsStartable(blocks, history[0]);
      HistoryIsStartable(Stored(blocks, history[0]), history[1..]);
    }
  }

  // The headings a run ends with: those it started with if the group was done, else those of the
  // first complete answer of its bodies, if any.
  function FinalHeadings(blocks: seq<Block>, env: seq<RoundEnv>, bodies: nat): seq<string>
    requires |blocks| >= GROUP
  {
    if GroupDone(blocks) then HeadingsOf(blocks) else FirstAnswer(HeadingsOf(blocks), env, bodies)
  }

  function FirstAnswer(otherwise: seq<string>, env: seq<RoundEnv>, bodies: nat): seq<string>
    decreases |env|
  {
    if bodies == 0 || env == [] then otherwise
    else if Complete(env[0].meta) then env[0].meta.headings
    else FirstAnswer(otherwise, env[1..], bodies - 1)
  }

  function SectionNames(blocks: seq<Block>): seq<string>
    requires |blocks| >= GROUP
  {
    seq(|blocks| - GROUP, k requires 0 <= k < |blocks| - GROUP => blocks[GROUP + k].name)
  }

  // A run under sections of these names that has these headings, and is done with its group or not.
  ghost predicate Relabeling(names: seq<string>, blocks: seq<Block>, headings: seq<string>, done: bool) {
    && |blocks| > GROUP && SectionNames(blocks) == names
    && GroupDone(blocks) == done && (blocks[2].status == Success ==> done) && HeadingsOf(blocks) == headings
  }

  predicate SameNames(before: seq<Block>, after: seq<Block>) {
    && |after| == |before|
    && (forall i | 0 <= i < |before| && i < GROUP :: after[i] == before[i])
    && forall i | GROUP <= i < |before| ::
         after[i].key == before[i].key && after[i].name == before[i].name && after[i].dependsOn == before[i].dependsOn
  }

  predicate OnSections(t: Tasks) {
    forall i | i in t.waiting + t.running :: i >= GROUP
  }

  lemma TaskKeepsNames(t: Tasks, e: Event)
    requires OnSections(t)
    ensures OnSections(OnTask(t, e)) && SameNames(t.blocks, OnTask(t, e).blocks)
  {
    assert forall i | i in OnTask(t, e).waiting + OnTask(t, e).running :: i in t.waiting + t.running;
    assert e.i in t.waiting || e.i in t.running ==> e.i in t.waiting + t.running;
  }

  lemma {:induction false} TasksKeepNames(t: Tasks, events: seq<Event>)
    requires OnSections(t)
    ensures SameNames(t.blocks, RunTasks(t, events).0.blocks)
    decreases |events|
  {
    if events != [] {
      TaskKeepsNames(t, events[0]);
      TasksKeepNames(OnTask(t, events[0]), events[1..]);
    }
  }

  lemma SectionsKeepHeadings(names: seq<string>, blocks: seq<Block>, after: seq<Block>, headings: seq<string>,
                             done: bool)
    requires Relabeling(names, blocks, headings, done) && SameNames(blocks, after)
    ensures Relabeling(names, after, headings, done)
  {
    assert after[0] == blocks[0] && after[1] == blocks[1] && after[2] == blocks[2];
    assert SectionNames(after) == SectionNames(blocks);
  }

  function Relabeled(headings: seq<string>, done: bool, o: MetaOutcome): seq<string> {
    if !done && Complete(o) then o.headings else headings
  }

  lemma GroupSetsHeadings(names: seq<string>, blocks: seq<Block>, headings: seq<string>, done: bool, o: MetaOutcome,
                          now: string)
    requires Relabeling(names, blocks, headings, done)
    ensures Relabeling(names, AfterGroup(blocks, o, now), Relabeled(headings, done, o), done || Complete(o))
    ensures Expand(AfterGroup(blocks, o, now)) == AfterGroup(blocks, o, now)
  {
    if !done {
      var after := AfterGroup(blocks, o, now);
      GroupBlockOk(blocks[0], o, now, 0);
      GroupBlockOk(blocks[1], o, now, 1);
      GroupBlockOk(blocks[2], o, now, 2);
      assert after[0] == GroupBlock(blocks[0], o, now, 0) && after[1] == GroupBlock(blocks[1], o, now, 1);
      assert after[2] == GroupBlock(blocks[2], o, now, 2);
      assert SectionNames(after) == SectionNames(blocks);
    }
  }

  lemma RoundSetsHeadings(names: seq<string>, blocks: seq<Block>, headings: seq<string>, done: bool, env: RoundEnv)
    requires Relabeling(names, blocks, headings, done)
    ensures Relabeling(names, Round(blocks, env).blocks, Relabeled(headings, done, env.meta),
                       done || Complete(env.meta))
  {
    GroupSetsHeadings(names, blocks, headings, done, env.meta, env.now);
    var grouped := AfterGroup(blocks, env.meta, env.now);
    var tasks := Tasks(grouped, Targets(grouped), {});
    assert OnSections(tasks);
    TasksKeepNames(tasks, env.events);
    SectionsKeepHeadings(names, grouped, RunTasks(tasks, env.events).0.blocks, Relabeled(headings, done, env.meta),
                         done || Complete(env.meta));
  }

  // The headings after this many bodies.
  function HeadingsAfter(headings: seq<string>, done: bool, env: seq<RoundEnv>, bodies: nat): seq<string> {
    if done then headings else FirstAnswer(headings, env, bodies)
  }

  lemma HeadingsStep(headings: seq<string>, done: bool, env: seq<RoundEnv>, bodies: nat)
    requires env != []
    ensures HeadingsAfter(headings, done, env, bodies + 1)
            == HeadingsAfter(Relabeled(headings, done, env[0].meta), done || Complete(env[0].meta), env[1..], bodies)
    ensures HeadingsAfter(headings, done, env, 0) == headings
    ensures HeadingsAfter(Relabeled(headings, done, env[0].meta), done || Complete(env[0].meta), env[1..], 0)
            == Relabeled(headings, done, env[0].meta)
  {
  }

  // What the run ends with, counted from a state that has these headings.
  ghost predicate Renames(names: seq<string>, headings: seq<string>, done: bool, env: seq<RoundEnv>, run: Outcome) {
    && |run.blocks| > GROUP && SectionNames(run.blocks) == names
    && HeadingsOf(run.blocks) == HeadingsAfter(headings, done, env, run.bodies)
  }

  lemma LastBodyRenames(names: seq<string>, headings: seq<string>, done: bool, env: seq<RoundEnv>, run: Outcome)
    requires env != [] && run.bodies == 1
    requires Relabeling(names, run.blocks, Relabeled(headings, done, env[0].meta), done || Complete(env[0].meta))
    ensures Renames(names, headings, done, env, run)
  {
    HeadingsStep(headings, done, env, 0);
  }

  lemma FirstBodyRenames(names: seq<string>, headings: seq<string>, done: bool, env: seq<RoundEnv>, rest: Outcome,
                         run: Outcome)
    requires env != [] && run.blocks == rest.blocks && run.bodies == rest.bodies + 1
    requires Renames(names, Relabeled(headings, done, env[0].meta), done || Complete(env[0].meta), env[1..], rest)
    ensures Renames(names, headings, done, env, run)
  {
    HeadingsStep(headings, done, env, rest.bodies);
  }

  lemma {:induction false} RunSetsHeadings(names: seq<string>, blocks: seq<Block>, headings: seq<string>, done: bool,
                                           r: nat, started: int, env: seq<RoundEnv>)
    requires Relabeling(names, blocks, headings, done)
    ensures Renames(names, headings, done, env, Rounds(blocks, r, started, env))
    decreases |env|
  {
    if BodyRuns(r, started, env) {
      var one := Round(blocks, env[0]);
      var run := Rounds(blocks, r, started, env);
      RoundsStep(blocks, r, started, env);
      RoundSetsHeadings(names, blocks, headings, done, env[0]);
      if EndingAfter(one).None? {
        RunSetsHeadings(names, one.blocks, Relabeled(headings, done, env[0].meta), done || Complete(env[0].meta), r + 1,
                        started, env[1..]);
        FirstBodyRenames(names, headings, done, env, Rounds(one.blocks, r + 1, started, env[1..]), run);
      } else {
        LastBodyRenames(names, headings, done, env, run);
      }
    } else {
      NoBodyEndsTheRun(blocks, r, started, env);
    }
  }

  lemma AlignedMeansNames(blocks: seq<Block>)
    requires |blocks| >= GROUP
    ensures Aligned(blocks) <==> SectionNames(blocks) == HeadingsOf(blocks)
  {
    if SectionNames(blocks) == HeadingsOf(blocks) {
      assert forall i | GROUP <= i < |blocks| :: blocks[i].name == SectionNames(blocks)[i - GROUP];
    }
    if Aligned(blocks) {
      assert forall k | 0 <= k < |blocks| - GROUP :: blocks[GROUP + k].name == HeadingsOf(blocks)[k];
    }
  }

  // A whole run under existing sections, whatever happened to them before: they keep their number and
  // names, and there is one per heading at the end exactly if the headings the run ends with are
  // those names.
  lemma RunAlignsIff(blocks: seq<Block>, started: int, env: seq<RoundEnv>)
    requires Startable(blocks) && |blocks| > GROUP
    ensures var run := Rounds(blocks, 1, started, env);
            && |run.blocks| == |blocks| && SectionNames(run.blocks) == SectionNames(blocks)
            && (Aligned(run.blocks) <==> FinalHeadings(blocks, env, run.bodies) == SectionNames(blocks))
  {
    var run := Rounds(blocks, 1, started, env);
    RunSetsHeadings(SectionNames(blocks), blocks, HeadingsOf(blocks), GroupDone(blocks), 1, started, env);
    AlignedMeansNames(run.blocks);
    assert |run.blocks| - GROUP == |SectionNames(run.blocks)| == |SectionNames(blocks)|;
  }

  // Regenerating a group block under existing sections: they are aligned at the end exactly if the
  // first complete answer gave the sections' names as its headings.
  lemma RegeneratedGroupAlignsIff(kept: seq<Block>, key: Key, started: int, env: seq<RoundEnv>)
    requires Startable(kept) && |kept| > GROUP && !key.Section?
    ensures var run := Rounds(Reset(kept, key), 1, started, env);
            && |run.blocks| == |kept| && SectionNames(run.blocks) == SectionNames(kept)
            && (Aligned(run.blocks) <==> FirstAnswer([], env, run.bodies) == SectionNames(kept))
  {
    ResetIsStartable(kept, key);
    RunAlignsIff(Reset(kept, key), started, env);
    assert SectionNames(Reset(kept, key)) == SectionNames(kept);
  }

  // Regenerating a section repairs nothing and breaks nothing: once the group is done, alignment at
  // the end is alignment at the start.
  lemma RegeneratedSectionAlignsIff(kept: seq<Block>, key: Key, started: int, env: seq<RoundEnv>)
    requires Startable(kept) && |kept| > GROUP && key.Section? && GroupDone(kept)
    ensures var run := Rounds(Reset(kept, key), 1, started, env);
            |run.blocks| == |kept| && (Aligned(run.blocks) <==> Aligned(kept))
  {
    ResetIsStartable(kept, key);
    RunAlignsIff(Reset(kept, key), started, env);
    assert SectionNames(Reset(kept, key)) == SectionNames(kept);
    AlignedMeansNames(kept);
  }

  // A regeneration of any block of any state ever stored: no success of its run is lost, and unless
  // it is killed it ends complete or past the time cap.
  lemma RegenerationKeepsAndEnds(kept: seq<Block>, key: Key, started: int, env: seq<RoundEnv>)
    requires Startable(kept) && Paced(env, 1, started)
    ensures var start := Reset(kept, key); var run := Rounds(start, 1, started, env);
            RunOk(start, run, Consistent(start)) && EndsWell(run)
  {
    ResetIsStartable(kept, key);
    EveryStateIsConsistent(Reset(kept, key), 1, started, env, Consistent(Reset(kept, key)));
    EndsCompleteOrPastTheCap(Reset(kept, key), 1, started, env);
  }
}
