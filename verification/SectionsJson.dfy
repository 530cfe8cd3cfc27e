/**
  The JSON form in which the block states are kept in the summary_sections column, and its reader.
*/
module SectionsJson {
  import opened BlockGenerator
  import opened Wrappers

  // SectionsState: the blocks in the order of the dict that holds them.
  datatype Sections = Sections(templateId: string, startedAt: string, updatedAt: string, round: nat, blocks: seq<Block>)

  // One JSON object. None is an absent member; the inner option of two members is JSON null.
  datatype BlockData = BlockData(
    key: Option<Key>,
    name: Option<string>,
    kind: Option<string>,
    status: Option<string>,
    content: Option<Value>,
    attempts: Option<nat>,
    lastError: Option<Option<string>>,
    dependsOn: Option<seq<Key>>,
    completedAt: Option<Option<string>>)

  datatype SectionsData = SectionsData(
    templateId: Option<string>,
    startedAt: Option<string>,
    updatedAt: Option<string>,
    round: Option<nat>,
    blocks: Option<seq<BlockData>>)

  datatype Fault = MissingKey | NotAStatus

  datatype Result<+T> = Ok(value: T) | Err(fault: Fault)

  function StatusText(s: BlockStatus): string {
    match s
    case Pending => "pending"
    case Success => "success"
    case Failed => "failed"
  }

  function ReadStatus(text: string): Option<BlockStatus> {
    if text == "pending" then Some(Pending)
    else if text == "success" then Some(Success)
    else if text == "failed" then Some(Failed)
    else None
  }

  function BlockToDict(b: Block): BlockData {
    BlockData(Some(b.key), Some(b.name), Some(b.kind), Some(StatusText(b.status)), Some(b.content), Some(b.attempts),
              Some(b.lastError), Some(b.dependsOn), Some(b.completedAt))
  }

  function ToDict(s: Sections): SectionsData {
    SectionsData(Some(s.templateId), Some(s.startedAt), Some(s.updatedAt), Some(s.round),
                 Some(seq(|s.blocks|, i requires 0 <= i < |s.blocks| => BlockToDict(s.blocks[i]))))
  }

  function BlockFromDict(d: BlockData): Result<Block> {
    if d.key.None? || d.name.None? || d.kind.None? || d.status.None? then Err(MissingKey)
    else if ReadStatus(d.status.value).None? then Err(NotAStatus)
    else
      Ok(Block(d.key.value, d.name.value, d.kind.value, ReadStatus(d.status.value).value, Or(d.content, Nothing),
               Or(d.attempts, 0), Or(d.lastError, None), Or(d.dependsOn, []), Or(d.completedAt, None)))
  }

  // blocks[b.key] = b: an equal key keeps its place and takes the new block.
  function Put(blocks: seq<Block>, b: Block): seq<Block> {
    if blocks == [] then [b]
    else if blocks[0].key == b.key then [b] + blocks[1..]
    else [blocks[0]] + Put(blocks[1..], b)
  }

  function BlocksFromDict(done: seq<Block>, rest: seq<BlockData>): Result<seq<Block>>
    decreases |rest|
  {
    if rest == [] then Ok(done)
    else
      match BlockFromDict(rest[0])
      case Err(fault) => Err(fault)
      case Ok(b) => BlocksFromDict(Put(done, b), rest[1..])
  }

  function FromDict(d: SectionsData): Result<Sections> {
    if d.templateId.None? || d.startedAt.None? || d.updatedAt.None? then Err(MissingKey)
    else
      match BlocksFromDict([], Or(d.blocks, []))
      case Err(fault) => Err(fault)
      case Ok(blocks) =>
        Ok(Sections(d.templateId.value, d.startedAt.value, d.updatedAt.value, Or(d.round, 0), blocks))
  }

  // The classmethod as it runs, block by block.
  method LoadSections(d: SectionsData) returns (r: Result<Sections>)
    ensures r == FromDict(d)
  {
    if d.templateId.None? || d.startedAt.None? || d.updatedAt.None? {
      return Err(MissingKey);
    }
    var rest := Or(d.blocks, []);
    var blocks: seq<Block> := [];
    for i := 0 to |rest|
      invariant BlocksFromDict([], rest) == BlocksFromDict(blocks, rest[i..])
    {
      var b := BlockFromDict(rest[i]);
      assert rest[i..][1..] == rest[i + 1..];
      if b.Err? {
        return Err(b.fault);
      }
      blocks := Put(blocks, b.value);
    }
    r := Ok(Sections(d.templateId.value, d.startedAt.value, d.updatedAt.value, Or(d.round, 0), blocks));
  }

  // ---------------------------------------------------------------- round trip

  ghost predicate DistinctKeys(blocks: seq<Block>) {
    forall i, j | 0 <= i < j < |blocks| :: blocks[i].key != blocks[j].key
  }

  lemma {:induction false} PutNewAppends(blocks: seq<Block>, b: Block)
    requires forall i | 0 <= i < |blocks| :: blocks[i].key != b.key
    ensures Put(blocks, b) == blocks + [b]
  {
    if blocks != [] {
      PutNewAppends(blocks[1..], b);
      assert blocks == [blocks[0]] + blocks[1..];
    }
  }

  lemma {:induction false} PutKeepsKeys(blocks: seq<Block>, b: Block)
    ensures |blocks| <= |Put(blocks, b)|
    ensures forall i | 0 <= i < |blocks| :: Put(blocks, b)[i].key == blocks[i].key
    ensures |Put(blocks, b)| > |blocks| ==>
              Put(blocks, b) == blocks + [b] && forall i | 0 <= i < |blocks| :: blocks[i].key != b.key
    ensures |Put(blocks, b)| <= |blocks| + 1
  {
    if blocks != [] && blocks[0].key != b.key {
      PutKeepsKeys(blocks[1..], b);
      assert blocks == [blocks[0]] + blocks[1..];
    }
  }

  lemma PutKeepsDistinct(blocks: seq<Block>, b: Block)
    requires DistinctKeys(blocks)
    ensures DistinctKeys(Put(blocks, b))
  {
    PutKeepsKeys(blocks, b);
  }

  // Whatever was stored, reading it never yields one key twice.
  lemma {:induction false} ReadingYieldsDistinctKeys(done: seq<Block>, rest: seq<BlockData>)
    requires DistinctKeys(done)
    ensures BlocksFromDict(done, rest).Ok? ==> DistinctKeys(BlocksFromDict(done, rest).value)
    decreases |rest|
  {
    if rest != [] && BlockFromDict(rest[0]).Ok? {
      PutKeepsDistinct(done, BlockFromDict(rest[0]).value);
      ReadingYieldsDistinctKeys(Put(done, BlockFromDict(rest[0]).value), rest[1..]);
    }
  }

  // Reading fails exactly on a block that lacks a required member or names no status.
  lemma {:induction false} ReadingFailsIff(done: seq<Block>, rest: seq<BlockData>)
    ensures BlocksFromDict(done, rest).Ok? <==> forall i | 0 <= i < |rest| :: BlockFromDict(rest[i]).Ok?
    decreases |rest|
  {
    if rest != [] && BlockFromDict(rest[0]).Ok? {
      ReadingFailsIff(Put(done, BlockFromDict(rest[0]).value), rest[1..]);
      assert forall i | 1 <= i < |rest| :: rest[i] == rest[1..][i - 1];
    }
  }

  function Dicts(blocks: seq<Block>): seq<BlockData> {
    ToDict(Sections("", "", "", 0, blocks)).blocks.value
  }

  lemma {:induction false} BlocksRoundTrip(done: seq<Block>, rest: seq<Block>)
    requires DistinctKeys(done + rest)
    ensures BlocksFromDict(done, Dicts(rest)) == Ok(done + rest)
    decreases |rest|
  {
    if rest == [] {
      assert done + rest == done;
    } else {
      assert Dicts(rest)[1..] == Dicts(rest[1..]);
      assert BlockFromDict(Dicts(rest)[0]) == Ok(rest[0]);
      assert (done + rest)[|done|] == rest[0] && forall i | 0 <= i < |done| :: (done + rest)[i] == done[i];
      PutNewAppends(done, rest[0]);
      assert done + [rest[0]] + rest[1..] == done + rest;
      BlocksRoundTrip(done + [rest[0]], rest[1..]);
    }
  }

  // Storing a state and reading it back gives the same state, exactly if no key occurs twice.
  lemma RoundTripIffDistinct(s: Sections)
    ensures FromDict(ToDict(s)) == Ok(s) <==> DistinctKeys(s.blocks)
  {
    assert ToDict(s).blocks.value == Dicts(s.blocks);
    if DistinctKeys(s.blocks) {
      assert [] + s.blocks == s.blocks;
      BlocksRoundTrip([], s.blocks);
    } else {
      ReadingYieldsDistinctKeys([], Dicts(s.blocks));
    }
  }

  lemma ShapedKeysAreDistinct(blocks: seq<Block>)
    requires Shaped(blocks)
    ensures DistinctKeys(blocks)
  {
  }

  // Killed after any save, reloaded from what was saved and run again: nothing that was saved is
  // lost, and headings stay as they were under the sections they produced.
  lemma ReloadAndResume(first: seq<RoundEnv>, second: seq<RoundEnv>, started: int, restarted: int, k: nat,
      head: Sections)
    requires k < |Rounds(InitBlocks(), 1, started, first).saved|
    ensures var kept := Rounds(InitBlocks(), 1, started, first).saved[k];
            && FromDict(ToDict(head.(blocks := kept))) == Ok(head.(blocks := kept))
            && Consistent(kept) && RunOk(kept, Rounds(kept, 1, restarted, second), true)
            && (|kept| > GROUP ==> HeadingsOf(Rounds(kept, 1, restarted, second).blocks) == HeadingsOf(kept))
  {
    var kept := Rounds(InitBlocks(), 1, started, first).saved[k];
    CrashAndResume(first, second, started, restarted, k);
    assert Shaped(kept);
    ShapedKeysAreDistinct(kept);
    RoundTripIffDistinct(head.(blocks := kept));
  }
}
