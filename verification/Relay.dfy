/**
  The SSE relay of one assistant message: live worker events arrive over a channel that may lose
  them, and periodic reads of the stored row repair what was lost.
*/
module Relay {
  import opened Messages
  import opened Wrappers

  // The row as the relay reads it; a null or absent partial content is the empty text.
  datatype Snapshot = Snapshot(status: Status, content: string, partial: string, sequence: int)

  datatype Read = Missing | Found(row: Snapshot) | ReadFails

  // A decoded Pub/Sub payload. `Other` is any type the relay passes on without looking at it.
  datatype Event =
    | Malformed
    | NotAnObject
    | Token(text: string, number: Option<int>)
    | Content(text: string, number: Option<int>)
    | Finished(text: string)
    | Failure
    | Other(text: string)

  // What one turn of the loop observes: an event, a quiet timeout followed by a read, or an error.
  datatype Observation = Heard(event: Event) | Quiet(read: Read) | Broken

  datatype Problem = NotFound | AgentFailed | RelayUnavailable

  datatype Emission =
    | Accepted
    | StatusNow(status: Status)
    | PartialRestore(text: string)
    | TokenOut(text: string)
    | ContentOut(text: string)
    | DoneOut(text: string)
    | ErrorOut(problem: Problem)
    | Ping
    | OtherOut(text: string)

  datatype Cursor = Cursor(lastPartial: string, sequence: int)

  datatype Turn = Turn(cursor: Cursor, out: seq<Emission>, ended: bool)

  predicate Final(e: Emission) {
    e.DoneOut? || e.ErrorOut?
  }

  // A completed or failed row ends the stream; otherwise nothing is said yet.
  function Verdict(read: Read): Option<seq<Emission>> {
    match read
    case ReadFails => Some([ErrorOut(RelayUnavailable)])
    case Missing => Some([ErrorOut(NotFound)])
    case Found(row) =>
      if row.status == Completed then Some([ContentOut(row.content), DoneOut(row.content)])
      else if row.status in {Failed, Cancelled} then Some([ErrorOut(AgentFailed)])
      else None
  }

  // The read right after subscribing.
  function OnFirst(read: Read): Turn {
    var start := Cursor("", 0);
    match Verdict(read)
    case Some(out) => Turn(start, out, true)
    case None =>
      var row := read.row;
      if row.partial != "" then
        Turn(Cursor(row.partial, row.sequence), [PartialRestore(row.partial), StatusNow(row.status)], false)
      else Turn(start, [StatusNow(row.status)], false)
  }

  function OnQuiet(c: Cursor, read: Read): Turn {
    match Verdict(read)
    case Some(out) => Turn(c, out, true)
    case None =>
      var row := read.row;
      if row.partial != "" && row.partial != c.lastPartial then
        Turn(Cursor(row.partial, Max(c.sequence, row.sequence)), [PartialRestore(row.partial), Ping], false)
      else Turn(c, [Ping], false)
  }

  predicate Outdated(c: Cursor, number: Option<int>) {
    number.Some? && number.value <= c.sequence
  }

  function OnEvent(c: Cursor, e: Event): Turn {
    match e
    case Malformed => Turn(c, [], false)
    case NotAnObject => Turn(c, [], false)
    case Failure => Turn(c, [ErrorOut(AgentFailed)], true)
    case Token(text, number) => Turn(c, if Outdated(c, number) then [] else [TokenOut(text)], false)
    case Content(text, number) =>
      if Outdated(c, number) then Turn(c, [], false)
      else Turn(if number.Some? then c.(sequence := Max(c.sequence, number.value)) else c, [ContentOut(text)], false)
    case Finished(text) => Turn(c, [DoneOut(text)], true)
    case Other(text) => Turn(c, [OtherOut(text)], false)
  }

  function Observe(c: Cursor, o: Observation): Turn {
    match o
    case Heard(e) => OnEvent(c, e)
    case Quiet(read) => OnQuiet(c, read)
    case Broken => Turn(c, [ErrorOut(RelayUnavailable)], true)
  }

  function Follow(c: Cursor, script: seq<Observation>): Turn
    decreases |script|
  {
    if script == [] then Turn(c, [], false)
    else
      var turn := Observe(c, script[0]);
      if turn.ended then turn
      else
        var rest := Follow(turn.cursor, script[1..]);
        rest.(out := turn.out + rest.out)
  }

  // A whole relay: `accepted` when the endpoint supplied ids. A script that runs out is a client
  // that went away.
  function Whole(accepted: bool, subscribed: bool, first: Read, script: seq<Observation>): Turn {
    var greeting := if accepted then [Accepted] else [];
    var opening := if subscribed then OnFirst(first) else Turn(Cursor("", 0), [ErrorOut(RelayUnavailable)], true);
    if opening.ended then opening.(out := greeting + opening.out)
    else
      var rest := Follow(opening.cursor, script);
      rest.(out := greeting + opening.out + rest.out)
  }

  class RelaySession {
    var lastPartial: string
    var sequence: int
    var out: seq<Emission>

    constructor ()
      ensures lastPartial == "" && sequence == 0 && out == []
    {
      lastPartial, sequence, out := "", 0, [];
    }

    function Now(): Cursor
      reads this
    {
      Cursor(lastPartial, sequence)
    }

    method Say(e: Emission)
      modifies this`out
      ensures out == old(out) + [e]
    {
      out := out + [e];
    }

    // The checks shared by both reads of the row; true when the stream is over.
    method Conclude(read: Read) returns (ended: bool)
      modifies this`out
      ensures ended == Verdict(read).Some?
      ensures out == old(out) + if ended then Verdict(read).value else []
    {
      ended := true;
      match read
      case ReadFails => Say(ErrorOut(RelayUnavailable));
      case Missing => Say(ErrorOut(NotFound));
      case Found(row) =>
        if row.status == Completed {
          Say(ContentOut(row.content));
          Say(DoneOut(row.content));
        } else if row.status in {Failed, Cancelled} {
          Say(ErrorOut(AgentFailed));
        } else {
          ended := false;
        }
    }

    method Hear(e: Event) returns (ended: bool)
      modifies this
      ensures old(out) <= out
      ensures Turn(Now(), out[|old(out)|..], ended) == OnEvent(old(Now()), e)
    {
      ended := false;
      match e
      case Malformed =>
      case NotAnObject =>
      case Failure =>
        Say(ErrorOut(AgentFailed));
        ended := true;
      case Token(text, number) =>
        if number.None? || number.value > sequence {
          Say(TokenOut(text));
        }
      case Content(text, number) =>
        if number.None? || number.value > sequence {
          if number.Some? {
            sequence := Max(sequence, number.value);
          }
          Say(ContentOut(text));
        }
      case Finished(text) =>
        Say(DoneOut(text));
        ended := true;
      case Other(text) =>
        Say(OtherOut(text));
    }

    method Poll(read: Read) returns (ended: bool)
      modifies this
      ensures old(out) <= out
      ensures Turn(Now(), out[|old(out)|..], ended) == OnQuiet(old(Now()), read)
      ensures read.Found? && ActiveStatus(read.row.status) ==>
                var restores := read.row.partial != "" && read.row.partial != old(lastPartial);
                && !ended && out == old(out) + (if restores then [PartialRestore(read.row.partial)] else []) + [Ping]
                && lastPartial == (if restores then read.row.partial else old(lastPartial))
                && sequence == if restores then Max(old(sequence), read.row.sequence) else old(sequence)
    {
      ended := Conclude(read);
      if !ended {
        var row := read.row;
        if row.partial != "" && row.partial != lastPartial {
          lastPartial := row.partial;
          sequence := Max(sequence, row.sequence);
          Say(PartialRestore(lastPartial));
        }
        Say(Ping);
      }
    }

    method Open(accepted: bool, subscribed: bool, first: Read) returns (ended: bool)
      requires lastPartial == "" && sequence == 0 && out == []
      modifies this
      ensures Turn(Now(), out, ended) == Whole(accepted, subscribed, first, [])
    {
      if accepted {
        Say(Accepted);
      }
      if !subscribed {
        Say(ErrorOut(RelayUnavailable));
        return true;
      }
      ended := Conclude(first);
      if !ended {
        var row := first.row;
        if row.partial != "" {
          lastPartial, sequence := row.partial, row.sequence;
          Say(PartialRestore(lastPartial));
        }
        Say(StatusNow(row.status));
      }
    }

    // One turn of the loop.
    method Watch(o: Observation) returns (ended: bool)
      modifies this
      ensures old(out) <= out
      ensures Turn(Now(), out[|old(out)|..], ended) == Observe(old(Now()), o)
    {
      match o {
        case Heard(e) => ended := Hear(e);
        case Quiet(read) => ended := Poll(read);
        case Broken =>
          Say(ErrorOut(RelayUnavailable));
          ended := true;
      }
    }

    // The generator: everything it yields while the script lasts, and whether it ended by itself.
    method Run(accepted: bool, subscribed: bool, first: Read, script: seq<Observation>) returns (ended: bool)
      requires lastPartial == "" && sequence == 0 && out == []
      modifies this
      ensures Turn(Now(), out, ended) == Whole(accepted, subscribed, first, script)
    {
      ended := Open(accepted, subscribed, first);
      ghost var goal := Whole(accepted, subscribed, first, script);
      WholeIsOpeningThenFollow(accepted, subscribed, first, script);
      assert script[0..] == script;
      var i := 0;
      while !ended && i < |script|
        invariant 0 <= i <= |script|
        invariant goal == if ended then Turn(Now(), out, ended) else Continue(out, Follow(Now(), script[i..]))
        decreases |script| - i
      {
        ghost var said, before := out, Now();
        ended := Watch(script[i]);
        ContinueOne(said, before, script, i, Turn(Now(), out[|said|..], ended));
        assert out == said + out[|said|..];
        i := i + 1;
      }
    }
  }

  function Continue(said: seq<Emission>, rest: Turn): Turn {
    rest.(out := said + rest.out)
  }

  lemma WholeIsOpeningThenFollow(accepted: bool, subscribed: bool, first: Read, script: seq<Observation>)
    ensures var opening := Whole(accepted, subscribed, first, []);
            Whole(accepted, subscribed, first, script)
            == if opening.ended then opening else Continue(opening.out, Follow(opening.cursor, script))
  {
  }

  lemma ContinueOne(said: seq<Emission>, c: Cursor, script: seq<Observation>, i: nat, turn: Turn)
    requires i < |script| && turn == Observe(c, script[i])
    ensures Continue(said, Follow(c, script[i..]))
            == if turn.ended then Continue(said, turn)
               else Continue(said + turn.out, Follow(turn.cursor, script[i + 1..]))
  {
  }

  // ---------------------------------------------------------------- grammar

  // No final emission except, when the stream ended by itself, the last one.
  ghost predicate WellEnded(out: seq<Emission>, ended: bool) {
    && (forall i | 0 <= i < |out| - 1 :: !Final(out[i]))
    && (ended ==> out != [] && Final(out[|out| - 1]))
    && (!ended && out != [] ==> !Final(out[|out| - 1]))
    && Accepted !in out
  }

  lemma {:induction false} FollowWellEnded(c: Cursor, script: seq<Observation>)
    ensures WellEnded(Follow(c, script).out, Follow(c, script).ended)
    decreases |script|
  {
    if script != [] {
      var turn := Observe(c, script[0]);
      if !turn.ended {
        FollowWellEnded(turn.cursor, script[1..]);
      }
    }
  }

  lemma PrependKeepsWellEnded(head: seq<Emission>, out: seq<Emission>, ended: bool)
    requires WellEnded(out, ended) && forall e | e in head :: !Final(e) && e != Accepted
    ensures WellEnded(head + out, ended)
  {
  }

  lemma PlainWhole(first: Read, script: seq<Observation>)
    requires !OnFirst(first).ended
    ensures Whole(false, true, first, script) == Continue(OnFirst(first).out, Follow(OnFirst(first).cursor, script))
  {
    assert [] + OnFirst(first).out == OnFirst(first).out;
  }

  lemma OpeningIsPlain(first: Read)
    ensures var o := OnFirst(first);
            if o.ended then WellEnded(o.out, true) else forall e | e in o.out :: !Final(e) && e != Accepted
  {
  }

  lemma WholeWellEnded(subscribed: bool, first: Read, script: seq<Observation>)
    ensures var w := Whole(false, subscribed, first, script);
            WellEnded(w.out, w.ended) && (!subscribed ==> w.ended && w.out == [ErrorOut(RelayUnavailable)])
  {
    OpeningIsPlain(first);
    if subscribed {
      var opening := OnFirst(first);
      if opening.ended {
        assert [] + opening.out == opening.out;
      } else {
        var rest := Follow(opening.cursor, script);
        PlainWhole(first, script);
        FollowWellEnded(opening.cursor, script);
        PrependKeepsWellEnded(opening.out, rest.out, rest.ended);
      }
    }
  }

  // Every run says `accepted` exactly once and first if the ids were supplied, even when
  // subscribing fails, and never otherwise; a run that was not cut off ends with its only `done`
  // or `error`, and a run that was cut off has said neither.
  lemma RelayGrammar(accepted: bool, subscribed: bool, first: Read, script: seq<Observation>)
    ensures var w := Whole(accepted, subscribed, first, script);
            && (accepted ==> w.out != [] && w.out[0] == Accepted)
            && var body := if accepted then w.out[1..] else w.out;
               WellEnded(body, w.ended) && (!subscribed ==> w.ended && body == [ErrorOut(RelayUnavailable)])
  {
    WholeWellEnded(subscribed, first, script);
    var w, plain := Whole(accepted, subscribed, first, script), Whole(false, subscribed, first, script);
    if accepted {
      assert w.out == [Accepted] + plain.out;
      assert w.out[1..] == plain.out;
    }
  }

  // What the browser shows: tokens are appended, restores and contents replace the text, and
  // `done` sets it to the final content.
  function Show(text: string, e: Emission): string {
    match e
    case TokenOut(t) => text + t
    case PartialRestore(t) => t
    case ContentOut(t) => t
    case DoneOut(t) => t
    case _ => text
  }

  function ShowAll(text: string, out: seq<Emission>): string
    decreases |out|
  {
    if out == [] then text else ShowAll(Show(text, out[0]), out[1..])
  }

  lemma {:induction false} ShowLast(text: string, out: seq<Emission>)
    requires out != []
    ensures ShowAll(text, out) == Show(ShowAll(text, out[..|out| - 1]), out[|out| - 1])
    decreases |out|
  {
    if |out| > 1 {
      ShowLast(Show(text, out[0]), out[1..]);
      assert out[1..][..|out| - 2] == out[..|out| - 1][1..];
    } else {
      assert out[..0] == [] && out[1..] == [];
    }
  }

  // A run that read a completed row shows exactly the stored content, whatever it heard before.
  lemma CompletedRowIsShown(c: Cursor, shown: string, read: Read)
    requires read.Found? && read.row.status == Completed
    ensures OnQuiet(c, read).ended && ShowAll(shown, OnQuiet(c, read).out) == read.row.content
    ensures OnFirst(read).ended && ShowAll(shown, OnFirst(read).out) == read.row.content
  {
    ShowLast(shown, OnQuiet(c, read).out);
    ShowLast(shown, OnFirst(read).out);
  }

  // ---------------------------------------------------------------- ordering

  // The persisted sequence never decreases.
  lemma {:induction false} SequenceNeverDecreases(c: Cursor, script: seq<Observation>)
    ensures Follow(c, script).cursor.sequence >= c.sequence
    decreases |script|
  {
    if script != [] && !Observe(c, script[0]).ended {
      SequenceNeverDecreases(Observe(c, script[0]).cursor, script[1..]);
    }
  }

  // Worker, channel, row, relay and browser together. `chunks` are the tokens the worker has
  // produced, numbered from 1; `picks` are the numbers of the chunks in the browser's text.
  datatype Phase = Away | Subscribed | Following(cursor: Cursor) | Over | Cut

  datatype World = World(
    chunks: seq<string>,
    row: Snapshot,
    wire: seq<Event>,
    phase: Phase,
    shown: string,
    picks: seq<nat>)

  datatype Move =
    | Produce(token: string)
    | SavePartial
    | PublishContent
    | Complete
    | PublishDone
    | FailRow
    | PublishError
    | PublishOther(text: string)
    | Lose(i: nat)
    | Subscribe
    | ReadFirst
    | HearNext
    | PollRow
    | CutOff

  function Flat(chunks: seq<string>): string
    decreases |chunks|
  {
    if chunks == [] then "" else Flat(chunks[..|chunks| - 1]) + chunks[|chunks| - 1]
  }

  function Upto(n: nat): seq<nat> {
    seq(n, i requires 0 <= i < n => i + 1)
  }

  predicate Working(w: World) {
    ActiveStatus(w.row.status)
  }

  // A worker learns that its row was failed only at its next save, and keeps publishing until then.
  predicate Publishing(w: World) {
    w.row.status != Completed
  }

  // The chunk numbers behind what the relay passed on of an event.
  function PicksAfter(w: World, e: Event, out: seq<Emission>): seq<nat> {
    if out == [] then w.picks
    else
      match e
      case Token(_, number) => if number.Some? && number.value >= 0 then w.picks + [number.value] else w.picks
      case Content(_, number) => if number.Some? && number.value >= 0 then Upto(number.value) else w.picks
      case Finished(_) => Upto(|w.chunks|)
      case _ => w.picks
  }

  function PicksOfRead(w: World, out: seq<Emission>): seq<nat> {
    if out != [] && out[0].ContentOut? then Upto(|w.chunks|)
    else if out != [] && out[0].PartialRestore? && w.row.sequence >= 0 then Upto(w.row.sequence)
    else w.picks
  }

  function Deliver(w: World, turn: Turn, picks: seq<nat>): World {
    w.(phase := if turn.ended then Over else Following(turn.cursor), shown := ShowAll(w.shown, turn.out),
        picks := picks)
  }

  function Step(w: World, m: Move): World {
    match m
    case Produce(token) =>
      if !Publishing(w) then w
      else w.(chunks := w.chunks + [token], wire := w.wire + [Token(token, Some(|w.chunks| + 1))])
    case SavePartial =>
      if !Working(w) then w
      else w.(row := w.row.(status := Generating, partial := Flat(w.chunks), sequence := |w.chunks|))
    case PublishContent =>
      if !Publishing(w) then w else w.(wire := w.wire + [Content(Flat(w.chunks), Some(|w.chunks|))])
    case Complete =>
      if !Working(w) then w
      else w.(row := Snapshot(Completed, Flat(w.chunks), "", 0))
    case PublishDone =>
      if w.row.status != Completed then w else w.(wire := w.wire + [Finished(w.row.content)])
    case FailRow =>
      if !Working(w) then w else w.(row := Snapshot(Failed, AGENT_FAILURE_CONTENT, "", w.row.sequence))
    case PublishError =>
      if w.row.status != Failed then w else w.(wire := w.wire + [Failure])
    case PublishOther(text) => w.(wire := w.wire + [Other(text)])
    case Lose(i) => if i >= |w.wire| then w else w.(wire := w.wire[..i] + w.wire[i + 1..])
    case Subscribe => if w.phase != Away then w else w.(phase := Subscribed, wire := [])
    case ReadFirst =>
      if w.phase != Subscribed then w
      else var turn := OnFirst(Found(w.row)); Deliver(w, turn, PicksOfRead(w, turn.out))
    case HearNext =>
      if !w.phase.Following? || w.wire == [] then w
      else
        var turn := OnEvent(w.phase.cursor, w.wire[0]);
        Deliver(w, turn, PicksAfter(w, w.wire[0], turn.out)).(wire := w.wire[1..])
    case PollRow =>
      if !w.phase.Following? then w
      else var turn := OnQuiet(w.phase.cursor, Found(w.row)); Deliver(w, turn, PicksOfRead(w, turn.out))
    case CutOff => w.(phase := Cut)
  }

  function Play(w: World, moves: seq<Move>): World
    decreases |moves|
  {
    if moves == [] then w else Play(Step(w, moves[0]), moves[1..])
  }

  const QUEUED_ROW := Snapshot(Queued, "", "", 0)

  function Start(): World {
    World([], QUEUED_ROW, [], Away, "", [])
  }

  function NumberOf(e: Event): int {
    match e
    case Token(_, number) => if number.Some? then number.value else 0
    case Content(_, number) => if number.Some? then number.value else 0
    case _ => 0
  }

  // Genuine events of this worker, with the numbers in the order they were published.
  ghost predicate EventOk(w: World, e: Event) {
    match e
    case Token(text, number) => number.Some? && 1 <= number.value <= |w.chunks| && text == w.chunks[number.value - 1]
    case Content(text, number) =>
      number.Some? && 0 <= number.value <= |w.chunks| && text == Flat(w.chunks[..number.value])
    case Finished(text) => w.row.status == Completed && text == w.row.content
    case Failure => w.row.status == Failed
    case Other(_) => true
    case _ => false
  }

  ghost predicate WireOk(w: World) {
    && (forall i | 0 <= i < |w.wire| :: EventOk(w, w.wire[i]))
    && (forall i, j | 0 <= i < j < |w.wire| :: w.wire[j].Token? ==> NumberOf(w.wire[i]) < NumberOf(w.wire[j]))
  }

  ghost predicate RowOk(w: World) {
    && 0 <= w.row.sequence <= |w.chunks|
    && (Working(w) && w.row.partial != "" ==> w.row.partial == Flat(w.chunks[..w.row.sequence]))
    && (w.row.status == Completed ==> w.row.content == Flat(w.chunks))
    && (!Working(w) ==> w.row.partial == "")
  }

  ghost predicate Increasing(picks: seq<nat>) {
    forall i, j | 0 <= i < j < |picks| :: picks[i] < picks[j]
  }

  function Render(chunks: seq<string>, picks: seq<nat>): string
    requires forall i | 0 <= i < |picks| :: 1 <= picks[i] <= |chunks|
    decreases |picks|
  {
    if picks == [] then "" else Render(chunks, picks[..|picks| - 1]) + chunks[picks[|picks| - 1] - 1]
  }

  ghost predicate ShownOk(w: World) {
    && Increasing(w.picks)
    && (forall i | 0 <= i < |w.picks| :: 1 <= w.picks[i] <= |w.chunks|)
    && w.shown == Render(w.chunks, w.picks)
  }

  // Tokens still on the wire that the relay would pass on come after everything shown.
  ghost predicate WireAhead(w: World) {
    && (w.phase.Away? || w.phase.Subscribed? ==> w.picks == [])
    && (w.phase.Following? ==>
          && w.phase.cursor.sequence >= 0
          && forall i, k | 0 <= i < |w.wire| && 0 <= k < |w.picks| ::
               w.wire[i].Token? && NumberOf(w.wire[i]) > w.phase.cursor.sequence ==> w.picks[k] < NumberOf(w.wire[i]))
  }

  ghost predicate OverOk(w: World) {
    && (w.phase.Over? ==> !Working(w))
    && (w.phase.Over? && w.row.status == Completed ==> w.shown == w.row.content)
  }

  ghost predicate Inv(w: World) {
    WireOk(w) && RowOk(w) && ShownOk(w) && WireAhead(w) && OverOk(w)
  }

  lemma {:induction false} RenderFrame(chunks: seq<string>, more: seq<string>, picks: seq<nat>)
    requires forall i | 0 <= i < |picks| :: 1 <= picks[i] <= |chunks|
    ensures Render(chunks + more, picks) == Render(chunks, picks)
    decreases |picks|
  {
    if picks != [] { RenderFrame(chunks, more, picks[..|picks| - 1]); }
  }

  lemma {:induction false} RenderPrefix(chunks: seq<string>, n: nat)
    requires n <= |chunks|
    ensures Increasing(Upto(n)) && (forall i | 0 <= i < n :: 1 <= Upto(n)[i] <= |chunks|)
    ensures Render(chunks, Upto(n)) == Flat(chunks[..n])
  {
    if n > 0 {
      RenderPrefix(chunks, n - 1);
      assert Upto(n)[..n - 1] == Upto(n - 1);
      assert chunks[..n][..n - 1] == chunks[..n - 1];
    }
  }

  lemma ProduceKeepsInv(w: World, token: string)
    requires Inv(w) && Publishing(w)
    ensures Inv(Step(w, Produce(token)))
  {
    var w' := Step(w, Produce(token));
    RenderFrame(w.chunks, [token], w.picks);
    assert forall n | 0 <= n <= |w.chunks| :: w'.chunks[..n] == w.chunks[..n];
    assert forall i | 0 <= i < |w.wire| :: EventOk(w, w.wire[i]);
    assert forall i | 0 <= i < |w.wire| :: NumberOf(w.wire[i]) <= |w.chunks|;
  }

  // A row that the worker rewrote, with the events of its wire still genuine.
  lemma RowWriteKeepsInv(w: World, row: Snapshot)
    requires Inv(w) && Working(w) && RowOk(w.(row := row))
    ensures Inv(w.(row := row))
  {
  }

  lemma PublishKeepsWire(w: World, e: Event)
    requires WireOk(w) && EventOk(w, e) && !e.Token?
    ensures WireOk(w.(wire := w.wire + [e]))
  {
    var longer := w.wire + [e];
    forall i | 0 <= i < |longer|
      ensures EventOk(w.(wire := longer), longer[i])
    {
      assert longer[i] == if i < |w.wire| then w.wire[i] else e;
    }
  }

  lemma PublishKeepsAhead(w: World, e: Event)
    requires WireAhead(w) && !e.Token?
    ensures WireAhead(w.(wire := w.wire + [e]))
  {
  }

  lemma PublishKeepsInv(w: World, e: Event)
    requires Inv(w) && EventOk(w, e) && !e.Token?
    ensures Inv(w.(wire := w.wire + [e]))
  {
    PublishKeepsWire(w, e);
    PublishKeepsAhead(w, e);
  }

  lemma WorkerKeepsInv(w: World, m: Move)
    requires Inv(w) && (m.Produce? || m.SavePartial? || m.PublishContent? || m.Complete? || m.PublishDone? || m.FailRow?
                        || m.PublishError? || m.PublishOther?)
    ensures Inv(Step(w, m))
  {
    assert w.chunks[..|w.chunks|] == w.chunks;
    if Step(w, m) != w {
      match m {
        case Produce(token) => ProduceKeepsInv(w, token);
        case PublishContent => PublishKeepsInv(w, Content(Flat(w.chunks), Some(|w.chunks|)));
        case PublishDone => PublishKeepsInv(w, Finished(w.row.content));
        case PublishError => PublishKeepsInv(w, Failure);
        case PublishOther(text) => PublishKeepsInv(w, Other(text));
        case _ => RowWriteKeepsInv(w, Step(w, m).row);
      }
    }
  }

  // Part of the wire, in its order.
  lemma LossKeepsInv(w: World, wire: seq<Event>, at: seq<nat>)
    requires Inv(w) && |at| == |wire|
    requires forall i | 0 <= i < |at| :: at[i] < |w.wire| && wire[i] == w.wire[at[i]]
    requires forall i, j | 0 <= i < j < |at| :: at[i] < at[j]
    ensures Inv(w.(wire := wire))
  {
  }

  lemma ChannelKeepsInv(w: World, m: Move)
    requires Inv(w) && (m.Lose? || m.Subscribe? || m.CutOff?)
    ensures Inv(Step(w, m))
  {
    if m.Lose? && m.i < |w.wire| {
      LossKeepsInv(w, w.wire[..m.i] + w.wire[m.i + 1..],
                   seq(|w.wire| - 1, k requires 0 <= k < |w.wire| - 1 => if k < m.i then k else k + 1));
    }
  }

  lemma ShowOne(text: string, a: Emission)
    ensures ShowAll(text, [a]) == Show(text, a)
  {
  }

  lemma ShowTwo(text: string, a: Emission, b: Emission)
    ensures ShowAll(text, [a, b]) == Show(Show(text, a), b)
  {
    assert [a, b][1..] == [b];
    ShowOne(Show(text, a), b);
  }

  // Replacing the text by the first n chunks is right whenever the relay's sequence covers them.
  lemma PrefixShownKeepsInv(w: World, n: nat, phase: Phase)
    requires WireOk(w) && RowOk(w) && n <= |w.chunks|
    requires phase.Following? ==> phase.cursor.sequence >= n
    requires phase.Over? ==> !Working(w) && (w.row.status == Completed ==> n == |w.chunks|)
    requires !phase.Away? && !phase.Subscribed?
    ensures Inv(w.(phase := phase, shown := Flat(w.chunks[..n]), picks := Upto(n)))
  {
    RenderPrefix(w.chunks, n);
    assert w.chunks[..|w.chunks|] == w.chunks;
  }

  predicate Reads(w: World, m: Move) {
    (m.ReadFirst? && w.phase == Subscribed) || (m.PollRow? && w.phase.Following?)
  }

  function CursorFor(w: World): Cursor {
    if w.phase.Following? then w.phase.cursor else Cursor("", 0)
  }

  lemma FinalReadStep(w: World, m: Move)
    requires Reads(w, m) && !Working(w)
    ensures Step(w, m) == if w.row.status == Completed
                          then w.(phase := Over, shown := w.row.content, picks := Upto(|w.chunks|))
                          else w.(phase := Over)
  {
    ShownContent(w.shown, w.row);
    ShowOne(w.shown, ErrorOut(AgentFailed));
  }

  lemma ShownContent(shown: string, row: Snapshot)
    ensures row.status == Completed ==> ShowAll(shown, [ContentOut(row.content), DoneOut(row.content)]) == row.content
  {
    ShowTwo(shown, ContentOut(row.content), DoneOut(row.content));
  }

  lemma FinalReadKeepsInv(w: World, m: Move)
    requires Inv(w) && Reads(w, m) && !Working(w)
    ensures Inv(Step(w, m))
  {
    FinalReadStep(w, m);
    if w.row.status == Completed {
      assert w.chunks[..|w.chunks|] == w.chunks;
      PrefixShownKeepsInv(w, |w.chunks|, Over);
    }
  }

  lemma RestoreKeepsInv(w: World, m: Move)
    requires Inv(w) && Reads(w, m) && Working(w) && w.row.partial != "" && w.row.partial != CursorFor(w).lastPartial
    ensures Inv(Step(w, m))
  {
    var w' := Step(w, m);
    ShowTwo(w.shown, PartialRestore(w.row.partial), if m.PollRow? then Ping else StatusNow(w.row.status));
    PrefixShownKeepsInv(w, w.row.sequence, w'.phase);
    assert w' == w.(phase := w'.phase, shown := w.row.partial, picks := Upto(w.row.sequence));
  }

  lemma IdleReadKeepsInv(w: World, m: Move)
    requires Inv(w) && Reads(w, m) && Working(w) && (w.row.partial == "" || w.row.partial == CursorFor(w).lastPartial)
    requires m.ReadFirst? ==> w.row.partial == ""
    ensures Inv(Step(w, m))
  {
    var w' := Step(w, m);
    ShowOne(w.shown, if m.PollRow? then Ping else StatusNow(w.row.status));
    assert w' == w.(phase := w'.phase);
  }

  lemma ReadKeepsInv(w: World, m: Move)
    requires Inv(w) && (m.ReadFirst? || m.PollRow?)
    ensures Inv(Step(w, m))
  {
    if Reads(w, m) {
      if !Working(w) {
        FinalReadKeepsInv(w, m);
      } else if w.row.partial != "" && w.row.partial != CursorFor(w).lastPartial {
        RestoreKeepsInv(w, m);
      } else {
        IdleReadKeepsInv(w, m);
      }
    }
  }

  lemma PickedKeepsShown(w: World, k: nat)
    requires ShownOk(w) && 1 <= k <= |w.chunks| && forall i | 0 <= i < |w.picks| :: w.picks[i] < k
    ensures ShownOk(w.(shown := w.shown + w.chunks[k - 1], picks := w.picks + [k]))
  {
    assert (w.picks + [k])[..|w.picks|] == w.picks;
  }

  lemma PickedKeepsAhead(w: World, k: nat)
    requires WireOk(w) && WireAhead(w) && w.phase.Following? && w.wire != [] && w.wire[0].Token?
    requires NumberOf(w.wire[0]) == k > w.phase.cursor.sequence
    ensures forall i | 0 <= i < |w.picks| :: w.picks[i] < k
    ensures WireAhead(w.(wire := w.wire[1..], shown := w.shown, picks := w.picks + [k]))
  {
  }

  lemma TokenShownKeepsInv(w: World, k: nat)
    requires Inv(w) && w.phase.Following? && w.wire != [] && w.wire[0].Token? && NumberOf(w.wire[0]) == k
    requires k > w.phase.cursor.sequence && 1 <= k <= |w.chunks|
    ensures Inv(w.(wire := w.wire[1..], shown := w.shown + w.chunks[k - 1], picks := w.picks + [k]))
  {
    HeadLostKeepsInv(w);
    PickedKeepsAhead(w, k);
    PickedKeepsShown(w, k);
  }

  lemma TokenStep(w: World, text: string, k: nat)
    requires w.phase.Following? && w.wire != [] && w.wire[0] == Token(text, Some(k))
    ensures Step(w, HearNext) == if k <= w.phase.cursor.sequence then w.(wire := w.wire[1..]) else
              w.(wire := w.wire[1..], shown := w.shown + text, picks := w.picks + [k])
  {
    ShowOne(w.shown, TokenOut(text));
  }

  lemma TokenKeepsInv(w: World)
    requires Inv(w) && w.phase.Following? && w.wire != [] && w.wire[0].Token?
    ensures Inv(Step(w, HearNext))
  {
    var text, k := HeadToken(w);
    TokenStep(w, text, k);
    HeadLostKeepsInv(w);
    if k > w.phase.cursor.sequence {
      TokenShownKeepsInv(w, k);
    }
  }

  lemma HeadToken(w: World) returns (text: string, k: nat)
    requires WireOk(w) && w.wire != [] && w.wire[0].Token?
    ensures w.wire[0] == Token(text, Some(k)) && 1 <= k <= |w.chunks| && text == w.chunks[k - 1]
  {
    assert EventOk(w, w.wire[0]);
    text, k := w.wire[0].text, w.wire[0].number.value;
  }

  lemma HeadLostKeepsInv(w: World)
    requires Inv(w) && w.wire != []
    ensures Inv(w.(wire := w.wire[1..]))
  {
  }

  lemma ContentKeepsInv(w: World)
    requires Inv(w) && w.phase.Following? && w.wire != [] && w.wire[0].Content?
    ensures Inv(Step(w, HearNext))
  {
    var e, w' := w.wire[0], Step(w, HearNext);
    var tail := w.(wire := w.wire[1..]);
    assert EventOk(w, e);
    HeadLostKeepsInv(w);
    if e.number.value > w.phase.cursor.sequence {
      PrefixShownKeepsInv(tail, e.number.value, w'.phase);
      ShowOne(w.shown, ContentOut(e.text));
      assert w' == tail.(phase := w'.phase, shown := e.text, picks := Upto(e.number.value));
    } else {
      assert w' == tail;
    }
  }

  lemma EndKeepsInv(w: World)
    requires Inv(w) && w.phase.Following? && w.wire != [] && (w.wire[0].Finished? || w.wire[0].Failure?)
    ensures Inv(Step(w, HearNext))
  {
    var e, w' := w.wire[0], Step(w, HearNext);
    var tail := w.(wire := w.wire[1..]);
    assert EventOk(w, e);
    HeadLostKeepsInv(w);
    if e.Finished? {
      assert w.chunks[..|w.chunks|] == w.chunks;
      PrefixShownKeepsInv(tail, |w.chunks|, Over);
      ShowOne(w.shown, DoneOut(e.text));
      assert w' == tail.(phase := Over, shown := e.text, picks := Upto(|w.chunks|));
    } else {
      ShowOne(w.shown, ErrorOut(AgentFailed));
      assert w' == tail.(phase := Over);
    }
  }

  // Any other event is passed on and changes nothing that is shown.
  lemma OtherKeepsInv(w: World)
    requires Inv(w) && w.phase.Following? && w.wire != [] && w.wire[0].Other?
    ensures Inv(Step(w, HearNext))
  {
    HeadLostKeepsInv(w);
    ShowOne(w.shown, OtherOut(w.wire[0].text));
    assert Step(w, HearNext) == w.(wire := w.wire[1..]);
  }

  lemma HearKeepsInv(w: World, m: Move)
    requires Inv(w) && m.HearNext?
    ensures Inv(Step(w, m))
  {
    if w.phase.Following? && w.wire != [] {
      assert EventOk(w, w.wire[0]);
      if w.wire[0].Token? {
        TokenKeepsInv(w);
      } else if w.wire[0].Content? {
        ContentKeepsInv(w);
      } else if w.wire[0].Other? {
        OtherKeepsInv(w);
      } else {
        EndKeepsInv(w);
      }
    }
  }

  lemma StepKeepsInv(w: World, m: Move)
    requires Inv(w)
    ensures Inv(Step(w, m))
  {
    if m.HearNext? {
      HearKeepsInv(w, m);
    } else if m.ReadFirst? || m.PollRow? {
      ReadKeepsInv(w, m);
    } else if m.Lose? || m.Subscribe? || m.CutOff? {
      ChannelKeepsInv(w, m);
    } else {
      WorkerKeepsInv(w, m);
    }
  }

  lemma {:induction false} InvForever(w: World, moves: seq<Move>)
    requires Inv(w)
    ensures Inv(Play(w, moves))
    decreases |moves|
  {
    if moves != [] {
      StepKeepsInv(w, moves[0]);
      InvForever(Step(w, moves[0]), moves[1..]);
    }
  }

  // Whatever is dropped, saved, published or read when, the browser's text is a choice of the
  // worker's chunks with strictly increasing numbers, and a stream ended by completion shows
  // exactly the stored content.
  lemma TextIsChunksInOrder(moves: seq<Move>)
    ensures var w := Play(Start(), moves);
            && Increasing(w.picks) && (forall i | 0 <= i < |w.picks| :: 1 <= w.picks[i] <= |w.chunks|)
            && w.shown == Render(w.chunks, w.picks)
            && (w.phase.Over? && w.row.status == Completed ==> w.shown == w.row.content == Flat(w.chunks))
  {
    InvForever(Start(), moves);
  }

  // ---------------------------------------------------------------- what the order rests on

  datatype Numbered = Numbered(text: string, number: int)

  function HeardTokens(tokens: seq<Numbered>): seq<Observation>
    decreases |tokens|
  {
    if tokens == [] then []
    else [Heard(Token(tokens[0].text, Some(tokens[0].number)))] + HeardTokens(tokens[1..])
  }

  // The tokens above a sequence number, in arrival order.
  function Above(tokens: seq<Numbered>, sequence: int): seq<Numbered>
    decreases |tokens|
  {
    if tokens == [] then []
    else (if tokens[0].number > sequence then [tokens[0]] else []) + Above(tokens[1..], sequence)
  }

  function Outs(tokens: seq<Numbered>): seq<Emission>
    decreases |tokens|
  {
    if tokens == [] then [] else [TokenOut(tokens[0].text)] + Outs(tokens[1..])
  }

  // Tokens do not advance the sequence: between two reads the browser gets the tokens above it in
  // the channel's own order and with the channel's own repetitions. The text is in order exactly
  // if those tokens arrived in order, which a restarted worker that numbers from 1 again breaks.
  lemma {:induction false} LiveTokensKeepChannelOrder(c: Cursor, tokens: seq<Numbered>)
    ensures Follow(c, HeardTokens(tokens)) == Turn(c, Outs(Above(tokens, c.sequence)), false)
    decreases |tokens|
  {
    if tokens != [] {
      LiveTokensKeepChannelOrder(c, tokens[1..]);
      assert HeardTokens(tokens)[1..] == HeardTokens(tokens[1..]);
      if tokens[0].number > c.sequence {
        assert Above(tokens, c.sequence)[1..] == Above(tokens[1..], c.sequence);
      } else {
        assert Above(tokens, c.sequence) == Above(tokens[1..], c.sequence);
      }
    }
  }

  // The tokens of a worker run that numbers its chunks from k on.
  function NumberedFrom(chunks: seq<string>, k: int): seq<Numbered>
    decreases |chunks|
  {
    if chunks == [] then [] else [Numbered(chunks[0], k)] + NumberedFrom(chunks[1..], k + 1)
  }

  lemma {:induction false} AllAbove(chunks: seq<string>, k: int, n: int)
    requires n < k
    ensures Outs(Above(NumberedFrom(chunks, k), n)) == OutsOf(chunks)
    decreases |chunks|
  {
    if chunks != [] {
      var rest := NumberedFrom(chunks[1..], k + 1);
      AllAbove(chunks[1..], k + 1, n);
      assert NumberedFrom(chunks, k)[1..] == rest;
      assert Above(NumberedFrom(chunks, k), n)[1..] == Above(rest, n);
    }
  }

  lemma {:induction false} AboveNumbered(chunks: seq<string>, k: int, n: nat)
    requires k <= n + 1
    ensures Outs(Above(NumberedFrom(chunks, k), n)) == OutsOf(if n - k + 1 <= |chunks| then chunks[n - k + 1..] else [])
    decreases |chunks|
  {
    if k == n + 1 {
      AllAbove(chunks, k, n);
      assert chunks[0..] == chunks;
    } else if chunks != [] {
      var rest := NumberedFrom(chunks[1..], k + 1);
      AboveNumbered(chunks[1..], k + 1, n);
      assert NumberedFrom(chunks, k)[1..] == rest;
      assert Above(NumberedFrom(chunks, k), n) == Above(rest, n);
      assert n - k + 1 <= |chunks| ==> chunks[n - k + 1..] == chunks[1..][n - k..];
    }
  }

  function OutsOf(chunks: seq<string>): seq<Emission>
    decreases |chunks|
  {
    if chunks == [] then [] else [TokenOut(chunks[0])] + OutsOf(chunks[1..])
  }

  lemma {:induction false} FlatFront(first: string, rest: seq<string>)
    ensures Flat([first] + rest) == first + Flat(rest)
    decreases |rest|
  {
    if rest == [] {
      assert ([first] + rest)[..0] == [] && ([first] + rest)[0] == first;
      assert "" + first == first && first + "" == first;
    } else {
      assert ([first] + rest)[..|rest|] == [first] + rest[..|rest| - 1];
      FlatFront(first, rest[..|rest| - 1]);
    }
  }

  lemma {:induction false} TokensAppend(shown: string, chunks: seq<string>)
    ensures ShowAll(shown, OutsOf(chunks)) == shown + Flat(chunks)
    decreases |chunks|
  {
    if chunks == [] {
      assert shown + "" == shown;
    } else {
      TokensAppend(shown + chunks[0], chunks[1..]);
      assert chunks == [chunks[0]] + chunks[1..];
      FlatFront(chunks[0], chunks[1..]);
      assert shown + chunks[0] + Flat(chunks[1..]) == shown + (chunks[0] + Flat(chunks[1..]));
    }
  }

  // A restarted worker numbers its chunks from 1 again: to whatever the browser shows, the relay
  // adds the chunks of the new run above its sequence, the first `sequence` of them being skipped.
  lemma RestartedWorkerIsSpliced(c: Cursor, shown: string, chunks: seq<string>)
    requires c.sequence >= 0
    ensures ShowAll(shown, Follow(c, HeardTokens(NumberedFrom(chunks, 1))).out)
            == shown + Flat(if c.sequence <= |chunks| then chunks[c.sequence..] else [])
  {
    LiveTokensKeepChannelOrder(c, NumberedFrom(chunks, 1));
    AboveNumbered(chunks, 1, c.sequence);
    TokensAppend(shown, if c.sequence <= |chunks| then chunks[c.sequence..] else []);
    assert chunks[0..] == chunks;
  }

  lemma SwappedTokensAreShownSwapped(c: Cursor, a: string, b: string)
    requires c.sequence == 0
    ensures ShowAll("", Follow(c, HeardTokens([Numbered(b, 2), Numbered(a, 1)])).out) == b + a
  {
    var tokens := [Numbered(b, 2), Numbered(a, 1)];
    LiveTokensKeepChannelOrder(c, tokens);
    assert tokens[1..] == [Numbered(a, 1)] && tokens[1..][1..] == [];
    assert Above(tokens[1..][1..], 0) == [];
    assert Above(tokens[1..], 0) == [Numbered(a, 1)];
    assert Above(tokens, 0) == tokens;
    assert Outs(tokens[1..]) == [TokenOut(a)] + Outs([]);
    assert Outs(tokens) == [TokenOut(b), TokenOut(a)];
    ShowTwo("", TokenOut(b), TokenOut(a));
  }
}
