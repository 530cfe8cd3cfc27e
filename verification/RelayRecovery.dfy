/**
  What the relay is for: a read of the row brings back what the channel lost, and nothing that the
  channel delivers is lost by the relay itself.
*/
module RelayRecovery {
  import opened Messages
  import opened Relay
  import opened Wrappers

  // ---------------------------------------------------------------- one read

  predicate CountsUp(picks: seq<nat>, n: int) {
    |picks| == n && forall i | 0 <= i < |picks| :: picks[i] == i + 1
  }

  // The sequence above which the relay passes tokens on.
  function Passed(w: World): int {
    if w.phase.Following? then w.phase.cursor.sequence else 0
  }

  // A read of an active row whose partial text is not the one last restored: the browser shows
  // exactly that text, which is chunks 1 up to the row's sequence, and the stream goes on.
  lemma RestoreIsShown(w: World, m: Move)
    requires Reads(w, m) && ActiveStatus(w.row.status) && w.row.partial != "" && w.row.sequence >= 0
    requires m.PollRow? ==> w.phase.cursor.lastPartial != w.row.partial
    ensures var w' := Step(w, m);
            && w'.phase.Following? && w'.shown == w.row.partial && CountsUp(w'.picks, w.row.sequence)
            && w'.phase.cursor.lastPartial == w.row.partial && Passed(w') == Max(Passed(w), w.row.sequence)
            && w'.wire == w.wire && w'.row == w.row && w'.chunks == w.chunks
  {
    ShowTwo(w.shown, PartialRestore(w.row.partial), if m.PollRow? then Ping else StatusNow(w.row.status));
  }

  // Any other read of an active row changes nothing but that the stream has begun.
  lemma OtherReadsAreQuiet(w: World, m: Move)
    requires Reads(w, m) && ActiveStatus(w.row.status)
    requires w.row.partial == "" || (m.PollRow? && w.phase.cursor.lastPartial == w.row.partial)
    ensures var w' := Step(w, m);
            && w' == w.(phase := w'.phase) && w'.phase.Following?
            && (m.PollRow? ==> w'.phase == w.phase)
            && (m.ReadFirst? ==> w'.phase.cursor.lastPartial == "" && Passed(w') == 0)
  {
    ShowOne(w.shown, if m.PollRow? then Ping else StatusNow(w.row.status));
  }

  // A token at the head of the wire is appended exactly if its number is above the sequence.
  lemma HeadTokenIsAppended(w: World, text: string, k: nat)
    requires w.phase.Following? && w.wire != [] && w.wire[0] == Token(text, Some(k))
    ensures var w' := Step(w, HearNext);
            && w'.shown == (if k > Passed(w) then w.shown + text else w.shown)
            && w'.picks == (if k > Passed(w) then w.picks + [k] else w.picks)
            && w'.wire == w.wire[1..] && w'.phase == w.phase && w'.row == w.row && w'.chunks == w.chunks
  {
    TokenStep(w, text, k);
  }

  // After a restore the row's next token is appended to the restored text, exactly unless content that
  // was heard before had gone beyond the row.
  lemma RestoreGoesOn(w: World, m: Move, text: string)
    requires Reads(w, m) && ActiveStatus(w.row.status) && w.row.partial != "" && w.row.sequence >= 0
    requires m.PollRow? ==> w.phase.cursor.lastPartial != w.row.partial
    requires w.wire != [] && w.wire[0] == Token(text, Some(w.row.sequence + 1))
    ensures Step(Step(w, m), HearNext).shown
            == if Passed(w) <= w.row.sequence then w.row.partial + text else w.row.partial
  {
    RestoreIsShown(w, m);
    HeadTokenIsAppended(Step(w, m), text, w.row.sequence + 1);
  }

  function QuietTimeouts(script: seq<Observation>): nat
    decreases |script|
  {
    if script == [] then 0 else (if script[0].Quiet? then 1 else 0) + QuietTimeouts(script[1..])
  }

  // As long as the stream goes on, the client hears one ping for every quiet timeout, and no other.
  lemma {:induction false} EveryQuietTimeoutPings(c: Cursor, script: seq<Observation>)
    requires !Follow(c, script).ended
    ensures multiset(Follow(c, script).out)[Ping] == QuietTimeouts(script)
    decreases |script|
  {
    if script != [] {
      var turn := Observe(c, script[0]);
      EveryQuietTimeoutPings(turn.cursor, script[1..]);
      assert multiset(turn.out)[Ping] == if script[0].Quiet? then 1 else 0;
      assert Follow(c, script).out == turn.out + Follow(turn.cursor, script[1..]).out;
    }
  }

  function OthersHeard(script: seq<Observation>): seq<string>
    decreases |script|
  {
    if script == [] then []
    else
      (if script[0].Heard? && script[0].event.Other? then [script[0].event.text] else []) + OthersHeard(script[1..])
  }

  function OthersSaid(out: seq<Emission>): seq<string> {
    if out == [] then [] else (if out[0].OtherOut? then [out[0].text] else []) + OthersSaid(out[1..])
  }

  lemma {:induction false} OthersSaidConcat(a: seq<Emission>, b: seq<Emission>)
    ensures OthersSaid(a + b) == OthersSaid(a) + OthersSaid(b)
    decreases |a|
  {
    if a == [] {
      assert a + b == b;
    } else {
      assert (a + b)[0] == a[0] && (a + b)[1..] == a[1..] + b;
      OthersSaidConcat(a[1..], b);
    }
  }

  // Events of any other type reach the client as they are, each once and in their order.
  lemma {:induction false} OtherEventsPass(c: Cursor, script: seq<Observation>)
    requires !Follow(c, script).ended
    ensures OthersSaid(Follow(c, script).out) == OthersHeard(script)
    decreases |script|
  {
    if script != [] {
      var turn := Observe(c, script[0]);
      OtherEventsPass(turn.cursor, script[1..]);
      OthersSaidConcat(turn.out, Follow(turn.cursor, script[1..]).out);
      OneTurnsOthers(c, script[0]);
    }
  }

  lemma OneTurnsOthers(c: Cursor, o: Observation)
    requires !Observe(c, o).ended
    ensures OthersSaid(Observe(c, o).out) == if o.Heard? && o.event.Other? then [o.event.text] else []
  {
    var out := Observe(c, o).out;
    if |out| == 2 { assert out[1..] == [out[1]] && out[1..][1..] == []; }
  }

  // The last word that an observation gives rise to, if it ends the stream.
  function LastWord(o: Observation): Option<Emission> {
    match o
    case Broken => Some(ErrorOut(RelayUnavailable))
    case Heard(Failure) => Some(ErrorOut(AgentFailed))
    case Heard(Finished(text)) => Some(DoneOut(text))
    case Heard(_) => None
    case Quiet(ReadFails) => Some(ErrorOut(RelayUnavailable))
    case Quiet(Missing) => Some(ErrorOut(Problem.NotFound))
    case Quiet(Found(row)) =>
      if row.status == Completed then Some(DoneOut(row.content))
      else if row.status == Failed || row.status == Cancelled then Some(ErrorOut(AgentFailed)) else None
  }

  lemma OneTurnsReason(c: Cursor, o: Observation)
    ensures var turn := Observe(c, o);
            if turn.ended then turn.out != [] && LastWord(o) == Some(turn.out[|turn.out| - 1]) else LastWord(o).None?
  {
  }

  // Observation i is the first that has a last word, and that word comes last.
  ghost predicate EndsAt(script: seq<Observation>, out: seq<Emission>, i: nat) {
    && i < |script| && (forall j | 0 <= j < i :: LastWord(script[j]).None?)
    && out != [] && LastWord(script[i]) == Some(out[|out| - 1])
  }

  // The stream ends at the first observation that has a last word, and with that word.
  lemma {:induction false} TheReasonIsSaid(c: Cursor, script: seq<Observation>)
    ensures Follow(c, script).ended ==> exists i: nat :: EndsAt(script, Follow(c, script).out, i)
    ensures !Follow(c, script).ended ==> forall i | 0 <= i < |script| :: LastWord(script[i]).None?
    decreases |script|
  {
    if script != [] {
      var turn := Observe(c, script[0]);
      OneTurnsReason(c, script[0]);
      if turn.ended {
        assert EndsAt(script, turn.out, 0);
      } else {
        var rest := Follow(turn.cursor, script[1..]);
        TheReasonIsSaid(turn.cursor, script[1..]);
        assert forall i | 0 < i < |script| :: script[i] == script[1..][i - 1];
        if rest.ended {
          var i: nat :| EndsAt(script[1..], rest.out, i);
          EndsLater(script, turn.out, rest.out, i);
        }
      }
    }
  }

  lemma EndsLater(script: seq<Observation>, first: seq<Emission>, rest: seq<Emission>, i: nat)
    requires script != [] && LastWord(script[0]).None? && EndsAt(script[1..], rest, i)
    ensures EndsAt(script, first + rest, i + 1)
  {
    assert (first + rest)[|first + rest| - 1] == rest[|rest| - 1];
    assert forall j | 0 < j < |script| :: script[j] == script[1..][j - 1];
  }

  // The client is told the status of an active row first thing, after its partial text if it has any.
  lemma OpeningTells(row: Snapshot, script: seq<Observation>)
    requires ActiveStatus(row.status)
    ensures var first := (if row.partial != "" then [PartialRestore(row.partial)] else []) + [StatusNow(row.status)];
            first <= Whole(false, true, Found(row), script).out
  {
  }

  // ---------------------------------------------------------------- over every run

  // What is shown begins with the partial text last restored, chunks 1 to s.
  ghost predicate RootedAt(w: World, s: nat) {
    && w.phase.Following? && s <= |w.chunks| && s <= |w.picks| && s <= w.phase.cursor.sequence
    && w.phase.cursor.lastPartial == Flat(w.chunks[..s]) && w.picks[..s] == Upto(s)
  }

  ghost predicate Rooted(w: World) {
    w.phase.Following? ==> exists s: nat :: RootedAt(w, s)
  }

  lemma PrefixLength(w: World)
    requires Inv(w) && Working(w) && w.row.partial != ""
    ensures 0 <= w.row.sequence <= |w.chunks| && w.row.partial == Flat(w.chunks[..w.row.sequence])
  {
  }

  lemma ReadKeepsRooted(w: World, m: Move)
    requires Inv(w) && Rooted(w) && Reads(w, m)
    ensures Rooted(Step(w, m))
    ensures Working(w) && w.row.partial != "" ==>
              Step(w, m).phase.Following? && Step(w, m).phase.cursor.lastPartial == w.row.partial
              && Step(w, m).row == w.row
  {
    var w' := Step(w, m);
    if !Working(w) {
      FinalReadStep(w, m);
    } else if w.row.partial != "" && (m.PollRow? ==> w.phase.cursor.lastPartial != w.row.partial) {
      PrefixLength(w);
      RestoreIsShown(w, m);
      var s: nat := w.row.sequence;
      assert w'.picks[..s] == Upto(s);
      assert RootedAt(w', s);
    } else {
      OtherReadsAreQuiet(w, m);
      if m.PollRow? {
        var s: nat :| RootedAt(w, s);
        assert RootedAt(w', s);
      } else {
        assert Flat(w'.chunks[..0]) == "" && RootedAt(w', 0);
      }
    }
  }

  lemma TokenKeepsRooted(w: World)
    requires Inv(w) && Rooted(w) && w.phase.Following? && w.wire != [] && w.wire[0].Token?
    ensures Rooted(Step(w, HearNext))
  {
    var text, k := HeadToken(w);
    HeadTokenIsAppended(w, text, k);
    var s: nat :| RootedAt(w, s);
    assert Step(w, HearNext).picks[..s] == w.picks[..s];
    assert RootedAt(Step(w, HearNext), s);
  }

  // A content event above the sequence shows the chunks it counts.
  lemma ContentStep(w: World, text: string, n: nat)
    requires w.phase.Following? && w.wire != [] && w.wire[0] == Content(text, Some(n))
    ensures var w' := Step(w, HearNext);
            && w'.wire == w.wire[1..] && w'.row == w.row && w'.chunks == w.chunks && w'.phase.Following?
            && w'.phase.cursor.lastPartial == w.phase.cursor.lastPartial
            && if n > Passed(w) then w'.shown == text && CountsUp(w'.picks, n) && Passed(w') == n
               else w'.shown == w.shown && w'.picks == w.picks && Passed(w') == Passed(w)
  {
    if n > Passed(w) { ShowOne(w.shown, ContentOut(text)); }
  }

  lemma ContentKeepsRooted(w: World)
    requires Inv(w) && Rooted(w) && w.phase.Following? && w.wire != [] && w.wire[0].Content?
    ensures Rooted(Step(w, HearNext))
  {
    assert EventOk(w, w.wire[0]);
    var n, w' := w.wire[0].number.value, Step(w, HearNext);
    ContentStep(w, w.wire[0].text, n);
    var s: nat :| RootedAt(w, s);
    if n > Passed(w) { assert w'.picks[..s] == Upto(s); }
    assert RootedAt(w', s);
  }

  // Any other event leaves what is shown alone, or ends the stream.
  lemma OtherEventStep(w: World)
    requires w.phase.Following? && w.wire != [] && !w.wire[0].Token? && !w.wire[0].Content?
    ensures var w' := Step(w, HearNext);
            && w'.wire == w.wire[1..] && w'.row == w.row && w'.chunks == w.chunks
            && if w.wire[0].Finished? || w.wire[0].Failure? then w'.phase.Over?
               else w'.phase == w.phase && w'.picks == w.picks && w'.shown == w.shown
  {
    if w.wire[0].Other? { ShowOne(w.shown, OtherOut(w.wire[0].text)); }
  }

  lemma HearKeepsRooted(w: World)
    requires Inv(w) && Rooted(w)
    ensures Rooted(Step(w, HearNext))
  {
    if w.phase.Following? && w.wire != [] {
      if w.wire[0].Token? {
        TokenKeepsRooted(w);
      } else if w.wire[0].Content? {
        ContentKeepsRooted(w);
      } else {
        OtherEventStep(w);
        var s: nat :| RootedAt(w, s);
        if Step(w, HearNext).phase.Following? { assert RootedAt(Step(w, HearNext), s); }
      }
    }
  }

  // The other moves never touch cursor or picks of a stream under way, and only add chunks.
  lemma OthersLeaveRelay(w: World, m: Move)
    requires !m.HearNext? && !m.ReadFirst? && !m.PollRow?
    ensures var w' := Step(w, m);
            && (w'.phase.Following? ==> w'.phase == w.phase && w'.picks == w.picks)
            && w.chunks <= w'.chunks
  {
  }

  lemma OthersKeepRooted(w: World, m: Move)
    requires Rooted(w) && !m.HearNext? && !m.ReadFirst? && !m.PollRow?
    ensures Rooted(Step(w, m))
  {
    OthersLeaveRelay(w, m);
    var w' := Step(w, m);
    if w'.phase.Following? {
      var s: nat :| RootedAt(w, s);
      assert w'.chunks[..s] == w.chunks[..s];
      assert RootedAt(w', s);
    }
  }

  lemma StepKeepsRooted(w: World, m: Move)
    requires Inv(w) && Rooted(w)
    ensures Rooted(Step(w, m))
  {
    if m.HearNext? {
      HearKeepsRooted(w);
    } else if m.ReadFirst? || m.PollRow? {
      if Reads(w, m) { ReadKeepsRooted(w, m); }
    } else {
      OthersKeepRooted(w, m);
    }
  }

  lemma {:induction false} RootedForever(w: World, moves: seq<Move>)
    requires Inv(w) && Rooted(w)
    ensures Inv(Play(w, moves)) && Rooted(Play(w, moves))
    decreases |moves|
  {
    if moves != [] {
      StepKeepsRooted(w, moves[0]);
      StepKeepsInv(w, moves[0]);
      RootedForever(Step(w, moves[0]), moves[1..]);
    }
  }

  lemma {:induction false} RenderStartsWith(chunks: seq<string>, picks: seq<nat>, s: nat)
    requires forall i | 0 <= i < |picks| :: 1 <= picks[i] <= |chunks|
    requires s <= |picks| && s <= |chunks| && picks[..s] == Upto(s)
    ensures Flat(chunks[..s]) <= Render(chunks, picks)
    decreases |picks|
  {
    if |picks| == s {
      assert picks == Upto(s);
      RenderPrefix(chunks, s);
    } else {
      var n := |picks| - 1;
      assert picks[..n][..s] == picks[..s];
      RenderStartsWith(chunks, picks[..n], s);
    }
  }

  // In every run, whatever was lost, delayed or heard before: once the relay has read an active row
  // with a partial text, that text is on screen, at the beginning of what is shown.
  lemma ReadBringsTheRowBack(moves: seq<Move>, m: Move)
    requires var w := Play(Start(), moves); Reads(w, m) && ActiveStatus(w.row.status) && w.row.partial != ""
    ensures var w := Play(Start(), moves);
            Step(w, m).phase.Following? && w.row.partial <= Step(w, m).shown
  {
    StartIsOk();
    RootedForever(Start(), moves);
    var w := Play(Start(), moves);
    ReadKeepsRooted(w, m);
    StepKeepsInv(w, m);
    RootedIsShown(Step(w, m));
  }

  lemma StartIsOk()
    ensures Inv(Start()) && Rooted(Start())
  {
  }

  lemma RootedIsShown(w: World)
    requires Inv(w) && Rooted(w) && w.phase.Following?
    ensures w.phase.cursor.lastPartial <= w.shown
  {
    var s: nat :| RootedAt(w, s);
    RenderStartsWith(w.chunks, w.picks, s);
  }

  // ---------------------------------------------------------------- nothing is lost by the relay

  predicate OnWire(wire: seq<Event>, k: nat) {
    exists i :: 0 <= i < |wire| && wire[i].Token? && NumberOf(wire[i]) == k
  }

  ghost predicate LaterOnWire(wire: seq<Event>, picked: nat, produced: nat) {
    forall k: nat | picked < k <= produced :: OnWire(wire, k)
  }

  // Contents still on the wire count at least what is shown, and all tokens before them.
  ghost predicate ContentsAhead(wire: seq<Event>, passed: int, picked: nat) {
    && (forall i | 0 <= i < |wire| && wire[i].Content? && NumberOf(wire[i]) > passed :: NumberOf(wire[i]) >= picked)
    && (forall i, j | 0 <= i < j < |wire| && wire[i].Token? && wire[j].Content? ::
          NumberOf(wire[i]) <= NumberOf(wire[j]))
  }

  // What is shown is chunks 1 to the number of picks, and every later chunk is still on its way.
  ghost predicate Lossless(w: World) {
    && !w.phase.Away?
    && (w.phase.Subscribed? ==> w.picks == [])
    && (w.phase.Following? || w.phase.Subscribed? ==>
          && w.picks == Upto(|w.picks|) && 0 <= Passed(w) <= |w.picks| <= |w.chunks|
          && LaterOnWire(w.wire, |w.picks|, |w.chunks|) && ContentsAhead(w.wire, Passed(w), |w.picks|))
  }

  lemma LongerWire(wire: seq<Event>, e: Event, passed: int, picked: nat, produced: nat)
    requires LaterOnWire(wire, picked, produced) && ContentsAhead(wire, passed, picked)
    requires e.Content? ==> NumberOf(e) >= picked
    requires e.Content? ==> forall i | 0 <= i < |wire| && wire[i].Token? :: NumberOf(wire[i]) <= NumberOf(e)
    ensures LaterOnWire(wire + [e], picked, produced) && ContentsAhead(wire + [e], passed, picked)
    ensures e.Token? && NumberOf(e) == produced + 1 ==> LaterOnWire(wire + [e], picked, produced + 1)
  {
    forall k: nat | OnWire(wire, k)
      ensures OnWire(wire + [e], k)
    {
      var i :| 0 <= i < |wire| && wire[i].Token? && NumberOf(wire[i]) == k;
      assert (wire + [e])[i] == wire[i];
    }
    if e.Token? { assert (wire + [e])[|wire|] == e; }
  }

  lemma ShorterWire(wire: seq<Event>, passed: int, picked: nat, produced: nat)
    requires wire != [] && LaterOnWire(wire, picked, produced) && ContentsAhead(wire, passed, picked)
    requires wire[0].Token? ==> NumberOf(wire[0]) <= picked
    ensures LaterOnWire(wire[1..], picked, produced) && ContentsAhead(wire[1..], passed, picked)
  {
    forall k: nat | picked < k <= produced
      ensures OnWire(wire[1..], k)
    {
      assert OnWire(wire, k);
      var i :| 0 <= i < |wire| && wire[i].Token? && NumberOf(wire[i]) == k;
      assert wire[1..][i - 1] == wire[i];
    }
  }

  lemma PublishKeepsLossless(w: World, m: Move)
    requires Inv(w) && Lossless(w) && (m.Produce? || m.PublishContent? || m.PublishDone? || m.PublishError?
                                       || m.PublishOther?)
    ensures Lossless(Step(w, m))
  {
    var w' := Step(w, m);
    if w' != w && (w.phase.Following? || w.phase.Subscribed?) {
      var e := w'.wire[|w.wire|];
      assert w'.wire == w.wire + [e];
      forall i | 0 <= i < |w.wire| && w.wire[i].Token?
        ensures NumberOf(w.wire[i]) <= |w.chunks|
      {
        assert EventOk(w, w.wire[i]);
      }
      LongerWire(w.wire, e, Passed(w), |w.picks|, |w.chunks|);
    }
  }

  lemma HeadIsLeast(w: World, k: nat)
    requires WireOk(w) && w.wire != [] && w.wire[0].Token? && OnWire(w.wire, k)
    ensures NumberOf(w.wire[0]) <= k
  {
    var i :| 0 <= i < |w.wire| && w.wire[i].Token? && NumberOf(w.wire[i]) == k;
    assert i > 0 ==> NumberOf(w.wire[0]) < NumberOf(w.wire[i]);
  }

  // The next chunk is the first one above the sequence on the wire.
  lemma HeadIsNext(w: World)
    requires Inv(w) && Lossless(w) && w.phase.Following? && w.wire != [] && w.wire[0].Token?
    ensures NumberOf(w.wire[0]) > Passed(w) ==> NumberOf(w.wire[0]) == |w.picks| + 1
  {
    var text, k := HeadToken(w);
    if k > Passed(w) {
      assert |w.picks| > 0 ==> w.picks[|w.picks| - 1] == |w.picks|;
      assert k > |w.picks|;
      HeadIsLeast(w, |w.picks| + 1);
    }
  }

  lemma ShownTokenKeepsLossless(w: World, k: nat, w': World)
    requires Lossless(w) && w.phase.Following? && w.wire != [] && w.wire[0].Token?
    requires NumberOf(w.wire[0]) == k == |w.picks| + 1 <= |w.chunks|
    requires w'.picks == w.picks + [k] && w'.wire == w.wire[1..] && w'.phase == w.phase && w'.chunks == w.chunks
    ensures Lossless(w')
  {
    ContentsPassHead(w.wire, Passed(w), |w.picks|);
    ShorterWire(w.wire, Passed(w), k, |w.chunks|);
    assert w.picks + [k] == Upto(k);
  }

  lemma SkippedHeadKeepsLossless(w: World, w': World)
    requires Lossless(w) && w.phase.Following? && w.wire != []
    requires w.wire[0].Token? ==> NumberOf(w.wire[0]) <= |w.picks|
    requires w'.picks == w.picks && w'.wire == w.wire[1..] && w'.phase == w.phase && w'.chunks == w.chunks
    ensures Lossless(w')
  {
    ShorterWire(w.wire, Passed(w), |w.picks|, |w.chunks|);
  }

  lemma TokenKeepsLossless(w: World)
    requires Inv(w) && Lossless(w) && w.phase.Following? && w.wire != [] && w.wire[0].Token?
    ensures Lossless(Step(w, HearNext))
  {
    var text, k := HeadToken(w);
    HeadIsNext(w);
    HeadTokenIsAppended(w, text, k);
    if k > Passed(w) {
      ShownTokenKeepsLossless(w, k, Step(w, HearNext));
    } else {
      SkippedHeadKeepsLossless(w, Step(w, HearNext));
    }
  }

  // Once the head, a token, is shown, the contents behind it still count all that is shown.
  lemma ContentsPassHead(wire: seq<Event>, passed: int, picked: nat)
    requires wire != [] && wire[0].Token? && NumberOf(wire[0]) == picked + 1 && ContentsAhead(wire, passed, picked)
    ensures ContentsAhead(wire, passed, picked + 1)
  {
  }

  lemma ContentKeepsLossless(w: World)
    requires Inv(w) && Lossless(w) && w.phase.Following? && w.wire != [] && w.wire[0].Content?
    ensures Lossless(Step(w, HearNext))
  {
    assert EventOk(w, w.wire[0]);
    var n: nat := w.wire[0].number.value;
    var w' := Step(w, HearNext);
    ContentStep(w, w.wire[0].text, n);
    ShorterWire(w.wire, Passed(w), |w.picks|, |w.chunks|);
    if n > Passed(w) {
      assert w'.picks == Upto(n) && n >= |w.picks|;
    }
  }

  lemma HearKeepsLossless(w: World)
    requires Inv(w) && Lossless(w)
    ensures Lossless(Step(w, HearNext))
  {
    if w.phase.Following? && w.wire != [] {
      if w.wire[0].Token? {
        TokenKeepsLossless(w);
      } else if w.wire[0].Content? {
        ContentKeepsLossless(w);
      } else {
        OtherEventStep(w);
        ShorterWire(w.wire, Passed(w), |w.picks|, |w.chunks|);
      }
    }
  }

  lemma FirstReadKeepsLossless(w: World)
    requires Inv(w) && Lossless(w) && w.phase == Subscribed
    ensures Lossless(Step(w, ReadFirst))
  {
    var w' := Step(w, ReadFirst);
    if !Working(w) {
      FinalReadStep(w, ReadFirst);
    } else if w.row.partial != "" {
      PrefixLength(w);
      RestoreIsShown(w, ReadFirst);
      assert w'.picks == Upto(w.row.sequence);
    } else {
      OtherReadsAreQuiet(w, ReadFirst);
    }
  }

  lemma StepKeepsLossless(w: World, m: Move)
    requires Inv(w) && Lossless(w) && !m.Lose? && !m.PollRow?
    ensures Lossless(Step(w, m))
  {
    if m.HearNext? {
      HearKeepsLossless(w);
    } else if m.ReadFirst? {
      if w.phase == Subscribed { FirstReadKeepsLossless(w); }
    } else if m.Produce? || m.PublishContent? || m.PublishDone? || m.PublishError? || m.PublishOther? {
      PublishKeepsLossless(w, m);
    }
  }

  // Before it subscribes the relay has neither heard nor missed anything.
  lemma SubscribeStartsLossless(w: World)
    requires Inv(w) && w.phase == Away && w.chunks == []
    ensures Lossless(Step(w, Subscribe))
  {
  }

  lemma {:induction false} LosslessForever(w: World, moves: seq<Move>)
    requires Inv(w) && Lossless(w) && forall m | m in moves :: !m.Lose? && !m.PollRow?
    ensures Inv(Play(w, moves)) && Lossless(Play(w, moves))
    decreases |moves|
  {
    if moves != [] {
      assert moves[0] in moves && forall m | m in moves[1..] :: m in moves;
      StepKeepsLossless(w, moves[0]);
      StepKeepsInv(w, moves[0]);
      LosslessForever(Step(w, moves[0]), moves[1..]);
    }
  }

  // What is shown is the beginning of the chunks, and the rest of them is on the wire.
  ghost predicate ShownSoFar(w: World, n: nat) {
    n <= |w.chunks| && w.shown == Flat(w.chunks[..n]) && LaterOnWire(w.wire, n, |w.chunks|)
  }

  lemma AllIsShown(w: World)
    requires Inv(w) && Lossless(w) && w.phase.Following?
    ensures ShownSoFar(w, |w.picks|)
    ensures w.wire == [] ==> w.shown == Flat(w.chunks)
  {
    var n := |w.picks|;
    RenderPrefix(w.chunks, n);
    if w.wire == [] {
      assert n < |w.chunks| ==> OnWire(w.wire, n + 1);
      assert w.chunks[..|w.chunks|] == w.chunks;
    }
  }

  lemma NothingIsDroppedFrom(w: World, after: seq<Move>)
    requires Inv(w) && Lossless(w) && forall m | m in after :: !m.Lose? && !m.PollRow?
    ensures var last := Play(w, after);
            last.phase.Following? ==> (exists n: nat :: ShownSoFar(last, n))
                                      && (last.wire == [] ==> last.shown == Flat(last.chunks))
  {
    LosslessForever(w, after);
    if Play(w, after).phase.Following? { AllIsShown(Play(w, after)); }
  }

  // A subscription made before the first token: whatever the worker saves, publishes and finishes in
  // between, in whatever order the row is first read and the events are heard, if the channel loses
  // nothing and no poll comes in between, the chunks not shown yet are on the wire, and once
  // everything was heard every chunk is shown.
  lemma NothingIsDropped(before: seq<Move>, after: seq<Move>)
    requires var w := Play(Start(), before); w.phase == Away && w.chunks == []
    requires forall m | m in after :: !m.Lose? && !m.PollRow?
    ensures var last := Play(Step(Play(Start(), before), Subscribe), after);
            last.phase.Following? ==> (exists n: nat :: ShownSoFar(last, n))
                                      && (last.wire == [] ==> last.shown == Flat(last.chunks))
  {
    var w := Play(Start(), before);
    StartIsOk();
    RootedForever(Start(), before);
    SubscribeStartsLossless(w);
    StepKeepsInv(w, Subscribe);
    NothingIsDroppedFrom(Step(w, Subscribe), after);
  }

  lemma Goes(w: World, m: Move, rest: seq<Move>, next: World)
    requires Step(w, m) == next
    ensures Play(w, [m] + rest) == Play(next, rest)
  {
  }

  // A poll in between can take back what was shown live: the row it restores is as old as its last save.
  lemma PollCanGoBack()
    ensures var row := Snapshot(Generating, "", "a", 1);
            var w := World(["a", "b"], row, [], Following(Cursor("", 0)), "ab", [1, 2]);
            && Play(Start(), [Subscribe] + ([ReadFirst] + ([Produce("a")] + ([SavePartial] + ([Produce("b")]
                               + ([HearNext] + ([HearNext] + []))))))) == w
            && Step(w, PollRow).shown == "a"
  {
    var row := Snapshot(Generating, "", "a", 1);
    var begun := Following(Cursor("", 0));
    var a, b := Token("a", Some(1)), Token("b", Some(2));
    var w2 := World([], QUEUED_ROW, [], begun, "", []);
    var w5 := World(["a", "b"], row, [a, b], begun, "", []);
    var w6 := World(["a", "b"], row, [b], begun, "a", [1]);
    var w := World(["a", "b"], row, [], begun, "ab", [1, 2]);
    var hears := [HearNext] + ([HearNext] + []);
    Goes(Start(), Subscribe, [ReadFirst] + ([Produce("a")] + ([SavePartial] + ([Produce("b")] + hears))),
         Start().(phase := Subscribed));
    FirstReadIsEmpty(w2);
    Goes(Start().(phase := Subscribed), ReadFirst, [Produce("a")] + ([SavePartial] + ([Produce("b")] + hears)), w2);
    ProducedAndSaved(w2, w5, hears);
    HeadTokenIsAppended(w5, "a", 1);
    assert Step(w5, HearNext) == w6;
    Goes(w5, HearNext, [HearNext] + [], w6);
    HeadTokenIsAppended(w6, "b", 2);
    assert Step(w6, HearNext) == w;
    Goes(w6, HearNext, [], w);
    RestoreIsShown(w, PollRow);
  }

  lemma FirstReadIsEmpty(w: World)
    requires w == World([], QUEUED_ROW, [], Following(Cursor("", 0)), "", [])
    ensures Step(Start().(phase := Subscribed), ReadFirst) == w
  {
    OtherReadsAreQuiet(Start().(phase := Subscribed), ReadFirst);
  }

  lemma ProducedAndSaved(w2: World, w5: World, rest: seq<Move>)
    requires w2 == World([], QUEUED_ROW, [], Following(Cursor("", 0)), "", [])
    requires w5 == World(["a", "b"], Snapshot(Generating, "", "a", 1), [Token("a", Some(1)), Token("b", Some(2))],
                         Following(Cursor("", 0)), "", [])
    ensures Play(w2, [Produce("a")] + ([SavePartial] + ([Produce("b")] + rest))) == Play(w5, rest)
  {
    var w3 := w2.(chunks := ["a"], wire := [Token("a", Some(1))]);
    var w4 := w3.(row := Snapshot(Generating, "", "a", 1));
    assert Flat(["a"]) == "a" by { assert ["a"][..0] == []; }
    Goes(w2, Produce("a"), [SavePartial] + ([Produce("b")] + rest), w3);
    Goes(w3, SavePartial, [Produce("b")] + rest, w4);
    Goes(w4, Produce("b"), rest, w5);
  }
}
