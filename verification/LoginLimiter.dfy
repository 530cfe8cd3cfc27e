/**
  The fixed-window limiter of failed logins, for one login id at a time: a counter key in the store
  whose expiry, set by the first failure, is the window. Times are in milliseconds.
*/
module LoginLimiter {
  import opened Wrappers

  const LIMIT: nat := 5
  const WINDOW: nat := 5 * 60 * 1000

  datatype Cell = Cell(count: nat, until: nat)

  predicate Live(cell: Option<Cell>, now: nat) {
    cell.Some? && now < cell.value.until
  }

  // The store's TTL answer for a live key: the rest in seconds, rounded to the nearest.
  function TtlSeconds(cell: Cell, now: nat): nat
    requires now < cell.until
  {
    (cell.until - now + 500) / 1000
  }

  // What Retry-After says.
  function RetryAfter(cell: Option<Cell>, now: nat): nat {
    if Live(cell, now) && TtlSeconds(cell.value, now) > 0 then TtlSeconds(cell.value, now) else WINDOW / 1000
  }

  // The script that records a failure.
  function AfterFailure(cell: Option<Cell>, now: nat): Cell {
    if !Live(cell, now) then Cell(1, now + WINDOW)
    else if cell.value.count == 0 || TtlSeconds(cell.value, now) == 0 then Cell(cell.value.count + 1, now + WINDOW)
    else Cell(cell.value.count + 1, cell.value.until)
  }

  predicate Blocked(cell: Option<Cell>, now: nat) {
    Live(cell, now) && cell.value.count >= LIMIT
  }

  // A refused request renews a key whose TTL reads as zero.
  function AfterRefusal(cell: Option<Cell>, now: nat): Option<Cell> {
    if Live(cell, now) && TtlSeconds(cell.value, now) == 0 then Some(cell.value.(until := now + WINDOW)) else cell
  }

  // One login request: the key is read at `at`; a refused request reads its TTL at `later`, any
  // other one has its password checked and recorded there.
  datatype Request = Request(at: nat, later: nat, valid: bool)

  // The failed password checks so far, each with the count its script returned.
  datatype Failure = Failure(at: nat, rank: nat)

  datatype State = State(cell: Option<Cell>, failures: seq<Failure>)

  function Handle(s: State, r: Request): State {
    if Blocked(s.cell, r.at) then s.(cell := AfterRefusal(s.cell, r.later))
    else if r.valid then s.(cell := None)
    else
      var cell := AfterFailure(s.cell, r.later);
      State(Some(cell), s.failures + [Failure(r.later, cell.count)])
  }

  function HandleAll(s: State, requests: seq<Request>): State
    decreases |requests|
  {
    if requests == [] then s else HandleAll(Handle(s, requests[0]), requests[1..])
  }

  // One at a time, none of them successful.
  ghost predicate InTurn(requests: seq<Request>, from: nat)
    decreases |requests|
  {
    requests == [] ||
      (from <= requests[0].at <= requests[0].later && !requests[0].valid && InTurn(requests[1..], requests[0].later))
  }

  // ---------------------------------------------------------------- the bound

  // Where the window of the newest failure began.
  function LastStart(failures: seq<Failure>): nat
    requires failures != []
  {
    var last := failures[|failures| - 1];
    if |failures| == 1 || last.rank <= 1 then last.at else LastStart(failures[..|failures| - 1])
  }

  ghost predicate RankOk(failures: seq<Failure>, k: nat)
    requires k < |failures|
  {
    && 1 <= failures[k].rank <= LIMIT
    && (failures[k].rank > 1 ==> k > 0 && failures[k].rank == failures[k - 1].rank + 1)
    && (k > 0 ==> failures[k - 1].at <= failures[k].at)
    && (k > 0 && failures[k].rank == 1 ==> failures[k].at >= LastStart(failures[..k]) + WINDOW)
  }

  ghost predicate Windowed(failures: seq<Failure>) {
    forall k | 0 <= k < |failures| :: RankOk(failures, k)
  }

  // The key remembers the newest window until it ends.
  ghost predicate Remembers(s: State, now: nat) {
    && (s.failures == [] ==> s.cell.None?)
    && (s.failures != [] ==>
          var last := s.failures[|s.failures| - 1];
          && s.cell.Some? && last.at <= now
          && s.cell.value.count == last.rank
          && s.cell.value.until >= LastStart(s.failures) + WINDOW)
  }

  lemma PrefixIsWindowed(failures: seq<Failure>, f: Failure)
    requires Windowed(failures) && RankOk(failures + [f], |failures|)
    ensures Windowed(failures + [f])
  {
    forall k | 0 <= k < |failures|
      ensures RankOk(failures + [f], k)
    {
      assert RankOk(failures, k) && (failures + [f])[..k] == failures[..k];
    }
  }

  lemma HandleKeepsWindows(s: State, r: Request, from: nat)
    requires Windowed(s.failures) && Remembers(s, from) && from <= r.at <= r.later && !r.valid
    ensures Windowed(Handle(s, r).failures) && Remembers(Handle(s, r), r.later)
  {
    var s' := Handle(s, r);
    if !Blocked(s.cell, r.at) {
      var f := s'.failures[|s.failures|];
      assert s'.failures[..|s.failures|] == s.failures;
      if s.failures != [] { assert RankOk(s.failures, |s.failures| - 1); }
      PrefixIsWindowed(s.failures, f);
    }
  }

  lemma {:induction false} RunKeepsWindows(s: State, requests: seq<Request>, from: nat)
    requires Windowed(s.failures) && Remembers(s, from) && InTurn(requests, from)
    ensures Windowed(HandleAll(s, requests).failures)
    decreases |requests|
  {
    if requests != [] {
      HandleKeepsWindows(s, requests[0], from);
      RunKeepsWindows(Handle(s, requests[0]), requests[1..], requests[0].later);
    }
  }

  lemma {:induction false} StartNearby(failures: seq<Failure>, k: nat) returns (start: nat)
    requires Windowed(failures) && k < |failures|
    ensures start <= k < start + failures[k].rank && failures[start].rank == 1
    ensures LastStart(failures[..k + 1]) == failures[start].at <= failures[k].at
    decreases k
  {
    assert RankOk(failures, k);
    if failures[k].rank == 1 {
      start := k;
    } else {
      start := StartNearby(failures, k - 1);
      assert failures[..k + 1][..k] == failures[..k];
    }
  }

  lemma {:induction false} TimesGrow(failures: seq<Failure>, i: nat, j: nat)
    requires Windowed(failures) && i <= j < |failures|
    ensures failures[i].at <= failures[j].at
    decreases j
  {
    if i < j {
      assert RankOk(failures, j);
      TimesGrow(failures, i, j - 1);
    }
  }

  // Eleven failures in a row take at least one whole window.
  lemma ElevenTakeAWindow(failures: seq<Failure>, i: nat)
    requires Windowed(failures) && i + 2 * LIMIT < |failures|
    ensures failures[i + 2 * LIMIT].at >= failures[i].at + WINDOW
  {
    var last := StartNearby(failures, i + 2 * LIMIT);
    assert RankOk(failures, i + 2 * LIMIT) && RankOk(failures, last);
    assert last > i + LIMIT;
    var first := StartNearby(failures, last - 1);
    assert RankOk(failures, last - 1);
    assert first > i;
    assert failures[last].at >= failures[first].at + WINDOW;
    TimesGrow(failures, i, first);
    TimesGrow(failures, last, i + 2 * LIMIT);
  }

  function Within(failures: seq<Failure>, from: int, k: nat): set<nat>
    requires k <= |failures|
  {
    set i: nat | i < k && from <= failures[i].at < from + WINDOW
  }

  lemma {:induction false} FewWithin(failures: seq<Failure>, from: int, k: nat)
    requires Windowed(failures) && k <= |failures|
    ensures |Within(failures, from, k)| <= 2 * LIMIT
    decreases k
  {
    if k == 0 {
      assert Within(failures, from, 0) == {};
    } else if !(from <= failures[k - 1].at < from + WINDOW) {
      assert Within(failures, from, k) == Within(failures, from, k - 1);
      FewWithin(failures, from, k - 1);
    } else {
      forall i: nat | i in Within(failures, from, k)
        ensures i > k - 1 - 2 * LIMIT
      {
        if i + 2 * LIMIT <= k - 1 {
          ElevenTakeAWindow(failures, i);
          TimesGrow(failures, i + 2 * LIMIT, k - 1);
        }
      }
      var recent := Range(k - 2 * LIMIT, k);
      assert forall i | i in Within(failures, from, k) :: i in recent;
      SubsetSize(Within(failures, from, k), recent);
    }
  }

  function Range(a: int, b: int): (r: set<int>)
    ensures forall i :: i in r <==> a <= i < b
    ensures a <= b ==> |r| == b - a
    decreases b - a
  {
    if a >= b then {} else Range(a, b - 1) + {b - 1}
  }

  lemma {:induction false} SubsetSize(a: set<nat>, b: set<int>)
    requires forall i | i in a :: i in b
    ensures |a| <= |b|
  {
    if i :| i in a {
      SubsetSize(a - {i}, b - {i});
    }
  }

  // Without a success, one window holds at most 5 failed checks (their ranks run from 1 to at most
  // 5), and any 300 s hold at most 10.
  lemma LimiterBound(requests: seq<Request>, from: int)
    requires InTurn(requests, 0)
    ensures var failures := HandleAll(State(None, []), requests).failures;
            Windowed(failures) && |Within(failures, from, |failures|)| <= 2 * LIMIT
  {
    RunKeepsWindows(State(None, []), requests, 0);
    var failures := HandleAll(State(None, []), requests).failures;
    FewWithin(failures, from, |failures|);
  }

  // ---------------------------------------------------------------- exactly five

  // Requests in one window, not in its last half second.
  ghost predicate WithinWindow(requests: seq<Request>, start: nat) {
    forall r | r in requests :: r.at <= r.later && r.later + 500 < start + 5 * 60 * 1000
  }

  function Checked(failures: nat, n: nat): nat
    requires failures <= 5
  {
    if failures + n <= 5 then n else 5 - failures
  }

  // A window under way, with this many failures counted.
  predicate Counting(s: State, count: nat, start: nat) {
    1 <= count <= 5 && s.cell == Some(Cell(count, start + 5 * 60 * 1000))
  }

  lemma CountingStep(s: State, r: Request, count: nat, start: nat)
    requires Counting(s, count, start) && !r.valid && r.at <= r.later && r.later + 500 < start + 5 * 60 * 1000
    ensures var s' := Handle(s, r);
            if count < 5 then Counting(s', count + 1, start) && |s'.failures| == |s.failures| + 1 else s' == s
  {
  }

  lemma {:induction false} RestOfTheWindow(s: State, requests: seq<Request>, count: nat, start: nat)
    requires Counting(s, count, start) && WithinWindow(requests, start) && forall r | r in requests :: !r.valid
    ensures |HandleAll(s, requests).failures| == |s.failures| + Checked(count, |requests|)
    decreases |requests|
  {
    if requests != [] {
      assert requests[0] in requests && forall r | r in requests[1..] :: r in requests;
      CountingStep(s, requests[0], count, start);
      RestOfTheWindow(Handle(s, requests[0]), requests[1..], if count < 5 then count + 1 else 5, start);
    }
  }

  // A successful login forgets the failures before it: of any wrong passwords that follow within one
  // window exactly the first five are looked at, as for a login id that never failed.
  lemma SuccessStartsOver(s: State, success: Request, requests: seq<Request>)
    requires success.valid && !Blocked(s.cell, success.at)
    requires requests != [] && WithinWindow(requests, requests[0].later) && forall r | r in requests :: !r.valid
    ensures Handle(s, success).cell == None && Handle(s, success).failures == s.failures
    ensures |HandleAll(Handle(s, success), requests).failures|
            == |s.failures| + if |requests| <= 5 then |requests| else 5
  {
    var cleared := Handle(s, success);
    assert requests[0] in requests && forall r | r in requests[1..] :: r in requests;
    var first := Handle(cleared, requests[0]);
    assert Counting(first, 1, requests[0].later);
    RestOfTheWindow(first, requests[1..], 1, requests[0].later);
  }

  // While a window lasts, Retry-After is the rest of it to the nearest second.
  lemma RetryAfterIsTheRest(cell: Cell, now: nat)
    requires Live(Some(cell), now)
    ensures var rest := cell.until - now;
            && (rest >= 500 ==> -500 <= 1000 * RetryAfter(Some(cell), now) - rest <= 500)
            && (rest < 500 ==> RetryAfter(Some(cell), now) == 300)
  {
  }

  // ---------------------------------------------------------------- what lengthens a window

  // A later request in a window lengthens it exactly if less than half a second of it is left,
  // because the TTL then reads as zero: a failure always, and a refused request as well.
  lemma WindowLengthenedIff(cell: Cell, now: nat)
    requires Live(Some(cell), now) && cell.count >= 1
    ensures AfterFailure(Some(cell), now).until == (if cell.until - now < 500 then now + WINDOW else cell.until)
    ensures AfterFailure(Some(cell), now).until > cell.until <==> cell.until - now < 500
    ensures AfterRefusal(Some(cell), now).value.until > cell.until <==> cell.until - now < 500
    ensures AfterRefusal(Some(cell), now).value.count == cell.count
  {
  }

  // One request that is refused in the last half second doubles the lock-out.
  lemma RefusalCanDoubleTheWindow(start: nat)
    ensures var locked := Some(Cell(LIMIT, start + WINDOW));
            var renewed := AfterRefusal(locked, start + WINDOW - 1);
            Blocked(locked, start + WINDOW - 1) && Blocked(renewed, start + 2 * WINDOW - 2)
  {
  }

  // ---------------------------------------------------------------- the store functions

  datatype Answer = Allowed | RateLimited(retryAfter: nat)

  class Limiter {
    var keys: map<string, Cell>

    constructor ()
      ensures keys == map[]
    {
      keys := map[];
    }

    function CellOf(id: string): Option<Cell>
      reads this
    {
      if id in keys then Some(keys[id]) else None
    }

    twostate predicate OthersKept(id: string)
      reads this
    {
      forall other | other != id :: CellOf(other) == old(CellOf(other))
    }

    method EnsureLoginAllowed(id: string, at: nat, later: nat) returns (a: Answer)
      modifies this`keys
      ensures a.Allowed? <==> !Blocked(old(CellOf(id)), at)
      ensures a.RateLimited? ==> a.retryAfter == RetryAfter(old(CellOf(id)), later) >= 1
      ensures CellOf(id) == if a.Allowed? then old(CellOf(id)) else AfterRefusal(old(CellOf(id)), later)
      ensures OthersKept(id)
    {
      var count := if Live(CellOf(id), at) then keys[id].count else 0;
      if count < LIMIT {
        return Allowed;
      }
      var ttl := if Live(CellOf(id), later) then TtlSeconds(keys[id], later) else 0;
      if ttl <= 0 {
        if Live(CellOf(id), later) {
          keys := keys[id := keys[id].(until := later + WINDOW)];
        }
        ttl := WINDOW / 1000;
      }
      a := RateLimited(Max(ttl, 1));
    }

    method RecordLoginFailure(id: string, now: nat) returns (a: Answer, count: nat)
      modifies this`keys
      ensures CellOf(id) == Some(AfterFailure(old(CellOf(id)), now)) && count == CellOf(id).value.count
      ensures a.RateLimited? <==> count >= LIMIT
      ensures a.RateLimited? ==> a.retryAfter == TtlSeconds(CellOf(id).value, now) >= 1
      ensures OthersKept(id)
    {
      count := 1 + if Live(CellOf(id), now) then keys[id].count else 0;
      var ttl := if Live(CellOf(id), now) then TtlSeconds(keys[id], now) else 0;
      if count == 1 || ttl <= 0 {
        keys := keys[id := Cell(count, now + WINDOW)];
        ttl := WINDOW / 1000;
      } else {
        keys := keys[id := keys[id].(count := count)];
      }
      a := if count >= LIMIT then RateLimited(Max(ttl, 1)) else Allowed;
    }

    method ClearLoginFailures(id: string)
      modifies this`keys
      ensures CellOf(id) == None && OthersKept(id)
    {
      keys := keys - {id};
    }

    // A login request as the endpoint handles it; `checked` says that the password was looked at.
    method Login(id: string, r: Request, ghost failures: seq<Failure>) returns (checked: bool, accepted: bool)
      modifies this`keys
      ensures checked <==> !Blocked(old(CellOf(id)), r.at)
      ensures !checked <==> id in old(keys) && r.at < old(keys)[id].until && old(keys)[id].count >= 5
      ensures accepted <==> checked && r.valid
      ensures accepted ==> id !in keys
      ensures CellOf(id) == Handle(State(old(CellOf(id)), failures), r).cell
      ensures OthersKept(id)
    {
      var a := EnsureLoginAllowed(id, r.at, r.later);
      checked, accepted := a.Allowed?, false;
      if checked {
        if r.valid {
          ClearLoginFailures(id);
          accepted := true;
        } else {
          var _, _ := RecordLoginFailure(id, r.later);
        }
      }
    }
  }
}
