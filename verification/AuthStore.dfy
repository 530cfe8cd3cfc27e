/**
  The session functions as they run against the store, one call at a time, and the steps of the
  session protocol each call takes. What passes between two commands of a call is given to it.
*/
module AuthStore {
  import opened Sessions
  import opened Wrappers

  datatype Reason = MissingCookie | MissingOrIdleExpired | AbsoluteExpired | RevokedVersion | ExpiredDuringTouch
                  | InactiveUser

  datatype Verdict = Ok(record: Record) | Unauthorized(reason: Reason)

  // Between GET and the clock read, and between the version check and EXPIRE, time passes; before
  // the version is read, other requests may revoke the user. `cleans`: the best-effort DEL works.
  datatype Meanwhile = Meanwhile(first: nat, revoked: nat, second: nat, cleans: bool)

  function Judge(keys: map<Token, Cell>, version: nat, now: nat, token: Token, touch: bool, m: Meanwhile): Verdict {
    if token !in keys || keys[token].until <= now then Unauthorized(MissingOrIdleExpired)
    else
      var record := keys[token].record;
      if record.expiresAt <= Seconds(now + m.first) then Unauthorized(AbsoluteExpired)
      else if record.version != version + m.revoked then Unauthorized(RevokedVersion)
      else if touch && keys[token].until <= now + m.first + m.second then Unauthorized(ExpiredDuringTouch)
      else Ok(record)
  }

  function KeysAfter(c: Settings, keys: map<Token, Cell>, now: nat, token: Token, touch: bool, m: Meanwhile,
      v: Verdict):
    map<Token, Cell>
  {
    if v == Unauthorized(AbsoluteExpired) || v == Unauthorized(RevokedVersion) then
      if m.cleans then keys - {token} else keys
    else if v.Ok? && touch then keys[token := Write(c, v.record, now + m.first, now + m.first + m.second)]
    else keys
  }

  function Current(versions: map<User, nat>, u: User): nat {
    if u in versions then versions[u] else 0
  }

  // The verdict on a token under these revocation versions.
  function JudgeUnder(keys: map<Token, Cell>, versions: map<User, nat>, now: nat, token: Token, touch: bool,
                      m: Meanwhile): Verdict {
    Judge(keys, Current(versions, Holder(keys, token)), now, token, touch, m)
  }

  // The user behind a token, while its record can still be read.
  function Holder(keys: map<Token, Cell>, token: Token): User {
    if token in keys then keys[token].record.user else 0
  }

  // A validation as process p of the protocol.
  function ValidateSteps(p: Pid, token: Token, touch: bool, m: Meanwhile, user: User): seq<Op> {
    [Fetch(p, token, touch)] + ([Tick(m.first)] + ([CheckTime(p, m.cleans)] + (seq(m.revoked, _ => Revoke(user))
      + ([CheckVersion(p, m.cleans)] + ([Tick(m.second)] + [Touch(p)])))))
  }

  lemma PlayStep(w: World, op: Op, rest: seq<Op>)
    ensures Play(w, [op] + rest) == Play(Step(w, op), rest)
  {
  }

  lemma {:induction false} RevokesPlayed(w: World, n: nat, u: User, rest: seq<Op>) returns (w': World)
    ensures Play(w, seq(n, _ => Revoke(u)) + rest) == Play(w', rest)
    ensures w' == w.(versions := w'.versions, log := w'.log)
    ensures Version(w', u) == Version(w, u) + n
    decreases n
  {
    if n == 0 {
      assert seq(n, _ => Revoke(u)) + rest == rest;
      w' := w;
    } else {
      assert seq(n, _ => Revoke(u)) + rest == [Revoke(u)] + (seq(n - 1, _ => Revoke(u)) + rest);
      PlayStep(w, Revoke(u), seq(n - 1, _ => Revoke(u)) + rest);
      w' := RevokesPlayed(Step(w, Revoke(u)), n - 1, u, rest);
    }
  }

  function FirstSteps(w: World, p: Pid, token: Token, touch: bool, m: Meanwhile): World {
    Step(Step(Step(w, Fetch(p, token, touch)), Tick(m.first)), CheckTime(p, m.cleans))
  }

  function LastSteps(w: World, p: Pid, m: Meanwhile): World {
    Step(Step(Step(w, CheckVersion(p, m.cleans)), Tick(m.second)), Touch(p))
  }

  lemma FirstStepsOutcome(w: World, p: Pid, token: Token, touch: bool, m: Meanwhile)
    requires p !in w.procs
    ensures var w' := FirstSteps(w, p, token, touch, m);
            && p in w'.procs && w'.now == w.now + m.first && w'.versions == w.versions && w'.settings == w.settings
            && if !Live(w, token) then w'.procs[p] == Rejected && w'.keys == w.keys
               else if w.keys[token].record.expiresAt <= Seconds(w.now + m.first) then
                 w'.procs[p] == Rejected && w'.keys == Drop(w, token, m.cleans)
               else
                 w'.procs[p] == Timed(token, w.keys[token].record, touch, w.now, w.keys[token].wroteAt, w'.now)
                 && w'.keys == w.keys
  {
  }

  lemma LastStepsOutcome(w: World, p: Pid, m: Meanwhile)
    requires p in w.procs && (w.procs[p].Rejected? || (w.procs[p].Timed? && w.procs[p].at == w.now))
    ensures var w', c := LastSteps(w, p, m), w.procs[p];
            && p in w'.procs
            && (c.Rejected? ==> w'.procs[p].Rejected? && w'.keys == w.keys)
            && (c.Timed? ==>
                  if c.record.version != Version(w, c.record.user) then
                    w'.procs[p].Rejected? && w'.keys == Drop(w, c.token, m.cleans)
                  else if !c.touch then
                    w'.procs[p].Accepted? && w'.procs[p].record == c.record && w'.keys == w.keys
                  else if c.token !in w.keys || w.keys[c.token].until <= w.now + m.second then
                    w'.procs[p].Rejected? && w'.keys == w.keys
                  else
                    && w'.procs[p].Accepted? && w'.procs[p].record == c.record
                    && w'.keys == w.keys[c.token := Write(w.settings, c.record, w.now, w.now + m.second)])
  {
  }

  // Process p of the protocol is where the verdict says, and the keys are those the call leaves.
  predicate Delivers(w: World, p: Pid, token: Token, touch: bool, m: Meanwhile, done: World) {
    var v := Judge(w.keys, Version(w, Holder(w.keys, token)), w.now, token, touch, m);
    && p in done.procs
    && (done.procs[p].Accepted? <==> v.Ok?)
    && (v.Ok? ==> done.procs[p].record == v.record)
    && done.keys == KeysAfter(w.settings, w.keys, w.now, token, touch, m, v)
  }

  // The state when the version is read, the user having been revoked m.revoked times since.
  predicate Resumes(w: World, p: Pid, token: Token, touch: bool, m: Meanwhile, w4: World) {
    var w3, user := FirstSteps(w, p, token, touch, m), Holder(w.keys, token);
    w4 == w3.(versions := w4.versions, log := w4.log) && Version(w4, user) == Version(w3, user) + m.revoked
  }

  lemma EarlyRefusalDelivers(w: World, p: Pid, token: Token, touch: bool, m: Meanwhile, w4: World)
    requires p !in w.procs && Resumes(w, p, token, touch, m, w4)
    requires !Live(w, token) || w.keys[token].record.expiresAt <= Seconds(w.now + m.first)
    ensures Delivers(w, p, token, touch, m, LastSteps(w4, p, m))
  {
    FirstStepsOutcome(w, p, token, touch, m);
    LastStepsOutcome(w4, p, m);
  }

  lemma VersionCheckDelivers(w: World, p: Pid, token: Token, touch: bool, m: Meanwhile, w4: World)
    requires p !in w.procs && Resumes(w, p, token, touch, m, w4)
    requires Live(w, token) && w.keys[token].record.expiresAt > Seconds(w.now + m.first)
    ensures Delivers(w, p, token, touch, m, LastSteps(w4, p, m))
  {
    FirstStepsOutcome(w, p, token, touch, m);
    LastStepsOutcome(w4, p, m);
  }

  // One validation on its own is the protocol's process: same verdict, same keys.
  lemma ValidationIsTheProtocol(w: World, p: Pid, token: Token, touch: bool, m: Meanwhile)
    requires p !in w.procs
    ensures Delivers(w, p, token, touch, m, Play(w, ValidateSteps(p, token, touch, m, Holder(w.keys, token))))
  {
    var w4 := StepsPlayed(w, p, token, touch, m, Holder(w.keys, token));
    if !Live(w, token) || w.keys[token].record.expiresAt <= Seconds(w.now + m.first) {
      EarlyRefusalDelivers(w, p, token, touch, m, w4);
    } else {
      VersionCheckDelivers(w, p, token, touch, m, w4);
    }
  }

  lemma StepsPlayed(w: World, p: Pid, token: Token, touch: bool, m: Meanwhile, user: User) returns (w4: World)
    requires p !in w.procs
    ensures Play(w, ValidateSteps(p, token, touch, m, user)) == LastSteps(w4, p, m)
    ensures var w3 := FirstSteps(w, p, token, touch, m);
            w4 == w3.(versions := w4.versions, log := w4.log) && Version(w4, user) == Version(w3, user) + m.revoked
  {
    var tail := [CheckVersion(p, m.cleans)] + ([Tick(m.second)] + [Touch(p)]);
    var revokes := seq(m.revoked, _ => Revoke(user)) + tail;
    PlayStep(w, Fetch(p, token, touch), [Tick(m.first)] + ([CheckTime(p, m.cleans)] + revokes));
    var w1 := Step(w, Fetch(p, token, touch));
    PlayStep(w1, Tick(m.first), [CheckTime(p, m.cleans)] + revokes);
    var w2 := Step(w1, Tick(m.first));
    PlayStep(w2, CheckTime(p, m.cleans), revokes);
    w4 := RevokesPlayed(Step(w2, CheckTime(p, m.cleans)), m.revoked, user, tail);
    LastStepsPlayed(w4, p, m);
  }

  lemma LastStepsPlayed(w: World, p: Pid, m: Meanwhile)
    ensures Play(w, [CheckVersion(p, m.cleans)] + ([Tick(m.second)] + [Touch(p)])) == LastSteps(w, p, m)
  {
    PlayStep(w, CheckVersion(p, m.cleans), [Tick(m.second)] + [Touch(p)]);
    var w5 := Step(w, CheckVersion(p, m.cleans));
    PlayStep(w5, Tick(m.second), [Touch(p)]);
    PlayStep(Step(w5, Tick(m.second)), Touch(p), []);
    assert [Touch(p)] + [] == [Touch(p)];
  }

  class SessionStore {
    const settings: Settings
    var now: nat
    var keys: map<Token, Cell>
    var versions: map<User, nat>

    constructor (settings: Settings)
      requires Accepts(settings)
      ensures this.settings == settings && now == 0 && keys == map[] && versions == map[]
    {
      this.settings, now, keys, versions := settings, 0, map[], map[];
    }

    method Wait(ms: nat)
      modifies this`now
      ensures now == old(now) + ms
    {
      now := now + ms;
    }

    method RevokeUserSessions(user: User)
      modifies this`versions
      ensures versions == old(versions)[user := Current(old(versions), user) + 1]
      // From now on every session of the user read or stored under an older version is refused,
      // and nobody else's is judged differently.
      ensures forall held: map<Token, Cell>, at: nat, t, touch, m | t in held && held[t].record.user == user
                && held[t].record.version <= Current(old(versions), user) ::
                !JudgeUnder(held, versions, at, t, touch, m).Ok?
      ensures forall held: map<Token, Cell>, at: nat, t, touch, m | t in held && held[t].record.user != user ::
                JudgeUnder(held, versions, at, t, touch, m) == JudgeUnder(held, old(versions), at, t, touch, m)
    {
      versions := versions[user := Current(versions, user) + 1];
    }

    method OthersRevoke(user: User, times: nat)
      modifies this`versions
      ensures Current(versions, user) == Current(old(versions), user) + times
      ensures forall u | u != user :: Current(versions, u) == Current(old(versions), u)
    {
      for i := 0 to times
        invariant Current(versions, user) == Current(old(versions), user) + i
        invariant forall u | u != user :: Current(versions, u) == Current(old(versions), u)
      {
        RevokeUserSessions(user);
      }
    }

    // The clock is read first, then the version, then the record is stored: a revocation after the
    // version read leaves a session that is stored but already refused.
    method CreateSession(user: User, token: Token, beforeVersion: nat, afterVersion: nat, lag: nat)
      modifies this`now, this`keys, this`versions
      ensures now == old(now) + lag
      ensures Current(versions, user) == Current(old(versions), user) + beforeVersion + afterVersion
      ensures forall u | u != user :: Current(versions, u) == Current(old(versions), u)
      ensures token in keys && keys == old(keys)[token := keys[token]]
      ensures var record := keys[token].record;
              && record.user == user && record.version == Current(old(versions), user) + beforeVersion
              && 1000 * record.createdAt <= old(now) < 1000 * (record.createdAt + 1)
              && record.expiresAt == record.createdAt + 24 * 60 * 60 * settings.absoluteDays
      ensures keys[token].until == now + 1000 * Min(60 * 60 * settings.idleHours, 24 * 60 * 60 * settings.absoluteDays)
      ensures Accepts(settings) ==> keys[token].until >= now + 1000
      ensures Accepts(settings) ==> forall m: Meanwhile ::
                (Judge(keys, Current(versions, user), now, token, false, m).Ok? ==> afterVersion == 0 && m.revoked == 0)
    {
      var clock := now;
      OthersRevoke(user, beforeVersion);
      var record := NewRecord(settings, user, Current(versions, user), clock);
      OthersRevoke(user, afterVersion);
      Wait(lag);
      keys := keys[token := Write(settings, record, clock, now)];
    }

    method DeleteSession(token: Option<Token>)
      modifies this`keys
      ensures keys == if token.Some? then old(keys) - {token.value} else old(keys)
    {
      if token.Some? {
        keys := keys - {token.value};
      }
    }

    method ValidateSessionToken(token: Option<Token>, touch: bool, m: Meanwhile) returns (v: Verdict)
      modifies this`now, this`keys, this`versions
      ensures token.None? ==> v == Unauthorized(MissingCookie) && keys == old(keys) && now == old(now)
                              && versions == old(versions)
      ensures token.Some? ==>
                var user := Holder(old(keys), token.value);
                && v == Judge(old(keys), Current(old(versions), user), old(now), token.value, touch, m)
                && keys == KeysAfter(settings, old(keys), old(now), token.value, touch, m, v)
                && now <= old(now) + m.first + m.second
      ensures v.Ok? ==> token.Some? && now >= old(now) + m.first
                        && Current(versions, v.record.user) == v.record.version
    {
      if token.None? {
        return Unauthorized(MissingCookie);
      }
      var t := token.value;
      if t !in keys || keys[t].until <= now {
        return Unauthorized(MissingOrIdleExpired);
      }
      var record := keys[t].record;
      Wait(m.first);
      var clock := now;
      if record.expiresAt <= Seconds(clock) {
        Clean(t, m.cleans);
        return Unauthorized(AbsoluteExpired);
      }
      OthersRevoke(record.user, m.revoked);
      if record.version != Current(versions, record.user) {
        Clean(t, m.cleans);
        return Unauthorized(RevokedVersion);
      }
      if touch {
        Wait(m.second);
        if t !in keys || keys[t].until <= now {
          return Unauthorized(ExpiredDuringTouch);
        }
        keys := keys[t := Write(settings, record, clock, now)];
      }
      v := Ok(record);
    }

    method Clean(token: Token, works: bool)
      modifies this`keys
      ensures keys == if works then old(keys) - {token} else old(keys)
    {
      if works {
        keys := keys - {token};
      }
    }

    // Validate, look the user up, validate again with a touch: accepted only if the user is active
    // and the version still matched at the last check, and only then is the key's life renewed.
    method AuthenticateSession(token: Option<Token>, active: bool, touch: bool, first: Meanwhile, second: Meanwhile)
      returns (v: Verdict)
      modifies this`now, this`keys, this`versions
      ensures v.Ok? ==> active && token.Some? && Current(versions, v.record.user) == v.record.version
      ensures v.Ok? ==> token.value in old(keys) && v.record == old(keys)[token.value].record
                        && old(now) < old(keys)[token.value].until
                        && old(now) + first.first < 1000 * v.record.expiresAt
      ensures v.Ok? ==> token.value in keys
                        && keys == if touch then old(keys)[token.value := keys[token.value]] else old(keys)
      ensures !v.Ok? ==> forall t | t in keys :: t in old(keys) && keys[t] == old(keys)[t]
      ensures v == Unauthorized(InactiveUser) ==> !active && token.Some? && (first.cleans ==> token.value !in keys)
    {
      v := ValidateSessionToken(token, false, first);
      if v.Unauthorized? {
        return;
      }
      if !active {
        Clean(token.value, first.cleans);
        return Unauthorized(InactiveUser);
      }
      if touch {
        v := ValidateSessionToken(token, true, second);
      }
    }
  }
}
