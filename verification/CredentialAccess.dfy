/**
 A manager that is left alone between its steps: the steps of the machine amount to a call of the
 manager's method, whatever else has happened before.
 */
module CredentialAccess {
  import opened Wrappers
  import opened Credentials

  /** Manager `m` holds a grant that it has still to save. */
  predicate HoldsGrant(s: System, m: nat) {
    && m in s.managers && s.managers[m].phase.Saving? && s.lock == Some(m)
    && s.managers[m].origin in s.posts && s.posts[s.managers[m].origin] != []
  }

  /** Nothing is assumed of how a save ends, of when a process ends, or of what a power loss brings back. */
  lemma EnvironmentFree(init: Store, s: System, m: nat, outcome: SaveOutcome, file: nat)
    requires s.files != [] && m in s.managers
    ensures HoldsGrant(s, m) ==> exists s' :: Next(init, s, s', Step(m, Save(outcome)))
    ensures exists s' :: Next(init, s, s', Step(m, Die))
    ensures file < |s.files| ==> exists s' :: Next(init, s, s', PowerLoss(file))
  {
    var me := s.managers[m];
    var o := me.origin;
    if HoldsGrant(s, m) {
      var s' := s.(
        files := AfterSave(s.files, Written(me.phase.loaded, o, me.phase.credential, |s.posts[o]| - 1), outcome),
        managers := s.managers[m :=
          me.(lastToken := if outcome == Saved then me.phase.credential.access else me.lastToken, phase := Idle)],
        lock := None, posts := s.posts[o := MarkLast(s.posts[o], outcome)]);
      assert Next(init, s, s', Step(m, Save(outcome)));
    }
    var dead := s.(managers := s.managers[m := Manager(o, "", Idle)],
                   lock := if s.lock == Some(m) then None else s.lock);
    assert Next(init, s, dead, Step(m, Die));
    if file < |s.files| {
      var lost := s.(files := [s.files[file]], managers := Reset(s.managers), lock := None);
      assert Next(init, s, lost, PowerLoss(file));
    }
  }

  ghost predicate Steps(init: Store, states: seq<System>, moves: seq<Move>) {
    && |states| == |moves| + 1
    && forall i :: 0 <= i < |moves| ==> Next(init, states[i], states[i + 1], moves[i])
  }

  /** Nothing keeps manager `m` from its next step. */
  ghost predicate Free(init: Store, s: System, m: nat) {
    && s.files != [] && m in s.managers && s.lock == None
    && s.managers[m].origin in init && s.managers[m].origin in s.posts
  }

  /** A grant that the server may give for the origin of manager `m`. */
  ghost predicate MayGrant(init: Store, s: System, m: nat, env: Env)
    requires Free(init, s, m)
  {
    var o := s.managers[m].origin;
    env.response.Body? && env.response.token.access != "" ==> Fresh(init[o], s.posts[o], env.response.token)
  }

  /** From `s` to `t`, manager `m` has come to rest, and no other manager and no other origin's requests moved. */
  ghost predicate Rests(s: System, t: System, m: nat)
    requires m in s.managers
  {
    && t.files != [] && t.lock == None
    && t.managers.Keys == s.managers.Keys && t.managers[m].phase == Idle
    && t.managers[m].origin == s.managers[m].origin
    && (forall k :: k in s.managers && k != m ==> t.managers[k] == s.managers[k])
    && t.posts.Keys == s.posts.Keys
    && (forall o :: o in s.posts && o != s.managers[m].origin ==> t.posts[o] == s.posts[o])
  }

  /** One request was sent, which spent the stored refresh token, or none was. */
  ghost predicate Sent(s: System, t: System, o: string, posted: bool)
    requires s.files != [] && o in s.posts && o in t.posts
  {
    if posted
    then
      && o in Visible(s).store && |t.posts[o]| == |s.posts[o]| + 1
      && t.posts[o][..|s.posts[o]|] == s.posts[o] && t.posts[o][|s.posts[o]|].refresh == Visible(s).store[o].refresh
    else t.posts[o] == s.posts[o]
  }

  lemma StepsSnoc(init: Store, states: seq<System>, moves: seq<Move>, s': System, move: Move)
    requires Steps(init, states, moves) && Next(init, states[|moves|], s', move)
    ensures Steps(init, states + [s'], moves + [move])
  {
  }

  /** Manager `m` holds the lock. */
  function Held(s: System, m: nat, observed: string): System
    requires m in s.managers
  {
    s.(managers := s.managers[m := s.managers[m].(phase := Holding(observed))], lock := Some(m))
  }

  /** It has been granted `credential`. */
  function Granting(s: System, m: nat, observed: string, env: Env, credential: Credential): System
    requires s.files != [] && m in s.managers && s.managers[m].origin in Visible(s).store
    requires s.managers[m].origin in s.posts && env.response.Body?
  {
    var o := s.managers[m].origin;
    var post := PostOf(Visible(s), o, observed, Some(env.response.token));
    s.(managers := s.managers[m := s.managers[m].(phase := Saving(Visible(s), credential))], lock := Some(m),
       posts := s.posts[o := s.posts[o] + [post]])
  }

  /** It has tried to save it. */
  function Tried(s: System, m: nat, observed: string, env: Env, credential: Credential): System
    requires s.files != [] && m in s.managers && s.managers[m].origin in Visible(s).store
    requires s.managers[m].origin in s.posts && env.response.Body?
  {
    var o := s.managers[m].origin;
    var post := PostOf(Visible(s), o, observed, Some(env.response.token));
    System(AfterSave(s.files, Written(Visible(s), o, credential, |s.posts[o]|), env.save),
           s.managers[m := Manager(o, if env.save == Saved then credential.access else s.managers[m].lastToken, Idle)],
           None, s.posts[o := s.posts[o] + [post.(save := Some(env.save))]])
  }

  lemma GrantSteps(init: Store, s: System, m: nat, observed: string, env: Env, credential: Credential)
    requires Free(init, s, m) && MayGrant(init, s, m, env) && s.managers[m].phase == Wants(observed)
    requires Decide(Visible(s).store, s.managers[m].origin, observed, env) == Granted(credential)
    ensures var saving := Granting(s, m, observed, env, credential);
            && Next(init, Held(s, m, observed), saving, Step(m, Settle(env)))
            && Next(init, saving, Tried(s, m, observed, env, credential), Step(m, Save(env.save)))
  {
    var o, saving := s.managers[m].origin, Granting(s, m, observed, env, credential);
    assert saving == Held(s, m, observed).(managers := saving.managers, posts := saving.posts);
    assert MarkLast(saving.posts[o], env.save) == Tried(s, m, observed, env, credential).posts[o];
    assert Saves(saving, Tried(s, m, observed, env, credential), m, env.save);
  }

  lemma GrantMeets(init: Store, s: System, m: nat, observed: string, env: Env, credential: Credential)
    requires Free(init, s, m)
    requires Decide(Visible(s).store, s.managers[m].origin, observed, env) == Granted(credential)
    ensures var t, o := Tried(s, m, observed, env, credential), s.managers[m].origin;
            && Rests(s, t, m) && Sent(s, t, o, true)
            && RefreshEnds(Visible(s).store, o, observed, env, s.managers[m].lastToken,
                           env.save == Saved, true, t.managers[m].lastToken, Visible(t).store)
  {
    var t, o := Tried(s, m, observed, env, credential), s.managers[m].origin;
    assert Visible(t).store == if env.save == FailedBefore then Visible(s).store else Visible(s).store[o := credential];
    assert Kept(Visible(s).store, o, env, Visible(t).store);
  }

  /** Manager `m` gives up, or takes the token it found, without a grant. */
  function Left(s: System, m: nat, observed: string, env: Env): System
    requires s.files != [] && m in s.managers && s.managers[m].origin in s.posts
  {
    var me, o := s.managers[m], s.managers[m].origin;
    match Decide(Visible(s).store, o, observed, env)
    case Adopted(token) => s.(managers := s.managers[m := me.(lastToken := token, phase := Idle)], lock := None)
    case Rejected =>
      s.(managers := s.managers[m := me.(phase := Idle)], lock := None,
         posts := s.posts[o := s.posts[o] + [PostOf(Visible(s), o, observed, None)]])
    case _ => s.(managers := s.managers[m := me.(phase := Idle)], lock := None)
  }

  lemma LeaveSteps(init: Store, s: System, m: nat, observed: string, env: Env)
    requires Free(init, s, m) && s.managers[m].phase == Wants(observed)
    requires !Decide(Visible(s).store, s.managers[m].origin, observed, env).Granted?
    ensures Next(init, Held(s, m, observed), Left(s, m, observed, env), Step(m, Settle(env)))
  {
    var held := Held(s, m, observed);
    assert Visible(held) == Visible(s);
    var left := Left(s, m, observed, env);
    assert held.managers[m := left.managers[m]] == left.managers;
    assert Settles(init, held, Left(s, m, observed, env), m, env);
  }

  lemma LeaveMeets(init: Store, s: System, m: nat, observed: string, env: Env)
    requires Free(init, s, m)
    requires !Decide(Visible(s).store, s.managers[m].origin, observed, env).Granted?
    ensures var t, o := Left(s, m, observed, env), s.managers[m].origin;
            var d := Decide(Visible(s).store, o, observed, env);
            && Rests(s, t, m) && Sent(s, t, o, d.Rejected?)
            && RefreshEnds(Visible(s).store, o, observed, env, s.managers[m].lastToken,
                           d.Adopted?, d.Rejected?, t.managers[m].lastToken, Visible(t).store)
  {
  }

  /**
   From a wish for a refresh, manager `m` has a run of its own that takes the lock and ends as `RefreshLocked`
   does on the stored credentials, whatever the server answers and however the save ends.
   */
  lemma RefreshRuns(init: Store, s: System, m: nat, observed: string, env: Env)
    returns (states: seq<System>, moves: seq<Move>, ok: bool, posted: bool)
    requires Free(init, s, m) && MayGrant(init, s, m, env) && s.managers[m].phase == Wants(observed)
    ensures Steps(init, states, moves) && states[0] == s
    ensures var t, o := states[|moves|], s.managers[m].origin;
            && Rests(s, t, m) && Sent(s, t, o, posted)
            && RefreshEnds(Visible(s).store, o, observed, env, s.managers[m].lastToken,
                           ok, posted, t.managers[m].lastToken, Visible(t).store)
  {
    var held := Held(s, m, observed);
    assert Next(init, s, held, Step(m, Acquire));
    var d := Decide(Visible(s).store, s.managers[m].origin, observed, env);
    if d.Granted? {
      var saving, done := Granting(s, m, observed, env, d.credential), Tried(s, m, observed, env, d.credential);
      GrantSteps(init, s, m, observed, env, d.credential);
      GrantMeets(init, s, m, observed, env, d.credential);
      states, moves := [s, held, saving, done], [Step(m, Acquire), Step(m, Settle(env)), Step(m, Save(env.save))];
      ok, posted := env.save == Saved, true;
    } else {
      LeaveSteps(init, s, m, observed, env);
      LeaveMeets(init, s, m, observed, env);
      states, moves := [s, held, Left(s, m, observed, env)], [Step(m, Acquire), Step(m, Settle(env))];
      ok, posted := d.Adopted?, d.Rejected?;
    }
  }

  lemma StepsCons(init: Store, s: System, move: Move, states: seq<System>, moves: seq<Move>)
    requires Steps(init, states, moves) && Next(init, s, states[0], move)
    ensures Steps(init, [s] + states, [move] + moves)
  {
    var all := [s] + states;
    forall i | 0 <= i < |moves| + 1 ensures Next(init, all[i], all[i + 1], ([move] + moves)[i]) {
      assert i > 0 ==> all[i] == states[i - 1] && all[i + 1] == states[i];
    }
  }

  /** Manager `m` has loaded its credential. */
  function Loaded(s: System, m: nat, now: int): System
    requires s.files != [] && m in s.managers && s.managers[m].origin in Visible(s).store
  {
    var c := Visible(s).store[s.managers[m].origin];
    var phase := if Expired(c, now) then Wants(c.access) else Idle;
    s.(managers := s.managers[m := Manager(s.managers[m].origin, c.access, phase)])
  }

  lemma RestsAfterLoad(s: System, t: System, m: nat, now: int)
    requires s.files != [] && m in s.managers && s.managers[m].origin in Visible(s).store
    requires Rests(Loaded(s, m, now), t, m)
    ensures Rests(s, t, m)
  {
    assert Loaded(s, m, now).managers.Keys == s.managers.Keys;
  }

  /** A refresh of the token just loaded, when that is about to expire. */
  lemma AccessFromRefresh(all: Store, origin: string, env: Env, last: string, ok: bool, posted: bool, last': string,
          all': Store) returns (r: Option<string>)
    requires origin in all && Expired(all[origin], env.now)
    requires RefreshEnds(all, origin, all[origin].access, env, all[origin].access, ok, posted, last', all')
    ensures AccessEnds(all, origin, env, last, r, last', all')
  {
    r := if ok then Some(last') else None;
  }

  /**
   An idle manager with a stored credential has a run of its own that ends as `AccessToken` does on the
   stored credentials.
   */
  lemma AccessRuns(init: Store, s: System, m: nat, env: Env)
    returns (states: seq<System>, moves: seq<Move>, r: Option<string>)
    requires Free(init, s, m) && MayGrant(init, s, m, env)
    requires s.managers[m].phase == Idle && s.managers[m].origin in Visible(s).store
    ensures Steps(init, states, moves) && states[0] == s
    ensures var t, o := states[|moves|], s.managers[m].origin;
            && Rests(s, t, m)
            && AccessEnds(Visible(s).store, o, env, s.managers[m].lastToken,
                          r, t.managers[m].lastToken, Visible(t).store)
  {
    var o, c, loaded := s.managers[m].origin, Visible(s).store[s.managers[m].origin], Loaded(s, m, env.now);
    assert Next(init, s, loaded, Step(m, Load(env.now)));
    if Expired(c, env.now) {
      var ok, posted;
      states, moves, ok, posted := RefreshRuns(init, loaded, m, c.access, env);
      var t := states[|moves|];
      RestsAfterLoad(s, t, m, env.now);
      r := AccessFromRefresh(Visible(s).store, o, env, s.managers[m].lastToken, ok, posted,
        t.managers[m].lastToken, Visible(t).store);
      StepsCons(init, s, Step(m, Load(env.now)), states, moves);
      states, moves := [s] + states, [Step(m, Load(env.now))] + moves;
      assert states[|moves|] == t;
    } else {
      states, moves := [s, loaded], [Step(m, Load(env.now))];
      r := if c.access == "" then None else Some(c.access);
    }
  }
}
