/**
 OAuth token rotation (section 6 of RFC 6749, client side): the credential manager, and any number
 of managers in any number of processes sharing one store under one lock.
 */
module Credentials {
  import opened Wrappers

  datatype Credential =
    Credential(access: string, refresh: string, expiresAt: int, endpoint: string, scope: string, other: string)

  /** The credential file: one entry for each origin. */
  type Store = map<string, Credential>

  datatype Token = Token(access: string, refresh: string, expiresIn: int, scope: string)

  /** The token endpoint's answer: a transport or HTTP failure, or a decoded body. */
  datatype Response = Refused | Body(token: Token)

  datatype Env = Env(secure: string -> bool, response: Response, now: int, save: SaveOutcome)

  datatype Locked =
    | NotFound
    | Adopted(token: string)
    | Incomplete
    | Insecure
    | Rejected
    | Granted(credential: Credential)

  /** The credential after a grant: the old refresh token is kept only if none came back. */
  function Rotate(c: Credential, t: Token, now: int): Credential {
    c.(access := t.access,
       refresh := if t.refresh != "" then t.refresh else c.refresh,
       expiresAt := if t.expiresIn > 0 then now + t.expiresIn else 0,
       scope := if t.scope != "" then t.scope else c.scope)
  }

  /** What `refreshLocked` decides once it holds the lock, up to the save. */
  function Decide(all: Store, origin: string, observed: string, env: Env): Locked {
    if origin !in all then NotFound
    else
      var c := all[origin];
      if observed != "" && c.access != "" && c.access != observed then Adopted(c.access)
      else if c.refresh == "" || c.endpoint == "" then Incomplete
      else if !env.secure(c.endpoint) then Insecure
      else if env.response.Refused? || env.response.token.access == "" then Rejected
      else Granted(Rotate(c, env.response.token, env.now))
  }

  predicate Expired(c: Credential, now: int) {
    c.expiresAt > 0 && now >= c.expiresAt - 300
  }

  // ---------------------------------------------------------------- what a refresh and an access promise

  /** A request for `c` goes out: there is a refresh token and a secure endpoint to spend it at. */
  ghost predicate Asks(c: Credential, env: Env) {
    c.refresh != "" && c.endpoint != "" && env.secure(c.endpoint)
  }

  /** The request is answered with an access token. */
  ghost predicate Grants(c: Credential, env: Env) {
    Asks(c, env) && env.response.Body? && env.response.token.access != ""
  }

  /** `c'` is `c` with the granted tokens: what the answer leaves out stays, but its expiry is dropped. */
  ghost predicate Renewed(c: Credential, t: Token, now: int, c': Credential) {
    && c'.access == t.access && (if t.refresh == "" then c'.refresh == c.refresh else c'.refresh == t.refresh)
    && (if t.expiresIn <= 0 then c'.expiresAt == 0 else c'.expiresAt - t.expiresIn == now)
    && (if t.scope == "" then c'.scope == c.scope else c'.scope == t.scope)
    && c'.endpoint == c.endpoint && c'.other == c.other
  }

  /** The store after a grant, if its save replaced the file: the origin's entry renewed, and no other changed. */
  ghost predicate Kept(all: Store, origin: string, env: Env, all': Store)
    requires origin in all && Grants(all[origin], env)
  {
    if env.save == FailedBefore then all' == all
    else
      && all'.Keys == all.Keys && (forall o :: o in all && o != origin ==> all'[o] == all[o])
      && Renewed(all[origin], env.response.token, env.now, all'[origin])
  }

  /**
   How a refresh ends. A token that another manager stored meanwhile is adopted; otherwise the refresh
   token is spent, and the refresh succeeds exactly when a grant comes back and its save returns.
   */
  ghost predicate RefreshEnds(all: Store, origin: string, observed: string, env: Env, last: string,
          ok: bool, posted: bool, last': string, all': Store)
  {
    if origin in all && observed != "" && all[origin].access != "" && all[origin].access != observed
    then ok && !posted && last' == all[origin].access && all' == all
    else if origin in all && Grants(all[origin], env)
    then
      && posted && (ok <==> env.save == Saved) && Kept(all, origin, env, all')
      && last' == (if ok then env.response.token.access else last)
    else !ok && last' == last && all' == all && (posted <==> origin in all && Asks(all[origin], env))
  }

  /**
   How an access ends. The stored token is returned unless its expiry is set and at most five minutes away;
   then the credential is refreshed, and the token is the granted one, or none if the refresh failed.
   */
  ghost predicate AccessEnds(all: Store, origin: string, env: Env, last: string,
          r: Option<string>, last': string, all': Store)
  {
    if origin !in all then r == None && last' == last && all' == all
    else
      var c := all[origin];
      if !(c.expiresAt > 0 && env.now >= c.expiresAt - 300)
      then r == (if c.access == "" then None else Some(c.access)) && last' == c.access && all' == all
      else if Grants(c, env)
      then
        && Kept(all, origin, env, all')
        && (if env.save == Saved
            then r == Some(env.response.token.access) && last' == env.response.token.access
            else r == None && last' == c.access)
      else r == None && last' == c.access && all' == all
  }

  // ---------------------------------------------------------------- one manager

  class CredentialStore {
    var all: Store

    constructor (all: Store)
      ensures this.all == all
    {
      this.all := all;
    }
  }

  class CredentialManager {
    const origin: string
    const store: CredentialStore
    var lastToken: string

    constructor (origin: string, store: CredentialStore)
      ensures this.origin == origin && this.store == store && lastToken == ""
    {
      this.origin, this.store, this.lastToken := origin, store, "";
    }

    /** `refreshLocked`, from the acquisition of the lock to its release. */
    method RefreshLocked(observed: string, env: Env) returns (ok: bool, ghost posted: bool)
      modifies this`lastToken, store
      ensures RefreshEnds(old(store.all), origin, observed, env, old(lastToken), ok, posted, lastToken, store.all)
      ensures posted <==>
                Decide(old(store.all), origin, observed, env).Granted?
                  || Decide(old(store.all), origin, observed, env).Rejected?
      ensures match Decide(old(store.all), origin, observed, env)
              case Adopted(token) => ok && lastToken == token && store.all == old(store.all)
              case Granted(credential) =>
                (ok <==> env.save == Saved) && lastToken == (if ok then credential.access else old(lastToken))
                && store.all == if env.save.Replaced() then old(store.all)[origin := credential] else old(store.all)
              case _ => !ok && lastToken == old(lastToken) && store.all == old(store.all)
    {
      posted := false;
      if origin !in store.all {
        return false, false;
      }
      var credential := store.all[origin];
      if observed != "" && credential.access != "" && credential.access != observed {
        lastToken := credential.access;
        return true, false;
      }
      if credential.refresh == "" || credential.endpoint == "" {
        return false, false;
      }
      if !env.secure(credential.endpoint) {
        return false, false;
      }
      posted := true;
      if env.response.Refused? || env.response.token.access == "" {
        return false, true;
      }
      var token := env.response.token;
      credential := credential.(access := token.access);
      if token.refresh != "" {
        credential := credential.(refresh := token.refresh);
      }
      credential := credential.(expiresAt := if token.expiresIn > 0 then env.now + token.expiresIn else 0);
      if token.scope != "" {
        credential := credential.(scope := token.scope);
      }
      if !env.save.Replaced() {
        return false, true;
      }
      store.all := store.all[origin := credential];
      if env.save != Saved {
        return false, true;
      }
      lastToken := credential.access;
      return true, true;
    }

    /** `Refresh`: refresh what this manager last handed out. */
    method Refresh(env: Env) returns (ok: bool, ghost posted: bool)
      modifies this`lastToken, store
      ensures RefreshEnds(old(store.all), origin, old(lastToken), env, old(lastToken), ok, posted, lastToken, store.all)
      ensures ok ==> origin in store.all && lastToken == store.all[origin].access
    {
      ok, posted := RefreshLocked(lastToken, env);
    }

    /** `AccessToken`: the stored token, refreshed first when it is about to expire. */
    method AccessToken(env: Env) returns (r: Option<string>)
      modifies this`lastToken, store
      ensures AccessEnds(old(store.all), origin, env, old(lastToken), r, lastToken, store.all)
      ensures r.Some? ==> r.value != "" && origin in store.all && r.value == store.all[origin].access == lastToken
    {
      if origin !in store.all {
        return None;
      }
      var credential := store.all[origin];
      lastToken := credential.access;
      if Expired(credential, env.now) {
        ghost var posted;
        var ok;
        ok, posted := RefreshLocked(credential.access, env);
        if !ok || origin !in store.all {
          return None;
        }
        credential := store.all[origin];
      }
      if credential.access == "" {
        return None;
      }
      lastToken := credential.access;
      return Some(credential.access);
    }
  }

  // ---------------------------------------------------------------- many managers, one store

  /**
   One POST to the token endpoint: the token its manager had observed, the tokens of the credential it
   spends, which post's grant that credential came from, the grant decoded from the answer, if any, and
   how the save of that grant ended, once it has.
   */
  datatype Post = Post(
    observed: string, access: string, refresh: string, from: Option<nat>,
    reply: Option<Token>, save: Option<SaveOutcome>)
  {
    /** The grant reached the file that readers see. */
    predicate Stored() {
      save.Some? && save.value.Replaced()
    }

    predicate Replaces() {
      reply.Some? && reply.value.refresh != ""
    }
  }

  /** A content of the credential file, and of each origin the post whose grant it holds, if it holds one. */
  datatype Content = Content(store: Store, from: map<string, nat>)

  function From(c: Content, o: string): Option<nat> {
    if o in c.from then Some(c.from[o]) else None
  }

  datatype Phase =
    | Idle
    | Wants(observed: string)
    | Holding(observed: string)
    | Saving(loaded: Content, credential: Credential)

  datatype Manager = Manager(origin: string, lastToken: string, phase: Phase)

  /**
   `files` lists what the machine may find on disk if it goes down, what readers see last; `posts` lists,
   for each origin, every request sent to its token endpoint.
   */
  datatype System = System(
    files: seq<Content>, managers: map<nat, Manager>, lock: Option<nat>, posts: map<string, seq<Post>>)

  function Visible(s: System): Content
    requires s.files != []
  {
    s.files[|s.files| - 1]
  }

  datatype Action =
    | Load(now: int)            // the unlocked read that starts AccessToken, and the one that ends it
    | Ask                       // Refresh, with the token last handed out
    | Acquire
    | Settle(env: Env)          // load, decide, and POST if need be, under the lock
    | Save(outcome: SaveOutcome)
    | Die                       // the process ends without the credential it may have been granted

  datatype Move = Step(m: nat, a: Action) | PowerLoss(file: nat)

  /** The server issues tokens it has not issued before. */
  ghost predicate Fresh(init: Credential, before: seq<Post>, t: Token) {
    && t.access != init.access && (t.refresh != "" ==> t.refresh != init.refresh)
    && forall i :: 0 <= i < |before| && before[i].reply.Some? ==>
         t.access != before[i].reply.value.access && (t.refresh != "" ==> t.refresh != before[i].reply.value.refresh)
  }

  function PostOf(c: Content, o: string, observed: string, reply: Option<Token>): Post
    requires o in c.store
  {
    Post(observed, c.store[o].access, c.store[o].refresh, From(c, o), reply, None)
  }

  function MarkLast(g: seq<Post>, outcome: SaveOutcome): seq<Post>
    requires g != []
  {
    g[..|g| - 1] + [g[|g| - 1].(save := Some(outcome))]
  }

  function Reset(managers: map<nat, Manager>): map<nat, Manager> {
    map m | m in managers :: Manager(managers[m].origin, "", Idle)
  }

  /** One step of a manager, or a power loss, after which one of the possible contents is found. */
  ghost predicate Next(init: Store, s: System, s': System, move: Move) {
    s.files != [] &&
    match move
    case Step(m, a) => m in s.managers && Acts(init, s, s', m, a)
    case PowerLoss(file) =>
      file < |s.files| && s' == s.(files := [s.files[file]], managers := Reset(s.managers), lock := None)
  }

  /** One step of manager `m`. The server's answers are unconstrained, except that granted tokens are fresh. */
  ghost predicate Acts(init: Store, s: System, s': System, m: nat, a: Action)
    requires s.files != [] && m in s.managers
  {
    var me := s.managers[m];
    match a
    case Load(now) => Loads(s, s', m, now)
    case Ask => me.phase == Idle && s' == s.(managers := s.managers[m := me.(phase := Wants(me.lastToken))])
    case Acquire =>
      && me.phase.Wants? && s.lock.None?
      && s' == s.(managers := s.managers[m := me.(phase := Holding(me.phase.observed))], lock := Some(m))
    case Settle(env) => Settles(init, s, s', m, env)
    case Save(outcome) => Saves(s, s', m, outcome)
    case Die =>
      s' == s.(managers := s.managers[m := Manager(me.origin, "", Idle)],
               lock := if s.lock == Some(m) then None else s.lock)
  }

  ghost predicate Loads(s: System, s': System, m: nat, now: int)
    requires s.files != [] && m in s.managers
  {
    var me := s.managers[m];
    && me.phase == Idle && me.origin in Visible(s).store
    && var c := Visible(s).store[me.origin];
       s' == s.(managers := s.managers[m :=
         me.(lastToken := c.access, phase := if Expired(c, now) then Wants(c.access) else Idle)])
  }

  ghost predicate Settles(init: Store, s: System, s': System, m: nat, env: Env)
    requires s.files != [] && m in s.managers
  {
    var me := s.managers[m];
    var o := me.origin;
    && me.phase.Holding? && s.lock == Some(m)
    && match Decide(Visible(s).store, o, me.phase.observed, env)
       case Granted(credential) =>
         && o in init && o in s.posts && Fresh(init[o], s.posts[o], env.response.token)
         && s' == s.(
           managers := s.managers[m := me.(phase := Saving(Visible(s), credential))],
           posts := s.posts[o := s.posts[o] + [PostOf(Visible(s), o, me.phase.observed, Some(env.response.token))]])
       case Rejected =>
         && o in s.posts
         && s' == s.(
           managers := s.managers[m := me.(phase := Idle)], lock := None,
           posts := s.posts[o := s.posts[o] + [PostOf(Visible(s), o, me.phase.observed, None)]])
       case Adopted(token) =>
         s' == s.(managers := s.managers[m := me.(lastToken := token, phase := Idle)], lock := None)
       case _ => s' == s.(managers := s.managers[m := me.(phase := Idle)], lock := None)
  }

  /** The content a save writes: the one loaded, with the origin's entry replaced by the last post's grant. */
  function Written(loaded: Content, o: string, credential: Credential, post: nat): Content {
    Content(loaded.store[o := credential], loaded.from[o := post])
  }

  ghost predicate Saves(s: System, s': System, m: nat, outcome: SaveOutcome)
    requires m in s.managers
  {
    var me := s.managers[m];
    var o := me.origin;
    && me.phase.Saving? && s.lock == Some(m) && o in s.posts && s.posts[o] != []
    && s' == s.(
      files := AfterSave(s.files, Written(me.phase.loaded, o, me.phase.credential, |s.posts[o]| - 1), outcome),
      managers := s.managers[m :=
        me.(lastToken := if outcome == Saved then me.phase.credential.access else me.lastToken, phase := Idle)],
      lock := None,
      posts := s.posts[o := MarkLast(s.posts[o], outcome)])
  }

  ghost predicate Start(init: Store, s: System) {
    && s.files == [Content(init, map[])] && s.lock == None
    && s.posts.Keys == init.Keys && (forall o :: o in s.posts ==> s.posts[o] == [])
    && (forall m :: m in s.managers ==> s.managers[m].phase == Idle && s.managers[m].origin in init)
  }

  /** A run: states joined by steps of the managers, in any interleaving, and by power losses. */
  ghost predicate Run(init: Store, states: seq<System>, moves: seq<Move>) {
    && |states| == |moves| + 1 && Start(init, states[0])
    && forall i :: 0 <= i < |moves| ==> Next(init, states[i], states[i + 1], moves[i])
  }

  // ---------------------------------------------------------------- grants in force

  /** In a content or credential that came from the grant of post `from`, the grant of post `k` is in force. */
  predicate InForce(g: seq<Post>, from: Option<nat>, k: nat)
    decreases if from.Some? then from.value else 0
  {
    from.Some? && k <= from.value < |g|
    && (k == from.value
        || (g[from.value].from.Some? && g[from.value].from.value < from.value && InForce(g, g[from.value].from, k)))
  }

  /** The same grants are in force. */
  ghost predicate SameGrants(g: seq<Post>, a: Option<nat>, b: Option<nat>) {
    forall k: nat :: InForce(g, a, k) <==> InForce(g, b, k)
  }

  /** The same grants that brought a new refresh token are in force. */
  ghost predicate SameReplacements(g: seq<Post>, a: Option<nat>, b: Option<nat>) {
    forall k: nat :: k < |g| && g[k].Replaces() ==> (InForce(g, a, k) <==> InForce(g, b, k))
  }
}
