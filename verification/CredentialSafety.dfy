/** Which tokens two requests of an origin can share, over every run of its managers with power losses. */
module CredentialSafety {
  import opened Wrappers
  import opened Credentials

  // ---------------------------------------------------------------- histories

  /** The access token of what came from the grant of post `from`. */
  function AccessFrom(init: Credential, g: seq<Post>, from: Option<nat>): string {
    if from.Some? && from.value < |g| && g[from.value].reply.Some? then g[from.value].reply.value.access
    else init.access
  }

  /** Its refresh token: that of the last replacing grant in force. */
  function RefreshFrom(init: Credential, g: seq<Post>, from: Option<nat>): string
    decreases if from.Some? then from.value else 0
  {
    if from.None? || from.value >= |g| then init.refresh
    else if g[from.value].Replaces() then g[from.value].reply.value.refresh
    else if g[from.value].from.Some? && g[from.value].from.value < from.value then
      RefreshFrom(init, g, g[from.value].from)
    else init.refresh
  }

  /** `from` names one of the first `n` posts, whose grant was stored. */
  predicate FromOk(g: seq<Post>, from: Option<nat>, n: nat) {
    from.Some? ==> from.value < n <= |g| && g[from.value].reply.Some? && g[from.value].Stored()
  }

  /** The post spent the tokens of a stored grant, on behalf of a manager that had observed them, for fresh ones. */
  ghost predicate PostOk(init: Credential, g: seq<Post>, i: nat)
    requires i < |g|
  {
    var p := g[i];
    && FromOk(g, p.from, i)
    && p.access == AccessFrom(init, g, p.from) && p.refresh == RefreshFrom(init, g, p.from)
    && (p.observed == "" || p.access == "" || p.observed == p.access)
    && (p.reply.Some? ==> p.reply.value.access != "" && Fresh(init, g[..i], p.reply.value))
  }

  ghost predicate HistoryOk(init: Credential, g: seq<Post>) {
    forall i :: 0 <= i < |g| ==> PostOk(init, g, i)
  }

  /** Two grants of a history bring different tokens, and no token the history began with. */
  lemma GrantsDiffer(init: Credential, g: seq<Post>, i: nat, j: nat)
    requires HistoryOk(init, g) && i < |g| && j < |g| && i != j && g[i].reply.Some? && g[j].reply.Some?
    ensures g[i].reply.value.access != g[j].reply.value.access
    ensures g[i].Replaces() && g[j].Replaces() ==> g[i].reply.value.refresh != g[j].reply.value.refresh
  {
    var first, second := if i < j then i else j, if i < j then j else i;
    assert PostOk(init, g, second) && g[..second][first] == g[first];
  }

  lemma SameAccess(init: Credential, g: seq<Post>, a: Option<nat>, b: Option<nat>)
    requires HistoryOk(init, g) && FromOk(g, a, |g|) && FromOk(g, b, |g|)
    ensures AccessFrom(init, g, a) == AccessFrom(init, g, b) <==> a == b
  {
    if a.Some? {
      assert PostOk(init, g, a.value);
    }
    if b.Some? {
      assert PostOk(init, g, b.value);
    }
    if a.Some? && b.Some? && a.value != b.value {
      GrantsDiffer(init, g, a.value, b.value);
    }
  }

  lemma SameFrom(g: seq<Post>, a: Option<nat>, b: Option<nat>)
    requires FromOk(g, a, |g|) && FromOk(g, b, |g|)
    ensures SameGrants(g, a, b) <==> a == b
  {
    if SameGrants(g, a, b) {
      assert a.Some? ==> InForce(g, a, a.value);
      assert b.Some? ==> InForce(g, b, b.value);
    }
  }

  /** The last replacing grant in force. */
  function LastReplacing(g: seq<Post>, from: Option<nat>): Option<nat>
    decreases if from.Some? then from.value else 0
  {
    if from.None? || from.value >= |g| then None
    else if g[from.value].Replaces() then from
    else if g[from.value].from.Some? && g[from.value].from.value < from.value then LastReplacing(g, g[from.value].from)
    else None
  }

  /** It decides the refresh token, and which replacing grants are in force. */
  lemma {:induction false} LastReplacingSpec(init: Credential, g: seq<Post>, from: Option<nat>)
    ensures var p := LastReplacing(g, from);
            && (p.Some? ==> p.value < |g| && g[p.value].Replaces() && InForce(g, from, p.value))
            && RefreshFrom(init, g, from) == (if p.Some? then g[p.value].reply.value.refresh else init.refresh)
            && SameReplacements(g, from, p)
    decreases if from.Some? then from.value else 0
  {
    if from.Some? && from.value < |g| && !g[from.value].Replaces() {
      if g[from.value].from.Some? && g[from.value].from.value < from.value {
        LastReplacingSpec(init, g, g[from.value].from);
      }
    }
  }

  /** Replacing grants in force are the same exactly when the last one is. */
  lemma SameLast(init: Credential, g: seq<Post>, a: Option<nat>, b: Option<nat>)
    ensures SameReplacements(g, a, b) <==> LastReplacing(g, a) == LastReplacing(g, b)
  {
    LastReplacingSpec(init, g, a);
    LastReplacingSpec(init, g, b);
    var p, q := LastReplacing(g, a), LastReplacing(g, b);
    if SameReplacements(g, a, b) {
      assert p.Some? ==> InForce(g, q, p.value);
      assert q.Some? ==> InForce(g, p, q.value);
    }
  }

  lemma SameRefresh(init: Credential, g: seq<Post>, a: Option<nat>, b: Option<nat>)
    requires HistoryOk(init, g)
    ensures RefreshFrom(init, g, a) == RefreshFrom(init, g, b) <==> SameReplacements(g, a, b)
  {
    SameLast(init, g, a, b);
    LastReplacingSpec(init, g, a);
    LastReplacingSpec(init, g, b);
    var p, q := LastReplacing(g, a), LastReplacing(g, b);
    if p.Some? {
      assert PostOk(init, g, p.value);
    }
    if q.Some? {
      assert PostOk(init, g, q.value);
    }
    if p.Some? && q.Some? && p.value != q.value {
      GrantsDiffer(init, g, p.value, q.value);
    }
  }

  /**
   Of any history in which each request spends the tokens of a stored grant: two requests spend the same
   access token exactly when the same grants were in force when they were sent, and the same refresh token
   exactly when the same replacing grants were.
   */
  lemma SpentTwiceExactly(init: Credential, g: seq<Post>, i: nat, j: nat)
    requires HistoryOk(init, g) && i < |g| && j < |g|
    ensures g[i].access == g[j].access <==> SameGrants(g, g[i].from, g[j].from)
    ensures g[i].refresh == g[j].refresh <==> SameReplacements(g, g[i].from, g[j].from)
  {
    assert PostOk(init, g, i) && PostOk(init, g, j);
    SameAccess(init, g, g[i].from, g[j].from);
    SameFrom(g, g[i].from, g[j].from);
    SameRefresh(init, g, g[i].from, g[j].from);
  }

  // ---------------------------------------------------------------- histories grow

  /** `g` grew into `g'`: posts were added, and grants were saved. */
  ghost predicate Extends(g: seq<Post>, g': seq<Post>) {
    && |g| <= |g'|
    && forall i :: 0 <= i < |g| ==> g'[i] == g[i].(save := g'[i].save) && (g[i].save.Some? ==> g'[i].save == g[i].save)
  }

  /** What is in force for a post or content of `g` stays so. */
  lemma {:induction false} ForceExtends(g: seq<Post>, g': seq<Post>, from: Option<nat>, k: nat)
    requires Extends(g, g') && (from.Some? ==> from.value < |g|)
    ensures InForce(g', from, k) <==> InForce(g, from, k)
    decreases if from.Some? then from.value else 0
  {
    if from.Some? && g[from.value].from.Some? && g[from.value].from.value < from.value {
      ForceExtends(g, g', g[from.value].from, k);
    }
  }

  lemma {:induction false} TokensExtend(init: Credential, g: seq<Post>, g': seq<Post>, from: Option<nat>)
    requires Extends(g, g') && (from.Some? ==> from.value < |g|)
    ensures AccessFrom(init, g', from) == AccessFrom(init, g, from)
    ensures RefreshFrom(init, g', from) == RefreshFrom(init, g, from)
    decreases if from.Some? then from.value else 0
  {
    if from.Some? && g[from.value].from.Some? && g[from.value].from.value < from.value {
      TokensExtend(init, g, g', g[from.value].from);
    }
  }

  lemma PostExtends(init: Credential, g: seq<Post>, g': seq<Post>, i: nat)
    requires HistoryOk(init, g) && Extends(g, g') && i < |g|
    ensures PostOk(init, g', i)
  {
    assert PostOk(init, g, i);
    TokensExtend(init, g, g', g[i].from);
    assert forall k :: 0 <= k < i ==> g'[..i][k].reply == g[..i][k].reply;
  }

  // ---------------------------------------------------------------- the invariant

  /** The content holds the tokens of the origin's grants in force in it. */
  ghost predicate ContentOk(init: Credential, g: seq<Post>, c: Content, o: string) {
    && o in c.store && FromOk(g, From(c, o), |g|)
    && c.store[o].access == AccessFrom(init, g, From(c, o)) && c.store[o].refresh == RefreshFrom(init, g, From(c, o))
  }

  /** What is in force in the first content is in force in the second. */
  ghost predicate Older(g: seq<Post>, a: Content, b: Content, o: string) {
    forall k: nat :: InForce(g, From(a, o), k) ==> InForce(g, From(b, o), k)
  }

  ghost predicate InLine(g: seq<Post>, files: seq<Content>, o: string) {
    forall i, j :: 0 <= i <= j < |files| ==> Older(g, files[i], files[j], o)
  }

  ghost predicate OriginOk(init: Credential, g: seq<Post>, files: seq<Content>, o: string) {
    HistoryOk(init, g) && (forall i :: 0 <= i < |files| ==> ContentOk(init, g, files[i], o)) && InLine(g, files, o)
  }

  /** Who holds the lock, and what the holder knows. */
  ghost predicate LockOk(s: System)
    requires s.files != []
  {
    && (forall m :: m in s.managers && (s.managers[m].phase.Holding? || s.managers[m].phase.Saving?) ==>
          s.lock == Some(m))
    && (s.lock.Some? ==> s.lock.value in s.managers)
    && (s.lock.Some? && s.managers[s.lock.value].phase.Saving? ==> SaveReady(s, s.managers[s.lock.value]))
  }

  /** The credential about to be saved is what the last post was granted, over what is stored. */
  ghost predicate SaveReady(s: System, me: Manager)
    requires s.files != [] && me.phase.Saving?
  {
    var o := me.origin;
    && me.phase.loaded == Visible(s) && o in Visible(s).store && o in s.posts && s.posts[o] != []
    && var last, c := s.posts[o][|s.posts[o]| - 1], me.phase.credential;
       && last.reply.Some? && last.save.None? && last.from == From(Visible(s), o) && c.access == last.reply.value.access
       && c.refresh == if last.reply.value.refresh != "" then last.reply.value.refresh else Visible(s).store[o].refresh
  }

  ghost predicate KeysOk(init: Store, s: System) {
    s.posts.Keys == init.Keys && forall i :: 0 <= i < |s.files| ==> s.files[i].store.Keys == init.Keys
  }

  ghost predicate Inv(init: Store, s: System) {
    && s.files != [] && KeysOk(init, s)
    && (forall m :: m in s.managers ==> s.managers[m].origin in init)
    && LockOk(s)
    && forall o :: o in init ==> OriginOk(init[o], s.posts[o], s.files, o)
  }

  // ---------------------------------------------------------------- one step

  /** A step by a manager changes no other manager, and keeps its origin. */
  lemma ActIsLocal(init: Store, s: System, s': System, m: nat, a: Action)
    requires s.files != [] && m in s.managers && Acts(init, s, s', m, a)
    ensures s'.managers == s.managers[m := s'.managers[m]] && s'.managers[m].origin == s.managers[m].origin
  {
  }

  lemma MarkExtends(g: seq<Post>, outcome: SaveOutcome)
    requires g != [] && g[|g| - 1].save.None?
    ensures Extends(g, MarkLast(g, outcome)) && |MarkLast(g, outcome)| == |g|
  {
  }

  lemma SettleExtends(init: Store, s: System, s': System, m: nat, env: Env, o: string)
    requires s.files != [] && m in s.managers && Settles(init, s, s', m, env) && o in s.posts
    ensures o in s'.posts && Extends(s.posts[o], s'.posts[o])
  {
  }

  lemma SaveExtends(s: System, s': System, m: nat, outcome: SaveOutcome, o: string)
    requires s.files != [] && m in s.managers && Saves(s, s', m, outcome) && SaveReady(s, s.managers[m]) && o in s.posts
    ensures o in s'.posts && Extends(s.posts[o], s'.posts[o])
  {
    MarkExtends(s.posts[s.managers[m].origin], outcome);
  }

  lemma ActExtends(init: Store, s: System, s': System, m: nat, a: Action, o: string)
    requires s.files != [] && LockOk(s) && m in s.managers && Acts(init, s, s', m, a) && o in s.posts
    ensures o in s'.posts && Extends(s.posts[o], s'.posts[o])
  {
    match a
    case Settle(env) => SettleExtends(init, s, s', m, env, o);
    case Save(outcome) => SaveExtends(s, s', m, outcome, o);
    case _ =>
  }

  /** The posts of every origin only grow. */
  lemma NextExtends(init: Store, s: System, s': System, move: Move, o: string)
    requires Inv(init, s) && Next(init, s, s', move) && o in init
    ensures o in s.posts && o in s'.posts && Extends(s.posts[o], s'.posts[o])
  {
    match move
    case Step(m, a) => ActExtends(init, s, s', m, a, o);
    case PowerLoss(_) =>
  }

  /** What a step does to the contents that may be on disk. */
  lemma FilesMove(init: Store, s: System, s': System, move: Move)
    requires Next(init, s, s', move)
    ensures s'.files != [] && (Syncs(move) ==> |s'.files| == 1)
    ensures !Syncs(move) ==> s'.files == s.files || (Adds(move) && s'.files == s.files + [Visible(s')])
  {
    match move
    case PowerLoss(file) =>
    case Step(m, a) =>
      match a
      case Save(outcome) =>
      case Settle(env) => SettleFiles(init, s, s', m, env);
      case _ =>
  }

  lemma SettleFiles(init: Store, s: System, s': System, m: nat, env: Env)
    requires s.files != [] && m in s.managers && Settles(init, s, s', m, env)
    ensures s'.files == s.files
  {
  }

  lemma QuietFiles(init: Store, s: System, s': System, m: nat, a: Action)
    requires s.files != [] && m in s.managers && Acts(init, s, s', m, a) && (a.Save? ==> !a.outcome.Replaced())
    ensures s'.files == s.files
  {
    match a
    case Settle(env) => SettleFiles(init, s, s', m, env);
    case _ =>
  }

  /** After the step one content is possible: a save returned, or the machine came up again. */
  predicate Syncs(move: Move) {
    move.PowerLoss? || (move.a.Save? && move.a.outcome == Saved)
  }

  /** The step replaces the file and fails to sync its directory. */
  predicate Adds(move: Move) {
    move.Step? && move.a.Save? && move.a.outcome == FailedAfter
  }

  /** The manager about to save holds the lock for the last post of the origin, which is post `k`. */
  predicate SaverOf(s: System, m: nat, o: string, k: nat) {
    m in s.managers && s.managers[m].origin == o && o in s.posts && |s.posts[o]| == k + 1
  }

  /** The step puts the grant of post `k` of the origin into the visible file. */
  predicate Stores(s: System, move: Move, o: string, k: nat) {
    move.Step? && move.a.Save? && move.a.outcome.Replaced() && SaverOf(s, move.m, o, k)
  }

  /** In this content the grant of post `k` of the origin is in force. */
  predicate Holds(s: System, c: Content, o: string, k: nat) {
    o in s.posts && InForce(s.posts[o], From(c, o), k)
  }

  /** Contents keep what they hold as posts are added. */
  lemma HoldsStays(init: Store, s: System, s': System, move: Move, c: Content, o: string, k: nat)
    requires Inv(init, s) && Next(init, s, s', move) && o in init && c in s.files
    ensures Holds(s', c, o, k) <==> Holds(s, c, o, k)
  {
    NextExtends(init, s, s', move, o);
    var i :| 0 <= i < |s.files| && s.files[i] == c;
    assert ContentOk(init[o], s.posts[o], s.files[i], o);
    ForceExtends(s.posts[o], s'.posts[o], From(c, o), k);
  }

  /** What a step makes of the grants in force in the visible file. */
  lemma VisibleHolds(init: Store, s: System, s': System, move: Move, o: string, k: nat)
    requires Inv(init, s) && Next(init, s, s', move) && o in init
    ensures s'.files != []
    ensures Stores(s, move, o, k) ==> Holds(s', Visible(s'), o, k)
    ensures move.PowerLoss? ==>
              && (Holds(s', Visible(s'), o, k) <==> Holds(s, s.files[move.file], o, k))
              && (Holds(s, s.files[move.file], o, k) ==> Holds(s, Visible(s), o, k))
    ensures !move.PowerLoss? && !Stores(s, move, o, k) ==>
              (Holds(s', Visible(s'), o, k) <==> Holds(s, Visible(s), o, k))
  {
    match move
    case PowerLoss(file) => LossHolds(init, s, s', file, o, k);
    case Step(m, a) =>
      if a.Save? && a.outcome.Replaced() {
        SaveHolds(init, s, s', m, a.outcome, o, k);
      } else {
        QuietHolds(init, s, s', m, a, o, k);
      }
  }

  lemma VisibleStays(init: Store, s: System, s': System, move: Move, o: string, k: nat)
    requires Inv(init, s) && Next(init, s, s', move) && o in init
    ensures s.files != [] && s'.files != [] && (Holds(s', Visible(s), o, k) <==> Holds(s, Visible(s), o, k))
  {
    FilesMove(init, s, s', move);
    HoldsStays(init, s, s', move, s.files[|s.files| - 1], o, k);
  }

  lemma SaveHolds(init: Store, s: System, s': System, m: nat, outcome: SaveOutcome, o: string, k: nat)
    requires Inv(init, s) && Next(init, s, s', Step(m, Save(outcome))) && outcome.Replaced() && o in init
    ensures s'.files != []
    ensures Holds(s', Visible(s'), o, k) <==> Holds(s, Visible(s), o, k) || SaverOf(s, m, o, k)
  {
    WrittenHolds(init, s, s', m, outcome, o, k);
    VisibleStays(init, s, s', Step(m, Save(outcome)), o, k);
  }

  lemma QuietHolds(init: Store, s: System, s': System, m: nat, a: Action, o: string, k: nat)
    requires Inv(init, s) && Next(init, s, s', Step(m, a)) && (a.Save? ==> !a.outcome.Replaced()) && o in init
    ensures s'.files != []
    ensures Holds(s', Visible(s'), o, k) <==> Holds(s, Visible(s), o, k)
  {
    FilesSame(init, s, s', m, a);
    VisibleStays(init, s, s', Step(m, a), o, k);
  }

  lemma FilesSame(init: Store, s: System, s': System, m: nat, a: Action)
    requires Next(init, s, s', Step(m, a)) && (a.Save? ==> !a.outcome.Replaced())
    ensures s'.files == s.files
  {
    QuietFiles(init, s, s', m, a);
  }

  lemma LossHolds(init: Store, s: System, s': System, file: nat, o: string, k: nat)
    requires Inv(init, s) && Next(init, s, s', PowerLoss(file)) && o in init
    ensures s'.files == [s.files[file]] && (Holds(s', s.files[file], o, k) <==> Holds(s, s.files[file], o, k))
    ensures Holds(s, s.files[file], o, k) ==> Holds(s, Visible(s), o, k)
  {
    assert OriginOk(init[o], s.posts[o], s.files, o);
    assert Older(s.posts[o], s.files[file], s.files[|s.files| - 1], o);
  }

  /** A save's effect on the posts and the contents, in terms of what was visible before. */
  lemma SaveFacts(s: System, s': System, m: nat, outcome: SaveOutcome)
    requires s.files != [] && m in s.managers && Saves(s, s', m, outcome) && s.managers[m].phase.loaded == Visible(s)
    ensures var o, g := s.managers[m].origin, s.posts[s.managers[m].origin];
            && o in s'.posts && s'.posts[o] == MarkLast(g, outcome)
            && s'.files == AfterSave(s.files, Written(Visible(s), o, s.managers[m].phase.credential, |g| - 1), outcome)
  {
  }

  lemma SaveWrites(s: System, s': System, m: nat, outcome: SaveOutcome)
    requires s.files != [] && LockOk(s) && m in s.managers && Saves(s, s', m, outcome) && outcome.Replaced()
    ensures s'.files != []
    ensures var o := s.managers[m].origin;
            && o in s.posts && s.posts[o] != [] && o in s'.posts && |s'.posts[o]| == |s.posts[o]|
            && Visible(s') == Written(Visible(s), o, s.managers[m].phase.credential, |s.posts[o]| - 1)
            && s'.posts[o][|s.posts[o]| - 1].from == From(Visible(s), o)
  {
    assert SaveReady(s, s.managers[m]);
    SaveFacts(s, s', m, outcome);
  }

  lemma WrittenHolds(init: Store, s: System, s': System, m: nat, outcome: SaveOutcome, o: string, k: nat)
    requires Inv(init, s) && Next(init, s, s', Step(m, Save(outcome))) && outcome.Replaced() && o in init
    ensures s'.files != []
    ensures Holds(s', Visible(s'), o, k) <==> Holds(s', Visible(s), o, k) || SaverOf(s, m, o, k)
  {
    SaveWrites(s, s', m, outcome);
    NextExtends(init, s, s', Step(m, Save(outcome)), o);
    if o == s.managers[m].origin {
      assert ContentOk(init[o], s.posts[o], s.files[|s.files| - 1], o);
      HeadHolds(s'.posts[o], From(Visible(s), o), k);
    }
  }

  /** In force after the last post's grant: that grant, and what was in force when it was asked for. */
  lemma HeadHolds(g: seq<Post>, from: Option<nat>, k: nat)
    requires g != [] && g[|g| - 1].from == from && FromOk(g, from, |g| - 1)
    ensures InForce(g, Some(|g| - 1), k) <==> InForce(g, from, k) || k == |g| - 1
  {
  }

  // ---------------------------------------------------------------- the invariant is kept

  /** What an origin's history and contents are stays true as its posts grow. */
  lemma OriginExtends(init: Credential, g: seq<Post>, g': seq<Post>, files: seq<Content>, o: string)
    requires OriginOk(init, g, files, o) && Extends(g, g') && HistoryOk(init, g')
    ensures OriginOk(init, g', files, o)
  {
    forall i | 0 <= i < |files| ensures ContentOk(init, g', files[i], o) {
      assert ContentOk(init, g, files[i], o);
      TokensExtend(init, g, g', From(files[i], o));
    }
    forall i, j | 0 <= i <= j < |files| ensures Older(g', files[i], files[j], o) {
      assert ContentOk(init, g, files[i], o) && ContentOk(init, g, files[j], o) && Older(g, files[i], files[j], o);
      forall k: nat ensures InForce(g', From(files[i], o), k) ==> InForce(g', From(files[j], o), k) {
        ForceExtends(g, g', From(files[i], o), k);
        ForceExtends(g, g', From(files[j], o), k);
      }
    }
  }

  lemma PostKeepsOrigin(init: Credential, g: seq<Post>, files: seq<Content>, o: string, observed: string,
          reply: Option<Token>)
    requires OriginOk(init, g, files, o) && files != [] && o in files[|files| - 1].store
    requires var access := files[|files| - 1].store[o].access; observed == "" || access == "" || observed == access
    requires reply.Some? ==> reply.value.access != "" && Fresh(init, g, reply.value)
    ensures OriginOk(init, g + [PostOf(files[|files| - 1], o, observed, reply)], files, o)
  {
    var c := files[|files| - 1];
    var g' := g + [PostOf(c, o, observed, reply)];
    forall i | 0 <= i < |g'| ensures PostOk(init, g', i) {
      if i < |g| {
        PostExtends(init, g, g', i);
      } else {
        assert ContentOk(init, g, c, o);
        TokensExtend(init, g, g', From(c, o));
        assert g'[..i] == g;
      }
    }
    OriginExtends(init, g, g', files, o);
  }

  lemma MarkKeepsOrigin(init: Credential, g: seq<Post>, files: seq<Content>, o: string, outcome: SaveOutcome)
    requires OriginOk(init, g, files, o) && g != [] && g[|g| - 1].save.None?
    ensures OriginOk(init, MarkLast(g, outcome), files, o)
  {
    MarkExtends(g, outcome);
    var g' := MarkLast(g, outcome);
    forall i | 0 <= i < |g'| ensures PostOk(init, g', i) {
      PostExtends(init, g, g', i);
    }
    OriginExtends(init, g, g', files, o);
  }

  /** A content that is right and builds on the visible one may be written. */
  lemma WriteKeepsOrigin(init: Credential, g: seq<Post>, files: seq<Content>, o: string, c: Content,
          outcome: SaveOutcome)
    requires OriginOk(init, g, files, o) && files != []
    requires outcome.Replaced() ==> ContentOk(init, g, c, o) && Older(g, files[|files| - 1], c, o)
    ensures OriginOk(init, g, AfterSave(files, c, outcome), o)
  {
    var files' := AfterSave(files, c, outcome);
    forall i, j | 0 <= i <= j < |files'| ensures Older(g, files'[i], files'[j], o) {
      if outcome == FailedAfter && i < |files| == j {
        assert Older(g, files[i], files[|files| - 1], o);
      }
    }
  }

  /** Saving what the last post was granted, over the visible content. */
  lemma GrantKeepsOrigin(init: Credential, g: seq<Post>, files: seq<Content>, o: string, credential: Credential,
          outcome: SaveOutcome)
    requires OriginOk(init, g, files, o) && files != [] && g != []
    requires var last, c := g[|g| - 1], files[|files| - 1];
             && o in c.store && last.reply.Some? && last.save.None? && last.from == From(c, o)
             && credential.access == last.reply.value.access
             && credential.refresh ==
                if last.reply.value.refresh != "" then last.reply.value.refresh else c.store[o].refresh
    ensures var c' := Written(files[|files| - 1], o, credential, |g| - 1);
            OriginOk(init, MarkLast(g, outcome), AfterSave(files, c', outcome), o)
  {
    var c := files[|files| - 1];
    MarkKeepsOrigin(init, g, files, o, outcome);
    var g' := MarkLast(g, outcome);
    var c' := Written(c, o, credential, |g| - 1);
    if outcome.Replaced() {
      assert ContentOk(init, g', c, o) && PostOk(init, g', |g| - 1);
      forall k: nat ensures InForce(g', From(c, o), k) ==> InForce(g', From(c', o), k) {
        HeadHolds(g', From(c, o), k);
      }
    }
    WriteKeepsOrigin(init, g', files, o, c', outcome);
  }

  lemma SaveKeepsOwn(init: Store, s: System, s': System, m: nat, outcome: SaveOutcome)
    requires s.files != [] && m in s.managers && Saves(s, s', m, outcome) && SaveReady(s, s.managers[m])
    requires var o := s.managers[m].origin; o in init && OriginOk(init[o], s.posts[o], s.files, o)
    ensures var o := s.managers[m].origin; o in s'.posts && OriginOk(init[o], s'.posts[o], s'.files, o)
  {
    var me := s.managers[m];
    var o, g := me.origin, s.posts[me.origin];
    GrantKeepsOrigin(init[o], g, s.files, o, me.phase.credential, outcome);
    SaveFacts(s, s', m, outcome);
  }

  lemma SaveKeepsOther(init: Store, s: System, s': System, m: nat, outcome: SaveOutcome, o: string)
    requires Inv(init, s) && Next(init, s, s', Step(m, Save(outcome))) && o in init && o != s.managers[m].origin
    ensures o in s'.posts && s'.posts[o] == s.posts[o] && OriginOk(init[o], s'.posts[o], s'.files, o)
  {
    var me := s.managers[m];
    assert SaveReady(s, me) && OriginOk(init[o], s.posts[o], s.files, o);
    var c := s.files[|s.files| - 1];
    var c' := Written(c, me.origin, me.phase.credential, |s.posts[me.origin]| - 1);
    assert ContentOk(init[o], s.posts[o], c, o) && From(c', o) == From(c, o);
    WriteKeepsOrigin(init[o], s.posts[o], s.files, o, c', outcome);
  }

  lemma SettleKeepsOwn(init: Store, s: System, s': System, m: nat, env: Env)
    requires s.files != [] && m in s.managers && Settles(init, s, s', m, env)
    requires var o := s.managers[m].origin; o in init && o in s.posts && OriginOk(init[o], s.posts[o], s.files, o)
    ensures var o := s.managers[m].origin; o in s'.posts && OriginOk(init[o], s'.posts[o], s'.files, o)
  {
    var me := s.managers[m];
    var o := me.origin;
    SettleFiles(init, s, s', m, env);
    match Decide(Visible(s).store, o, me.phase.observed, env)
    case Granted(_) => PostKeepsOrigin(init[o], s.posts[o], s.files, o, me.phase.observed, Some(env.response.token));
    case Rejected => PostKeepsOrigin(init[o], s.posts[o], s.files, o, me.phase.observed, None);
    case _ =>
  }

  lemma SettleKeepsOther(init: Store, s: System, s': System, m: nat, env: Env, o: string)
    requires s.files != [] && m in s.managers && Settles(init, s, s', m, env) && o != s.managers[m].origin
    requires o in s.posts
    ensures s'.files == s.files && o in s'.posts && s'.posts[o] == s.posts[o]
  {
    SettleFiles(init, s, s', m, env);
  }

  lemma NextKeepsOrigin(init: Store, s: System, s': System, move: Move, o: string)
    requires Inv(init, s) && Next(init, s, s', move) && o in init
    ensures o in s'.posts && OriginOk(init[o], s'.posts[o], s'.files, o)
  {
    assert OriginOk(init[o], s.posts[o], s.files, o);
    match move
    case PowerLoss(file) => assert Older(s.posts[o], s.files[file], s.files[file], o);
    case Step(m, a) =>
      match a
      case Settle(env) =>
        if o == s.managers[m].origin {
          SettleKeepsOwn(init, s, s', m, env);
        } else {
          SettleKeepsOther(init, s, s', m, env, o);
        }
      case Save(outcome) =>
        if o == s.managers[m].origin {
          assert SaveReady(s, s.managers[m]);
          SaveKeepsOwn(init, s, s', m, outcome);
        } else {
          SaveKeepsOther(init, s, s', m, outcome, o);
        }
      case _ =>
  }

  lemma SettleKeys(init: Store, s: System, s': System, m: nat, env: Env)
    requires s.files != [] && m in s.managers && Settles(init, s, s', m, env)
    ensures s'.posts.Keys == s.posts.Keys
  {
  }

  lemma NextKeepsKeys(init: Store, s: System, s': System, move: Move)
    requires Inv(init, s) && Next(init, s, s', move)
    ensures KeysOk(init, s')
  {
    match move
    case PowerLoss(file) =>
    case Step(m, a) =>
      match a
      case Settle(env) =>
        SettleFiles(init, s, s', m, env);
        SettleKeys(init, s, s', m, env);
      case Save(outcome) =>
        assert SaveReady(s, s.managers[m]);
        SaveKeepsKeys(init, s, s', m, outcome);
      case _ =>
  }

  lemma SaveKeepsKeys(init: Store, s: System, s': System, m: nat, outcome: SaveOutcome)
    requires s.files != [] && m in s.managers && Saves(s, s', m, outcome) && KeysOk(init, s)
    requires s.managers[m].origin in init && s.managers[m].phase.loaded == Visible(s)
    ensures KeysOk(init, s')
  {
    assert Visible(s).store.Keys == init.Keys;
  }

  lemma ActKeepsLock(init: Store, s: System, s': System, m: nat, a: Action)
    requires s.files != [] && LockOk(s) && m in s.managers && Acts(init, s, s', m, a)
    ensures s'.files != [] && LockOk(s')
  {
    ActIsLocal(init, s, s', m, a);
    match a
    case Settle(env) => SettleLock(init, s, s', m, env);
    case Save(_) => FreesLock(init, s, s', m, a);
    case Die => FreesLock(init, s, s', m, a);
    case _ => TakesLock(init, s, s', m, a);
  }

  lemma TakesLock(init: Store, s: System, s': System, m: nat, a: Action)
    requires s.files != [] && LockOk(s) && m in s.managers && Acts(init, s, s', m, a)
    requires (a.Load? || a.Ask? || a.Acquire?)
    ensures s'.files != [] && LockOk(s')
  {
    assert forall k :: k in s.managers && k != m ==> s'.managers[k] == s.managers[k];
  }

  lemma FreesLock(init: Store, s: System, s': System, m: nat, a: Action)
    requires s.files != [] && LockOk(s) && m in s.managers && Acts(init, s, s', m, a) && (a.Save? || a.Die?)
    ensures s'.files != [] && LockOk(s')
  {
    assert forall k :: k in s.managers && k != m ==> s'.managers[k] == s.managers[k];
  }

  lemma SettleLock(init: Store, s: System, s': System, m: nat, env: Env)
    requires s.files != [] && LockOk(s) && m in s.managers && Settles(init, s, s', m, env)
    ensures s'.files != [] && LockOk(s')
  {
    SettleFiles(init, s, s', m, env);
    assert forall k :: k in s.managers && k != m ==> s'.managers[k] == s.managers[k];
  }

  lemma NextKeepsManagers(init: Store, s: System, s': System, move: Move)
    requires Inv(init, s) && Next(init, s, s', move)
    ensures s'.files != [] && LockOk(s') && forall m :: m in s'.managers ==> s'.managers[m].origin in init
  {
    match move
    case PowerLoss(_) =>
    case Step(m, a) =>
      ActIsLocal(init, s, s', m, a);
      ActKeepsLock(init, s, s', m, a);
  }

  lemma NextKeepsInv(init: Store, s: System, s': System, move: Move)
    requires Inv(init, s) && Next(init, s, s', move)
    ensures Inv(init, s')
  {
    NextKeepsManagers(init, s, s', move);
    NextKeepsKeys(init, s, s', move);
    forall o | o in init ensures OriginOk(init[o], s'.posts[o], s'.files, o) {
      NextKeepsOrigin(init, s, s', move, o);
    }
  }

  lemma {:induction false} RunInv(init: Store, states: seq<System>, moves: seq<Move>, n: nat)
    requires Run(init, states, moves) && n < |states|
    ensures Inv(init, states[n])
  {
    if n > 0 {
      RunInv(init, states, moves, n - 1);
      NextKeepsInv(init, states[n - 1], states[n], moves[n - 1]);
    }
  }
}
