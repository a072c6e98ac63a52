/** When a refresh token is sent twice: over every run, exactly, and the runs in which it happens. */
module CredentialResults {
  import opened Wrappers
  import opened Credentials
  import opened CredentialSafety

  // ---------------------------------------------------------------- requests that share a token

  /**
   In every interleaving of the managers, with any power losses, whatever the server answers and however
   saves end, for any two posts of an origin: they send the same refresh token if and only if the same
   replacing grants were in force when they were sent; they spend the same access token if and only if the
   same grants were; and so it is if both managers had observed the same token, because a manager that
   finds a newer one stored adopts it without a post.
   */
  lemma RotationExact(init: Store, states: seq<System>, moves: seq<Move>, n: nat, o: string, i: nat, j: nat)
    requires Run(init, states, moves) && n < |states| && o in init
    requires o in states[n].posts && i < |states[n].posts[o]| && j < |states[n].posts[o]|
    ensures var g := states[n].posts[o];
            && (g[i].refresh == g[j].refresh <==> SameReplacements(g, g[i].from, g[j].from))
            && (g[i].access == g[j].access <==> SameGrants(g, g[i].from, g[j].from))
            && (g[i].observed == g[j].observed != "" && g[i].access != "" && g[j].access != "" ==>
                  SameGrants(g, g[i].from, g[j].from))
  {
    RunInv(init, states, moves, n);
    var g := states[n].posts[o];
    assert OriginOk(init[o], g, states[n].files, o);
    SpentTwiceExactly(init[o], g, i, j);
    assert PostOk(init[o], g, i) && PostOk(init[o], g, j);
  }

  // ---------------------------------------------------------------- which grants are in force

  /** The power loss brings back a content in which the grant is not in force. */
  predicate Reverts(s: System, move: Move, o: string, k: nat) {
    move.PowerLoss? && move.file < |s.files| && !Holds(s, s.files[move.file], o, k)
  }

  ghost predicate NeverReverted(states: seq<System>, moves: seq<Move>, i: nat, n: nat, o: string, k: nat)
    requires n <= |moves| < |states|
  {
    forall p :: i < p < n ==> !Reverts(states[p], moves[p], o, k)
  }

  ghost predicate StoredAndKept(states: seq<System>, moves: seq<Move>, n: nat, o: string, k: nat)
    requires n <= |moves| < |states|
  {
    exists i: nat :: i < n && Stores(states[i], moves[i], o, k) && NeverReverted(states, moves, i, n, o, k)
  }

  lemma StoredGrows(states: seq<System>, moves: seq<Move>, n: nat, o: string, k: nat)
    requires n < |moves| < |states|
    ensures StoredAndKept(states, moves, n + 1, o, k) <==>
              Stores(states[n], moves[n], o, k)
                || (StoredAndKept(states, moves, n, o, k) && !Reverts(states[n], moves[n], o, k))
  {
    if Stores(states[n], moves[n], o, k) {
      assert NeverReverted(states, moves, n, n + 1, o, k);
    }
    if StoredAndKept(states, moves, n, o, k) && !Reverts(states[n], moves[n], o, k) {
      var i: nat :| i < n && Stores(states[i], moves[i], o, k) && NeverReverted(states, moves, i, n, o, k);
      assert NeverReverted(states, moves, i, n + 1, o, k);
    }
    if StoredAndKept(states, moves, n + 1, o, k) {
      var i: nat :| i < n + 1 && Stores(states[i], moves[i], o, k) && NeverReverted(states, moves, i, n + 1, o, k);
      assert i < n ==> NeverReverted(states, moves, i, n, o, k) && !Reverts(states[n], moves[n], o, k);
    }
  }

  /**
   Over every run: the grant of a post is in force in the visible file if and only if a save put it there
   and every power loss since brought back a content that has it.
   */
  lemma {:induction false} InForceExactly(init: Store, states: seq<System>, moves: seq<Move>, n: nat, o: string, k: nat)
    requires Run(init, states, moves) && n <= |moves| && o in init
    ensures states[n].files != []
    ensures Holds(states[n], Visible(states[n]), o, k) <==> StoredAndKept(states, moves, n, o, k)
  {
    if n > 0 {
      InForceExactly(init, states, moves, n - 1, o, k);
      RunInv(init, states, moves, n - 1);
      VisibleHolds(init, states[n - 1], states[n], moves[n - 1], o, k);
      StoredGrows(states, moves, n - 1, o, k);
    }
  }

  /**
   A save that failed after its rename put the grant there, and since then none returned and the machine stayed up.
   */
  ghost predicate UnsyncedGrant(states: seq<System>, moves: seq<Move>, n: nat, o: string, k: nat)
    requires n <= |moves| < |states|
  {
    exists i: nat :: i < n && StoresUnsynced(states[i], moves[i], o, k) && NoneSyncs(moves, i, n)
  }

  predicate StoresUnsynced(s: System, move: Move, o: string, k: nat) {
    Stores(s, move, o, k) && Adds(move)
  }

  ghost predicate NoneSyncs(moves: seq<Move>, i: nat, n: nat)
    requires n <= |moves|
  {
    forall p :: i < p < n ==> !Syncs(moves[p])
  }

  lemma UnsyncedGrows(states: seq<System>, moves: seq<Move>, n: nat, o: string, k: nat)
    requires n < |moves| < |states|
    ensures UnsyncedGrant(states, moves, n + 1, o, k) <==>
              StoresUnsynced(states[n], moves[n], o, k) || (UnsyncedGrant(states, moves, n, o, k) && !Syncs(moves[n]))
  {
    if StoresUnsynced(states[n], moves[n], o, k) {
      assert NoneSyncs(moves, n, n + 1);
    }
    if UnsyncedGrant(states, moves, n, o, k) && !Syncs(moves[n]) {
      var i: nat :| i < n && StoresUnsynced(states[i], moves[i], o, k) && NoneSyncs(moves, i, n);
      assert NoneSyncs(moves, i, n + 1);
    }
    if UnsyncedGrant(states, moves, n + 1, o, k) {
      var i: nat :| i < n + 1 && StoresUnsynced(states[i], moves[i], o, k) && NoneSyncs(moves, i, n + 1);
      assert i < n ==> NoneSyncs(moves, i, n) && !Syncs(moves[n]);
    }
  }

  /** A power loss may bring back a content in which the grant is not in force. */
  ghost predicate Revertible(s: System, o: string, k: nat) {
    exists i :: 0 <= i < |s.files| && !Holds(s, s.files[i], o, k)
  }

  /**
   Over every run: a grant in force may be undone by a power loss if and only if it was stored by a save
   that failed after its rename, and since then no save of any origin has returned and the machine has not
   gone down.
   */
  lemma {:induction false} RevertibleExactly(init: Store, states: seq<System>, moves: seq<Move>, n: nat, o: string,
          k: nat)
    requires Run(init, states, moves) && n <= |moves| && o in init
    requires states[n].files != [] && Holds(states[n], Visible(states[n]), o, k)
    ensures Revertible(states[n], o, k) <==> UnsyncedGrant(states, moves, n, o, k)
  {
    if n > 0 {
      RunInv(init, states, moves, n - 1);
      RevertibleStep(init, states[n - 1], states[n], moves[n - 1], o, k);
      UnsyncedGrows(states, moves, n - 1, o, k);
      if !Syncs(moves[n - 1]) && Holds(states[n - 1], Visible(states[n - 1]), o, k) {
        RevertibleExactly(init, states, moves, n - 1, o, k);
      }
    }
  }

  lemma RevertibleStep(init: Store, s: System, s': System, move: Move, o: string, k: nat)
    requires Inv(init, s) && Next(init, s, s', move) && o in init && s'.files != [] && Holds(s', Visible(s'), o, k)
    ensures Syncs(move) ==> !Revertible(s', o, k) && !StoresUnsynced(s, move, o, k)
    ensures !Syncs(move) && Holds(s, Visible(s), o, k) ==>
              (Revertible(s', o, k) <==> Revertible(s, o, k)) && !Stores(s, move, o, k)
    ensures !Syncs(move) && !Holds(s, Visible(s), o, k) ==> Revertible(s', o, k) && StoresUnsynced(s, move, o, k)
  {
    FilesMove(init, s, s', move);
    VisibleHolds(init, s, s', move, o, k);
    CandidatesStay(init, s, s', move, o, k);
    if Stores(s, move, o, k) && Holds(s, Visible(s), o, k) {
      NotYetHeld(init, s, move.m, o, k);
    }
    StepReverts(s, s', move, o, k);
  }

  lemma StepReverts(s: System, s': System, move: Move, o: string, k: nat)
    requires s.files != [] && s'.files != [] && Holds(s', Visible(s'), o, k)
    requires Syncs(move) ==> |s'.files| == 1
    requires !Syncs(move) ==> s'.files == s.files || (Adds(move) && s'.files == s.files + [Visible(s')])
    requires forall c :: c in s.files ==> (Holds(s', c, o, k) <==> Holds(s, c, o, k))
    requires !move.PowerLoss? && !Stores(s, move, o, k) ==> Holds(s, Visible(s), o, k)
    ensures Syncs(move) ==> !Revertible(s', o, k)
    ensures !Syncs(move) && Holds(s, Visible(s), o, k) ==> (Revertible(s', o, k) <==> Revertible(s, o, k))
    ensures !Syncs(move) && !Holds(s, Visible(s), o, k) ==> Revertible(s', o, k) && StoresUnsynced(s, move, o, k)
  {
    if Syncs(move) {
      assert s'.files[0] == Visible(s');
    } else if Holds(s, Visible(s), o, k) {
      RevertibleSame(s, s', o, k);
    } else {
      assert s.files[|s.files| - 1] == Visible(s) && s'.files[|s.files| - 1] == Visible(s);
    }
  }

  /** A grant about to be saved is not in force yet. */
  lemma NotYetHeld(init: Store, s: System, m: nat, o: string, k: nat)
    requires Inv(init, s) && o in init && SaverOf(s, m, o, k) && s.managers[m].phase.Saving? && s.lock == Some(m)
    ensures !Holds(s, Visible(s), o, k)
  {
    var g, c := s.posts[o], s.files[|s.files| - 1];
    assert SaveReady(s, s.managers[m]) && ContentOk(init[o], g, c, o);
    assert From(c, o).Some? ==> g[From(c, o).value].Stored();
  }

  lemma CandidatesStay(init: Store, s: System, s': System, move: Move, o: string, k: nat)
    requires Inv(init, s) && Next(init, s, s', move) && o in init
    ensures forall c :: c in s.files ==> (Holds(s', c, o, k) <==> Holds(s, c, o, k))
  {
    forall c | c in s.files ensures Holds(s', c, o, k) <==> Holds(s, c, o, k) {
      HoldsStays(init, s, s', move, c, o, k);
    }
  }

  lemma RevertibleSame(s: System, s': System, o: string, k: nat)
    requires s.files != [] && s'.files != [] && Holds(s', Visible(s'), o, k)
    requires s'.files == s.files || s'.files == s.files + [Visible(s')]
    requires forall c :: c in s.files ==> (Holds(s', c, o, k) <==> Holds(s, c, o, k))
    ensures Revertible(s', o, k) <==> Revertible(s, o, k)
  {
    assert forall i :: 0 <= i < |s.files| ==> s'.files[i] == s.files[i] && s.files[i] in s.files;
    assert |s'.files| > |s.files| ==> s'.files[|s.files|] == Visible(s');
  }

  // ---------------------------------------------------------------- runs in which nothing is undone

  /** Every power loss brings back what readers saw. */
  ghost predicate NothingUndone(states: seq<System>, moves: seq<Move>, n: nat)
    requires n <= |moves| < |states|
  {
    forall p :: 0 <= p < n && moves[p].PowerLoss? ==> moves[p].file == |states[p].files| - 1
  }

  /** In force are exactly the first `n` posts' stored grants. */
  ghost predicate AllInForce(g: seq<Post>, from: Option<nat>, n: nat)
    requires n <= |g|
  {
    forall k: nat :: InForce(g, from, k) <==> k < n && g[k].Stored()
  }

  ghost predicate Linear(g: seq<Post>, from: Option<nat>) {
    AllInForce(g, from, |g|) && forall j :: 0 <= j < |g| ==> AllInForce(g, g[j].from, j)
  }

  /** A post more, not yet saved. */
  lemma LinearPost(init: Credential, g: seq<Post>, from: Option<nat>, p: Post)
    requires HistoryOk(init, g) && Linear(g, from) && p.save.None? && p.from == from && FromOk(g, from, |g|)
    ensures Linear(g + [p], from)
  {
    var g' := g + [p];
    forall j | 0 <= j < |g'| ensures AllInForce(g', g'[j].from, j) {
      forall k: nat ensures InForce(g', g'[j].from, k) <==> k < j && g'[k].Stored() {
        assert j < |g| ==> PostOk(init, g, j) && AllInForce(g, g[j].from, j);
        ForceExtends(g, g', g'[j].from, k);
      }
    }
    forall k: nat ensures InForce(g', from, k) <==> k < |g'| && g'[k].Stored() {
      ForceExtends(g, g', from, k);
    }
  }

  /** The end of the last post's save. */
  lemma LinearMark(init: Credential, g: seq<Post>, from: Option<nat>, outcome: SaveOutcome)
    requires HistoryOk(init, g) && Linear(g, from) && g != [] && g[|g| - 1].save.None? && g[|g| - 1].from == from
    ensures Linear(MarkLast(g, outcome), if outcome.Replaced() then Some(|g| - 1) else from)
  {
    var g' := MarkLast(g, outcome);
    MarkExtends(g, outcome);
    forall j | 0 <= j < |g'| ensures AllInForce(g', g'[j].from, j) {
      assert PostOk(init, g, j) && AllInForce(g, g[j].from, j);
      forall k: nat ensures InForce(g', g'[j].from, k) <==> k < j && g'[k].Stored() {
        ForceExtends(g, g', g[j].from, k);
      }
    }
    assert PostOk(init, g, |g| - 1) && AllInForce(g', g'[|g| - 1].from, |g| - 1);
    forall k: nat ensures InForce(g', Some(|g| - 1), k) <==> InForce(g', from, k) || k == |g| - 1 {
      HeadHolds(g', from, k);
    }
  }

  ghost predicate LinearAt(s: System, o: string) {
    s.files != [] && o in s.posts && Linear(s.posts[o], From(Visible(s), o))
  }

  lemma NextLinear(init: Store, s: System, s': System, move: Move, o: string)
    requires Next(init, s, s', move) && o in init && LinearAt(s, o) && LockOk(s)
    requires OriginOk(init[o], s.posts[o], s.files, o)
    requires move.PowerLoss? ==> move.file == |s.files| - 1
    ensures LinearAt(s', o)
  {
    match move
    case PowerLoss(_) =>
    case Step(m, a) =>
      match a
      case Settle(env) => SettleLinear(init, s, s', m, env, o);
      case Save(outcome) =>
        assert SaveReady(s, s.managers[m]);
        if o == s.managers[m].origin {
          SaveLinear(init[o], s, s', m, outcome);
        } else {
          OtherLinear(s, s', m, outcome, o);
        }
      case _ => QuietLinear(init, s, s', m, a, o);
  }

  lemma QuietLinear(init: Store, s: System, s': System, m: nat, a: Action, o: string)
    requires s.files != [] && m in s.managers && Acts(init, s, s', m, a) && !a.Settle? && !a.Save? && LinearAt(s, o)
    ensures LinearAt(s', o)
  {
    QuietSystem(init, s, s', m, a);
    LinearSame(s, s', o);
  }

  lemma QuietSystem(init: Store, s: System, s': System, m: nat, a: Action)
    requires s.files != [] && m in s.managers && Acts(init, s, s', m, a) && !a.Settle? && !a.Save?
    ensures s'.files == s.files && s'.posts == s.posts
  {
  }

  lemma LinearSame(s: System, s': System, o: string)
    requires LinearAt(s, o) && s'.files == s.files && s'.posts == s.posts
    ensures LinearAt(s', o)
  {
  }

  lemma SettleLinear(init: Store, s: System, s': System, m: nat, env: Env, o: string)
    requires m in s.managers && LinearAt(s, o) && Settles(init, s, s', m, env)
    requires o in init && OriginOk(init[o], s.posts[o], s.files, o)
    ensures LinearAt(s', o)
  {
    SettleFiles(init, s, s', m, env);
    if o == s.managers[m].origin {
      var g, c, observed := s.posts[o], Visible(s), s.managers[m].phase.observed;
      assert ContentOk(init[o], g, s.files[|s.files| - 1], o);
      match Decide(c.store, o, observed, env)
      case Granted(_) => LinearPost(init[o], g, From(c, o), PostOf(c, o, observed, Some(env.response.token)));
      case Rejected => LinearPost(init[o], g, From(c, o), PostOf(c, o, observed, None));
      case _ =>
    } else {
      SettleKeepsOther(init, s, s', m, env, o);
    }
  }

  lemma SaveLinear(init: Credential, s: System, s': System, m: nat, outcome: SaveOutcome)
    requires s.files != [] && m in s.managers && Saves(s, s', m, outcome) && SaveReady(s, s.managers[m])
    requires LinearAt(s, s.managers[m].origin) && HistoryOk(init, s.posts[s.managers[m].origin])
    ensures LinearAt(s', s.managers[m].origin)
  {
    var o := s.managers[m].origin;
    var g, c := s.posts[o], Visible(s);
    LinearMark(init, g, From(c, o), outcome);
    SaveFacts(s, s', m, outcome);
    SavedLinear(s.files, g, s', o, s.managers[m].phase.credential, outcome);
  }

  lemma SavedLinear(files: seq<Content>, g: seq<Post>, s': System, o: string, credential: Credential,
          outcome: SaveOutcome)
    requires files != [] && g != [] && o in s'.posts && s'.posts[o] == MarkLast(g, outcome)
    requires s'.files == AfterSave(files, Written(files[|files| - 1], o, credential, |g| - 1), outcome)
    requires Linear(MarkLast(g, outcome), if outcome.Replaced() then Some(|g| - 1) else From(files[|files| - 1], o))
    ensures LinearAt(s', o)
  {
  }

  lemma OtherLinear(s: System, s': System, m: nat, outcome: SaveOutcome, o: string)
    requires s.files != [] && m in s.managers && Saves(s, s', m, outcome) && SaveReady(s, s.managers[m])
    requires LinearAt(s, o) && o != s.managers[m].origin
    ensures LinearAt(s', o)
  {
    assert s'.posts[o] == s.posts[o];
  }

  lemma {:induction false} RunLinear(init: Store, states: seq<System>, moves: seq<Move>, n: nat, o: string)
    requires Run(init, states, moves) && n <= |moves| && o in init && NothingUndone(states, moves, n)
    ensures LinearAt(states[n], o)
  {
    if n > 0 {
      RunLinear(init, states, moves, n - 1, o);
      RunInv(init, states, moves, n - 1);
      NextLinear(init, states[n - 1], states[n], moves[n - 1], o);
    }
  }

  /**
   In every run in which power losses, if there are any, bring back what readers saw: two posts of an origin
   send the same refresh token if and only if no grant from the first on was stored with a replacement, and
   spend the same access token if and only if no grant from the first on was stored.
   */
  lemma RotationUnlessUndone(init: Store, states: seq<System>, moves: seq<Move>, n: nat, o: string, i: nat, j: nat)
    requires Run(init, states, moves) && n <= |moves| && o in init && NothingUndone(states, moves, n)
    requires o in states[n].posts && i < j < |states[n].posts[o]|
    ensures var g := states[n].posts[o];
            && (g[i].refresh == g[j].refresh <==> forall k :: i <= k < j ==> !(g[k].Replaces() && g[k].Stored()))
            && (g[i].access == g[j].access <==> forall k :: i <= k < j ==> !g[k].Stored())
  {
    RotationExact(init, states, moves, n, o, i, j);
    RunLinear(init, states, moves, n, o);
    var g := states[n].posts[o];
    assert AllInForce(g, g[i].from, i) && AllInForce(g, g[j].from, j);
  }

  /** Nothing is undone in a run without a save that failed after its rename, whatever power losses it has. */
  lemma {:induction false} UndoneOnlyAfterFailedSync(init: Store, states: seq<System>, moves: seq<Move>, n: nat)
    requires Run(init, states, moves) && n <= |moves| && forall p :: 0 <= p < n ==> !Adds(moves[p])
    ensures |states[n].files| == 1 && NothingUndone(states, moves, n)
  {
    if n > 0 {
      UndoneOnlyAfterFailedSync(init, states, moves, n - 1);
      FilesMove(init, states[n - 1], states[n], moves[n - 1]);
    }
  }

  // ---------------------------------------------------------------- other origins

  /** The origin's visible credential and its posts are the same in both states. */
  ghost predicate SameEntry(s: System, s': System, o: string) {
    && s.files != [] && s'.files != []
    && o in Visible(s).store && o in Visible(s').store && Visible(s').store[o] == Visible(s).store[o]
    && o in s.posts && o in s'.posts && s'.posts[o] == s.posts[o]
  }

  /** The step is by a manager of another origin. */
  ghost predicate Elsewhere(s: System, move: Move, o: string) {
    move.Step? && move.m in s.managers && s.managers[move.m].origin != o
  }

  lemma VisibleEntry(init: Store, s: System, o: string)
    requires Inv(init, s) && o in init
    ensures SameEntry(s, s, o)
  {
    assert ContentOk(init[o], s.posts[o], s.files[|s.files| - 1], o);
  }

  lemma NextElsewhere(init: Store, s: System, s': System, move: Move, o: string)
    requires Next(init, s, s', move) && Elsewhere(s, move, o) && SameEntry(s, s, o) && LockOk(s)
    ensures SameEntry(s, s', o)
  {
    match move.a
    case Settle(env) => SettleKeepsOther(init, s, s', move.m, env, o);
    case Save(outcome) => SaveElsewhere(s, s', move.m, outcome, o);
    case _ => ActElsewhere(init, s, s', move.m, move.a, o);
  }

  lemma ActElsewhere(init: Store, s: System, s': System, m: nat, a: Action, o: string)
    requires SameEntry(s, s, o) && m in s.managers && Acts(init, s, s', m, a) && !a.Settle? && !a.Save?
    ensures SameEntry(s, s', o)
  {
  }

  lemma SaveElsewhere(s: System, s': System, m: nat, outcome: SaveOutcome, o: string)
    requires SameEntry(s, s, o) && LockOk(s) && m in s.managers && Saves(s, s', m, outcome) && s.managers[m].origin != o
    ensures SameEntry(s, s', o)
  {
    assert SaveReady(s, s.managers[m]);
    assert s'.posts[o] == s.posts[o];
  }

  lemma MoveElsewhere(init: Store, states: seq<System>, moves: seq<Move>, k: nat, o: string)
    requires Run(init, states, moves) && k < |moves| && o in init && Elsewhere(states[k], moves[k], o)
    ensures SameEntry(states[k], states[k + 1], o)
  {
    RunInv(init, states, moves, k);
    VisibleEntry(init, states[k], o);
    NextElsewhere(init, states[k], states[k + 1], moves[k], o);
  }

  lemma EntryTransitive(a: System, b: System, c: System, o: string)
    requires SameEntry(a, b, o) && SameEntry(b, c, o)
    ensures SameEntry(a, c, o)
  {
  }

  ghost predicate AllElsewhere(states: seq<System>, moves: seq<Move>, i: nat, j: nat, o: string)
    requires j <= |moves| < |states|
  {
    forall k :: i <= k < j ==> Elsewhere(states[k], moves[k], o)
  }

  /**
   Over a stretch of a run with no step by a manager of an origin and no power loss, its entry and its posts
   stay as they are.
   */
  lemma {:induction false} OthersUntouched(init: Store, states: seq<System>, moves: seq<Move>, i: nat, j: nat,
          o: string)
    requires Run(init, states, moves) && i <= j <= |moves| && o in init && AllElsewhere(states, moves, i, j, o)
    ensures SameEntry(states[i], states[j], o)
  {
    if i < j {
      assert Elsewhere(states[j - 1], moves[j - 1], o);
      OthersUntouched(init, states, moves, i, j - 1, o);
      MoveElsewhere(init, states, moves, j - 1, o);
      EntryTransitive(states[i], states[j - 1], states[j], o);
    } else {
      EntryAt(init, states, moves, i, o);
    }
  }

  lemma EntryAt(init: Store, states: seq<System>, moves: seq<Move>, i: nat, o: string)
    requires Run(init, states, moves) && i <= |moves| && o in init
    ensures SameEntry(states[i], states[i], o)
  {
    RunInv(init, states, moves, i);
    VisibleEntry(init, states[i], o);
  }

  // ---------------------------------------------------------------- a token sent twice

  /** One manager of one origin, between two requests. */
  function Between(files: seq<Content>, posts: seq<Post>): System {
    System(files, map[0 := Manager("o", "", Idle)], None, map["o" := posts])
  }

  function First(init: Credential): Content {
    Content(map["o" := init], map[])
  }

  /** The credential can be refreshed, and the endpoint answers with this grant or with none. */
  ghost predicate Answers(init: Credential, reply: Option<Token>, env: Env) {
    && init.refresh != "" && init.endpoint != "" && env.secure(init.endpoint)
    && env.response == (if reply.Some? then Body(reply.value) else Refused)
    && (reply.Some? ==> reply.value.access != "")
  }

  /** Where the manager stands after the answer. */
  function After(init: Credential, reply: Option<Token>, now: int): Phase {
    if reply.Some? then Saving(First(init), Rotate(init, reply.value, now)) else Idle
  }

  /** It asks, takes the lock, and posts; `reply` is the grant, if there is one. */
  lemma OneRound(init: Credential, posts: seq<Post>, reply: Option<Token>, env: Env)
    returns (s1: System, s2: System, s3: System)
    requires Answers(init, reply, env) && (reply.Some? ==> Fresh(init, posts, reply.value))
    ensures var s, store := Between([First(init)], posts), map["o" := init];
            && Next(store, s, s1, Step(0, Ask)) && Next(store, s1, s2, Step(0, Acquire))
               && Next(store, s2, s3, Step(0, Settle(env)))
            && s3 == s.(
              managers := map[0 := Manager("o", "", After(init, reply, env.now))],
              lock := if reply.Some? then Some(0) else None,
              posts := map["o" := posts + [PostOf(First(init), "o", "", reply)]])
  {
    var s, me := Between([First(init)], posts), Manager("o", "", Idle);
    s1 := s.(managers := map[0 := me.(phase := Wants(""))]);
    s2 := s1.(managers := map[0 := me.(phase := Holding(""))], lock := Some(0));
    assert Decide(Visible(s2).store, "o", "", env) ==
           if reply.Some? then Granted(Rotate(init, reply.value, env.now)) else Rejected;
    s3 := s.(
      managers := map[0 := Manager("o", "", After(init, reply, env.now))],
      lock := if reply.Some? then Some(0) else None,
      posts := map["o" := posts + [PostOf(First(init), "o", "", reply)]]);
  }

  lemma RunSnoc(init: Store, states: seq<System>, moves: seq<Move>, s': System, move: Move)
    returns (states': seq<System>, moves': seq<Move>)
    requires Run(init, states, moves) && Next(init, states[|moves|], s', move)
    ensures Run(init, states', moves') && states' != [] && states'[|moves'|] == s'
  {
    states', moves' := states + [s'], moves + [move];
  }

  /** A run that stands between two requests, extended by one. */
  lemma RoundRuns(init: Credential, states: seq<System>, moves: seq<Move>, posts: seq<Post>, reply: Option<Token>,
          env: Env)
    returns (states': seq<System>, moves': seq<Move>)
    requires Run(map["o" := init], states, moves) && states[|moves|] == Between([First(init)], posts)
    requires Answers(init, reply, env) && (reply.Some? ==> Fresh(init, posts, reply.value))
    ensures Run(map["o" := init], states', moves')
    ensures states'[|moves'|].posts == map["o" := posts + [PostOf(First(init), "o", "", reply)]]
    ensures reply.None? ==> states'[|moves'|] == Between([First(init)], posts + [PostOf(First(init), "o", "", reply)])
    ensures reply.Some? ==>
              states'[|moves'|] == System([First(init)], map[0 := Manager("o", "", After(init, reply, env.now))],
                                          Some(0), map["o" := posts + [PostOf(First(init), "o", "", reply)]])
  {
    var s1, s2, s3 := OneRound(init, posts, reply, env);
    states', moves' := RunSnoc(map["o" := init], states, moves, s1, Step(0, Ask));
    states', moves' := RunSnoc(map["o" := init], states', moves', s2, Step(0, Acquire));
    states', moves' := RunSnoc(map["o" := init], states', moves', s3, Step(0, Settle(env)));
  }

  /** The first request, granted and then saved. */
  function FirstPost(init: Credential, first: Token, outcome: SaveOutcome): Post {
    PostOf(First(init), "o", "", Some(first)).(save := Some(outcome))
  }

  /** The save of that grant. */
  lemma FirstSave(init: Credential, first: Token, now: int, outcome: SaveOutcome) returns (s': System)
    ensures var s := System([First(init)], map[0 := Manager("o", "", After(init, Some(first), now))],
                            Some(0), map["o" := [PostOf(First(init), "o", "", Some(first))]]);
            Next(map["o" := init], s, s', Step(0, Save(outcome)))
    ensures outcome != Saved ==>
              && s'.files != [] && s'.files[0] == First(init) && (outcome == FailedBefore ==> |s'.files| == 1)
              && s' == Between(s'.files, [FirstPost(init, first, outcome)])
  {
    var c := Written(First(init), "o", Rotate(init, first, now), 0);
    assert MarkLast([PostOf(First(init), "o", "", Some(first))], outcome) == [FirstPost(init, first, outcome)];
    s' := Between(AfterSave([First(init)], c, outcome), [FirstPost(init, first, outcome)]);
    s' := s'.(managers := map[0 := Manager("o", if outcome == Saved then first.access else "", Idle)]);
  }

  /** A first request that is granted, and whose grant does not stay in the file. */
  lemma GrantNotKept(init: Credential, first: Token, env: Env, outcome: SaveOutcome)
    returns (states: seq<System>, moves: seq<Move>)
    requires Answers(init, Some(first), env) && outcome != Saved
    requires first.access != init.access && first.refresh !in {"", init.refresh}
    ensures Run(map["o" := init], states, moves)
    ensures states[|moves|] == Between([First(init)], [FirstPost(init, first, outcome)])
  {
    var store, post := map["o" := init], PostOf(First(init), "o", "", Some(first));
    assert Run(store, [Between([First(init)], [])], []);
    states, moves := RoundRuns(init, [Between([First(init)], [])], [], [], Some(first), env);
    assert [] + [post] == [post];
    var s' := FirstSave(init, first, env.now, outcome);
    states, moves := RunSnoc(store, states, moves, s', Step(0, Save(outcome)));
    if outcome == FailedAfter {
      assert Reset(s'.managers) == s'.managers;
      s' := Between([First(init)], [FirstPost(init, first, outcome)]);
      states, moves := RunSnoc(store, states, moves, s', PowerLoss(0));
    }
  }

  /** In the run's last state two requests of the origin were sent, with the same refresh token. */
  ghost predicate SentTwice(init: Credential, states: seq<System>, moves: seq<Move>, first: Post) {
    && Run(map["o" := init], states, moves) && "o" in states[|moves|].posts
    && var g := states[|moves|].posts["o"];
       |g| == 2 && g[0] == first && g[0].refresh == g[1].refresh == init.refresh
  }

  /** A refused request: no grant, and the same token is sent again. */
  lemma RefusedPostSpendsTwice(init: Credential, env: Env) returns (states: seq<System>, moves: seq<Move>)
    requires Answers(init, None, env)
    ensures SentTwice(init, states, moves, PostOf(First(init), "o", "", None))
  {
    assert Run(map["o" := init], [Between([First(init)], [])], []);
    states, moves := RoundRuns(init, [Between([First(init)], [])], [], [], None, env);
    assert [] + [PostOf(First(init), "o", "", None)] == [PostOf(First(init), "o", "", None)];
    states, moves := RoundRuns(init, states, moves, [PostOf(First(init), "o", "", None)], None, env);
  }

  /**
   A lost save: the server replaces the refresh token, the grant does not reach the file, the replaced token is
   sent again.
   */
  lemma LostSaveSpendsTwice(init: Credential, first: Token, env: Env) returns (states: seq<System>, moves: seq<Move>)
    requires Answers(init, Some(first), env) && first.access != init.access && first.refresh !in {"", init.refresh}
    ensures SentTwice(init, states, moves, FirstPost(init, first, FailedBefore))
  {
    states, moves := GrantNotKept(init, first, env, FailedBefore);
    states, moves := RoundRuns(init, states, moves, [FirstPost(init, first, FailedBefore)], None,
      env.(response := Refused));
  }

  /**
   A power loss: the server replaces the refresh token, the grant reaches the file that readers see but its
   directory is not synced, the old file comes back, and the replaced token is sent again.
   */
  lemma PowerLossSpendsTwice(init: Credential, first: Token, env: Env) returns (states: seq<System>, moves: seq<Move>)
    requires Answers(init, Some(first), env) && first.access != init.access && first.refresh !in {"", init.refresh}
    ensures SentTwice(init, states, moves, FirstPost(init, first, FailedAfter))
  {
    states, moves := GrantNotKept(init, first, env, FailedAfter);
    states, moves := RoundRuns(init, states, moves, [FirstPost(init, first, FailedAfter)], None,
      env.(response := Refused));
  }
}
