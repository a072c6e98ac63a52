/** Baselines: which one a box's cursor goes back to, over every run with crashes, and a run that loses one. */
module DeliveryBaselines {
  import opened Wrappers
  import opened Sequences
  import opened Decimal
  import opened Events
  import opened Hydration
  import opened PollPlan
  import opened WatchEngines
  import opened QueueModel
  import opened QueueRefinement
  import opened Delivery
  import opened DeliverySafety

  // ---------------------------------------------------------------- exactly when a baseline is lost

  /** The power loss brings back a cursor file without the box, although readiness was announced with it. */
  predicate Drops(s: Pipeline, a: Act, b: int) {
    a.PowerLoss? && a.file < |s.files| && b in s.record.baselines && b !in CursorsIn(s.files[a.file])
  }

  ghost predicate Dropped(states: seq<Pipeline>, acts: seq<Act>, n: nat, b: int)
    requires n <= |acts| < |states|
  {
    exists i :: 0 <= i < n && Drops(states[i], acts[i], b)
  }

  lemma DroppedGrows(states: seq<Pipeline>, acts: seq<Act>, n: nat, b: int)
    requires n < |acts| < |states|
    ensures Dropped(states, acts, n + 1, b) <==> Dropped(states, acts, n, b) || Drops(states[n], acts[n], b)
  {
  }

  /** The baseline of the box's first readiness is the only one, and in force. */
  predicate FirstInForce(r: Record, b: int) {
    b in r.inForce && |Announced(r, b)| == 1
  }

  /** How a step changes what was announced for a box. */
  ghost predicate BaselineStep(s: Pipeline, a: Act, s': Pipeline, b: int) {
    var r, r' := s.record, s'.record;
    && (b in r.baselines ==> b in r'.baselines)
    && (r'.inForce == r.inForce || a.PowerLoss? || (a.Side? && a.side.Initialise?))
    && (Announced(r', b) == Announced(r, b)
        || (&& b !in r.inForce && b in r'.inForce
            && |Announced(r', b)| == |Announced(r, b)| + 1 && Announced(r, b) <= Announced(r', b)))
    && (b in r'.baselines ==> b in r.baselines || b in r'.inForce)
    && (b in r.inForce && b !in r'.inForce ==> a.PowerLoss?)
    && (b in r'.inForce && b !in r.inForce ==> |Announced(r', b)| == |Announced(r, b)| + 1)
    && (a.PowerLoss? && a.file < |s.files| ==> (b in r'.inForce <==> b in r.inForce && b in CursorsIn(s.files[a.file])))
  }

  lemma BaselineMoves(cfg: Config, s: Pipeline, a: Act, b: int)
    requires Enabled(cfg, s, a)
    ensures BaselineStep(s, a, Next(cfg, s, a), b)
  {
    match a
    case Side(side) => SidecarAnnounces(cfg, s, side);
    case OnHost(act) => HostAnnouncesNothing(cfg, s, act);
    case PowerLoss(_, _) =>
  }

  lemma BaselineMovesAt(cfg: Config, states: seq<Pipeline>, acts: seq<Act>, n: nat, b: int)
    requires Run(cfg, states, acts) && n < |acts|
    ensures BaselineStep(states[n], acts[n], states[n + 1], b)
  {
    BaselineMoves(cfg, states[n], acts[n], b);
  }

  /** Only initialisation announces, and then the visible cursors. */
  lemma SidecarAnnounces(cfg: Config, s: Pipeline, a: SidecarAct)
    requires SidecarEnabled(cfg, s, a)
    ensures var r, r' := s.record, SidecarStep(cfg, s, a).record;
            || (r'.baselines == r.baselines && r'.inForce == r.inForce)
            || (a.Initialise? && exists based :: r' == Announce(r, based))
  {
    match a
    case Initialise(api, boxes, outcome, announced) =>
    case _ =>
  }

  lemma HostAnnouncesNothing(cfg: Config, s: Pipeline, a: HostAct)
    requires HostEnabled(s, a)
    ensures var r, r' := s.record, HostStep(cfg, s, a).record; r'.baselines == r.baselines && r'.inForce == r.inForce
  {
  }

  /**
   Over every run: the baseline announced at a box's first readiness is the one in force, and the only one,
   if and only if no power loss brought back a cursor file without the box after that.
   */
  lemma {:induction false} FirstBaselineExactly(cfg: Config, states: seq<Pipeline>, acts: seq<Act>, n: nat, b: int)
    requires Run(cfg, states, acts) && n <= |acts|
    ensures b in states[n].record.baselines ==> Announced(states[n].record, b) != []
    ensures b in states[n].record.baselines ==> (FirstInForce(states[n].record, b) <==> !Dropped(states, acts, n, b))
    ensures b !in states[n].record.baselines ==> b !in states[n].record.inForce && !Dropped(states, acts, n, b)
  {
    if n > 0 {
      FirstBaselineExactly(cfg, states, acts, n - 1, b);
      BaselineMoves(cfg, states[n - 1], acts[n - 1], b);
      DroppedGrows(states, acts, n - 1, b);
    }
  }

  /** What was announced is never taken back: a step at most appends to it, so the first baseline stays the first. */
  lemma AnnouncedGrows(cfg: Config, states: seq<Pipeline>, acts: seq<Act>, n: nat, b: int)
    requires Run(cfg, states, acts) && n < |acts|
    ensures Announced(states[n].record, b) <= Announced(states[n + 1].record, b)
  {
    BaselineMovesAt(cfg, states, acts, n, b);
  }

  /** The initialisation finds the visible file as it wants it, so that it saves nothing. */
  predicate Matches(s: Pipeline, a: SidecarAct)
    requires a.Initialise?
  {
    && s.files != [] && Baseline(a.api, a.boxes, CursorsIn(Latest(s.files))).Ok?
    && Latest(s.files) == Stored(Baseline(a.api, a.boxes, CursorsIn(Latest(s.files))).value)
  }

  /** After the step only one cursor file is possible: a save of it returned, or the machine came up again. */
  predicate SyncsFile(s: Pipeline, a: Act) {
    || a.PowerLoss?
    || (a.Side? && a.side == SaveState(Saved))
    || (a.Side? && a.side.Initialise? && a.side.outcome == Saved && !Matches(s, a.side))
  }

  /** The save of the cursor file fails after its rename. */
  predicate ExposesFile(a: Act) {
    a.Side? && (a.side == SaveState(FailedAfter) || (a.side.Initialise? && a.side.outcome == FailedAfter))
  }

  /** The box comes into the visible file by such a save. */
  predicate EntersUnsynced(s: Pipeline, a: Act, s': Pipeline, b: int) {
    && s.files != [] && s'.files != [] && a.Side? && a.side.Initialise? && ExposesFile(a)
    && b !in CursorsIn(Latest(s.files)) && b in CursorsIn(Latest(s'.files))
  }

  predicate EntersAt(states: seq<Pipeline>, acts: seq<Act>, i: nat, b: int)
    requires i < |acts| < |states|
  {
    EntersUnsynced(states[i], acts[i], states[i + 1], b)
  }

  ghost predicate NoneSyncsFile(states: seq<Pipeline>, acts: seq<Act>, i: nat, n: nat)
    requires n <= |acts| < |states|
  {
    forall k :: i < k < n ==> !SyncsFile(states[k], acts[k])
  }

  ghost predicate UnsyncedBox(states: seq<Pipeline>, acts: seq<Act>, n: nat, b: int)
    requires n <= |acts| < |states|
  {
    exists i: nat :: i < n && EntersAt(states, acts, i, b) && NoneSyncsFile(states, acts, i, n)
  }

  lemma UnsyncedBoxGrows(states: seq<Pipeline>, acts: seq<Act>, n: nat, b: int)
    requires n < |acts| < |states|
    ensures UnsyncedBox(states, acts, n + 1, b) <==>
              || EntersAt(states, acts, n, b)
              || (UnsyncedBox(states, acts, n, b) && !SyncsFile(states[n], acts[n]))
  {
    if EntersAt(states, acts, n, b) {
      assert NoneSyncsFile(states, acts, n, n + 1);
    }
    if UnsyncedBox(states, acts, n, b) && !SyncsFile(states[n], acts[n]) {
      var i: nat :| i < n && EntersAt(states, acts, i, b) && NoneSyncsFile(states, acts, i, n);
      assert NoneSyncsFile(states, acts, i, n + 1);
    }
    if UnsyncedBox(states, acts, n + 1, b) {
      var i: nat :| i < n + 1 && EntersAt(states, acts, i, b) && NoneSyncsFile(states, acts, i, n + 1);
      assert i < n ==> NoneSyncsFile(states, acts, i, n) && !SyncsFile(states[n], acts[n]);
    }
  }

  /** A power loss may bring back a cursor file without the box. */
  predicate MayLack(s: Pipeline, b: int) {
    exists j :: 0 <= j < |s.files| && b !in CursorsIn(s.files[j])
  }

  /** What a step does to the cursor files that may be on disk. */
  ghost predicate FilesStep(s: Pipeline, a: Act, s': Pipeline) {
    && s.files != [] && s'.files != []
    && (SyncsFile(s, a) ==> |s'.files| == 1 && !ExposesFile(a))
    && (!SyncsFile(s, a) ==> s'.files == s.files || (ExposesFile(a) && s'.files == s.files + [Latest(s'.files)]))
    && (!a.PowerLoss? ==> CursorsIn(Latest(s.files)).Keys <= CursorsIn(Latest(s'.files)).Keys)
    && (!a.PowerLoss? && !(a.Side? && a.side.Initialise?) ==>
          CursorsIn(Latest(s.files)).Keys == CursorsIn(Latest(s'.files)).Keys)
  }

  lemma FilesMove(cfg: Config, s: Pipeline, a: Act)
    requires Inv(cfg, s) && Enabled(cfg, s, a)
    ensures FilesStep(s, a, Next(cfg, s, a))
  {
    match a
    case Side(side) =>
      if side.Initialise? {
        InitialiseMoves(cfg, s, side);
      } else {
        SidecarFiles(cfg, s, side);
      }
    case OnHost(act) => HostLeavesFiles(cfg, s, act);
    case PowerLoss(_, _) =>
  }

  lemma InitialiseMoves(cfg: Config, s: Pipeline, a: SidecarAct)
    requires FilesOk(s) && SidecarEnabled(cfg, s, a) && a.Initialise?
    ensures FilesStep(s, Side(a), SidecarStep(cfg, s, a))
  {
    var known, s' := CursorsIn(Latest(s.files)), SidecarStep(cfg, s, a);
    BaselineKeeps(a.api, a.boxes, known);
    var based := Baseline(a.api, a.boxes, known).value;
    forall b | b in known ensures b in based {
    }
    assert s'.files == if Matches(s, a) then s.files else AfterSave(s.files, Stored(based), a.outcome);
  }

  lemma FilesMoveAt(cfg: Config, states: seq<Pipeline>, acts: seq<Act>, n: nat)
    requires Run(cfg, states, acts) && n < |acts|
    ensures Inv(cfg, states[n]) && FilesStep(states[n], acts[n], states[n + 1])
  {
    RunInv(cfg, states, acts, n);
    FilesMove(cfg, states[n], acts[n]);
  }

  lemma HostLeavesFiles(cfg: Config, s: Pipeline, a: HostAct)
    requires HostEnabled(s, a)
    ensures HostStep(cfg, s, a).files == s.files
  {
  }

  lemma SidecarFiles(cfg: Config, s: Pipeline, a: SidecarAct)
    requires FilesOk(s) && SidecarEnabled(cfg, s, a) && !a.Initialise?
    ensures FilesStep(s, Side(a), SidecarStep(cfg, s, a))
  {
    match a
    case SaveState(outcome) => assert Earnings(s).Keys == CursorsIn(Latest(s.files)).Keys;
    case _ =>
  }

  /**
   Over every run: a power loss may bring back a cursor file without a box that readers see in it if and only
   if the box came into the file by a baseline save that failed after its rename, and since then no save of
   the file has returned and the machine has not gone down. So it stands when readiness is announced, too.
   */
  lemma {:induction false} LackedExactly(cfg: Config, states: seq<Pipeline>, acts: seq<Act>, n: nat, b: int)
    requires Run(cfg, states, acts) && n <= |acts|
    requires states[n].files != [] && b in CursorsIn(Latest(states[n].files))
    ensures MayLack(states[n], b) <==> UnsyncedBox(states, acts, n, b)
  {
    if n > 0 {
      FilesMoveAt(cfg, states, acts, n - 1);
      UnsyncedBoxGrows(states, acts, n - 1, b);
      LackStep(states[n - 1], acts[n - 1], states[n], b);
      if !SyncsFile(states[n - 1], acts[n - 1]) && b in CursorsIn(Latest(states[n - 1].files)) {
        LackedExactly(cfg, states, acts, n - 1, b);
      }
    }
  }

  lemma LackStep(s: Pipeline, a: Act, s': Pipeline, b: int)
    requires FilesStep(s, a, s') && b in CursorsIn(Latest(s'.files))
    ensures SyncsFile(s, a) ==> !MayLack(s', b) && !EntersUnsynced(s, a, s', b)
    ensures !SyncsFile(s, a) && b in CursorsIn(Latest(s.files)) ==> (MayLack(s', b) <==> MayLack(s, b))
    ensures !SyncsFile(s, a) && b !in CursorsIn(Latest(s.files)) ==> MayLack(s', b) && EntersUnsynced(s, a, s', b)
  {
    if SyncsFile(s, a) {
      assert s'.files[0] == Latest(s'.files);
    } else {
      assert forall j :: 0 <= j < |s.files| ==> s'.files[j] == s.files[j];
      assert s'.files[|s.files| - 1] == Latest(s.files);
    }
  }

  lemma KeptStep(s: Pipeline, a: Act, s': Pipeline, b: int)
    requires BaselineStep(s, a, s', b) && FilesOk(s) && |s.files| == 1 && (a.PowerLoss? ==> a.file < |s.files|)
    requires b in s.record.baselines ==> FirstInForce(s.record, b)
    requires b !in s.record.baselines ==> b !in s.record.inForce
    ensures b in s'.record.baselines ==> FirstInForce(s'.record, b)
    ensures b !in s'.record.baselines ==> b !in s'.record.inForce
  {
  }

  /** In a run in which no save of the cursor file fails after its rename, each box keeps its first baseline. */
  lemma {:induction false} FirstBaselineKept(cfg: Config, states: seq<Pipeline>, acts: seq<Act>, n: nat, b: int)
    requires Run(cfg, states, acts) && n <= |acts| && forall i :: 0 <= i < n ==> !ExposesFile(acts[i])
    ensures |states[n].files| == 1
    ensures b in states[n].record.baselines ==> FirstInForce(states[n].record, b)
    ensures b !in states[n].record.baselines ==> b !in states[n].record.inForce
  {
    if n > 0 {
      FirstBaselineKept(cfg, states, acts, n - 1, b);
      FilesMoveAt(cfg, states, acts, n - 1);
      BaselineMovesAt(cfg, states, acts, n - 1, b);
      KeptStep(states[n - 1], acts[n - 1], states[n], b);
    }
  }

  // ---------------------------------------------------------------- a baseline that is lost

  /** The box is listed with a cursor that can be recorded. */
  predicate Offers(api: Api, box: Box, c: Cursor) {
    box.id > 0 && box.changesUrl != "" && api.cursorOf(box.changesUrl) == Some(c) && c.since != ""
  }

  lemma BaselineOffered(api: Api, box: Box, c: Cursor)
    requires Offers(api, box, c)
    ensures Baseline(api, [box], map[]) == Ok(map[box.id := c])
    ensures forall d: Cursor :: Baseline(api, [box], map[box.id := d]) == Ok(map[box.id := d])
  {
    assert [box][1..] == [];
  }

  /** A host at rest with these cursor files, nothing ingested, and what was announced so far. */
  function AtRest(files: seq<CursorFile>, baselines: map<int, seq<Cursor>>, inForce: set<int>): Pipeline {
    Pipeline(Down, Stopped, [], [], files, [Log([], [])], Record(Log([], []), [], baselines, inForce, []))
  }

  /** One session that does nothing but initialise: launch, initialise, stop. */
  lemma Session(cfg: Config, states: seq<Pipeline>, acts: seq<Act>, api: Api, box: Box, outcome: SaveOutcome)
    returns (states': seq<Pipeline>, acts': seq<Act>)
    requires Run(cfg, states, acts) && states[|acts|].files != [] && states[|acts|].host == Stopped
    requires states[|acts|].sidecar == Down
    requires LoadCursors(Latest(states[|acts|].files)).Ok?
    requires Baseline(api, [box], CursorsIn(Latest(states[|acts|].files))).Ok?
    requires states[|acts|].logs != []
    ensures Run(cfg, states', acts')
    ensures var s := states[|acts|];
            var based := Baseline(api, [box], CursorsIn(Latest(s.files))).value;
            states'[|acts'|] == Halted(Initialised(s, based, outcome, true))
  {
    var launch, initialise := OnHost(Launch), Side(Initialise(api, [box], outcome, true));
    var s1 := Next(cfg, states[|acts|], launch);
    states', acts' := RunSnoc(cfg, states, acts, launch, s1);
    var s2 := Next(cfg, s1, initialise);
    states', acts' := RunSnoc(cfg, states', acts', initialise, s2);
    states', acts' := RunSnoc(cfg, states', acts', OnHost(Stop), Halted(s2));
  }

  lemma UnsyncedSession(id: int, c: Cursor)
    ensures var known := map[id := c];
            var s' := Halted(Initialised(AtRest([NoFile], map[], {}), known, FailedAfter, true));
            s' == AtRest([NoFile, Stored(known)], map[], {})
  {
  }

  lemma AnnouncingSession(id: int, c: Cursor)
    ensures var known := map[id := c];
            var s' := Halted(Initialised(AtRest([NoFile, Stored(known)], map[], {}), known, Saved, true));
            s' == AtRest([NoFile, Stored(known)], map[id := [c]], {id})
  {
    var r := Record(Log([], []), [], map[], {}, []);
    assert Announced(r, id) + [c] == [c];
    assert Announce(r, map[id := c]) == r.(baselines := map[id := [c]], inForce := {id});
  }

  lemma LossAfterReadiness(cfg: Config, id: int, c: Cursor)
    ensures var s := AtRest([NoFile, Stored(map[id := c])], map[id := [c]], {id});
            Enabled(cfg, s, PowerLoss(0, 0)) && Next(cfg, s, PowerLoss(0, 0)) == AtRest([NoFile], map[id := [c]], {})
  {
  }

  lemma NewBaselineSession(id: int, c: Cursor, d: Cursor)
    ensures var known := map[id := d];
            var s' := Halted(Initialised(AtRest([NoFile], map[id := [c]], {}), known, Saved, true));
            s' == AtRest([Stored(known)], map[id := [c, d]], {id})
  {
    var r := Record(Log([], []), [], map[id := [c]], {}, []);
    assert Announced(r, id) + [d] == [c, d];
    assert Announce(r, map[id := d]) == r.(baselines := map[id := [c, d]], inForce := {id});
  }

  /** The run up to the readiness of the first baseline. */
  lemma FirstReadiness(cfg: Config, first: Api, box: Box, c: Cursor) returns (states: seq<Pipeline>, acts: seq<Act>)
    requires cfg.lim.Clamped() && Offers(first, box, c)
    ensures Run(cfg, states, acts)
    ensures states[|acts|] == AtRest([NoFile, Stored(map[box.id := c])], map[box.id := [c]], {box.id})
  {
    BaselineOffered(first, box, c);
    var s0 := AtRest([NoFile], map[], {});
    assert LogOk(Log([], []), cfg.lim);
    assert Run(cfg, [s0], []);
    states, acts := Session(cfg, [s0], [], first, box, FailedAfter);
    UnsyncedSession(box.id, c);
    states, acts := Session(cfg, states, acts, first, box, Saved);
    AnnouncingSession(box.id, c);
  }

  /**
   A baseline lost after readiness: the baseline save fails after its rename, the next start finds the box in
   the file and announces readiness, a power loss brings back the state before, and the start after that takes
   a new baseline. No poll was made, nothing was acknowledged, and the box stands at the second cursor: what
   arrived between the two is never emitted. It happens with any two cursors.
   */
  lemma BaselineSkips(cfg: Config, first: Api, second: Api, box: Box, c: Cursor, d: Cursor)
    returns (states: seq<Pipeline>, acts: seq<Act>)
    requires cfg.lim.Clamped() && Offers(first, box, c) && Offers(second, box, d)
    ensures Run(cfg, states, acts)
    ensures states[|acts|] == AtRest([Stored(map[box.id := d])], map[box.id := [c, d]], {box.id})
  {
    states, acts := FirstReadiness(cfg, first, box, c);
    LossAfterReadiness(cfg, box.id, c);
    states, acts := RunSnoc(cfg, states, acts, PowerLoss(0, 0), AtRest([NoFile], map[box.id := [c]], {}));
    BaselineOffered(second, box, d);
    states, acts := Session(cfg, states, acts, second, box, Saved);
    NewBaselineSession(box.id, c, d);
  }
}
