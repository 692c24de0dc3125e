/**
 Audits that agree, while the cache survives, check each passing module once between them; and what
 removing the cache does not undo.
 */
module ReplayOnce {
  import opened Wrappers
  import opened ReplayCache

  // --- Who holds which lock ---

  predicate Holding(s: Stage) {
    s.Claimed? || s.Checking? || s.Passing? || s.Merging? || s.Loaded?
  }

  predicate AtCache(s: Stage) {
    s.Merging? || s.Loaded?
  }

  ghost predicate StageLocks(w: World, id: Id, m: Module, s: Stage) {
    && (Holding(s) ==> m in w.claims && w.claims[m] == id)
    && (AtCache(s) ==> w.lock == Some((id, m)))
  }

  ghost predicate IsClaim(w: World, m: Module) {
    m in w.claims ==>
      && w.claims[m] in w.audits && m in w.audits[w.claims[m]].stages && Holding(w.audits[w.claims[m]].stages[m])
  }

  ghost predicate Locked(w: World) {
    && (forall id, m :: id in w.audits && m in w.audits[id].stages ==> StageLocks(w, id, m, w.audits[id].stages[m]))
    && (forall m :: IsClaim(w, m))
    && forall id :: id in w.audits && w.audits[id].status != Working ==> Settled(w.audits[id])
  }

  /** A worker goes from one stage to another: it takes and gives up only its own locks. */
  ghost predicate OnlyItsLocks(w: World, next: World, id: Id, m: Module, s: Stage) {
    && OnlyStage(w, next, id, m, s) && m in w.audits[id].stages
    && var s0 := w.audits[id].stages[m];
    && (if Holding(s) then next.claims == w.claims[m := id] && (Holding(s0) || m !in w.claims)
        else next.claims == if Holding(s0) then Without(w.claims, m) else w.claims)
    && (if AtCache(s) then next.lock == Some((id, m)) && (AtCache(s0) || w.lock.None?)
        else next.lock == if AtCache(s0) then None else w.lock)
  }

  ghost predicate StaysOrLocks(w: World, next: World, id: Id, m: Module) {
    next == w || (id in next.audits && m in next.audits[id].stages
        && OnlyItsLocks(w, next, id, m, next.audits[id].stages[m]))
  }

  predicate IsEarly(s: Stage) {
    s.Todo? || s.Claimed? || s.Checking?
  }

  lemma EarlyOnlyItsLocks(w: World, id: Id, m: Module, verdict: bool)
    requires Locked(w) && CanMove(w, Act(id, m, verdict)) && w.timeline != [] && IsEarly(w.audits[id].stages[m])
    ensures StaysOrLocks(w, Step(w, id, m, verdict), id, m)
  {
    hide Settled, Load;
    assert StageLocks(w, id, m, w.audits[id].stages[m]);
    hide Locked;
    match w.audits[id].stages[m]
    case Todo =>
    case Claimed => assert Step(w, id, m, verdict) == StepClaimed(w, id, m);
    case Checking => assert Step(w, id, m, verdict) == StepChecking(w, id, m, verdict);
  }

  lemma LateOnlyItsLocks(w: World, id: Id, m: Module, verdict: bool)
    requires Locked(w) && CanMove(w, Act(id, m, verdict)) && w.timeline != [] && !IsEarly(w.audits[id].stages[m])
    ensures StaysOrLocks(w, Step(w, id, m, verdict), id, m)
  {
    assert StageLocks(w, id, m, w.audits[id].stages[m]);
  }

  lemma StepOnlyItsLocks(w: World, id: Id, m: Module, verdict: bool)
    requires Locked(w) && CanMove(w, Act(id, m, verdict)) && w.timeline != []
    ensures StaysOrLocks(w, Step(w, id, m, verdict), id, m)
  {
    if IsEarly(w.audits[id].stages[m]) {
      EarlyOnlyItsLocks(w, id, m, verdict);
    } else {
      LateOnlyItsLocks(w, id, m, verdict);
    }
  }

  lemma OnlyItsLocksKeeps(w: World, next: World, id: Id, m: Module, s: Stage)
    requires Locked(w) && OnlyItsLocks(w, next, id, m, s) && w.audits[id].status == Working
    ensures Locked(next)
  {
    assert StageLocks(w, id, m, w.audits[id].stages[m]);
    forall j, k | j in next.audits && k in next.audits[j].stages
      ensures StageLocks(next, j, k, next.audits[j].stages[k])
    {
      assert j in w.audits && k in w.audits[j].stages && StageLocks(w, j, k, w.audits[j].stages[k]);
    }
    forall k
      ensures IsClaim(next, k)
    {
      assert IsClaim(w, k);
    }
  }

  lemma MoveKeepsLocked(w: World, v: Move)
    requires Locked(w) && CanMove(w, v) && w.timeline != []
    ensures Locked(After(w, v))
  {
    var next := After(w, v);
    if v.Act? {
      StepOnlyItsLocks(w, v.id, v.m, v.verdict);
      if next != w {
        OnlyItsLocksKeeps(w, next, v.id, v.m, next.audits[v.id].stages[v.m]);
      }
    } else {
      OtherMovesKeepLocked(w, v);
    }
  }

  lemma OtherMovesKeepLocked(w: World, v: Move)
    requires Locked(w) && CanMove(w, v) && !v.Act? && w.timeline != []
    ensures Locked(After(w, v))
  {
    var next := After(w, v);
    forall j, k | j in next.audits && k in next.audits[j].stages
      ensures StageLocks(next, j, k, next.audits[j].stages[k])
    {
      assert j in w.audits && k in w.audits[j].stages ==> StageLocks(w, j, k, w.audits[j].stages[k]);
    }
    forall k
      ensures IsClaim(next, k)
    {
      assert IsClaim(w, k);
    }
  }

  // --- Once ---

  /** The audits read the same identity and the same bytes of what they may cache, and nothing went wrong for them. */
  ghost predicate Agree(w: World, identity: Identity) {
    && (forall id :: id in w.audits ==> Survives(w.audits[id], identity))
    && forall i, j, m :: i in w.audits && j in w.audits && Caches(w.audits[i], m) && Caches(w.audits[j], m) ==>
         w.audits[i].digests[m] == w.audits[j].digests[m]
  }

  ghost predicate Caches(a: Audit, m: Module) {
    m in a.cacheable && m in a.digests
  }

  ghost predicate Survives(a: Audit, identity: Identity) {
    && a.identity == identity && a.status != Killed && (a.status == Failed ==> a.published == {})
    && forall m :: m in a.stages ==> !a.stages[m].Broken?
  }

  function FilePassed(file: Option<File>): map<Module, Digest> {
    if file.Some? then file.value.passed else map[]
  }

  /** The module's pass is on its way into the cache. */
  ghost predicate OnItsWay(w: World, m: Module) {
    && m in w.claims && w.claims[m] in w.audits && m in w.audits[w.claims[m]].stages
    && var s := w.audits[w.claims[m]].stages[m]; s.Passing? || s.Merging? || s.Loaded?
  }

  ghost predicate HasRun(w: World, m: Module) {
    exists r :: r in w.runs && r.module_ == m
  }

  ghost predicate EachOnce(runs: seq<Run>) {
    forall i, j :: 0 <= i < j < |runs| ==> runs[i].module_ != runs[j].module_
  }

  ghost predicate IsCachedPass(w: World, identity: Identity, m: Module, d: Digest) {
    exists id :: id in w.audits && Caches(w.audits[id], m) && w.audits[id].digests[m] == d
  }

  ghost predicate StageOnce(w: World, id: Id, m: Module, s: Stage)
    requires id in w.audits
  {
    && (Holding(s) ==> Caches(w.audits[id], m))
    && (s.Checking? ==> !HasRun(w, m))
    && (s.Loaded? ==> s.passed == FilePassed(w.file))
  }

  ghost predicate Once(w: World, identity: Identity) {
    && EachOnce(w.runs)
    && (forall m :: HasRun(w, m) ==> m in FilePassed(w.file) || OnItsWay(w, m))
    && (w.file.Some? ==> w.file.value.identity == identity)
    && (forall m :: m in FilePassed(w.file) ==> IsCachedPass(w, identity, m, FilePassed(w.file)[m]))
    && forall id, m :: id in w.audits && m in w.audits[id].stages ==> StageOnce(w, id, m, w.audits[id].stages[m])
  }

  /** Agreeing audits load what the file holds. */
  lemma LoadsTheFile(w: World, identity: Identity, id: Id)
    requires Agree(w, identity) && Once(w, identity) && id in w.audits
    ensures Load(w.file, w.audits[id]) == FilePassed(w.file)
    ensures forall m :: m in FilePassed(w.file) && Caches(w.audits[id], m) ==>
        FilePassed(w.file)[m] == w.audits[id].digests[m]
  {
    assert Survives(w.audits[id], identity);
    forall m | m in FilePassed(w.file) && Caches(w.audits[id], m)
      ensures FilePassed(w.file)[m] == w.audits[id].digests[m]
    {
      assert IsCachedPass(w, identity, m, FilePassed(w.file)[m]);
    }
  }

  lemma SameRuns(w: World, next: World)
    requires next.runs == w.runs
    ensures forall m :: HasRun(next, m) <==> HasRun(w, m)
  {
    assert forall m :: HasRun(w, m) ==> HasRun(next, m);
    assert forall m :: HasRun(next, m) ==> HasRun(w, m);
  }

  lemma CachedPassStays(w: World, next: World, identity: Identity, m: Module, d: Digest)
    requires IsCachedPass(w, identity, m, d)
    requires forall id :: id in w.audits ==> id in next.audits && next.audits[id].digests == w.audits[id].digests
                                             && next.audits[id].cacheable == w.audits[id].cacheable
    ensures IsCachedPass(next, identity, m, d)
  {
    var id :| id in w.audits && Caches(w.audits[id], m) && w.audits[id].digests[m] == d;
    assert Caches(next.audits[id], m);
  }

  predicate IsOnItsWay(s: Stage) {
    s.Passing? || s.Merging? || s.Loaded?
  }

  /** A worker's step that records no run and writes nothing. */
  lemma QuietKeepsOnce(w: World, next: World, identity: Identity, id: Id, m: Module, s: Stage)
    requires Locked(w) && Once(w, identity) && OnlyItsLocks(w, next, id, m, s) && next.file == w.file
        && next.runs == w.runs
    requires StageOnce(w, id, m, s)
    requires Holding(w.audits[id].stages[m]) && HasRun(w, m) && m !in FilePassed(w.file) ==> IsOnItsWay(s)
    ensures Once(next, identity)
  {
    hide Settled, EachOnce;
    SameRuns(w, next);
    forall k | k in FilePassed(next.file)
      ensures IsCachedPass(next, identity, k, FilePassed(next.file)[k])
    {
      CachedPassStays(w, next, identity, k, FilePassed(w.file)[k]);
    }
    forall k | HasRun(next, k) && k !in FilePassed(next.file)
      ensures OnItsWay(next, k)
    {
      assert OnItsWay(w, k) && IsClaim(w, k);
      assert StageLocks(w, id, m, w.audits[id].stages[m]);
    }
    forall j, k | j in next.audits && k in next.audits[j].stages
      ensures StageOnce(next, j, k, next.audits[j].stages[k])
    {
      assert (j == id && k == m) || StageOnce(w, j, k, w.audits[j].stages[k]);
    }
  }

  /** A checker passed: its module had no run before, and no other worker is checking it. */
  lemma PassKeepsOnce(w: World, identity: Identity, id: Id, m: Module)
    requires Locked(w) && Once(w, identity) && CanMove(w, Act(id, m, true)) && w.timeline != []
    requires w.audits[id].stages[m].Checking?
    ensures Once(StepChecking(w, id, m, true), identity)
  {
    var next := StepChecking(w, id, m, true);
    var r := next.runs[|w.runs|];
    assert StageOnce(w, id, m, Checking) && StageLocks(w, id, m, Checking);
    assert next.runs == w.runs + [r];
    forall i | 0 <= i < |w.runs|
      ensures w.runs[i].module_ != m
    {
      assert w.runs[i] in w.runs;
    }
    forall k | HasRun(next, k)
      ensures k in FilePassed(next.file) || OnItsWay(next, k)
    {
      assert k == m || HasRun(w, k);
      assert OnItsWay(next, m);
    }
    forall k | k in FilePassed(next.file)
      ensures IsCachedPass(next, identity, k, FilePassed(next.file)[k])
    {
      CachedPassStays(w, next, identity, k, FilePassed(w.file)[k]);
    }
    forall j, k | j in next.audits && k in next.audits[j].stages
      ensures StageOnce(next, j, k, next.audits[j].stages[k])
    {
      if j != id || k != m {
        assert StageOnce(w, j, k, w.audits[j].stages[k]) && StageLocks(w, j, k, w.audits[j].stages[k]);
        assert w.audits[j].stages[k].Checking? ==> k != m;
      }
    }
  }

  /** A merge adds its pass to what the file held. */
  lemma MergeKeepsOnce(w: World, identity: Identity, id: Id, m: Module)
    requires Locked(w) && Agree(w, identity) && Once(w, identity) && CanMove(w, Act(id, m, true))
    requires w.audits[id].stages[m].Loaded?
    ensures Once(StepLoaded(w, id, m, w.audits[id].stages[m].passed), identity)
  {
    hide StepClaimed, AtCache, EachOnce, HasRun;
    var s := w.audits[id].stages[m];
    var next := StepLoaded(w, id, m, s.passed);
    assert Survives(w.audits[id], identity) && StageOnce(w, id, m, s) && StageLocks(w, id, m, s);
    SameRuns(w, next);
    assert Caches(next.audits[id], m);
    forall k | k in FilePassed(next.file)
      ensures IsCachedPass(next, identity, k, FilePassed(next.file)[k])
    {
      if k != m {
        CachedPassStays(w, next, identity, k, FilePassed(w.file)[k]);
      }
    }
    forall k | HasRun(next, k)
      ensures k in FilePassed(next.file) || OnItsWay(next, k)
    {
      assert k in FilePassed(w.file) || OnItsWay(w, k);
    }
    MergeKeepsStages(w, identity, id, m);
  }

  /** Nobody else is merging meanwhile. */
  lemma MergeKeepsStages(w: World, identity: Identity, id: Id, m: Module)
    requires Locked(w) && Once(w, identity) && CanMove(w, Act(id, m, true)) && w.audits[id].stages[m].Loaded?
    ensures var next := StepLoaded(w, id, m, w.audits[id].stages[m].passed);
            forall j, k :: j in next.audits && k in next.audits[j].stages ==>
                StageOnce(next, j, k, next.audits[j].stages[k])
  {
    var next := StepLoaded(w, id, m, w.audits[id].stages[m].passed);
    assert StageLocks(w, id, m, w.audits[id].stages[m]);
    SameRuns(w, next);
    forall j, k | j in next.audits && k in next.audits[j].stages
      ensures StageOnce(next, j, k, next.audits[j].stages[k])
    {
      if j != id || k != m {
        assert StageOnce(w, j, k, w.audits[j].stages[k]) && StageLocks(w, j, k, w.audits[j].stages[k]);
      }
    }
  }

  lemma StepKeepsOnce(w: World, identity: Identity, id: Id, m: Module, verdict: bool)
    requires Locked(w) && Agree(w, identity) && Once(w, identity) && CanMove(w, Act(id, m, verdict)) && w.timeline != []
    requires Agree(Step(w, id, m, verdict), identity)
    ensures Once(Step(w, id, m, verdict), identity)
  {
    hide Settled, Load;
    var s, next := w.audits[id].stages[m], Step(w, id, m, verdict);
    assert StageOnce(w, id, m, s) && StageLocks(w, id, m, s) && Survives(next.audits[id], identity);
    LoadsTheFile(w, identity, id);
    if s.Checking? && verdict {
      PassKeepsOnce(w, identity, id, m);
    } else if s.Loaded? {
      MergeKeepsOnce(w, identity, id, m);
    } else if next != w {
      StepOnlyItsLocks(w, id, m, verdict);
      QuietStep(w, identity, id, m, verdict);
      QuietKeepsOnce(w, next, identity, id, m, next.audits[id].stages[m]);
    }
  }

  /** A step that records no run and writes nothing, and leaves a pass that is on its way there. */
  ghost predicate IsQuiet(w: World, next: World, id: Id, m: Module) {
    && id in w.audits && m in w.audits[id].stages && id in next.audits && m in next.audits[id].stages
    && next.file == w.file && next.runs == w.runs && StageOnce(w, id, m, next.audits[id].stages[m])
    && (Holding(w.audits[id].stages[m]) && HasRun(w, m) && m !in FilePassed(w.file) ==>
        IsOnItsWay(next.audits[id].stages[m]))
  }

  lemma EarlyQuietStep(w: World, identity: Identity, id: Id, m: Module, verdict: bool)
    requires Locked(w) && Agree(w, identity) && Once(w, identity) && CanMove(w, Act(id, m, verdict)) && w.timeline != []
    requires !w.audits[id].stages[m].Loaded? && !(w.audits[id].stages[m].Checking? && verdict)
    requires IsEarly(w.audits[id].stages[m])
    ensures IsQuiet(w, Step(w, id, m, verdict), id, m)
  {
    var s, next := w.audits[id].stages[m], Step(w, id, m, verdict);
    assert StageOnce(w, id, m, s) && StageLocks(w, id, m, s);
    LoadsTheFile(w, identity, id);
    assert HasRun(w, m) ==> m in FilePassed(w.file) || OnItsWay(w, m);
  }

  lemma LateQuietStep(w: World, identity: Identity, id: Id, m: Module, verdict: bool)
    requires Locked(w) && Agree(w, identity) && Once(w, identity) && CanMove(w, Act(id, m, verdict)) && w.timeline != []
    requires !w.audits[id].stages[m].Loaded? && !(w.audits[id].stages[m].Checking? && verdict)
    requires !IsEarly(w.audits[id].stages[m]) && Agree(Step(w, id, m, verdict), identity)
    ensures IsQuiet(w, Step(w, id, m, verdict), id, m)
  {
    var s, next := w.audits[id].stages[m], Step(w, id, m, verdict);
    assert StageOnce(w, id, m, s) && StageLocks(w, id, m, s) && Survives(next.audits[id], identity);
    LoadsTheFile(w, identity, id);
    assert HasRun(w, m) ==> m in FilePassed(w.file) || OnItsWay(w, m);
  }

  lemma QuietStep(w: World, identity: Identity, id: Id, m: Module, verdict: bool)
    requires Locked(w) && Agree(w, identity) && Once(w, identity) && CanMove(w, Act(id, m, verdict)) && w.timeline != []
    requires !w.audits[id].stages[m].Loaded? && !(w.audits[id].stages[m].Checking? && verdict)
    requires Agree(Step(w, id, m, verdict), identity)
    ensures IsQuiet(w, Step(w, id, m, verdict), id, m)
  {
    if IsEarly(w.audits[id].stages[m]) {
      EarlyQuietStep(w, identity, id, m, verdict);
    } else {
      LateQuietStep(w, identity, id, m, verdict);
    }
  }

  /** What no worker does leaves the file and every worker where it is, while the audits survive. */
  ghost predicate OnlyOthers(w: World, next: World) {
    && next.file == w.file && next.runs == w.runs && next.claims == w.claims
    && (forall j :: j in w.audits ==>
          && j in next.audits && next.audits[j].digests == w.audits[j].digests
          && next.audits[j].cacheable == w.audits[j].cacheable && next.audits[j].stages == w.audits[j].stages)
    && forall j, k :: j in next.audits && j !in w.audits && k in next.audits[j].stages ==>
        next.audits[j].stages[k].Todo?
  }

  lemma OtherMovesAreQuiet(w: World, identity: Identity, v: Move)
    requires CanMove(w, v) && !v.Act? && w.timeline != [] && Agree(After(w, v), identity)
    ensures OnlyOthers(w, After(w, v))
  {
    var next := After(w, v);
    if v.Finish? || v.Kill? {
      AllSurvive(next, identity, v.id);
    }
  }

  lemma AllSurvive(w: World, identity: Identity, id: Id)
    requires Agree(w, identity) && id in w.audits
    ensures Survives(w.audits[id], identity)
  {
  }

  lemma OthersKeepOnce(w: World, next: World, identity: Identity)
    requires Once(w, identity) && OnlyOthers(w, next)
    ensures Once(next, identity)
  {
    hide Settled, EachOnce;
    SameRuns(w, next);
    forall k | k in FilePassed(next.file)
      ensures IsCachedPass(next, identity, k, FilePassed(next.file)[k])
    {
      CachedPassStays(w, next, identity, k, FilePassed(w.file)[k]);
    }
    forall k | HasRun(next, k) && k !in FilePassed(next.file)
      ensures OnItsWay(next, k)
    {
      assert HasRun(w, k) && OnItsWay(w, k);
    }
    forall j, k | j in next.audits && k in next.audits[j].stages
      ensures StageOnce(next, j, k, next.audits[j].stages[k])
    {
      if j in w.audits && k in w.audits[j].stages {
        assert StageOnce(w, j, k, w.audits[j].stages[k]);
      }
    }
  }

  // --- Over whole runs ---

  /** What went wrong stays visible: audits that agree now agreed before. */
  lemma AgreedBefore(w: World, identity: Identity, v: Move)
    requires CanMove(w, v) && w.timeline != [] && Agree(After(w, v), identity)
    ensures Agree(w, identity)
  {
    hide Settled, Load, Step, StepFinish, StepKill;
    var next := After(w, v);
    forall id | id in w.audits
      ensures id in next.audits && Survives(w.audits[id], identity)
      ensures next.audits[id].digests == w.audits[id].digests && next.audits[id].cacheable == w.audits[id].cacheable
    {
      SurvivedBefore(w, identity, v, id);
    }
    forall i, j, m | i in w.audits && j in w.audits && Caches(w.audits[i], m) && Caches(w.audits[j], m)
      ensures w.audits[i].digests[m] == w.audits[j].digests[m]
    {
      assert Caches(next.audits[i], m) && Caches(next.audits[j], m);
    }
  }

  lemma SurvivedBefore(w: World, identity: Identity, v: Move, id: Id)
    requires CanMove(w, v) && w.timeline != [] && id in w.audits
    requires id in After(w, v).audits ==> Survives(After(w, v).audits[id], identity)
    ensures id in After(w, v).audits && Survives(w.audits[id], identity)
    ensures After(w, v).audits[id].digests == w.audits[id].digests
        && After(w, v).audits[id].cacheable == w.audits[id].cacheable
  {
    if v.Act? {
      StepKeepsBroken(w, v.id, v.m, v.verdict);
    }
    var a, b := w.audits[id], After(w, v).audits[id];
    forall m | m in a.stages
      ensures !a.stages[m].Broken?
    {
      assert m in b.stages;
    }
  }

  ghost predicate StaysOrSteps(w: World, next: World, id: Id, m: Module) {
    next == w || (id in next.audits && m in next.audits[id].stages
        && OnlyStage(w, next, id, m, next.audits[id].stages[m]))
  }

  lemma StepKeepsBroken(w: World, id: Id, m: Module, verdict: bool)
    requires CanMove(w, Act(id, m, verdict)) && w.timeline != []
    ensures StaysOrSteps(w, Step(w, id, m, verdict), id, m)
    ensures w.audits[id].stages[m].Broken? ==> Step(w, id, m, verdict) == w
  {
    hide Locked, Load;
  }

  lemma {:induction false} ReachableOnce(env: Identity, w: World, n: nat, identity: Identity)
    requires ReachableIn(env, w, n)
    ensures Locked(w) && (Agree(w, identity) ==> Once(w, identity))
    decreases n
  {
    if n > 0 {
      var v :| ReachableIn(env, v, n - 1) && Moves(v, w);
      ReachableOnce(env, v, n - 1, identity);
      var m :| CanMove(v, m) && w == After(v, m);
      MoveKeepsLocked(v, m);
      if Agree(w, identity) {
        AgreedBefore(v, identity, m);
        if m.Act? {
          StepKeepsOnce(v, identity, m.id, m.m, m.verdict);
        } else {
          OtherMovesAreQuiet(v, identity, m);
          OthersKeepOnce(v, w, identity);
        }
      }
    }
  }

  /** Agreeing audits run the checker at most once for each module that passes. */
  lemma CheckedOnce(w: World, identity: Identity)
    requires Reachable(w) && Agree(w, identity)
    ensures EachOnce(w.runs)
  {
    var env, n: nat :| ReachableIn(env, w, n);
    ReachableOnce(env, w, n, identity);
  }

  // --- When a removal sticks ---

  /** A worker of another module has read m's pass and is about to write it. */
  ghost predicate CarriesAt(w: World, m: Module, id: Id, k: Module) {
    && k != m && id in w.audits && k in w.audits[id].stages && w.audits[id].stages[k].Loaded?
    && m in w.audits[id].stages[k].passed
  }

  ghost predicate IsCarried(w: World, m: Module) {
    exists id, k :: CarriesAt(w, m, id, k)
  }

  /** m's own pass is merged in. */
  ghost predicate Merges(w: World, v: Move, m: Module)
    requires CanMove(w, v)
  {
    v.Act? && v.m == m && w.audits[v.id].stages[m].Loaded?
  }

  /** n moves, none of which merges m's own pass. */
  ghost predicate RunsWithout(v: World, w: World, m: Module, n: nat)
    decreases n
  {
    if n == 0 then v == w
    else exists u, a :: && RunsWithout(v, u, m, n - 1) && u.timeline != []
                        && CanMove(u, a) && !Merges(u, a, m) && w == After(u, a)
  }

  ghost predicate ComesBack(v: World, m: Module) {
    exists w, n: nat :: RunsWithout(v, w, m, n) && m in FilePassed(w.file)
  }

  ghost predicate IsGone(w: World, m: Module) {
    m !in FilePassed(w.file) && !IsCarried(w, m)
  }

  lemma StepKeepsGone(w: World, m: Module, id: Id, k: Module, verdict: bool)
    requires IsGone(w, m) && w.timeline != [] && CanMove(w, Act(id, k, verdict)) && !Merges(w, Act(id, k, verdict), m)
    ensures IsGone(Step(w, id, k, verdict), m)
  {
    var next := Step(w, id, k, verdict);
    StepKeepsBroken(w, id, k, verdict);
    assert !CarriesAt(w, m, id, k);
    forall j, l
      ensures !CarriesAt(next, m, j, l)
    {
      assert !CarriesAt(w, m, j, l);
    }
  }

  lemma MoveKeepsGone(w: World, m: Module, v: Move)
    requires IsGone(w, m) && w.timeline != [] && CanMove(w, v) && !Merges(w, v, m)
    ensures IsGone(After(w, v), m)
  {
    if v.Act? {
      StepKeepsGone(w, m, v.id, v.m, v.verdict);
    } else {
      var next := After(w, v);
      forall j, l
        ensures !CarriesAt(next, m, j, l)
      {
        assert !CarriesAt(w, m, j, l);
      }
    }
  }

  lemma {:induction false} RunKeepsGone(v: World, w: World, m: Module, n: nat)
    requires IsGone(v, m) && RunsWithout(v, w, m, n)
    ensures IsGone(w, m)
    decreases n
  {
    if n > 0 {
      var u, a :| RunsWithout(v, u, m, n - 1) && u.timeline != [] && CanMove(u, a) && !Merges(u, a, m)
          && w == After(u, a);
      RunKeepsGone(v, u, m, n - 1);
      MoveKeepsGone(u, m, a);
    }
  }

  /** A worker that carries it writes it at its next step. */
  lemma CarriedComesBack(v: World, m: Module)
    requires Reachable(v) && IsCarried(v, m)
    ensures ComesBack(v, m)
  {
    hide Agree, Sound, ReachableIn, IsCachedPass, StageLocks, Moves;
    var env, n: nat :| ReachableIn(env, v, n);
    ReachableIsSound(env, v, n);
    ReachableOnce(env, v, n, env);
    var id, k :| CarriesAt(v, m, id, k);
    assert AuditIsSound(v, v.audits[id]) && StageIsSound(v.runs, v.audits[id], k, v.audits[id].stages[k]);
    var w := After(v, Act(id, k, true));
    assert RunsWithout(v, v, m, 0) && !Merges(v, Act(id, k, true), m);
    assert RunsWithout(v, w, m, 1);
  }

  /**
   What is out of the cache comes back on some run that does not merge it anew exactly if a worker of another
   module has read it and is about to write.
   */
  lemma ComesBackIfCarried(v: World, m: Module)
    requires Reachable(v) && m !in FilePassed(v.file)
    ensures ComesBack(v, m) <==> IsCarried(v, m)
  {
    if IsCarried(v, m) {
      CarriedComesBack(v, m);
    } else {
      forall w, n: nat | RunsWithout(v, w, m, n)
        ensures m !in FilePassed(w.file)
      {
        RunKeepsGone(v, w, m, n);
      }
    }
  }

  /**
   A failed audit removes the cache its passes went into. The removal of a pass sticks exactly if no worker
   of another module had read it to merge beside it.
   */
  lemma RemovalSticks(w: World, id: Id, m: Module)
    requires Reachable(w) && w.timeline != [] && CanMove(w, Finish(id)) && !Holds(w.audits[id], Now(w))
    requires w.audits[id].published != {}
    ensures After(w, Finish(id)).file.None?
    ensures ComesBack(After(w, Finish(id)), m) <==> IsCarried(w, m)
  {
    var v := After(w, Finish(id));
    OneMore(w, Finish(id));
    ComesBackIfCarried(v, m);
    forall j, k
      ensures CarriesAt(v, m, j, k) <==> CarriesAt(w, m, j, k)
    {
    }
  }

  // --- A run on which it does not ---

  lemma OneMore(w: World, v: Move)
    requires Reachable(w) && w.timeline != [] && CanMove(w, v)
    ensures Reachable(After(w, v))
  {
    var env, n: nat :| ReachableIn(env, w, n);
    assert Moves(w, After(w, v));
    assert ReachableIn(env, After(w, v), n + 1);
  }

  /** A working audit whose tools and inputs are as it read them, with a module at this stage. */
  ghost predicate IsAt(w: World, id: Id, m: Module, s: Stage) {
    && Reachable(w) && w.timeline != [] && id in w.audits && Caches(w.audits[id], m)
    && m in w.audits[id].stages && w.audits[id].stages[m] == s
    && w.audits[id].status == Working && Now(w) == w.audits[id].identity
  }

  lemma Claims(w: World, id: Id, m: Module) returns (next: World)
    requires IsAt(w, id, m, Todo) && m !in w.claims
    ensures IsAt(next, id, m, Claimed) && next == SetStage(w, id, m, Claimed).(claims := w.claims[m := id])
  {
    hide Locked, StepClaimed, StepMerging, ReachableIn;
    OneMore(w, Act(id, m, true));
    next := Step(w, id, m, true);
  }

  lemma FindsNoPass(w: World, id: Id, m: Module) returns (next: World)
    requires IsAt(w, id, m, Claimed) && m !in Load(w.file, w.audits[id])
    ensures IsAt(next, id, m, Checking) && next == SetStage(w, id, m, Checking)
  {
    OneMore(w, Act(id, m, true));
    next := Step(w, id, m, true);
  }

  lemma Passes(w: World, id: Id, m: Module) returns (next: World)
    requires IsAt(w, id, m, Checking)
    ensures IsAt(next, id, m, Passing) && next == SetStage(w, id, m, Passing).(runs := next.runs)
  {
    OneMore(w, Act(id, m, true));
    next := Step(w, id, m, true);
  }

  lemma TakesLock(w: World, id: Id, m: Module) returns (next: World)
    requires IsAt(w, id, m, Passing) && w.lock.None?
    ensures IsAt(next, id, m, Merging) && next == SetStage(w, id, m, Merging).(lock := Some((id, m)))
  {
    OneMore(w, Act(id, m, true));
    next := Step(w, id, m, true);
  }

  lemma ReadsCache(w: World, id: Id, m: Module) returns (next: World)
    requires IsAt(w, id, m, Merging)
    ensures IsAt(next, id, m, Loaded(Load(w.file, w.audits[id])))
    ensures next == SetStage(w, id, m, Loaded(Load(w.file, w.audits[id])))
  {
    OneMore(w, Act(id, m, true));
    next := Step(w, id, m, true);
  }

  /** From its start to its merge, one worker alone: only its own stage, claim and the cache lock have changed. */
  lemma GoesToMerge(w: World, id: Id, m: Module) returns (next: World)
    requires IsAt(w, id, m, Todo) && m !in w.claims && w.lock.None? && m !in Load(w.file, w.audits[id])
    ensures IsAt(next, id, m, Loaded(Load(w.file, w.audits[id])))
    ensures next.timeline == w.timeline && next.file == w.file
    ensures next.audits.Keys == w.audits.Keys && forall j :: j in w.audits && j != id ==> next.audits[j] == w.audits[j]
    ensures forall k :: k in next.claims ==> k == m || k in w.claims
    ensures next.audits[id].(stages := w.audits[id].stages) == w.audits[id]
    ensures forall k :: k in next.audits[id].stages ==> k == m || k in w.audits[id].stages
  {
    var w2 := GoesToCheck(w, id, m);
    var w3 := Passes(w2, id, m);
    var w4 := TakesLock(w3, id, m);
    next := ReadsCache(w4, id, m);
  }

  lemma GoesToCheck(w: World, id: Id, m: Module) returns (next: World)
    requires IsAt(w, id, m, Todo) && m !in w.claims && m !in Load(w.file, w.audits[id])
    ensures IsAt(next, id, m, Checking) && next == SetStage(w, id, m, Checking).(claims := w.claims[m := id])
  {
    var w1 := Claims(w, id, m);
    next := FindsNoPass(w1, id, m);
    assert next.audits[id].stages == w.audits[id].stages[m := Checking];
  }

  function Lone(env: Identity, m: Module): Audit {
    Audit(env, 0, map[m := 0], {m}, true, map[m := Todo], {}, Working)
  }

  /** Two audits, of module 10 and of module 20. */
  lemma TwoArrive(env: Identity) returns (w: World)
    ensures Reachable(w) && w == Start(env).(audits := map[1 := Lone(env, 10), 2 := Lone(env, 20)])
  {
    var w0 := Start(env);
    assert ReachableIn(env, w0, 0);
    OneMore(w0, Arrive(1, map[10 := 0], {10}, true));
    var w1 := After(w0, Arrive(1, map[10 := 0], {10}, true));
    assert w1.audits[1] == Lone(env, 10);
    OneMore(w1, Arrive(2, map[20 := 0], {20}, true));
    w := After(w1, Arrive(2, map[20 := 0], {20}, true));
    assert w.audits[2] == Lone(env, 20);
  }

  /** The first has merged its pass. */
  lemma FirstMerges(env: Identity) returns (w: World)
    ensures Reachable(w) && w.timeline == [env] && w.file == Some(File(env, map[10 := 0])) && w.lock.None?
        && w.claims == map[]
    ensures w.audits.Keys == {1, 2} && w.audits[2] == Lone(env, 20)
    ensures w.audits[1].status == Working && w.audits[1].published == {10} && w.audits[1].identity == env
    ensures Settled(w.audits[1])
  {
    hide Locked, ReachableIn;
    var w0 := TwoArrive(env);
    var w5 := GoesToMerge(w0, 1, 10);
    OneMore(w5, Act(1, 10, true));
    w := StepLoaded(w5, 1, 10, map[]);
    assert w.audits[2] == w5.audits[2] == w0.audits[2];
    assert forall k :: k !in w.claims;
    assert w.audits[1].stages[10] == Done(false, true);
  }

  /**
   A failed audit removes the cache its passes went into, but not from under another one that is
   about to write: here the pass it gave up is in the cache again.
   */
  lemma RemovalCanBeUndone(env: Identity, other: Identity) returns (w: World)
    requires env.tool != other.tool
    ensures Reachable(w) && 1 in w.audits && w.audits[1].status == Failed && 10 in w.audits[1].published
    ensures w.file.Some? && w.file.value.identity == w.audits[1].identity && 10 in w.file.value.passed
  {
    var w6 := FirstMerges(env);
    assert !Clashes(map[10 := 0], Lone(env, 20));
    var w11 := GoesToMerge(w6, 2, 20);
    assert w11.audits[1] == w6.audits[1];
    OneMore(w11, Change(other));
    var w12 := After(w11, Change(other));
    assert Now(w12) == other;
    OneMore(w12, Finish(1));
    var w13 := StepFinish(w12, 1);
    assert w13.file.None? && w13.audits[2] == w11.audits[2];
    OneMore(w13, Act(2, 20, true));
    w := StepLoaded(w13, 2, 20, map[10 := 0]);
    assert After(w13, Act(2, 20, true)) == w;
  }
}
